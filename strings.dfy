/**
 * The two string operations the client relies on: joining a list of names
 * with a separator (Go's strings.Join), and, as its reference inverse,
 * splitting a string at every occurrence of a separator character (Go's
 * strings.Split on a one-character separator).
 */
module Strings {

  /** Concatenates `parts`, putting `sep` between neighbours; [] joins to "". */
  function Join(parts: seq<string>, sep: string): string {
    if |parts| == 0 then ""
    else if |parts| == 1 then parts[0]
    else parts[0] + sep + Join(parts[1..], sep)
  }

  /**
   * Splits `s` at every `sep`. Like strings.Split, the result is never empty:
   * "" splits to [""], and a trailing separator yields a trailing "".
   */
  function SplitOn(s: string, sep: char): (parts: seq<string>)
    ensures |parts| >= 1
    decreases |s|
  {
    if |s| == 0 then [""]
    else
      var rest := SplitOn(s[1..], sep);
      if s[0] == sep then [""] + rest
      else [[s[0]] + rest[0]] + rest[1..]
  }

  /** No part contains the separator character. */
  predicate Free(parts: seq<string>, sep: char) {
    forall i :: 0 <= i < |parts| ==> sep !in parts[i]
  }

  /** A string without the separator is a single field. */
  lemma {:induction false} SplitOnFree(s: string, sep: char)
    requires sep !in s
    ensures SplitOn(s, sep) == [s]
    decreases |s|
  {
    if |s| > 0 {
      assert sep !in s[1..];
      SplitOnFree(s[1..], sep);
      assert [s[0]] + s[1..] == s;
    }
  }

  /** A separator-free prefix ended by a separator is exactly the first field. */
  lemma {:induction false} SplitOnField(x: string, sep: char, y: string)
    requires sep !in x
    ensures SplitOn(x + [sep] + y, sep) == [x] + SplitOn(y, sep)
    decreases |x|
  {
    if |x| == 0 {
      assert x + [sep] + y == [sep] + y;
      assert ([sep] + y)[1..] == y;
    } else {
      var s := x + [sep] + y;
      assert s[0] == x[0];
      assert s[1..] == x[1..] + [sep] + y;
      assert sep !in x[1..];
      SplitOnField(x[1..], sep, y);
      assert [x[0]] + x[1..] == x;
    }
  }

  /**
   * Splitting undoes joining whenever the list is non-empty and no part
   * contains the separator: the receiver of a comma-joined list of names
   * recovers exactly the names that were sent.
   */
  lemma {:induction false} SplitJoin(parts: seq<string>, sep: char)
    requires |parts| >= 1
    requires Free(parts, sep)
    ensures SplitOn(Join(parts, [sep]), sep) == parts
    decreases |parts|
  {
    if |parts| == 1 {
      SplitOnFree(parts[0], sep);
    } else {
      assert Free(parts[1..], sep) by {
        forall i | 0 <= i < |parts[1..]| ensures sep !in parts[1..][i] {
          assert parts[1..][i] == parts[i + 1];
        }
      }
      assert sep !in parts[0];
      SplitJoin(parts[1..], sep);
      SplitOnField(parts[0], sep, Join(parts[1..], [sep]));
      assert [parts[0]] + parts[1..] == parts;
    }
  }

  /**
   * A field without the separator, the separator, then the rest: the first
   * separator marks where the field ends, so both halves are determined.
   */
  lemma FieldThenRestUnique(x1: string, y1: string, x2: string, y2: string, sep: char)
    requires sep !in x1 && sep !in x2
    requires x1 + [sep] + y1 == x2 + [sep] + y2
    ensures x1 == x2 && y1 == y2
  {
    var s := x1 + [sep] + y1;
    // the first separator of s stands at |x1| and at |x2|
    var m := if |x1| <= |x2| then |x1| else |x2|;
    assert s[m] == sep;
    assert forall j :: 0 <= j < |x1| ==> s[j] == x1[j];
    assert forall j :: 0 <= j < |x2| ==> s[j] == (x2 + [sep] + y2)[j] == x2[j];
    assert |x1| == |x2|;
    assert x1 == s[..|x1|] == x2;
    assert y1 == s[|x1| + 1..] == y2;
  }

  /**
   * Joining is not injective once a part contains the separator: one name
   * "a/b" and the two names "a", "b" join to the same string.
   */
  lemma JoinCollides()
    ensures ["a/b"] != ["a", "b"]
    ensures Join(["a/b"], "/") == Join(["a", "b"], "/")
  {
    assert Join(["b"], "/") == "b";
    assert ["a", "b"][1..] == ["b"];
  }
}
