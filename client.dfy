/**
 * The Doppler API client (package client): cache-key derivation, the
 * conditional GET of the secrets download with its response cache, the
 * single-secret lookup, and the diff-based push of secret updates.
 *
 * The network call is not modelled: each call site receives the outcome of
 * the request as a `Reply` value and returns the request it would have sent
 * as an `HttpRequest`. JSON decoding and encoding are function parameters
 * (`unmarshal`, `marshal`) that either succeed or fail, and the SHA-1 hex
 * digest is the client's `sha1Hex`, of which only its shape is known.
 */
module Client {
  import opened Wrappers
  import opened Strings

  type Bytes = seq<bv8>

  /** Secret name to secret value. A Go nil map reads like the empty map. */
  type Secrets = map<string, string>

  /**
   * The SHA-1 sum printed in hexadecimal: forty characters whatever the
   * input. Nothing else is known of it.
   */
  type Sha1Hex = f: string -> string | forall s :: |f(s)| == 40
    witness (s: string) => "0000000000000000000000000000000000000000"

  datatype Change = Change(name: string, originalName: string, value: Option<string>, shouldDelete: bool)

  /** An error of this client; `err` is the text of the underlying error, if any. */
  datatype APIError = APIError(err: Option<string>, message: string, data: string) {

    /** The text the error prints: prefix and message, then the cause, then the data. */
    function Error(): (text: string)
      ensures |text| == |ErrorPrefix| + |message|
                        + (if err.Some? then 1 + |err.value| else 0)
                        + (if data != "" then |DataLabel| + |data| else 0)
      ensures text[..|ErrorPrefix| + |message|] == ErrorPrefix + message
      ensures err.Some? ==>
        text[|ErrorPrefix| + |message|..|ErrorPrefix| + |message| + 1 + |err.value|] == "\n" + err.value
      ensures data != "" ==> text[|text| - |DataLabel| - |data|..] == DataLabel + data
      ensures err.None? && data == "" ==> text == ErrorPrefix + message
    {
      var text := ErrorPrefix + message;
      var text := if err.Some? then text + "\n" + err.value else text;
      if data != "" then text + DataLabel + data else text
    }
  }

  const ErrorPrefix := "Doppler API Client Error: "
  const DataLabel := "\nData: "

  /** The error GetSecret reports for a name the download did not contain. */
  function NotFound(name: string): APIError {
    APIError(None, "secret '" + name + "' not found", "")
  }

  datatype SecretRequest = SecretRequest(name: string, project: string, config: string)

  datatype SecretsRequest = SecretsRequest(
    project: string,
    config: string,
    nameTransformer: string,
    format: string,
    secretNames: seq<string>,
    etag: string)

  datatype UpdateSecretsRequest = UpdateSecretsRequest(
    secrets: Secrets,
    changeRequests: seq<Change>,
    project: string,
    config: string)

  datatype SecretResponse = SecretResponse(name: string, value: string)

  datatype SecretsResponse = SecretsResponse(secrets: Secrets, body: Bytes, etag: string)

  datatype CacheEntry = CacheEntry(etag: string, data: SecretsResponse)

  /** What the client asks of the API: method, path, its own headers, query and body. */
  datatype HttpRequest = HttpRequest(
    verb: string,
    path: string,
    headers: map<string, string>,
    params: map<string, string>,
    body: Bytes)

  /**
   * The outcome of one API call: an error (transport failure, an unreadable
   * body, a status outside the success range) or a response with its status
   * code, its ETag header ("" when absent) and its body.
   */
  datatype Reply = Failed(err: APIError) | Answered(status: int, etag: string, body: Bytes)

  const DownloadPath := "/v3/configs/config/secrets/download"
  const PushPath := "/v3/configs/config/secrets"

  /** The status codes the client treats as success: every 2xx and 3xx. */
  function IsSuccess(statusCode: int): (ok: bool)
    ensures ok <==> 200 <= statusCode < 400
  {
    (200 <= statusCode <= 299) || (300 <= statusCode <= 399)
  }

  // ---------------------------------------------------------------------
  // Query parameters of the download

  const QueryKeys: set<string> := {"project", "config", "secrets", "name_transformer", "format"}

  /** `params` carries each field of `r` exactly when it is non-empty. */
  predicate IsQueryOf(r: SecretsRequest, params: map<string, string>) {
    && params.Keys <= QueryKeys
    && ("project" in params <==> r.project != "")
    && ("project" in params ==> params["project"] == r.project)
    && ("config" in params <==> r.config != "")
    && ("config" in params ==> params["config"] == r.config)
    && ("secrets" in params <==> |r.secretNames| > 0)
    && ("secrets" in params ==> params["secrets"] == Join(r.secretNames, ","))
    && ("name_transformer" in params <==> r.nameTransformer != "")
    && ("name_transformer" in params ==> params["name_transformer"] == r.nameTransformer)
    && ("format" in params <==> r.format != "")
    && ("format" in params ==> params["format"] == r.format)
  }

  method BuildQueryParams(r: SecretsRequest) returns (params: map<string, string>)
    ensures IsQueryOf(r, params)
  {
    params := map[];
    if r.project != "" {
      params := params["project" := r.project];
    }
    if r.config != "" {
      params := params["config" := r.config];
    }
    if |r.secretNames| > 0 {
      params := params["secrets" := Join(r.secretNames, ",")];
    }
    if r.nameTransformer != "" {
      params := params["name_transformer" := r.nameTransformer];
    }
    if r.format != "" {
      params := params["format" := r.format];
    }
  }

  /** The query is determined by the request. */
  lemma QueryParamsUnique(r: SecretsRequest, p1: map<string, string>, p2: map<string, string>)
    requires IsQueryOf(r, p1) && IsQueryOf(r, p2)
    ensures p1 == p2
  {
    assert p1.Keys == p2.Keys;
  }

  /** The API recovers the requested names from `secrets` when no name has a comma. */
  lemma QuerySecretsRoundTrip(r: SecretsRequest, params: map<string, string>)
    requires IsQueryOf(r, params)
    requires "secrets" in params
    requires Free(r.secretNames, ',')
    ensures SplitOn(params["secrets"], ',') == r.secretNames
  {
    SplitJoin(r.secretNames, ',');
  }

  // ---------------------------------------------------------------------
  // The conditional download, as a specification on values

  function Find(cache: map<string, CacheEntry>, key: string): Option<CacheEntry> {
    if key in cache then Some(cache[key]) else None
  }

  /** The headers GetSecrets adds to the download of `format` given the entry found. */
  function DownloadHeaders(cached: Option<CacheEntry>, format: string): (h: map<string, string>)
    ensures "if-none-match" in h <==> cached.Some? && cached.value.etag != ""
    ensures "if-none-match" in h ==> h["if-none-match"] == cached.value.etag
    ensures "accept" in h <==> format != "" && format != "json"
    ensures "accept" in h ==> h["accept"] == "text/plain"
    ensures h.Keys <= {"if-none-match", "accept"}
  {
    var none: map<string, string> := map[];
    var conditional := if cached.Some? && cached.value.etag != ""
      then none["if-none-match" := cached.value.etag] else none;
    if format != "" && format != "json" then conditional["accept" := "text/plain"] else conditional
  }

  /** A 304 counts as "not modified" only when an entry was found for the key. */
  /**
   * A reply the API call can hand back: every status it does not count as a
   * success is turned into an error before the caller sees it.
   */
  predicate Realizable(reply: Reply) {
    reply.Answered? ==> IsSuccess(reply.status)
  }

  predicate NotModified(cached: Option<CacheEntry>, reply: Reply) {
    cached.Some? && reply.Answered? && reply.status == 304
  }

  /** What one download yields: the result and the entry to store, if any. */
  datatype Fetched = Fetched(result: Result<SecretsResponse, APIError>, store: Option<CacheEntry>)

  /**
   * The outcome of GetSecrets for a request of `format` whose key held
   * `cached`, when the API call ended in `reply`.
   */
  function Download(cached: Option<CacheEntry>, format: string, reply: Reply,
                    unmarshal: Bytes -> Result<Secrets, string>): (f: Fetched)
    requires Realizable(reply)
    // an error of the call is passed on, and nothing is stored
    ensures reply.Failed? ==> f == Fetched(Failure(reply.err), None)
    // 304 on a found entry: the cached payload, unchanged, and nothing is stored
    ensures NotModified(cached, reply) ==> f == Fetched(Success(cached.value.data), None)
    // whatever is stored is exactly what is returned, under the response's ETag
    ensures f.store.Some? ==> f.result == Success(f.store.value.data)
    ensures f.store.Some? ==>
      reply.Answered? && f.store.value.etag == reply.etag && f.store.value.data.etag == reply.etag
      && f.store.value.data.body == reply.body
    // a success is stored unless it came from the cache
    ensures f.result.Success? && f.store.None? ==> NotModified(cached, reply)
    // any non-empty format (even "json") keeps the raw body and never decodes
    ensures reply.Answered? && !NotModified(cached, reply) && format != "" ==>
      f.store == Some(CacheEntry(reply.etag, SecretsResponse(map[], reply.body, reply.etag)))
    // the default format decodes the body; a decode failure stores nothing
    ensures reply.Answered? && !NotModified(cached, reply) && format == "" ==>
      (f.store.Some? <==> unmarshal(reply.body).Success?)
    ensures reply.Answered? && !NotModified(cached, reply) && format == "" && f.store.Some? ==>
      f.store.value.data.secrets == unmarshal(reply.body).value
    ensures reply.Answered? && !NotModified(cached, reply) && format == ""
            && unmarshal(reply.body).Failure? ==>
      f.result == Failure(APIError(Some(unmarshal(reply.body).error), "unable to unmarshal secrets payload", ""))
  {
    match reply
    case Failed(e) => Fetched(Failure(e), None)
    case Answered(status, etag, body) =>
      if cached.Some? && status == 304 then Fetched(Success(cached.value.data), None)
      else if format != "" then
        var response := SecretsResponse(map[], body, etag);
        Fetched(Success(response), Some(CacheEntry(etag, response)))
      else
        match unmarshal(body)
        case Failure(e) =>
          Fetched(Failure(APIError(Some(e), "unable to unmarshal secrets payload", "")), None)
        case Success(secrets) =>
          var response := SecretsResponse(secrets, body, etag);
          Fetched(Success(response), Some(CacheEntry(etag, response)))
  }

  /** The cache after a download under `key`: only `key` may change. */
  function Stored(cache: map<string, CacheEntry>, key: string, f: Fetched): (c: map<string, CacheEntry>)
    ensures f.store.None? ==> c == cache
    ensures f.store.Some? ==> key in c && c[key] == f.store.value
    ensures forall k :: k != key ==> Find(c, k) == Find(cache, k)
  {
    if f.store.Some? then cache[key := f.store.value] else cache
  }

  /** Formats other than the default never consult the decoder. */
  lemma RawFormatNeverDecodes(cached: Option<CacheEntry>, format: string, reply: Reply,
                              u1: Bytes -> Result<Secrets, string>, u2: Bytes -> Result<Secrets, string>)
    requires Realizable(reply)
    requires format != ""
    ensures Download(cached, format, reply, u1) == Download(cached, format, reply, u2)
  {
  }

  /**
   * The conditional-GET protocol across two calls: after a fresh download
   * with a non-empty ETag, the next download of the same key sends that
   * ETag in if-none-match, and a 304 to it returns the first payload again.
   */
  lemma Revalidation(cache: map<string, CacheEntry>, key: string, format: string,
                     first: Reply, later: Reply, unmarshal: Bytes -> Result<Secrets, string>)
    requires Realizable(first) && first.Answered? && first.etag != ""
    requires Download(Find(cache, key), format, first, unmarshal).store.Some?
    requires later.Answered? && later.status == 304
    ensures var f := Download(Find(cache, key), format, first, unmarshal);
            var next := Stored(cache, key, f);
            && DownloadHeaders(Find(next, key), format)["if-none-match"] == first.etag
            && Download(Find(next, key), format, later, unmarshal) == Fetched(f.result, None)
  {
    var f := Download(Find(cache, key), format, first, unmarshal);
    var next := Stored(cache, key, f);
    assert Find(next, key) == f.store;
  }

  /** GetSecret's answer from the download of the single name. */
  function SecretFrom(name: string, fetched: Result<SecretsResponse, APIError>): (r: Result<SecretResponse, APIError>)
    ensures r.Success? <==> fetched.Success? && name in fetched.value.secrets
    ensures r.Success? ==> r.value == SecretResponse(name, fetched.value.secrets[name])
    ensures fetched.Failure? ==> r == Failure(fetched.error)
    ensures fetched.Success? && name !in fetched.value.secrets ==> r == Failure(NotFound(name))
  {
    match fetched
    case Failure(e) => Failure(e)
    case Success(response) =>
      if name in response.secrets then Success(SecretResponse(name, response.secrets[name]))
      else Failure(NotFound(name))
  }

  // ---------------------------------------------------------------------
  // The diff of a push

  /** The current value of `name`; a missing name reads as "", as in Go. */
  function Current(secrets: Secrets, name: string): string {
    if name in secrets then secrets[name] else ""
  }

  /** `remaining` holds exactly the proposed entries whose value differs from the current one. */
  ghost predicate KeepsOnlyChanged(remaining: Secrets, proposed: Secrets, current: Secrets) {
    && remaining.Keys <= proposed.Keys
    && (forall name :: name in proposed ==> (name in remaining <==> Current(current, name) != proposed[name]))
    && (forall name :: name in remaining ==> remaining[name] == proposed[name])
  }

  /**
   * The loop of UpdateSecrets: visits every proposed name in some order and
   * deletes it when its value equals the current one.
   */
  method DropUnchanged(proposed: Secrets, current: Secrets) returns (remaining: Secrets)
    ensures KeepsOnlyChanged(remaining, proposed, current)
  {
    remaining := proposed;
    var unvisited := proposed.Keys;
    while unvisited != {}
      invariant unvisited <= remaining.Keys <= proposed.Keys
      invariant forall name :: name in remaining ==> remaining[name] == proposed[name]
      invariant forall name :: name in proposed && name !in unvisited ==>
        (name in remaining <==> Current(current, name) != proposed[name])
      decreases unvisited
    {
      var name :| name in unvisited;
      if Current(current, name) == remaining[name] {
        remaining := remaining - {name};
      }
      unvisited := unvisited - {name};
    }
  }

  /** The diff does not depend on the order in which the names are visited. */
  lemma DiffUnique(r1: Secrets, r2: Secrets, proposed: Secrets, current: Secrets)
    requires KeepsOnlyChanged(r1, proposed, current)
    requires KeepsOnlyChanged(r2, proposed, current)
    ensures r1 == r2
  {
    assert r1.Keys == r2.Keys;
  }

  /** Nothing is left to push exactly when every proposed value is already current. */
  lemma NothingToPush(remaining: Secrets, proposed: Secrets, current: Secrets)
    requires KeepsOnlyChanged(remaining, proposed, current)
    ensures |remaining| == 0 <==> forall name :: name in proposed ==> Current(current, name) == proposed[name]
  {
    if |remaining| != 0 {
      var name :| name in remaining;
      assert name in proposed && Current(current, name) != proposed[name];
    } else {
      assert remaining == map[];
    }
  }

  /**
   * Once the remote side has taken the pushed entries (last writer wins),
   * diffing the same proposal again leaves nothing: a repeated update pushes
   * nothing.
   */
  lemma PushReachesFixpoint(remaining: Secrets, proposed: Secrets, current: Secrets)
    requires KeepsOnlyChanged(remaining, proposed, current)
    ensures KeepsOnlyChanged(map[], proposed, current + remaining)
  {
    forall name | name in proposed
      ensures Current(current + remaining, name) == proposed[name]
    {
      if name in remaining {
        assert (current + remaining)[name] == proposed[name];
      } else {
        assert Current(current, name) == proposed[name];
      }
    }
  }

  /** Proposing {A: "1", B: "2"} against A = "1", B = "9" pushes only B. */
  lemma OnlyChangedValueIsPushed(remaining: Secrets)
    requires KeepsOnlyChanged(remaining, map["A" := "1", "B" := "2"], map["A" := "1", "B" := "9"])
    ensures remaining == map["B" := "2"]
  {
    var proposed := map["A" := "1", "B" := "2"];
    var current := map["A" := "1", "B" := "9"];
    assert Current(current, "A") == proposed["A"];
    assert Current(current, "B") != proposed["B"];
    assert KeepsOnlyChanged(map["B" := "2"], proposed, current);
    DiffUnique(remaining, map["B" := "2"], proposed, current);
  }

  /** The request GetSecret makes: one name, default transformer and format. */
  function SingleSecretRequest(request: SecretRequest): SecretsRequest {
    SecretsRequest(request.project, request.config, "", "", [request.name], "")
  }

  /** The request UpdateSecrets makes to learn the current values: every name. */
  function AllSecretsRequest(project: string, config: string): SecretsRequest {
    SecretsRequest(project, config, "", "", [], "")
  }

  // ---------------------------------------------------------------------
  // The client

  class DopplerClient {
    const dopplerToken: string
    const verifyTLS: bool
    const userAgent: string
    const sha1Hex: Sha1Hex
    var cache: map<string, CacheEntry>

    /** NewDopplerClient, without the base URL. */
    constructor (dopplerToken: string, cache: map<string, CacheEntry>, sha1Hex: Sha1Hex)
      ensures this.dopplerToken == dopplerToken && this.cache == cache && this.sha1Hex == sha1Hex
      ensures verifyTLS && userAgent == "doppler-external-secrets"
    {
      this.dopplerToken := dopplerToken;
      this.verifyTLS := true;
      this.userAgent := "doppler-external-secrets";
      this.cache := cache;
      this.sha1Hex := sha1Hex;
    }

    /** The hex SHA-1 of the token and the '/'-joined names. */
    function NamesDigest(request: SecretsRequest): (h: string)
      ensures |h| == 40
    {
      sha1Hex(dopplerToken + ":" + Join(request.secretNames, "/"))
    }

    /** A key field followed by ':' and the rest of the key. */
    static function Segment(field: string, rest: string): string {
      field + ":" + rest
    }

    /**
     * project:config:transformer:format:<first 12 digest characters>. The
     * caller's ETag plays no part in the key.
     */
    function CacheKey(request: SecretsRequest): (key: string)
      ensures |key| >= 16
      ensures key[|key| - 12..] == NamesDigest(request)[..12]
    {
      Segment(request.project, Segment(request.config, Segment(request.nameTransformer,
        Segment(request.format, NamesDigest(request)[..12]))))
    }

    /** Two requests that differ only in their ETag share a key. */
    lemma CacheKeyIgnoresETag(request: SecretsRequest, etag: string)
      ensures CacheKey(request.(etag := etag)) == CacheKey(request)
    {
    }

    /**
     * For colon-free fields the key tells requests apart: equal keys mean the
     * same project, config, transformer and format, and the same digest prefix.
     */
    lemma CacheKeyInjective(r1: SecretsRequest, r2: SecretsRequest)
      requires Free([r1.project, r1.config, r1.nameTransformer, r1.format], ':')
      requires Free([r2.project, r2.config, r2.nameTransformer, r2.format], ':')
      requires CacheKey(r1) == CacheKey(r2)
      ensures r1.project == r2.project && r1.config == r2.config
      ensures r1.nameTransformer == r2.nameTransformer && r1.format == r2.format
      ensures NamesDigest(r1)[..12] == NamesDigest(r2)[..12]
    {
      var f1 := [r1.project, r1.config, r1.nameTransformer, r1.format];
      var f2 := [r2.project, r2.config, r2.nameTransformer, r2.format];
      assert ':' !in f1[0] && ':' !in f1[1] && ':' !in f1[2] && ':' !in f1[3];
      assert ':' !in f2[0] && ':' !in f2[1] && ':' !in f2[2] && ':' !in f2[3];
      var h1, h2 := NamesDigest(r1)[..12], NamesDigest(r2)[..12];
      var a3, b3 := Segment(r1.format, h1), Segment(r2.format, h2);
      var a2, b2 := Segment(r1.nameTransformer, a3), Segment(r2.nameTransformer, b3);
      var a1, b1 := Segment(r1.config, a2), Segment(r2.config, b2);
      assert r1.project + [':'] + a1 == r2.project + [':'] + b1 by {
        assert CacheKey(r1) == Segment(r1.project, a1);
        assert CacheKey(r2) == Segment(r2.project, b1);
      }
      FieldThenRestUnique(r1.project, a1, r2.project, b1, ':');
      assert r1.config + [':'] + a2 == r2.config + [':'] + b2;
      FieldThenRestUnique(r1.config, a2, r2.config, b2, ':');
      assert r1.nameTransformer + [':'] + a3 == r2.nameTransformer + [':'] + b3;
      FieldThenRestUnique(r1.nameTransformer, a3, r2.nameTransformer, b3, ':');
      assert r1.format + [':'] + h1 == r2.format + [':'] + h2;
      FieldThenRestUnique(r1.format, h1, r2.format, h2, ':');
    }

    /**
     * The fields are joined without escaping: project "a:b" with config "c"
     * and project "a" with config "b:c" share a key.
     */
    lemma CacheKeyColonCollision()
      ensures var r1 := SecretsRequest("a:b", "c", "", "", [], "");
              var r2 := SecretsRequest("a", "b:c", "", "", [], "");
              r1 != r2 && CacheKey(r1) == CacheKey(r2)
    {
      var r1 := SecretsRequest("a:b", "c", "", "", [], "");
      var r2 := SecretsRequest("a", "b:c", "", "", [], "");
      assert |r1.project| != |r2.project|;
      var rest := Segment("", Segment("", NamesDigest(r1)[..12]));
      assert NamesDigest(r1) == NamesDigest(r2);
      assert CacheKey(r1) == Segment("a:b", Segment("c", rest));
      assert CacheKey(r2) == Segment("a", Segment("b:c", rest));
      assert Segment("a:b", Segment("c", rest)) == "a:b:c:" + rest;
      assert Segment("a", Segment("b:c", rest)) == "a:b:c:" + rest;
    }

    /** Names are joined with '/' before hashing: ["a/b"] and ["a", "b"] share a key. */
    lemma CacheKeyNamesCollision(project: string, config: string)
      ensures var r1 := SecretsRequest(project, config, "", "", ["a/b"], "");
              var r2 := SecretsRequest(project, config, "", "", ["a", "b"], "");
              r1 != r2 && CacheKey(r1) == CacheKey(r2)
    {
      JoinCollides();
    }

    /** Stores `data` under `cacheKey`; never fails. */
    method UpdateCache(cacheKey: string, etag: string, data: SecretsResponse) returns (err: Option<APIError>)
      modifies this
      ensures cache == old(cache)[cacheKey := CacheEntry(etag, data)]
      ensures err == None
    {
      cache := cache[cacheKey := CacheEntry(etag, data)];
      err := None;
    }

    /**
     * The conditional download: sends the cached ETag in if-none-match,
     * returns the cached payload on 304, and otherwise stores and returns
     * the fresh response (raw for a non-empty format, decoded otherwise).
     */
    method GetSecrets(request: SecretsRequest, reply: Reply, unmarshal: Bytes -> Result<Secrets, string>)
      returns (sent: HttpRequest, result: Result<SecretsResponse, APIError>)
      requires Realizable(reply)
      modifies this
      ensures sent.verb == "GET" && sent.path == DownloadPath && sent.body == []
      ensures sent.headers == DownloadHeaders(Find(old(cache), CacheKey(request)), request.format)
      ensures IsQueryOf(request, sent.params)
      ensures var f := Download(Find(old(cache), CacheKey(request)), request.format, reply, unmarshal);
              result == f.result && cache == Stored(old(cache), CacheKey(request), f)
      ensures result.Success? ==> CacheKey(request) in cache && cache[CacheKey(request)].data == result.value
      ensures result.Failure? ==> cache == old(cache)
    {
      var cacheKey := CacheKey(request);
      var cacheEntryFound := cacheKey in cache;
      var headers := DownloadHeaders(Find(cache, cacheKey), request.format);
      var params := BuildQueryParams(request);
      sent := HttpRequest("GET", DownloadPath, headers, params, []);

      if reply.Failed? {
        result := Failure(reply.err);
      } else if cacheEntryFound && reply.status == 304 {
        result := Success(cache[cacheKey].data);
      } else if request.format != "" {
        // a format defeats decoding: the raw body is kept as it came
        var response := SecretsResponse(map[], reply.body, reply.etag);
        var updateErr := UpdateCache(cacheKey, reply.etag, response);
        result := Success(response);
      } else {
        match unmarshal(reply.body)
        case Failure(e) =>
          result := Failure(APIError(Some(e), "unable to unmarshal secrets payload", ""));
        case Success(secrets) =>
          var response := SecretsResponse(secrets, reply.body, reply.etag);
          var updateErr := UpdateCache(cacheKey, reply.etag, response);
          result := Success(response);
      }
    }

    /** Downloads one name and reports it, or a not-found error when it is absent. */
    method GetSecret(request: SecretRequest, reply: Reply, unmarshal: Bytes -> Result<Secrets, string>)
      returns (sent: HttpRequest, result: Result<SecretResponse, APIError>)
      requires Realizable(reply)
      modifies this
      ensures sent.verb == "GET" && sent.path == DownloadPath && sent.body == []
      ensures sent.headers == DownloadHeaders(Find(old(cache), CacheKey(SingleSecretRequest(request))), "")
      ensures IsQueryOf(SingleSecretRequest(request), sent.params)
      ensures "secrets" in sent.params && sent.params["secrets"] == request.name
      ensures var key := CacheKey(SingleSecretRequest(request));
              var f := Download(Find(old(cache), key), "", reply, unmarshal);
              result == SecretFrom(request.name, f.result) && cache == Stored(old(cache), key, f)
    {
      var secretsRequest := SingleSecretRequest(request);
      var response;
      sent, response := GetSecrets(secretsRequest, reply, unmarshal);
      match response
      case Failure(e) =>
        result := Failure(e);
      case Success(r) =>
        if request.name in r.secrets {
          result := Success(SecretResponse(request.name, r.secrets[request.name]));
        } else {
          result := Failure(NotFound(request.name));
        }
    }

    /**
     * The diff-based push: downloads every current value, drops each proposed
     * entry whose value is already current, and posts the rest only if
     * anything is left. `remaining` is the request's map after the deletions.
     */
    method UpdateSecrets(request: UpdateSecretsRequest, getReply: Reply,
                         unmarshal: Bytes -> Result<Secrets, string>,
                         marshal: UpdateSecretsRequest -> Result<Bytes, string>,
                         postReply: Reply)
      returns (fetch: HttpRequest, push: Option<HttpRequest>, remaining: Secrets, err: Option<APIError>)
      requires Realizable(getReply) && Realizable(postReply)
      modifies this
      ensures fetch.verb == "GET" && fetch.path == DownloadPath && fetch.body == []
      ensures fetch.headers == DownloadHeaders(Find(old(cache), CacheKey(AllSecretsRequest(request.project, request.config))), "")
      ensures IsQueryOf(AllSecretsRequest(request.project, request.config), fetch.params)
      ensures var key := CacheKey(AllSecretsRequest(request.project, request.config));
              var f := Download(Find(old(cache), key), "", getReply, unmarshal);
              var encoded := marshal(request.(secrets := remaining));
              && cache == Stored(old(cache), key, f)
              && (f.result.Failure? ==> err == Some(f.result.error) && push == None && remaining == request.secrets)
              && (f.result.Success? ==> KeepsOnlyChanged(remaining, request.secrets, f.result.value.secrets))
              && (push.Some? <==> f.result.Success? && |remaining| > 0 && encoded.Success?)
              && (push.Some? ==> push.value == HttpRequest("POST", PushPath, map[], map[], encoded.value))
              && (push.Some? ==> err == (if postReply.Failed? then Some(postReply.err) else None))
              && (f.result.Success? && |remaining| == 0 ==> err == None)
              && (f.result.Success? && |remaining| > 0 && encoded.Failure? ==>
                    err == Some(APIError(Some(encoded.error), "unable to unmarshal update secrets payload", "")))
    {
      var response;
      fetch, response := GetSecrets(AllSecretsRequest(request.project, request.config), getReply, unmarshal);
      push := None;
      if response.Failure? {
        remaining := request.secrets;
        err := Some(response.error);
        return;
      }

      remaining := DropUnchanged(request.secrets, response.value.secrets);
      err := None;
      if |remaining| > 0 {
        match marshal(request.(secrets := remaining))
        case Failure(e) =>
          err := Some(APIError(Some(e), "unable to unmarshal update secrets payload", ""));
        case Success(body) =>
          push := Some(HttpRequest("POST", PushPath, map[], map[], body));
          if postReply.Failed? {
            err := Some(postReply.err);
          }
      }
    }
  }

  /** A proposal with change requests but no secrets never reaches the API. */
  method ChangeRequestsAloneNeverPush(client: DopplerClient, project: string, config: string,
                                      changes: seq<Change>, getReply: Reply,
                                      unmarshal: Bytes -> Result<Secrets, string>,
                                      marshal: UpdateSecretsRequest -> Result<Bytes, string>,
                                      postReply: Reply)
    returns (push: Option<HttpRequest>)
    requires Realizable(getReply) && Realizable(postReply)
    modifies client
    ensures push == None
  {
    var fetch, remaining, err;
    fetch, push, remaining, err :=
      client.UpdateSecrets(UpdateSecretsRequest(map[], changes, project, config), getReply, unmarshal, marshal, postReply);
  }
}
