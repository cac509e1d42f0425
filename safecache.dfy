/**
 * The keyed store of conditional-GET cache entries (package safecache).
 * The Go type guards its fields with a mutex; the lock only serialises
 * calls, so the model is a sequential class over a map and a flag.
 */
module SafeCache {
  import opened Wrappers

  /** One cached response: its ETag, the payload, and when it was last checked. */
  datatype CacheEntry<D> = CacheEntry(etag: string, data: D, lastCheckedAt: int)

  class SafeCache<D> {
    var cache: map<string, CacheEntry<D>>
    var enabled: bool

    /** NewCache: an empty store that starts disabled. */
    constructor ()
      ensures cache == map[] && !enabled
    {
      cache := map[];
      enabled := false;
    }

    /** Switches the store on; the entries are untouched. */
    method Enable()
      modifies this
      ensures enabled
      ensures cache == old(cache)
    {
      enabled := true;
    }

    /** Switches the store off; the entries are untouched. */
    method Disable()
      modifies this
      ensures !enabled
      ensures cache == old(cache)
    {
      enabled := false;
    }

    /** Reports the flag and changes nothing. */
    method Enabled() returns (on: bool)
      ensures on <==> enabled
    {
      on := enabled;
    }

    /**
     * Looks `cacheKey` up. The flag is not consulted: a disabled store still
     * answers. A missing key gives no entry (Go's nil) and `found == false`.
     */
    method Read(cacheKey: string) returns (entry: Option<CacheEntry<D>>, found: bool)
      ensures found <==> cacheKey in cache
      ensures found ==> entry == Some(cache[cacheKey])
      ensures !found ==> entry == None
    {
      found := cacheKey in cache;
      entry := if found then Some(cache[cacheKey]) else None;
    }

    /**
     * Stores a fresh entry under `cacheKey`, replacing any earlier one. The
     * flag is not consulted: a disabled store is written as well.
     */
    method Write(cacheKey: string, etag: string, lastCheckedAt: int, data: D)
      modifies this
      ensures cache == old(cache)[cacheKey := CacheEntry(etag, data, lastCheckedAt)]
      ensures enabled == old(enabled)
    {
      cache := cache[cacheKey := CacheEntry(etag, data, lastCheckedAt)];
    }
  }

  /** A read that follows a write of the same key returns what was written, on or off. */
  method ReadAfterWrite<D>(store: SafeCache<D>, cacheKey: string, etag: string, at: int, data: D)
    returns (entry: Option<CacheEntry<D>>, found: bool)
    modifies store
    ensures found && entry == Some(CacheEntry(etag, data, at))
    ensures store.enabled == old(store.enabled)
    ensures forall k :: k != cacheKey ==> (k in store.cache <==> k in old(store.cache))
    ensures forall k :: k != cacheKey && k in store.cache ==> store.cache[k] == old(store.cache)[k]
  {
    store.Write(cacheKey, etag, at, data);
    entry, found := store.Read(cacheKey);
  }

  /** Of two writes to the same key, the later one is what a read sees. */
  method LastWriteWins<D>(store: SafeCache<D>, cacheKey: string,
                          etag1: string, at1: int, data1: D,
                          etag2: string, at2: int, data2: D)
    returns (entry: Option<CacheEntry<D>>, found: bool)
    modifies store
    ensures found && entry == Some(CacheEntry(etag2, data2, at2))
    ensures store.cache == old(store.cache)[cacheKey := CacheEntry(etag2, data2, at2)]
  {
    store.Write(cacheKey, etag1, at1, data1);
    store.Write(cacheKey, etag2, at2, data2);
    entry, found := store.Read(cacheKey);
  }

  /** Toggling the flag neither loses nor hides entries. */
  method ToggleKeepsEntries<D>(store: SafeCache<D>, cacheKey: string)
    returns (entry: Option<CacheEntry<D>>, found: bool)
    modifies store
    ensures !store.enabled
    ensures store.cache == old(store.cache)
    ensures found <==> cacheKey in old(store.cache)
    ensures found ==> entry == Some(old(store.cache)[cacheKey])
  {
    store.Enable();
    store.Disable();
    entry, found := store.Read(cacheKey);
  }
}
