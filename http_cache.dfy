/** The module-level request cache of app-zone/src/services/http.ts: one
    record from `method:url:body` keys to data and the time it was stored.
    Unlike the enhanced service it never evicts on read, keeps a ttl of 0 as
    0, and answers from the cache whatever the cached value is. */
module SimpleHttp {
  import opened Common
  import opened EnhancedHttp

  datatype Stored = Stored(data: Json, timestamp: int)

  /** The options of `cachedFetch`: a `RequestInit` plus `cacheTTL`. */
  datatype FetchOptions = FetchOptions(verb: Option<string>, body: Option<Json>, cacheTtl: Option<int>)

  datatype Answer = FromCache(data: Json) | FromNetwork(data: Json) | Threw(error: FetchError)

  /** `cacheTTL = DEFAULT_TTL`: the default applies only when the option is
      absent, so an explicit 0 stays 0. */
  function TtlOf(options: FetchOptions): int
  {
    if options.cacheTtl.Some? then options.cacheTtl.value else DefaultTtl
  }

  /** `isCached(key, ttl)` at time `now`. */
  predicate IsCached(cache: map<string, Stored>, key: string, ttl: int, now: int)
  {
    key in cache && now - cache[key].timestamp < ttl
  }

  /** `getFromCache(key)`: the stored data, however old. */
  function Peek(cache: map<string, Stored>, key: string): Option<Json>
  {
    if key in cache then Some(cache[key].data) else None
  }

  /** `cachedFetch(url, options)` at time `now`, where `response` is what the
      single `fetch` call would get: the new cache and the answer. */
  function CachedFetch(cache: map<string, Stored>, url: string, options: FetchOptions,
                       response: Attempt, now: int): (map<string, Stored>, Answer)
  {
    var key := CacheKey(url, options.verb, options.body);
    var shouldCache := IsGet(options.verb);
    if shouldCache && IsCached(cache, key, TtlOf(options), now) then
      (cache, FromCache(cache[key].data))
    else
      match response
      case Ok(data, _) =>
        (if shouldCache then cache[key := Stored(data, now)] else cache, FromNetwork(data))
      case _ => (cache, Threw(ErrorOf(response)))
  }

  class HttpCache {
    var cache: map<string, Stored>

    constructor ()
      ensures cache == map[]
    {
      cache := map[];
    }

    /** `setCache(key, data)` at time `now`. */
    method SetCache(key: string, data: Json, now: int)
      modifies this`cache
      ensures cache == old(cache)[key := Stored(data, now)]
    {
      cache := cache[key := Stored(data, now)];
    }

    /** `clearCache(pattern)`: deletes key by key over `Object.keys(cache)`. */
    method ClearCache(pattern: Option<string>)
      modifies this`cache
      ensures cache == WithoutMatches(old(cache), pattern)
    {
      var clearAll := pattern.None? || pattern.value == "";
      var keys := cache.Keys;
      while keys != {}
        invariant keys <= cache.Keys <= old(cache).Keys
        invariant forall k :: k in cache ==> cache[k] == old(cache)[k]
        invariant forall k :: k in old(cache) && k !in keys ==>
                    (k in cache <==> !clearAll && !Contains(k, pattern.value))
        decreases keys
      {
        var k :| k in keys;
        if clearAll || Contains(k, pattern.value) {
          cache := cache - {k};
        }
        keys := keys - {k};
      }
      assert cache.Keys == WithoutMatches(old(cache), pattern).Keys;
    }

    /** `cachedFetch(url, options)`. */
    method Fetch(url: string, options: FetchOptions, response: Attempt, now: int) returns (r: Answer)
      modifies this`cache
      ensures (cache, r) == CachedFetch(old(cache), url, options, response, now)
    {
      var key := CacheKey(url, options.verb, options.body);
      var shouldCache := IsGet(options.verb);
      if shouldCache && IsCached(cache, key, TtlOf(options), now) {
        return FromCache(cache[key].data);
      }
      if !response.Ok? {
        return Threw(ErrorOf(response));
      }
      if shouldCache {
        SetCache(key, response.data, now);
      }
      r := FromNetwork(response.data);
    }
  }

  // -----------------------------------------------------------------------
  // Properties
  // -----------------------------------------------------------------------

  /** A GET whose entry is fresh is answered from the cache, whatever the
      network would have said, and the cache is left as it was. */
  lemma FreshGetSkipsNetwork(cache: map<string, Stored>, url: string, options: FetchOptions,
                             r1: Attempt, r2: Attempt, now: int)
    requires IsGet(options.verb)
    requires IsCached(cache, CacheKey(url, options.verb, options.body), TtlOf(options), now)
    ensures CachedFetch(cache, url, options, r1, now) == CachedFetch(cache, url, options, r2, now)
    ensures CachedFetch(cache, url, options, r1, now)
         == (cache, FromCache(cache[CacheKey(url, options.verb, options.body)].data))
  {
  }

  /** A failed response throws and leaves the cache unchanged. */
  lemma FailureLeavesCache(cache: map<string, Stored>, url: string, options: FetchOptions,
                           response: Attempt, now: int)
    requires !response.Ok?
    requires !(IsGet(options.verb) && IsCached(cache, CacheKey(url, options.verb, options.body), TtlOf(options), now))
    ensures CachedFetch(cache, url, options, response, now) == (cache, Threw(ErrorOf(response)))
  {
  }

  /** Only a successful GET writes the cache, and it writes the fetched data
      under the request's key; every other request leaves the cache alone. */
  lemma OnlyGetsWrite(cache: map<string, Stored>, url: string, options: FetchOptions,
                      response: Attempt, now: int)
    ensures var after := CachedFetch(cache, url, options, response, now).0;
            after != cache ==>
              IsGet(options.verb) && response.Ok? &&
              after == cache[CacheKey(url, options.verb, options.body) := Stored(response.data, now)]
  {
  }

  /** `getFromCache` keeps answering an entry after `isCached` has stopped
      holding for it: reading never evicts. */
  lemma PeekIgnoresAge(cache: map<string, Stored>, key: string, ttl: int, now: int)
    requires key in cache && !IsCached(cache, key, ttl, now)
    ensures Peek(cache, key) == Some(cache[key].data)
  {
  }

  /** With `cacheTTL: 0` a GET never hits an entry stored at or before `now`:
      every such call goes to the network. */
  lemma ZeroTtlAlwaysFetches(cache: map<string, Stored>, url: string, verb: Option<string>,
                             body: Option<Json>, response: Attempt, now: int)
    requires var key := CacheKey(url, verb, body); key in cache ==> cache[key].timestamp <= now
    ensures !CachedFetch(cache, url, FetchOptions(verb, body, Some(0)), response, now).1.FromCache?
  {
  }

  /** `clearCache(p)` removes exactly the keys containing `p` and keeps the
      other entries as they were; without a pattern it removes every key. */
  lemma ClearExactly(cache: map<string, Stored>, p: string, k: string)
    requires p != ""
    ensures k in WithoutMatches(cache, Some(p)) <==> k in cache && !Contains(k, p)
    ensures k in WithoutMatches(cache, Some(p)) ==> WithoutMatches(cache, Some(p))[k] == cache[k]
    ensures WithoutMatches(cache, None) == map[]
  {
  }
}
