/** The HTTP service of app-zone/src/infrastructure/http/enhanced-http.service.ts:
    a response cache keyed by `method:url:body`, a registry of in-flight GET
    requests so that identical concurrent GETs share one promise, a bounded
    retry, and a fallback to an old cached value when the network fails.

    A call to `fetch` is modelled in two steps: `Begin` is the synchronous
    part (up to registering the promise) and `Settle` is the `.then`/`.catch`
    continuation that runs when the network request has finished. The
    network is a parameter: `answer(i)` is what the i-th attempt gets. */
module EnhancedHttp {
  import opened Common

  const DefaultTtl: int := 5 * 60 * 1000
  const MaxRetries: nat := 3

  datatype Strategy = CacheFirst | NetworkFirst | StaleWhileRevalidate

  /** `Partial<CacheConfig>`: either field may be missing. */
  datatype CacheConfig = CacheConfig(ttl: Option<int>, strategy: Option<Strategy>)

  datatype RequestOptions = RequestOptions(
    verb: Option<string>,
    body: Option<Json>,
    cacheConfig: Option<CacheConfig>)

  datatype Entry = Entry(data: Json, timestamp: int, etag: Option<string>)

  /** What one network attempt gets: a response with `ok` set and its parsed
      body and `etag` header, a response that is not ok, or a thrown error. */
  datatype Attempt =
    | Ok(data: Json, etagHeader: Option<string>)
    | NotOk(status: int)
    | NetworkError

  datatype FetchError = HttpStatus(status: int) | ConnectionFailed

  datatype FetchResult = Fetched(data: Json, etag: Option<string>) | Failed(error: FetchError)

  /** The result of `fetchWithRetry` and how many attempts it made. */
  datatype RetryOutcome = RetryOutcome(result: FetchResult, attempts: nat)

  datatype HttpState = HttpState(cache: map<string, Entry>, pending: map<string, nat>, nextPromise: nat)

  /** What the synchronous part of `fetch` hands back to its caller. */
  datatype Started =
    | Direct(outcome: FetchResult)  // not a GET: the `{data, etag}` of `fetchWithRetry`, uncached
    | Joined(promise: nat)          // an identical GET is in flight: its promise is returned
    | CacheHit(data: Json)          // answered from the cache
    | Dispatched(promise: nat)      // a new request was sent and registered under this promise

  datatype Settled = Resolved(data: Json) | Rejected(error: FetchError)

  // -----------------------------------------------------------------------
  // Keys, validity, configuration
  // -----------------------------------------------------------------------

  /** `options?.method || 'GET'`: a missing or empty method is a GET. */
  function MethodOrGet(verb: Option<string>): string
  {
    if verb.Some? && verb.value != "" then verb.value else "GET"
  }

  predicate IsGet(verb: Option<string>)
  {
    MethodOrGet(verb) == "GET"
  }

  /** `options?.body ? JSON.stringify(options.body) : ''`. */
  function BodyText(body: Option<Json>): string
  {
    if body.Some? && Truthy(body.value) then Stringify(body.value) else ""
  }

  /** `getCacheKey`: `${method}:${url}:${body}`. */
  function CacheKey(url: string, verb: Option<string>, body: Option<Json>): string
  {
    MethodOrGet(verb) + ":" + url + ":" + BodyText(body)
  }

  /** `isCacheValid`. */
  predicate IsCacheValid(e: Entry, ttl: int, now: int)
  {
    now - e.timestamp < ttl
  }

  /** `cacheConfig?.ttl || DEFAULT_TTL`: a missing or zero ttl is the default. */
  function EffectiveTtl(config: Option<CacheConfig>): int
  {
    if config.Some? && config.value.ttl.Some? && config.value.ttl.value != 0
    then config.value.ttl.value else DefaultTtl
  }

  function EffectiveStrategy(config: Option<CacheConfig>): Strategy
  {
    if config.Some? && config.value.strategy.Some? then config.value.strategy.value else CacheFirst
  }

  // -----------------------------------------------------------------------
  // The pure steps
  // -----------------------------------------------------------------------

  /** `getFromCache(key, ttl)`: the data of a valid entry; an expired entry is
      deleted. Gives the new cache and the answer. */
  function CacheRead(cache: map<string, Entry>, key: string, ttl: int, now: int): (map<string, Entry>, Option<Json>)
  {
    if key !in cache then (cache, None)
    else if IsCacheValid(cache[key], ttl, now) then (cache, Some(cache[key].data))
    else (cache - {key}, None)
  }

  function ErrorOf(a: Attempt): FetchError
  {
    match a
    case NotOk(status) => HttpStatus(status)
    case _ => ConnectionFailed
  }

  /** `fetchWithRetry(url, options, retries)`, starting with attempt number
      `attempt`: it stops at the first ok response and otherwise retries while
      `retries > 0`, rethrowing the last error. */
  function FetchWithRetry(answer: nat -> Attempt, attempt: nat, retries: nat): (r: RetryOutcome)
    ensures 1 <= r.attempts <= retries + 1
    ensures forall i :: attempt <= i < attempt + r.attempts - 1 ==> !answer(i).Ok?
    ensures r.result.Fetched? ==>
              answer(attempt + r.attempts - 1).Ok? &&
              r.result.data == answer(attempt + r.attempts - 1).data &&
              r.result.etag == (var e := answer(attempt + r.attempts - 1).etagHeader; if e == Some("") then None else e)
    ensures r.result.Failed? ==>
              r.attempts == retries + 1 && !answer(attempt + retries).Ok? &&
              r.result.error == ErrorOf(answer(attempt + retries))
    decreases retries
  {
    match answer(attempt)
    case Ok(data, etag) =>
      RetryOutcome(Fetched(data, if etag == Some("") then None else etag), 1)
    case _ =>
      if retries > 0 then
        var rest := FetchWithRetry(answer, attempt + 1, retries - 1);
        RetryOutcome(rest.result, rest.attempts + 1)
      else RetryOutcome(Failed(ErrorOf(answer(attempt))), 1)
  }

  /** The synchronous part of `fetch(url, options)` at time `now`. */
  function Begin(s: HttpState, url: string, options: RequestOptions,
                 answer: nat -> Attempt, now: int): (HttpState, Started)
  {
    var key := CacheKey(url, options.verb, options.body);
    if !IsGet(options.verb) then
      (s, Direct(FetchWithRetry(answer, 0, MaxRetries).result))
    else if key in s.pending then
      (s, Joined(s.pending[key]))
    else
      var read := if EffectiveStrategy(options.cacheConfig) == CacheFirst
                  then CacheRead(s.cache, key, EffectiveTtl(options.cacheConfig), now)
                  else (s.cache, None);
      if read.1.Some? && Truthy(read.1.value) then
        (s.(cache := read.0), CacheHit(read.1.value))
      else
        (HttpState(read.0, s.pending[key := s.nextPromise], s.nextPromise + 1), Dispatched(s.nextPromise))
  }

  /** The continuation of the registered promise for `key` once the network
      request has produced `result`: the registry entry goes in both cases; a
      success is cached, a failure falls back to whatever entry is still
      cached under the key, fresh or not. */
  function Settle(s: HttpState, key: string, result: FetchResult, now: int): (HttpState, Settled)
  {
    match result
    case Fetched(data, etag) =>
      (HttpState(s.cache[key := Entry(data, now, etag)], s.pending - {key}, s.nextPromise), Resolved(data))
    case Failed(error) =>
      (s.(pending := s.pending - {key}),
       if key in s.cache then Resolved(s.cache[key].data) else Rejected(error))
  }

  /** The `forEach` of `invalidateCache` that collects the keys to delete. */
  method KeysContaining(cache: map<string, Entry>, pattern: string) returns (keys: set<string>)
    ensures forall k :: k in keys <==> k in cache && Contains(k, pattern)
  {
    keys := {};
    var pendingKeys := cache.Keys;
    while pendingKeys != {}
      invariant pendingKeys <= cache.Keys
      invariant forall k :: k in keys <==> k in cache && k !in pendingKeys && Contains(k, pattern)
      decreases pendingKeys
    {
      var k :| k in pendingKeys;
      if Contains(k, pattern) {
        keys := keys + {k};
      }
      pendingKeys := pendingKeys - {k};
    }
  }

  class EnhancedHttpService {
    var cache: map<string, Entry>
    var pending: map<string, nat>
    var nextPromise: nat

    function State(): HttpState
      reads this
    {
      HttpState(cache, pending, nextPromise)
    }

    constructor ()
      ensures State() == HttpState(map[], map[], 0)
    {
      cache := map[];
      pending := map[];
      nextPromise := 0;
    }

    /** `getFromCache(key, ttl)`. */
    method GetFromCache(key: string, ttl: int, now: int) returns (r: Option<Json>)
      modifies this`cache
      ensures (cache, r) == CacheRead(old(cache), key, ttl, now)
    {
      if key !in cache {
        return None;
      }
      if IsCacheValid(cache[key], ttl, now) {
        return Some(cache[key].data);
      }
      cache := cache - {key};
      return None;
    }

    /** `setCache(key, data, etag)`. */
    method SetCache(key: string, data: Json, etag: Option<string>, now: int)
      modifies this`cache
      ensures cache == old(cache)[key := Entry(data, now, etag)]
    {
      cache := cache[key := Entry(data, now, etag)];
    }

    /** `fetch(url, options)`, up to the point where it returns a promise. */
    method Fetch(url: string, options: RequestOptions, answer: nat -> Attempt, now: int) returns (r: Started)
      modifies this
      ensures (State(), r) == Begin(old(State()), url, options, answer, now)
    {
      var key := CacheKey(url, options.verb, options.body);
      if !IsGet(options.verb) {
        return Direct(FetchWithRetry(answer, 0, MaxRetries).result);
      }
      if key in pending {
        return Joined(pending[key]);
      }
      if EffectiveStrategy(options.cacheConfig) == CacheFirst {
        var cached := GetFromCache(key, EffectiveTtl(options.cacheConfig), now);
        if cached.Some? && Truthy(cached.value) {
          return CacheHit(cached.value);
        }
      }
      r := Dispatched(nextPromise);
      pending := pending[key := nextPromise];
      nextPromise := nextPromise + 1;
    }

    /** The `.then`/`.catch` of the promise registered for `key`, once
        `fetchWithRetry` has run against the network `answer`. */
    method Complete(key: string, answer: nat -> Attempt, now: int) returns (r: Settled)
      modifies this
      ensures (State(), r) == Settle(old(State()), key, FetchWithRetry(answer, 0, MaxRetries).result, now)
    {
      var outcome := FetchWithRetry(answer, 0, MaxRetries).result;
      match outcome {
        case Fetched(data, etag) =>
          SetCache(key, data, etag, now);
          pending := pending - {key};
          r := Resolved(data);
        case Failed(error) =>
          pending := pending - {key};
          if key in cache {
            r := Resolved(cache[key].data);
          } else {
            r := Rejected(error);
          }
      }
    }

    /** `invalidateCache(pattern)`. */
    method InvalidateCache(pattern: Option<string>)
      modifies this`cache
      ensures cache == WithoutMatches(old(cache), pattern)
    {
      if pattern.None? || pattern.value == "" {
        cache := map[];
        return;
      }
      var doomed := KeysContaining(cache, pattern.value);
      cache := cache - doomed;
      assert cache.Keys == WithoutMatches(old(cache), pattern).Keys;
    }
  }

  // -----------------------------------------------------------------------
  // Properties
  // -----------------------------------------------------------------------

  /** Different serialized bodies under the same method and url give
      different keys. */
  lemma DistinctBodiesDistinctKeys(url: string, verb: Option<string>, b1: Option<Json>, b2: Option<Json>)
    requires BodyText(b1) != BodyText(b2)
    ensures CacheKey(url, verb, b1) != CacheKey(url, verb, b2)
  {
    var prefix := MethodOrGet(verb) + ":" + url + ":";
    assert CacheKey(url, verb, b1) == prefix + BodyText(b1);
    assert CacheKey(url, verb, b2) == prefix + BodyText(b2);
    assert (prefix + BodyText(b1))[|prefix|..] == BodyText(b1);
    assert (prefix + BodyText(b2))[|prefix|..] == BodyText(b2);
  }

  /** For GETs without a body the key tells urls apart. */
  lemma {:induction false} GetKeysSeparateUrls(u1: string, u2: string)
    requires u1 != u2
    ensures CacheKey(u1, None, None) != CacheKey(u2, None, None)
  {
    var k1, k2 := CacheKey(u1, None, None), CacheKey(u2, None, None);
    assert k1 == "GET:" + u1 + ":" && k2 == "GET:" + u2 + ":";
    assert k1[4..|k1| - 1] == u1;
    assert k2[4..|k2| - 1] == u2;
  }

  /** A zero ttl in the configuration means the default ttl. */
  lemma ZeroTtlIsDefault(strategy: Option<Strategy>)
    ensures EffectiveTtl(Some(CacheConfig(Some(0), strategy))) == DefaultTtl
  {
  }

  /** `fetchWithRetry` with the service's bound makes at most four attempts. */
  lemma AtMostFourAttempts(answer: nat -> Attempt)
    ensures FetchWithRetry(answer, 0, MaxRetries).attempts <= 4
  {
  }

  /** A request that is not a GET neither reads nor writes the cache or the
      registry. */
  lemma NonGetBypassesCache(s: HttpState, url: string, options: RequestOptions,
                            answer: nat -> Attempt, now: int)
    requires !IsGet(options.verb)
    ensures Begin(s, url, options, answer, now).0 == s
    ensures Begin(s, url, options, answer, now).1.Direct?
  {
  }

  /** Single flight: once a GET has been dispatched, an identical GET issued
      before it settles gets the same promise and changes nothing. */
  lemma SecondGetJoinsFirst(s: HttpState, url: string, options: RequestOptions,
                            a1: nat -> Attempt, a2: nat -> Attempt, t1: int, t2: int)
    requires Begin(s, url, options, a1, t1).1.Dispatched?
    ensures var s1 := Begin(s, url, options, a1, t1).0;
            Begin(s1, url, options, a2, t2) == (s1, Joined(Begin(s, url, options, a1, t1).1.promise))
  {
  }

  /** The registry entry of a key goes away whatever the outcome, and a
      successful result is what the cache then holds for the key. */
  lemma SettleClearsRegistry(s: HttpState, key: string, result: FetchResult, now: int)
    ensures Settle(s, key, result, now).0.pending == s.pending - {key}
    ensures result.Fetched? ==>
              Settle(s, key, result, now).0.cache[key] == Entry(result.data, now, result.etag) &&
              Settle(s, key, result, now).1 == Resolved(result.data)
    ensures result.Failed? ==>
              Settle(s, key, result, now).0.cache == s.cache &&
              (Settle(s, key, result, now).1.Resolved? <==> key in s.cache)
  {
  }

  /** Under cache-first an expired entry is deleted before the request goes
      out, so when that request then fails with nothing written in between,
      there is no old value left to fall back on and the error propagates. */
  lemma CacheFirstExpiredEntryGivesNoFallback(s: HttpState, url: string, options: RequestOptions,
                                              answer: nat -> Attempt, now: int, error: FetchError, later: int)
    requires IsGet(options.verb)
    requires EffectiveStrategy(options.cacheConfig) == CacheFirst
    requires CacheKey(url, options.verb, options.body) !in s.pending
    requires CacheKey(url, options.verb, options.body) in s.cache
    requires !IsCacheValid(s.cache[CacheKey(url, options.verb, options.body)],
                           EffectiveTtl(options.cacheConfig), now)
    ensures var key := CacheKey(url, options.verb, options.body);
            var s1 := Begin(s, url, options, answer, now).0;
            Begin(s, url, options, answer, now).1.Dispatched? &&
            Settle(s1, key, Failed(error), later).1 == Rejected(error)
  {
  }

  /** Under network-first the cache is not read before the request, so a
      failed request is answered with the old entry, however old. */
  lemma NetworkFirstFallsBackToStale(s: HttpState, url: string, options: RequestOptions,
                                     answer: nat -> Attempt, now: int, error: FetchError, later: int)
    requires IsGet(options.verb)
    requires EffectiveStrategy(options.cacheConfig) != CacheFirst
    requires CacheKey(url, options.verb, options.body) !in s.pending
    requires CacheKey(url, options.verb, options.body) in s.cache
    ensures var key := CacheKey(url, options.verb, options.body);
            var s1 := Begin(s, url, options, answer, now).0;
            Begin(s, url, options, answer, now).1.Dispatched? &&
            Settle(s1, key, Failed(error), later).1 == Resolved(s.cache[key].data)
  {
  }

  /** `invalidateCache(p)` removes exactly the keys containing `p` and keeps
      the other entries as they were; without a pattern it clears all. */
  lemma InvalidateExactly(cache: map<string, Entry>, p: string, k: string)
    requires p != ""
    ensures k in WithoutMatches(cache, Some(p)) <==> k in cache && !Contains(k, p)
    ensures k in WithoutMatches(cache, Some(p)) ==> WithoutMatches(cache, Some(p))[k] == cache[k]
    ensures WithoutMatches(cache, None) == map[]
  {
  }
}
