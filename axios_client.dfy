/** The configured API client of app-zone/src/lib/axios.ts: the cookie
    reader, the request interceptor that answers cacheable GETs from the
    shared cache service, the response interceptor that fills that cache,
    `clearEndpointCache`, and the queue of requests waiting on a token
    refresh.

    axios lower-cases `config.method` before the interceptors run, so a GET
    reaches them as "get". The browser's `document.cookie` and whether the
    code runs in a browser at all are parameters. */
module ApiClient {
  import opened Common
  import opened CacheStore

  /** Endpoints whose data changes too often to be cached. */
  const NoCacheEndpoints: seq<string> := ["/account", "/statement", "/investments/transactions"]

  /** The ttl of a response written by the response interceptor. */
  const ResponseTtl: int := 5 * 60 * 1000

  /** `typeof window !== 'undefined'` and `document.cookie`. */
  datatype Browser = Browser(present: bool, cookie: string)

  /** The parts of an axios request config the interceptors look at. */
  datatype ApiRequest = ApiRequest(
    verb: string,
    url: Option<string>,
    params: Option<Json>,
    bypassHeader: Option<string>)

  /** What the request interceptor does with a request: answer it from the
      cache (the rejected `{cached: true}` object that the response
      interceptor turns back into a response), or pass it on with its
      Authorization header and `metadata.cacheKey`, each possibly absent. */
  datatype Intercepted =
    | Served(data: Json)
    | Forward(authorization: Option<string>, cacheKey: Option<string>)

  // -----------------------------------------------------------------------
  // Cookies
  // -----------------------------------------------------------------------

  /** What `getCookie(name)` splits the cookie string on. */
  function CookieSeparator(name: string): string
  {
    "; " + name + "="
  }

  /** `getCookie(name)`: outside a browser nothing; otherwise the text after
      `; name=` up to the next `;`, provided that separator occurs exactly
      once; an empty value counts as absent. */
  function GetCookie(browser: Browser, name: string): (r: Option<string>)
    ensures r.Some? ==> browser.present && r.value != ""
    ensures r.Some? ==> forall k :: 0 <= k < |r.value| ==> r.value[k] != ';'
  {
    if !browser.present then None
    else
      var parts := Split("; " + browser.cookie, CookieSeparator(name));
      if |parts| == 2 then
        SplitOnChar(parts[1], ';');
        var v := Split(parts[1], ";")[0];
        if v == "" then None else Some(v)
      else None
  }

  /** A cookie jar holding just `name=value` gives back `value`. */
  lemma {:induction false} GetCookieSingle(name: string, value: string)
    requires value != ""
    requires forall k :: 0 <= k < |value| ==> value[k] != ';'
    ensures GetCookie(Browser(true, name + "=" + value), name) == Some(value)
  {
    var sep := "; " + name + "=";
    var s := "; " + (name + "=" + value);
    assert s == sep + value;
    assert s[..|sep|] == sep;
    assert s[|sep|..] == value;
    SplitWithoutSeparator(value, sep);
    assert Split(s, sep) == [""] + [value];
    SplitWithoutSeparator(value, ";");
  }

  /** A cookie string in which `; name=` occurs once, followed by a
      non-empty value that runs to the next `;` or to the end, gives back
      that value. */
  lemma GetCookieFound(jar: string, name: string, before: string, value: string, after: string)
    requires "; " + jar == before + CookieSeparator(name) + value + after
    requires forall i :: OccursAt("; " + jar, CookieSeparator(name), i) ==> i == |before|
    requires value != [] && forall k :: 0 <= k < |value| ==> value[k] != ';'
    requires after == [] || after[0] == ';'
    ensures GetCookie(Browser(true, jar), name) == Some(value)
  {
    SplitOnce("; " + jar, CookieSeparator(name), before, value + after);
    SplitFirstPiece(value, after, ';');
  }

  /** No cookie comes back when `; name=` does not occur. */
  lemma GetCookieMissing(jar: string, name: string)
    requires forall i :: !OccursAt("; " + jar, CookieSeparator(name), i)
    ensures GetCookie(Browser(true, jar), name) == None
  {
    SplitNoOccurrence("; " + jar, CookieSeparator(name));
  }

  /** No cookie comes back when `; name=` occurs twice, as with a cookie
      set once for the path and once for the domain: the split gives more
      than two parts. */
  lemma GetCookieDuplicated(jar: string, name: string, i: int, j: int)
    requires OccursAt("; " + jar, CookieSeparator(name), i)
    requires OccursAt("; " + jar, CookieSeparator(name), j)
    requires i + |CookieSeparator(name)| <= j
    ensures GetCookie(Browser(true, jar), name) == None
  {
    SplitTwoOccurrences("; " + jar, CookieSeparator(name), i, j);
  }

  // -----------------------------------------------------------------------
  // Keys and cacheability
  // -----------------------------------------------------------------------

  /** `noCacheEndpoints.some(endpoint => config.url?.includes(endpoint))`. */
  predicate ShouldNotCache(url: Option<string>)
  {
    url.Some? && exists i | 0 <= i < |NoCacheEndpoints| :: Contains(url.value, NoCacheEndpoints[i])
  }

  /** The condition under which the request interceptor consults the cache. */
  predicate IsCacheable(req: ApiRequest)
  {
    req.verb == "get" && req.url.Some? && req.url.value != "" &&
    req.bypassHeader != Some("true") && !ShouldNotCache(req.url)
  }

  /** `api_${url}_${JSON.stringify(params || {})}`. */
  function RequestKey(url: string, params: Option<Json>): string
  {
    "api_" + url + "_" + Stringify(if params.Some? && Truthy(params.value) then params.value else JObj([]))
  }

  /** The key `clearEndpointCache` removes for one endpoint. */
  function EndpointKey(endpoint: string): string
  {
    "api_" + endpoint + "_" + Stringify(JObj([]))
  }

  function EndpointKeys(endpoints: seq<string>): set<string>
  {
    set i | 0 <= i < |endpoints| :: EndpointKey(endpoints[i])
  }

  /** The endpoint key is the key of a GET of that endpoint without params
      (or with `{}` or any other falsy params), and of no GET of it whose
      params serialize to anything else. */
  lemma EndpointKeyMatchesParameterlessGet(endpoint: string, params: Option<Json>)
    ensures EndpointKey(endpoint) == RequestKey(endpoint, None)
    ensures params.None? || !Truthy(params.value) || params.value == JObj([]) ==>
              EndpointKey(endpoint) == RequestKey(endpoint, params)
    ensures params.Some? && Truthy(params.value) && Stringify(params.value) != Stringify(JObj([])) ==>
              EndpointKey(endpoint) != RequestKey(endpoint, params)
  {
    var prefix := "api_" + endpoint + "_";
    assert (prefix + Stringify(JObj([])))[|prefix|..] == Stringify(JObj([]));
    if params.Some? && Truthy(params.value) {
      assert (prefix + Stringify(params.value))[|prefix|..] == Stringify(params.value);
    }
  }

  /** Any url naming one of the dynamic endpoints is never cached. */
  lemma DynamicEndpointsNeverCached(req: ApiRequest, i: nat)
    requires i < |NoCacheEndpoints| && req.url.Some? && Contains(req.url.value, NoCacheEndpoints[i])
    ensures !IsCacheable(req)
  {
  }

  // -----------------------------------------------------------------------
  // The interceptors
  // -----------------------------------------------------------------------

  /** `Bearer ${token}` when the `authToken` cookie is present. */
  function Authorization(browser: Browser): Option<string>
  {
    var token := GetCookie(browser, "authToken");
    if token.Some? then Some("Bearer " + token.value) else None
  }

  /** The request interceptor's decision, given the tiers of the cache
      service at time `now`. A cached value that is falsy counts as a miss. */
  function Decide(memory: map<string, Entry<Json>>, persistent: map<string, Entry<Json>>,
                  dbOpen: bool, req: ApiRequest, browser: Browser, now: int): Intercepted
  {
    if !IsCacheable(req) then Forward(Authorization(browser), None)
    else
      var key := RequestKey(req.url.value, req.params);
      var cached := Lookup(memory, persistent, dbOpen, key, now);
      if cached.Some? && Truthy(cached.value) then Served(cached.value)
      else Forward(Authorization(browser), Some(key))
  }

  /** The request interceptor, reading through the shared `cache`. */
  method InterceptRequest(cache: CacheService<Json>, req: ApiRequest, browser: Browser, now: int)
    returns (r: Intercepted)
    modifies cache`memory
    ensures r == Decide(old(cache.memory), cache.persistent, cache.dbOpen, req, browser, now)
    ensures cache.memory == if IsCacheable(req)
                            then AfterLookup(old(cache.memory), cache.persistent, cache.dbOpen,
                                             RequestKey(req.url.value, req.params), now)
                            else old(cache.memory)
  {
    var authorization := Authorization(browser);
    if IsCacheable(req) {
      var key := RequestKey(req.url.value, req.params);
      var cached := cache.Get(key, now);
      if cached.Some? && Truthy(cached.value) {
        return Served(cached.value);
      }
      return Forward(authorization, Some(key));
    }
    return Forward(authorization, None);
  }

  /** The success handler of the response interceptor: a GET tagged with a
      cache key has its data stored under that key for five minutes. */
  method InterceptResponse(cache: CacheService<Json>, verb: string, cacheKey: Option<string>,
                           data: Json, now: int)
    modifies cache`memory, cache`persistent
    ensures verb == "get" && cacheKey.Some? && cacheKey.value != "" ==>
              cache.memory == old(cache.memory)[cacheKey.value := Entry(data, now, ResponseTtl)] &&
              cache.persistent == if cache.dbOpen
                                  then old(cache.persistent)[cacheKey.value := Entry(data, now, ResponseTtl)]
                                  else old(cache.persistent)
    ensures !(verb == "get" && cacheKey.Some? && cacheKey.value != "") ==>
              cache.memory == old(cache.memory) && cache.persistent == old(cache.persistent)
  {
    if verb == "get" && cacheKey.Some? && cacheKey.value != "" {
      cache.Set(cacheKey.value, data, ResponseTtl, now);
    }
  }

  /** `clearEndpointCache(endpoints)`: removes the parameterless key of each
      endpoint, one `remove` after another. */
  method ClearEndpointCache(cache: CacheService<Json>, endpoints: seq<string>)
    modifies cache`memory, cache`persistent
    ensures cache.memory == old(cache.memory) - EndpointKeys(endpoints)
    ensures cache.persistent == if cache.dbOpen then old(cache.persistent) - EndpointKeys(endpoints)
                                else old(cache.persistent)
  {
    var i := 0;
    while i < |endpoints|
      invariant 0 <= i <= |endpoints|
      invariant cache.memory == old(cache.memory) - EndpointKeys(endpoints[..i])
      invariant cache.persistent == if cache.dbOpen then old(cache.persistent) - EndpointKeys(endpoints[..i])
                                    else old(cache.persistent)
    {
      assert EndpointKeys(endpoints[..i + 1]) == EndpointKeys(endpoints[..i]) + {EndpointKey(endpoints[i])} by {
        assert endpoints[..i + 1] == endpoints[..i] + [endpoints[i]];
      }
      cache.Remove(EndpointKey(endpoints[i]));
      i := i + 1;
    }
    assert endpoints[..i] == endpoints;
  }

  // -----------------------------------------------------------------------
  // Properties of the interceptors
  // -----------------------------------------------------------------------

  /** A request that is not cacheable never has the cache consulted and
      carries no cache key. */
  lemma UncacheableIsForwarded(memory: map<string, Entry<Json>>, persistent: map<string, Entry<Json>>,
                               dbOpen: bool, req: ApiRequest, browser: Browser, now: int)
    requires !IsCacheable(req)
    ensures Decide(memory, persistent, dbOpen, req, browser, now) == Forward(Authorization(browser), None)
  {
  }

  /** A cacheable GET is served from the cache exactly when the cache service
      holds a truthy value for its key; otherwise it goes out tagged with that
      key. */
  lemma ServedIff(memory: map<string, Entry<Json>>, persistent: map<string, Entry<Json>>,
                  dbOpen: bool, req: ApiRequest, browser: Browser, now: int)
    requires IsCacheable(req)
    ensures var cached := Lookup(memory, persistent, dbOpen, RequestKey(req.url.value, req.params), now);
            var d := Decide(memory, persistent, dbOpen, req, browser, now);
            (d.Served? <==> cached.Some? && Truthy(cached.value)) &&
            (d.Served? ==> d.data == cached.value) &&
            (d.Forward? ==> d.cacheKey == Some(RequestKey(req.url.value, req.params)))
  {
  }

  /** The Authorization header is set exactly when the `authToken` cookie is
      present, and then carries that token. */
  lemma BearerIffToken(memory: map<string, Entry<Json>>, persistent: map<string, Entry<Json>>,
                       dbOpen: bool, req: ApiRequest, browser: Browser, now: int)
    ensures var d := Decide(memory, persistent, dbOpen, req, browser, now);
            d.Forward? ==>
              (d.authorization.Some? <==> GetCookie(browser, "authToken").Some?) &&
              (d.authorization.Some? ==> d.authorization.value == "Bearer " + GetCookie(browser, "authToken").value)
  {
  }

  /** Round trip through both interceptors: once a forwarded cacheable GET
      has had its truthy response stored, the same request within five
      minutes is served that response from memory. */
  lemma ResponseThenServed(memory: map<string, Entry<Json>>, persistent: map<string, Entry<Json>>,
                           dbOpen: bool, req: ApiRequest, browser: Browser, data: Json, t: int, later: int)
    requires IsCacheable(req) && Truthy(data)
    requires later - t < ResponseTtl
    ensures var key := RequestKey(req.url.value, req.params);
            Decide(memory[key := Entry(data, t, ResponseTtl)], persistent, dbOpen, req, browser, later) == Served(data)
  {
    SetThenGet(memory, persistent, dbOpen, RequestKey(req.url.value, req.params), data, ResponseTtl, t, later);
  }

  // -----------------------------------------------------------------------
  // The refresh queue
  // -----------------------------------------------------------------------

  /** How one waiting request is settled. */
  datatype Settlement = RejectedWith(waiter: nat, error: Json) | ResolvedWith(waiter: nat, token: Option<string>)

  /** `failedQueue`: the requests waiting for a token refresh, by id. */
  class RefreshQueue {
    var queue: seq<nat>

    constructor ()
      ensures queue == []
    {
      queue := [];
    }

    /** `failedQueue.push({resolve, reject})`. */
    method Enqueue(waiter: nat)
      modifies this`queue
      ensures queue == old(queue) + [waiter]
    {
      queue := queue + [waiter];
    }

    /** `processQueue(error, token)`: every waiter, in order, is rejected
        with a truthy error or else resolved with the token; the queue is
        then empty. */
    method ProcessQueue(error: Json, token: Option<string>) returns (settled: seq<Settlement>)
      modifies this`queue
      ensures queue == []
      ensures |settled| == |old(queue)|
      ensures forall i :: 0 <= i < |settled| ==>
                settled[i] == if Truthy(error) then RejectedWith(old(queue)[i], error)
                              else ResolvedWith(old(queue)[i], token)
    {
      settled := [];
      var i := 0;
      while i < |queue|
        invariant 0 <= i <= |queue| && |settled| == i
        invariant forall j :: 0 <= j < i ==>
                    settled[j] == if Truthy(error) then RejectedWith(queue[j], error)
                                  else ResolvedWith(queue[j], token)
      {
        var s := if Truthy(error) then RejectedWith(queue[i], error) else ResolvedWith(queue[i], token);
        settled := settled + [s];
        i := i + 1;
      }
      queue := [];
    }
  }
}
