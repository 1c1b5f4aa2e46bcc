/** The security middleware of
    app-zone/src/infrastructure/security/security.middleware.ts: a blocked-IP
    list, a fixed-window rate limiter per IP, a screen of the query values,
    and a check of the auth token's shape on the protected routes.

    The module-level `rateLimitMap` and `blockedIPs` are the fields of a
    class; the clock is a parameter. The two regular-expression tests (the
    suspicious-pattern screen and the base64 check of each token part) are
    parameters too. */
module SecurityMiddleware {
  import opened Common

  datatype RateEntry = RateEntry(count: int, resetTime: int)

  const SensitiveRoutes: seq<string> := ["/api/auth/login", "/api/auth/signup", "/api/transactions"]
  const SensitiveLimit: int := 5
  const DefaultLimit: int := 30
  const WindowMs: int := 60 * 1000

  /** The request as the middleware reads it. */
  datatype Request = Request(
    forwardedFor: Option<string>,
    realIp: Option<string>,
    pathname: string,
    query: seq<(string, string)>,
    authToken: Option<string>)

  /** What the middleware answers; `Next` is `NextResponse.next()` with the
      security headers. */
  datatype Response = Forbidden | TooManyRequests | BadRequest | RedirectToLogin | Next

  /** The HTTP status of each answer; a redirect is a 307. */
  function Status(r: Response): int
  {
    match r
    case Forbidden => 403
    case TooManyRequests => 429
    case BadRequest => 400
    case RedirectToLogin => 307
    case Next => 200
  }

  /** The request limit per window for a path. */
  function Limit(path: string): int
  {
    if exists k | 0 <= k < |SensitiveRoutes| :: StartsWith(path, SensitiveRoutes[k]) then SensitiveLimit else DefaultLimit
  }

  /** `checkRateLimit(ip, path)` at time `now`: the new table and whether the
      request may pass. */
  function RateStep(entries: map<string, RateEntry>, ip: string, path: string, now: int): (map<string, RateEntry>, bool)
  {
    if ip !in entries || now > entries[ip].resetTime then (entries[ip := RateEntry(1, now + WindowMs)], true)
    else if entries[ip].count >= Limit(path) then (entries, false)
    else (entries[ip := entries[ip].(count := entries[ip].count + 1)], true)
  }

  /** `isValidTokenFormat`: three dot-separated parts, each of which
      decodes. */
  predicate ValidTokenFormat(token: string, decodes: string -> bool)
  {
    var parts := Split(token, ".");
    |parts| == 3 && forall k | 0 <= k < 3 :: decodes(parts[k])
  }

  /** The client address: the first non-empty of the two headers, else
      "unknown". */
  function ClientIp(r: Request): string
  {
    if r.forwardedFor.Some? && r.forwardedFor.value != "" then r.forwardedFor.value
    else if r.realIp.Some? && r.realIp.value != "" then r.realIp.value
    else "unknown"
  }

  predicate IsProtected(path: string)
  {
    StartsWith(path, "/dashboard") || StartsWith(path, "/investimentos")
  }

  /** A truthy cookie value. */
  predicate HasToken(r: Request)
  {
    r.authToken.Some? && r.authToken.value != ""
  }

  predicate AnySuspicious(query: seq<(string, string)>, suspicious: string -> bool)
  {
    exists k | 0 <= k < |query| :: suspicious(query[k].1)
  }

  /** `securityMiddleware(request)`: the new rate table and the answer. */
  function Decide(entries: map<string, RateEntry>, blocked: set<string>, r: Request, now: int,
                  suspicious: string -> bool, decodes: string -> bool): (map<string, RateEntry>, Response)
  {
    var ip := ClientIp(r);
    if ip in blocked then (entries, Forbidden)
    else
      var (after, allowed) := RateStep(entries, ip, r.pathname, now);
      if !allowed then (after, TooManyRequests)
      else if AnySuspicious(r.query, suspicious) then (after, BadRequest)
      else if IsProtected(r.pathname) && HasToken(r) && !ValidTokenFormat(r.authToken.value, decodes) then (after, RedirectToLogin)
      else (after, Next)
  }

  class Guard {
    var entries: map<string, RateEntry>
    var blocked: set<string>

    /** Every count lies between 1 and the larger limit. */
    ghost predicate Valid()
      reads this
    {
      forall ip :: ip in entries ==> 1 <= entries[ip].count <= DefaultLimit
    }

    constructor (blocked: set<string>)
      ensures Valid()
      ensures entries == map[] && this.blocked == blocked
    {
      entries := map[];
      this.blocked := blocked;
    }

    /** `checkRateLimit(ip, path)`. */
    method CheckRateLimit(ip: string, path: string, now: int) returns (allowed: bool)
      requires Valid()
      modifies this`entries
      ensures Valid()
      ensures (entries, allowed) == RateStep(old(entries), ip, path, now)
    {
      var limit := if exists k | 0 <= k < |SensitiveRoutes| :: StartsWith(path, SensitiveRoutes[k]) then SensitiveLimit else DefaultLimit;
      if ip !in entries || now > entries[ip].resetTime {
        entries := entries[ip := RateEntry(1, now + WindowMs)];
        return true;
      }
      var entry := entries[ip];
      if entry.count >= limit {
        return false;
      }
      entries := entries[ip := entry.(count := entry.count + 1)];
      return true;
    }

    /** `securityMiddleware(request)`: the checks in order, the query values
        one by one. */
    method Handle(r: Request, now: int, suspicious: string -> bool, decodes: string -> bool)
      returns (response: Response)
      requires Valid()
      modifies this`entries
      ensures Valid()
      ensures (entries, response) == Decide(old(entries), blocked, r, now, suspicious, decodes)
    {
      var ip := ClientIp(r);
      if ip in blocked {
        return Forbidden;
      }
      var allowed := CheckRateLimit(ip, r.pathname, now);
      if !allowed {
        return TooManyRequests;
      }
      var i := 0;
      while i < |r.query|
        invariant 0 <= i <= |r.query|
        invariant forall k :: 0 <= k < i ==> !suspicious(r.query[k].1)
      {
        if suspicious(r.query[i].1) {
          return BadRequest;
        }
        i := i + 1;
      }
      var token := r.authToken;
      var isProtectedRoute := StartsWith(r.pathname, "/dashboard") || StartsWith(r.pathname, "/investimentos");
      if isProtectedRoute && token.Some? && token.value != "" && !ValidTokenFormat(token.value, decodes) {
        return RedirectToLogin;
      }
      return Next;
    }
  }

  // -----------------------------------------------------------------------
  // Properties
  // -----------------------------------------------------------------------

  /** The limit is 5 on the sensitive routes and 30 elsewhere. */
  lemma LimitByRoute(path: string)
    ensures Limit(path) == 5 <==> exists k | 0 <= k < |SensitiveRoutes| :: StartsWith(path, SensitiveRoutes[k])
    ensures Limit(path) == 30 <==> forall k | 0 <= k < |SensitiveRoutes| :: !StartsWith(path, SensitiveRoutes[k])
  {
  }

  /** One rate-limit step: a new or expired window restarts at one and
      passes; a full window refuses and changes nothing; otherwise the count
      rises by one. No other address's entry changes. */
  lemma RateStepCases(entries: map<string, RateEntry>, ip: string, path: string, now: int, other: string)
    requires other != ip
    ensures var (after, allowed) := RateStep(entries, ip, path, now);
            (other in after <==> other in entries) &&
            (other in entries ==> after[other] == entries[other]) &&
            ip in after &&
            (ip !in entries || now > entries[ip].resetTime ==>
               allowed && after[ip] == RateEntry(1, now + WindowMs)) &&
            (ip in entries && now <= entries[ip].resetTime && entries[ip].count >= Limit(path) ==>
               !allowed && after == entries) &&
            (ip in entries && now <= entries[ip].resetTime && entries[ip].count < Limit(path) ==>
               allowed && after[ip] == RateEntry(entries[ip].count + 1, entries[ip].resetTime))
  {
  }

  /** Within one window, an address gets at most `limit` requests through on
      one path: each allowed step raises the count, and a count at the limit
      refuses. */
  lemma WindowAllowsAtMostLimit(entries: map<string, RateEntry>, ip: string, path: string, now: int)
    requires ip in entries && now <= entries[ip].resetTime
    ensures RateStep(entries, ip, path, now).1 <==> entries[ip].count < Limit(path)
    ensures RateStep(entries, ip, path, now).1 ==> RateStep(entries, ip, path, now).0[ip].count == entries[ip].count + 1
  {
  }

  /** A token whose dot-split does not give exactly three parts is refused
      whatever the parts decode to; three decodable parts pass. */
  lemma TokenNeedsThreeParts(token: string, decodes: string -> bool)
    ensures |Split(token, ".")| != 3 ==> !ValidTokenFormat(token, decodes)
    ensures |Split(token, ".")| == 3 && (forall k | 0 <= k < 3 :: decodes(Split(token, ".")[k])) ==>
              ValidTokenFormat(token, decodes)
  {
  }

  /** A token without a dot is a single part, so it is refused. */
  lemma TokenWithoutDotRefused(token: string, decodes: string -> bool)
    requires forall k :: 0 <= k < |token| ==> token[k] != '.'
    ensures !ValidTokenFormat(token, decodes)
  {
    SplitWithoutSeparator(token, ".");
  }

  /** The checks run in order and the first failing one answers: a blocked
      address is refused before the rate limit counts it, a refused rate
      limit comes before the query screen, and the token check comes last. */
  lemma ChecksInOrder(entries: map<string, RateEntry>, blocked: set<string>, r: Request, now: int,
                      suspicious: string -> bool, decodes: string -> bool)
    ensures var (after, response) := Decide(entries, blocked, r, now, suspicious, decodes);
            var ip := ClientIp(r);
            var step := RateStep(entries, ip, r.pathname, now);
            (response == Forbidden <==> ip in blocked) &&
            (response == Forbidden ==> after == entries) &&
            (ip !in blocked ==> after == step.0) &&
            (response == TooManyRequests <==> ip !in blocked && !step.1) &&
            (response == BadRequest <==> ip !in blocked && step.1 && AnySuspicious(r.query, suspicious)) &&
            (response == RedirectToLogin <==>
               ip !in blocked && step.1 && !AnySuspicious(r.query, suspicious) &&
               IsProtected(r.pathname) && HasToken(r) && !ValidTokenFormat(r.authToken.value, decodes)) &&
            (response == Next ==> Status(response) == 200) &&
            (response != Next ==> Status(response) != 200)
  {
  }
}
