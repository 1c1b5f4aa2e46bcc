/** The route guard of app-zone/src/middleware.ts: the security middleware
    runs first and any answer of its other than a plain pass-through is
    returned as it is; then the auth cookie decides the redirects between
    the public and the protected pages. */
module RouteGuard {
  import opened Common
  import opened SecurityMiddleware

  const ProtectedRoutes: seq<string> := ["/dashboard", "/investimentos"]

  /** What the guard answers. */
  datatype Outcome =
    | FromSecurity(response: Response)
    | Redirect(location: string)
    | PassThrough(userToken: Option<string>)

  predicate IsProtectedRoute(path: string)
  {
    exists k | 0 <= k < |ProtectedRoutes| :: StartsWith(path, ProtectedRoutes[k])
  }

  /** The redirect rules, once the security middleware has let the request
      through. */
  function Route(r: Request): Outcome
  {
    var hasToken := HasToken(r);
    if r.pathname == "/" && hasToken then Redirect("/dashboard")
    else if IsProtectedRoute(r.pathname) && !hasToken then Redirect("/login")
    else if hasToken && r.pathname == "/login" then Redirect("/dashboard")
    else PassThrough(if hasToken then r.authToken else None)
  }

  /** `middleware(request)`: the security answer if its status is not 200,
      otherwise the redirect rules. */
  method Middleware(guard: Guard, r: Request, now: int, suspicious: string -> bool, decodes: string -> bool)
    returns (outcome: Outcome)
    requires guard.Valid()
    modifies guard`entries
    ensures guard.Valid()
    ensures var (after, security) := Decide(old(guard.entries), guard.blocked, r, now, suspicious, decodes);
            guard.entries == after &&
            outcome == if Status(security) != 200 then FromSecurity(security) else Route(r)
  {
    var securityResponse := guard.Handle(r, now, suspicious, decodes);
    if Status(securityResponse) != 200 {
      return FromSecurity(securityResponse);
    }
    var token := r.authToken;
    var hasToken := token.Some? && token.value != "";
    if r.pathname == "/" && hasToken {
      return Redirect("/dashboard");
    }
    var isProtectedRoute := exists k | 0 <= k < |ProtectedRoutes| :: StartsWith(r.pathname, ProtectedRoutes[k]);
    if isProtectedRoute && !hasToken {
      return Redirect("/login");
    }
    if hasToken && r.pathname == "/login" {
      return Redirect("/dashboard");
    }
    outcome := PassThrough(if hasToken then token else None);
  }

  // -----------------------------------------------------------------------
  // Properties
  // -----------------------------------------------------------------------

  /** The redirect rules: a signed-in visitor is sent from "/" and "/login"
      to the dashboard, an anonymous one from the protected pages to the
      login page; everything else passes, carrying the token exactly when
      there is one. */
  lemma RouteRules(r: Request)
    ensures HasToken(r) && (r.pathname == "/" || r.pathname == "/login") ==> Route(r) == Redirect("/dashboard")
    ensures !HasToken(r) && (StartsWith(r.pathname, "/dashboard") || StartsWith(r.pathname, "/investimentos")) ==>
              Route(r) == Redirect("/login")
    ensures Route(r).PassThrough? ==> (Route(r).userToken.Some? <==> HasToken(r))
    ensures Route(r).PassThrough? <==>
              !(HasToken(r) && (r.pathname == "/" || r.pathname == "/login")) &&
              !(!HasToken(r) && IsProtectedRoute(r.pathname))
  {
    if StartsWith(r.pathname, "/dashboard") {
      assert StartsWith(r.pathname, ProtectedRoutes[0]);
    }
    if StartsWith(r.pathname, "/investimentos") {
      assert StartsWith(r.pathname, ProtectedRoutes[1]);
    }
    if HasToken(r) && r.pathname == "/login" {
      assert !StartsWith(r.pathname, "/dashboard");
    }
  }

  /** A signed-in visitor on a protected page passes only when the token
      has the shape of a JWT: a malformed one is sent to the login page by
      the security check. */
  lemma MalformedTokenOnProtectedPage(entries: map<string, RateEntry>, blocked: set<string>, r: Request, now: int,
                                      suspicious: string -> bool, decodes: string -> bool)
    requires HasToken(r) && StartsWith(r.pathname, "/dashboard")
    requires ClientIp(r) !in blocked && RateStep(entries, ClientIp(r), r.pathname, now).1
    requires !AnySuspicious(r.query, suspicious)
    requires !ValidTokenFormat(r.authToken.value, decodes)
    ensures Decide(entries, blocked, r, now, suspicious, decodes).1 == RedirectToLogin
  {
  }
}
