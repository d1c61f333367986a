/** The admin route guard, `src/middleware.ts`: dashboard paths need a
    session cookie, otherwise the browser is sent to the login page with the
    path to come back to. */
module RouteGuard {
  import opened Js
  import opened Strings
  import opened Http

  const CookieName := "session-token"

  /** `NextResponse.next()` or a redirect. The `redirect` parameter is kept
      as a key/value pair; `searchParams.set` percent-encodes it in the
      actual text. */
  datatype Decision = Continue | Redirected(status: nat, location: Url)

  /** `middleware`, given the value of the `session-token` cookie, if any. */
  function Middleware(pathname: string, sessionCookie: Option<string>): (d: Decision)
    ensures d.Redirected? <==> StartsWith(pathname, "/dashboard") && !Truthy(sessionCookie)
    ensures d.Redirected? ==>
              d.status == TemporaryRedirect && d.location.path == "/login"
              && QueryValue(d.location, "redirect") == Some(pathname)
  {
    if StartsWith(pathname, "/dashboard") then
      if !Truthy(sessionCookie) then Redirected(TemporaryRedirect, Url("/login", [("redirect", pathname)]))
      else Continue
    else Continue
  }

  /** `config.matcher`: "/dashboard" and everything below it, and "/login". */
  predicate Matched(pathname: string)
  {
    pathname == "/login" || pathname == "/dashboard" || StartsWith(pathname, "/dashboard/")
  }

  /** What a request meets: the middleware on matched paths, nothing else. */
  function Guard(pathname: string, sessionCookie: Option<string>): Decision
  {
    if Matched(pathname) then Middleware(pathname, sessionCookie) else Continue
  }

  /** The guard sends a visitor to the login page exactly when the path is
      "/dashboard" or below it and there is no non-empty session cookie;
      any non-empty cookie value is accepted as it is. */
  lemma GuardSpec(pathname: string, cookie: Option<string>)
    ensures Guard(pathname, cookie).Redirected? <==>
              (pathname == "/dashboard" || StartsWith(pathname, "/dashboard/")) && !Truthy(cookie)
    ensures Truthy(cookie) ==> Guard(pathname, cookie) == Continue
    ensures Guard(pathname, cookie).Redirected? ==> QueryValue(Guard(pathname, cookie).location, "redirect") == Some(pathname)
  {
    if pathname == "/login" {
      assert !StartsWith(pathname, "/dashboard") by {
        assert pathname[1] != "/dashboard"[1];
      }
    }
    if StartsWith(pathname, "/dashboard/") {
      assert StartsWith(pathname, "/dashboard");
    }
  }

  /** A path that merely begins with the letters "/dashboard", such as
      "/dashboards", would be refused by the middleware but is never shown to
      it. */
  lemma LookalikePathNotGuarded()
    ensures Middleware("/dashboards", None).Redirected?
    ensures Guard("/dashboards", None) == Continue
  {
    assert "/dashboard" <= "/dashboards";
    assert "/dashboards"[10] != '/';
    assert !StartsWith("/dashboards", "/dashboard/");
  }

  /** The login page's own redirect target is never a login loop: the guard
      lets "/login" through with or without a cookie. */
  lemma LoginAlwaysReachable(cookie: Option<string>)
    ensures Guard("/login", cookie) == Continue
  {
    assert "/login"[1] != "/dashboard"[1];
  }
}
