/** The edge middleware (webapp/middleware.ts): a routing decision over the request path and
    the `auth-token` cookie. */
module Middleware {
  import opened Wrappers
  import opened Text

  const PROTECTED_ROUTES := ["/dashboard"]
  const AUTH_ROUTES := ["/login", "/register"]

  /** The bypass is hard-coded on (`const isDev = true`), independently of any environment
      setting. */
  const EDGE_DEV_BYPASS := true

  datatype Decision = Next | Redirect(target: string)

  /** `authRoutes.includes(pathname)`: exact membership. */
  predicate IsAuthRoute(pathname: string)
  {
    pathname in AUTH_ROUTES
  }

  /** `protectedRoutes.some(route => pathname.startsWith(route))`: a plain string prefix. */
  predicate IsProtected(pathname: string)
  {
    exists i :: 0 <= i < |PROTECTED_ROUTES| && StartsWith(pathname, PROTECTED_ROUTES[i])
  }

  /** The cookie's value is truthy: present and not the empty string. */
  predicate HasToken(token: Option<string>)
  {
    token.Some? && token.value != ""
  }

  /** The decision for a given setting of the bypass. A redirect always has a reason: the
      visitor is signed in on an auth page and goes to the dashboard, or is signed out on a
      protected page and goes to the login page; pages of neither kind always pass. */
  function Decide(pathname: string, token: Option<string>, bypass: bool): (d: Decision)
    ensures bypass ==> d == Next
    ensures d == Redirect("/dashboard") ==> IsAuthRoute(pathname) && HasToken(token)
    ensures d == Redirect("/login") ==> IsProtected(pathname) && !HasToken(token)
    ensures d.Redirect? ==> d == Redirect("/dashboard") || d == Redirect("/login")
    ensures !IsAuthRoute(pathname) && !IsProtected(pathname) ==> d == Next
  {
    if bypass then Next
    else if IsAuthRoute(pathname) && HasToken(token) then Redirect("/dashboard")
    else if IsProtected(pathname) && !HasToken(token) then Redirect("/login")
    else Next
  }

  /** `middleware(request)` as written: with the bypass hard-coded on, every request passes,
      whatever its path and cookie. */
  function Route(pathname: string, token: Option<string>): (d: Decision)
    ensures d == Next
  {
    Decide(pathname, token, EDGE_DEV_BYPASS)
  }

  /** The whole decision with the bypass off: a signed-in visitor of `/login` or `/register`
      goes to `/dashboard`, a signed-out visitor of anything under the `/dashboard` prefix goes
      to `/login`, and everything else passes. */
  lemma DecideCases(pathname: string, token: Option<string>)
    ensures Decide(pathname, token, false) == Redirect("/dashboard")
      <==> pathname in {"/login", "/register"} && HasToken(token)
    ensures Decide(pathname, token, false) == Redirect("/login")
      <==> StartsWith(pathname, "/dashboard") && !HasToken(token)
    ensures Decide(pathname, token, false) == Next
      <==> !(pathname in {"/login", "/register"} && HasToken(token)) && !(StartsWith(pathname, "/dashboard") && !HasToken(token))
  {
    assert IsProtected(pathname) <==> StartsWith(pathname, "/dashboard") by {
      if StartsWith(pathname, "/dashboard") {
        assert StartsWith(pathname, PROTECTED_ROUTES[0]);
      }
    }
  }

  /** The prefix test covers nested dashboard pages: `/dashboard/stats` without a token is sent
      to the login page. */
  lemma NestedDashboardRedirects()
    ensures Decide("/dashboard/stats", None, false) == Redirect("/login")
  {
    assert StartsWith("/dashboard/stats", PROTECTED_ROUTES[0]);
  }

  /** The auth-route test is exact: `/login/x` with a token is not redirected. */
  lemma AuthRouteIsExact(token: string)
    requires token != ""
    ensures Decide("/login/x", Some(token), false) == Next
  {
    assert !IsProtected("/login/x") by {
      assert !StartsWith("/login/x", PROTECTED_ROUTES[0]) by {
        assert "/login/x"[1] != "/dashboard"[1];
      }
    }
  }

  /** An empty cookie counts as no token. */
  lemma EmptyCookieIsNoToken(pathname: string)
    ensures Decide(pathname, Some(""), false) == Decide(pathname, None, false)
  {
  }

  /** The token test alone already keeps the two redirect conditions apart; beyond that, no
      auth page lies under a protected prefix, so the order of the tests is immaterial. */
  lemma RedirectsExclusive(pathname: string)
    ensures !(IsAuthRoute(pathname) && IsProtected(pathname))
  {
  }
}
