/** The redirect hook (webapp/src/hooks/useRequireAuth.ts): its effect pushes `redirectTo` when
    the provider has finished loading and is not authenticated; it returns what it read. */
module RequireAuth {
  import opened Wrappers

  const DEFAULT_REDIRECT := "/login"

  datatype HookResult = HookResult(push: Option<string>, isAuthenticated: bool, isLoading: bool)

  /** `useRequireAuth(redirectTo)`: `redirectTo` is `None` when the argument is omitted, which
      selects the default; `push` is the router push the effect performs, if any. */
  function UseRequireAuth(isAuthenticated: bool, isLoading: bool, redirectTo: Option<string>): (r: HookResult)
    ensures r.push.Some? <==> !isLoading && !isAuthenticated
    ensures r.push.Some? ==> r.push.value == (if redirectTo.Some? then redirectTo.value else DEFAULT_REDIRECT)
    ensures r.isAuthenticated == isAuthenticated && r.isLoading == isLoading
  {
    var target := if redirectTo.Some? then redirectTo.value else DEFAULT_REDIRECT;
    HookResult(if !isLoading && !isAuthenticated then Some(target) else None, isAuthenticated, isLoading)
  }
}
