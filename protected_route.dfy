/** The render guard (webapp/src/components/ProtectedRoute.tsx): a three-way choice on the
    provider's `isLoading` and `isAuthenticated`. `N` is the type of rendered nodes. */
module ProtectedRoute {
  import opened Wrappers

  datatype View<N> = LoadingIndicator | Fallback(node: N) | Nothing | Children

  /** `fallback || null`: `None` stands for an absent or falsy fallback. */
  function Render<N>(isLoading: bool, isAuthenticated: bool, fallback: Option<N>): (v: View<N>)
    ensures isLoading ==> v == LoadingIndicator
    ensures !isLoading && !isAuthenticated ==> v == (if fallback.Some? then Fallback(fallback.value) else Nothing)
    ensures v == Children <==> !isLoading && isAuthenticated
  {
    if isLoading then LoadingIndicator
    else if !isAuthenticated then (if fallback.Some? then Fallback(fallback.value) else Nothing)
    else Children
  }
}
