/** The route guard of `src/components/ProtectedRoute.tsx`: what it renders
    for the authentication flags, and when its effect asks for the current
    user. */
module ProtectedRoute {
  import opened Wrappers

  /** The router location the visitor was trying to reach. */
  datatype Location = Location(pathname: string, search: string, hash: string)

  /** What the guard renders. */
  datatype View =
    | LoadingScreen
    | Redirect(to: string, replace: bool, from: Location)
    | Children

  /** A token counts only when it is present and non-empty. */
  predicate HasToken(token: Option<string>) {
    token.Some? && token.value != ""
  }

  /** The render: the loading screen first, then the redirect to the sign-in
      page for a missing token or an unauthenticated user, else the page. */
  function Decide(isLoading: bool, token: Option<string>, isAuthenticated: bool, location: Location): (v: View)
    ensures isLoading ==> v == LoadingScreen
    ensures v.Children? <==> !isLoading && HasToken(token) && isAuthenticated
    ensures v.Redirect? <==> !isLoading && (!HasToken(token) || !isAuthenticated)
    ensures v.Redirect? ==> v == Redirect("/auth", true, location)
  {
    if isLoading then LoadingScreen
    else if !HasToken(token) || !isAuthenticated then Redirect("/auth", true, location)
    else Children
  }

  /** The effect's guard for dispatching `fetchCurrentUser`. */
  function ShouldFetchUser(isLoading: bool, token: Option<string>, isAuthenticated: bool): (b: bool)
    ensures b <==> HasToken(token) && !isAuthenticated && !isLoading
    ensures isAuthenticated || !HasToken(token) ==> !b
  {
    HasToken(token) && !isAuthenticated && !isLoading
  }

  /** The render that triggers the user fetch is itself the redirect: the
      guard does not wait for the fetch before sending the visitor away. */
  lemma FetchingRenderRedirects(token: Option<string>, isAuthenticated: bool, isLoading: bool, location: Location)
    requires ShouldFetchUser(isLoading, token, isAuthenticated)
    ensures Decide(isLoading, token, isAuthenticated, location) == Redirect("/auth", true, location)
  {
  }

  /** Rendering the protected page never triggers a fetch, and neither
      does the loading screen. */
  lemma NoFetchUnlessRedirecting(token: Option<string>, isAuthenticated: bool, isLoading: bool, location: Location)
    ensures !Decide(isLoading, token, isAuthenticated, location).Redirect? ==> !ShouldFetchUser(isLoading, token, isAuthenticated)
  {
  }

  /** The guard's three outcomes are decided by the flags alone: the
      location only travels along in the redirect. */
  lemma LocationOnlyCarried(isLoading: bool, token: Option<string>, isAuthenticated: bool, l1: Location, l2: Location)
    ensures Decide(isLoading, token, isAuthenticated, l1).Children? == Decide(isLoading, token, isAuthenticated, l2).Children?
    ensures Decide(isLoading, token, isAuthenticated, l1).Redirect? == Decide(isLoading, token, isAuthenticated, l2).Redirect?
  {
  }
}
