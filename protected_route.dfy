/**
 * The route guard: a loader while the session loads, the login page for a
 * visitor, the dashboard for a non-admin on an admin route, the page itself
 * otherwise.
 */
module ProtectedRoute {
  import opened Wrappers
  import opened AuthContext

  /** The four things the guard can render. */
  datatype Outcome = Loader | RedirectToAuth(from: string) | RedirectToDashboard | RenderChildren

  /** `requireAdmin = false` when the prop is not given. */
  function RequireAdmin(prop: Option<bool>): bool {
    prop.GetOr(false)
  }

  /** The chain of early returns over the context's `loading`, `user` and `isAdmin`. */
  function Guard(loading: bool, user: Option<User>, requireAdmin: Option<bool>, location: string): (r: Outcome)
    ensures loading ==> r == Loader
    ensures !loading && user.None? ==> r == RedirectToAuth(location)
    ensures r == RedirectToDashboard <==> !loading && user.Some? && RequireAdmin(requireAdmin) && !IsAdmin(user)
    ensures r == RenderChildren <==> !loading && user.Some? && (!RequireAdmin(requireAdmin) || IsAdmin(user))
  {
    if loading then Loader
    else if user.None? then RedirectToAuth(location)
    else if RequireAdmin(requireAdmin) && !IsAdmin(user) then RedirectToDashboard
    else RenderChildren
  }

  /** Without the prop every signed-in user reaches the page once loading is over. */
  lemma DefaultLetsUsersIn(user: User, location: string)
    ensures Guard(false, Some(user), None, location) == RenderChildren
  {
  }

  /**
   * Composed with the context: on an admin route, a signed-in session renders
   * the page exactly when the stored profile says `'gerente'`.
   */
  lemma AdminRouteNeedsGerente(fb: FirebaseUser, lookup: Lookup, location: string)
    requires !lookup.Failed?
    ensures Guard(false, GetUserData(fb, lookup), Some(true), location) == RenderChildren
      <==> lookup.Found? && lookup.profile.rol == Some("gerente")
    ensures Guard(false, GetUserData(fb, lookup), Some(true), location) != RenderChildren
      ==> Guard(false, GetUserData(fb, lookup), Some(true), location) == RedirectToDashboard
  {
    AdminIffStoredGerente(fb, lookup);
  }
}
