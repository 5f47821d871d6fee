/** The web app's route guard: like the root app's, but a visitor is sent to
    '/login' without remembering where they were, and a user whose role is not
    admitted is sent to '/'. Signed-in means a user is present. */
module WebProtectedRoute {
  import opened Wrappers
  import opened Entities
  import opened Navigation
  import ProtectedRoute

  datatype Decision = Spinner | Redirect(nav: Nav) | Children

  function Guard(user: Option<User>, loading: bool, roles: Option<seq<string>>): (d: Decision)
    ensures d == Spinner <==> loading
    ensures d == Redirect(Nav("/login", None, true)) <==> !loading && user.None?
    ensures d == Redirect(Nav("/", None, true)) <==>
      !loading && user.Some? && !ProtectedRoute.Admits(roles, user.value.role)
    ensures d == Children <==> !loading && user.Some? && ProtectedRoute.Admits(roles, user.value.role)
  {
    if loading then Spinner
    else if user.None? then Redirect(Nav("/login", None, true))
    else if roles.Some? && user.value.role !in roles.value then Redirect(Nav("/", None, true))
    else Children
  }

  /** For a store whose flag agrees with its user, both guards grant the protected
      content in exactly the same cases and show the spinner in the same cases; they
      differ only in how a refusal looks. */
  lemma AgreesWithRootGuard(user: Option<User>, loading: bool, isAuthenticated: bool, pathname: string,
                            roles: Option<seq<string>>)
    requires isAuthenticated <==> user.Some?
    ensures Guard(user, loading, roles) == Children <==>
      ProtectedRoute.Guard(user, loading, isAuthenticated, pathname, roles) == ProtectedRoute.Children
    ensures Guard(user, loading, roles) == Spinner <==>
      ProtectedRoute.Guard(user, loading, isAuthenticated, pathname, roles) == ProtectedRoute.Spinner
    ensures Guard(user, loading, roles).Redirect? && Guard(user, loading, roles).nav.path == "/" <==>
      ProtectedRoute.Guard(user, loading, isAuthenticated, pathname, roles).Restricted?
  {
  }
}
