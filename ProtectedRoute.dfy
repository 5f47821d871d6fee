/** The root app's route guard: a spinner while the session is being restored, a
    redirect to '/login' remembering the current location for a visitor, a
    restricted-access card for a user whose role is not admitted, and the protected
    content otherwise. */
module ProtectedRoute {
  import opened Wrappers
  import opened Entities
  import opened Navigation

  /** What the guard renders. The restricted card carries the targets of its two
      buttons. */
  datatype Decision = Spinner | Redirect(nav: Nav) | Restricted(homePath: string, dashboardPath: string) | Children

  /** The 'Meu Dashboard' button's target: administrators and employers have their own
      dashboards, every other role goes to the candidate's. */
  function DashboardPath(role: string): (path: string)
    ensures path == "/admin/dashboard" <==> role == "ADMIN"
    ensures path == "/employer/dashboard" <==> role == "EMPLOYER"
    ensures path == "/candidate/dashboard" <==> role != "ADMIN" && role != "EMPLOYER"
  {
    (if role == "ADMIN" then "/admin" else if role == "EMPLOYER" then "/employer" else "/candidate") + "/dashboard"
  }

  /** A role list admits a user when no list is given or the user's role is in it. */
  predicate Admits(roles: Option<seq<string>>, role: string) {
    roles.None? || role in roles.value
  }

  /** The guard's decision from the store's fields, the current pathname and the
      roles the route admits. */
  function Guard(user: Option<User>, loading: bool, isAuthenticated: bool, pathname: string,
                 roles: Option<seq<string>>): (d: Decision)
    ensures d == Spinner <==> loading
    ensures d.Redirect? <==> !loading && !(isAuthenticated && user.Some?)
    ensures d.Redirect? ==> d.nav == Nav("/login", Some(pathname), true)
    ensures d == Children <==> !loading && isAuthenticated && user.Some? && Admits(roles, user.value.role)
    ensures d.Restricted? ==>
      user.Some? && d.homePath == "/" && d.dashboardPath == DashboardPath(user.value.role) &&
      roles.Some? && user.value.role !in roles.value
  {
    if loading then Spinner
    else if !isAuthenticated || user.None? then Redirect(Nav("/login", Some(pathname), true))
    else if roles.Some? && user.value.role !in roles.value then
      Restricted("/", DashboardPath(user.value.role))
    else Children
  }

  /** Admitting more roles never takes access away, and an empty role list shuts out
      every signed-in user. */
  lemma GuardMonotone(user: Option<User>, loading: bool, isAuthenticated: bool, pathname: string,
                      roles: seq<string>, wider: seq<string>)
    requires forall r | r in roles :: r in wider
    ensures Guard(user, loading, isAuthenticated, pathname, Some(roles)) == Children ==>
      Guard(user, loading, isAuthenticated, pathname, Some(wider)) == Children
    ensures Guard(user, loading, isAuthenticated, pathname, Some(wider)) == Children ==>
      Guard(user, loading, isAuthenticated, pathname, None) == Children
    ensures Guard(user, loading, isAuthenticated, pathname, Some([])) != Children
  {
  }

  /** The restricted card's dashboard button always leads to one of the three
      dashboards, and never to the route that refused the user when that route admits
      only administrators or only employers. */
  lemma RestrictedDashboardIsElsewhere(u: User, pathname: string, roles: seq<string>)
    requires roles == ["ADMIN"] || roles == ["EMPLOYER"]
    ensures var d := Guard(Some(u), false, true, pathname, Some(roles));
      d.Restricted? ==> d.dashboardPath != DashboardPath(roles[0])
  {
  }
}
