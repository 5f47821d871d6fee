/** The web app's header: a dashboard link chosen by role, and the controls for a
    signed-in user or a visitor. */
module WebHeader {
  import opened Wrappers
  import opened Entities
  import ProtectedRoute
  import AuthHook
  import WebProtectedRoute
  import opened Navigation

  /** `getDashboardLink`: the role's dashboard, and '/' for no user or an unknown role. */
  function DashboardLink(user: Option<User>): (path: string)
    ensures user.None? ==> path == "/"
    ensures user.Some? && user.value.role in {"ADMIN", "EMPLOYER", "CANDIDATE"} ==>
      path == ProtectedRoute.DashboardPath(user.value.role)
    ensures user.Some? && user.value.role !in {"ADMIN", "EMPLOYER", "CANDIDATE"} ==> path == "/"
  {
    if user.None? then "/"
    else match user.value.role
      case "ADMIN" => "/admin/dashboard"
      case "EMPLOYER" => "/employer/dashboard"
      case "CANDIDATE" => "/candidate/dashboard"
      case _ => "/"
  }

  /** The dashboard link is where the portal's login sends a user who came from nowhere
      in particular, whatever the role; for an unknown role it is not where the root
      app's dashboard buttons lead. */
  lemma DashboardLinkIsLoginRedirect(u: User)
    ensures DashboardLink(Some(u)) == AuthHook.RedirectPath(None, u.role)
    ensures u.role !in {"ADMIN", "EMPLOYER", "CANDIDATE"} ==>
      DashboardLink(Some(u)) != ProtectedRoute.DashboardPath(u.role)
  {
  }

  datatype Controls =
    | SignedIn(dashboardLink: string, email: Option<string>, logout: bool)
    | Anonymous(loginLink: string, registerLink: string)

  function EndControls(user: Option<User>, isAuthenticated: bool): (c: Controls)
    ensures c.SignedIn? <==> isAuthenticated
    ensures c.SignedIn? ==> c.dashboardLink == DashboardLink(user) && c.logout &&
                            (c.email.Some? <==> user.Some?)
    ensures c.Anonymous? ==> c == Anonymous("/login", "/register")
  {
    if isAuthenticated then SignedIn(DashboardLink(user), if user.Some? then Some(user.value.email) else None, true)
    else Anonymous("/login", "/register")
  }

  /** With the flag in step with the user, as the auth hook keeps it, the controls agree
      with the web app's route guard. A visitor is offered the login page the guard
      sends them to. A user whose role has no dashboard of its own has a dashboard link
      to '/', which is also where the guard sends anyone a route refuses. */
  lemma EndControlsAgreeWithGuard(user: Option<User>, isAuthenticated: bool, roles: Option<seq<string>>)
    requires isAuthenticated <==> user.Some?
    ensures EndControls(user, isAuthenticated).Anonymous? ==>
      WebProtectedRoute.Guard(user, false, roles) ==
        WebProtectedRoute.Redirect(Nav(EndControls(user, isAuthenticated).loginLink, None, true))
    ensures EndControls(user, isAuthenticated).SignedIn? ==>
      WebProtectedRoute.Guard(user, false, roles) != WebProtectedRoute.Redirect(Nav("/login", None, true))
    ensures user.Some? && user.value.role !in {"ADMIN", "EMPLOYER", "CANDIDATE"} &&
            WebProtectedRoute.Guard(user, false, roles).Redirect? ==>
      WebProtectedRoute.Guard(user, false, roles).nav.path == EndControls(user, isAuthenticated).dashboardLink
  {
  }
}
