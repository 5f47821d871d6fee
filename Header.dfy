/** The portal's header: the menu bar's items for the signed-in user's role, and the
    controls at its end (the avatar leading to a dashboard and sign-out, or the two
    sign-in buttons). */
module Header {
  import opened Wrappers
  import opened Entities
  import ProtectedRoute
  import AppShell

  /** A menu bar item: its caption, icon, the path its command navigates to, and its
      badge. */
  datatype MenuItem = MenuItem(caption: string, icon: string, target: string, badge: Option<string>)

  const BaseItem := MenuItem("Vagas", "pi pi-briefcase", "/", None)

  /** `getMenuItems`: the base item alone for a visitor, for a flag set with no user and
      for an unknown role; otherwise the base item followed by the role's items. */
  function MenuItems(user: Option<User>, isAuthenticated: bool): (items: seq<MenuItem>)
    ensures |items| >= 1 && items[0] == BaseItem
    ensures !isAuthenticated || user.None? ==> items == [BaseItem]
    ensures |items| ==
      if !isAuthenticated || user.None? then 1
      else if user.value.role in {"CANDIDATE", "ADMIN"} then 3
      else if user.value.role == "EMPLOYER" then 4
      else 1
    ensures |items| > 1 ==> user.Some? && items[1].caption == "Dashboard" &&
                            items[1].target == ProtectedRoute.DashboardPath(user.value.role)
  {
    if !isAuthenticated || user.None? then [BaseItem]
    else match user.value.role
      case "CANDIDATE" => [BaseItem,
        MenuItem("Dashboard", "pi pi-home", "/candidate/dashboard", None),
        MenuItem("Candidaturas", "pi pi-send", "/candidate/applications", Some("3"))]
      case "EMPLOYER" => [BaseItem,
        MenuItem("Dashboard", "pi pi-home", "/employer/dashboard", None),
        MenuItem("Minhas Vagas", "pi pi-briefcase", "/employer/jobs", None),
        MenuItem("Candidaturas", "pi pi-users", "/employer/applications", Some("5"))]
      case "ADMIN" => [BaseItem,
        MenuItem("Dashboard", "pi pi-home", "/admin/dashboard", None),
        MenuItem("Moderar", "pi pi-check-circle", "/admin/jobs", Some("8"))]
      case _ => [BaseItem]
  }

  /** The root app's shell mounts a header beside its sidebar (AppShell.tsx:131); that
      header's own file is not part of this model, and this header, its copy in the
      portal, stands for it. Every role item of the menu bar leads to a page that the
      sidebar beside it also lists for that role, with the same badge. */
  lemma MenuWithinSidebar(u: User, i: nat)
    requires 1 <= i < |MenuItems(Some(u), true)|
    ensures exists j | 0 <= j < |AppShell.RoleEntries(u.role)| ::
      AppShell.RoleEntries(u.role)[j].url == MenuItems(Some(u), true)[i].target &&
      AppShell.RoleEntries(u.role)[j].badge == MenuItems(Some(u), true)[i].badge
  {
    var items := MenuItems(Some(u), true);
    var entries := AppShell.RoleEntries(u.role);
    if u.role == "CANDIDATE" {
      var j := if i == 1 then 0 else 2;
      assert entries[j].url == items[i].target;
    } else if u.role == "EMPLOYER" {
      var j := if i == 1 then 0 else if i == 2 then 1 else 3;
      assert entries[j].url == items[i].target;
    } else {
      var j := i - 1;
      assert entries[j].url == items[i].target;
    }
  }

  /** The avatar's target: the administrator's or the employer's dashboard, and the
      candidate's for any other role or for no user at all. */
  function AvatarPath(user: Option<User>): (path: string)
    ensures user.Some? ==> path == ProtectedRoute.DashboardPath(user.value.role)
    ensures user.None? ==> path == "/candidate/dashboard"
  {
    var role := if user.Some? then Some(user.value.role) else None;
    (if role == Some("ADMIN") then "/admin" else if role == Some("EMPLOYER") then "/employer" else "/candidate") +
    "/dashboard"
  }

  /** The controls at the end of the bar. */
  datatype Controls =
    | SignedIn(avatarPath: string, email: Option<string>, signOut: bool)
    | Anonymous(signInPath: string, registerPath: string)

  function EndControls(user: Option<User>, isAuthenticated: bool): (c: Controls)
    ensures c.SignedIn? <==> isAuthenticated
    ensures c.SignedIn? ==> c.avatarPath == AvatarPath(user) && c.signOut &&
                            (c.email.Some? <==> user.Some?)
    ensures c.Anonymous? ==> c == Anonymous("/login", "/register")
  {
    if isAuthenticated then SignedIn(AvatarPath(user), if user.Some? then Some(user.value.email) else None, true)
    else Anonymous("/login", "/register")
  }

  /** The end controls agree with the route guard. Where the guard sends a visitor to
      sign in, the bar offers 'Entrar' to that same page. Where it shows a signed-in user
      the restricted card, the avatar leads to that card's dashboard button target.
      The role's first menu item leads there too. */
  lemma EndControlsAgreeWithGuard(user: Option<User>, isAuthenticated: bool, pathname: string,
                                  roles: Option<seq<string>>)
    ensures var d := ProtectedRoute.Guard(user, false, isAuthenticated, pathname, roles);
      EndControls(user, isAuthenticated).Anonymous? ==>
        d.Redirect? && d.nav.path == EndControls(user, isAuthenticated).signInPath
    ensures var d := ProtectedRoute.Guard(user, false, isAuthenticated, pathname, roles);
      d.Restricted? ==>
        EndControls(user, isAuthenticated).SignedIn? &&
        EndControls(user, isAuthenticated).avatarPath == d.dashboardPath
    ensures |MenuItems(user, isAuthenticated)| > 1 ==>
      EndControls(user, isAuthenticated).SignedIn? &&
      EndControls(user, isAuthenticated).avatarPath == MenuItems(user, isAuthenticated)[1].target
  {
  }

  /** The menu toggle is shown only to a signed-in user, and only when the shell passed
      a toggle handler. */
  predicate ShowsMenuToggle(isAuthenticated: bool, hasToggle: bool) {
    isAuthenticated && hasToggle
  }

  /** The menu toggle appears at the start of the bar exactly when the bar ends with
      the signed-in controls and the shell passed a handler: never beside 'Entrar'. */
  lemma MenuToggleGoesWithSignedInControls(user: Option<User>, isAuthenticated: bool, hasToggle: bool)
    ensures ShowsMenuToggle(isAuthenticated, hasToggle) <==>
      hasToggle && EndControls(user, isAuthenticated).SignedIn?
    ensures EndControls(user, isAuthenticated).Anonymous? ==> !ShowsMenuToggle(isAuthenticated, hasToggle)
  {
  }
}
