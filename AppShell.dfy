/** The root app's shell: the sidebar's items for the signed-in user's role, each
    marked active when it points at the current pathname, and the sidebar's
    open/closed flag. */
module AppShell {
  import opened Wrappers
  import opened Entities
  import ProtectedRoute

  /** A sidebar entry as listed for a role, before the active flag is computed. */
  datatype Entry = Entry(caption: string, icon: string, url: string, badge: Option<string>)

  datatype SidebarItem = SidebarItem(caption: string, icon: string, url: string, active: bool, badge: Option<string>)

  const CandidateEntries := [
    Entry("Dashboard", "pi pi-home", "/candidate/dashboard", None),
    Entry("Buscar Vagas", "pi pi-search", "/", None),
    Entry("Minhas Candidaturas", "pi pi-send", "/candidate/applications", Some("3")),
    Entry("Meu Perfil", "pi pi-user", "/candidate/profile", None)]

  const EmployerEntries := [
    Entry("Dashboard", "pi pi-home", "/employer/dashboard", None),
    Entry("Minhas Vagas", "pi pi-briefcase", "/employer/jobs", None),
    Entry("Nova Vaga", "pi pi-plus", "/employer/jobs/new", None),
    Entry("Candidaturas", "pi pi-users", "/employer/applications", Some("5")),
    Entry("Minha Empresa", "pi pi-building", "/employer/company", None)]

  const AdminEntries := [
    Entry("Dashboard", "pi pi-home", "/admin/dashboard", None),
    Entry("Moderar Vagas", "pi pi-check-circle", "/admin/jobs", Some("8")),
    Entry("Empresas", "pi pi-building", "/admin/companies", None),
    Entry("Usuários", "pi pi-users", "/admin/users", None),
    Entry("Relatórios", "pi pi-chart-bar", "/admin/reports", None)]

  /** The fixed list for a role; a role outside the three gets none. */
  function RoleEntries(role: string): (entries: seq<Entry>)
    ensures |entries| == (if role == "CANDIDATE" then 4 else if role in {"EMPLOYER", "ADMIN"} then 5 else 0)
    ensures entries != [] ==> entries[0].caption == "Dashboard" && entries[0].url == ProtectedRoute.DashboardPath(role)
  {
    match role
    case "CANDIDATE" => CandidateEntries
    case "EMPLOYER" => EmployerEntries
    case "ADMIN" => AdminEntries
    case _ => []
  }

  /** No two entries of one role's list point at the same url. */
  lemma EntriesHaveDistinctUrls(role: string)
    ensures forall i, j | 0 <= i < j < |RoleEntries(role)| :: RoleEntries(role)[i].url != RoleEntries(role)[j].url
  {
    var e := RoleEntries(role);
    forall i, j | 0 <= i < j < |e|
      ensures e[i].url != e[j].url
    {
      assert |e[i].url| != |e[j].url| || e[i].url[|e[i].url| - 1] != e[j].url[|e[j].url| - 1] ||
             e[i].url[1] != e[j].url[1] || e[i].url[|e[i].url| - 2] != e[j].url[|e[j].url| - 2];
    }
  }

  /** `isActive(path)` on one entry: the item keeps the entry's caption, icon, url and
      badge, and is active exactly when the pathname is its url. */
  function Mark(e: Entry, pathname: string): (item: SidebarItem)
    ensures item.caption == e.caption && item.icon == e.icon && item.url == e.url && item.badge == e.badge
    ensures item.active <==> pathname == e.url
  {
    SidebarItem(e.caption, e.icon, e.url, e.url == pathname, e.badge)
  }

  /** `getSidebarItems`: nothing for a visitor, otherwise the role's entries with an
      item active exactly when its url equals the pathname. */
  function SidebarItems(user: Option<User>, isAuthenticated: bool, pathname: string): (items: seq<SidebarItem>)
    ensures !isAuthenticated || user.None? ==> items == []
    ensures isAuthenticated && user.Some? ==> |items| == |RoleEntries(user.value.role)|
    ensures forall i | 0 <= i < |items| ::
      isAuthenticated && user.Some? &&
      var e := RoleEntries(user.value.role)[i];
      items[i] == SidebarItem(e.caption, e.icon, e.url, e.url == pathname, e.badge)
  {
    if !isAuthenticated || user.None? then []
    else
      var entries := RoleEntries(user.value.role);
      seq(|entries|, i requires 0 <= i < |entries| => Mark(entries[i], pathname))
  }

  /** At most one sidebar item is active at a time. */
  lemma AtMostOneActive(user: Option<User>, isAuthenticated: bool, pathname: string)
    ensures forall i, j | 0 <= i < |SidebarItems(user, isAuthenticated, pathname)| &&
                          0 <= j < |SidebarItems(user, isAuthenticated, pathname)| &&
                          SidebarItems(user, isAuthenticated, pathname)[i].active &&
                          SidebarItems(user, isAuthenticated, pathname)[j].active :: i == j
  {
    if isAuthenticated && user.Some? {
      EntriesHaveDistinctUrls(user.value.role);
    }
  }

  /** On a signed-in user's own dashboard, the first item is the active one. */
  lemma DashboardItemActive(u: User)
    requires u.role in {"CANDIDATE", "EMPLOYER", "ADMIN"}
    ensures var items := SidebarItems(Some(u), true, ProtectedRoute.DashboardPath(u.role));
      |items| > 0 && items[0].active
  {
  }

  /** The sidebar, shown only to a signed-in visitor, with its visibility flag. */
  datatype Sidebar = Sidebar(visible: bool, items: seq<SidebarItem>)

  class Shell {
    var sidebarVisible: bool

    constructor ()
      ensures !sidebarVisible
    {
      sidebarVisible := false;
    }

    /** The header's menu button opens the sidebar. */
    method ToggleMenu()
      modifies this
      ensures sidebarVisible
    {
      sidebarVisible := true;
    }

    /** The sidebar's own close control hides it. */
    method HideSidebar()
      modifies this
      ensures !sidebarVisible
    {
      sidebarVisible := false;
    }

    /** The sidebar as rendered: absent for a visitor; a store flag that is set with no
        user shows an empty sidebar. */
    function Render(user: Option<User>, isAuthenticated: bool, pathname: string): (s: Option<Sidebar>)
      reads this
      ensures s.Some? <==> isAuthenticated
      ensures s.Some? ==> s.value.visible == sidebarVisible &&
                          s.value.items == SidebarItems(user, isAuthenticated, pathname)
    {
      if isAuthenticated then Some(Sidebar(sidebarVisible, SidebarItems(user, isAuthenticated, pathname))) else None
    }
  }
}
