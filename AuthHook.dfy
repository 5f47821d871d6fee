/** The portal's `useAuth` hook: restoring the user from storage on mount, the
    post-login and post-registration redirects, and the effects of login, registration
    and logout on storage, the auth store and navigation. The toasts are left out. */
module AuthHook {
  import opened Wrappers
  import opened Entities
  import opened Storage
  import opened Navigation
  import opened AuthStore
  import PortalAuthService
  import ProtectedRoute

  /** `getRedirectPath`: the page the visitor came from, unless there is none or it is
      one of the two sign-in pages; otherwise the role's dashboard, and '/' for a role
      that has none. */
  function RedirectPath(from: Option<string>, role: string): (path: string)
    ensures from.Some? && from.value != "" && from.value != "/login" && from.value != "/register" ==>
      path == from.value
    ensures !(from.Some? && from.value != "" && from.value != "/login" && from.value != "/register") ==>
      path == (if role in {"ADMIN", "EMPLOYER", "CANDIDATE"} then ProtectedRoute.DashboardPath(role) else "/")
  {
    if from.Some? && from.value != "" && from.value != "/login" && from.value != "/register" then from.value
    else match role
      case "ADMIN" => "/admin/dashboard"
      case "EMPLOYER" => "/employer/dashboard"
      case "CANDIDATE" => "/candidate/dashboard"
      case _ => "/"
  }

  /** Login never lands back on a sign-in page, and without a usable origin it agrees
      with the registration redirect for the three known roles only: an unknown role
      goes to '/' after login but to the candidate dashboard after registering. */
  lemma RedirectPathLaws(from: Option<string>, role: string)
    ensures RedirectPath(from, role) != "/login" && RedirectPath(from, role) != "/register"
    ensures role in {"ADMIN", "EMPLOYER", "CANDIDATE"} ==>
      RedirectPath(None, role) == ProtectedRoute.DashboardPath(role)
    ensures role !in {"ADMIN", "EMPLOYER", "CANDIDATE"} ==>
      RedirectPath(None, role) == "/" && ProtectedRoute.DashboardPath(role) == "/candidate/dashboard"
  {
  }

  class AuthHook {
    const store: AuthStore
    const storage: LocalStorage

    constructor (s: AuthStore, st: LocalStorage)
      ensures store == s && storage == st
    {
      store := s;
      storage := st;
    }

    /** The store agrees with what storage holds. */
    predicate InSync()
      reads this, store, storage
    {
      store.Valid() && store.user == PortalAuthService.StoredUser(storage.items)
    }

    /** The mount effect: the store takes the user stored, or none. */
    method Mount()
      modifies store
      ensures store.user == PortalAuthService.StoredUser(storage.items) && !store.loading
      ensures storage.items == old(storage.items)
      ensures InSync()
    {
      var stored := PortalAuthService.StoredUser(storage.items);
      store.SetUser(stored);
    }

    /** A successful login: the session is stored, the user set, and the browser sent to
        the redirect path, replacing the login page in the history. */
    method OnLoginSuccess(data: AuthResponse, from: Option<string>) returns (nav: Nav)
      modifies store, storage
      ensures storage.items == PortalAuthService.AfterStore(old(storage.items), data)
      ensures store.user == Some(data.user) && store.isAuthenticated && !store.loading
      ensures nav == Nav(RedirectPath(from, data.user.role), None, true)
      ensures InSync()
    {
      PortalAuthService.StoreAuth(storage, data);
      store.SetUser(Some(data.user));
      PortalAuthService.StoreThenRead(old(storage.items), data);
      nav := Nav(RedirectPath(from, data.user.role), None, true);
    }

    /** A successful registration: as login, but always to the role's dashboard. */
    method OnRegisterSuccess(data: AuthResponse) returns (nav: Nav)
      modifies store, storage
      ensures storage.items == PortalAuthService.AfterStore(old(storage.items), data)
      ensures store.user == Some(data.user) && store.isAuthenticated && !store.loading
      ensures nav == Nav(ProtectedRoute.DashboardPath(data.user.role), None, true)
      ensures InSync()
    {
      PortalAuthService.StoreAuth(storage, data);
      store.SetUser(Some(data.user));
      PortalAuthService.StoreThenRead(old(storage.items), data);
      var dashboardPath := if data.user.role == "ADMIN" then "/admin/dashboard"
        else if data.user.role == "EMPLOYER" then "/employer/dashboard"
        else "/candidate/dashboard";
      nav := Nav(dashboardPath, None, true);
    }

    /** `logout`: the session keys go, the store is reset, and the browser goes to '/'. */
    method Logout() returns (nav: Nav)
      modifies store, storage
      ensures storage.items == old(storage.items) - {AccessTokenKey, RefreshTokenKey, UserKey}
      ensures store.user == None && !store.isAuthenticated && !store.loading
      ensures nav == Nav("/", None, true)
      ensures InSync()
    {
      PortalAuthService.Logout(storage);
      store.Logout();
      PortalAuthService.LogoutThenRead(old(storage.items));
      nav := Nav("/", None, true);
    }
  }
}
