/** The session gate of src/contexts/AuthContext.tsx: the provider's state
    (`isAuthenticated`, `userType`, `isLoading`) with its start-up effect, `login` and
    `logout`, and the redirect decision of `useAuthGuard`. */
module AuthContext {
  import opened Wrappers
  import opened Text
  import opened AuthApi

  const LoginPath: string := "/auth/login"
  const AuthPrefix: string := "/auth"
  const HomePath: string := "/"

  /** The dashboard of each role: `/user`, `/doctor`, `/admin`, none of them under `/auth`. */
  function RoleDashboard(r: Role): (path: string)
    ensures StartsWith(path, "/") && !StartsWith(path, AuthPrefix)
  {
    var path := match r
      case User => "/user"
      case Doctor => "/doctor"
      case Admin => "/admin";
    assert path[..5][2] != AuthPrefix[2];
    path
  }

  /** The guard's `switch (userType)`: the dashboard for the three known tags, none otherwise. */
  function DashboardFor(userType: string): (path: Option<string>)
    ensures path.Some? <==> exists r: Role :: r.Tag() == userType
    ensures path.Some? ==> exists r: Role :: r.Tag() == userType && path.value == RoleDashboard(r)
  {
    if userType == User.Tag() then Some(RoleDashboard(User))
    else if userType == Doctor.Tag() then Some(RoleDashboard(Doctor))
    else if userType == Admin.Tag() then Some(RoleDashboard(Admin))
    else
      assert forall r: Role :: r.Tag() != userType;
      None
  }

  /** Each role's tag leads the guard to that role's dashboard. */
  lemma DashboardForTag(r: Role)
    ensures DashboardFor(r.Tag()) == Some(RoleDashboard(r))
  {
    TagInjective(r, User);
    TagInjective(r, Doctor);
  }

  /** `allowedUserTypes.includes(userType)`. */
  predicate Includes(allowed: seq<Role>, userType: string) {
    exists i :: 0 <= i < |allowed| && allowed[i].Tag() == userType
  }

  /** JavaScript truthiness of a user type: present and not the empty string. */
  predicate Truthy(userType: Option<string>) {
    userType.Some? && userType.value != ""
  }

  /** The redirect one run of `useAuthGuard`'s effect issues, if any. `allowed` is
      `None` when the hook is called without an allowed list. Each branch returns, so
      the result is a single target or nothing. */
  function GuardRedirect(isLoading: bool, isAuthenticated: bool, userType: Option<string>,
                         pathname: string, allowed: Option<seq<Role>>): (target: Option<string>)
    ensures isLoading ==> target == None
    ensures target.Some? ==> target.value == LoginPath || target.value == HomePath ||
                             exists r: Role :: target.value == RoleDashboard(r)
  {
    if isLoading then None
    else if !isAuthenticated && !StartsWith(pathname, AuthPrefix) then Some(LoginPath)
    else if isAuthenticated && allowed.Some? && Truthy(userType) && !Includes(allowed.value, userType.value) then
      Some(DashboardFor(userType.value).GetOr(LoginPath))
    else if isAuthenticated && StartsWith(pathname, AuthPrefix) then
      if userType.Some? && DashboardFor(userType.value).Some? then
        DashboardFor(userType.value)
      else Some(HomePath)
    else None
  }

  /** Unauthenticated: every path outside `/auth...` is sent to the login page, and
      the `/auth...` pages get no redirect. */
  lemma GuardUnauthenticated(userType: Option<string>, pathname: string, allowed: Option<seq<Role>>)
    ensures GuardRedirect(false, false, userType, pathname, allowed) ==
            if StartsWith(pathname, AuthPrefix) then None else Some(LoginPath)
  {
  }

  /** Authenticated with a role that a declared allowed list leaves out: the redirect
      is that role's dashboard, never the login page, on whatever path. */
  lemma GuardWrongRole(r: Role, pathname: string, allowed: seq<Role>)
    requires r !in allowed
    ensures GuardRedirect(false, true, Some(r.Tag()), pathname, Some(allowed)) == Some(RoleDashboard(r))
  {
    TagsDistinguishRoles(allowed, r);
  }

  lemma TagsDistinguishRoles(allowed: seq<Role>, r: Role)
    requires r !in allowed
    ensures !Includes(allowed, r.Tag())
  {
    forall i | 0 <= i < |allowed| ensures allowed[i].Tag() != r.Tag() {
      TagInjective(allowed[i], r);
    }
  }

  /** An empty allowed list turns every known role away. */
  lemma GuardEmptyAllowed(r: Role, pathname: string)
    ensures GuardRedirect(false, true, Some(r.Tag()), pathname, Some([])) == Some(RoleDashboard(r))
  {
  }

  /** A role the allowed list includes is never redirected off a page outside `/auth...`,
      and neither is any authenticated user when no list is declared. */
  lemma GuardAdmits(r: Role, pathname: string, allowed: Option<seq<Role>>)
    requires allowed.Some? ==> r in allowed.value
    requires !StartsWith(pathname, AuthPrefix)
    ensures GuardRedirect(false, true, Some(r.Tag()), pathname, allowed) == None
  {
    if allowed.Some? {
      var i :| 0 <= i < |allowed.value| && allowed.value[i] == r;
      assert Includes(allowed.value, r.Tag());
    }
  }

  /** Authenticated on an `/auth...` page with an admitted role: sent to the dashboard. */
  lemma GuardLeavesAuthPages(r: Role, pathname: string, allowed: Option<seq<Role>>)
    requires allowed.Some? ==> r in allowed.value
    requires StartsWith(pathname, AuthPrefix)
    ensures GuardRedirect(false, true, Some(r.Tag()), pathname, allowed) == Some(RoleDashboard(r))
  {
    if allowed.Some? {
      var i :| 0 <= i < |allowed.value| && allowed.value[i] == r;
      assert Includes(allowed.value, r.Tag());
    }
  }

  /** A stored user type that is none of the three tags (possible, since the stored
      string is not checked): turned away to the login page by an allowed list, and
      to `/` from the `/auth...` pages. */
  lemma GuardUnknownUserType(userType: string, pathname: string, allowed: Option<seq<Role>>)
    requires userType != "" && forall r: Role :: r.Tag() != userType
    ensures allowed.Some? ==> GuardRedirect(false, true, Some(userType), pathname, allowed) == Some(LoginPath)
    ensures allowed.None? && StartsWith(pathname, AuthPrefix) ==>
              GuardRedirect(false, true, Some(userType), pathname, allowed) == Some(HomePath)
  {
    if allowed.Some? {
      assert !Includes(allowed.value, userType);
    }
  }

  /** The state `AuthProvider` keeps, together with the service it reads and writes
      and the paths `router.push` has been given. */
  class AuthProvider {
    var isAuthenticated: bool
    var userType: Option<string>
    var isLoading: bool
    var navigations: seq<string>
    const service: AuthService

    /** The provider's invariant: authenticated exactly when a (non-empty) user type is held. */
    ghost predicate Valid()
      reads this
    {
      (isAuthenticated <==> userType.Some?) && (userType.Some? ==> userType.value != "")
    }

    /** The `useState` initial values: not authenticated, no user type, loading. */
    constructor (service: AuthService)
      ensures this.service == service
      ensures !isAuthenticated && userType == None && isLoading && navigations == []
      ensures Valid()
    {
      this.service := service;
      isAuthenticated := false;
      userType := None;
      isLoading := true;
      navigations := [];
    }

    /** The mount effect: adopt the stored session when both a token and a user type
        are stored and non-empty (`token && type`); loading ends either way. */
    method Initialize()
      requires Valid()
      modifies this
      ensures Valid()
      ensures !isLoading && navigations == old(navigations)
      ensures Truthy(service.StoredToken()) && Truthy(service.StoredUserType()) ==>
                isAuthenticated && userType == service.StoredUserType()
      ensures !(Truthy(service.StoredToken()) && Truthy(service.StoredUserType())) ==>
                isAuthenticated == old(isAuthenticated) && userType == old(userType)
    {
      var token := service.GetToken();
      var t := service.GetUserType();
      if Truthy(token) && Truthy(t) {
        isAuthenticated := true;
        userType := t;
      }
      isLoading := false;
    }

    /** `login(token, type)`: stores the user type (not the token: the login request
        already stored it) and becomes authenticated with that type. */
    method Login(token: string, role: Role)
      requires Valid()
      modifies this, service
      ensures Valid()
      ensures service.storage == Write(service.hasWindow, old(service.storage), UserTypeKey, role.Tag())
      ensures service.StoredToken() == old(service.StoredToken())
      ensures isAuthenticated && userType == Some(role.Tag())
      ensures isLoading == old(isLoading) && navigations == old(navigations)
    {
      service.SetUserType(role);
      isAuthenticated := true;
      userType := Some(role.Tag());
    }

    /** `logout()`: clears both stored entries, drops the session and navigates to
        the login page. */
    method Logout()
      requires Valid()
      modifies this, service
      ensures Valid()
      ensures service.storage == if service.hasWindow then old(service.storage) - {TokenKey, UserTypeKey}
                                 else old(service.storage)
      ensures service.StoredToken() == None && service.StoredUserType() == None
      ensures !isAuthenticated && userType == None
      ensures isLoading == old(isLoading) && navigations == old(navigations) + [LoginPath]
    {
      service.Logout();
      isAuthenticated := false;
      userType := None;
      navigations := navigations + [LoginPath];
    }

    /** What the guard decides for this provider's current state. */
    function Redirect(pathname: string, allowed: Option<seq<Role>>): Option<string>
      reads this
    {
      GuardRedirect(isLoading, isAuthenticated, userType, pathname, allowed)
    }
  }

  /** Logging out twice ends in the same stored and session state as logging out
      once; only the navigation to the login page is issued again. */
  method LogoutTwice(p: AuthProvider)
    requires p.Valid()
    modifies p, p.service
    ensures p.Valid() && !p.isAuthenticated && p.userType == None
    ensures p.service.storage == if p.service.hasWindow then old(p.service.storage) - {TokenKey, UserTypeKey}
                                 else old(p.service.storage)
    ensures p.navigations == old(p.navigations) + [LoginPath, LoginPath]
  {
    p.Logout();
    p.Logout();
  }

  /** Logging in through the service and the provider, then reloading the page (a new
      provider over the same storage) restores the same role, when a window exists and
      the backend's token is not empty. */
  method SessionSurvivesReload(service: AuthService, token: string, role: Role) returns (reloaded: AuthProvider)
    requires service.hasWindow && token != ""
    modifies service
    ensures reloaded.isAuthenticated && reloaded.userType == Some(role.Tag()) && !reloaded.isLoading
    ensures service.StoredToken() == Some(token)
  {
    var p := new AuthProvider(service);
    p.Initialize();
    var response := service.FinishLogin(Ok(token));
    p.Login(token, role);
    reloaded := new AuthProvider(service);
    reloaded.Initialize();
  }

  /** With an empty store the provider ends its start-up unauthenticated and with no
      redirect pending off the `/auth` pages other than to the login page. */
  method FreshStart(service: AuthService, pathname: string) returns (p: AuthProvider)
    requires service.storage == map[]
    ensures !p.isAuthenticated && p.userType == None && !p.isLoading
    ensures !StartsWith(pathname, AuthPrefix) ==> p.Redirect(pathname, None) == Some(LoginPath)
  {
    p := new AuthProvider(service);
    p.Initialize();
  }
}
