/** The navigation bar (src/components/common/navbar.tsx): which bar is shown, the
    role's dashboard link and menu entries, which entry is highlighted, and the
    mobile menu with its logout button. */
module Navbar {
  import opened Wrappers
  import opened Text
  import opened AuthApi
  import opened AuthContext

  datatype NavItem = NavItem(name: string, href: string)

  /** The three shapes the component renders: the logo-only bar of the `/auth` pages,
      the bar with a single sign-in link, and the full bar of a signed-in user. */
  datatype Bar =
    | AuthPageBar
    | SignInBar(signInHref: string)
    | FullBar(dashboardHref: string, items: seq<NavItem>)

  /** `getDashboardLink`: the role's dashboard, `/` for anything else. */
  function DashboardLink(userType: Option<string>): (link: string)
    ensures userType.Some? && DashboardFor(userType.value).Some? ==> link == DashboardFor(userType.value).value
    ensures userType.None? || DashboardFor(userType.value).None? ==> link == HomePath
  {
    if userType == Some("user") then "/user"
    else if userType == Some("doctor") then "/doctor"
    else if userType == Some("admin") then "/admin"
    else
      assert userType.Some? ==> forall r: Role :: r.Tag() != userType.value;
      "/"
  }

  /** `getNavItems`: five entries for a patient, four for a doctor, three for an
      administrator, none otherwise. */
  function NavItems(userType: Option<string>): (items: seq<NavItem>)
  {
    if userType == Some("user") then
      [NavItem("Dashboard", "/user"), NavItem("Food Scan", "/user/scan"),
       NavItem("Analytics", "/user/analytics"), NavItem("Sessions", "/user/sessions"),
       NavItem("Messages", "/user/chat")]
    else if userType == Some("doctor") then
      [NavItem("Dashboard", "/doctor"), NavItem("Patients", "/doctor/patients"),
       NavItem("Diet Plans", "/doctor/plans"), NavItem("Messages", "/doctor/chat")]
    else if userType == Some("admin") then
      [NavItem("Dashboard", "/admin"), NavItem("Doctors", "/admin/doctors"),
       NavItem("Users", "/admin/users")]
    else []
  }

  /** Which bar is rendered: `/auth...` pages first (signed in or not), then the
      signed-out bar, then the full bar. `pathname` is `None` when the router has none. */
  function Render(pathname: Option<string>, isAuthenticated: bool, userType: Option<string>): (bar: Bar)
    ensures pathname.Some? && StartsWith(pathname.value, AuthPrefix) <==> bar.AuthPageBar?
    ensures bar.SignInBar? <==> !(pathname.Some? && StartsWith(pathname.value, AuthPrefix)) && !isAuthenticated
    ensures bar.SignInBar? ==> bar.signInHref == LoginPath
    ensures bar.FullBar? ==> bar.dashboardHref == DashboardLink(userType) && bar.items == NavItems(userType)
  {
    if pathname.Some? && StartsWith(pathname.value, AuthPrefix) then AuthPageBar
    else if !isAuthenticated then SignInBar(LoginPath)
    else FullBar(DashboardLink(userType), NavItems(userType))
  }

  /** An entry is highlighted exactly when the current path is its `href`. */
  predicate IsActive(pathname: Option<string>, item: NavItem) {
    pathname == Some(item.href)
  }

  /** The entry counts per role. */
  lemma NavItemCounts()
    ensures |NavItems(Some("user"))| == 5
    ensures |NavItems(Some("doctor"))| == 4
    ensures |NavItems(Some("admin"))| == 3
    ensures forall t :: t != "user" && t != "doctor" && t != "admin" ==> NavItems(Some(t)) == []
    ensures NavItems(None) == []
  {
  }

  /** For every role the first entry is "Dashboard" pointing at the dashboard link, and
      every entry lies under that link. */
  lemma NavItemsUnderDashboard(r: Role)
    ensures var items := NavItems(Some(r.Tag()));
            |items| > 0 && items[0] == NavItem("Dashboard", DashboardLink(Some(r.Tag()))) &&
            forall k :: 0 <= k < |items| ==> StartsWith(items[k].href, DashboardLink(Some(r.Tag())))
  {
    var items := NavItems(Some(r.Tag()));
    var link := DashboardLink(Some(r.Tag()));
    forall k | 0 <= k < |items| ensures StartsWith(items[k].href, link) {
      assert items[k].href[..|link|] == link;
    }
  }

  /** The bar's dashboard link and the guard's redirect target agree for every role. */
  lemma DashboardLinkAgreesWithGuard(r: Role)
    ensures DashboardLink(Some(r.Tag())) == RoleDashboard(r)
  {
    DashboardForTag(r);
  }

  /** The entries of one role have distinct `href`s, so at most one is highlighted. */
  lemma AtMostOneActive(pathname: Option<string>, userType: Option<string>, i: nat, j: nat)
    requires i < j < |NavItems(userType)|
    ensures !(IsActive(pathname, NavItems(userType)[i]) && IsActive(pathname, NavItems(userType)[j]))
  {
  }

  /** The component's only state: whether the mobile menu is open. */
  class NavbarState {
    var isMenuOpen: bool

    constructor ()
      ensures !isMenuOpen
    {
      isMenuOpen := false;
    }

    /** The menu button: `setIsMenuOpen(!isMenuOpen)`. */
    method ToggleMenu()
      modifies this
      ensures isMenuOpen == !old(isMenuOpen)
    {
      isMenuOpen := !isMenuOpen;
    }

    /** Following a mobile menu entry closes the menu. */
    method CloseMenu()
      modifies this
      ensures !isMenuOpen
    {
      isMenuOpen := false;
    }

    /** `handleLogout`: the provider's `logout`, then the menu is closed. */
    method HandleLogout(auth: AuthProvider)
      requires auth.Valid()
      modifies this, auth, auth.service
      ensures !isMenuOpen
      ensures auth.Valid() && !auth.isAuthenticated && auth.userType == None
      ensures auth.service.StoredToken() == None && auth.service.StoredUserType() == None
      ensures auth.navigations == old(auth.navigations) + [LoginPath]
      ensures auth.isLoading == old(auth.isLoading)
    {
      auth.Logout();
      isMenuOpen := false;
    }
  }
}
