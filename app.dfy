/** The application shell: the loading spinner, the authentication gate and the page routing. */
module AppShell {
  import opened Wrappers
  import opened Domain
  import LayoutFrame

  datatype AuthUser = AuthUser(id: Id, email: string)

  datatype View = DashboardView | ProspectsView | FollowUpsView | UserManagementView | ReportsView | ProfileView

  datatype Screen = Spinner | LoginScreen | Framed(currentPage: string, view: View)

  /** `useState('dashboard')`. */
  const InitialPage := "dashboard"

  /** `renderPage` as written: its switch has no `profile` case. */
  function RenderPage(page: string, role: Role): (v: View)
    ensures v != ProfileView
    ensures v == UserManagementView <==> page == "users" && role == Admin
    ensures v == ReportsView <==> page == "reports" && role == Admin
    ensures page == "prospects" <==> v == ProspectsView
    ensures page == "follow-ups" <==> v == FollowUpsView
  {
    if page == "dashboard" then DashboardView
    else if page == "prospects" then ProspectsView
    else if page == "follow-ups" then FollowUpsView
    else if page == "users" then (if role == Admin then UserManagementView else DashboardView)
    else if page == "reports" then (if role == Admin then ReportsView else DashboardView)
    else DashboardView
  }

  /** The `profile` entry that both roles' menus (and the user menu) navigate to shows the dashboard. */
  lemma ProfileEntryShowsDashboard(role: Role)
    ensures LayoutFrame.MenuItems(role)[3].id == "profile"
    ensures RenderPage("profile", role) == DashboardView
  {
  }

  /** The page the menu entry with this id is meant to open. */
  function ViewOf(page: string): View {
    if page == "prospects" then ProspectsView
    else if page == "follow-ups" then FollowUpsView
    else if page == "profile" then ProfileView
    else if page == "users" then UserManagementView
    else if page == "reports" then ReportsView
    else DashboardView
  }

  /** `renderPage` with the `profile` case it is missing; the admin-only pages stay gated. */
  function RenderPageIntended(page: string, role: Role): (v: View)
    ensures v == UserManagementView <==> page == "users" && role == Admin
    ensures v == ReportsView <==> page == "reports" && role == Admin
    ensures v == ProfileView <==> page == "profile"
    ensures page != "profile" ==> v == RenderPage(page, role)
  {
    if page == "profile" then ProfileView else RenderPage(page, role)
  }

  /** Every entry of a role's menu opens its own page. */
  lemma MenuEntriesOpenTheirPage(role: Role)
    ensures forall item :: item in LayoutFrame.MenuItems(role) ==> RenderPageIntended(item.id, role) == ViewOf(item.id)
  {
    var items := LayoutFrame.MenuItems(role);
    forall item | item in items ensures RenderPageIntended(item.id, role) == ViewOf(item.id) {
      var i :| 0 <= i < |items| && items[i] == item;
      assert i < 4 || role == Admin;
    }
  }

  /** `AppContent`: the spinner while loading, the login page without a user and profile, otherwise
      the current page inside the layout, chosen by `renderPage` as written. */
  function AppContent(loading: bool, user: Option<AuthUser>, profile: Option<Profile>, page: string): (s: Screen)
    ensures loading ==> s == Spinner
    ensures !loading && (user.None? || profile.None?) ==> s == LoginScreen
    ensures !loading && user.Some? && profile.Some? ==>
      s.Framed? && s.currentPage == page && s.view != ProfileView
    ensures !loading && user.Some? && profile.Some? && page == "profile" ==> s == Framed(page, DashboardView)
  {
    if loading then Spinner
    else if user.None? || profile.None? then LoginScreen
    else Framed(page, RenderPage(page, profile.value.role))
  }

  /** The same shell with the corrected routing: the profile page is shown on `profile`. */
  function AppContentIntended(loading: bool, user: Option<AuthUser>, profile: Option<Profile>, page: string): (s: Screen)
    ensures loading ==> s == Spinner
    ensures !loading && (user.None? || profile.None?) ==> s == LoginScreen
    ensures !loading && user.Some? && profile.Some? ==>
      s == Framed(page, RenderPageIntended(page, profile.value.role))
    ensures !loading && user.Some? && profile.Some? && page == "profile" ==> s == Framed(page, ProfileView)
  {
    if loading then Spinner
    else if user.None? || profile.None? then LoginScreen
    else Framed(page, RenderPageIntended(page, profile.value.role))
  }

  /** The two shells differ only on the profile page. */
  lemma ShellsDifferOnlyOnProfile(loading: bool, user: Option<AuthUser>, profile: Option<Profile>, page: string)
    ensures page != "profile" ==> AppContentIntended(loading, user, profile, page) == AppContent(loading, user, profile, page)
  {
  }

  /** After sign-in the first screen is the dashboard, in both shells. */
  lemma FirstScreenIsDashboard(user: AuthUser, profile: Profile)
    ensures AppContent(false, Some(user), Some(profile), InitialPage) == Framed(InitialPage, DashboardView)
    ensures AppContentIntended(false, Some(user), Some(profile), InitialPage) == Framed(InitialPage, DashboardView)
  {
  }
}
