/** The router of the application (src/App.tsx): which page a path shows,
    and the ProtectedRoute guard in front of the dashboards and the settings. */
module App {
  import opened Types

  datatype Page =
    | HomePage
    | LoginPage
    | HomestaysPage
    | HomestayDetailsPage(id: string)
    | AttractionsPage
    | TouristDashboardPage
    | HostDashboardPage
    | GuideDashboardPage
    | AdminDashboardPage
    | SettingsPage

  /** What a route produces: a page, or a redirect to another path. */
  datatype View = Render(page: Page) | Redirect(to: string)

  /** ProtectedRoute: without a user, go to the login page; with a user whose
      role is not allowed, go home; otherwise show the page. No list of roles
      means every signed-in user is allowed. */
  function ProtectedRoute(user: Option<User>, allowedRoles: Option<seq<UserRole>>, page: Page): (v: View)
    ensures v.Render? <==> user.Some? && (allowedRoles.None? || user.value.role in allowedRoles.value)
    ensures v.Render? ==> v.page == page
    ensures v.Redirect? ==> v.to == if user.None? then "/login" else "/"
  {
    if user.None? then Redirect("/login")
    else if allowedRoles.Some? && user.value.role !in allowedRoles.value then Redirect("/")
    else Render(page)
  }

  /** The path of each role's dashboard route. */
  function DashboardPath(r: UserRole): string {
    match r
    case Tourist => "/dashboard/tourist"
    case HomestayHost => "/dashboard/host"
    case LocalGuide => "/dashboard/guide"
    case Admin => "/dashboard/admin"
  }

  function DashboardPage(r: UserRole): Page {
    match r
    case Tourist => TouristDashboardPage
    case HomestayHost => HostDashboardPage
    case LocalGuide => GuideDashboardPage
    case Admin => AdminDashboardPage
  }

  const DetailsPrefix: string := "/homestay-details/"

  /** The path fills the `:id` segment of '/homestay-details/:id'. */
  predicate IsDetailsPath(path: string) {
    && |path| > |DetailsPrefix|
    && path[..|DetailsPrefix|] == DetailsPrefix
    && '/' !in path[|DetailsPrefix|..]
  }

  /** The route table, in the order it is declared; '*' sends everything
      else home. */
  function Route(path: string, user: Option<User>): View {
    if path == "/" then Render(HomePage)
    else if path == "/login" then Render(LoginPage)
    else if path == "/homestays" then Render(HomestaysPage)
    else if IsDetailsPath(path) then Render(HomestayDetailsPage(path[|DetailsPrefix|..]))
    else if path == "/attractions" then Render(AttractionsPage)
    else if path == "/dashboard/tourist" then ProtectedRoute(user, Some([Tourist]), TouristDashboardPage)
    else if path == "/dashboard/host" then ProtectedRoute(user, Some([HomestayHost]), HostDashboardPage)
    else if path == "/dashboard/guide" then ProtectedRoute(user, Some([LocalGuide]), GuideDashboardPage)
    else if path == "/dashboard/admin" then ProtectedRoute(user, Some([Admin]), AdminDashboardPage)
    else if path == "/settings" then ProtectedRoute(user, None, SettingsPage)
    else Redirect("/")
  }

  /** Each dashboard admits exactly its own role: that role sees the
      dashboard, every other signed-in user is sent home, and a visitor
      is sent to the login page. */
  lemma DashboardAdmitsOneRole(r: UserRole, user: Option<User>)
    ensures Route(DashboardPath(r), user) ==
      if user.None? then Redirect("/login")
      else if user.value.role == r then Render(DashboardPage(r))
      else Redirect("/")
  {
    assert !IsDetailsPath(DashboardPath(r)) by {
      assert DashboardPath(r)[1] != DetailsPrefix[1];
    }
  }

  /** The settings page admits every signed-in user. */
  lemma SettingsAdmitsAnyUser(user: Option<User>)
    ensures Route("/settings", user) == if user.Some? then Render(SettingsPage) else Redirect("/login")
  {
    assert !IsDetailsPath("/settings");
  }

  /** The public pages show without a user. */
  lemma PublicPagesNeedNoUser(user: Option<User>)
    ensures Route("/", user) == Render(HomePage)
    ensures Route("/login", user) == Render(LoginPage)
    ensures Route("/homestays", user) == Render(HomestaysPage)
    ensures Route("/attractions", user) == Render(AttractionsPage)
  {
    assert !IsDetailsPath("/attractions");
  }

  /** A path that no route declares redirects home. */
  lemma UnmatchedRedirectsHome(path: string, user: Option<User>)
    requires path !in ["/", "/login", "/homestays", "/attractions", "/settings"]
    requires forall r: UserRole :: path != DashboardPath(r)
    requires !IsDetailsPath(path)
    ensures Route(path, user) == Redirect("/")
  {
    assert path != DashboardPath(Tourist) && path != DashboardPath(HomestayHost);
    assert path != DashboardPath(LocalGuide) && path != DashboardPath(Admin);
  }
}
