/**
 * The route table of the application shell (src/App.tsx) and what a visit
 * to a path shows once the route guard has decided.
 */
module AppRoutes {
  import opened Wrappers
  import opened Auth
  import opened ProtectedRoute

  datatype Page =
    | LoginPage | Dashboard | SalesPage | AccountingPage | ProcurementPage
    | HRPage | InventoryPage | SettingsPage | NotFound

  /**
   * One route element: a redirect, a page on its own, or a page inside the
   * main layout behind the guard with an optional required tag.
   */
  datatype Element =
    | Redirect(to: string)
    | Plain(page: Page)
    | Guarded(required: Option<string>, page: Page, inMainLayout: bool)

  /** The `<Routes>` table; the last entry is the catch-all. */
  function Route(path: string): Element {
    match path
    case "/" => Redirect("/login")
    case "/login" => Plain(LoginPage)
    case "/dashboard" => Guarded(None, Dashboard, true)
    case "/sales" => Guarded(Some("sales"), SalesPage, true)
    case "/accounting" => Guarded(Some("accounting"), AccountingPage, true)
    case "/procurement" => Guarded(Some("procurement"), ProcurementPage, true)
    case "/hr" => Guarded(Some("hr"), HRPage, true)
    case "/inventory" => Guarded(Some("inventory"), InventoryPage, true)
    case "/settings" => Guarded(Some("admin"), SettingsPage, true)
    case _ => Plain(NotFound)
  }

  /** The paths the table names before its catch-all. */
  const KnownPaths: set<string> :=
    {"/", "/login", "/dashboard", "/sales", "/accounting", "/procurement", "/hr", "/inventory", "/settings"}

  /** What the screen shows for a route. */
  datatype Shown = ShowPage(page: Page) | ShowSpinner | ShowNothing

  /** A visit: what is shown and where the router is sent. */
  datatype Visit = Visit(shown: Shown, navigation: Navigation)

  /** Visiting `path` with the given session state. */
  function VisitPath(path: string, loading: bool, user: Option<User>): Visit {
    match Route(path)
    case Redirect(to) => Visit(ShowNothing, Navigate(to, true, None))
    case Plain(page) => Visit(ShowPage(page), Stay)
    case Guarded(required, page, _) =>
      var shown := match Decide(loading, user, required)
        case Spinner => ShowSpinner
        case Nothing => ShowNothing
        case Children => ShowPage(page);
      Visit(shown, Effect(loading, user, required, path))
  }

  /** `/` always redirects to `/login`, and `/login` is open to everyone. */
  lemma RootAndLogin(loading: bool, user: Option<User>)
    ensures VisitPath("/", loading, user) == Visit(ShowNothing, Navigate("/login", true, None))
    ensures VisitPath("/login", loading, user) == Visit(ShowPage(LoginPage), Stay)
  {
  }

  /**
   * The required tags: sales, accounting, procurement, hr and inventory guard
   * the pages of the same name, admin guards settings, and the dashboard has
   * none. Every guarded page sits inside the main layout.
   */
  lemma RouteTags(path: string)
    ensures Route(path).Guarded? <==> path in {"/dashboard", "/sales", "/accounting", "/procurement", "/hr", "/inventory", "/settings"}
    ensures Route(path).Guarded? ==> Route(path).inMainLayout
    ensures Route(path).Guarded? && Route(path).required.Some? ==>
      Route(path).required.value == (if path == "/settings" then "admin" else path[1..])
    ensures Route("/dashboard").required == None
  {
  }

  /** Every other path, `/payroll` among them, shows the not-found page. */
  lemma UnknownPathsNotFound(path: string, loading: bool, user: Option<User>)
    requires path !in KnownPaths
    ensures VisitPath(path, loading, user) == Visit(ShowPage(NotFound), Stay)
    ensures VisitPath("/payroll", loading, user).shown == ShowPage(NotFound)
  {
  }

  /**
   * The access rule the table and the guard enforce together: a page behind
   * a tag is shown only to a signed-in user holding that tag, and only after
   * loading.
   */
  lemma TaggedPageNeedsTag(path: string, loading: bool, user: Option<User>)
    requires Route(path).Guarded? && Route(path).required.Some?
    requires VisitPath(path, loading, user).shown.ShowPage?
    ensures !loading && user.Some? && Route(path).required.value in user.value.permissions
  {
  }

  /**
   * The dashboard has no tag, so once loading is over it is shown even to a
   * visitor with no session, while the guard sends that visitor to `/login`.
   */
  lemma DashboardShownWithoutSession()
    ensures VisitPath("/dashboard", false, None) ==
      Visit(ShowPage(Dashboard), Navigate("/login", true, Some("/dashboard")))
  {
  }

  /** After a successful login every route in the table is shown without a redirect. */
  lemma AdminReachesEveryPage(path: string)
    requires path in KnownPaths - {"/"}
    ensures VisitPath(path, false, Some(DefaultUser())).shown.ShowPage?
    ensures VisitPath(path, false, Some(DefaultUser())).navigation == Stay
  {
  }
}
