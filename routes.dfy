/** The route table (src/config/routes.ts) and its lookups: by path, page
    title, by module, the sidebar items and the module of a pathname. The
    icons are left out. Every lookup takes the table as a parameter and is
    also stated for the application's own table, `Routes`. */
module Routes {
  import opened Common

  /** A route; a missing `showInNav` reads as false. */
  datatype RouteConfig = RouteConfig(
    path: string,
    title: string,
    showInNav: bool,
    navOrder: Option<int>,
    moduleName: Option<string>)

  const Muhasebe := "Muhasebe"
  const DefaultTitle := "My Dora"

  const Routes: seq<RouteConfig> := [
    RouteConfig("/accounting/ledger", "Kay\U{0131}tlar", true, Some(1), Some(Muhasebe)),
    RouteConfig("/accounting/categories", "Ana Hesaplar", true, Some(2), Some(Muhasebe)),
    RouteConfig("/accounting/accounts", "Alt Hesaplar", true, Some(3), Some(Muhasebe)),
    RouteConfig("/accounting", "Genel Bak\U{0131}\U{015F}", false, None, Some(Muhasebe)),
    RouteConfig("/dashboard", "Dashboard", false, None, Some("Dashboard"))
  ]

  /** `getRouteByPath`: the first route with exactly that path. */
  function RouteByPath(table: seq<RouteConfig>, path: string): (r: Option<RouteConfig>)
    ensures r.None? <==> forall i :: 0 <= i < |table| ==> table[i].path != path
    ensures r.Some? ==>
      exists i :: 0 <= i < |table| && table[i] == r.value && r.value.path == path
        && (forall j :: 0 <= j < i ==> table[j].path != path)
  {
    Find(table, (route: RouteConfig) => route.path == path)
  }

  /** `getPageTitle`: the route's title, or "My Dora" for an unknown path
      or an empty title. */
  function PageTitle(table: seq<RouteConfig>, path: string): (r: string)
    ensures RouteByPath(table, path).Some? && RouteByPath(table, path).value.title != "" ==> r == RouteByPath(table, path).value.title
    ensures RouteByPath(table, path).None? ==> r == DefaultTitle
    ensures RouteByPath(table, path).Some? && RouteByPath(table, path).value.title == "" ==> r == DefaultTitle
    ensures r != ""
  {
    var route := RouteByPath(table, path);
    if route.Some? && route.value.title != "" then route.value.title else DefaultTitle
  }

  /** The application's pages have their own titles; other paths get the
      default. */
  lemma KnownTitles(path: string)
    requires forall i :: 0 <= i < |Routes| ==> Routes[i].path != path
    ensures PageTitle(Routes, "/accounting/ledger") == "Kay\U{0131}tlar"
    ensures PageTitle(Routes, "/accounting") == "Genel Bak\U{0131}\U{015F}"
    ensures PageTitle(Routes, path) == DefaultTitle
  {
    assert Routes[0].path == "/accounting/ledger";
    assert Routes[3].path == "/accounting";
    assert forall j :: 0 <= j < 3 ==> Routes[j].path != "/accounting" by {
      assert |"/accounting"| == 11;
      assert |Routes[0].path| == 18 && |Routes[1].path| == 22 && |Routes[2].path| == 20;
    }
  }

  /** `getRoutesByModule`: exactly the routes of that module, in order. */
  function RoutesByModule(table: seq<RouteConfig>, m: string): (r: seq<RouteConfig>)
    ensures forall route :: route in r <==> route in table && route.moduleName == Some(m)
    ensures |r| <= |table|
  {
    if table == [] then []
    else
      var last := table[|table| - 1];
      RoutesByModule(table[..|table| - 1], m) + (if last.moduleName == Some(m) then [last] else [])
  }

  /** The module filter works part by part, so the routes it keeps stay in
      table order. */
  lemma {:induction false} RoutesByModuleAppend(a: seq<RouteConfig>, b: seq<RouteConfig>, m: string)
    ensures RoutesByModule(a + b, m) == RoutesByModule(a, m) + RoutesByModule(b, m)
    decreases |b|
  {
    if b == [] {
      assert a + b == a;
    } else {
      var init := b[..|b| - 1];
      assert (a + b)[..|a + b| - 1] == a + init;
      assert (a + b)[|a + b| - 1] == b[|b| - 1];
      RoutesByModuleAppend(a, init, m);
    }
  }

  /** A missing or zero `navOrder` counts as 999. */
  function NavKey(route: RouteConfig): int {
    if route.navOrder.None? || route.navOrder.value == 0 then 999 else route.navOrder.value
  }

  /** The sidebar routes before sorting: shown in the sidebar and, when a
      non-empty module is given, of that module. */
  predicate InNav(route: RouteConfig, m: Option<string>) {
    route.showInNav && (Truthy(m) ==> route.moduleName == m)
  }

  function NavRoutes(table: seq<RouteConfig>, m: Option<string>): (r: seq<RouteConfig>)
    ensures forall route :: route in r <==> route in table && InNav(route, m)
  {
    if table == [] then []
    else
      var last := table[|table| - 1];
      NavRoutes(table[..|table| - 1], m) + (if InNav(last, m) then [last] else [])
  }

  /** `getNavigationItems`: the sidebar routes, stably sorted by `NavKey`. */
  function NavigationItems(table: seq<RouteConfig>, m: Option<string>): (r: seq<RouteConfig>)
    ensures multiset(r) == multiset(NavRoutes(table, m))
  {
    SortBy(NavRoutes(table, m), NavKey, IntLe)
  }

  /** The sidebar items are exactly the sidebar routes, each once as often
      as in the table, in ascending `NavKey` order. */
  lemma NavigationItemsSpec(table: seq<RouteConfig>, m: Option<string>)
    ensures var r := NavigationItems(table, m);
      && multiset(r) == multiset(NavRoutes(table, m))
      && (forall route :: route in r <==> route in table && InNav(route, m))
      && forall i, j :: 0 <= i < j < |r| ==> NavKey(r[i]) <= NavKey(r[j])
  {
    IntLeIsTotalPreorder();
    SortBySorted(NavRoutes(table, m), NavKey, IntLe);
    var r := NavigationItems(table, m);
    forall route ensures route in r <==> route in NavRoutes(table, m) {
      assert route in r <==> route in multiset(r);
    }
  }

  /** The routes whose path is a prefix of the pathname, in order. */
  function Matching(table: seq<RouteConfig>, pathname: string): (r: seq<RouteConfig>)
    ensures forall route :: route in r <==> route in table && StartsWith(pathname, route.path)
  {
    if table == [] then []
    else
      var last := table[|table| - 1];
      Matching(table[..|table| - 1], pathname) + (if StartsWith(pathname, last.path) then [last] else [])
  }

  function PathLength(route: RouteConfig): int {
    |route.path|
  }

  /** `bestMatch.module || null`. */
  function ModuleOf(route: RouteConfig): Option<string> {
    if Truthy(route.moduleName) then route.moduleName else None
  }

  /** `getModuleByPath`: nothing when no path is a prefix, otherwise the
      module of the longest match. */
  function ModuleByPath(table: seq<RouteConfig>, pathname: string): (r: Option<string>)
    ensures Matching(table, pathname) == [] ==> r.None?
  {
    var ms := Matching(table, pathname);
    if ms == [] then None else ModuleOf(ms[LongestAt(ms, PathLength)])
  }

  /** With some match, the module is that of a matching route no match is
      longer than and no later match is as long as, or nothing when that
      route has no module. */
  lemma ModuleByPathIsLongestMatch(table: seq<RouteConfig>, pathname: string)
    requires Matching(table, pathname) != []
    ensures var ms := Matching(table, pathname);
      exists i :: 0 <= i < |ms|
        && (forall j :: 0 <= j < |ms| ==> |ms[j].path| <= |ms[i].path|)
        && (forall j :: i < j < |ms| ==> |ms[j].path| < |ms[i].path|)
        && ModuleByPath(table, pathname) == ModuleOf(ms[i])
  {
    var ms := Matching(table, pathname);
    var i := LongestAt(ms, PathLength);
    assert forall j :: 0 <= j < |ms| ==> PathLength(ms[j]) == |ms[j].path|;
    assert ModuleByPath(table, pathname) == ModuleOf(ms[i]);
  }

  /** Any path under "/accounting" belongs to the "Muhasebe" module. */
  lemma AccountingPathsAreMuhasebe(pathname: string)
    requires StartsWith(pathname, "/accounting")
    ensures ModuleByPath(Routes, pathname) == Some(Muhasebe)
  {
    var ms := Matching(Routes, pathname);
    assert Routes[3] in Routes;
    assert Routes[3] in ms;
    assert !StartsWith(pathname, "/dashboard") by {
      assert pathname[1] == "/accounting"[1] == 'a';
      assert "/dashboard"[1] == 'd';
    }
    forall route | route in ms ensures route.moduleName == Some(Muhasebe) {
      var k :| 0 <= k < |Routes| && Routes[k] == route;
      assert k != 4;
    }
    var i := LongestAt(ms, PathLength);
    assert ms[i] in ms;
  }
}
