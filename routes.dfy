/** The application's route table and its access gate (`ProtectedRoute`,
    `AppRoutes`). A path selects the route whose path it spells, ignoring
    ASCII letter case and any trailing slashes, as the router matches by
    default; unmatched paths fall through to the not-found page. Gated routes wait
    while the session is loading, send a signed-out visitor to "/login"
    (replacing the history entry), and otherwise show their page. The gate
    never looks at the user's role. */
module Routes {
  import opened Lists
  import opened Auth
  import opened Navigation

  /** The pages a route can show. */
  datatype Page =
    | IndexPage | LoginPage | DashboardPage | CateringPage | StationeryPage
    | ResortMoviesPage | BeautySalonPage | FitnessCenterPage | PartyHallPage | NotFoundPage

  /** One entry of the route table. */
  datatype Route = Route(path: string, page: Page, gated: bool)

  /** The active routes, in declaration order; the role-specific routes are
      present in the source only as comments and so are not here. */
  const RouteTable: seq<Route> := [
    Route("/", IndexPage, false),
    Route("/login", LoginPage, false),
    Route("/dashboard", DashboardPage, true),
    Route("/catering", CateringPage, true),
    Route("/stationery", StationeryPage, true),
    Route("/resort-movies", ResortMoviesPage, true),
    Route("/beauty-salon", BeautySalonPage, true),
    Route("/fitness-center", FitnessCenterPage, true),
    Route("/party-hall", PartyHallPage, true)
  ]

  /** What the browser ends up showing. */
  datatype Screen = Placeholder | Redirect(to: string, replace: bool) | Render(page: Page)

  /** `ProtectedRoute`: decide from the session's `loading` and `isAuthenticated` alone. */
  function ProtectedRoute(loading: bool, isAuthenticated: bool, page: Page): (s: Screen)
    ensures s == Placeholder <==> loading
    ensures s.Redirect? <==> !loading && !isAuthenticated
    ensures s.Redirect? ==> s == Redirect("/login", true)
    ensures s.Render? <==> !loading && isAuthenticated
    ensures s.Render? ==> s.page == page
  {
    if loading then Placeholder
    else if !isAuthenticated then Redirect("/login", true)
    else Render(page)
  }

  /** ASCII upper-case letters folded to lower case; every other character kept. */
  function LowerChar(c: char): char
  {
    if 'A' <= c <= 'Z' then (c as int - 'A' as int + 'a' as int) as char else c
  }

  /** `s` with every ASCII letter in lower case: same length, no capital left. */
  function Lower(s: string): (r: string)
    ensures |r| == |s|
    ensures forall i :: 0 <= i < |r| ==> !('A' <= r[i] <= 'Z')
  {
    seq(|s|, i requires 0 <= i < |s| => LowerChar(s[i]))
  }

  /** A string without capitals is its own lower-case form, so lowering is idempotent. */
  lemma LowerWithoutCapitals(s: string)
    requires forall i :: 0 <= i < |s| ==> !('A' <= s[i] <= 'Z')
    ensures Lower(s) == s
  {
    assert forall i :: 0 <= i < |s| ==> Lower(s)[i] == s[i];
  }

  /** `s` without its trailing slashes: a prefix of `s`, followed in `s` only
      by slashes, and not itself ending in one. */
  function TrimTrailingSlashes(s: string): (r: string)
    ensures r <= s
    ensures forall i :: |r| <= i < |s| ==> s[i] == '/'
    ensures r == [] || r[|r| - 1] != '/'
  {
    if s != [] && s[|s| - 1] == '/' then TrimTrailingSlashes(s[..|s| - 1]) else s
  }

  /** What the router compares: the path in lower case without trailing slashes. */
  function Key(s: string): string
  {
    TrimTrailingSlashes(Lower(s))
  }

  /** A route path (a leading slash, no trailing one) selects a location path
      exactly when that path spells it, up to letter case, followed by any
      number of slashes; the root route "/" takes any run of slashes. */
  predicate PathMatches(routePath: string, path: string)
  {
    path != "" && Key(path) == Key(routePath)
  }

  /** A string not ending in a slash keys to its lower-case form. */
  lemma KeyWithoutTrailingSlash(s: string)
    requires s == [] || s[|s| - 1] != '/'
    ensures Key(s) == Lower(s)
  {
  }

  /** A string with no upper-case letter and no trailing slash is its own key. */
  lemma KeyOfCanonical(s: string)
    requires forall i :: 0 <= i < |s| ==> !('A' <= s[i] <= 'Z')
    requires s == [] || s[|s| - 1] != '/'
    ensures Key(s) == s
  {
    LowerWithoutCapitals(s);
  }

  /** Appending slashes to a location path, or changing the case of its
      letters, does not change what it matches. */
  lemma {:induction false} KeyIgnoresTrailingSlash(s: string)
    ensures Key(s + "/") == Key(s)
  {
    assert Lower(s + "/") == Lower(s) + "/";
    assert (Lower(s) + "/")[..|Lower(s) + "/"| - 1] == Lower(s);
  }

  lemma KeyIgnoresCase(s: string)
    ensures Key(Lower(s)) == Key(s)
  {
    assert Lower(Lower(s)) == Lower(s);
  }

  /** The keys of the table's paths: "" for the root, the path itself otherwise. */
  lemma RouteKeys()
    ensures Key(RouteTable[0].path) == ""
    ensures forall k :: 1 <= k < |RouteTable| ==> Key(RouteTable[k].path) == RouteTable[k].path
  {
    assert Lower("/") == "/";
    assert TrimTrailingSlashes("/") == TrimTrailingSlashes("");
    forall k | 1 <= k < |RouteTable|
      ensures Key(RouteTable[k].path) == RouteTable[k].path
    {
      KeyOfCanonical(RouteTable[k].path);
    }
  }

  /** No location path matches two routes, so the router's ranking and the
      table's order select the same route. */
  lemma RoutesDisjoint(path: string, i: nat, j: nat)
    requires i < j < |RouteTable|
    ensures !(PathMatches(RouteTable[i].path, path) && PathMatches(RouteTable[j].path, path))
  {
    RouteKeys();
    RoutePathsDistinct();
    assert Key(RouteTable[i].path) != Key(RouteTable[j].path);
  }

  /** The table's paths are pairwise distinct and none is empty. */
  lemma RoutePathsDistinct()
    ensures forall i, j :: 0 <= i < j < |RouteTable| ==> RouteTable[i].path != RouteTable[j].path
    ensures forall k :: 0 <= k < |RouteTable| ==> RouteTable[k].path != ""
  {
  }

  /** The route a path selects, if any. */
  function Match(path: string): (r: Option<Route>)
    ensures r.Some? ==> r.value in RouteTable && PathMatches(r.value.path, path)
    ensures r.None? <==> forall i :: 0 <= i < |RouteTable| ==> !PathMatches(RouteTable[i].path, path)
  {
    Find(RouteTable, (rt: Route) => PathMatches(rt.path, path))
  }

  /** The screen for a path, given the session flags. */
  function Resolve(path: string, loading: bool, isAuthenticated: bool): Screen
  {
    match Match(path)
    case None => Render(NotFoundPage)
    case Some(rt) => if rt.gated then ProtectedRoute(loading, isAuthenticated, rt.page) else Render(rt.page)
  }

  /** A path that matches the route at position `k` selects that route. */
  lemma MatchAt(path: string, k: nat)
    requires k < |RouteTable| && PathMatches(RouteTable[k].path, path)
    ensures Match(path) == Some(RouteTable[k])
  {
    forall j | 0 <= j < k
      ensures !PathMatches(RouteTable[j].path, path)
    {
      RoutesDisjoint(path, j, k);
    }
    FindFirstMatch(RouteTable, (rt: Route) => PathMatches(rt.path, path), k);
  }

  /** A trailing slash or a change of letter case never changes the screen. */
  lemma ResolveIgnoresSlashAndCase(path: string, loading: bool, isAuthenticated: bool)
    requires path != ""
    ensures Resolve(path + "/", loading, isAuthenticated) == Resolve(path, loading, isAuthenticated)
    ensures Resolve(Lower(path), loading, isAuthenticated) == Resolve(path, loading, isAuthenticated)
  {
    KeyIgnoresTrailingSlash(path);
    KeyIgnoresCase(path);
    assert |Lower(path)| == |path|;
    if k :| 0 <= k < |RouteTable| && PathMatches(RouteTable[k].path, path) {
      MatchAt(path, k);
      MatchAt(path + "/", k);
      MatchAt(Lower(path), k);
    } else {
      assert forall k :: 0 <= k < |RouteTable| ==> !PathMatches(RouteTable[k].path, path + "/");
      assert forall k :: 0 <= k < |RouteTable| ==> !PathMatches(RouteTable[k].path, Lower(path));
    }
  }

  /** "/Catering" reaches the gated catering page like "/catering". */
  lemma CateringUpperCase(loading: bool, isAuthenticated: bool)
    ensures Resolve("/Catering", loading, isAuthenticated) == ProtectedRoute(loading, isAuthenticated, CateringPage)
  {
    var lower := Lower("/Catering");
    assert lower[1] == LowerChar('C') == 'c';
    assert forall i :: 2 <= i < 9 ==> lower[i] == "/Catering"[i];
    assert lower == "/catering";
    KeyIgnoresCase("/Catering");
    MatchAt("/Catering", 3);
  }

  /** "/catering/" reaches the gated catering page like "/catering". */
  lemma CateringTrailingSlash(loading: bool, isAuthenticated: bool)
    ensures Resolve("/catering/", loading, isAuthenticated) == ProtectedRoute(loading, isAuthenticated, CateringPage)
  {
    KeyIgnoresTrailingSlash("/catering");
    assert "/catering" + "/" == "/catering/";
    MatchAt("/catering/", 3);
  }

  /** The voyager's menu paths: the seven gated service paths. */
  lemma GatedPathsOpenToEveryUser(path: string, loading: bool, isAuthenticated: bool)
    requires path in Paths(RoleMenu(Voyager))
    ensures Match(path).Some? && Match(path).value.gated
    ensures Resolve(path, loading, isAuthenticated) == ProtectedRoute(loading, isAuthenticated, Match(path).value.page)
    ensures Match(path).value.page != NotFoundPage
  {
    var j :| 0 <= j < |RoleMenu(Voyager)| && Paths(RoleMenu(Voyager))[j] == path;
    var i := j + 2;
    assert RouteTable[i].path == path;
    MatchAt(path, i);
  }

  /** "/" and "/login" show their page whatever the session state. */
  lemma PublicPaths(loading: bool, isAuthenticated: bool)
    ensures Resolve("/", loading, isAuthenticated) == Render(IndexPage)
    ensures Resolve("/login", loading, isAuthenticated) == Render(LoginPage)
  {
    MatchAt("/", 0);
    MatchAt("/login", 1);
  }

  /** A path no route matches, in the router's sense, shows the not-found
      page, session or not. */
  lemma UnknownPathNotFound(path: string, loading: bool, isAuthenticated: bool)
    requires forall i :: 0 <= i < |RouteTable| ==> !PathMatches(RouteTable[i].path, path)
    ensures Resolve(path, loading, isAuthenticated) == Render(NotFoundPage)
  {
  }

  /** Every menu entry of the four staff roles other than "Dashboard" leads to
      the not-found page, because their routes are not in the table. */
  lemma StaffMenuEntriesNotFound(r: Role, i: nat, loading: bool, isAuthenticated: bool)
    requires r != Voyager && 1 <= i < |RoleMenu(r)|
    ensures Resolve(RoleMenu(r)[i].path, loading, isAuthenticated) == Render(NotFoundPage)
  {
    StaffPathUnmatched(r, i);
  }

  /** No route matches a staff menu entry other than "Dashboard". */
  lemma StaffPathUnmatched(r: Role, i: nat)
    requires r != Voyager && 1 <= i < |RoleMenu(r)|
    ensures forall k :: 0 <= k < |RouteTable| ==> !PathMatches(RouteTable[k].path, RoleMenu(r)[i].path)
  {
    match r
    case Admin => AdminPathUnmatched(i);
    case Manager => ManagerPathUnmatched(i);
    case HeadCook => NoRouteMatches("/catering-orders");
    case Supervisor => NoRouteMatches("/stationery-orders");
  }

  /** No route matches an admin menu entry other than "Dashboard". */
  lemma AdminPathUnmatched(i: nat)
    requires 1 <= i < |RoleMenu(Admin)|
    ensures forall k :: 0 <= k < |RouteTable| ==> !PathMatches(RouteTable[k].path, RoleMenu(Admin)[i].path)
  {
    if i == 1 { NoRouteMatches("/add-item"); }
    else if i == 2 { NoRouteMatches("/manage-items"); }
    else { NoRouteMatches("/register-voyager"); }
  }

  /** No route matches a manager menu entry other than "Dashboard". */
  lemma ManagerPathUnmatched(i: nat)
    requires 1 <= i < |RoleMenu(Manager)|
    ensures forall k :: 0 <= k < |RouteTable| ==> !PathMatches(RouteTable[k].path, RoleMenu(Manager)[i].path)
  {
    NoLongPathMatches(RoleMenu(Manager)[i].path);
  }

  /** A path without a trailing slash matches no route when, against every
      route path of its own length, its second letter differs even in lower case. */
  lemma NoRouteMatches(p: string)
    requires |p| >= 2 && p[|p| - 1] != '/'
    requires forall k :: 1 <= k < |RouteTable| && |RouteTable[k].path| == |p| ==> LowerChar(p[1]) != RouteTable[k].path[1]
    ensures forall k :: 0 <= k < |RouteTable| ==> !PathMatches(RouteTable[k].path, p)
  {
    RouteKeys();
    KeyWithoutTrailingSlash(p);
    assert Key(p)[1] == LowerChar(p[1]);
  }

  /** A path without a trailing slash that is longer than every route path
      (the longest is "/fitness-center") matches no route. */
  lemma NoLongPathMatches(p: string)
    requires |p| > 15 && p[|p| - 1] != '/'
    ensures forall k :: 0 <= k < |RouteTable| ==> !PathMatches(RouteTable[k].path, p)
  {
    RouteKeys();
    KeyWithoutTrailingSlash(p);
    assert forall k :: 0 <= k < |RouteTable| ==> |RouteTable[k].path| <= 15;
  }

  /** The gate on a freshly mounted session waits, whatever is stored; once
      the mount effect has run it shows the page exactly when a user was
      stored, and otherwise redirects to "/login". */
  lemma GateAcrossRestore(stored: Option<User>, page: Page)
    ensures ProtectedRoute(Mounted(stored).loading, Mounted(stored).user.Some?, page) == Placeholder
    ensures var s := Restored(Mounted(stored));
      ProtectedRoute(s.loading, s.user.Some?, page) == if stored.Some? then Render(page) else Redirect("/login", true)
  {
  }
}
