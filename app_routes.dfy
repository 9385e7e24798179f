/** The application's routing (src/App.tsx): the role dispatch of the
    dashboard and the table of in-layout routes with the roles each admits. */
module AppRoutes {
  import opened Wrappers
  import opened Text
  import opened Records

  /** What the `/dashboard` element renders. */
  datatype DashboardView = DoctorDashboardView | AdminDashboardView | GovernmentDashboardView | RedirectTo(to: string)

  const KnownRoles: seq<string> := ["doctor", "admin", "government"]

  /** `Dashboard`: no user, or a role none of the cases names, goes back to
      the sign-in page; each known role gets its own dashboard. */
  function Dashboard(user: Option<User>): (v: DashboardView)
    ensures v.RedirectTo? <==> user.None? || user.value.role !in KnownRoles
    ensures v.RedirectTo? ==> v.to == "/login"
    ensures v == DoctorDashboardView <==> user.Some? && user.value.role == "doctor"
    ensures v == AdminDashboardView <==> user.Some? && user.value.role == "admin"
    ensures v == GovernmentDashboardView <==> user.Some? && user.value.role == "government"
  {
    if user.None? then RedirectTo("/login")
    else if user.value.role == "doctor" then DoctorDashboardView
    else if user.value.role == "admin" then AdminDashboardView
    else if user.value.role == "government" then GovernmentDashboardView
    else RedirectTo("/login")
  }

  /** The role check a route's element is wrapped in: none, a
      `ProtectedRoute` without a role list, or one with `allowedRoles`. */
  datatype Guard = Unguarded | AnyRole | OnlyRoles(roles: seq<string>)

  predicate Permits(g: Guard, role: string) {
    !g.OnlyRoles? || role in g.roles
  }

  datatype Page =
    | LoginPage | DashboardPage | PatientSearchPage | PatientDetailPage | MorbidityAnalyticsPage
    | EncountersPage | AnalyticsPage | StaffPage | ReportsPage | RegionalDataPage | DiseaseSurveillancePage

  /** A route; its path pattern is kept as its list of segments
      (`/patients/:id` is `["patients", ":id"]`). */
  datatype Route = Route(pattern: seq<string>, guard: Guard, page: Page)

  /** The routes inside the signed-in layout, in source order. */
  const LayoutRoutes: seq<Route> := [
    Route(["dashboard"], Unguarded, DashboardPage),
    Route(["patients"], OnlyRoles(["doctor", "admin"]), PatientSearchPage),
    Route(["patients", ":id"], OnlyRoles(["doctor", "admin"]), PatientDetailPage),
    Route(["morbidity-analytics"], OnlyRoles(["government"]), MorbidityAnalyticsPage),
    Route(["encounters"], OnlyRoles(["doctor", "admin"]), EncountersPage),
    Route(["analytics"], AnyRole, AnalyticsPage),
    Route(["staff"], OnlyRoles(["admin"]), StaffPage),
    Route(["reports"], OnlyRoles(["admin", "government"]), ReportsPage),
    Route(["regional-data"], OnlyRoles(["government"]), RegionalDataPage),
    Route(["disease-surveillance"], OnlyRoles(["government"]), DiseaseSurveillancePage)
  ]

  const LoginPattern: seq<string> := ["login"]

  function NonEmptyParts(parts: seq<string>): (r: seq<string>)
    ensures forall i :: 0 <= i < |r| ==> r[i] != ""
  {
    if parts == [] then []
    else (if parts[0] == "" then [] else [parts[0]]) + NonEmptyParts(parts[1..])
  }

  /** The path segments, ignoring empty ones (leading, trailing or doubled
      slashes). */
  function Segments(path: string): seq<string> {
    NonEmptyParts(Split(path, '/'))
  }

  /** A pattern segment `:name` matches any segment; any other matches the
      same text, ignoring case. */
  predicate SegmentMatches(pat: string, seg: string) {
    (|pat| > 0 && pat[0] == ':') || Lower(pat) == Lower(seg)
  }

  /** A pattern matches a path with as many segments, each matching. */
  predicate PatternMatches(pattern: seq<string>, xs: seq<string>) {
    |pattern| == |xs| && forall i :: 0 <= i < |xs| ==> SegmentMatches(pattern[i], xs[i])
  }

  /** The first route whose pattern matches the segments. React Router ranks
      routes by specificity instead; on this table the two agree, since at
      most one route matches any path (`AtMostOneMatch`). */
  function FindRoute(routes: seq<Route>, xs: seq<string>): (r: Option<Route>)
    ensures r.Some? ==> r.value in routes && PatternMatches(r.value.pattern, xs)
    ensures r.Some? ==> exists k :: (0 <= k < |routes| && routes[k] == r.value &&
      forall j :: 0 <= j < k ==> !PatternMatches(routes[j].pattern, xs))
    ensures r.None? ==> forall i :: 0 <= i < |routes| ==> !PatternMatches(routes[i].pattern, xs)
  {
    if routes == [] then None
    else if PatternMatches(routes[0].pattern, xs) then Some(routes[0])
    else
      var r := FindRoute(routes[1..], xs);
      if r.Some? then
        var k :| 0 <= k < |routes[1..]| && routes[1..][k] == r.value &&
          forall j :: 0 <= j < k ==> !PatternMatches(routes[1..][j].pattern, xs);
        assert routes[k + 1] == r.value;
        r
      else r
  }

  /** What a location shows: a page behind the outer sign-in guard (or not)
      and the page's own guard, or a redirect, itself behind the outer guard
      (or not). */
  datatype Outcome = Render(page: Page, signInRequired: bool, guard: Guard) | Redirect(to: string, signInRequired: bool)

  /** The top-level `Routes` on the segments of the location: `/login`, `/`
      (to the dashboard), and the catch-all, the signed-in layout whose own
      `Routes` send any unmatched path to the dashboard. */
  function ResolveSegments(xs: seq<string>): (o: Outcome)
    ensures o.Render? && o.page == LoginPage <==> PatternMatches(LoginPattern, xs)
    ensures o.Render? && o.page != LoginPage ==> o.signInRequired
    ensures o.Render? && o.page != LoginPage ==> exists k :: (0 <= k < |LayoutRoutes| &&
      LayoutRoutes[k] == Route(LayoutRoutes[k].pattern, o.guard, o.page) && PatternMatches(LayoutRoutes[k].pattern, xs))
    ensures o.Redirect? <==> (!PatternMatches(LoginPattern, xs) &&
      forall k :: 0 <= k < |LayoutRoutes| ==> !PatternMatches(LayoutRoutes[k].pattern, xs))
    ensures o.Redirect? ==> o.to == "/dashboard" && (o.signInRequired <==> xs != [])
  {
    if PatternMatches(LoginPattern, xs) then Render(LoginPage, false, Unguarded)
    else if xs == [] then
      PatternLengths();
      Redirect("/dashboard", false)
    else
      match FindRoute(LayoutRoutes, xs)
      case Some(route) =>
        LayoutPagesNotLogin();
        Render(route.page, true, route.guard)
      case None => Redirect("/dashboard", true)
  }

  /** The sign-in page is served outside the layout only. */
  lemma LayoutPagesNotLogin()
    ensures forall k :: 0 <= k < |LayoutRoutes| ==> LayoutRoutes[k].page != LoginPage
  {
  }

  function Resolve(path: string): Outcome {
    ResolveSegments(Segments(path))
  }

  lemma RootRedirectsToDashboard()
    ensures Resolve("/") == Redirect("/dashboard", false)
  {
    assert Split("/", '/') == ["", ""];
  }

  /** `/name` has the one segment `name`. */
  lemma SegmentsOfSimple(name: string)
    requires name != "" && '/' !in name
    ensures Segments("/" + name) == [name]
  {
    SplitAtSep("", name, '/');
    SplitWithoutSep(name, '/');
    assert "" + ['/'] + name == "/" + name;
    assert NonEmptyParts([name]) == [name];
  }

  /** `/a/b` has the two segments `a` and `b`. */
  lemma SegmentsOfPair(a: string, b: string)
    requires a != "" && b != "" && '/' !in a && '/' !in b
    ensures Segments("/" + a + "/" + b) == [a, b]
  {
    var tail := a + ['/'] + b;
    SplitAtSep(a, b, '/');
    SplitWithoutSep(b, '/');
    assert Split(tail, '/') == [a, b];
    SplitAtSep("", tail, '/');
    assert "" + ['/'] + tail == "/" + a + "/" + b;
    var parts := ["", a, b];
    assert Split("/" + a + "/" + b, '/') == parts;
    assert NonEmptyParts([b]) == [b] + NonEmptyParts([]);
    assert [a, b][1..] == [b];
    assert NonEmptyParts([a, b]) == [a] + NonEmptyParts([b]);
    assert parts[1..] == [a, b];
  }

  /** A string without upper-case ASCII letters. */
  predicate NoUpper(s: string) {
    forall i :: 0 <= i < |s| ==> !('A' <= s[i] <= 'Z')
  }

  lemma LowerOfNoUpper(s: string)
    requires NoUpper(s)
    ensures Lower(s) == s
  {
    assert forall i :: 0 <= i < |s| ==> Lower(s)[i] == s[i];
  }

  /** Between lower-case segments, matching is a parameter or equality. */
  lemma PlainSegmentMatches(p: string, x: string)
    requires NoUpper(p) && NoUpper(x)
    ensures SegmentMatches(p, x) <==> (|p| > 0 && p[0] == ':') || p == x
  {
    LowerOfNoUpper(p);
    LowerOfNoUpper(x);
  }

  // The table is checked one route at a time: every character of every
  // pattern is looked at, which is too much for one proof.

  lemma PlainPattern0()
    ensures |LayoutRoutes[0].pattern| == 1
    ensures NoUpper(LayoutRoutes[0].pattern[0]) && '/' !in LayoutRoutes[0].pattern[0]
  {
  }

  lemma PlainPattern1()
    ensures |LayoutRoutes[1].pattern| == 1
    ensures NoUpper(LayoutRoutes[1].pattern[0]) && '/' !in LayoutRoutes[1].pattern[0]
  {
  }

  lemma PlainPattern2()
    ensures |LayoutRoutes[2].pattern| == 2
    ensures NoUpper(LayoutRoutes[2].pattern[0]) && '/' !in LayoutRoutes[2].pattern[0]
    ensures NoUpper(LayoutRoutes[2].pattern[1]) && '/' !in LayoutRoutes[2].pattern[1]
  {
  }

  lemma PlainPattern3()
    ensures |LayoutRoutes[3].pattern| == 1
    ensures NoUpper(LayoutRoutes[3].pattern[0]) && '/' !in LayoutRoutes[3].pattern[0]
  {
  }

  lemma PlainPattern4()
    ensures |LayoutRoutes[4].pattern| == 1
    ensures NoUpper(LayoutRoutes[4].pattern[0]) && '/' !in LayoutRoutes[4].pattern[0]
  {
  }

  lemma PlainPattern5()
    ensures |LayoutRoutes[5].pattern| == 1
    ensures NoUpper(LayoutRoutes[5].pattern[0]) && '/' !in LayoutRoutes[5].pattern[0]
  {
  }

  lemma PlainPattern6()
    ensures |LayoutRoutes[6].pattern| == 1
    ensures NoUpper(LayoutRoutes[6].pattern[0]) && '/' !in LayoutRoutes[6].pattern[0]
  {
  }

  lemma PlainPattern7()
    ensures |LayoutRoutes[7].pattern| == 1
    ensures NoUpper(LayoutRoutes[7].pattern[0]) && '/' !in LayoutRoutes[7].pattern[0]
  {
  }

  lemma PlainPattern8()
    ensures |LayoutRoutes[8].pattern| == 1
    ensures NoUpper(LayoutRoutes[8].pattern[0]) && '/' !in LayoutRoutes[8].pattern[0]
  {
  }

  lemma PlainPattern9()
    ensures |LayoutRoutes[9].pattern| == 1
    ensures NoUpper(LayoutRoutes[9].pattern[0]) && '/' !in LayoutRoutes[9].pattern[0]
  {
  }

  /** The table's patterns are lower-case and free of slashes. */
  lemma LayoutLowerCase()
    ensures forall k, i :: 0 <= k < |LayoutRoutes| && 0 <= i < |LayoutRoutes[k].pattern| ==>
      NoUpper(LayoutRoutes[k].pattern[i]) && '/' !in LayoutRoutes[k].pattern[i]
  {
    PlainPattern0();
    PlainPattern1();
    PlainPattern2();
    PlainPattern3();
    PlainPattern4();
    PlainPattern5();
    PlainPattern6();
    PlainPattern7();
    PlainPattern8();
    PlainPattern9();
    forall k, i | 0 <= k < |LayoutRoutes| && 0 <= i < |LayoutRoutes[k].pattern|
      ensures NoUpper(LayoutRoutes[k].pattern[i]) && '/' !in LayoutRoutes[k].pattern[i]
    {
      assert k == 0 || k == 1 || k == 2 || k == 3 || k == 4 || k == 5 || k == 6 || k == 7 || k == 8 || k == 9;
    }
  }

  /** Every one-segment pattern of the table is a literal, and no pattern
      appears twice. */
  lemma LayoutShape()
    ensures forall k :: 0 <= k < |LayoutRoutes| && |LayoutRoutes[k].pattern| == 1 ==>
      LayoutRoutes[k].pattern[0] != "" && LayoutRoutes[k].pattern[0][0] != ':'
    ensures forall j, k :: 0 <= j < k < |LayoutRoutes| ==> LayoutRoutes[j].pattern != LayoutRoutes[k].pattern
  {
  }

  /** A one-segment lower-case path matches exactly the route spelled like it. */
  lemma {:induction false} SingleMatchesExactly(x: string, k: nat)
    requires NoUpper(x) && k < |LayoutRoutes|
    ensures PatternMatches(LayoutRoutes[k].pattern, [x]) <==> LayoutRoutes[k].pattern == [x]
  {
    LayoutShape();
    LayoutLowerCase();
    var pat := LayoutRoutes[k].pattern;
    if |pat| == 1 {
      PlainSegmentMatches(pat[0], x);
      var xs := [x];
      assert PatternMatches(pat, xs) <==> SegmentMatches(pat[0], xs[0]);
    }
  }

  /** When exactly one route matches, it is the one found. */
  lemma FindRouteUnique(routes: seq<Route>, xs: seq<string>, k: nat)
    requires k < |routes| && PatternMatches(routes[k].pattern, xs)
    requires forall j :: 0 <= j < |routes| && j != k ==> !PatternMatches(routes[j].pattern, xs)
    ensures FindRoute(routes, xs) == Some(routes[k])
  {
    var r := FindRoute(routes, xs);
    assert r.Some?;
    var k' :| 0 <= k' < |routes| && routes[k'] == r.value &&
      forall j :: 0 <= j < k' ==> !PatternMatches(routes[j].pattern, xs);
    assert k' == k;
  }

  /** The route spelled like a one-segment lower-case path is the one
      found for it. */
  lemma FindByName(name: string, k: nat)
    requires k < |LayoutRoutes| && LayoutRoutes[k].pattern == [name] && NoUpper(name)
    ensures FindRoute(LayoutRoutes, [name]) == Some(LayoutRoutes[k])
  {
    LayoutShape();
    forall j | 0 <= j < |LayoutRoutes| && j != k
      ensures !PatternMatches(LayoutRoutes[j].pattern, [name])
    {
      SingleMatchesExactly(name, j);
    }
    SingleMatchesExactly(name, k);
    FindRouteUnique(LayoutRoutes, [name], k);
  }

  /** `/name` for the name of a one-segment route shows that route, behind
      sign-in, with the route's own guard. */
  lemma ResolveRouteName(name: string, k: nat)
    requires k < |LayoutRoutes| && LayoutRoutes[k].pattern == [name] && name != "login"
    ensures Resolve("/" + name) == Render(LayoutRoutes[k].page, true, LayoutRoutes[k].guard)
  {
    LayoutLowerCase();
    assert NoUpper(LayoutRoutes[k].pattern[0]) && '/' !in LayoutRoutes[k].pattern[0];
    SegmentsOfSimple(name);
    FindByName(name, k);
    PlainSegmentMatches("login", name);
    var xs := [name];
    assert !SegmentMatches(LoginPattern[0], xs[0]);
  }

  /** `/name` for a lower-case name no route spells falls through to the
      layout's catch-all and goes to the dashboard. */
  lemma ResolveUnknownName(name: string)
    requires name != "" && '/' !in name && NoUpper(name) && name != "login"
    requires forall k :: 0 <= k < |LayoutRoutes| ==> LayoutRoutes[k].pattern != [name]
    ensures Resolve("/" + name) == Redirect("/dashboard", true)
  {
    SegmentsOfSimple(name);
    forall j | 0 <= j < |LayoutRoutes|
      ensures !PatternMatches(LayoutRoutes[j].pattern, [name])
    {
      SingleMatchesExactly(name, j);
    }
    PlainSegmentMatches("login", name);
    var xs := [name];
    assert !SegmentMatches(LoginPattern[0], xs[0]);
  }

  /** The patient's page is the only route of two segments. */
  lemma PatternLengths()
    ensures LayoutRoutes[2].pattern == ["patients", ":id"]
    ensures forall j :: 0 <= j < |LayoutRoutes| && j != 2 ==> |LayoutRoutes[j].pattern| == 1
  {
  }

  /** No path matches two routes of the table: one segment matches only the
      literal equal to it ignoring case, and only the patient's page has two
      segments. So the first match is also the most specific one. */
  lemma AtMostOneMatch(xs: seq<string>, j: nat, k: nat)
    requires j < |LayoutRoutes| && k < |LayoutRoutes|
    requires PatternMatches(LayoutRoutes[j].pattern, xs) && PatternMatches(LayoutRoutes[k].pattern, xs)
    ensures j == k
  {
    PatternLengths();
    if |xs| == 1 {
      LayoutShape();
      LayoutLowerCase();
      var pj, pk := LayoutRoutes[j].pattern, LayoutRoutes[k].pattern;
      LowerOfNoUpper(pj[0]);
      LowerOfNoUpper(pk[0]);
      assert SegmentMatches(pj[0], xs[0]) && SegmentMatches(pk[0], xs[0]);
      assert pj == [pj[0]] && pk == [pk[0]];
    }
  }

  /** Two segments under `patients` match the patient's page and no other
      route. */
  lemma DetailMatchesOnly(xs: seq<string>)
    requires |xs| == 2 && xs[0] == "patients"
    ensures PatternMatches(LayoutRoutes[2].pattern, xs)
    ensures forall j :: 0 <= j < |LayoutRoutes| && j != 2 ==> !PatternMatches(LayoutRoutes[j].pattern, xs)
  {
    PatternLengths();
    var pat := LayoutRoutes[2].pattern;
    assert SegmentMatches(pat[0], xs[0]);
    assert SegmentMatches(pat[1], xs[1]) by {
      assert pat[1][0] == ':';
    }
  }

  /** Two segments under `patients` find the patient's page. */
  lemma FindPatientDetail(xs: seq<string>)
    requires |xs| == 2 && xs[0] == "patients"
    ensures FindRoute(LayoutRoutes, xs) == Some(LayoutRoutes[2])
  {
    DetailMatchesOnly(xs);
    FindRouteUnique(LayoutRoutes, xs, 2);
  }

  /** `/patients/<id>`, for any id, shows the patient's page to doctors and
      administrators only. */
  lemma ResolvePatientDetail(id: string)
    requires id != "" && '/' !in id
    ensures Resolve("/patients/" + id) == Render(PatientDetailPage, true, OnlyRoles(["doctor", "admin"]))
  {
    SegmentsOfPair("patients", id);
    assert "/" + "patients" + "/" + id == "/patients/" + id;
    var xs := ["patients", id];
    FindPatientDetail(xs);
    assert !PatternMatches(LoginPattern, xs);
  }
}
