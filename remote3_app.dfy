/**
 * `Remote3App`: the single entry point the host mounts under `/app3`.  It
 * strips the `/app3` mount prefix from the pathname and runs a fixed,
 * first-match-wins chain of group tests over the resulting route.
 */
module Remote3App {
  import opened Options
  import opened Strings
  import opened Views
  import PathParser
  import ReportRouter
  import SettingsRouter
  import AuditRouter

  const Mount := "/app3"

  /**
   * `getRoute()`: `pathname.replace(/^\/app3\/?/, '/')`, then `|| '/'`.
   * The anchored pattern replaces `/app3` and at most one following slash
   * by a single slash; anything else is left alone.
   */
  function GetRoute(pathname: string): (route: string)
    ensures route != ""
    ensures StartsWith(pathname, Mount) ==> route[0] == '/' && |route| <= |pathname| - 3
    ensures !StartsWith(pathname, Mount) && pathname != "" ==> route == pathname
  {
    var basePath :=
      if StartsWith(pathname, Mount) then "/" + PathParser.DropOneSlash(pathname[|Mount|..])
      else pathname;
    if basePath == "" then "/" else basePath
  }

  /** Round trip: a route mounted under `/app3` comes back out unchanged. */
  lemma MountRoundTrip(route: string)
    requires StartsWith(route, "/")
    ensures GetRoute(Mount + route) == route
  {
    var p := Mount + route;
    assert p[..|Mount|] == Mount;
    assert p[|Mount|..] == route;
    assert route == [route[0]] + route[1..];
  }

  /** `/app3` and `/app3/` both become the root route, and so does an empty pathname. */
  lemma MountPointIsRoot()
    ensures GetRoute("/app3") == "/"
    ensures GetRoute("/app3/") == "/"
    ensures GetRoute("") == "/"
  {
    assert StartsWith("/app3/", Mount);
  }

  /**
   * Under the mount point the route is the rest of the pathname with exactly
   * one leading slash: an existing slash is kept, a missing one is supplied.
   */
  lemma MountedRoute(rest: string)
    ensures GetRoute(Mount + rest) == (if StartsWith(rest, "/") then rest else "/" + rest)
  {
    var p := Mount + rest;
    assert p[..|Mount|] == Mount;
    assert p[|Mount|..] == rest;
    if StartsWith(rest, "/") {
      assert rest == [rest[0]] + rest[1..];
    } else if rest != [] {
      assert rest[..1] != "/";
    }
  }

  /** The prefix is not segment-bounded: `/app3reports` becomes `/reports`. */
  lemma GluedMountPrefix()
    ensures GetRoute("/app3reports") == "/reports"
  {
    assert StartsWith("/app3reports", Mount);
    assert "/app3reports"[5..] == "reports";
  }

  /** `renderContent()`: the group chain, reports, settings, audit, demo, default. */
  function RenderContent(route: string): (v: View)
    ensures StartsWith(route, "/reports") ==> IsReportsView(v)
    ensures !StartsWith(route, "/reports") && StartsWith(route, "/settings") ==> IsSettingsView(v)
    ensures (!StartsWith(route, "/reports") && !StartsWith(route, "/settings") &&
      StartsWith(route, "/audit")) ==> IsAuditView(v)
    ensures v == CommunicationDemo <==>
      (!StartsWith(route, "/reports") && !StartsWith(route, "/settings") && !StartsWith(route, "/audit") &&
       (StartsWith(route, "/demo") || StartsWith(route, "/communication")))
  {
    if StartsWith(route, "/reports") then
      if route == "/reports/new" then ReportBuilder
      else if route != "/reports" && route != "/reports/" then
        ReportDetailPending(ReplaceFirst(route, "/reports/", ""))
      else ReportViewer
    else if StartsWith(route, "/settings") then
      if route != "/settings" && route != "/settings/" then
        SettingsSectionPending(ReplaceFirst(route, "/settings/", ""))
      else SettingsPanel
    else if StartsWith(route, "/audit") then
      if route != "/audit" && route != "/audit/" then
        AuditEntryPending(ReplaceFirst(route, "/audit/", ""))
      else AuditLog
    else if StartsWith(route, "/demo") || StartsWith(route, "/communication") then
      CommunicationDemo
    else
      ReportViewer
  }

  /** The view for a pathname: strip the mount prefix, then dispatch. */
  function Render(pathname: string): (v: View)
    ensures v == Dispatch(GetRoute(pathname))
  {
    ChainMatchesTable(GetRoute(pathname));
    RenderContent(GetRoute(pathname))
  }

  // ---------------------------------------------------------------------
  // An independent, table-driven reference for the dispatch chain.
  // ---------------------------------------------------------------------

  datatype Group = Reports | Settings | Audit | Demo

  /** The order in which the groups are tried. */
  const GroupOrder: seq<Group> := [Reports, Settings, Audit, Demo]

  /** The route prefixes that select each group. */
  predicate InGroup(route: string, g: Group) {
    match g
    case Reports => StartsWith(route, "/reports")
    case Settings => StartsWith(route, "/settings")
    case Audit => StartsWith(route, "/audit")
    case Demo => StartsWith(route, "/demo") || StartsWith(route, "/communication")
  }

  /** The position of the first group at or after `from` in `order` whose prefixes match. */
  function FirstGroup(order: seq<Group>, route: string, from: nat): (r: Option<nat>)
    requires from <= |order|
    ensures r.Some? ==> from <= r.value < |order| && InGroup(route, order[r.value])
    ensures r.Some? ==> forall m :: from <= m < r.value ==> !InGroup(route, order[m])
    ensures r.None? ==> forall m :: from <= m < |order| ==> !InGroup(route, order[m])
    decreases |order| - from
  {
    if from == |order| then None
    else if InGroup(route, order[from]) then Some(from)
    else FirstGroup(order, route, from + 1)
  }

  /**
   * Within a group mounted at `prefix`: the bare prefix, with or without a
   * trailing slash, is the group's main view; anything else is a placeholder
   * tagged with the route minus its first `prefix + "/"`.
   */
  function ResolveIn(prefix: string, main: View, placeholder: string -> View, route: string): View {
    if route == prefix || route == prefix + "/" then main
    else placeholder(ReplaceFirst(route, prefix + "/", ""))
  }

  function Resolve(g: Group, route: string): View {
    match g
    case Reports =>
      if route == "/reports/new" then ReportBuilder
      else ResolveIn("/reports", ReportViewer, id => ReportDetailPending(id), route)
    case Settings => ResolveIn("/settings", SettingsPanel, s => SettingsSectionPending(s), route)
    case Audit => ResolveIn("/audit", AuditLog, id => AuditEntryPending(id), route)
    case Demo => CommunicationDemo
  }

  /** The rule table applied first-match-wins, with the report list as the global default. */
  function Dispatch(route: string): View {
    match FirstGroup(GroupOrder, route, 0)
    case None => ReportViewer
    case Some(i) => Resolve(GroupOrder[i], route)
  }

  /** The group a route belongs to is decided by its second character. */
  lemma GroupBySecondChar(route: string)
    ensures StartsWith(route, "/reports") ==> route[1] == 'r'
    ensures StartsWith(route, "/settings") ==> route[1] == 's'
    ensures StartsWith(route, "/audit") ==> route[1] == 'a'
    ensures StartsWith(route, "/demo") ==> route[1] == 'd'
    ensures StartsWith(route, "/communication") ==> route[1] == 'c'
  {
    if StartsWith(route, "/reports") { assert route[..8][1] == route[1]; }
    if StartsWith(route, "/settings") { assert route[..9][1] == route[1]; }
    if StartsWith(route, "/audit") { assert route[..6][1] == route[1]; }
    if StartsWith(route, "/demo") { assert route[..5][1] == route[1]; }
    if StartsWith(route, "/communication") { assert route[..14][1] == route[1]; }
  }

  /** The groups are mutually exclusive: a route belongs to at most one. */
  lemma GroupsExclusive(route: string, g: Group, h: Group)
    requires g != h
    ensures !(InGroup(route, g) && InGroup(route, h))
  {
    GroupBySecondChar(route);
  }

  /** The rule table hands a route to the first group it belongs to, or to none. */
  lemma DispatchPicksGroup(route: string)
    ensures InGroup(route, Reports) ==> Dispatch(route) == Resolve(Reports, route)
    ensures (!InGroup(route, Reports) && InGroup(route, Settings)) ==> Dispatch(route) == Resolve(Settings, route)
    ensures (!InGroup(route, Reports) && !InGroup(route, Settings) && InGroup(route, Audit)) ==>
      Dispatch(route) == Resolve(Audit, route)
    ensures (!InGroup(route, Reports) && !InGroup(route, Settings) && !InGroup(route, Audit) &&
      InGroup(route, Demo)) ==> Dispatch(route) == Resolve(Demo, route)
    ensures (!InGroup(route, Reports) && !InGroup(route, Settings) && !InGroup(route, Audit) &&
      !InGroup(route, Demo)) ==> Dispatch(route) == ReportViewer
  {
    var order := GroupOrder;
    assert order[0] == Reports && order[1] == Settings && order[2] == Audit && order[3] == Demo;
    if InGroup(route, Reports) {
      assert FirstGroup(order, route, 0) == Some(0);
    } else if InGroup(route, Settings) {
      assert FirstGroup(order, route, 0) == FirstGroup(order, route, 1) == Some(1);
    } else if InGroup(route, Audit) {
      assert FirstGroup(order, route, 1) == FirstGroup(order, route, 2) == Some(2);
    } else if InGroup(route, Demo) {
      assert FirstGroup(order, route, 2) == FirstGroup(order, route, 3) == Some(3);
    } else {
      assert FirstGroup(order, route, 3) == FirstGroup(order, route, 4) == None;
    }
  }

  /** The hand-written chain and the rule table agree on every route. */
  lemma ChainMatchesTable(route: string)
    ensures RenderContent(route) == Dispatch(route)
  {
    DispatchPicksGroup(route);
    assert "/reports" + "/" == "/reports/";
    assert "/settings" + "/" == "/settings/";
    assert "/audit" + "/" == "/audit/";
    if StartsWith(route, "/reports") {
      assert RenderContent(route) == Resolve(Reports, route);
    } else if StartsWith(route, "/settings") {
      assert RenderContent(route) == Resolve(Settings, route);
    } else if StartsWith(route, "/audit") {
      assert RenderContent(route) == Resolve(Audit, route);
    } else if StartsWith(route, "/demo") || StartsWith(route, "/communication") {
      assert RenderContent(route) == Resolve(Demo, route);
    } else {
      assert RenderContent(route) == ReportViewer;
    }
  }

  /** A route outside every group, such as `/unknown` or `/`, falls back to the report list. */
  lemma DefaultFallback(route: string)
    requires forall g: Group :: !InGroup(route, g)
    ensures RenderContent(route) == ReportViewer
  {
    assert !InGroup(route, Reports) && !InGroup(route, Settings);
    assert !InGroup(route, Audit) && !InGroup(route, Demo);
  }

  /** Reports: exactly `/reports/new` is the builder; the bare group is the list. */
  lemma ReportsGroup()
    ensures RenderContent("/reports/new") == ReportBuilder
    ensures RenderContent("/reports") == ReportViewer
    ensures RenderContent("/reports/") == ReportViewer
  {
  }

  /** Any other sub-route of `/reports/` is a detail placeholder tagged with the rest. */
  lemma ReportsDetail(id: string)
    requires id != "" && id != "new"
    ensures RenderContent("/reports/" + id) == ReportDetailPending(id)
  {
    var route := "/reports/" + id;
    assert route[..8] == "/reports";
    assert route[9..] == id;
    assert "/reports/new"[9..] == "new";
    assert route != "/reports/new";
    assert |route| > 9;
    ReplaceFirstAtStart("/reports/", id);
  }

  /** Any sub-route of `/settings/` is a section placeholder tagged with the rest. */
  lemma SettingsSection(section: string)
    requires section != ""
    ensures RenderContent("/settings/" + section) == SettingsSectionPending(section)
  {
    var route := "/settings/" + section;
    GroupBySecondChar(route);
    assert route[1] == 's';
    ReplaceFirstAtStart("/settings/", section);
  }

  /** Any sub-route of `/audit/` is an entry placeholder tagged with the rest. */
  lemma AuditEntryRoute(id: string)
    requires id != ""
    ensures RenderContent("/audit/" + id) == AuditEntryPending(id)
  {
    var route := "/audit/" + id;
    GroupBySecondChar(route);
    assert route[1] == 'a';
    ReplaceFirstAtStart("/audit/", id);
  }

  /** `/reportsfoo` has no `/reports/` to remove, so the whole route is the id. */
  lemma GluedReportsRoute()
    ensures RenderContent("/reportsfoo") == ReportDetailPending("/reportsfoo")
  {
    var route := "/reportsfoo";
    var pattern := "/reports/";
    forall j | 0 <= j <= 2
      ensures !OccursAt(route, pattern, j)
    {
      if j == 0 {
        assert route[0..9][8] == 'f' != pattern[8];
      } else if j == 1 {
        assert route[1..10][0] == 'r' != pattern[0];
      } else {
        assert route[2..11][0] == 'e' != pattern[0];
      }
    }
    assert forall j :: 2 < j ==> !OccursAt(route, pattern, j);
    assert forall j :: !OccursAt(route, pattern, j);
  }

  /** The bare mount point renders the report list. */
  lemma MountPointExample()
    ensures Render("/app3") == ReportViewer
    ensures Render("/app3/") == ReportViewer
  {
    MountPointIsRoot();
    DefaultFallback("/");
  }

  /** `/app3/audit/7` renders the audit-entry placeholder tagged `7`. */
  lemma AuditEntryExample()
    ensures Render("/app3/audit/7") == AuditEntryPending("7")
  {
    assert Mount + "/audit/7" == "/app3/audit/7";
    MountRoundTrip("/audit/7");
    assert "/audit/" + "7" == "/audit/7";
    AuditEntryRoute("7");
  }

  /** `/app3/unknown` falls back to the report list. */
  lemma UnknownExample()
    ensures Render("/app3/unknown") == ReportViewer
  {
    assert Mount + "/unknown" == "/app3/unknown";
    MountRoundTrip("/unknown");
    GroupBySecondChar("/unknown");
    DefaultFallback("/unknown");
  }

  /** `/app3/reports/42/` keeps the trailing slash in the id. */
  lemma TrailingSlashExample()
    ensures Render("/app3/reports/42/") == ReportDetailPending("42/")
  {
    assert Mount + "/reports/42/" == "/app3/reports/42/";
    MountRoundTrip("/reports/42/");
    assert "/reports/" + "42/" == "/reports/42/";
    ReportsDetail("42/");
  }

  /** `/app3reports` is stripped to `/reports`, the report list. */
  lemma GluedMountExample()
    ensures Render("/app3reports") == ReportViewer
  {
    GluedMountPrefix();
  }

  /**
   * Where the group routers and the unified entry point see the same
   * sub-path they agree, except that `/reports/new` is the builder here and
   * only a placeholder in the report router.
   */
  lemma AgreesWithReportRouter(s: string)
    requires NoLineTerminator(s) && s != "new"
    ensures RenderContent("/reports/" + s) == ReportRouter.Render("/reports/" + s)
  {
    PathParser.SubPathRoundTrip("/reports", s);
    assert "/reports" + "/" + s == "/reports/" + s;
    if s != "" { ReportsDetail(s); }
  }

  lemma AgreesWithSettingsRouter(s: string)
    requires NoLineTerminator(s)
    ensures RenderContent("/settings/" + s) == SettingsRouter.Render("/settings/" + s)
  {
    PathParser.SubPathRoundTrip("/settings", s);
    assert "/settings" + "/" + s == "/settings/" + s;
    if s != "" {
      SettingsSection(s);
    } else {
      assert "/settings/" + s == "/settings/";
      GroupBySecondChar("/settings/");
    }
  }

  lemma AgreesWithAuditRouter(s: string)
    requires NoLineTerminator(s)
    ensures RenderContent("/audit/" + s) == AuditRouter.Render("/audit/" + s)
  {
    PathParser.SubPathRoundTrip("/audit", s);
    assert "/audit" + "/" + s == "/audit/" + s;
    if s != "" { AuditEntryRoute(s); } else { assert "/audit/" + s == "/audit/"; }
  }

  /** They disagree on `/reports/new` and on routes glued to the group name. */
  lemma DisagreesWithReportRouter()
    ensures RenderContent("/reports/new") != ReportRouter.Render("/reports/new")
    ensures RenderContent("/reportsfoo") != ReportRouter.Render("/reportsfoo")
  {
    ReportRouter.NewRendersPlaceholder();
    ReportRouter.DetailExamples();
    GluedReportsRoute();
  }
}
