/**
 * The routing and URL-rewrite test (audit/routing-test.php): inspects the two
 * `.htaccess` files, classifies eight API and three admin routes by what the
 * deployed tree holds at their paths, checks that three rewrite targets
 * exist, and rates the share of accessible routes.
 */
module RoutingTest {
  import opened Wrappers
  import opened Strings
  import opened Paths
  import opened Patterns
  import opened Scoring

  /** The deployed tree every route is looked up in: `../public_html`, built from its parts. */
  const PublicHtml: string := "public_html"
  const BasePath: Path := ".." + "/" + PublicHtml

  // ---------------------------------------------------------------------
  // .htaccess files

  const Backend: string := "backend"
  const HtaccessName: string := ".htaccess"

  /** `../public_html/.htaccess` and `../public_html/backend/.htaccess`. */
  const HtaccessPaths: seq<Path> := [BasePath + "/" + HtaccessName, (BasePath + "/" + Backend) + "/" + HtaccessName]

  /** An `htaccess` entry: size, line count and four substring flags, or `exists` false. */
  datatype HtaccessAnalysis =
    | HtaccessFound(size: nat, lines: nat, rewriteEngine: bool, apiRules: bool, adminRules: bool, securityRules: bool)
    | HtaccessAbsent

  /** The analysis of one `.htaccess`; `lines` counts the pieces of `explode("\n")`. */
  function HtaccessAnalysisOf(fs: FileSystem, file: Path): (r: HtaccessAnalysis)
    ensures r.HtaccessAbsent? <==> !Exists(fs, file)
  {
    if !Exists(fs, file) then HtaccessAbsent
    else
      var content := Content(fs, file);
      HtaccessFound(MetaOf(fs, file).size, |Split(content, '\n')|,
                    Contains(content, "RewriteEngine On"), Contains(content, "api/"),
                    Contains(content, "admin/"), Contains(content, "Files ~"))
  }

  /** A found file has one line more than it has newlines, so never zero lines. */
  lemma HtaccessLineCount(fs: FileSystem, file: Path)
    requires Exists(fs, file)
    ensures HtaccessAnalysisOf(fs, file).lines == CountChar(Content(fs, file), '\n') + 1
  {
    SplitCount(Content(fs, file), '\n');
  }

  /** The key an analysis is stored under: `basename(dirname($file))`. */
  function HtaccessKey(file: Path): string {
    Basename(Dirname(file))
  }

  /** The root `.htaccess` is stored under `public_html`. */
  lemma RootHtaccessKey()
    ensures HtaccessKey(HtaccessPaths[0]) == PublicHtml
  {
    JoinSplits(BasePath, HtaccessName);
    JoinSplits("..", PublicHtml);
  }

  /** The backend `.htaccess` is stored under `backend`, so neither entry overwrites the other. */
  lemma BackendHtaccessKey()
    ensures HtaccessKey(HtaccessPaths[1]) == Backend
  {
    JoinSplits(BasePath + "/" + Backend, HtaccessName);
    JoinSplits(BasePath, Backend);
  }

  function HtaccessTable(fs: FileSystem): seq<(string, HtaccessAnalysis)> {
    Map((file: Path) => (HtaccessKey(file), HtaccessAnalysisOf(fs, file)), HtaccessPaths)
  }

  /** The loop of `checkHtaccessFiles`. */
  method HtaccessEntries(fs: FileSystem) returns (entries: seq<(string, HtaccessAnalysis)>)
    ensures entries == HtaccessTable(fs)
  {
    var files := HtaccessPaths;
    entries := [];
    var i := 0;
    while i < |files|
      invariant 0 <= i <= |files|
      invariant entries == Map((file: Path) => (HtaccessKey(file), HtaccessAnalysisOf(fs, file)), files[..i])
    {
      var file := files[i];
      var analysis := HtaccessAnalysisOf(fs, file);
      MapStep((file: Path) => (HtaccessKey(file), HtaccessAnalysisOf(fs, file)), files, i);
      entries := entries + [(Basename(Dirname(file)), analysis)];
      i := i + 1;
    }
    assert files[..i] == files;
  }

  // ---------------------------------------------------------------------
  // Routes

  const ApiRoutes: seq<Path> := [
    "/backend/api/pages", "/backend/api/portfolio", "/backend/api/services", "/backend/api/forms",
    "/backend/api/media", "/backend/api/settings", "/backend/api/auth", "/backend/get_projects.php"]

  const AdminRoutes: seq<Path> := ["/backend/admin/", "/backend/admin/login.php", "/backend/admin/index.php"]

  /** `checkPhpSyntax`: the brace count is the only check. */
  datatype SyntaxCheck = SyntaxCheck(valid: bool, issues: seq<string>, error: Option<string>)

  function CheckPhpSyntax(content: string): (r: SyntaxCheck)
    ensures r.valid <==> Balanced(content, '{', '}')
    ensures r.valid <==> r.issues == []
    ensures r.error.None? <==> r.valid
    ensures !r.valid ==> r.issues == ["unmatched_braces"] && r.error == Some("unmatched_braces")
  {
    var issues := if CountChar(content, '{') != CountChar(content, '}') then ["unmatched_braces"] else [];
    // `implode(', ', $issues)` of the single possible issue is that issue
    SyntaxCheck(issues == [], issues, if issues != [] then Some(issues[0]) else None)
  }

  /** What `testRoute` finds at a route. */
  datatype RouteResult =
    | DirectoryWithIndex
    | DirectoryNoIndex
    | PhpFile(syntax: SyntaxCheck)
    | MissingRoute

  /** The `accessible` field. */
  predicate Accessible(r: RouteResult) {
    r.DirectoryWithIndex? || (r.PhpFile? && r.syntax.valid)
  }

  /** The `http_code` field, absent for a directory without index and for a missing path. */
  function HttpCode(r: RouteResult): Option<string> {
    match r
    case DirectoryWithIndex => Some("200")
    case PhpFile(syntax) => Some(if syntax.valid then "200" else "500")
    case _ => None
  }

  /** The `error` field. */
  function RouteError(r: RouteResult): Option<string> {
    match r
    case DirectoryNoIndex => Some("Directory exists but no index.php")
    case MissingRoute => Some("File not found")
    case _ => None
  }

  /** `testRoute`: a directory is looked at for its index, a file for its braces. */
  function TestRoute(fs: FileSystem, route: Path): RouteResult {
    var path := BasePath + route;
    if IsDir(fs, path) then
      if Exists(fs, path + "/index.php") then DirectoryWithIndex else DirectoryNoIndex
    else if Exists(fs, path) then PhpFile(CheckPhpSyntax(Content(fs, path)))
    else MissingRoute
  }

  /**
   * A route is accessible iff it is a directory holding `index.php`, or an
   * existing non-directory whose braces balance; it answers 200 exactly
   * then, 500 for an unbalanced file, and nothing for a directory without
   * an index or a missing path.
   */
  lemma TestRouteMeaning(fs: FileSystem, route: Path)
    ensures var r := TestRoute(fs, route); var p := BasePath + route;
      && (Accessible(r) <==>
            if IsDir(fs, p) then Exists(fs, p + "/index.php")
            else Exists(fs, p) && Balanced(Content(fs, p), '{', '}'))
      && (HttpCode(r) == Some("200") <==> Accessible(r))
      && (HttpCode(r) == Some("500") <==> !IsDir(fs, p) && Exists(fs, p) && !Balanced(Content(fs, p), '{', '}'))
      && (HttpCode(r).None? <==> RouteError(r).Some?)
  {
  }

  function RouteTable(fs: FileSystem, routes: seq<Path>): seq<(Path, RouteResult)> {
    Map((route: Path) => (route, TestRoute(fs, route)), routes)
  }

  /** The loops of `testApiRoutes` and `testAdminRoutes`. */
  method TestRoutes(fs: FileSystem, routes: seq<Path>) returns (entries: seq<(Path, RouteResult)>)
    ensures entries == RouteTable(fs, routes)
  {
    entries := [];
    var i := 0;
    while i < |routes|
      invariant 0 <= i <= |routes|
      invariant entries == Map((route: Path) => (route, TestRoute(fs, route)), routes[..i])
    {
      var route := routes[i];
      var result := TestRoute(fs, route);
      MapStep((route: Path) => (route, TestRoute(fs, route)), routes, i);
      entries := entries + [(route, result)];
      i := i + 1;
    }
    assert routes[..i] == routes;
  }

  // ---------------------------------------------------------------------
  // Rewrite rules

  /** A rewrite scenario: the requested URL and the file the rules should send it to. */
  datatype RewriteTest = RewriteTest(requestUrl: Path, expectedTarget: Path)

  const RewriteTests: seq<RewriteTest> := [
    RewriteTest("/backend/api/pages", "/backend/api/index.php"),
    RewriteTest("/backend/admin/", "/backend/admin/index.php"),
    RewriteTest("/backend/api/portfolio", "/backend/api/index.php")]

  datatype Verdict = PassStatus | FailStatus

  /** A `rewrite_rules` entry. */
  datatype RewriteResult = RewriteResult(expectedTarget: Path, targetExists: bool, status: Verdict)

  /** PASS iff the expected target exists; the rules themselves are not read. */
  function RewriteResultOf(fs: FileSystem, t: RewriteTest): (r: RewriteResult)
    ensures r.expectedTarget == t.expectedTarget
    ensures r.status == PassStatus <==> Exists(fs, BasePath + t.expectedTarget)
  {
    var found := Exists(fs, BasePath + t.expectedTarget);
    RewriteResult(t.expectedTarget, found, if found then PassStatus else FailStatus)
  }

  function RewriteTable(fs: FileSystem): seq<(Path, RewriteResult)> {
    Map((t: RewriteTest) => (t.requestUrl, RewriteResultOf(fs, t)), RewriteTests)
  }

  /** The loop of `testRewriteRules`. */
  method RewriteEntries(fs: FileSystem) returns (entries: seq<(Path, RewriteResult)>)
    ensures entries == RewriteTable(fs)
  {
    var tests := RewriteTests;
    entries := [];
    var i := 0;
    while i < |tests|
      invariant 0 <= i <= |tests|
      invariant entries == Map((t: RewriteTest) => (t.requestUrl, RewriteResultOf(fs, t)), tests[..i])
    {
      var t := tests[i];
      MapStep((t: RewriteTest) => (t.requestUrl, RewriteResultOf(fs, t)), tests, i);
      entries := entries + [(t.requestUrl, RewriteResultOf(fs, t))];
      i := i + 1;
    }
    assert tests[..i] == tests;
  }

  // ---------------------------------------------------------------------
  // Report

  datatype RoutingStatus = MostlyFunctional | CriticalIssues

  /** The summary: accessible over checked routes per group, the rounded success and the label. */
  datatype RoutingReport = RoutingReport(apiAccessible: nat, apiTotal: nat, adminAccessible: nat, adminTotal: nat,
                                         successTenths: nat, status: RoutingStatus)

  predicate EntryAccessible(e: (Path, RouteResult)) {
    Accessible(e.1)
  }

  /**
   * `generateRoutingReport`: the share of accessible routes over both groups,
   * compared unrounded with 80%. With no route checked the division fails,
   * and there is no report.
   */
  function RoutingReportOf(api: seq<(Path, RouteResult)>, admin: seq<(Path, RouteResult)>): (r: Option<RoutingReport>)
    ensures r.None? <==> |api| + |admin| == 0
    ensures r.Some? ==>
      && r.value.apiTotal == |api| && r.value.adminTotal == |admin|
      && r.value.apiAccessible == Count(EntryAccessible, api) <= |api|
      && r.value.adminAccessible == Count(EntryAccessible, admin) <= |admin|
      && r.value.successTenths == RoundedTenths(r.value.apiAccessible + r.value.adminAccessible, |api| + |admin|)
      && r.value.successTenths <= 1000
      && (r.value.status == MostlyFunctional <==>
            100 * (r.value.apiAccessible + r.value.adminAccessible) >= 80 * (|api| + |admin|))
  {
    var total := |api| + |admin|;
    if total == 0 then None
    else
      var a, b := Count(EntryAccessible, api), Count(EntryAccessible, admin);
      RoundedTenthsBounds(a + b, total);
      Some(RoutingReport(a, |api|, b, |admin|, RoundedTenths(a + b, total),
                         if AtLeastPercent(a + b, total, 80) then MostlyFunctional else CriticalIssues))
  }

  /** Accessible entries of a route table are the routes `TestRoute` finds accessible. */
  lemma AccessibleCount(fs: FileSystem, routes: seq<Path>)
    ensures Count(EntryAccessible, RouteTable(fs, routes)) ==
      Count((route: Path) => Accessible(TestRoute(fs, route)), routes)
  {
    CountMap(EntryAccessible, (route: Path) => Accessible(TestRoute(fs, route)),
             (route: Path) => (route, TestRoute(fs, route)), routes);
  }

  /**
   * After a full run the denominator is always the eleven fixed routes, so
   * the tree routes "mostly functional" iff at least nine of them are
   * accessible in `fs`.
   */
  lemma FullRunMostlyFunctional(fs: FileSystem)
    ensures var r := RoutingReportOf(RouteTable(fs, ApiRoutes), RouteTable(fs, AdminRoutes));
      && r.Some? && r.value.apiTotal + r.value.adminTotal == 11
      && r.value.apiAccessible == Count((route: Path) => Accessible(TestRoute(fs, route)), ApiRoutes)
      && r.value.adminAccessible == Count((route: Path) => Accessible(TestRoute(fs, route)), AdminRoutes)
      && (r.value.status == MostlyFunctional <==>
            Count((route: Path) => Accessible(TestRoute(fs, route)), ApiRoutes) +
            Count((route: Path) => Accessible(TestRoute(fs, route)), AdminRoutes) >= 9)
  {
    AccessibleCount(fs, ApiRoutes);
    AccessibleCount(fs, AdminRoutes);
  }

  /** The test and the results it accumulates. */
  class RoutingTester {
    var htaccess: seq<(string, HtaccessAnalysis)>
    var apiRoutes: seq<(Path, RouteResult)>
    var adminRoutes: seq<(Path, RouteResult)>
    var rewriteRules: seq<(Path, RewriteResult)>

    constructor ()
      ensures htaccess == [] && apiRoutes == [] && adminRoutes == [] && rewriteRules == []
    {
      htaccess, apiRoutes, adminRoutes, rewriteRules := [], [], [], [];
    }

    /** `checkHtaccessFiles`. */
    method CheckHtaccessFiles(fs: FileSystem)
      modifies this
      ensures htaccess == HtaccessTable(fs)
      ensures apiRoutes == old(apiRoutes) && adminRoutes == old(adminRoutes) && rewriteRules == old(rewriteRules)
    {
      htaccess := HtaccessEntries(fs);
    }

    /** `testApiRoutes`. */
    method TestApiRoutes(fs: FileSystem)
      modifies this
      ensures apiRoutes == RouteTable(fs, ApiRoutes)
      ensures htaccess == old(htaccess) && adminRoutes == old(adminRoutes) && rewriteRules == old(rewriteRules)
    {
      apiRoutes := TestRoutes(fs, ApiRoutes);
    }

    /** `testAdminRoutes`. */
    method TestAdminRoutes(fs: FileSystem)
      modifies this
      ensures adminRoutes == RouteTable(fs, AdminRoutes)
      ensures htaccess == old(htaccess) && apiRoutes == old(apiRoutes) && rewriteRules == old(rewriteRules)
    {
      adminRoutes := TestRoutes(fs, AdminRoutes);
    }

    /** `testRewriteRules`. */
    method TestRewriteRules(fs: FileSystem)
      modifies this
      ensures rewriteRules == RewriteTable(fs)
      ensures htaccess == old(htaccess) && apiRoutes == old(apiRoutes) && adminRoutes == old(adminRoutes)
    {
      rewriteRules := RewriteEntries(fs);
    }

    /** `generateRoutingReport`, over the routes checked so far. */
    method GenerateRoutingReport() returns (r: Option<RoutingReport>)
      ensures r == RoutingReportOf(apiRoutes, adminRoutes)
    {
      r := RoutingReportOf(apiRoutes, adminRoutes);
    }

    /** `runRoutingTests`: the four tests in order, then the report. */
    method RunRoutingTests(fs: FileSystem) returns (r: Option<RoutingReport>)
      modifies this
      ensures htaccess == HtaccessTable(fs) && rewriteRules == RewriteTable(fs)
      ensures apiRoutes == RouteTable(fs, ApiRoutes) && adminRoutes == RouteTable(fs, AdminRoutes)
      ensures r == RoutingReportOf(RouteTable(fs, ApiRoutes), RouteTable(fs, AdminRoutes))
    {
      CheckHtaccessFiles(fs);
      TestApiRoutes(fs);
      TestAdminRoutes(fs);
      TestRewriteRules(fs);
      r := GenerateRoutingReport();
    }
  }
}
