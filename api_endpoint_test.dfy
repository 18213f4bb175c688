/**
 * The API endpoint test (audit/api-endpoint-test.php): checks that seven
 * endpoint files exist and that their braces and parentheses balance,
 * inspects the router and three endpoints for telltale substrings, checks
 * two endpoints' response format and rates the share of existing files.
 */
module ApiEndpointTest {
  import opened Wrappers
  import opened Strings
  import opened Paths
  import opened Patterns
  import opened Scoring

  /** The API directory every endpoint path starts from. */
  const ApiBase: Path := "../public_html/backend/api"

  function EndpointPath(file: Path): Path {
    ApiBase + "/" + file
  }

  // ---------------------------------------------------------------------
  // Syntax check

  /** `checkPhpSyntax`: the issues found, in the order they are checked. */
  datatype SyntaxReport = SyntaxReport(valid: bool, issues: seq<string>)

  /** Two conditional issues, the braces one first. */
  function SyntaxIssues(bracesOff: bool, parensOff: bool): seq<string> {
    (if bracesOff then ["unmatched_braces"] else []) + (if parensOff then ["unmatched_parentheses"] else [])
  }

  lemma SyntaxIssuesMembers(bracesOff: bool, parensOff: bool)
    ensures var issues := SyntaxIssues(bracesOff, parensOff);
      && ("unmatched_braces" in issues <==> bracesOff)
      && ("unmatched_parentheses" in issues <==> parensOff)
      && (issues == [] <==> !bracesOff && !parensOff)
      && (bracesOff ==> issues[0] == "unmatched_braces")
  {
  }

  function CheckPhpSyntax(content: string): SyntaxReport {
    var issues := SyntaxIssues(!Balanced(content, '{', '}'), !Balanced(content, '(', ')'));
    SyntaxReport(issues == [], issues)
  }

  /**
   * The file is valid iff both kinds of delimiter balance; each issue is
   * reported exactly when its delimiters are off, braces before parentheses.
   */
  lemma CheckPhpSyntaxMeaning(content: string)
    ensures var r := CheckPhpSyntax(content);
      && (r.valid <==> Balanced(content, '{', '}') && Balanced(content, '(', ')'))
      && ("unmatched_braces" in r.issues <==> !Balanced(content, '{', '}'))
      && ("unmatched_parentheses" in r.issues <==> !Balanced(content, '(', ')'))
      && (!Balanced(content, '{', '}') ==> r.issues[0] == "unmatched_braces")
      && |r.issues| <= 2
  {
    SyntaxIssuesMembers(!Balanced(content, '{', '}'), !Balanced(content, '(', ')'));
  }

  // ---------------------------------------------------------------------
  // Endpoint files

  const ExpectedEndpoints: seq<Path> := [
    "index.php", "endpoints/auth.php", "endpoints/pages.php", "endpoints/portfolio.php",
    "endpoints/services.php", "endpoints/forms.php", "get_projects.php"]

  /** An `endpoint_files` entry; a missing file has status MISSING and no syntax check. */
  datatype EndpointFile =
    | EndpointFound(size: nat, readable: bool, syntax: SyntaxReport)
    | EndpointMissing

  function EndpointFileOf(fs: FileSystem, file: Path): (r: EndpointFile)
    ensures r.EndpointMissing? <==> !Exists(fs, EndpointPath(file))
    ensures r.EndpointFound? ==> r.syntax == CheckPhpSyntax(Content(fs, EndpointPath(file)))
  {
    var path := EndpointPath(file);
    if Exists(fs, path) then
      EndpointFound(MetaOf(fs, path).size, MetaOf(fs, path).readable, CheckPhpSyntax(Content(fs, path)))
    else EndpointMissing
  }

  function EndpointTable(fs: FileSystem): seq<(Path, EndpointFile)> {
    Map((file: Path) => (file, EndpointFileOf(fs, file)), ExpectedEndpoints)
  }

  /** The loop of `testEndpointFiles`. */
  method EndpointEntries(fs: FileSystem) returns (entries: seq<(Path, EndpointFile)>)
    ensures entries == EndpointTable(fs)
  {
    var files := ExpectedEndpoints;
    entries := [];
    var i := 0;
    while i < |files|
      invariant 0 <= i <= |files|
      invariant entries == Map((file: Path) => (file, EndpointFileOf(fs, file)), files[..i])
    {
      var file := files[i];
      MapStep((file: Path) => (file, EndpointFileOf(fs, file)), files, i);
      entries := entries + [(file, EndpointFileOf(fs, file))];
      i := i + 1;
    }
    assert files[..i] == files;
  }

  // ---------------------------------------------------------------------
  // Router

  /** The `api_router` entry; a missing router has status FAIL and no analysis. */
  datatype RouterAnalysis =
    | RouterFound(hasCorsHeaders: bool, hasMethodHandling: bool, hasRoutingLogic: bool,
                  hasErrorHandling: bool, includesEndpoints: bool)
    | RouterMissing

  /** `testApiRouter`: five substring tests; error handling needs both `try` and `catch`. */
  function RouterAnalysisOf(fs: FileSystem): (r: RouterAnalysis)
    ensures r.RouterMissing? <==> !Exists(fs, EndpointPath("index.php"))
    ensures r.RouterFound? ==>
      var c := Content(fs, EndpointPath("index.php"));
      && (r.hasErrorHandling <==> Contains(c, "try") && Contains(c, "catch"))
      && (r.hasCorsHeaders <==> Contains(c, "Access-Control-Allow-Origin"))
      && (r.hasRoutingLogic <==> Contains(c, "switch"))
  {
    var file := ApiBase + "/index.php";
    assert file == EndpointPath("index.php");
    if !Exists(fs, file) then RouterMissing
    else
      var c := Content(fs, file);
      RouterFound(Contains(c, "Access-Control-Allow-Origin"), Contains(c, "$_SERVER['REQUEST_METHOD']"),
                  Contains(c, "switch"), Contains(c, "try") && Contains(c, "catch"), Contains(c, "endpoints/"))
  }

  // ---------------------------------------------------------------------
  // Endpoint logic

  const LogicEndpoints: seq<Path> := ["get_projects.php", "endpoints/pages.php", "endpoints/forms.php"]

  /** `$method` is read but never assigned with `$method = `. */
  predicate UndefinedMethodVariable(c: string) {
    Contains(c, "$method") && !Contains(c, "$method = ")
  }

  /** `require_once` is used without any `__DIR__`. */
  predicate RelativePathIncludes(c: string) {
    Contains(c, "require_once") && !Contains(c, "__DIR__")
  }

  function PotentialIssueList(undefinedMethod: bool, relativeIncludes: bool): seq<string> {
    (if undefinedMethod then ["undefined_method_variable"] else [])
    + (if relativeIncludes then ["relative_path_includes"] else [])
  }

  lemma PotentialIssueListMembers(undefinedMethod: bool, relativeIncludes: bool)
    ensures var issues := PotentialIssueList(undefinedMethod, relativeIncludes);
      && ("undefined_method_variable" in issues <==> undefinedMethod)
      && ("relative_path_includes" in issues <==> relativeIncludes)
      && |issues| <= 2
  {
  }

  /** An `endpoint_logic` entry; a missing file has status FAIL. */
  datatype EndpointLogic =
    | LogicFound(hasMethodCheck: bool, hasErrorHandling: bool, hasJsonResponse: bool, hasHttpStatus: bool,
                 includesClasses: bool, potentialIssues: seq<string>)
    | LogicMissing

  function EndpointLogicOf(fs: FileSystem, endpoint: Path): (r: EndpointLogic)
    ensures r.LogicMissing? <==> !Exists(fs, EndpointPath(endpoint))
  {
    var path := EndpointPath(endpoint);
    if !Exists(fs, path) then LogicMissing
    else
      var c := Content(fs, path);
      LogicFound(Contains(c, "$method") || Contains(c, "$_SERVER['REQUEST_METHOD']"), Contains(c, "try"),
                 Contains(c, "json_encode"), Contains(c, "http_response_code"), Contains(c, "require_once"),
                 PotentialIssueList(UndefinedMethodVariable(c), RelativePathIncludes(c)))
  }

  /**
   * An existing endpoint is flagged `undefined_method_variable` iff it reads
   * `$method` without `$method = `, and `relative_path_includes` iff it uses
   * `require_once` without `__DIR__`.
   */
  lemma EndpointLogicIssues(fs: FileSystem, endpoint: Path)
    requires Exists(fs, EndpointPath(endpoint))
    ensures var r := EndpointLogicOf(fs, endpoint); var c := Content(fs, EndpointPath(endpoint));
      && r.LogicFound?
      && ("undefined_method_variable" in r.potentialIssues <==> Contains(c, "$method") && !Contains(c, "$method = "))
      && ("relative_path_includes" in r.potentialIssues <==> Contains(c, "require_once") && !Contains(c, "__DIR__"))
      && (r.hasMethodCheck <== Contains(c, "$method"))
  {
    var c := Content(fs, EndpointPath(endpoint));
    PotentialIssueListMembers(UndefinedMethodVariable(c), RelativePathIncludes(c));
  }

  function LogicTable(fs: FileSystem): seq<(Path, EndpointLogic)> {
    Map((endpoint: Path) => (endpoint, EndpointLogicOf(fs, endpoint)), LogicEndpoints)
  }

  /** The loop of `testEndpointLogic`. */
  method LogicEntries(fs: FileSystem) returns (entries: seq<(Path, EndpointLogic)>)
    ensures entries == LogicTable(fs)
  {
    var endpoints := LogicEndpoints;
    entries := [];
    var i := 0;
    while i < |endpoints|
      invariant 0 <= i <= |endpoints|
      invariant entries == Map((endpoint: Path) => (endpoint, EndpointLogicOf(fs, endpoint)), endpoints[..i])
    {
      var endpoint := endpoints[i];
      MapStep((endpoint: Path) => (endpoint, EndpointLogicOf(fs, endpoint)), endpoints, i);
      entries := entries + [(endpoint, EndpointLogicOf(fs, endpoint))];
      i := i + 1;
    }
    assert endpoints[..i] == endpoints;
  }

  // ---------------------------------------------------------------------
  // Response formats

  const FormatEndpoints: seq<Path> := ["get_projects.php", "endpoints/forms.php"]

  /** A `response_formats` entry; `consistent_structure` is a fixed `true`. */
  datatype ResponseFormat = ResponseFormat(setsJsonHeader: bool, usesJsonEncode: bool, hasSuccessField: bool,
                                           hasErrorHandling: bool, consistentStructure: bool)

  /** The format check of an existing endpoint; nothing is recorded for a missing one. */
  function ResponseFormatOf(fs: FileSystem, endpoint: Path): (r: Option<(Path, ResponseFormat)>)
    ensures r.Some? <==> Exists(fs, EndpointPath(endpoint))
    ensures r.Some? ==> r.value.0 == endpoint && r.value.1.consistentStructure
  {
    var path := EndpointPath(endpoint);
    if !Exists(fs, path) then None
    else
      var c := Content(fs, path);
      Some((endpoint, ResponseFormat(Contains(c, "Content-Type: application/json"), Contains(c, "json_encode"),
                                     Contains(c, "success"), Contains(c, "error"), true)))
  }

  function FormatTable(fs: FileSystem): seq<(Path, ResponseFormat)> {
    Present(Map((endpoint: Path) => ResponseFormatOf(fs, endpoint), FormatEndpoints))
  }

  /** The loop of `validateResponseFormats`, which skips missing files. */
  method FormatEntries(fs: FileSystem) returns (entries: seq<(Path, ResponseFormat)>)
    ensures entries == FormatTable(fs)
  {
    var endpoints := FormatEndpoints;
    entries := [];
    var i := 0;
    while i < |endpoints|
      invariant 0 <= i <= |endpoints|
      invariant entries == Present(Map((endpoint: Path) => ResponseFormatOf(fs, endpoint), endpoints[..i]))
    {
      var endpoint := endpoints[i];
      var checked := ResponseFormatOf(fs, endpoint);
      MapStep((endpoint: Path) => ResponseFormatOf(fs, endpoint), endpoints, i);
      PresentAppend(Map((endpoint: Path) => ResponseFormatOf(fs, endpoint), endpoints[..i]), [checked]);
      if checked.Some? {
        entries := entries + [checked.value];
      }
      i := i + 1;
    }
    assert endpoints[..i] == endpoints;
  }

  /** Every recorded format belongs to an existing endpoint and claims a consistent structure. */
  lemma FormatTableMeaning(fs: FileSystem, k: nat)
    requires k < |FormatTable(fs)|
    ensures FormatTable(fs)[k].0 in FormatEndpoints
    ensures Exists(fs, EndpointPath(FormatTable(fs)[k].0))
    ensures FormatTable(fs)[k].1.consistentStructure
  {
    var xs := Map((endpoint: Path) => ResponseFormatOf(fs, endpoint), FormatEndpoints);
    PresentIndexHit(xs, k);
    var j := PresentIndices(xs)[k];
    MapAt((endpoint: Path) => ResponseFormatOf(fs, endpoint), FormatEndpoints, j);
  }

  // ---------------------------------------------------------------------
  // Report

  datatype ApiStatus = Functional | CriticalIssues

  /** The summary; `api_routes` is never filled by this test, so its counts are those of an empty table. */
  datatype ApiReport = ApiReport(existingEndpoints: nat, totalEndpoints: nat, accessibleRoutes: nat, totalRoutes: nat,
                                 healthTenths: nat, status: ApiStatus)

  predicate EndpointExists(e: (Path, EndpointFile)) {
    e.1.EndpointFound?
  }

  /** The `accessible` flags of an `api_routes` table. */
  predicate RouteAccessible(e: (Path, bool)) {
    e.1
  }

  /**
   * `generateApiReport`: health is existing over total files, unguarded
   * only in being 0 for an empty table; FUNCTIONAL iff the unrounded health
   * reaches 80.
   */
  function ApiReportOf(files: seq<(Path, EndpointFile)>, routes: seq<(Path, bool)>): (r: ApiReport)
    ensures r.totalEndpoints == |files| && r.existingEndpoints == Count(EndpointExists, files) <= |files|
    ensures r.totalRoutes == |routes| && r.accessibleRoutes == Count(RouteAccessible, routes) <= |routes|
    ensures |files| == 0 ==> r.healthTenths == 0 && r.status == CriticalIssues
    ensures |files| > 0 ==> r.healthTenths == RoundedTenths(r.existingEndpoints, |files|)
    ensures r.healthTenths <= 1000
    ensures r.status == Functional <==> |files| > 0 && 100 * r.existingEndpoints >= 80 * |files|
  {
    var total := |files|;
    var existing := Count(EndpointExists, files);
    var health := if total > 0 then RoundedTenths(existing, total) else 0;
    assert total > 0 ==> health <= 1000 by {
      if total > 0 { RoundedTenthsBounds(existing, total); }
    }
    ApiReport(existing, total, Count(RouteAccessible, routes), |routes|, health,
              if total > 0 && AtLeastPercent(existing, total, 80) then Functional else CriticalIssues)
  }

  /** Existing table entries are exactly the expected files that exist. */
  lemma ExistingCount(fs: FileSystem)
    ensures Count(EndpointExists, EndpointTable(fs)) ==
      Count((file: Path) => Exists(fs, EndpointPath(file)), ExpectedEndpoints)
  {
    CountMap(EndpointExists, (file: Path) => Exists(fs, EndpointPath(file)),
             (file: Path) => (file, EndpointFileOf(fs, file)), ExpectedEndpoints);
  }

  /**
   * After a full run the table always holds the seven expected files and no
   * route, so the API is FUNCTIONAL iff at least six of the files exist in
   * `fs`.
   */
  lemma FullRunFunctional(fs: FileSystem)
    ensures var r := ApiReportOf(EndpointTable(fs), []);
      && r.totalEndpoints == 7 && r.totalRoutes == 0 && r.accessibleRoutes == 0
      && r.existingEndpoints == Count((file: Path) => Exists(fs, EndpointPath(file)), ExpectedEndpoints)
      && (r.status == Functional <==> Count((file: Path) => Exists(fs, EndpointPath(file)), ExpectedEndpoints) >= 6)
  {
    ExistingCount(fs);
  }

  /** The test and the results it accumulates. */
  class ApiEndpointTester {
    var endpointFiles: seq<(Path, EndpointFile)>
    var apiRouter: Option<RouterAnalysis>
    var endpointLogic: seq<(Path, EndpointLogic)>
    var responseFormats: seq<(Path, ResponseFormat)>
    /** Read by the report, never written. */
    var apiRoutes: seq<(Path, bool)>

    constructor ()
      ensures endpointFiles == [] && apiRouter == None && endpointLogic == []
      ensures responseFormats == [] && apiRoutes == []
    {
      endpointFiles, apiRouter, endpointLogic, responseFormats, apiRoutes := [], None, [], [], [];
    }

    /** `testEndpointFiles`. */
    method TestEndpointFiles(fs: FileSystem)
      modifies this
      ensures endpointFiles == EndpointTable(fs)
      ensures apiRouter == old(apiRouter) && endpointLogic == old(endpointLogic)
      ensures responseFormats == old(responseFormats) && apiRoutes == old(apiRoutes)
    {
      endpointFiles := EndpointEntries(fs);
    }

    /** `testApiRouter`. */
    method TestApiRouter(fs: FileSystem)
      modifies this
      ensures apiRouter == Some(RouterAnalysisOf(fs))
      ensures endpointFiles == old(endpointFiles) && endpointLogic == old(endpointLogic)
      ensures responseFormats == old(responseFormats) && apiRoutes == old(apiRoutes)
    {
      apiRouter := Some(RouterAnalysisOf(fs));
    }

    /** `testEndpointLogic`. */
    method TestEndpointLogic(fs: FileSystem)
      modifies this
      ensures endpointLogic == LogicTable(fs)
      ensures endpointFiles == old(endpointFiles) && apiRouter == old(apiRouter)
      ensures responseFormats == old(responseFormats) && apiRoutes == old(apiRoutes)
    {
      endpointLogic := LogicEntries(fs);
    }

    /** `validateResponseFormats`. */
    method ValidateResponseFormats(fs: FileSystem)
      modifies this
      ensures responseFormats == FormatTable(fs)
      ensures endpointFiles == old(endpointFiles) && apiRouter == old(apiRouter)
      ensures endpointLogic == old(endpointLogic) && apiRoutes == old(apiRoutes)
    {
      responseFormats := FormatEntries(fs);
    }

    /** `generateApiReport`, over the results so far. */
    method GenerateApiReport() returns (r: ApiReport)
      ensures r == ApiReportOf(endpointFiles, apiRoutes)
    {
      r := ApiReportOf(endpointFiles, apiRoutes);
    }

    /** `runApiTests`: the four tests in order, then the report. */
    method RunApiTests(fs: FileSystem) returns (r: ApiReport)
      requires apiRoutes == []
      modifies this
      ensures endpointFiles == EndpointTable(fs) && apiRouter == Some(RouterAnalysisOf(fs))
      ensures endpointLogic == LogicTable(fs) && responseFormats == FormatTable(fs)
      ensures r == ApiReportOf(EndpointTable(fs), [])
    {
      TestEndpointFiles(fs);
      TestApiRouter(fs);
      TestEndpointLogic(fs);
      ValidateResponseFormats(fs);
      r := GenerateApiReport();
    }
  }
}
