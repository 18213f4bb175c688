/**
 * The environment check (audit/environment-check.php): a script that
 * records the PHP version's compatibility, the loaded extensions, the first
 * database configuration found, a connection test through it, and the
 * access rights of three directories, then counts the checks that carry a
 * status and rates the share that passed.
 */
module EnvironmentCheck {
  import opened Wrappers
  import opened Strings
  import opened Paths
  import opened Scoring

  datatype CheckStatus = Pass | Fail

  function StatusOf(b: bool): (s: CheckStatus)
    ensures s == Pass <==> b
  {
    if b then Pass else Fail
  }

  // ---------------------------------------------------------------------
  // PHP version and extensions

  /** `PHP_VERSION`, `PHP_MAJOR_VERSION`, `PHP_MINOR_VERSION` and what `extension_loaded` answers. */
  datatype Php = Php(version: string, major: nat, minor: nat, loaded: set<string>)

  /** The version test compares major and minor separately, so 8.0 to 8.3 fail it. */
  predicate Compatible(major: nat, minor: nat) {
    major >= 7 && minor >= 4
  }

  /** The test accepts 7.4 and 8.4 but rejects every 8.x below 8.4, which are newer than 7.4. */
  lemma CompatibleExamples(minor: nat)
    requires minor < 4
    ensures Compatible(7, 4) && Compatible(8, 4)
    ensures !Compatible(8, minor)
  {
  }

  datatype PhpEnvironment = PhpEnvironment(version: string, major: nat, minor: nat, compatible: bool, status: CheckStatus)

  function PhpEnvironmentOf(php: Php): (r: PhpEnvironment)
    ensures r.status == Pass <==> r.compatible
    ensures r.compatible <==> php.major >= 7 && php.minor >= 4
  {
    PhpEnvironment(php.version, php.major, php.minor, Compatible(php.major, php.minor),
                   StatusOf(Compatible(php.major, php.minor)))
  }

  const RequiredExtensions: seq<string> := ["pdo", "pdo_mysql", "json", "mbstring", "openssl", "curl", "gd", "fileinfo"]

  function ExtensionsStatus(php: Php): seq<(string, bool)> {
    Map((ext: string) => (ext, ext in php.loaded), RequiredExtensions)
  }

  // ---------------------------------------------------------------------
  // Database configuration and connection

  const ConfigFiles: seq<Path> := [
    "../public_html/backend/config/config.php", "../public_html/backend/config/database.php",
    "../public_html/config/database.php"]

  /** The `database_config` entry; the path is empty when nothing was found. */
  datatype DatabaseConfig = DatabaseConfig(configFound: bool, configPath: Path, status: CheckStatus)

  function DatabaseConfigOf(found: Option<Path>): (r: DatabaseConfig)
    ensures r.status == Pass <==> found.Some?
    ensures r.configFound <==> found.Some?
    ensures r.configFound ==> r.configPath == found.value
    ensures !r.configFound ==> r.configPath == ""
  {
    match found
    case Some(p) => DatabaseConfig(true, p, Pass)
    case None => DatabaseConfig(false, "", Fail)
  }

  /**
   * What including a configuration file leads to: it declares no `Database`
   * class, its connection is null, it connects and `SELECT 1` returns a
   * value or throws, or including it throws.
   */
  datatype ConfigLoad = NoDatabaseClass | NullConnection | Connected(queryTest: Outcome<int>) | LoadThrew(message: string)

  /** The `database_connection` entry. */
  datatype DatabaseConnection = ConnectionSucceeded(queryTest: bool) | ConnectionFailed(error: string)

  function ConnectionStatus(c: DatabaseConnection): CheckStatus {
    if c.ConnectionSucceeded? then Pass else Fail
  }

  /** The outcome of the connection test, inside one `try`. */
  function DatabaseConnectionOf(load: ConfigLoad): (r: DatabaseConnection)
    ensures r.ConnectionSucceeded? <==> load.Connected? && load.queryTest.Ok?
    ensures r.ConnectionSucceeded? ==> (r.queryTest <==> load.queryTest.value == 1)
  {
    match load
    case NoDatabaseClass => ConnectionFailed("Database class not defined")
    case NullConnection => ConnectionFailed("Connection returned null")
    case Connected(Ok(v)) => ConnectionSucceeded(v == 1)
    case Connected(Failed(m)) => ConnectionFailed(m)
    case LoadThrew(m) => ConnectionFailed(m)
  }

  // ---------------------------------------------------------------------
  // Directory permissions

  const DirectoriesToCheck: seq<Path> := [
    "../public_html/backend/uploads", "../public_html/backend/exports", "../public_html/backend/admin/logs"]

  /** `substr($s, -4)`: the last four characters, or all of a shorter string. */
  function LastFour(s: string): (r: string)
    ensures |r| == if |s| <= 4 then |s| else 4
  {
    if |s| <= 4 then s else s[|s| - 4..]
  }

  /** A `file_permissions` entry; a missing directory fails. */
  datatype DirCheck = DirPresent(permissions: string, readable: bool, writable: bool, status: CheckStatus)
                    | DirAbsent

  function DirStatus(d: DirCheck): CheckStatus {
    if d.DirPresent? then d.status else Fail
  }

  function DirCheckOf(fs: FileSystem, dir: Path): (r: DirCheck)
    ensures r.DirAbsent? <==> !Exists(fs, dir)
    ensures DirStatus(r) == Pass <==> Exists(fs, dir) && MetaOf(fs, dir).readable && MetaOf(fs, dir).writable
  {
    if Exists(fs, dir) then
      var m := MetaOf(fs, dir);
      DirPresent(LastFour(Octal(m.mode)), m.readable, m.writable, StatusOf(m.readable && m.writable))
    else DirAbsent
  }

  function PermissionsStatus(fs: FileSystem): seq<(Path, DirCheck)> {
    Map((dir: Path) => (dir, DirCheckOf(fs, dir)), DirectoriesToCheck)
  }

  // ---------------------------------------------------------------------
  // The results and their summary

  /** `$audit_results`, in key order. The connection is attempted only when a configuration was found. */
  datatype EnvironmentResults = EnvironmentResults(
    phpEnvironment: PhpEnvironment, phpExtensions: seq<(string, bool)>, databaseConfig: DatabaseConfig,
    databaseConnection: Option<DatabaseConnection>, filePermissions: seq<(Path, DirCheck)>)

  function EnvironmentResultsOf(php: Php, fs: FileSystem, load: Path -> ConfigLoad): (r: EnvironmentResults)
    ensures r.databaseConnection.Some? <==> r.databaseConfig.configFound
    ensures r.databaseConnection.Some? ==> r.databaseConnection.value == DatabaseConnectionOf(load(r.databaseConfig.configPath))
  {
    var found := FirstFound(fs, ConfigFiles);
    EnvironmentResults(PhpEnvironmentOf(php), ExtensionsStatus(php), DatabaseConfigOf(found),
                       if found.Some? then Some(DatabaseConnectionOf(load(found.value))) else None,
                       PermissionsStatus(fs))
  }

  /**
   * A category of the results as the summary sees it: one with a `status`
   * of its own, or a group of entries of which some carry a `status`.
   */
  datatype Category = Flat(status: CheckStatus) | Group(entries: seq<Option<CheckStatus>>)

  function ExtensionEntry(e: (string, bool)): Option<CheckStatus> {
    None
  }

  function DirEntryStatus(e: (Path, DirCheck)): Option<CheckStatus> {
    Some(DirStatus(e.1))
  }

  /** The extension flags are booleans, which have no `status` offset: that group counts nothing. */
  function Categories(r: EnvironmentResults): seq<Category> {
    [Flat(r.phpEnvironment.status), Group(Map(ExtensionEntry, r.phpExtensions)), Flat(r.databaseConfig.status)]
    + (if r.databaseConnection.Some? then [Flat(ConnectionStatus(r.databaseConnection.value))] else [])
    + [Group(Map(DirEntryStatus, r.filePermissions))]
  }

  /** The statuses a category contributes: its own, or those of its entries. */
  function Counted(c: Category): seq<Option<CheckStatus>> {
    match c
    case Flat(s) => Own(s)
    case Group(es) => es
  }

  function CountedItems(cs: seq<Category>): seq<Option<CheckStatus>> {
    if cs == [] then [] else CountedItems(cs[..|cs| - 1]) + Counted(cs[|cs| - 1])
  }

  predicate HasStatus(x: Option<CheckStatus>) {
    x.Some?
  }

  predicate IsPass(x: Option<CheckStatus>) {
    x == Some(Pass)
  }

  /** The nested counting loops of the summary. */
  method Summarize(cs: seq<Category>) returns (total: nat, passed: nat)
    ensures total == Count(HasStatus, CountedItems(cs)) && passed == Count(IsPass, CountedItems(cs))
  {
    total, passed := 0, 0;
    var i := 0;
    while i < |cs|
      invariant 0 <= i <= |cs|
      invariant total == Count(HasStatus, CountedItems(cs[..i])) && passed == Count(IsPass, CountedItems(cs[..i]))
    {
      var t, p := SummarizeCategory(cs[i]);
      SummarizeStep(cs, i);
      total, passed := total + t, passed + p;
      i := i + 1;
    }
    assert cs[..i] == cs;
  }

  lemma SummarizeStep(cs: seq<Category>, i: nat)
    requires i < |cs|
    ensures Count(HasStatus, CountedItems(cs[..i + 1])) == Count(HasStatus, CountedItems(cs[..i])) + Count(HasStatus, Counted(cs[i]))
    ensures Count(IsPass, CountedItems(cs[..i + 1])) == Count(IsPass, CountedItems(cs[..i])) + Count(IsPass, Counted(cs[i]))
  {
    assert cs[..i + 1][..i] == cs[..i];
    CountAppend(HasStatus, CountedItems(cs[..i]), Counted(cs[i]));
    CountAppend(IsPass, CountedItems(cs[..i]), Counted(cs[i]));
  }

  /** One category: its own status counts once, or the inner loop counts its entries. */
  method SummarizeCategory(c: Category) returns (total: nat, passed: nat)
    ensures total == Count(HasStatus, Counted(c)) && passed == Count(IsPass, Counted(c))
  {
    match c {
      case Flat(s) =>
        OneCount(s);
        total := 1;
        passed := if s == Pass then 1 else 0;
      case Group(es) =>
        total, passed := SummarizeGroup(es);
    }
  }

  /** The inner loop: the entries of a group that carry a `status`. */
  method SummarizeGroup(es: seq<Option<CheckStatus>>) returns (total: nat, passed: nat)
    ensures total == Count(HasStatus, es) && passed == Count(IsPass, es)
  {
    total, passed := 0, 0;
    var j := 0;
    while j < |es|
      invariant 0 <= j <= |es|
      invariant total == Count(HasStatus, es[..j]) && passed == Count(IsPass, es[..j])
    {
      CountStep(HasStatus, es, j);
      CountStep(IsPass, es, j);
      if es[j].Some? {
        total := total + 1;
        if es[j].value == Pass {
          passed := passed + 1;
        }
      }
      j := j + 1;
    }
    assert es[..j] == es;
  }

  datatype EnvironmentStatus = ReadyForTesting | CriticalIssuesFound

  datatype EnvironmentReport = EnvironmentReport(totalChecks: nat, passedChecks: nat, successTenths: nat,
                                                 status: EnvironmentStatus)

  /** The rate is rounded first and that rounded value is compared with 80. */
  function ReportOf(total: nat, passed: nat): EnvironmentReport {
    var rate := if total > 0 then RoundedTenths(passed, total) else 0;
    EnvironmentReport(total, passed, rate, if rate >= 800 then ReadyForTesting else CriticalIssuesFound)
  }

  function EnvironmentReportOf(r: EnvironmentResults): EnvironmentReport {
    var items := CountedItems(Categories(r));
    ReportOf(Count(HasStatus, items), Count(IsPass, items))
  }

  /** Passed PHP, configuration and connection checks, as 0 or 1 each. */
  function FlatPasses(r: EnvironmentResults): nat {
    (if r.phpEnvironment.status == Pass then 1 else 0)
    + (if r.databaseConfig.status == Pass then 1 else 0)
    + (if r.databaseConnection.Some? && ConnectionStatus(r.databaseConnection.value) == Pass then 1 else 0)
  }

  function PassingDirs(r: EnvironmentResults): nat {
    Count((e: (Path, DirCheck)) => DirStatus(e.1) == Pass, r.filePermissions)
  }

  lemma {:induction false} CountedItemsAppend(a: seq<Category>, b: seq<Category>)
    ensures CountedItems(a + b) == CountedItems(a) + CountedItems(b)
    decreases |b|
  {
    if b == [] {
      assert a + b == a;
    } else {
      var n := |b| - 1;
      var front, last := b[..n], b[n];
      assert a + b == (a + front) + [last];
      assert b == front + [last];
      CountedItemsAppend(a, front);
      CountedItemsSnoc(a + front, last);
      CountedItemsSnoc(front, last);
    }
  }

  lemma CountedItemsSnoc(cs: seq<Category>, c: Category)
    ensures CountedItems(cs + [c]) == CountedItems(cs) + Counted(c)
  {
    assert (cs + [c])[..|cs|] == cs;
  }

  lemma CountedItemsOne(c: Category)
    ensures CountedItems([c]) == Counted(c)
  {
    assert [c][..0] == [];
  }

  /** The status items of a standalone check: its own. */
  function Own(s: CheckStatus): seq<Option<CheckStatus>> {
    [Some(s)]
  }

  function ConnectionItems(r: EnvironmentResults): seq<Option<CheckStatus>> {
    if r.databaseConnection.Some? then Own(ConnectionStatus(r.databaseConnection.value)) else []
  }

  /** The summary sees the categories' statuses one after the other. */
  lemma {:induction false} ItemsOfResults(r: EnvironmentResults)
    ensures CountedItems(Categories(r)) ==
      Own(r.phpEnvironment.status) + Map(ExtensionEntry, r.phpExtensions) + Own(r.databaseConfig.status)
      + ConnectionItems(r) + Map(DirEntryStatus, r.filePermissions)
  {
    var php, ext, cfg := Flat(r.phpEnvironment.status), Group(Map(ExtensionEntry, r.phpExtensions)), Flat(r.databaseConfig.status);
    var conn := if r.databaseConnection.Some? then [Flat(ConnectionStatus(r.databaseConnection.value))] else [];
    var dirs := Group(Map(DirEntryStatus, r.filePermissions));
    assert Categories(r) == [php] + [ext] + [cfg] + conn + [dirs];
    CountedItemsAppend([php], [ext]);
    CountedItemsAppend([php] + [ext], [cfg]);
    CountedItemsAppend([php] + [ext] + [cfg], conn);
    CountedItemsAppend([php] + [ext] + [cfg] + conn, [dirs]);
    CountedItemsOne(php);
    CountedItemsOne(ext);
    CountedItemsOne(cfg);
    CountedItemsOne(dirs);
    if conn != [] {
      CountedItemsOne(conn[0]);
    } else {
      assert CountedItems(conn) == [];
    }
  }

  lemma {:induction false} CountFive<T>(p: T -> bool, a: seq<T>, b: seq<T>, c: seq<T>, d: seq<T>, e: seq<T>)
    ensures Count(p, a + b + c + d + e) == Count(p, a) + Count(p, b) + Count(p, c) + Count(p, d) + Count(p, e)
  {
    CountAppend(p, a, b);
    CountAppend(p, a + b, c);
    CountAppend(p, a + b + c, d);
    CountAppend(p, a + b + c + d, e);
  }

  /** The extension entries carry no status. */
  lemma ExtensionsUncounted(exts: seq<(string, bool)>)
    ensures Count(HasStatus, Map(ExtensionEntry, exts)) == 0
    ensures Count(IsPass, Map(ExtensionEntry, exts)) == 0
  {
    var items := Map(ExtensionEntry, exts);
    forall x | x in items ensures !HasStatus(x) && !IsPass(x) {
      var k :| 0 <= k < |items| && items[k] == x;
      MapAt(ExtensionEntry, exts, k);
    }
    CountNone(HasStatus, items);
    CountNone(IsPass, items);
  }

  /** Every directory entry carries a status, PASS exactly when the directory passed. */
  lemma DirsCounted(perms: seq<(Path, DirCheck)>)
    ensures Count(HasStatus, Map(DirEntryStatus, perms)) == |perms|
    ensures Count(IsPass, Map(DirEntryStatus, perms)) == Count((e: (Path, DirCheck)) => DirStatus(e.1) == Pass, perms)
  {
    CountMap(HasStatus, (e: (Path, DirCheck)) => true, DirEntryStatus, perms);
    CountAll((e: (Path, DirCheck)) => true, perms);
    CountMap(IsPass, (e: (Path, DirCheck)) => DirStatus(e.1) == Pass, DirEntryStatus, perms);
  }

  /**
   * Extensions never count; the checks are PHP, configuration, the
   * connection when it was tried, and the three directories, and exactly
   * those with PASS are passed.
   */
  lemma EnvironmentTally(r: EnvironmentResults)
    requires |r.filePermissions| == 3
    ensures var items := CountedItems(Categories(r));
      && Count(HasStatus, items) == 5 + (if r.databaseConnection.Some? then 1 else 0)
      && Count(IsPass, items) == FlatPasses(r) + PassingDirs(r)
  {
    var a, b := Own(r.phpEnvironment.status), Map(ExtensionEntry, r.phpExtensions);
    var c, d := Own(r.databaseConfig.status), ConnectionItems(r);
    var e := Map(DirEntryStatus, r.filePermissions);
    ItemsOfResults(r);
    CountFive(HasStatus, a, b, c, d, e);
    CountFive(IsPass, a, b, c, d, e);
    ExtensionsUncounted(r.phpExtensions);
    DirsCounted(r.filePermissions);
    OneCount(r.phpEnvironment.status);
    OneCount(r.databaseConfig.status);
    if r.databaseConnection.Some? {
      OneCount(ConnectionStatus(r.databaseConnection.value));
    } else {
      assert d == [];
    }
  }

  /** One item with its own status: counted once, passed iff PASS. */
  lemma OneCount(s: CheckStatus)
    ensures Count(HasStatus, Own(s)) == 1
    ensures Count(IsPass, Own(s)) == if s == Pass then 1 else 0
  {
    assert Own(s)[..0] == [];
  }

  /**
   * With five or six counted checks, a rounded rate of at least 80.0%
   * means at most one check failed: the environment is READY iff no more
   * than one counted check is not PASS.
   */
  lemma ReadyIffOneFailure(total: nat, passed: nat)
    requires total == 5 || total == 6
    requires passed <= total
    ensures ReportOf(total, passed).status == ReadyForTesting <==> total - passed <= 1
  {
    RoundedAtLeast(passed, total, 80);
  }

  /**
   * The whole script: extensions, configuration search, connection test
   * and directory loops, then the summary.
   */
  method RunEnvironmentCheck(php: Php, fs: FileSystem, load: Path -> ConfigLoad)
    returns (results: EnvironmentResults, report: EnvironmentReport)
    ensures results == EnvironmentResultsOf(php, fs, load)
    ensures report == EnvironmentReportOf(results)
  {
    var exts := ExtensionLoop(php);
    var found := FindFirst(fs, ConfigFiles);
    var connection := None;
    if found.Some? {
      connection := Some(DatabaseConnectionOf(load(found.value)));
    }
    var perms := PermissionLoop(fs);
    results := EnvironmentResults(PhpEnvironmentOf(php), exts, DatabaseConfigOf(found), connection, perms);
    var total, passed := Summarize(Categories(results));
    report := ReportOf(total, passed);
  }

  /** The extension loop. */
  method ExtensionLoop(php: Php) returns (status: seq<(string, bool)>)
    ensures status == ExtensionsStatus(php)
  {
    var exts := RequiredExtensions;
    status := [];
    var i := 0;
    while i < |exts|
      invariant 0 <= i <= |exts|
      invariant status == Map((ext: string) => (ext, ext in php.loaded), exts[..i])
    {
      MapStep((ext: string) => (ext, ext in php.loaded), exts, i);
      status := status + [(exts[i], exts[i] in php.loaded)];
      i := i + 1;
    }
    assert exts[..i] == exts;
  }

  /** The permission loop. */
  method PermissionLoop(fs: FileSystem) returns (status: seq<(Path, DirCheck)>)
    ensures status == PermissionsStatus(fs)
  {
    var dirs := DirectoriesToCheck;
    status := [];
    var i := 0;
    while i < |dirs|
      invariant 0 <= i <= |dirs|
      invariant status == Map((dir: Path) => (dir, DirCheckOf(fs, dir)), dirs[..i])
    {
      MapStep((dir: Path) => (dir, DirCheckOf(fs, dir)), dirs, i);
      status := status + [(dirs[i], DirCheckOf(fs, dirs[i]))];
      i := i + 1;
    }
    assert dirs[..i] == dirs;
  }

  /**
   * For any run: the checks are five plus the connection test, which runs
   * iff some configuration exists; READY iff at most one of them failed.
   */
  lemma RunReadiness(php: Php, fs: FileSystem, load: Path -> ConfigLoad)
    ensures var r := EnvironmentResultsOf(php, fs, load); var rep := EnvironmentReportOf(r);
      && rep.totalChecks == 5 + (if FirstFound(fs, ConfigFiles).Some? then 1 else 0)
      && rep.passedChecks == FlatPasses(r) + PassingDirs(r)
      && (rep.status == ReadyForTesting <==> rep.totalChecks - rep.passedChecks <= 1)
  {
    var r := EnvironmentResultsOf(php, fs, load);
    EnvironmentTally(r);
    var items := CountedItems(Categories(r));
    CountMono(IsPass, HasStatus, items);
    ReadyIffOneFailure(Count(HasStatus, items), Count(IsPass, items));
  }
}
