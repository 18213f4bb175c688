/**
 * The database integrity check (audit/database-integrity-check.php): loads
 * the first database configuration found, and with a connection checks that
 * thirteen expected tables exist, counts the records of five core tables,
 * counts dangling references for three joins and rates the share of
 * present tables.
 */
module DatabaseIntegrity {
  import opened Wrappers
  import opened Paths
  import opened Scoring

  // ---------------------------------------------------------------------
  // The database, as the answers it gives

  /**
   * A connection, given by what its queries return: the `SHOW TABLES`
   * listing, each table's `DESCRIBE` column names, and each `COUNT(*)`
   * query's count, each of which may throw instead.
   */
  datatype Db = Db(showTables: Outcome<seq<string>>,
                   describe: string -> Outcome<seq<string>>,
                   countQuery: string -> Outcome<int>)

  // ---------------------------------------------------------------------
  // Configuration

  const ConfigFiles: seq<Path> := ["../public_html/backend/config/database.php", "../public_html/config/database.php"]

  /** The search loop of the constructor, which stops at the first file found. */
  method FindConfig(fs: FileSystem) returns (loaded: Option<Path>)
    ensures loaded == FirstFound(fs, ConfigFiles)
  {
    loaded := FindFirst(fs, ConfigFiles);
  }

  /**
   * The connection: the one the loaded configuration's `Database` class
   * hands out, if the file declares the class and connecting succeeds.
   */
  function ConnectionOf(loaded: Option<Path>, connect: Path -> Option<Db>): Option<Db> {
    if loaded.Some? then connect(loaded.value) else None
  }

  // ---------------------------------------------------------------------
  // Table structure

  const ExpectedTables: seq<string> := [
    "users", "pages", "page_elements", "media", "portfolio_projects", "portfolio_images", "services",
    "service_packages", "blog_posts", "testimonials", "form_submissions", "newsletter_subscribers", "site_settings"]

  /** A `table_structure` entry. */
  datatype TableEntry = TableExists(columnCount: nat, columns: seq<string>) | TableMissing

  /** The `table_structure` result: one entry per expected table, or the error that ended the check. */
  datatype TableStructure = TablesChecked(entries: seq<(string, TableEntry)>) | TablesError(message: string)

  /** The index of the first listed table whose `DESCRIBE` throws, if any. */
  function FirstDescribeFailure(db: Db, listed: seq<string>, tables: seq<string>): (r: Option<nat>)
    ensures r.Some? ==> r.value < |tables| && tables[r.value] in listed && db.describe(tables[r.value]).Failed?
    ensures r.None? ==> forall t :: t in tables && t in listed ==> db.describe(t).Ok?
  {
    if tables == [] then None
    else if tables[0] in listed && db.describe(tables[0]).Failed? then Some(0)
    else
      var r := FirstDescribeFailure(db, listed, tables[1..]);
      if r.Some? then Some(r.value + 1) else None
  }

  function EntryOf(db: Db, listed: seq<string>, table: string): TableEntry {
    if table in listed && db.describe(table).Ok? then
      TableExists(|db.describe(table).value|, db.describe(table).value)
    else TableMissing
  }

  /**
   * `checkTableStructure`: the whole check sits in one `try`, so the first
   * exception, from the listing or from any `DESCRIBE`, replaces every entry
   * by the error.
   */
  function TableStructureOf(db: Db): TableStructure {
    match db.showTables
    case Failed(m) => TablesError(m)
    case Ok(listed) => DescribeAll(db, listed, ExpectedTables)
  }

  /** The entries of `tables`, or the message of the first `DESCRIBE` that throws. */
  function DescribeAll(db: Db, listed: seq<string>, tables: seq<string>): TableStructure {
    match FirstDescribeFailure(db, listed, tables)
    case Some(k) => TablesError(db.describe(tables[k]).message)
    case None => TablesChecked(Map((t: string) => (t, EntryOf(db, listed, t)), tables))
  }

  /**
   * When the check completes, the k-th entry is the k-th expected table:
   * EXISTS, with its `DESCRIBE` columns, iff the listing holds it, else
   * MISSING.
   */
  lemma TableStructureMeaning(db: Db, k: nat)
    requires TableStructureOf(db).TablesChecked? && k < |ExpectedTables|
    ensures db.showTables.Ok?
    ensures var e := TableStructureOf(db).entries; var t := ExpectedTables[k];
      && |e| == 13 && e[k].0 == t
      && (e[k].1.TableExists? <==> t in db.showTables.value)
      && (e[k].1.TableExists? ==> e[k].1.columns == db.describe(t).value && e[k].1.columnCount == |e[k].1.columns|)
  {
    var listed := db.showTables.value;
    MapAt((t: string) => (t, EntryOf(db, listed, t)), ExpectedTables, k);
  }

  /** The check fails exactly when the listing throws or a listed expected table's `DESCRIBE` throws. */
  lemma TableStructureError(db: Db)
    ensures TableStructureOf(db).TablesError? <==>
      db.showTables.Failed? ||
      exists t :: t in ExpectedTables && t in db.showTables.value && db.describe(t).Failed?
  {
    if db.showTables.Ok? {
      var r := FirstDescribeFailure(db, db.showTables.value, ExpectedTables);
      if r.Some? {
        assert ExpectedTables[r.value] in ExpectedTables;
      }
    }
  }

  /** `checkTableStructure`: the listing, then one `DESCRIBE` per listed expected table. */
  method CheckTables(db: Db) returns (r: TableStructure)
    ensures r == TableStructureOf(db)
  {
    if db.showTables.Failed? {
      return TablesError(db.showTables.message);
    }
    r := DescribeTables(db, db.showTables.value, ExpectedTables);
  }

  /** The loop of `checkTableStructure`, left at the first exception. */
  method DescribeTables(db: Db, listed: seq<string>, tables: seq<string>) returns (r: TableStructure)
    ensures r == DescribeAll(db, listed, tables)
  {
    var entries := [];
    var i := 0;
    while i < |tables|
      invariant 0 <= i <= |tables|
      invariant entries == Map((t: string) => (t, EntryOf(db, listed, t)), tables[..i])
      invariant FirstDescribeFailure(db, listed, tables) == ShiftFailure(FirstDescribeFailure(db, listed, tables[i..]), i)
    {
      var table := tables[i];
      FirstDescribeFailureStep(db, listed, tables, i);
      MapStep((t: string) => (t, EntryOf(db, listed, t)), tables, i);
      if table in listed {
        var columns := db.describe(table);
        if columns.Failed? {
          return TablesError(columns.message);
        }
        entries := entries + [(table, TableExists(|columns.value|, columns.value))];
      } else {
        entries := entries + [(table, TableMissing)];
      }
      i := i + 1;
    }
    assert tables[..i] == tables;
    assert tables[i..] == [];
    r := TablesChecked(entries);
  }

  /** An index into a suffix, moved back to an index into the whole. */
  function ShiftFailure(r: Option<nat>, offset: nat): Option<nat> {
    if r.Some? then Some(r.value + offset) else None
  }

  lemma FirstDescribeFailureStep(db: Db, listed: seq<string>, tables: seq<string>, i: nat)
    requires i < |tables|
    ensures FirstDescribeFailure(db, listed, tables[i..]) ==
      if tables[i] in listed && db.describe(tables[i]).Failed? then Some(0)
      else ShiftFailure(FirstDescribeFailure(db, listed, tables[i + 1..]), 1)
  {
    assert tables[i..][1..] == tables[i + 1..];
  }

  // ---------------------------------------------------------------------
  // Core data

  /** Each core table with the query that counts its relevant records. */
  const CoreQueries: seq<(string, string)> := [
    ("users", "SELECT COUNT(*) as count FROM users WHERE role = \"admin\""),
    ("pages", "SELECT COUNT(*) as count FROM pages WHERE is_published = 1"),
    ("portfolio_projects", "SELECT COUNT(*) as count FROM portfolio_projects"),
    ("media", "SELECT COUNT(*) as count FROM media"),
    ("testimonials", "SELECT COUNT(*) as count FROM testimonials WHERE is_published = 1")]

  /** A `core_data` entry: CHECKED with the count, or ERROR with the exception's message. */
  datatype CoreEntry = CoreChecked(recordCount: int, hasData: bool) | CoreError(message: string)

  function CoreEntryOf(db: Db, q: (string, string)): (r: (string, CoreEntry))
    ensures r.0 == q.0
    ensures r.1.CoreChecked? <==> db.countQuery(q.1).Ok?
    ensures r.1.CoreChecked? ==> r.1.recordCount == db.countQuery(q.1).value && (r.1.hasData <==> r.1.recordCount > 0)
  {
    match db.countQuery(q.1)
    case Ok(count) => (q.0, CoreChecked(count, count > 0))
    case Failed(m) => (q.0, CoreError(m))
  }

  function CoreTable(db: Db): seq<(string, CoreEntry)> {
    Map((q: (string, string)) => CoreEntryOf(db, q), CoreQueries)
  }

  /** The loop of `validateCoreData`; a failing query marks its own table and the loop goes on. */
  method ValidateCore(db: Db) returns (entries: seq<(string, CoreEntry)>)
    ensures entries == CoreTable(db)
  {
    var queries := CoreQueries;
    entries := [];
    var i := 0;
    while i < |queries|
      invariant 0 <= i <= |queries|
      invariant entries == Map((q: (string, string)) => CoreEntryOf(db, q), queries[..i])
    {
      var (table, query) := queries[i];
      var entry;
      match db.countQuery(query) {
        case Ok(count) => entry := CoreChecked(count, count > 0);
        case Failed(m) => entry := CoreError(m);
      }
      MapStep((q: (string, string)) => CoreEntryOf(db, q), queries, i);
      entries := entries + [(table, entry)];
      i := i + 1;
    }
    assert queries[..i] == queries;
  }

  // ---------------------------------------------------------------------
  // Consistency

  /** Each consistency check with the query that counts its dangling references. */
  const ConsistencyQueries: seq<(string, string)> := [
    ("portfolio_featured_images",
     "SELECT COUNT(*) as count FROM portfolio_projects p LEFT JOIN media m ON p.featured_image = m.id WHERE p.featured_image IS NOT NULL AND m.id IS NULL"),
    ("portfolio_project_images",
     "SELECT COUNT(*) as count FROM portfolio_images pi LEFT JOIN media m ON pi.media_id = m.id WHERE m.id IS NULL"),
    ("blog_featured_images",
     "SELECT COUNT(*) as count FROM blog_posts b LEFT JOIN media m ON b.featured_image = m.id WHERE b.featured_image IS NOT NULL AND m.id IS NULL")]

  datatype ConsistencyStatus = Pass | IssuesFound | ConsistencyFailed

  /** A `data_consistency` entry. */
  datatype ConsistencyEntry = ConsistencyEntry(inconsistentRecords: Option<int>, error: Option<string>, status: ConsistencyStatus)

  function ConsistencyEntryOf(db: Db, q: (string, string)): (r: (string, ConsistencyEntry))
    ensures r.0 == q.0
    ensures r.1.status == Pass <==> db.countQuery(q.1) == Ok(0)
    ensures r.1.status == ConsistencyFailed <==> db.countQuery(q.1).Failed?
    ensures r.1.status == ConsistencyFailed <==> r.1.error.Some?
  {
    match db.countQuery(q.1)
    case Ok(count) => (q.0, ConsistencyEntry(Some(count), None, if count == 0 then Pass else IssuesFound))
    case Failed(m) => (q.0, ConsistencyEntry(None, Some(m), ConsistencyFailed))
  }

  function ConsistencyTable(db: Db): seq<(string, ConsistencyEntry)> {
    Map((q: (string, string)) => ConsistencyEntryOf(db, q), ConsistencyQueries)
  }

  /** The loop of `checkDataConsistency`. */
  method CheckConsistency(db: Db) returns (entries: seq<(string, ConsistencyEntry)>)
    ensures entries == ConsistencyTable(db)
  {
    var queries := ConsistencyQueries;
    entries := [];
    var i := 0;
    while i < |queries|
      invariant 0 <= i <= |queries|
      invariant entries == Map((q: (string, string)) => ConsistencyEntryOf(db, q), queries[..i])
    {
      var q := queries[i];
      MapStep((q: (string, string)) => ConsistencyEntryOf(db, q), queries, i);
      entries := entries + [ConsistencyEntryOf(db, q)];
      i := i + 1;
    }
    assert queries[..i] == queries;
  }

  // ---------------------------------------------------------------------
  // Report

  /** The number of tables the score is taken over, whatever the check found. */
  const TotalExpected: nat := 13

  datatype IntegrityLevel = ExcellentIntegrity | GoodWithMinorIssues | CriticalIntegrityIssues

  datatype IntegrityReport = IntegrityReport(tablesExist: nat, totalExpected: nat, dataConsistent: nat,
                                             totalConsistencyChecks: nat, scoreTenths: nat, level: IntegrityLevel)

  predicate EntryExists(e: (string, TableEntry)) {
    e.1.TableExists?
  }

  predicate ConsistencyPassed(e: (string, ConsistencyEntry)) {
    e.1.status == Pass
  }

  /** Present tables; an error record has no `exists` flag, so it counts none. */
  function TablesExist(s: TableStructure): nat {
    match s
    case TablesChecked(entries) => Count(EntryExists, entries)
    case TablesError(_) => 0
  }

  /** `generateIntegrityReport`: the level compares the unrounded score with 90 and 70. */
  function IntegrityReportOf(s: TableStructure, consistency: seq<(string, ConsistencyEntry)>): IntegrityReport {
    var present := TablesExist(s);
    IntegrityReport(present, TotalExpected, Count(ConsistencyPassed, consistency), |consistency|,
                    RoundedTenths(present, TotalExpected),
                    if AtLeastPercent(present, TotalExpected, 90) then ExcellentIntegrity
                    else if AtLeastPercent(present, TotalExpected, 70) then GoodWithMinorIssues
                    else CriticalIntegrityIssues)
  }

  /** Present tables are the expected ones the listing holds; never more than 13. */
  lemma TablesExistCount(db: Db)
    requires TableStructureOf(db).TablesChecked?
    ensures db.showTables.Ok?
    ensures TablesExist(TableStructureOf(db)) ==
      Count((t: string) => t in db.showTables.value, ExpectedTables)
    ensures TablesExist(TableStructureOf(db)) <= TotalExpected
  {
    var listed := db.showTables.value;
    CountMap(EntryExists, (t: string) => t in listed, (t: string) => (t, EntryOf(db, listed, t)), ExpectedTables);
  }

  /**
   * With the denominator fixed at 13 the levels are counts of present
   * tables: at least 12 is excellent, 10 or 11 good, fewer critical; and 12
   * present tables show as 92.3%.
   */
  lemma IntegrityLevels(s: TableStructure, consistency: seq<(string, ConsistencyEntry)>)
    requires TablesExist(s) <= TotalExpected
    ensures var r := IntegrityReportOf(s, consistency);
      && r.tablesExist == TablesExist(s) && r.totalExpected == 13
      && r.scoreTenths == RoundedTenths(r.tablesExist, 13)
      && (r.level == ExcellentIntegrity <==> r.tablesExist >= 12)
      && (r.level == GoodWithMinorIssues <==> 10 <= r.tablesExist <= 11)
      && (r.level == CriticalIntegrityIssues <==> r.tablesExist <= 9)
      && (r.tablesExist == 12 ==> r.scoreTenths == 923)
      && r.scoreTenths <= 1000
  {
    RoundedTenthsBounds(TablesExist(s), TotalExpected);
  }

  /** A failed table check scores 0 and is critical, whatever the other checks found. */
  lemma TableErrorIsCritical(m: string, consistency: seq<(string, ConsistencyEntry)>)
    ensures IntegrityReportOf(TablesError(m), consistency).scoreTenths == 0
    ensures IntegrityReportOf(TablesError(m), consistency).level == CriticalIntegrityIssues
  {
    RoundedTenthsBounds(0, TotalExpected);
  }

  /** The checker: the connection it found, and the results it accumulates. */
  class DatabaseIntegrityChecker {
    var conn: Option<Db>
    /** Set, as `connection => FAILED`, when there was nothing to check. */
    var connectionFailed: bool
    var tableStructure: Option<TableStructure>
    var coreData: seq<(string, CoreEntry)>
    var dataConsistency: seq<(string, ConsistencyEntry)>

    /** `__construct`: the first configuration found decides the connection. */
    constructor (fs: FileSystem, connect: Path -> Option<Db>)
      ensures conn == ConnectionOf(FirstFound(fs, ConfigFiles), connect)
      ensures !connectionFailed && tableStructure == None && coreData == [] && dataConsistency == []
    {
      var loaded := FindConfig(fs);
      conn := ConnectionOf(loaded, connect);
      connectionFailed, tableStructure, coreData, dataConsistency := false, None, [], [];
    }

    /** `checkTableStructure`. */
    method CheckTableStructure(db: Db)
      modifies this
      ensures tableStructure == Some(TableStructureOf(db))
      ensures conn == old(conn) && connectionFailed == old(connectionFailed)
      ensures coreData == old(coreData) && dataConsistency == old(dataConsistency)
    {
      var s := CheckTables(db);
      tableStructure := Some(s);
    }

    /** `validateCoreData`. */
    method ValidateCoreData(db: Db)
      modifies this
      ensures coreData == CoreTable(db)
      ensures conn == old(conn) && connectionFailed == old(connectionFailed)
      ensures tableStructure == old(tableStructure) && dataConsistency == old(dataConsistency)
    {
      coreData := ValidateCore(db);
    }

    /** `checkDataConsistency`. */
    method CheckDataConsistency(db: Db)
      modifies this
      ensures dataConsistency == ConsistencyTable(db)
      ensures conn == old(conn) && connectionFailed == old(connectionFailed)
      ensures tableStructure == old(tableStructure) && coreData == old(coreData)
    {
      dataConsistency := CheckConsistency(db);
    }

    /**
     * `runIntegrityCheck`: without a connection only the failure is
     * recorded and there is no report; otherwise the checks run in order
     * and the report is over their results.
     */
    method RunIntegrityCheck() returns (r: Option<IntegrityReport>)
      modifies this
      ensures conn == old(conn)
      ensures conn.None? ==>
        && r.None? && connectionFailed
        && tableStructure == old(tableStructure) && coreData == old(coreData) && dataConsistency == old(dataConsistency)
      ensures conn.Some? ==>
        && connectionFailed == old(connectionFailed)
        && tableStructure == Some(TableStructureOf(conn.value))
        && coreData == CoreTable(conn.value) && dataConsistency == ConsistencyTable(conn.value)
        && r == Some(IntegrityReportOf(TableStructureOf(conn.value), ConsistencyTable(conn.value)))
    {
      if conn.None? {
        connectionFailed := true;
        return None;
      }
      var db := conn.value;
      CheckTableStructure(db);
      ValidateCoreData(db);
      CheckDataConsistency(db);
      r := Some(IntegrityReportOf(tableStructure.value, dataConsistency));
    }
  }
}
