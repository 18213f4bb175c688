/**
 * The remediation generator (audit/solution-generator.php): reads the
 * saved results of the other checkers, turns include problems, uses of
 * `$method` before assignment, unresolved `require_once` statements and
 * unprotected configuration files into fix records, adds a database
 * configuration fix and an `.htaccess` fix, and orders everything by
 * priority with a stable sort.
 */
module SolutionGenerator {
  import opened Wrappers
  import opened Strings
  import opened Paths

  // ---------------------------------------------------------------------
  // Fix records

  datatype Priority = Critical | High | Medium | Low

  /** The order `prioritizeFixes` sorts by: critical 0, high 1, medium 2, low 3. */
  function Rank(p: Priority): nat {
    match p
    case Critical => 0
    case High => 1
    case Medium => 2
    case Low => 3
  }

  /** What a fix hands its reader: a one-line suggestion, or a whole block of code. */
  datatype Remedy = SuggestedFix(text: string) | FixCode(code: string)

  /** A fix record, one constructor per `type`. */
  datatype Fix =
    | PathFix(priority: Priority, file: string, line: nat, issues: seq<string>, currentPath: string, suggestedFix: string)
    | UndefinedVariableFix(priority: Priority, file: string, line: nat, variable: string, suggestedFix: string)
    | RequireFix(priority: Priority, file: string, currentPath: string, suggestedFix: string)
    | SecurityFix(priority: Priority, file: string, issue: string, remedy: Remedy)
    | ConfigFix(priority: Priority, file: string, issue: string, fixCode: string)

  // ---------------------------------------------------------------------
  // Path templates

  /** The anchor every generated path starts from. */
  const DirAnchor: string := "__DIR__ . '/"

  /** The directory names the templates look for. */
  const ConfigDir: string := "config"
  const ClassesDir: string := "classes"

  /** `generatePathFix`: a `__DIR__`-anchored replacement for an include path. */
  function GeneratePathFix(currentPath: string, filePath: string): string {
    if Contains(currentPath, ConfigDir + "/") then DirAnchor + "../config/" + Basename(currentPath) + "'"
    else if Contains(currentPath, ClassesDir + "/") then DirAnchor + "../classes/" + Basename(currentPath) + "'"
    else DirAnchor + "' . " + currentPath
  }

  lemma Affixes(a: string, b: string, c: string)
    ensures StartsWith(a + b + c, a) && EndsWith(a + b + c, c)
  {
    assert (a + b + c)[..|a|] == a;
    assert (a + b + c)[|a + b + c| - |c|..] == c;
  }

  /**
   * Every path fix is anchored at `__DIR__ . '/`; a `config/` path (which
   * wins over `classes/`) or a `classes/` path is moved into that directory
   * under its base name, and any other path is appended unchanged after
   * `__DIR__ . '/' . `.
   */
  lemma GeneratePathFixShape(currentPath: string, filePath: string)
    ensures var r := GeneratePathFix(currentPath, filePath); var b := Basename(currentPath);
      && StartsWith(r, DirAnchor)
      && (Contains(currentPath, ConfigDir + "/") ==> r == DirAnchor + "../config/" + b + "'")
      && (!Contains(currentPath, ConfigDir + "/") && Contains(currentPath, ClassesDir + "/") ==> r == DirAnchor + "../classes/" + b + "'")
      && (!Contains(currentPath, ConfigDir + "/") && !Contains(currentPath, ClassesDir + "/") ==>
            r == DirAnchor + "' . " + currentPath && EndsWith(r, currentPath))
  {
    var b := Basename(currentPath);
    if Contains(currentPath, ConfigDir + "/") {
      Affixes(DirAnchor, "../config/" + b, "'");
      assert DirAnchor + "../config/" + b + "'" == DirAnchor + ("../config/" + b) + "'";
    } else if Contains(currentPath, ClassesDir + "/") {
      Affixes(DirAnchor, "../classes/" + b, "'");
      assert DirAnchor + "../classes/" + b + "'" == DirAnchor + ("../classes/" + b) + "'";
    } else {
      Affixes(DirAnchor, "' . ", currentPath);
    }
  }

  /** `generateRequireFix`: the same choice, keyed on the bare words `config` and `classes`. */
  function GenerateRequireFix(includePath: string): string {
    if Contains(includePath, ConfigDir) then "require_once " + DirAnchor + "../config/" + Basename(includePath) + "'" + ";"
    else if Contains(includePath, ClassesDir) then "require_once " + DirAnchor + "../classes/" + Basename(includePath) + "'" + ";"
    else "require_once " + DirAnchor + "' . " + includePath + ";"
  }

  /** A prefix survives appending, and the appended part is a suffix. */
  lemma Grow(p: string, s: string, t: string)
    requires StartsWith(s, p)
    ensures StartsWith(s + t, p) && EndsWith(s + t, t)
  {
    assert (s + t)[..|p|] == s[..|p|];
    assert (s + t)[|s + t| - |t|..] == t;
  }

  /** Every require fix is a whole `require_once __DIR__ . '/...;` statement. */
  lemma GenerateRequireFixShape(includePath: string)
    ensures StartsWith(GenerateRequireFix(includePath), "require_once " + DirAnchor)
    ensures EndsWith(GenerateRequireFix(includePath), ";")
  {
    var h := "require_once " + DirAnchor;
    var b := Basename(includePath);
    assert StartsWith(h, h) by { assert h[..|h|] == h; }
    if Contains(includePath, ConfigDir) || Contains(includePath, ClassesDir) {
      var dir := if Contains(includePath, ConfigDir) then "../config/" else "../classes/";
      Grow(h, h, dir);
      Grow(h, h + dir, b);
      Grow(h, h + dir + b, "'");
      Grow(h, h + dir + b + "'", ";");
    } else {
      Grow(h, h, "' . ");
      Grow(h, h + "' . ", includePath);
      Grow(h, h + "' . " + includePath, ";");
    }
  }

  /**
   * A path holding the bare word `config` (which wins over `classes`) or
   * `classes` is moved into that directory under its base name, and any
   * other path is appended unchanged after `__DIR__ . '/' . `.
   */
  lemma GenerateRequireFixCases(includePath: string)
    ensures Contains(includePath, ConfigDir) ==>
      GenerateRequireFix(includePath) == "require_once " + DirAnchor + "../config/" + Basename(includePath) + "';"
    ensures !Contains(includePath, ConfigDir) && Contains(includePath, ClassesDir) ==>
      GenerateRequireFix(includePath) == "require_once " + DirAnchor + "../classes/" + Basename(includePath) + "';"
    ensures !Contains(includePath, ConfigDir) && !Contains(includePath, ClassesDir) ==>
      GenerateRequireFix(includePath) == "require_once " + DirAnchor + "' . " + includePath + ";"
  {
    assert "'" + ";" == "';";
  }

  /**
   * The two templates agree, the require fix being the path fix as a
   * statement, unless the path holds a bare `config` or `classes` without
   * the slash the path template looks for.
   */
  lemma TemplatesAgree(path: string, filePath: string)
    requires Contains(path, ConfigDir + "/")
      || (!Contains(path, ConfigDir) && (Contains(path, ClassesDir + "/") || !Contains(path, ClassesDir)))
    ensures GenerateRequireFix(path) == "require_once " + GeneratePathFix(path, filePath) + ";"
  {
    var b := Basename(path);
    if Contains(path, ConfigDir + "/") {
      ContainsPrefix(path, ConfigDir, "/");
      Regroup("require_once ", DirAnchor, "../config/", b, "'", ";");
    } else if Contains(path, ClassesDir + "/") {
      ContainsPrefix(path, ClassesDir, "/");
      Regroup("require_once ", DirAnchor, "../classes/", b, "'", ";");
    } else {
      Regroup("require_once ", DirAnchor, "' . ", path, [], ";");
      assert path + [] == path;
    }
  }

  /** Concatenation regrouped around its middle. */
  lemma Regroup(a: string, x: string, y: string, z: string, w: string, e: string)
    ensures a + x + y + z + w + e == a + (x + y + z + w) + e
  {
  }

  // ---------------------------------------------------------------------
  // The saved results, as the generator reads them

  /** An include of the static analysis; `potential_issue` lists its problems. */
  datatype IncludeRecord = IncludeRecord(line: nat, path: string, potentialIssue: seq<string>)

  /** A file of the static analysis; an absent `includes` list reads as empty. */
  datatype FileRecord = FileRecord(path: string, includes: seq<IncludeRecord>)

  datatype MethodErrorRecord = MethodErrorRecord(file: string, line: nat)

  datatype RequireFailureRecord = RequireFailureRecord(file: string, includePath: string)

  /** A `config_access` entry: an absent file has no `security_status`. */
  datatype ConfigAccessRecord = ConfigAccessRecord(file: string, securityStatus: Option<string>)

  /** A decoded result file; an unset key is `None`. */
  datatype AuditData =
    | StaticAnalysisData(files: Option<seq<FileRecord>>)
    | RoutingData
    | ErrorReproductionData(methodErrors: Option<seq<MethodErrorRecord>>, requireFailures: Option<seq<RequireFailureRecord>>)
    | SecurityAuditData(configAccess: Option<seq<ConfigAccessRecord>>)

  const ResultFiles: seq<string> := [
    "static-analysis-results.json", "routing-test-results.json", "error-reproduction-results.json",
    "security-audit-results.json"]

  // ---------------------------------------------------------------------
  // Path fixes

  /** An include yields a high path fix iff its issue list is not empty. */
  function PathFixFor(file: FileRecord, inc: IncludeRecord): (r: Option<Fix>)
    ensures r.Some? <==> inc.potentialIssue != []
    ensures r.Some? ==>
      r.value.PathFix? && r.value.priority == High && r.value.file == file.path
      && r.value.line == inc.line && r.value.currentPath == inc.path
  {
    if inc.potentialIssue != [] then
      Some(PathFix(High, file.path, inc.line, inc.potentialIssue, inc.path, GeneratePathFix(inc.path, file.path)))
    else None
  }

  function FileFixes(file: FileRecord): seq<Fix> {
    Present(Map((inc: IncludeRecord) => PathFixFor(file, inc), file.includes))
  }

  /** The path fixes of all files, in file order and, within a file, in include order. */
  function PathFixes(files: seq<FileRecord>): seq<Fix> {
    if files == [] then [] else PathFixes(files[..|files| - 1]) + FileFixes(files[|files| - 1])
  }

  predicate HasIssue(inc: IncludeRecord) {
    inc.potentialIssue != []
  }

  /** How many includes of all files have an issue. */
  function IssueIncludes(files: seq<FileRecord>): nat {
    if files == [] then 0 else IssueIncludes(files[..|files| - 1]) + Count(HasIssue, files[|files| - 1].includes)
  }

  /** A file yields one high path fix per include with an issue. */
  lemma FileFixesMeaning(file: FileRecord)
    ensures |FileFixes(file)| == Count(HasIssue, file.includes)
    ensures forall f :: f in FileFixes(file) ==> f.PathFix? && f.priority == High && f.file == file.path
  {
    var f := (inc: IncludeRecord) => PathFixFor(file, inc);
    var xs := Map(f, file.includes);
    PresentCount(xs);
    CountMap((x: Option<Fix>) => x.Some?, HasIssue, f, file.includes);
    forall g | g in FileFixes(file) ensures g.PathFix? && g.priority == High && g.file == file.path {
      var k :| 0 <= k < |Present(xs)| && Present(xs)[k] == g;
      PresentIndexHit(xs, k);
      MapAt(f, file.includes, PresentIndices(xs)[k]);
    }
  }

  /** `extractPathIssues` emits exactly one high path fix per include with an issue. */
  lemma {:induction false} PathFixesMeaning(files: seq<FileRecord>)
    ensures |PathFixes(files)| == IssueIncludes(files)
    ensures forall f :: f in PathFixes(files) ==> f.PathFix? && f.priority == High
  {
    if files != [] {
      var n := |files| - 1;
      PathFixesMeaning(files[..n]);
      FileFixesMeaning(files[n]);
    }
  }

  /** The inner loop: one file's includes. */
  method ExtractFileFixes(file: FileRecord) returns (fixes: seq<Fix>)
    ensures fixes == FileFixes(file)
  {
    var f := (inc: IncludeRecord) => PathFixFor(file, inc);
    var incs := file.includes;
    fixes := [];
    var j := 0;
    while j < |incs|
      invariant 0 <= j <= |incs|
      invariant fixes == Present(Map(f, incs[..j]))
    {
      var inc := incs[j];
      MapStep(f, incs, j);
      PresentAppend(Map(f, incs[..j]), [f(inc)]);
      if inc.potentialIssue != [] {
        fixes := fixes + [PathFix(High, file.path, inc.line, inc.potentialIssue, inc.path, GeneratePathFix(inc.path, file.path))];
      }
      j := j + 1;
    }
    assert incs[..j] == incs;
  }

  /** `extractPathIssues`: nothing without a `files` key. */
  method ExtractPathIssues(data: AuditData) returns (fixes: seq<Fix>)
    ensures fixes == PathIssuesOf(data)
  {
    fixes := [];
    if data.StaticAnalysisData? && data.files.Some? {
      var files := data.files.value;
      var i := 0;
      while i < |files|
        invariant 0 <= i <= |files|
        invariant fixes == PathFixes(files[..i])
      {
        var more := ExtractFileFixes(files[i]);
        assert files[..i + 1][..i] == files[..i];
        fixes := fixes + more;
        i := i + 1;
      }
      assert files[..i] == files;
    }
  }

  function PathIssuesOf(data: AuditData): seq<Fix> {
    if data.StaticAnalysisData? && data.files.Some? then PathFixes(data.files.value) else []
  }

  // ---------------------------------------------------------------------
  // Error fixes

  const MethodAssignment: string := "$method = $_SERVER['REQUEST_METHOD'];"

  function MethodFixOf(e: MethodErrorRecord): Fix {
    UndefinedVariableFix(High, e.file, e.line, "$method", MethodAssignment)
  }

  function RequireFixOf(r: RequireFailureRecord): Fix {
    RequireFix(High, r.file, r.includePath, GenerateRequireFix(r.includePath))
  }

  function OrEmpty<T>(xs: Option<seq<T>>): seq<T> {
    if xs.Some? then xs.value else []
  }

  /** The method fixes, then the require fixes. */
  function ErrorFixesOf(data: AuditData): seq<Fix> {
    if data.ErrorReproductionData? then
      Map(MethodFixOf, OrEmpty(data.methodErrors)) + Map(RequireFixOf, OrEmpty(data.requireFailures))
    else []
  }

  /**
   * One high fix per recorded `$method` error, each proposing the
   * assignment, followed by one high require fix per recorded failure.
   */
  lemma ErrorFixesMeaning(data: AuditData, k: nat)
    requires data.ErrorReproductionData?
    requires k < |ErrorFixesOf(data)|
    ensures var m := OrEmpty(data.methodErrors); var f := ErrorFixesOf(data)[k];
      && |ErrorFixesOf(data)| == |m| + |OrEmpty(data.requireFailures)|
      && f.priority == High
      && (k < |m| ==> f.UndefinedVariableFix? && f.suggestedFix == MethodAssignment && f.file == m[k].file && f.line == m[k].line)
      && (k >= |m| ==> f.RequireFix? && f.currentPath == OrEmpty(data.requireFailures)[k - |m|].includePath)
  {
    var m, r := OrEmpty(data.methodErrors), OrEmpty(data.requireFailures);
    if k < |m| {
      MapAt(MethodFixOf, m, k);
    } else {
      MapAt(RequireFixOf, r, k - |m|);
    }
  }

  /** The two loops of `extractErrorFixes`. */
  method ExtractErrorFixes(data: AuditData) returns (fixes: seq<Fix>)
    ensures fixes == ErrorFixesOf(data)
  {
    fixes := [];
    if data.ErrorReproductionData? {
      var errors := OrEmpty(data.methodErrors);
      var i := 0;
      while i < |errors|
        invariant 0 <= i <= |errors|
        invariant fixes == Map(MethodFixOf, errors[..i])
      {
        MapStep(MethodFixOf, errors, i);
        fixes := fixes + [UndefinedVariableFix(High, errors[i].file, errors[i].line, "$method", MethodAssignment)];
        i := i + 1;
      }
      assert errors[..i] == errors;
      var failures := OrEmpty(data.requireFailures);
      var methodFixes := fixes;
      var j := 0;
      while j < |failures|
        invariant 0 <= j <= |failures|
        invariant fixes == methodFixes + Map(RequireFixOf, failures[..j])
      {
        MapStep(RequireFixOf, failures, j);
        fixes := fixes + [RequireFix(High, failures[j].file, failures[j].includePath, GenerateRequireFix(failures[j].includePath))];
        j := j + 1;
      }
      assert failures[..j] == failures;
    }
  }

  // ---------------------------------------------------------------------
  // Security fixes

  predicate IsVulnerable(r: ConfigAccessRecord) {
    r.securityStatus == Some("VULNERABLE")
  }

  function SecurityFixFor(r: ConfigAccessRecord): (f: Option<Fix>)
    ensures f.Some? <==> IsVulnerable(r)
    ensures f.Some? ==> f.value.SecurityFix? && f.value.priority == Medium && f.value.file == r.file
  {
    if r.securityStatus.Some? && r.securityStatus.value == "VULNERABLE" then
      Some(SecurityFix(Medium, r.file, "unprotected_config_file", SuggestedFix("Add .htaccess protection to directory")))
    else None
  }

  function SecurityFixesOf(data: AuditData): seq<Fix> {
    if data.SecurityAuditData? && data.configAccess.Some? then Present(Map(SecurityFixFor, data.configAccess.value))
    else []
  }

  /**
   * One fix per VULNERABLE configuration file, so none for a missing file
   * (which has no `security_status`) nor for a protected one.
   */
  lemma SecurityFixesCount(records: seq<ConfigAccessRecord>)
    ensures |SecurityFixesOf(SecurityAuditData(Some(records)))| == Count(IsVulnerable, records)
  {
    var xs := Map(SecurityFixFor, records);
    PresentCount(xs);
    CountMap((x: Option<Fix>) => x.Some?, IsVulnerable, SecurityFixFor, records);
  }

  /** Every such fix is a medium security fix. */
  lemma SecurityFixesMedium(records: seq<ConfigAccessRecord>)
    ensures forall f :: f in SecurityFixesOf(SecurityAuditData(Some(records))) ==> f.SecurityFix? && f.priority == Medium
  {
    var xs := Map(SecurityFixFor, records);
    forall g: Fix | g in Present(xs) ensures g.SecurityFix? && g.priority == Medium {
      var k :| 0 <= k < |Present(xs)| && Present(xs)[k] == g;
      PresentIndexHit(xs, k);
      MapAt(SecurityFixFor, records, PresentIndices(xs)[k]);
    }
  }

  /** The loop of `extractSecurityFixes`. */
  method ExtractSecurityFixes(data: AuditData) returns (fixes: seq<Fix>)
    ensures fixes == SecurityFixesOf(data)
  {
    fixes := [];
    if data.SecurityAuditData? && data.configAccess.Some? {
      var records := data.configAccess.value;
      var i := 0;
      while i < |records|
        invariant 0 <= i <= |records|
        invariant fixes == Present(Map(SecurityFixFor, records[..i]))
      {
        MapStep(SecurityFixFor, records, i);
        PresentAppend(Map(SecurityFixFor, records[..i]), [SecurityFixFor(records[i])]);
        var fix := SecurityFixFor(records[i]);
        if fix.Some? {
          fixes := fixes + [fix.value];
        }
        i := i + 1;
      }
      assert records[..i] == records;
    }
  }

  // ---------------------------------------------------------------------
  // Loading

  /** `analyzeResultsForFixes`: the routing results match no case and give nothing. */
  function Analyze(name: string, data: AuditData): seq<Fix> {
    if name == "static-analysis-results.json" then PathIssuesOf(data)
    else if name == "error-reproduction-results.json" then ErrorFixesOf(data)
    else if name == "security-audit-results.json" then SecurityFixesOf(data)
    else []
  }

  /** The fixes extracted from the result files that exist, in file order. */
  function Extracted(saved: map<string, AuditData>, names: seq<string>): seq<Fix> {
    if names == [] then []
    else
      var name := names[|names| - 1];
      Extracted(saved, names[..|names| - 1]) + (if name in saved then Analyze(name, saved[name]) else [])
  }

  /** No extracted fix is critical: only the configuration fix is. */
  lemma {:induction false} ExtractedNotCritical(saved: map<string, AuditData>, names: seq<string>)
    ensures forall f :: f in Extracted(saved, names) ==> f.priority != Critical
  {
    if names != [] {
      var name := names[|names| - 1];
      ExtractedNotCritical(saved, names[..|names| - 1]);
      if name in saved {
        var data := saved[name];
        if data.StaticAnalysisData? && data.files.Some? {
          PathFixesMeaning(data.files.value);
        }
        if data.ErrorReproductionData? {
          forall k | 0 <= k < |ErrorFixesOf(data)| ensures ErrorFixesOf(data)[k].priority == High {
            ErrorFixesMeaning(data, k);
          }
        }
        if data.SecurityAuditData? && data.configAccess.Some? {
          SecurityFixesMedium(data.configAccess.value);
        }
      }
    }
  }

  /** `analyzeResultsForFixes` for one loaded file. */
  method AnalyzeResults(name: string, data: AuditData) returns (fixes: seq<Fix>)
    ensures fixes == Analyze(name, data)
  {
    if name == "static-analysis-results.json" {
      fixes := ExtractPathIssues(data);
    } else if name == "error-reproduction-results.json" {
      fixes := ExtractErrorFixes(data);
    } else if name == "security-audit-results.json" {
      fixes := ExtractSecurityFixes(data);
    } else {
      fixes := [];
    }
  }

  /** The loop of `loadAuditResults`: missing files are skipped and not counted. */
  method LoadResults(saved: map<string, AuditData>) returns (fixes: seq<Fix>, loaded: nat)
    ensures fixes == Extracted(saved, ResultFiles)
    ensures loaded == Count((name: string) => name in saved, ResultFiles)
  {
    var names := ResultFiles;
    fixes, loaded := [], 0;
    var i := 0;
    while i < |names|
      invariant 0 <= i <= |names|
      invariant fixes == Extracted(saved, names[..i])
      invariant loaded == Count((name: string) => name in saved, names[..i])
    {
      var name := names[i];
      CountStep((name: string) => name in saved, names, i);
      assert names[..i + 1][..i] == names[..i];
      if name in saved {
        var more := AnalyzeResults(name, saved[name]);
        fixes := fixes + more;
        loaded := loaded + 1;
      }
      i := i + 1;
    }
    assert names[..i] == names;
  }

  // ---------------------------------------------------------------------
  // The two fixed fixes

  /** The configuration template and the `.htaccess` rules, kept as fixed texts. */
  const DatabaseConfigFixCode: string := "<database configuration template>"
  const HtaccessSecurityFixCode: string := "<.htaccess security rules>"

  const ConfigurationFix: Fix :=
    ConfigFix(Critical, "/backend/config/database.php", "database_connection_configuration", DatabaseConfigFixCode)

  const HtaccessFix: Fix :=
    SecurityFix(High, "/backend/.htaccess", "enhanced_security_rules", FixCode(HtaccessSecurityFixCode))

  // ---------------------------------------------------------------------
  // Prioritising: a stable insertion sort by rank

  function Key(f: Fix): nat {
    Rank(f.priority)
  }

  predicate SortedByPriority(s: seq<Fix>) {
    forall i, j :: 0 <= i < j < |s| ==> Key(s[i]) <= Key(s[j])
  }

  /** Where `x` goes: after the last fix whose rank is not above its own. */
  function InsertionPoint(s: seq<Fix>, x: Fix): (k: nat)
    ensures k <= |s|
  {
    if s == [] then 0
    else if Key(s[|s| - 1]) <= Key(x) then |s|
    else InsertionPoint(s[..|s| - 1], x)
  }

  /** Everything before the point ranks at most `x`'s rank, at the point's left; everything after ranks above. */
  lemma {:induction false} InsertionPointBounds(s: seq<Fix>, x: Fix)
    ensures var k := InsertionPoint(s, x);
      && (k == 0 || Key(s[k - 1]) <= Key(x))
      && forall i :: k <= i < |s| ==> Key(s[i]) > Key(x)
  {
    if s != [] && Key(s[|s| - 1]) > Key(x) {
      InsertionPointBounds(s[..|s| - 1], x);
    }
  }

  /** `x` placed after every fix of `s` whose rank is not above its own. */
  function Insert(s: seq<Fix>, x: Fix): (r: seq<Fix>)
    ensures |r| == |s| + 1
  {
    var k := InsertionPoint(s, x);
    s[..k] + [x] + s[k..]
  }

  /** The fixes sorted by priority, equal priorities in their original order. */
  function SortFixes(xs: seq<Fix>): (r: seq<Fix>)
    ensures |r| == |xs|
  {
    if xs == [] then [] else Insert(SortFixes(xs[..|xs| - 1]), xs[|xs| - 1])
  }

  /** Inserting adds `x` and nothing else. */
  lemma InsertMultiset(s: seq<Fix>, x: Fix)
    ensures multiset(Insert(s, x)) == multiset(s) + multiset{x}
  {
    var k := InsertionPoint(s, x);
    assert s == s[..k] + s[k..];
  }

  /** Inserting into a sorted list keeps it sorted. */
  lemma InsertSorted(s: seq<Fix>, x: Fix)
    requires SortedByPriority(s)
    ensures SortedByPriority(Insert(s, x))
  {
    var k := InsertionPoint(s, x);
    InsertionPointBounds(s, x);
    var r := Insert(s, x);
    forall i, j | 0 <= i < j < |r| ensures Key(r[i]) <= Key(r[j]) {
      if i < k && j == k {
        assert Key(s[i]) <= Key(s[k - 1]);
      } else if i < k && j > k {
        assert r[j] == s[j - 1];
      } else if i == k {
        assert r[j] == s[j - 1];
      } else if i > k {
        assert r[i] == s[i - 1] && r[j] == s[j - 1];
      }
    }
  }

  /** `f` alone if it has priority `p`. */
  function Single(p: Priority, f: Fix): seq<Fix> {
    if f.priority == p then [f] else []
  }

  /** The fixes of priority `p`, in list order, as `array_filter` keeps them. */
  function OfPriority(p: Priority, s: seq<Fix>): seq<Fix> {
    if s == [] then [] else OfPriority(p, s[..|s| - 1]) + Single(p, s[|s| - 1])
  }

  lemma OfPrioritySnoc(p: Priority, a: seq<Fix>, f: Fix)
    ensures OfPriority(p, a + [f]) == OfPriority(p, a) + Single(p, f)
  {
    assert (a + [f])[..|a|] == a;
  }

  /** Selecting by priority distributes over concatenation. */
  lemma {:induction false} OfPriorityAppend(p: Priority, a: seq<Fix>, b: seq<Fix>)
    ensures OfPriority(p, a + b) == OfPriority(p, a) + OfPriority(p, b)
  {
    if b == [] {
      assert a + b == a;
    } else {
      var n := |b| - 1;
      var front, last := b[..n], b[n];
      assert a + b == (a + front) + [last];
      assert b == front + [last];
      OfPriorityAppend(p, a, front);
      OfPrioritySnoc(p, a + front, last);
      OfPrioritySnoc(p, front, last);
    }
  }

  /** A fix is selected iff it is in the list and has that priority. */
  lemma {:induction false} OfPriorityMember(p: Priority, s: seq<Fix>, f: Fix)
    ensures f in OfPriority(p, s) <==> f in s && f.priority == p
  {
    if s != [] {
      var n := |s| - 1;
      OfPriorityMember(p, s[..n], f);
      assert s == s[..n] + [s[n]];
    }
  }

  /** A list without fixes of priority `p` selects nothing. */
  lemma {:induction false} OfPriorityNone(p: Priority, s: seq<Fix>)
    requires forall i :: 0 <= i < |s| ==> s[i].priority != p
    ensures OfPriority(p, s) == []
  {
    if s != [] {
      OfPriorityNone(p, s[..|s| - 1]);
    }
  }

  /** Cutting a list anywhere cuts its selection there. */
  lemma OfPrioritySplit(p: Priority, s: seq<Fix>, k: nat)
    requires k <= |s|
    ensures OfPriority(p, s) == OfPriority(p, s[..k]) + OfPriority(p, s[k..])
  {
    assert s == s[..k] + s[k..];
    OfPriorityAppend(p, s[..k], s[k..]);
  }

  /** The selection of an insertion, piece by piece. */
  lemma InsertPieces(s: seq<Fix>, x: Fix, p: Priority)
    ensures var k := InsertionPoint(s, x);
      OfPriority(p, Insert(s, x)) == OfPriority(p, s[..k]) + Single(p, x) + OfPriority(p, s[k..])
  {
    var k := InsertionPoint(s, x);
    OfPriorityAppend(p, s[..k] + [x], s[k..]);
    OfPrioritySnoc(p, s[..k], x);
  }

  /** Nothing after the insertion point has `x`'s priority. */
  lemma AfterPoint(s: seq<Fix>, x: Fix)
    ensures OfPriority(x.priority, s[InsertionPoint(s, x)..]) == []
  {
    var k := InsertionPoint(s, x);
    InsertionPointBounds(s, x);
    OfPriorityNone(x.priority, s[k..]);
  }

  /** Inserting moves `x` past higher-ranked fixes only, so past no fix of its own priority. */
  lemma InsertOfPriority(s: seq<Fix>, x: Fix, p: Priority)
    ensures OfPriority(p, Insert(s, x)) == OfPriority(p, s) + Single(p, x)
  {
    var k := InsertionPoint(s, x);
    InsertPieces(s, x, p);
    OfPrioritySplit(p, s, k);
    if x.priority == p {
      AfterPoint(s, x);
    }
  }

  /**
   * The result is sorted by rank, is a permutation of the input, and
   * keeps the input order among the fixes of each priority.
   */
  lemma {:induction false} SortFixesCorrect(xs: seq<Fix>)
    ensures SortedByPriority(SortFixes(xs))
    ensures multiset(SortFixes(xs)) == multiset(xs)
    ensures forall p :: OfPriority(p, SortFixes(xs)) == OfPriority(p, xs)
  {
    if xs != [] {
      var n := |xs| - 1;
      var front, x := xs[..n], xs[n];
      SortFixesCorrect(front);
      InsertSorted(SortFixes(front), x);
      InsertMultiset(SortFixes(front), x);
      assert xs == front + [x];
      forall p ensures OfPriority(p, SortFixes(xs)) == OfPriority(p, xs) {
        InsertOfPriority(SortFixes(front), x, p);
      }
    }
  }

  /** The inner loop: walk back past the fixes ranked above `x`. */
  method InsertFix(s: seq<Fix>, x: Fix) returns (r: seq<Fix>)
    ensures r == Insert(s, x)
  {
    var k := |s|;
    assert s[..k] == s;
    while k > 0 && Key(s[k - 1]) > Key(x)
      invariant 0 <= k <= |s|
      invariant InsertionPoint(s, x) == InsertionPoint(s[..k], x)
    {
      assert s[..k][..k - 1] == s[..k - 1];
      k := k - 1;
    }
    r := s[..k] + [x] + s[k..];
  }

  /** `usort` by priority rank, which is stable from PHP 8 on. */
  method SortByPriority(xs: seq<Fix>) returns (r: seq<Fix>)
    ensures r == SortFixes(xs)
  {
    r := [];
    var i := 0;
    while i < |xs|
      invariant 0 <= i <= |xs|
      invariant r == SortFixes(xs[..i])
    {
      assert xs[..i + 1][..i] == xs[..i];
      r := InsertFix(r, xs[i]);
      i := i + 1;
    }
    assert xs[..i] == xs;
  }

  /** In a sorted list holding exactly one critical fix, that fix comes first. */
  lemma SoleCriticalFirst(s: seq<Fix>, c: Fix)
    requires SortedByPriority(s)
    requires OfPriority(Critical, s) == [c]
    ensures |s| > 0 && s[0] == c
  {
    OfPriorityMember(Critical, s, c);
    assert Key(s[0]) <= Key(c);
    OfPriorityMember(Critical, s, s[0]);
  }

  /** Before sorting, a critical fix `c` is the only critical one, and a high fix `h` the last high one. */
  lemma FixedFixesByPriority(ex: seq<Fix>, c: Fix, h: Fix)
    requires OfPriority(Critical, ex) == []
    requires c.priority == Critical && h.priority == High
    ensures OfPriority(Critical, ex + [c] + [h]) == [c]
    ensures OfPriority(High, ex + [c] + [h]) == OfPriority(High, ex) + [h]
  {
    var e1 := ex + [c];
    assert OfPriority(Critical, e1) == [c] by {
      OfPrioritySnoc(Critical, ex, c);
      assert Single(Critical, c) == [c];
      assert [] + [c] == [c];
    }
    assert OfPriority(Critical, e1 + [h]) == [c] by {
      OfPrioritySnoc(Critical, e1, h);
      assert Single(Critical, h) == [];
      assert [c] + [] == [c];
    }
    var a := OfPriority(High, ex);
    assert OfPriority(High, e1) == a by {
      OfPrioritySnoc(High, ex, c);
      assert Single(High, c) == [];
      assert a + [] == a;
    }
    assert OfPriority(High, e1 + [h]) == a + [h] by {
      OfPrioritySnoc(High, e1, h);
      assert Single(High, h) == [h];
    }
  }

  /**
   * Sorting fixes without a critical one followed by a critical fix `c`
   * and a high fix `h`: the result is sorted, a permutation, starts with
   * `c`, which is its only critical fix, and lists the high fixes in the
   * order they came.
   */
  lemma SortedRun(ex: seq<Fix>, c: Fix, h: Fix)
    requires OfPriority(Critical, ex) == []
    requires c.priority == Critical && h.priority == High
    ensures var after := SortFixes(ex + [c] + [h]);
      && |after| == |ex| + 2
      && multiset(after) == multiset(ex + [c] + [h])
      && SortedByPriority(after)
      && OfPriority(Critical, after) == [c]
      && after[0] == c
      && OfPriority(High, after) == OfPriority(High, ex) + [h]
  {
    var before := ex + [c] + [h];
    SortFixesCorrect(before);
    FixedFixesByPriority(ex, c, h);
    SoleCriticalFirst(SortFixes(before), c);
  }

  /** The fixes a whole run sorts: the extracted ones, then the two fixed ones. */
  function RunFixes(saved: map<string, AuditData>): seq<Fix> {
    Extracted(saved, ResultFiles) + [ConfigurationFix] + [HtaccessFix]
  }

  /** A whole run from a fresh generator ends with the list `SortedRun` describes. */
  lemma GeneratedFixes(saved: map<string, AuditData>)
    ensures var ex := Extracted(saved, ResultFiles); var after := SortFixes(RunFixes(saved));
      && |after| == |ex| + 2
      && SortedByPriority(after)
      && OfPriority(Critical, after) == [ConfigurationFix]
      && after[0] == ConfigurationFix
      && OfPriority(High, after) == OfPriority(High, ex) + [HtaccessFix]
  {
    var ex := Extracted(saved, ResultFiles);
    assert OfPriority(Critical, ex) == [] by {
      ExtractedNotCritical(saved, ResultFiles);
      forall i | 0 <= i < |ex| ensures ex[i].priority != Critical {
        assert ex[i] in ex;
      }
      OfPriorityNone(Critical, ex);
    }
    SortedRun(ex, ConfigurationFix, HtaccessFix);
  }

  /** The generator and the fixes it accumulates. */
  class SolutionGenerator {
    var fixes: seq<Fix>

    constructor ()
      ensures fixes == []
    {
      fixes := [];
    }

    /** `loadAuditResults`: returns how many result files were loaded. */
    method LoadAuditResults(saved: map<string, AuditData>) returns (loaded: nat)
      modifies this
      ensures fixes == old(fixes) + Extracted(saved, ResultFiles)
      ensures loaded == Count((name: string) => name in saved, ResultFiles)
    {
      var more;
      more, loaded := LoadResults(saved);
      fixes := fixes + more;
    }

    /** `generatePathFixes`, which only reports the path fixes so far. */
    method GeneratePathFixes() returns (pathFixes: seq<Fix>)
      ensures pathFixes == Filter((f: Fix) => f.PathFix?, fixes)
    {
      pathFixes := Filter((f: Fix) => f.PathFix?, fixes);
    }

    /** `generateMethodVariableFixes`, which only reports the method fixes so far. */
    method GenerateMethodVariableFixes() returns (methodFixes: seq<Fix>)
      ensures methodFixes == Filter((f: Fix) => f.UndefinedVariableFix?, fixes)
    {
      methodFixes := Filter((f: Fix) => f.UndefinedVariableFix?, fixes);
    }

    /** `generateConfigurationFixes`. */
    method GenerateConfigurationFixes()
      modifies this
      ensures fixes == old(fixes) + [ConfigurationFix]
    {
      fixes := fixes + [ConfigurationFix];
    }

    /** `generateSecurityFixes`. */
    method GenerateSecurityFixes()
      modifies this
      ensures fixes == old(fixes) + [HtaccessFix]
    {
      fixes := fixes + [HtaccessFix];
    }

    /** `prioritizeFixes`. */
    method PrioritizeFixes()
      modifies this
      ensures fixes == SortFixes(old(fixes))
    {
      fixes := SortByPriority(fixes);
    }

    /** `outputSolutions`: the critical fixes, then the high ones, each in list order. */
    method OutputSolutions() returns (critical: seq<Fix>, high: seq<Fix>)
      ensures critical == OfPriority(Critical, fixes)
      ensures high == OfPriority(High, fixes)
    {
      critical := OfPriority(Critical, fixes);
      high := OfPriority(High, fixes);
    }

    /** `generateSolutions`: the steps in order. */
    method GenerateSolutions(saved: map<string, AuditData>) returns (loaded: nat, critical: seq<Fix>, high: seq<Fix>)
      modifies this
      ensures fixes == SortFixes(old(fixes) + RunFixes(saved))
      ensures loaded == Count((name: string) => name in saved, ResultFiles)
      ensures critical == OfPriority(Critical, fixes) && high == OfPriority(High, fixes)
    {
      ghost var start := fixes;
      loaded := LoadAuditResults(saved);
      ghost var ex := fixes[|start|..];
      assert fixes == start + ex;
      var _ := GeneratePathFixes();
      var _ := GenerateMethodVariableFixes();
      GenerateConfigurationFixes();
      GenerateSecurityFixes();
      assert fixes == start + (ex + [ConfigurationFix] + [HtaccessFix]);
      PrioritizeFixes();
      critical, high := OutputSolutions();
    }
  }
}
