/**
 * The error-reproduction checker (audit/error-reproduction.php): inspects
 * three likely sources of HTTP 500 errors, simulates how every `require_once`
 * of the tree would resolve, finds uses of `$method` before its assignment,
 * checks three routing scenarios and sums the findings into a status.
 */
module ErrorReproduction {
  import opened Wrappers
  import opened Strings
  import opened Paths
  import opened Patterns

  /** The deployed tree every path of this checker starts from. */
  const BasePath: Path := "../public_html"

  /** The binding whose use before assignment the checker reports. */
  const MethodBinding: string := "method"

  // ---------------------------------------------------------------------
  // 500-error sources

  const Potential500Sources: seq<Path> :=
    ["/backend/api/index.php", "/backend/admin/index.php", "/backend/get_projects.php"]

  /** `validatePhpSyntax`: as many `{` as `}`. */
  predicate ValidatePhpSyntax(content: string) {
    Balanced(content, '{', '}')
  }

  /** A brace inside a comment still counts: the check is a heuristic, not a parser. */
  lemma CommentedBraceUnbalances(code: string)
    requires ValidatePhpSyntax(code)
    ensures !ValidatePhpSyntax(code + "// {")
  {
    CountCharAppend(code, "// {", '{');
    CountCharAppend(code, "// {", '}');
    assert CountChar("// {", '{') == 1 by {
      assert "// {"[1..] == "/ {";
      assert "/ {"[1..] == " {";
      assert " {"[1..] == "{";
    }
    assert CountChar("// {", '}') == 0;
  }

  datatype Issue500 = SyntaxError | MissingInclude(path: Path) | UndefinedMethodVariable | UncheckedDatabaseConnection

  datatype Status500 = Pass | Potential500

  /**
   * One entry of `500_errors`: a missing file (`exists` false, `error_type`
   * file_not_found, status FAIL), or the issues found in an existing one.
   */
  datatype Source500 = NotFound | Analysed(issues: seq<Issue500>, issueCount: nat, status: Status500)

  /** A `missing_include` for every `require_once '...'` not found next to the file. */
  function MissingIncludes(fs: FileSystem, fullPath: Path, ms: seq<Match>): (r: seq<Issue500>)
    ensures |r| <= |ms|
  {
    if ms == [] then []
    else
      var m := ms[|ms| - 1];
      MissingIncludes(fs, fullPath, ms[..|ms| - 1])
      + (if !Exists(fs, Dirname(fullPath) + "/" + m.capture) then [MissingInclude(m.capture)] else [])
  }

  /**
   * Only `missing_include` issues are produced, and `p` is reported iff some
   * match captures it and it is not found next to the file.
   */
  lemma {:induction false} MissingIncludesMeaning(fs: FileSystem, fullPath: Path, ms: seq<Match>, p: Path)
    ensures forall x :: x in MissingIncludes(fs, fullPath, ms) ==> x.MissingInclude?
    ensures MissingInclude(p) in MissingIncludes(fs, fullPath, ms) <==>
      (exists m :: m in ms && m.capture == p) && !Exists(fs, Dirname(fullPath) + "/" + p)
    decreases |ms|
  {
    if ms != [] {
      var m := ms[|ms| - 1];
      var front := ms[..|ms| - 1];
      MissingIncludesMeaning(fs, fullPath, front, p);
      assert forall x :: x in ms <==> x in front || x == m;
    }
  }

  /** `$method` appears but `$method = ` does not. */
  predicate UsesUnassignedMethod(content: string) {
    Contains(content, "$method") && !Contains(content, "$method = ")
  }

  /** A `Database` is created but `getConnection()` is never called. */
  predicate UncheckedConnection(content: string) {
    Contains(content, "new Database()") && !Contains(content, "getConnection()")
  }

  /** The issues `test500Errors` records for an existing file, in order. */
  function SourceIssues(fs: FileSystem, fullPath: Path, content: string): seq<Issue500> {
    IssueList(!ValidatePhpSyntax(content), MissingIncludes(fs, fullPath, AllMatches(RequireOnceSpaced, content, 0)),
              UsesUnassignedMethod(content), UncheckedConnection(content))
  }

  /** The four checks' findings, concatenated in the order they run. */
  function IssueList(syntaxError: bool, missing: seq<Issue500>, unassigned: bool, unchecked: bool): seq<Issue500> {
    (if syntaxError then [SyntaxError] else [])
    + missing
    + (if unassigned then [UndefinedMethodVariable] else [])
    + (if unchecked then [UncheckedDatabaseConnection] else [])
  }

  /** Each flag shows as its issue, and the include findings keep their own membership. */
  lemma IssueListMembers(syntaxError: bool, missing: seq<Issue500>, unassigned: bool, unchecked: bool, p: Path)
    requires forall x :: x in missing ==> x.MissingInclude?
    ensures var issues := IssueList(syntaxError, missing, unassigned, unchecked);
      && (SyntaxError in issues <==> syntaxError)
      && (UndefinedMethodVariable in issues <==> unassigned)
      && (UncheckedDatabaseConnection in issues <==> unchecked)
      && (MissingInclude(p) in issues <==> MissingInclude(p) in missing)
  {
  }

  /** The `500_errors` entry for `file` (a path below the base). */
  function Check500Source(fs: FileSystem, file: Path): (r: Source500)
    ensures r.NotFound? <==> !Exists(fs, BasePath + file)
    ensures r.Analysed? ==> r.issueCount == |r.issues| && (r.status == Pass <==> r.issues == [])
  {
    var full := BasePath + file;
    if !Exists(fs, full) then NotFound
    else
      var issues := SourceIssues(fs, full, Content(fs, full));
      Analysed(issues, |issues|, if issues == [] then Pass else Potential500)
  }

  /**
   * The issues of an existing source: a syntax error iff the braces do not
   * balance, a missing include `p` iff some `require_once '...'` names `p`
   * and it is not found next to the file, an undefined `$method` iff it is
   * used and never assigned with `$method = `, and an unchecked database
   * connection iff a `Database` is created and no connection is requested.
   */
  lemma Check500SourceIssues(fs: FileSystem, file: Path, p: Path)
    requires Exists(fs, BasePath + file)
    ensures var r := Check500Source(fs, file); var c := Content(fs, BasePath + file);
      && r.Analysed?
      && (SyntaxError in r.issues <==> !ValidatePhpSyntax(c))
      && (UndefinedMethodVariable in r.issues <==> UsesUnassignedMethod(c))
      && (UncheckedDatabaseConnection in r.issues <==> UncheckedConnection(c))
      && (MissingInclude(p) in r.issues <==>
            (exists m :: m in AllMatches(RequireOnceSpaced, c, 0) && m.capture == p)
            && !Exists(fs, Dirname(BasePath + file) + "/" + p))
  {
    var full := BasePath + file;
    SourceIssuesMembers(fs, full, Content(fs, full), p);
  }

  /** The membership facts of `SourceIssues`, for any content. */
  lemma SourceIssuesMembers(fs: FileSystem, full: Path, c: string, p: Path)
    ensures var issues := SourceIssues(fs, full, c);
      && (SyntaxError in issues <==> !ValidatePhpSyntax(c))
      && (UndefinedMethodVariable in issues <==> UsesUnassignedMethod(c))
      && (UncheckedDatabaseConnection in issues <==> UncheckedConnection(c))
      && (MissingInclude(p) in issues <==>
            (exists m :: m in AllMatches(RequireOnceSpaced, c, 0) && m.capture == p)
            && !Exists(fs, Dirname(full) + "/" + p))
  {
    var ms := AllMatches(RequireOnceSpaced, c, 0);
    MissingIncludesMeaning(fs, full, ms, p);
    IssueListMembers(!ValidatePhpSyntax(c), MissingIncludes(fs, full, ms), UsesUnassignedMethod(c), UncheckedConnection(c), p);
  }

  // ---------------------------------------------------------------------
  // Resolution simulator

  datatype Context = RelativeToFile | RelativeToRoot | AbsolutePath

  /** One candidate of a resolution: its context label and the path tried. */
  datatype Attempt = Attempt(context: Context, path: Path)

  /** The three candidates for `include` written in `file`, in the order they are tried. */
  function ResolutionAttempts(file: Path, target: Path): (r: seq<Attempt>)
    ensures |r| == 3
    ensures r[0] == Attempt(RelativeToFile, Dirname(file) + "/" + target)
    ensures r[1] == Attempt(RelativeToRoot, BasePath + "/" + target)
    ensures r[2] == Attempt(AbsolutePath, target)
  {
    [Attempt(RelativeToFile, Dirname(file) + "/" + target),
     Attempt(RelativeToRoot, BasePath + "/" + target),
     Attempt(AbsolutePath, target)]
  }

  /** The index of the first attempt whose path exists. */
  function FirstExisting(fs: FileSystem, attempts: seq<Attempt>): (r: Option<nat>)
    ensures r.Some? ==> r.value < |attempts| && Exists(fs, attempts[r.value].path)
    ensures r.Some? ==> forall j :: 0 <= j < r.value ==> !Exists(fs, attempts[j].path)
    ensures r.None? <==> forall j :: 0 <= j < |attempts| ==> !Exists(fs, attempts[j].path)
  {
    if attempts == [] then None
    else if Exists(fs, attempts[0].path) then Some(0)
    else match FirstExisting(fs, attempts[1..])
      case None => None
      case Some(k) => Some(k + 1)
  }

  /**
   * The resolution loop: tries the candidates in order and stops at the
   * first that exists. The reference resolves iff some candidate exists,
   * and the winner is the first existing one.
   */
  method Resolve(fs: FileSystem, attempts: seq<Attempt>) returns (winner: Option<nat>)
    ensures winner == FirstExisting(fs, attempts)
    ensures winner.Some? ==>
      && winner.value < |attempts| && Exists(fs, attempts[winner.value].path)
      && forall j :: 0 <= j < winner.value ==> !Exists(fs, attempts[j].path)
    ensures winner.None? <==> forall j :: 0 <= j < |attempts| ==> !Exists(fs, attempts[j].path)
  {
    winner := None;
    var i := 0;
    while i < |attempts|
      invariant 0 <= i <= |attempts|
      invariant forall j :: 0 <= j < i ==> !Exists(fs, attempts[j].path)
    {
      if Exists(fs, attempts[i].path) {
        winner := Some(i);
        break;
      }
      i := i + 1;
    }
  }

  /** A reference that resolved under none of the three contexts, kept with all three attempts. */
  datatype RequireFailure = RequireFailure(file: Path, includePath: Path, statement: string, attempts: seq<Attempt>)

  /** The failure record of one `require_once` match in `file`, if it does not resolve. */
  function FailureOf(fs: FileSystem, file: Path, m: Match): seq<RequireFailure> {
    if Unresolved(fs, file, m) then [FailureRecord(file, m)] else []
  }

  /** The failures among the matches `ms` of one file. */
  function MatchFailures(fs: FileSystem, file: Path, ms: seq<Match>): seq<RequireFailure> {
    if ms == [] then []
    else MatchFailures(fs, file, ms[..|ms| - 1]) + FailureOf(fs, file, ms[|ms| - 1])
  }

  function FileFailures(fs: FileSystem, file: Path): seq<RequireFailure> {
    MatchFailures(fs, file, AllMatches(RequireOnceLoose, Content(fs, file), 0))
  }

  /** The failures of all `files`, file by file and in match order within a file. */
  function AllFailures(fs: FileSystem, files: seq<Path>): seq<RequireFailure> {
    if files == [] then []
    else AllFailures(fs, files[..|files| - 1]) + FileFailures(fs, files[|files| - 1])
  }

  /** `m` resolves under none of the three contexts. */
  predicate Unresolved(fs: FileSystem, file: Path, m: Match) {
    FirstExisting(fs, ResolutionAttempts(file, m.capture)).None?
  }

  /** The record the simulator keeps for the match `m` of `file`. */
  function FailureRecord(file: Path, m: Match): (f: RequireFailure)
    ensures f.includePath == m.capture && f.statement == m.text
    ensures f.attempts == ResolutionAttempts(file, m.capture)
  {
    RequireFailure(ReplaceAll(file, BasePath, ""), m.capture, m.text, ResolutionAttempts(file, m.capture))
  }

  /** An unresolved reference is one none of whose three candidates exists. */
  lemma UnresolvedMeaning(fs: FileSystem, file: Path, m: Match)
    ensures Unresolved(fs, file, m) <==>
      && !Exists(fs, Dirname(file) + "/" + m.capture)
      && !Exists(fs, BasePath + "/" + m.capture)
      && !Exists(fs, m.capture)
  {
    var a := ResolutionAttempts(file, m.capture);
    assert |a| == 3;
  }

  /** Every failure recorded for a file is the record of one of its unresolved references. */
  lemma {:induction false} MatchFailuresSound(fs: FileSystem, file: Path, ms: seq<Match>)
    ensures forall f :: f in MatchFailures(fs, file, ms) ==>
      exists m :: m in ms && Unresolved(fs, file, m) && f == FailureRecord(file, m)
    decreases |ms|
  {
    if ms != [] {
      var front := ms[..|ms| - 1];
      MatchFailuresSound(fs, file, front);
      assert forall m :: m in front ==> m in ms;
    }
  }

  /** Every unresolved reference of a file is recorded. */
  lemma {:induction false} MatchFailuresComplete(fs: FileSystem, file: Path, ms: seq<Match>)
    ensures forall m :: m in ms && Unresolved(fs, file, m) ==> FailureRecord(file, m) in MatchFailures(fs, file, ms)
    decreases |ms|
  {
    if ms != [] {
      var front := ms[..|ms| - 1];
      MatchFailuresComplete(fs, file, front);
      assert forall m :: m in ms ==> m in front || m == ms[|ms| - 1];
    }
  }

  datatype Verdict = PassStatus | FailStatus

  /** The `require_failures` category. */
  datatype RequireFailures = RequireFailures(totalStatements: nat, failedResolutions: nat,
                                             failures: seq<RequireFailure>, status: Verdict)

  /** The `require_failures` record: PASS iff nothing failed, and the count is the list's length. */
  function RequireFailuresRecord(total: nat, failures: seq<RequireFailure>): (r: RequireFailures)
    ensures r.failedResolutions == |failures| && r.failures == failures
    ensures r.status == PassStatus <==> failures == []
  {
    RequireFailures(total, |failures|, failures, if failures == [] then PassStatus else FailStatus)
  }

  /** The number of include/require statements (of any of the four kinds) in `files`. */
  function StatementCount(fs: FileSystem, files: seq<Path>): nat {
    if files == [] then 0
    else StatementCount(fs, files[..|files| - 1]) + |AllMatches(AnyIncludeOpener, Content(fs, files[|files| - 1]), 0)|
  }

  /** Counting one more file adds that file's statements. */
  lemma StatementCountStep(fs: FileSystem, files: seq<Path>, i: nat)
    requires i < |files|
    ensures StatementCount(fs, files[..i + 1]) ==
      StatementCount(fs, files[..i]) + |AllMatches(AnyIncludeOpener, Content(fs, files[i]), 0)|
  {
    assert files[..i + 1][..i] == files[..i];
  }

  /** `countRequireStatements`: sums the statements of every file. */
  method CountRequireStatements(fs: FileSystem, files: seq<Path>) returns (count: nat)
    ensures count == StatementCount(fs, files)
  {
    count := 0;
    var i := 0;
    while i < |files|
      invariant 0 <= i <= |files|
      invariant count == StatementCount(fs, files[..i])
    {
      StatementCountStep(fs, files, i);
      count := count + |AllMatches(AnyIncludeOpener, Content(fs, files[i]), 0)|;
      i := i + 1;
    }
    assert files[..i] == files;
  }

  /** The `.php` files below `dir` in iteration order. */
  function PhpFiles(leaves: seq<Leaf>): seq<Path> {
    if leaves == [] then []
    else
      var last := leaves[|leaves| - 1];
      PhpFiles(leaves[..|leaves| - 1]) + (if Extension(last.name) == "php" then [last.path] else [])
  }

  /** `findPhpFiles`: the recursive iterator's files whose extension is `php`. */
  method FindPhpFiles(dir: Path, listing: seq<Tree>) returns (files: seq<Path>)
    ensures files == PhpFiles(Leaves(dir, "", listing))
  {
    var leaves := Leaves(dir, "", listing);
    files := [];
    var i := 0;
    while i < |leaves|
      invariant 0 <= i <= |leaves|
      invariant files == PhpFiles(leaves[..i])
    {
      assert leaves[..i + 1][..i] == leaves[..i];
      if Extension(leaves[i].name) == "php" {
        files := files + [leaves[i].path];
      }
      i := i + 1;
    }
    assert leaves[..i] == leaves;
  }

  // ---------------------------------------------------------------------
  // Use before definition

  /** A `method_used_before_definition` finding: file, 1-based line, trimmed line. */
  datatype MethodError = MethodError(file: Path, line: nat, context: string)

  /** One of the first `n` lines assigns `$name`. */
  predicate DefinedWithin(lines: seq<string>, name: string, n: nat)
    requires n <= |lines|
  {
    exists j :: 0 <= j < n && Assigns(lines[j], name)
  }

  /**
   * The findings of one file: a line is reported when it uses `$name` and
   * neither it nor an earlier line assigns `$name`.
   */
  function UsesBeforeDefinition(lines: seq<string>, name: string, file: Path): seq<MethodError> {
    if lines == [] then []
    else
      var n := |lines| - 1;
      UsesBeforeDefinition(lines[..n], name, file)
      + (if Uses(lines[n], name) && !DefinedWithin(lines, name, n + 1)
         then [MethodError(file, n + 1, Trim(lines[n]))] else [])
  }

  /** Whether a line before `j` assigns, asked of a prefix that holds line `j - 1`, has the same answer. */
  lemma DefinedWithinPrefix(lines: seq<string>, m: nat, name: string, j: nat)
    requires j <= m <= |lines|
    ensures DefinedWithin(lines[..m], name, j) <==> DefinedWithin(lines, name, j)
  {
    var front := lines[..m];
    if DefinedWithin(lines, name, j) {
      var w :| 0 <= w < j && Assigns(lines[w], name);
      assert front[w] == lines[w];
    }
    if DefinedWithin(front, name, j) {
      var w :| 0 <= w < j && Assigns(front[w], name);
      assert front[w] == lines[w];
    }
  }

  /** Line numbers strictly increase along `es`. */
  predicate Increasing(es: seq<MethodError>) {
    forall k, l :: 0 <= k < l < |es| ==> es[k].line < es[l].line
  }

  /** The reported line numbers are 1-based, within the file and strictly increasing. */
  lemma {:induction false} UsesBeforeDefinitionOrdered(lines: seq<string>, name: string, file: Path)
    ensures forall e :: e in UsesBeforeDefinition(lines, name, file) ==> 1 <= e.line <= |lines| && e.file == file
    ensures Increasing(UsesBeforeDefinition(lines, name, file))
    decreases |lines|
  {
    if lines != [] {
      var n := |lines| - 1;
      UsesBeforeDefinitionOrdered(lines[..n], name, file);
      var es := UsesBeforeDefinition(lines, name, file);
      var fes := UsesBeforeDefinition(lines[..n], name, file);
      assert es[..|fes|] == fes;
      assert |es| > |fes| ==> |es| == |fes| + 1 && es[|fes|].line == n + 1;
    }
  }

  /** `e` reports a line of `lines` that uses `$name` with no assignment at or before it. */
  predicate Reported(lines: seq<string>, name: string, e: MethodError) {
    && 1 <= e.line <= |lines|
    && e.context == Trim(lines[e.line - 1])
    && Uses(lines[e.line - 1], name)
    && !DefinedWithin(lines, name, e.line)
  }

  /** A finding about a prefix is a finding about the whole file. */
  lemma ReportedExtends(lines: seq<string>, m: nat, name: string, e: MethodError)
    requires m <= |lines| && Reported(lines[..m], name, e)
    ensures Reported(lines, name, e)
  {
    assert lines[..m][e.line - 1] == lines[e.line - 1];
    DefinedWithinPrefix(lines, m, name, e.line);
  }

  /** Every reported line uses `$name` and neither it nor an earlier line assigns it. */
  lemma {:induction false} UsesBeforeDefinitionSound(lines: seq<string>, name: string, file: Path)
    ensures forall e :: e in UsesBeforeDefinition(lines, name, file) ==> Reported(lines, name, e)
    decreases |lines|
  {
    if lines != [] {
      var n := |lines| - 1;
      var front := lines[..n];
      UsesBeforeDefinitionSound(front, name, file);
      forall e | e in UsesBeforeDefinition(front, name, file) ensures Reported(lines, name, e) {
        ReportedExtends(lines, n, name, e);
      }
    }
  }

  /** Every line that uses `$name` with no assignment at or before it is reported. */
  lemma {:induction false} UsesBeforeDefinitionComplete(lines: seq<string>, name: string, file: Path, i: nat)
    requires i < |lines| && Uses(lines[i], name) && !DefinedWithin(lines, name, i + 1)
    ensures exists k ::
      0 <= k < |UsesBeforeDefinition(lines, name, file)| && UsesBeforeDefinition(lines, name, file)[k].line == i + 1
    decreases |lines|
  {
    var n := |lines| - 1;
    var es := UsesBeforeDefinition(lines, name, file);
    if i < n {
      var front := lines[..n];
      assert front[i] == lines[i];
      DefinedWithinPrefix(lines, n, name, i + 1);
      UsesBeforeDefinitionComplete(front, name, file, i);
      var fes := UsesBeforeDefinition(front, name, file);
      var k :| 0 <= k < |fes| && fes[k].line == i + 1;
      assert es[k] == fes[k];
    } else {
      assert es[|es| - 1].line == n + 1;
    }
  }

  /** Once a line assigns `$name`, no line at or after it is ever reported. */
  lemma NothingReportedAfterDefinition(lines: seq<string>, name: string, file: Path, d: nat)
    requires d < |lines| && Assigns(lines[d], name)
    ensures forall e :: e in UsesBeforeDefinition(lines, name, file) ==> e.line <= d
  {
    UsesBeforeDefinitionSound(lines, name, file);
    forall e | e in UsesBeforeDefinition(lines, name, file) ensures e.line <= d {
      assert Reported(lines, name, e);
    }
  }

  /**
   * The per-file scan of `testUndefinedMethodErrors`: a `defined` flag,
   * false at the start of each file, set by the first line that assigns;
   * each using line met while the flag is clear is reported.
   */
  method MethodErrorsIn(lines: seq<string>, name: string, file: Path) returns (errors: seq<MethodError>)
    ensures errors == UsesBeforeDefinition(lines, name, file)
  {
    var defined := false;
    errors := [];
    var i := 0;
    while i < |lines|
      invariant 0 <= i <= |lines|
      invariant defined <==> DefinedWithin(lines, name, i)
      invariant errors == UsesBeforeDefinition(lines[..i], name, file)
    {
      var line := lines[i];
      MethodErrorsStep(lines, name, file, i);
      if Assigns(line, name) {
        defined := true;
      }
      if Uses(line, name) && !defined {
        errors := errors + [MethodError(file, i + 1, Trim(line))];
      }
      i := i + 1;
    }
    assert lines[..i] == lines;
  }

  /** One line of the scan: the flag gains that line's assignment, and the findings that line's report. */
  lemma MethodErrorsStep(lines: seq<string>, name: string, file: Path, i: nat)
    requires i < |lines|
    ensures DefinedWithin(lines, name, i + 1) <==> DefinedWithin(lines, name, i) || Assigns(lines[i], name)
    ensures UsesBeforeDefinition(lines[..i + 1], name, file) ==
      UsesBeforeDefinition(lines[..i], name, file)
      + (if Uses(lines[i], name) && !DefinedWithin(lines, name, i + 1)
         then [MethodError(file, i + 1, Trim(lines[i]))] else [])
  {
    var prefix := lines[..i + 1];
    assert prefix[..i] == lines[..i];
    assert prefix[i] == lines[i];
    DefinedWithinPrefix(lines, i + 1, name, i + 1);
    if Assigns(lines[i], name) {
      assert DefinedWithin(lines, name, i + 1);
    }
  }

  /** The findings of the `$method` scan over all files, each file scanned afresh. */
  function AllMethodErrors(fs: FileSystem, files: seq<Path>): seq<MethodError> {
    if files == [] then []
    else
      var f := files[|files| - 1];
      AllMethodErrors(fs, files[..|files| - 1])
      + UsesBeforeDefinition(Split(Content(fs, f), '\n'), MethodBinding, ReplaceAll(f, BasePath, ""))
  }

  /** The `undefined_method` category. */
  datatype UndefinedMethod = UndefinedMethod(totalErrors: nat, errors: seq<MethodError>, status: Verdict)

  // ---------------------------------------------------------------------
  // Routing scenarios

  const RoutingScenarios: seq<Path> := ["/backend/admin", "/backend/api/pages", "/backend/config/config.php"]

  datatype RoutingEntry = DirectoryCase(hasIndex: bool) | FileCase | MissingCase

  /** PASS for a directory with an index or an existing file. */
  predicate RoutingPasses(e: RoutingEntry) {
    (e.DirectoryCase? && e.hasIndex) || e.FileCase?
  }

  /** The `routing_errors` entry of `url`. */
  function RoutingCheck(fs: FileSystem, url: Path): (r: RoutingEntry)
    ensures r.DirectoryCase? <==> IsDir(fs, BasePath + url)
    ensures r.MissingCase? <==> !Exists(fs, BasePath + url)
    ensures RoutingPasses(r) <==>
      if IsDir(fs, BasePath + url) then Exists(fs, BasePath + url + "/index.php")
      else Exists(fs, BasePath + url)
  {
    var p := BasePath + url;
    if IsDir(fs, p) then DirectoryCase(Exists(fs, p + "/index.php"))
    else if Exists(fs, p) then FileCase
    else MissingCase
  }

  // ---------------------------------------------------------------------
  // Report

  datatype ErrorStatus = NoCriticalErrors | MinorIssues | CriticalErrors

  datatype ErrorReport = ErrorReport(total500: nat, problematic500: nat, requireFailures: nat,
                                     methodErrors: nat, totalErrors: nat, status: ErrorStatus)

  /** The number of 500 sources whose status is not PASS. */
  function Problematic(entries: seq<(Path, Source500)>): (n: nat)
    ensures n <= |entries|
    ensures n == 0 <==> forall k :: 0 <= k < |entries| ==> entries[k].1.Analysed? && entries[k].1.status == Pass
  {
    if entries == [] then 0
    else
      var clean := entries[0].1.Analysed? && entries[0].1.status == Pass;
      Problematic(entries[1..]) + (if clean then 0 else 1)
  }

  /**
   * `generateErrorReport`: total = problematic 500 sources + require
   * failures + `$method` errors (an absent category counts 0), and the
   * status is "no critical errors" at 0, "minor" up to 5, "critical" above.
   */
  function Summarize(errors500: seq<(Path, Source500)>, rf: Option<RequireFailures>, um: Option<UndefinedMethod>): (r: ErrorReport)
    ensures r.total500 == |errors500| && r.problematic500 == Problematic(errors500)
    ensures r.requireFailures == (if rf.Some? then rf.value.failedResolutions else 0)
    ensures r.methodErrors == (if um.Some? then um.value.totalErrors else 0)
    ensures r.totalErrors == r.problematic500 + r.requireFailures + r.methodErrors
    ensures r.status == NoCriticalErrors <==>
      (forall k :: 0 <= k < |errors500| ==> errors500[k].1.Analysed? && errors500[k].1.status == Pass)
      && r.requireFailures == 0 && r.methodErrors == 0
    ensures r.status == MinorIssues <==> 0 < r.totalErrors <= 5
    ensures r.status == CriticalErrors <==> r.totalErrors > 5
  {
    var p := Problematic(errors500);
    var f := if rf.Some? then rf.value.failedResolutions else 0;
    var m := if um.Some? then um.value.totalErrors else 0;
    var total := p + f + m;
    ErrorReport(|errors500|, p, f, m, total,
      if total == 0 then NoCriticalErrors else if total <= 5 then MinorIssues else CriticalErrors)
  }

  /** The simulator's pass over the `require_once` matches of one file. */
  method FileRequireFailures(fs: FileSystem, file: Path) returns (failures: seq<RequireFailure>)
    ensures failures == FileFailures(fs, file)
  {
    var ms := AllMatches(RequireOnceLoose, Content(fs, file), 0);
    failures := [];
    var j := 0;
    while j < |ms|
      invariant 0 <= j <= |ms|
      invariant failures == MatchFailures(fs, file, ms[..j])
    {
      var m := ms[j];
      assert ms[..j + 1][..j] == ms[..j] && ms[..j + 1][j] == m;
      var winner := Resolve(fs, ResolutionAttempts(file, m.capture));
      if winner.None? {
        failures := failures + [FailureRecord(file, m)];
      }
      j := j + 1;
    }
    assert ms[..j] == ms;
  }

  /** The simulator's pass over all files, in order. */
  method CollectRequireFailures(fs: FileSystem, files: seq<Path>) returns (failures: seq<RequireFailure>)
    ensures failures == AllFailures(fs, files)
  {
    failures := [];
    var i := 0;
    while i < |files|
      invariant 0 <= i <= |files|
      invariant failures == AllFailures(fs, files[..i])
    {
      var found := FileRequireFailures(fs, files[i]);
      failures := failures + found;
      assert files[..i + 1][..i] == files[..i];
      i := i + 1;
    }
    assert files[..i] == files;
  }

  /** The `$method` scan of all files, each with its own `defined` flag. */
  method CollectMethodErrors(fs: FileSystem, files: seq<Path>) returns (errors: seq<MethodError>)
    ensures errors == AllMethodErrors(fs, files)
  {
    errors := [];
    var i := 0;
    while i < |files|
      invariant 0 <= i <= |files|
      invariant errors == AllMethodErrors(fs, files[..i])
    {
      var file := files[i];
      var found := MethodErrorsIn(Split(Content(fs, file), '\n'), MethodBinding, ReplaceAll(file, BasePath, ""));
      errors := errors + found;
      assert files[..i + 1][..i] == files[..i];
      i := i + 1;
    }
    assert files[..i] == files;
  }

  /** The checker and the results it accumulates. */
  class ErrorReproducer {
    var errors500: seq<(Path, Source500)>
    var requireFailures: Option<RequireFailures>
    var undefinedMethod: Option<UndefinedMethod>
    var routingErrors: seq<(Path, RoutingEntry)>

    constructor ()
      ensures errors500 == [] && requireFailures == None && undefinedMethod == None && routingErrors == []
    {
      errors500 := [];
      requireFailures := None;
      undefinedMethod := None;
      routingErrors := [];
    }

    /** `test500Errors`: one entry per potential source, in order. */
    method Test500Errors(fs: FileSystem)
      modifies this
      ensures |errors500| == |Potential500Sources|
      ensures forall k :: 0 <= k < |errors500| ==>
        errors500[k] == (Potential500Sources[k], Check500Source(fs, Potential500Sources[k]))
      ensures requireFailures == old(requireFailures) && undefinedMethod == old(undefinedMethod)
      ensures routingErrors == old(routingErrors)
    {
      var entries: seq<(Path, Source500)> := [];
      var i := 0;
      while i < |Potential500Sources|
        invariant 0 <= i <= |Potential500Sources|
        invariant |entries| == i
        invariant forall k :: 0 <= k < i ==> entries[k] == (Potential500Sources[k], Check500Source(fs, Potential500Sources[k]))
      {
        var file := Potential500Sources[i];
        var full := BasePath + file;
        if !Exists(fs, full) {
          entries := entries + [(file, NotFound)];
        } else {
          var issues := SourceIssues(fs, full, Content(fs, full));
          entries := entries + [(file, Analysed(issues, |issues|, if issues == [] then Pass else Potential500))];
        }
        i := i + 1;
      }
      errors500 := entries;
    }

    /** `testRequireOnceFailures`: every unresolvable `require_once` of the tree. */
    method TestRequireOnceFailures(fs: FileSystem, listing: seq<Tree>)
      modifies this
      ensures requireFailures == Some(RequireFailuresRecord(
        StatementCount(fs, PhpFiles(Leaves(BasePath, "", listing))),
        AllFailures(fs, PhpFiles(Leaves(BasePath, "", listing)))))
      ensures errors500 == old(errors500) && undefinedMethod == old(undefinedMethod)
      ensures routingErrors == old(routingErrors)
    {
      var files := FindPhpFiles(BasePath, listing);
      var failures := CollectRequireFailures(fs, files);
      var total := CountRequireStatements(fs, files);
      requireFailures := Some(RequireFailures(total, |failures|, failures, if failures == [] then PassStatus else FailStatus));
    }

    /** `testUndefinedMethodErrors`: the `$method` scan of every `.php` file. */
    method TestUndefinedMethodErrors(fs: FileSystem, listing: seq<Tree>)
      modifies this
      ensures var errors := AllMethodErrors(fs, PhpFiles(Leaves(BasePath, "", listing)));
        undefinedMethod == Some(UndefinedMethod(|errors|, errors, if errors == [] then PassStatus else FailStatus))
      ensures errors500 == old(errors500) && requireFailures == old(requireFailures)
      ensures routingErrors == old(routingErrors)
    {
      var files := FindPhpFiles(BasePath, listing);
      var errors := CollectMethodErrors(fs, files);
      undefinedMethod := Some(UndefinedMethod(|errors|, errors, if errors == [] then PassStatus else FailStatus));
    }

    /** `testRoutingErrors`: one entry per scenario, in order. */
    method TestRoutingErrors(fs: FileSystem)
      modifies this
      ensures |routingErrors| == |RoutingScenarios|
      ensures forall k :: 0 <= k < |routingErrors| ==>
        routingErrors[k] == (RoutingScenarios[k], RoutingCheck(fs, RoutingScenarios[k]))
      ensures errors500 == old(errors500) && requireFailures == old(requireFailures)
      ensures undefinedMethod == old(undefinedMethod)
    {
      var entries: seq<(Path, RoutingEntry)> := [];
      var i := 0;
      while i < |RoutingScenarios|
        invariant 0 <= i <= |RoutingScenarios|
        invariant |entries| == i
        invariant forall k :: 0 <= k < i ==> entries[k] == (RoutingScenarios[k], RoutingCheck(fs, RoutingScenarios[k]))
      {
        var url := RoutingScenarios[i];
        var p := BasePath + url;
        var entry;
        if IsDir(fs, p) {
          entry := DirectoryCase(Exists(fs, p + "/index.php"));
        } else if Exists(fs, p) {
          entry := FileCase;
        } else {
          entry := MissingCase;
        }
        entries := entries + [(url, entry)];
        i := i + 1;
      }
      routingErrors := entries;
    }

    /** `generateErrorReport`, over the results gathered so far. */
    method GenerateErrorReport() returns (report: ErrorReport)
      ensures report == Summarize(errors500, requireFailures, undefinedMethod)
    {
      report := Summarize(errors500, requireFailures, undefinedMethod);
    }

    /** `reproduceReportedErrors`: the four tests in order, then the report. */
    method ReproduceReportedErrors(fs: FileSystem, listing: seq<Tree>) returns (report: ErrorReport)
      modifies this
      ensures |errors500| == 3 && |routingErrors| == 3
      ensures forall k :: 0 <= k < |errors500| ==>
        errors500[k] == (Potential500Sources[k], Check500Source(fs, Potential500Sources[k]))
      ensures requireFailures == Some(RequireFailuresRecord(
        StatementCount(fs, PhpFiles(Leaves(BasePath, "", listing))),
        AllFailures(fs, PhpFiles(Leaves(BasePath, "", listing)))))
      ensures var errors := AllMethodErrors(fs, PhpFiles(Leaves(BasePath, "", listing)));
        undefinedMethod == Some(UndefinedMethod(|errors|, errors, if errors == [] then PassStatus else FailStatus))
      ensures forall k :: 0 <= k < |routingErrors| ==>
        routingErrors[k] == (RoutingScenarios[k], RoutingCheck(fs, RoutingScenarios[k]))
      ensures report == Summarize(errors500, requireFailures, undefinedMethod)
    {
      Test500Errors(fs);
      TestRequireOnceFailures(fs, listing);
      TestUndefinedMethodErrors(fs, listing);
      TestRoutingErrors(fs);
      report := GenerateErrorReport();
    }
  }
}
