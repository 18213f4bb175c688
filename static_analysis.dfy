/**
 * The static include analyser (audit/static-code-analysis.php): walks the
 * deployed tree, records every include/require line of each `.php` file with
 * the risks of its path and every suspicious `$method` line, counts the
 * problematic includes, matches include paths against a table of known
 * problem patterns and classifies the tree.
 */
module StaticAnalysis {
  import opened Wrappers
  import opened Strings
  import opened Paths
  import opened Patterns
  import opened Scoring

  const BasePath: Path := "../public_html"

  // ---------------------------------------------------------------------
  // Include type and path risks

  datatype IncludeType = RequireOnce | Require | IncludeOnce | Include | Unknown

  /** `getIncludeType`: the first of the four keywords the line contains, checked in this order. */
  function GetIncludeType(line: string): IncludeType {
    if Contains(line, "require_once") then RequireOnce
    else if Contains(line, "require") then Require
    else if Contains(line, "include_once") then IncludeOnce
    else if Contains(line, "include") then Include
    else Unknown
  }

  /**
   * Each type is chosen exactly when its keyword is present and no earlier
   * one is; `require_once` implies `require`, so the tests collapse.
   */
  lemma GetIncludeTypeSpec(line: string)
    ensures var t := GetIncludeType(line);
      && (t == RequireOnce <==> Contains(line, "require_once"))
      && (t == Require <==> Contains(line, "require") && !Contains(line, "require_once"))
      && (t == IncludeOnce <==> !Contains(line, "require") && Contains(line, "include_once"))
      && (t == Include <==>
            !Contains(line, "require") && !Contains(line, "include_once") && Contains(line, "include"))
      && (t == Unknown <==> !Contains(line, "require") && !Contains(line, "include"))
  {
    assert "require" + "_once" == "require_once";
    assert "include" + "_once" == "include_once";
    if Contains(line, "require_once") {
      ContainsPrefix(line, "require", "_once");
    }
    if Contains(line, "include_once") {
      ContainsPrefix(line, "include", "_once");
    }
  }

  /** A line on which the include pattern matches always has a known type. */
  lemma MatchedLineHasType(line: string)
    requires FirstMatch(AnyInclude, line, 0).Some?
    ensures GetIncludeType(line) != Unknown
  {
    IncludeMatchHasKeyword(AnyInclude, line, FirstMatch(AnyInclude, line, 0).value.start);
    GetIncludeTypeSpec(line);
  }

  datatype IncludeIssue = RelativePathTraversal | MissingDirConstant | FileNotFound

  /** The position of each issue in the order `checkIncludePath` tests them. */
  function IssueRank(i: IncludeIssue): nat {
    match i
    case RelativePathTraversal => 0
    case MissingDirConstant => 1
    case FileNotFound => 2
  }

  /**
   * The test `checkIncludePath` applies for each issue: traversal iff the
   * path starts with `../`; missing `__DIR__` iff `__DIR__` is absent or at
   * position 0 (the test is PHP's falsy `!strpos`) and the path does not
   * start with `/`; not found iff the path is missing next to the including
   * file.
   */
  predicate Raises(fs: FileSystem, includePath: string, currentFile: Path, issue: IncludeIssue) {
    match issue
    case RelativePathTraversal => Find(includePath, "../") == Some(0)
    case MissingDirConstant =>
      var dirPos := Find(includePath, "__DIR__");
      (dirPos.None? || dirPos == Some(0)) && Find(includePath, "/") != Some(0)
    case FileNotFound => !Exists(fs, Dirname(currentFile) + "/" + includePath)
  }

  /** The order in which `checkIncludePath` runs its tests. */
  const IssueOrder: seq<IncludeIssue> := [RelativePathTraversal, MissingDirConstant, FileNotFound]

  /** `checkIncludePath`: the issues whose tests fire, in test order. */
  function CheckIncludePath(fs: FileSystem, includePath: string, currentFile: Path): seq<IncludeIssue> {
    Filter((issue: IncludeIssue) => Raises(fs, includePath, currentFile, issue), IssueOrder)
  }

  /** Each issue is reported exactly when its condition holds. */
  lemma CheckIncludePathSpec(fs: FileSystem, includePath: string, currentFile: Path)
    ensures var r := CheckIncludePath(fs, includePath, currentFile);
      && (RelativePathTraversal in r <==> StartsWith(includePath, "../"))
      && (MissingDirConstant in r <==>
            (Find(includePath, "__DIR__").None? || Find(includePath, "__DIR__") == Some(0))
            && !StartsWith(includePath, "/"))
      && (FileNotFound in r <==> !Exists(fs, Dirname(currentFile) + "/" + includePath))
      && |r| <= 3
  {
    FindZeroIffStartsWith(includePath, "../");
    FindZeroIffStartsWith(includePath, "/");
    var raised := (issue: IncludeIssue) => Raises(fs, includePath, currentFile, issue);
    FilterMember(raised, IssueOrder, RelativePathTraversal);
    FilterMember(raised, IssueOrder, MissingDirConstant);
    FilterMember(raised, IssueOrder, FileNotFound);
  }

  /** The issues come in test order, each at most once. */
  lemma CheckIncludePathOrdered(fs: FileSystem, includePath: string, currentFile: Path)
    ensures var r := CheckIncludePath(fs, includePath, currentFile);
      forall i, j :: 0 <= i < j < |r| ==> IssueRank(r[i]) < IssueRank(r[j])
  {
    var raised := (issue: IncludeIssue) => Raises(fs, includePath, currentFile, issue);
    var rank := (issue: IncludeIssue) => IssueRank(issue);
    assert StrictlyRanked(rank, IssueOrder);
    FilterRanked(raised, rank, IssueOrder);
  }

  /** A `../` path is always flagged twice over unless it names `__DIR__` later on. */
  lemma TraversalIsAlsoUnanchored(fs: FileSystem, includePath: string, currentFile: Path)
    requires StartsWith(includePath, "../") && !Contains(includePath, "__DIR__")
    ensures var r := CheckIncludePath(fs, includePath, currentFile);
      |r| >= 2 && r[0] == RelativePathTraversal && r[1] == MissingDirConstant
  {
    FindZeroIffStartsWith(includePath, "../");
    FindZeroIffStartsWith(includePath, "/");
    assert includePath[0] == '.';
    assert Raises(fs, includePath, currentFile, RelativePathTraversal);
    assert Raises(fs, includePath, currentFile, MissingDirConstant);
    var raised := (issue: IncludeIssue) => Raises(fs, includePath, currentFile, issue);
    var rest := IssueOrder[1..];
    assert rest == [MissingDirConstant, FileNotFound] && rest[1..] == [FileNotFound];
    assert Filter(raised, rest)[0] == MissingDirConstant;
  }

  // ---------------------------------------------------------------------
  // Per-file analysis

  /** One recorded include: 1-based line, trimmed statement, captured path, type and risks. */
  datatype IncludeRecord = IncludeRecord(line: nat, statement: string, path: string,
                                         kind: IncludeType, potentialIssue: seq<IncludeIssue>)

  /** One `undefined_variable` finding for `$method`: 1-based line and trimmed line. */
  datatype VariableIssue = VariableIssue(line: nat, context: string)

  datatype FileAnalysis = FileAnalysis(path: Path, fullPath: Path, size: nat, includes: seq<IncludeRecord>,
                                       potentialIssues: seq<VariableIssue>, lineCount: nat)

  /** The include recorded for the line with 0-based index `n`, if any: only the first match counts. */
  function LineInclude(fs: FileSystem, file: Path, n: nat, raw: string): (r: Option<IncludeRecord>)
    ensures r.Some? ==> r.value.line == n + 1 && r.value.statement == Trim(raw)
  {
    var line := Trim(raw);
    match FirstMatch(AnyInclude, line, 0)
    case None => None
    case Some(m) => Some(IncludeRecord(n + 1, line, m.capture, GetIncludeType(line), CheckIncludePath(fs, m.capture, file)))
  }

  /** What a recorded include says about its line: a known type, a quote-free path, its risks. */
  lemma RecordedIncludeFacts(fs: FileSystem, file: Path, n: nat, raw: string)
    requires LineInclude(fs, file, n, raw).Some?
    ensures var r := LineInclude(fs, file, n, raw).value;
      && r.kind != Unknown
      && r.path != [] && (forall c :: c in r.path ==> !IsQuote(c))
      && r.potentialIssue == CheckIncludePath(fs, r.path, file)
  {
    var line := Trim(raw);
    var m := FirstMatch(AnyInclude, line, 0).value;
    MatchedLineHasType(line);
    MatchAtCapture(AnyInclude, line, m.start);
  }

  /** The `$method` finding for the line with 0-based index `n`, if any. */
  function LineVariableIssue(n: nat, raw: string): Option<VariableIssue> {
    var line := Trim(raw);
    if Contains(line, "$method") && !Assigns(line, "method") then Some(VariableIssue(n + 1, line)) else None
  }

  /** A line is flagged iff, trimmed, it mentions `$method` and does not assign it. */
  lemma LineVariableIssueMeaning(n: nat, raw: string)
    ensures LineVariableIssue(n, raw).Some? <==> Contains(Trim(raw), "$method") && !Assigns(Trim(raw), "method")
    ensures LineVariableIssue(n, raw).Some? ==> LineVariableIssue(n, raw).value == VariableIssue(n + 1, Trim(raw))
  {
  }

  /** The per-line include results of a file, one per line. */
  function LineIncludes(fs: FileSystem, file: Path, lines: seq<string>): (xs: seq<Option<IncludeRecord>>)
    ensures |xs| == |lines|
  {
    MapIndexed((n: nat, raw: string) => LineInclude(fs, file, n, raw), lines)
  }

  lemma LineIncludesAt(fs: FileSystem, file: Path, lines: seq<string>, i: nat)
    requires i < |lines|
    ensures LineIncludes(fs, file, lines)[i] == LineInclude(fs, file, i, lines[i])
  {
    MapIndexedAt((n: nat, raw: string) => LineInclude(fs, file, n, raw), lines, i);
  }

  /** The per-line `$method` findings of a file, one per line. */
  function LineVariableIssues(lines: seq<string>): (xs: seq<Option<VariableIssue>>)
    ensures |xs| == |lines|
  {
    MapIndexed(LineVariableIssue, lines)
  }

  /** The includes of a file, line by line. */
  function IncludesOf(fs: FileSystem, file: Path, lines: seq<string>): seq<IncludeRecord> {
    Present(LineIncludes(fs, file, lines))
  }

  /** The `$method` findings of a file, line by line. */
  function VariableIssuesOf(lines: seq<string>): seq<VariableIssue> {
    Present(LineVariableIssues(lines))
  }

  /** The `k`-th recorded include sits on the line after the `k`-th hit position. */
  lemma IncludesOfLine(fs: FileSystem, file: Path, lines: seq<string>, k: nat)
    requires k < |IncludesOf(fs, file, lines)|
    ensures var xs := LineIncludes(fs, file, lines); var i := PresentIndices(xs)[k];
      && i < |lines| && IncludesOf(fs, file, lines)[k].line == i + 1
      && LineInclude(fs, file, i, lines[i]) == Some(IncludesOf(fs, file, lines)[k])
  {
    var xs := LineIncludes(fs, file, lines);
    PresentIndexHit(xs, k);
    LineIncludesAt(fs, file, lines, PresentIndices(xs)[k]);
  }

  /** Each recorded include is the one found on its own (1-based) line. */
  lemma IncludesOfSound(fs: FileSystem, file: Path, lines: seq<string>, k: nat)
    requires k < |IncludesOf(fs, file, lines)|
    ensures var r := IncludesOf(fs, file, lines)[k];
      1 <= r.line <= |lines| && LineInclude(fs, file, r.line - 1, lines[r.line - 1]) == Some(r)
  {
    IncludesOfLine(fs, file, lines, k);
  }

  /** The recorded includes come in strictly increasing line order, so at most one per line. */
  lemma IncludesOfOrdered(fs: FileSystem, file: Path, lines: seq<string>, k: nat, l: nat)
    requires k < l < |IncludesOf(fs, file, lines)|
    ensures IncludesOf(fs, file, lines)[k].line < IncludesOf(fs, file, lines)[l].line
  {
    IncludesOfLine(fs, file, lines, k);
    IncludesOfLine(fs, file, lines, l);
    PresentIndicesIncrease(LineIncludes(fs, file, lines), k, l);
  }

  /** Every line on which the pattern matches contributes its include. */
  lemma IncludesOfComplete(fs: FileSystem, file: Path, lines: seq<string>, i: nat)
    requires i < |lines| && LineInclude(fs, file, i, lines[i]).Some?
    ensures LineInclude(fs, file, i, lines[i]).value in IncludesOf(fs, file, lines)
  {
    LineIncludesAt(fs, file, lines, i);
    PresentHas(LineIncludes(fs, file, lines), i);
  }

  /** Each finding is a trimmed line that mentions `$method` without assigning it. */
  lemma VariableIssuesOfSound(lines: seq<string>, k: nat)
    requires k < |VariableIssuesOf(lines)|
    ensures var v := VariableIssuesOf(lines)[k];
      && 1 <= v.line <= |lines| && v.context == Trim(lines[v.line - 1])
      && Contains(v.context, "$method") && !Assigns(v.context, "method")
  {
    var xs := LineVariableIssues(lines);
    PresentIndexHit(xs, k);
    var i := PresentIndices(xs)[k];
    MapIndexedAt(LineVariableIssue, lines, i);
    LineVariableIssueMeaning(i, lines[i]);
  }

  /** The findings come in strictly increasing line order. */
  lemma VariableIssuesOfOrdered(lines: seq<string>, k: nat, l: nat)
    requires k < l < |VariableIssuesOf(lines)|
    ensures VariableIssuesOf(lines)[k].line < VariableIssuesOf(lines)[l].line
  {
    var xs := LineVariableIssues(lines);
    PresentIndexHit(xs, k);
    PresentIndexHit(xs, l);
    PresentIndicesIncrease(xs, k, l);
    var i, j := PresentIndices(xs)[k], PresentIndices(xs)[l];
    MapIndexedAt(LineVariableIssue, lines, i);
    MapIndexedAt(LineVariableIssue, lines, j);
    LineVariableIssueMeaning(i, lines[i]);
    LineVariableIssueMeaning(j, lines[j]);
  }

  /** Every trimmed line that mentions `$method` without assigning it is reported. */
  lemma VariableIssuesOfComplete(lines: seq<string>, i: nat)
    requires i < |lines| && Contains(Trim(lines[i]), "$method") && !Assigns(Trim(lines[i]), "method")
    ensures VariableIssue(i + 1, Trim(lines[i])) in VariableIssuesOf(lines)
  {
    LineVariableIssueMeaning(i, lines[i]);
    MapIndexedAt(LineVariableIssue, lines, i);
    PresentHas(LineVariableIssues(lines), i);
  }

  /** `analyzePhpFile` for an existing file: its lines, includes and findings. */
  function FileAnalysisOf(fs: FileSystem, fullPath: Path, rel: Path): FileAnalysis
    requires Exists(fs, fullPath)
  {
    var lines := Split(Content(fs, fullPath), '\n');
    FileAnalysis(rel, fullPath, MetaOf(fs, fullPath).size, IncludesOf(fs, fullPath, lines),
                 VariableIssuesOf(lines), |lines|)
  }

  /**
   * `analyzePhpFile`: nothing for a missing file; otherwise the content is
   * split into lines, each line is examined on its own, and one pass over the
   * lines keeps the includes and the `$method` findings, in line order.
   */
  method AnalyzePhpFile(fs: FileSystem, fullPath: Path, rel: Path) returns (r: Option<FileAnalysis>)
    ensures r.None? <==> !Exists(fs, fullPath)
    ensures r.Some? ==> r.value == FileAnalysisOf(fs, fullPath, rel)
  {
    if !Exists(fs, fullPath) {
      return None;
    }
    var lines := Split(Content(fs, fullPath), '\n');
    var found := LineIncludes(fs, fullPath, lines);
    var flagged := LineVariableIssues(lines);
    var includes, issues := CollectHits(found, flagged);
    r := Some(FileAnalysis(rel, fullPath, MetaOf(fs, fullPath).size, includes, issues, |lines|));
  }

  /** The analysis a walked leaf contributes: only an existing `.php` file has one. */
  function LeafAnalysis(fs: FileSystem, l: Leaf): Option<FileAnalysis> {
    if Extension(l.name) == "php" && Exists(fs, l.path) then Some(FileAnalysisOf(fs, l.path, l.rel)) else None
  }

  /** The analyses `scanDirectory` appends for the walked leaves, in walk order. */
  function PhpAnalyses(fs: FileSystem, leaves: seq<Leaf>): seq<FileAnalysis> {
    Present(Map((l: Leaf) => LeafAnalysis(fs, l), leaves))
  }

  lemma PhpAnalysesAppend(fs: FileSystem, a: seq<Leaf>, b: seq<Leaf>)
    ensures PhpAnalyses(fs, a + b) == PhpAnalyses(fs, a) + PhpAnalyses(fs, b)
  {
    var f := (l: Leaf) => LeafAnalysis(fs, l);
    MapAppend(f, a, b);
    PresentAppend(Map(f, a), Map(f, b));
  }

  /** What `scanDirectory` appends for one entry of the listing of `dir`. */
  function ScanEntry(fs: FileSystem, dir: Path, rel: Path, e: Tree): seq<FileAnalysis>
    decreases e, 1
  {
    if IsDot(e.name) then []
    else match e
      case File(n) =>
        if Extension(n) == "php" && Exists(fs, dir + "/" + n) then [FileAnalysisOf(fs, dir + "/" + n, rel + "/" + n)]
        else []
      case Dir(n, es) => Scan(fs, dir + "/" + n, rel + "/" + n, es)
  }

  /** What `scanDirectory` appends for the listing `entries` of `dir`, entry by entry. */
  function Scan(fs: FileSystem, dir: Path, rel: Path, entries: seq<Tree>): seq<FileAnalysis>
    decreases entries, 0
  {
    if entries == [] then []
    else Scan(fs, dir, rel, entries[..|entries| - 1]) + ScanEntry(fs, dir, rel, entries[|entries| - 1])
  }

  /** One entry's share of the walk is the analysis of that entry's own leaves. */
  lemma {:induction false} ScanEntryMeaning(fs: FileSystem, dir: Path, rel: Path, e: Tree)
    ensures ScanEntry(fs, dir, rel, e) == PhpAnalyses(fs, Leaves(dir, rel, [e]))
    decreases e, 1
  {
    LeavesOne(dir, rel, e);
    if !IsDot(e.name) {
      match e
      case File(n) =>
        assert [Leaf(dir + "/" + n, rel + "/" + n, n)][..0] == [];
      case Dir(n, es) =>
        ScanMeaning(fs, dir + "/" + n, rel + "/" + n, es);
    }
  }

  /**
   * The walk appends exactly the analyses of the existing `.php` leaves the
   * depth-first walk meets, in walk order.
   */
  lemma {:induction false} ScanMeaning(fs: FileSystem, dir: Path, rel: Path, entries: seq<Tree>)
    ensures Scan(fs, dir, rel, entries) == PhpAnalyses(fs, Leaves(dir, rel, entries))
    decreases entries, 0
  {
    if entries != [] {
      var n := |entries| - 1;
      var front, e := entries[..n], entries[n];
      assert entries == front + [e];
      ScanMeaning(fs, dir, rel, front);
      ScanEntryMeaning(fs, dir, rel, e);
      LeavesAppend(dir, rel, front, [e]);
      PhpAnalysesAppend(fs, Leaves(dir, rel, front), Leaves(dir, rel, [e]));
    }
  }

  /** A listed file: analysed when its name ends in `.php` and it can be read. */
  method ScanFile(fs: FileSystem, dir: Path, rel: Path, n: string) returns (here: seq<FileAnalysis>)
    requires !IsDot(n)
    ensures here == ScanEntry(fs, dir, rel, File(n))
  {
    here := [];
    if Extension(n) == "php" {
      var a := AnalyzePhpFile(fs, dir + "/" + n, rel + "/" + n);
      if a.Some? {
        here := [a.value];
      }
    }
  }

  /**
   * `scanDirectory` over one listing: every entry except `.` and `..`;
   * directories are walked recursively where they stand, `.php` files
   * analysed. Returns what the walk appends, in order.
   */
  method ScanListing(fs: FileSystem, dir: Path, rel: Path, entries: seq<Tree>) returns (found: seq<FileAnalysis>)
    ensures found == Scan(fs, dir, rel, entries)
    decreases entries
  {
    found := [];
    var i := 0;
    while i < |entries|
      invariant 0 <= i <= |entries|
      invariant found == Scan(fs, dir, rel, entries[..i])
    {
      var e := entries[i];
      assert entries[..i + 1][..i] == entries[..i];
      var here: seq<FileAnalysis> := [];
      if !IsDot(e.name) {
        match e
        case Dir(n, es) =>
          here := ScanListing(fs, dir + "/" + n, rel + "/" + n, es);
        case File(n) =>
          here := ScanFile(fs, dir, rel, n);
      }
      found := found + here;
      i := i + 1;
    }
    assert entries[..i] == entries;
  }

  /** Each analysed file is a walked, existing `.php` leaf, analysed from its own path; leaf order is kept. */
  lemma PhpAnalysesSound(fs: FileSystem, leaves: seq<Leaf>, k: nat)
    requires k < |PhpAnalyses(fs, leaves)|
    ensures var xs := Map((l: Leaf) => LeafAnalysis(fs, l), leaves); var i := PresentIndices(xs)[k];
      && i < |leaves| && Extension(leaves[i].name) == "php" && Exists(fs, leaves[i].path)
      && PhpAnalyses(fs, leaves)[k] == FileAnalysisOf(fs, leaves[i].path, leaves[i].rel)
  {
    var f := (l: Leaf) => LeafAnalysis(fs, l);
    var xs := Map(f, leaves);
    PresentIndexHit(xs, k);
    MapAt(f, leaves, PresentIndices(xs)[k]);
  }

  /** Every walked, existing `.php` leaf is analysed. */
  lemma PhpAnalysesComplete(fs: FileSystem, leaves: seq<Leaf>, i: nat)
    requires i < |leaves| && Extension(leaves[i].name) == "php" && Exists(fs, leaves[i].path)
    ensures FileAnalysisOf(fs, leaves[i].path, leaves[i].rel) in PhpAnalyses(fs, leaves)
  {
    var f := (l: Leaf) => LeafAnalysis(fs, l);
    MapAt(f, leaves, i);
    PresentHas(Map(f, leaves), i);
  }

  // ---------------------------------------------------------------------
  // Include statistics

  function CountProblematic(incs: seq<IncludeRecord>): (n: nat)
    ensures n <= |incs|
  {
    if incs == [] then 0
    else CountProblematic(incs[..|incs| - 1]) + (if incs[|incs| - 1].potentialIssue != [] then 1 else 0)
  }

  function TotalIncludes(files: seq<FileAnalysis>): nat {
    if files == [] then 0 else TotalIncludes(files[..|files| - 1]) + |files[|files| - 1].includes|
  }

  /** Problematic includes never outnumber includes. */
  function ProblematicIncludes(files: seq<FileAnalysis>): (n: nat)
    ensures n <= TotalIncludes(files)
  {
    if files == [] then 0 else ProblematicIncludes(files[..|files| - 1]) + CountProblematic(files[|files| - 1].includes)
  }

  /** The `include_analysis` record. */
  datatype IncludeAnalysis = IncludeAnalysis(totalIncludes: nat, problematicIncludes: nat, successTenths: nat)

  /** The success rate: clean over all includes in tenths of a percent, or 100.0 with no includes. */
  function IncludeAnalysisOf(total: nat, problematic: nat): (r: IncludeAnalysis)
    requires problematic <= total
    ensures r.totalIncludes == total && r.problematicIncludes == problematic
    ensures r.successTenths <= 1000
    ensures total == 0 || problematic == 0 ==> r.successTenths == 1000
    ensures total > 0 && problematic == total ==> r.successTenths == 0
    ensures total > 0 ==> r.successTenths == RoundedTenths(total - problematic, total)
  {
    if total > 0 then
      RoundedTenthsBounds(total - problematic, total);
      IncludeAnalysis(total, problematic, RoundedTenths(total - problematic, total))
    else IncludeAnalysis(0, 0, 1000)
  }

  /** `analyzeIncludes`: counts every include of every file, and the ones with a risk. */
  method CountIncludes(files: seq<FileAnalysis>) returns (total: nat, problematic: nat)
    ensures total == TotalIncludes(files) && problematic == ProblematicIncludes(files)
    ensures problematic <= total
  {
    total, problematic := 0, 0;
    var i := 0;
    while i < |files|
      invariant 0 <= i <= |files|
      invariant total == TotalIncludes(files[..i]) && problematic == ProblematicIncludes(files[..i])
    {
      assert files[..i + 1][..i] == files[..i];
      var incs := files[i].includes;
      var j := 0;
      while j < |incs|
        invariant 0 <= j <= |incs|
        invariant total == TotalIncludes(files[..i]) + j
        invariant problematic == ProblematicIncludes(files[..i]) + CountProblematic(incs[..j])
      {
        assert incs[..j + 1][..j] == incs[..j];
        total := total + 1;
        if incs[j].potentialIssue != [] {
          problematic := problematic + 1;
        }
        j := j + 1;
      }
      assert incs[..j] == incs;
      i := i + 1;
    }
    assert files[..i] == files;
  }

  // ---------------------------------------------------------------------
  // Path resolution patterns

  datatype Severity = High | Medium

  /** A known problem pattern and the advice recorded when an include path contains it. */
  datatype ProblemPattern = ProblemPattern(text: string, issue: string)

  const ProblematicPatterns: seq<ProblemPattern> := [
    ProblemPattern("config/config.php", "Should use __DIR__ for config files"),
    ProblemPattern("classes/", "Should use absolute paths for class includes"),
    ProblemPattern("../", "Relative path traversal can fail in different contexts")
  ]

  /** `getIssueSeverity`: high for the two listed patterns, medium for anything else. */
  function GetIssueSeverity(pattern: string): (s: Severity)
    ensures s == High <==> pattern == "config/config.php" || pattern == "classes/"
  {
    if pattern in ["config/config.php", "classes/"] then High else Medium
  }

  /** The first two patterns of the table are high, the third medium. */
  lemma PatternSeverities()
    ensures GetIssueSeverity(ProblematicPatterns[0].text) == High
    ensures GetIssueSeverity(ProblematicPatterns[1].text) == High
    ensures GetIssueSeverity(ProblematicPatterns[2].text) == Medium
  {
    assert ProblematicPatterns[2].text != "config/config.php";
    assert ProblematicPatterns[2].text != "classes/";
  }

  datatype PathIssue = PathIssue(file: Path, line: nat, path: string, issue: string, severity: Severity)

  /** The issues of one include against the patterns `pats`, in table order. */
  function PatternHits(file: Path, inc: IncludeRecord, pats: seq<ProblemPattern>): seq<PathIssue> {
    if pats == [] then []
    else
      var p := pats[|pats| - 1];
      PatternHits(file, inc, pats[..|pats| - 1])
      + (if Contains(inc.path, p.text) then [PathIssue(file, inc.line, inc.path, p.issue, GetIssueSeverity(p.text))] else [])
  }

  function IncludeHits(file: Path, incs: seq<IncludeRecord>): seq<PathIssue> {
    if incs == [] then []
    else IncludeHits(file, incs[..|incs| - 1]) + PatternHits(file, incs[|incs| - 1], ProblematicPatterns)
  }

  function PathIssuesOf(files: seq<FileAnalysis>): seq<PathIssue> {
    if files == [] then []
    else PathIssuesOf(files[..|files| - 1]) + IncludeHits(files[|files| - 1].path, files[|files| - 1].includes)
  }

  /** `x` is the issue recorded for some include of `incs` whose path contains a pattern of `pats`. */
  predicate HitOf(x: PathIssue, file: Path, incs: seq<IncludeRecord>, pats: seq<ProblemPattern>) {
    x.file == file &&
    exists inc, p :: inc in incs && p in pats && Contains(inc.path, p.text)
      && x == PathIssue(file, inc.line, inc.path, p.issue, GetIssueSeverity(p.text))
  }

  lemma {:induction false} PatternHitsSound(file: Path, inc: IncludeRecord, pats: seq<ProblemPattern>)
    ensures forall x :: x in PatternHits(file, inc, pats) ==> HitOf(x, file, [inc], pats)
    ensures |PatternHits(file, inc, pats)| <= |pats|
    decreases |pats|
  {
    if pats != [] {
      var front := pats[..|pats| - 1];
      PatternHitsSound(file, inc, front);
      assert forall p :: p in front ==> p in pats;
      assert inc in [inc];
    }
  }

  lemma {:induction false} IncludeHitsSound(file: Path, incs: seq<IncludeRecord>)
    ensures forall x :: x in IncludeHits(file, incs) ==> HitOf(x, file, incs, ProblematicPatterns)
    decreases |incs|
  {
    if incs != [] {
      var front := incs[..|incs| - 1];
      var last := incs[|incs| - 1];
      IncludeHitsSound(file, front);
      PatternHitsSound(file, last, ProblematicPatterns);
      assert forall inc :: inc in front ==> inc in incs;
      assert last in incs;
    }
  }

  /**
   * Every recorded path issue names a file of the scan, the line and path
   * of one of its includes, and a table pattern that path contains, with
   * that pattern's advice and severity.
   */
  lemma {:induction false} PathIssuesSound(files: seq<FileAnalysis>)
    ensures forall x :: x in PathIssuesOf(files) ==>
      exists f :: f in files && HitOf(x, f.path, f.includes, ProblematicPatterns)
    decreases |files|
  {
    if files != [] {
      var front := files[..|files| - 1];
      var last := files[|files| - 1];
      PathIssuesSound(front);
      IncludeHitsSound(last.path, last.includes);
      assert forall f :: f in front ==> f in files;
      assert last in files;
    }
  }

  /** The issue a pattern of `pats` gives an include whose path contains it is among that include's hits. */
  lemma {:induction false} PatternHitsComplete(file: Path, inc: IncludeRecord, pats: seq<ProblemPattern>, k: nat)
    requires k < |pats| && Contains(inc.path, pats[k].text)
    ensures PathIssue(file, inc.line, inc.path, pats[k].issue, GetIssueSeverity(pats[k].text)) in PatternHits(file, inc, pats)
    decreases |pats|
  {
    if k < |pats| - 1 {
      PatternHitsComplete(file, inc, pats[..|pats| - 1], k);
    }
  }

  lemma {:induction false} IncludeHitsComplete(file: Path, incs: seq<IncludeRecord>, j: nat, k: nat)
    requires j < |incs| && k < |ProblematicPatterns| && Contains(incs[j].path, ProblematicPatterns[k].text)
    ensures PathIssue(file, incs[j].line, incs[j].path, ProblematicPatterns[k].issue,
                      GetIssueSeverity(ProblematicPatterns[k].text)) in IncludeHits(file, incs)
    decreases |incs|
  {
    if j == |incs| - 1 {
      PatternHitsComplete(file, incs[j], ProblematicPatterns, k);
    } else {
      IncludeHitsComplete(file, incs[..|incs| - 1], j, k);
    }
  }

  /**
   * Conversely, every include of every scanned file whose path contains a
   * table pattern is reported, with that pattern's advice and severity.
   */
  lemma {:induction false} PathIssuesComplete(files: seq<FileAnalysis>, i: nat, j: nat, k: nat)
    requires i < |files| && j < |files[i].includes| && k < |ProblematicPatterns|
    requires Contains(files[i].includes[j].path, ProblematicPatterns[k].text)
    ensures PathIssue(files[i].path, files[i].includes[j].line, files[i].includes[j].path,
                      ProblematicPatterns[k].issue, GetIssueSeverity(ProblematicPatterns[k].text)) in PathIssuesOf(files)
    decreases |files|
  {
    if i == |files| - 1 {
      IncludeHitsComplete(files[i].path, files[i].includes, j, k);
    } else {
      PathIssuesComplete(files[..|files| - 1], i, j, k);
    }
  }

  function CountSeverity(issues: seq<PathIssue>, s: Severity): (n: nat)
    ensures n <= |issues|
  {
    if issues == [] then 0
    else CountSeverity(issues[..|issues| - 1], s) + (if issues[|issues| - 1].severity == s then 1 else 0)
  }

  /** Every path issue is either high or medium. */
  lemma {:induction false} SeveritiesAddUp(issues: seq<PathIssue>)
    ensures CountSeverity(issues, High) + CountSeverity(issues, Medium) == |issues|
    decreases |issues|
  {
    if issues != [] {
      SeveritiesAddUp(issues[..|issues| - 1]);
    }
  }

  /** The `path_resolution` record. */
  datatype PathResolution = PathResolution(totalIssues: nat, highSeverity: nat, mediumSeverity: nat, issues: seq<PathIssue>)

  /** The inner loop of `checkPathResolution`: one include against each pattern in turn. */
  method PatternIssues(file: Path, inc: IncludeRecord, pats: seq<ProblemPattern>) returns (issues: seq<PathIssue>)
    ensures issues == PatternHits(file, inc, pats)
  {
    issues := [];
    var k := 0;
    while k < |pats|
      invariant 0 <= k <= |pats|
      invariant issues == PatternHits(file, inc, pats[..k])
    {
      assert pats[..k + 1][..k] == pats[..k];
      var p := pats[k];
      if Contains(inc.path, p.text) {
        issues := issues + [PathIssue(file, inc.line, inc.path, p.issue, GetIssueSeverity(p.text))];
      }
      k := k + 1;
    }
    assert pats[..k] == pats;
  }

  /** The middle loop of `checkPathResolution`: every include of one file. */
  method IncludeIssues(file: Path, incs: seq<IncludeRecord>) returns (issues: seq<PathIssue>)
    ensures issues == IncludeHits(file, incs)
  {
    issues := [];
    var j := 0;
    while j < |incs|
      invariant 0 <= j <= |incs|
      invariant issues == IncludeHits(file, incs[..j])
    {
      assert incs[..j + 1][..j] == incs[..j];
      var hits := PatternIssues(file, incs[j], ProblematicPatterns);
      issues := issues + hits;
      j := j + 1;
    }
    assert incs[..j] == incs;
  }

  /** `checkPathResolution`: every (file, include, pattern) triple whose pattern occurs in the include path. */
  method FindPathIssues(files: seq<FileAnalysis>) returns (issues: seq<PathIssue>)
    ensures issues == PathIssuesOf(files)
  {
    issues := [];
    var i := 0;
    while i < |files|
      invariant 0 <= i <= |files|
      invariant issues == PathIssuesOf(files[..i])
    {
      assert files[..i + 1][..i] == files[..i];
      var hits := IncludeIssues(files[i].path, files[i].includes);
      issues := issues + hits;
      i := i + 1;
    }
    assert files[..i] == files;
  }

  /** The `path_resolution` record: high and medium counts always add up to the total. */
  function PathResolutionOf(issues: seq<PathIssue>): (r: PathResolution)
    ensures r.totalIssues == |issues| && r.issues == issues
    ensures r.highSeverity + r.mediumSeverity == r.totalIssues
  {
    SeveritiesAddUp(issues);
    PathResolution(|issues|, CountSeverity(issues, High), CountSeverity(issues, Medium), issues)
  }

  // ---------------------------------------------------------------------
  // Report

  /** A file has issues when it has a `$method` finding or an include with a risk. */
  predicate HasIssues(f: FileAnalysis) {
    f.potentialIssues != [] || exists k :: 0 <= k < |f.includes| && f.includes[k].potentialIssue != []
  }

  function FilesWithIssues(files: seq<FileAnalysis>): (n: nat)
    ensures n <= |files|
  {
    if files == [] then 0 else FilesWithIssues(files[..|files| - 1]) + (if HasIssues(files[|files| - 1]) then 1 else 0)
  }

  /** A file has a risky include iff at least one of its includes counts as problematic. */
  lemma {:induction false} HasIssuesIffCounted(incs: seq<IncludeRecord>)
    ensures CountProblematic(incs) > 0 <==> exists k :: 0 <= k < |incs| && incs[k].potentialIssue != []
    decreases |incs|
  {
    if incs != [] {
      var front := incs[..|incs| - 1];
      HasIssuesIffCounted(front);
      if exists k :: 0 <= k < |front| && front[k].potentialIssue != [] {
        var k :| 0 <= k < |front| && front[k].potentialIssue != [];
        assert incs[k] == front[k];
      }
      if exists k :: 0 <= k < |incs| && incs[k].potentialIssue != [] {
        var k :| 0 <= k < |incs| && incs[k].potentialIssue != [];
        if k < |front| {
          assert front[k] == incs[k];
        }
      }
    }
  }

  datatype Quality = Good | NeedsAttention

  datatype StaticReport = StaticReport(totalFiles: nat, filesWithIssues: nat, status: Quality)

  /**
   * `generateReport`: GOOD iff fewer than a fifth of the files have issues.
   * With no files the ratio divides by zero and no report is produced.
   */
  function ReportOf(files: seq<FileAnalysis>): (r: Option<StaticReport>)
    ensures r.None? <==> files == []
    ensures r.Some? ==> r.value.totalFiles == |files| && r.value.filesWithIssues == FilesWithIssues(files)
    ensures r.Some? ==> (r.value.status == Good <==> 5 * FilesWithIssues(files) < |files|)
  {
    if files == [] then None
    else
      var n := FilesWithIssues(files);
      Some(StaticReport(|files|, n, if 5 * n < |files| then Good else NeedsAttention))
  }

  /** A scan in which no file has any issue is GOOD, and one in which every file has issues is not. */
  lemma ReportExtremes(files: seq<FileAnalysis>)
    requires files != []
    ensures FilesWithIssues(files) == 0 ==> ReportOf(files).value.status == Good
    ensures FilesWithIssues(files) == |files| ==> ReportOf(files).value.status == NeedsAttention
  {
  }

  /** The loop of `generateReport` that counts the files with issues. */
  method CountFilesWithIssues(files: seq<FileAnalysis>) returns (n: nat)
    ensures n == FilesWithIssues(files)
  {
    n := 0;
    var i := 0;
    while i < |files|
      invariant 0 <= i <= |files|
      invariant n == FilesWithIssues(files[..i])
    {
      assert files[..i + 1][..i] == files[..i];
      var f := files[i];
      HasIssuesIffCounted(f.includes);
      if f.potentialIssues != [] || CountProblematic(f.includes) > 0 {
        n := n + 1;
      }
      i := i + 1;
    }
    assert files[..i] == files;
  }

  /** The analyser and the results it accumulates. */
  class StaticCodeAnalyzer {
    var files: seq<FileAnalysis>
    var includeAnalysis: Option<IncludeAnalysis>
    var pathResolution: Option<PathResolution>

    constructor ()
      ensures files == [] && includeAnalysis == None && pathResolution == None
    {
      files := [];
      includeAnalysis := None;
      pathResolution := None;
    }

    /** `scanDirectory`: appends the analyses of the walk, in walk order. */
    method ScanDirectory(fs: FileSystem, dir: Path, rel: Path, entries: seq<Tree>)
      modifies this
      ensures files == old(files) + PhpAnalyses(fs, Leaves(dir, rel, entries))
      ensures includeAnalysis == old(includeAnalysis) && pathResolution == old(pathResolution)
    {
      var found := ScanListing(fs, dir, rel, entries);
      ScanMeaning(fs, dir, rel, entries);
      files := files + found;
    }

    /** `analyzeIncludes`. */
    method AnalyzeIncludes()
      modifies this
      ensures includeAnalysis == Some(IncludeAnalysisOf(TotalIncludes(files), ProblematicIncludes(files)))
      ensures files == old(files) && pathResolution == old(pathResolution)
    {
      var total, problematic := CountIncludes(files);
      includeAnalysis := Some(IncludeAnalysisOf(total, problematic));
    }

    /** `checkPathResolution`. */
    method CheckPathResolution()
      modifies this
      ensures pathResolution == Some(PathResolutionOf(PathIssuesOf(files)))
      ensures files == old(files) && includeAnalysis == old(includeAnalysis)
    {
      var issues := FindPathIssues(files);
      pathResolution := Some(PathResolutionOf(issues));
    }

    /** `generateReport`, over the files scanned so far. */
    method GenerateReport() returns (r: Option<StaticReport>)
      ensures r == ReportOf(files)
    {
      if |files| == 0 {
        return None;
      }
      var n := CountFilesWithIssues(files);
      r := Some(StaticReport(|files|, n, if 5 * n < |files| then Good else NeedsAttention));
    }

    /** `analyzeProject`: scan from the base, then the three analyses. */
    method AnalyzeProject(fs: FileSystem, listing: seq<Tree>) returns (r: Option<StaticReport>)
      modifies this
      ensures files == old(files) + PhpAnalyses(fs, Leaves(BasePath, "", listing))
      ensures includeAnalysis == Some(IncludeAnalysisOf(TotalIncludes(files), ProblematicIncludes(files)))
      ensures pathResolution == Some(PathResolutionOf(PathIssuesOf(files)))
      ensures r == ReportOf(files)
    {
      ScanDirectory(fs, BasePath, "", listing);
      AnalyzeIncludes();
      CheckPathResolution();
      r := GenerateReport();
    }
  }
}
