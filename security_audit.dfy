/**
 * The security and permissions audit (audit/security-audit.php): checks that
 * the sensitive configuration files sit behind an `.htaccess`, that five
 * directories have mode 755 and the right writability, that uploads cannot
 * run PHP, which features the two `.htaccess` files turn on, and which files
 * of the tree match five sensitive name patterns; then scores the checks.
 */
module SecurityAudit {
  import opened Wrappers
  import opened Strings
  import opened Paths
  import opened Scoring

  /** The deployed tree every path of this audit starts from. */
  const BasePath: Path := "../public_html"

  /** The `status` / `security_status` labels the audit writes. */
  datatype Status = Pass | Fail | Secure | Vulnerable | Missing

  /** The labels the summary counts as passed. */
  predicate Passes(s: Status) {
    s == Pass || s == Secure
  }

  // ---------------------------------------------------------------------
  // Directory permissions: the last three octal digits of `fileperms`

  /** `substr($s, -3)`: the last three characters, or all of a shorter string. */
  function LastThree(s: string): (r: string)
    ensures |r| == if |s| <= 3 then |s| else 3
  {
    if |s| <= 3 then s else s[|s| - 3..]
  }

  /** The three low octal digits of `n` are its remainder by 512 written out. */
  lemma LowOctalDigits(n: nat)
    ensures n % 512 == 64 * ((n / 64) % 8) + 8 * ((n / 8) % 8) + n % 8
  {
    assert n == 8 * (n / 8) + n % 8;
    assert n / 8 == 8 * (n / 64) + (n / 8) % 8;
    assert n / 64 == 8 * (n / 512) + (n / 64) % 8;
    assert n == 512 * (n / 512) + (64 * ((n / 64) % 8) + 8 * ((n / 8) % 8) + n % 8);
  }

  /** A mode of at least 0100 ends in its three low octal digits. */
  lemma OctalTailDigits(n: nat)
    requires n >= 64
    ensures LastThree(Octal(n)) == [OctalDigit((n / 64) % 8), OctalDigit((n / 8) % 8), OctalDigit(n % 8)]
  {
    var mid := Octal(n / 8);
    var top := Octal(n / 64);
    assert n / 8 / 8 == n / 64;
    assert Octal(n) == top + [OctalDigit((n / 8) % 8), OctalDigit(n % 8)];
  }

  /** Three octal digits spell "755" iff their value is 493. */
  lemma DigitsSpell755(c: nat, b: nat, a: nat)
    requires a < 8 && b < 8 && c < 8
    ensures [OctalDigit(c), OctalDigit(b), OctalDigit(a)] == "755" <==> 64 * c + 8 * b + a == 493
  {
  }

  /**
   * The mode check of `testDirectoryPermissions`: the octal tail of the mode
   * is "755" exactly when the mode's permission bits (its remainder by 512)
   * are 0755, whatever file-type bits sit above them.
   */
  lemma OctalTail755(n: nat)
    ensures LastThree(Octal(n)) == "755" <==> n % 512 == 493
  {
    if n < 64 {
      if n >= 8 {
        assert |Octal(n / 8)| == 1;
      }
      assert |Octal(n)| <= 2;
    } else {
      OctalTailDigits(n);
      LowOctalDigits(n);
      DigitsSpell755((n / 64) % 8, (n / 8) % 8, n % 8);
    }
  }

  // ---------------------------------------------------------------------
  // Sensitive file names: the glob-to-regex translation and the match

  /**
   * `str_replace(['*', '.'], ['.*', '\.'], $pattern)`: PHP applies the two
   * replacements one after the other, so the dot that the first one writes
   * for `*` is escaped by the second.
   */
  function GlobRegex(glob: string): string {
    ReplaceAll(ReplaceAll(glob, "*", ".*"), ".", "\\.")
  }

  /** What the translation writes for one glob character. */
  function TranslateChar(c: char): string {
    if c == '*' then "\\.*" else if c == '.' then "\\." else [c]
  }

  /** The translation, character by character. */
  function Translated(glob: string): string {
    if glob == [] then [] else TranslateChar(glob[0]) + Translated(glob[1..])
  }

  /** Replacing a one-character needle in a one-character string. */
  lemma ReplaceSingle(c: char, d: char, rep: string)
    ensures ReplaceAll([c], [d], rep) == if c == d then rep else [c]
  {
    assert [c][..1] == [c];
    assert [c][1..] == [];
  }

  /** The two passes of `str_replace` write, for each glob character, its translation. */
  lemma {:induction false} GlobRegexTranslates(glob: string)
    ensures GlobRegex(glob) == Translated(glob)
  {
    if glob != [] {
      var c, rest := glob[0], glob[1..];
      assert glob == [c] + rest;
      ReplaceCharAppend([c], rest, '*', ".*");
      ReplaceSingle(c, '*', ".*");
      var a := ReplaceAll([c], "*", ".*");
      var b := ReplaceAll(rest, "*", ".*");
      ReplaceCharAppend(a, b, '.', "\\.");
      if c == '*' {
        assert a == "." + "*";
        ReplaceCharAppend(".", "*", '.', "\\.");
        ReplaceSingle('.', '.', "\\.");
        ReplaceSingle('*', '.', "\\.");
      } else {
        ReplaceSingle(c, '.', "\\.");
      }
      GlobRegexTranslates(rest);
    }
  }

  /** No translation starts with a bare `*`. */
  lemma TranslatedHead(glob: string)
    ensures Translated(glob) != [] ==> Translated(glob)[0] != '*'
  {
    if glob != [] {
      assert Translated(glob) == TranslateChar(glob[0]) + Translated(glob[1..]);
    }
  }

  /** A regular-expression atom: one literal character, or `.` (any character but a newline). */
  datatype Atom = Literal(c: char) | AnyChar

  predicate AtomMatches(a: Atom, c: char) {
    match a
    case Literal(x) => c == x
    case AnyChar => c != '\n'
  }

  /** The atom that starts `re` (`\x` is the literal `x`) and how many characters it spans. */
  function AtomAt(re: string): (r: (Atom, nat))
    requires re != []
    ensures 1 <= r.1 <= |re|
  {
    if re[0] == '\\' && |re| >= 2 then (Literal(re[1]), 2)
    else if re[0] == '.' then (AnyChar, 1)
    else (Literal(re[0]), 1)
  }

  predicate AllAtom(a: Atom, s: string) {
    forall i :: 0 <= i < |s| ==> AtomMatches(a, s[i])
  }

  /**
   * `re` matches all of `s`: each atom matches one character, and an atom
   * followed by `*` matches any run of characters it matches. These are all
   * the constructs the translated patterns contain.
   */
  predicate RegexMatch(re: string, s: string)
    decreases |re|
  {
    if re == [] then s == []
    else
      var an := AtomAt(re);
      var a, n := an.0, an.1;
      if n < |re| && re[n] == '*' then
        exists k :: 0 <= k <= |s| && AllAtom(a, s[..k]) && RegexMatch(re[n + 1..], s[k..])
      else
        s != [] && AtomMatches(a, s[0]) && RegexMatch(re[n..], s[1..])
  }

  /** `preg_match("/^$re$/", $name)`: `$` also matches before a final newline. */
  predicate AnchoredMatch(re: string, name: string) {
    || RegexMatch(re, name)
    || (name != [] && name[|name| - 1] == '\n' && RegexMatch(re, name[..|name| - 1]))
  }

  /** Whether the file name `name` is reported for the glob `glob`. */
  predicate GlobMatches(glob: string, name: string) {
    AnchoredMatch(GlobRegex(glob), name)
  }

  predicate AllDots(s: string) {
    forall i :: 0 <= i < |s| ==> s[i] == '.'
  }

  /**
   * The names the translated pattern stands for, read off the glob: every
   * `*` is a run of literal dots (possibly empty), every other character is
   * itself.
   */
  predicate DotGlob(glob: string, s: string)
    decreases |glob|
  {
    if glob == [] then s == []
    else if glob[0] == '*' then
      exists k :: 0 <= k <= |s| && AllDots(s[..k]) && DotGlob(glob[1..], s[k..])
    else
      s != [] && s[0] == glob[0] && DotGlob(glob[1..], s[1..])
  }

  /** The translated regex matches exactly the dot-run reading of the glob. */
  lemma {:induction false} TranslatedMatches(glob: string, s: string)
    requires '\\' !in glob
    ensures RegexMatch(Translated(glob), s) <==> DotGlob(glob, s)
    decreases |glob|
  {
    if glob != [] {
      var c, rest := glob[0], glob[1..];
      var tr := Translated(rest);
      var re := Translated(glob);
      assert re == TranslateChar(c) + tr;
      assert '\\' !in rest by {
        assert forall x :: x in rest ==> x in glob;
      }
      TranslatedHead(rest);
      if c == '*' {
        assert AtomAt(re) == (Literal('.'), 2) && re[2] == '*' && re[3..] == tr;
        forall k | 0 <= k <= |s|
          ensures RegexMatch(tr, s[k..]) <==> DotGlob(rest, s[k..])
          ensures AllAtom(Literal('.'), s[..k]) <==> AllDots(s[..k])
        {
          TranslatedMatches(rest, s[k..]);
        }
      } else if c == '.' {
        assert AtomAt(re) == (Literal('.'), 2) && re[2..] == tr;
        if s != [] {
          TranslatedMatches(rest, s[1..]);
        }
      } else {
        assert AtomAt(re) == (Literal(c), 1) && re[1..] == tr;
        if s != [] {
          TranslatedMatches(rest, s[1..]);
        }
      }
    }
  }

  /**
   * `findFilesByPattern`'s test, for a glob without backslashes: a name is
   * reported iff it (or it without a final newline) is the glob with each
   * `*` read as a run of dots. So `*` never stands for other characters.
   */
  lemma GlobMatchesMeaning(glob: string, name: string)
    requires '\\' !in glob
    ensures GlobMatches(glob, name) <==>
      || DotGlob(glob, name)
      || (name != [] && name[|name| - 1] == '\n' && DotGlob(glob, name[..|name| - 1]))
  {
    GlobRegexTranslates(glob);
    TranslatedMatches(glob, name);
    if name != [] {
      TranslatedMatches(glob, name[..|name| - 1]);
    }
  }

  /** `.sql` is `*.sql` with an empty run of dots. */
  lemma DotGlobSqlEmptyRun()
    ensures DotGlob("*.sql", ".sql")
  {
    var s := ".sql";
    assert "*.sql"[1..] == ".sql";
    assert s[..0] == [] && s[0..] == s;
    assert s[1..] == "sql" && "sql"[1..] == "ql" && "ql"[1..] == "l" && "l"[1..] == [];
    assert DotGlob(".sql", s);
  }

  /** A string that does not start with a dot has no non-empty run of leading dots. */
  lemma LeadingDotsEmpty(s: string, k: nat)
    requires k <= |s| && s != [] && s[0] != '.'
    ensures AllDots(s[..k]) ==> k == 0
  {
    if k > 0 {
      assert s[..k][0] == s[0];
    }
  }

  /** `dump.sql` does not start with a run of dots followed by `.sql`. */
  lemma NotDotGlobDump()
    ensures !DotGlob("*.sql", "dump.sql")
  {
    var d := "dump.sql";
    assert "*.sql"[1..] == ".sql";
    forall k | 0 <= k <= |d| && AllDots(d[..k]) ensures !DotGlob(".sql", d[k..]) {
      LeadingDotsEmpty(d, k);
      assert d[0..] == d;
    }
  }

  /** `*.sql` reports `.sql`, but not `dump.sql`. */
  lemma SqlGlobExamples()
    ensures GlobMatches("*.sql", ".sql")
    ensures !GlobMatches("*.sql", "dump.sql")
  {
    GlobMatchesMeaning("*.sql", ".sql");
    GlobMatchesMeaning("*.sql", "dump.sql");
    DotGlobSqlEmptyRun();
    NotDotGlobDump();
  }

  // ---------------------------------------------------------------------
  // Config file access

  const SensitiveConfigFiles: seq<Path> := [
    "/backend/config/config.php", "/backend/config/database.php", "/backend/classes/Auth.php",
    "/backend/composer.json", "/backend/composer.lock"]

  /** The `.htaccess` that protects `path`: the one in the directory holding it. */
  function HtaccessBeside(path: Path): Path {
    Dirname(path) + "/.htaccess"
  }

  /**
   * A `config_access` entry: an existing file with its size, readability and
   * protection and a `security_status`, or a missing one whose entry holds
   * `status` MISSING instead.
   */
  datatype ConfigAccess =
    | ConfigFound(size: nat, readable: bool, protected: bool, securityStatus: Status)
    | ConfigMissing

  /** The `config_access` entry of `file` (a path below the base). */
  function ConfigAccessOf(fs: FileSystem, file: Path): (r: ConfigAccess)
    ensures r.ConfigMissing? <==> !Exists(fs, BasePath + file)
    ensures r.ConfigFound? ==>
      && (r.securityStatus == Secure || r.securityStatus == Vulnerable)
      && (r.securityStatus == Secure <==> r.protected)
      && (r.protected <==> Exists(fs, HtaccessBeside(BasePath + file)))
  {
    var full := BasePath + file;
    if !Exists(fs, full) then ConfigMissing
    else
      var m := MetaOf(fs, full);
      var protected := Exists(fs, HtaccessBeside(full));
      ConfigFound(m.size, m.readable, protected, if protected then Secure else Vulnerable)
  }

  function ConfigTable(fs: FileSystem): seq<(Path, ConfigAccess)> {
    Map((file: Path) => (file, ConfigAccessOf(fs, file)), SensitiveConfigFiles)
  }

  /** The loop of `testConfigFileAccess`: one entry per sensitive file, in order. */
  method ConfigAccessEntries(fs: FileSystem) returns (entries: seq<(Path, ConfigAccess)>)
    ensures entries == ConfigTable(fs)
  {
    var files := SensitiveConfigFiles;
    entries := [];
    var i := 0;
    while i < |files|
      invariant 0 <= i <= |files|
      invariant entries == Map((file: Path) => (file, ConfigAccessOf(fs, file)), files[..i])
    {
      var file := files[i];
      var full := BasePath + file;
      var entry;
      if Exists(fs, full) {
        var protected := Exists(fs, HtaccessBeside(full));
        entry := ConfigFound(MetaOf(fs, full).size, MetaOf(fs, full).readable, protected,
                             if protected then Secure else Vulnerable);
      } else {
        entry := ConfigMissing;
      }
      MapStep((file: Path) => (file, ConfigAccessOf(fs, file)), files, i);
      entries := entries + [(file, entry)];
      i := i + 1;
    }
    assert files[..i] == files;
  }

  // ---------------------------------------------------------------------
  // Directory permissions

  /** A directory to check, the mode it must have and whether it must be writable. */
  datatype DirRequirement = DirRequirement(dir: Path, requiredPerms: string, shouldBeWritable: bool)

  const PermissionRequirements: seq<DirRequirement> := [
    DirRequirement("/backend/uploads", "755", true),
    DirRequirement("/backend/exports", "755", true),
    DirRequirement("/backend/admin/logs", "755", true),
    DirRequirement("/backend/config", "755", false),
    DirRequirement("/backend/classes", "755", false)]

  /** A `directory_permissions` entry. */
  datatype DirPermission =
    | DirFound(currentPerms: string, requiredPerms: string, readable: bool, writable: bool,
               correctPermissions: bool, correctWritable: bool, status: Status)
    | DirMissing

  /** The `status` a `directory_permissions` entry carries. */
  function DirStatus(d: DirPermission): Status {
    if d.DirMissing? then Missing else d.status
  }

  /** The `directory_permissions` entry of `req`. */
  function DirPermissionOf(fs: FileSystem, req: DirRequirement): (r: DirPermission)
    ensures r.DirMissing? <==> !Exists(fs, BasePath + req.dir)
    ensures r.DirFound? ==> r.status == Pass || r.status == Fail
  {
    var full := BasePath + req.dir;
    if !Exists(fs, full) then DirMissing
    else
      var m := MetaOf(fs, full);
      var perms := LastThree(Octal(m.mode));
      var correctPerms := perms == req.requiredPerms;
      var correctWritable := m.writable == req.shouldBeWritable;
      DirFound(perms, req.requiredPerms, m.readable, m.writable, correctPerms, correctWritable,
               if correctPerms && correctWritable then Pass else Fail)
  }

  /**
   * An existing directory required to be 755 passes iff its permission bits
   * are 0755 and its writability is the required one; otherwise it fails.
   */
  lemma DirPassIffMode755(fs: FileSystem, req: DirRequirement)
    requires req.requiredPerms == "755" && Exists(fs, BasePath + req.dir)
    ensures var r := DirPermissionOf(fs, req); var m := MetaOf(fs, BasePath + req.dir);
      && r.DirFound?
      && (r.status == Pass || r.status == Fail)
      && (r.status == Pass <==> m.mode % 512 == 493 && m.writable == req.shouldBeWritable)
  {
    OctalTail755(MetaOf(fs, BasePath + req.dir).mode);
  }

  function DirTable(fs: FileSystem): seq<(Path, DirPermission)> {
    Map((req: DirRequirement) => (req.dir, DirPermissionOf(fs, req)), PermissionRequirements)
  }

  /** The loop of `testDirectoryPermissions`: one entry per directory, in order. */
  method DirPermissionEntries(fs: FileSystem) returns (entries: seq<(Path, DirPermission)>)
    ensures entries == DirTable(fs)
  {
    var reqs := PermissionRequirements;
    entries := [];
    var i := 0;
    while i < |reqs|
      invariant 0 <= i <= |reqs|
      invariant entries == Map((req: DirRequirement) => (req.dir, DirPermissionOf(fs, req)), reqs[..i])
    {
      var req := reqs[i];
      var full := BasePath + req.dir;
      var entry;
      if Exists(fs, full) {
        var m := MetaOf(fs, full);
        var perms := LastThree(Octal(m.mode));
        var correctPerms := perms == req.requiredPerms;
        var correctWritable := m.writable == req.shouldBeWritable;
        entry := DirFound(perms, req.requiredPerms, m.readable, m.writable, correctPerms, correctWritable,
                          if correctPerms && correctWritable then Pass else Fail);
      } else {
        entry := DirMissing;
      }
      MapStep((req: DirRequirement) => (req.dir, DirPermissionOf(fs, req)), reqs, i);
      entries := entries + [(req.dir, entry)];
      i := i + 1;
    }
    assert reqs[..i] == reqs;
  }

  // ---------------------------------------------------------------------
  // Upload security

  const UploadDir: Path := "/backend/uploads"

  /** The `upload_security` record. */
  datatype UploadSecurity =
    | UploadFound(hasHtaccess: bool, blocksPhpExecution: bool, fileCount: nat, status: Status)
    | UploadMissing

  /** What `glob` lists for a `*` inside the directory: the entries whose names do not start with a dot. */
  function GlobStarCount(listing: seq<Tree>): nat {
    Count((e: Tree) => !StartsWith(e.name, "."), listing)
  }

  /**
   * `testUploadSecurity`, given the listing of the uploads directory: SECURE
   * iff it holds an `.htaccess`, and PHP counts as blocked iff that file
   * mentions `php` at all.
   */
  function UploadSecurityOf(fs: FileSystem, uploads: seq<Tree>): (r: UploadSecurity)
    ensures r.UploadMissing? <==> !Exists(fs, BasePath + UploadDir)
    ensures r.UploadFound? ==>
      && (r.hasHtaccess <==> Exists(fs, BasePath + UploadDir + "/.htaccess"))
      && (r.status == Secure || r.status == Vulnerable)
      && (r.status == Secure <==> r.hasHtaccess)
      && (r.blocksPhpExecution <==> r.hasHtaccess && Contains(Content(fs, BasePath + UploadDir + "/.htaccess"), "php"))
  {
    var dir := BasePath + UploadDir;
    if !Exists(fs, dir) then UploadMissing
    else
      var htaccess := dir + "/.htaccess";
      var has := Exists(fs, htaccess);
      var blocks := has && Contains(Content(fs, htaccess), "php");
      UploadFound(has, blocks, GlobStarCount(uploads), if has then Secure else Vulnerable)
  }

  // ---------------------------------------------------------------------
  // .htaccess features

  const HtaccessFiles: seq<Path> := ["/backend/.htaccess", "/.htaccess"]

  /** An `htaccess_security` entry: six substring tests, or `exists` false. */
  datatype HtaccessSecurity =
    | HtaccessFeatures(blocksSensitiveFiles: bool, hasSecurityHeaders: bool, blocksSqlFiles: bool,
                       blocksLogFiles: bool, hasCompression: bool, hasCaching: bool)
    | HtaccessMissing

  /**
   * The features of one `.htaccess` content. Each is a plain substring test,
   * so a rule written differently (say `\\.(sql|log)$`) is not seen.
   */
  function FeaturesOf(content: string): HtaccessSecurity {
    HtaccessFeatures(
      Contains(content, "Files ~"),
      Contains(content, "X-Content-Type-Options"),
      Contains(content, "\\.sql$"),
      Contains(content, "\\.log$"),
      Contains(content, "mod_deflate"),
      Contains(content, "mod_expires"))
  }

  function HtaccessSecurityOf(fs: FileSystem, file: Path): (r: HtaccessSecurity)
    ensures r.HtaccessMissing? <==> !Exists(fs, BasePath + file)
  {
    if Exists(fs, BasePath + file) then FeaturesOf(Content(fs, BasePath + file)) else HtaccessMissing
  }

  function HtaccessTable(fs: FileSystem): seq<(Path, HtaccessSecurity)> {
    Map((file: Path) => (file, HtaccessSecurityOf(fs, file)), HtaccessFiles)
  }

  /** The loop of `analyzeHtaccessSecurity`. */
  method HtaccessEntries(fs: FileSystem) returns (entries: seq<(Path, HtaccessSecurity)>)
    ensures entries == HtaccessTable(fs)
  {
    var files := HtaccessFiles;
    entries := [];
    var i := 0;
    while i < |files|
      invariant 0 <= i <= |files|
      invariant entries == Map((file: Path) => (file, HtaccessSecurityOf(fs, file)), files[..i])
    {
      var file := files[i];
      var entry := if Exists(fs, BasePath + file) then FeaturesOf(Content(fs, BasePath + file)) else HtaccessMissing;
      MapStep((file: Path) => (file, HtaccessSecurityOf(fs, file)), files, i);
      entries := entries + [(file, entry)];
      i := i + 1;
    }
    assert files[..i] == files;
  }

  // ---------------------------------------------------------------------
  // Sensitive file exposure

  const SensitivePatterns: seq<string> := ["*.sql", "*.log", "composer.*", "config.php", ".env*"]

  /** The pathnames of the walked files whose names the glob reports, in walk order. */
  function PatternFiles(leaves: seq<Leaf>, glob: string): seq<Path> {
    if leaves == [] then []
    else
      var last := leaves[|leaves| - 1];
      PatternFiles(leaves[..|leaves| - 1], glob) + (if GlobMatches(glob, last.name) then [last.path] else [])
  }

  /** Every reported path is the path of a walked file whose name the glob reports. */
  lemma {:induction false} PatternFilesSound(leaves: seq<Leaf>, glob: string, f: Path)
    requires f in PatternFiles(leaves, glob)
    ensures exists l :: l in leaves && l.path == f && GlobMatches(glob, l.name)
  {
    var n := |leaves| - 1;
    if f in PatternFiles(leaves[..n], glob) {
      PatternFilesSound(leaves[..n], glob, f);
      var l :| l in leaves[..n] && l.path == f && GlobMatches(glob, l.name);
      assert l in leaves;
    } else {
      assert leaves[n].path == f;
    }
  }

  /** Every walked file whose name the glob reports is reported. */
  lemma {:induction false} PatternFilesComplete(leaves: seq<Leaf>, glob: string, i: nat)
    requires i < |leaves| && GlobMatches(glob, leaves[i].name)
    ensures leaves[i].path in PatternFiles(leaves, glob)
  {
    var n := |leaves| - 1;
    if i < n {
      PatternFilesComplete(leaves[..n], glob, i);
    }
  }

  /** `findFilesByPattern`: the walk of `dir`, keeping the files whose names match. */
  method FindFilesByPattern(dir: Path, listing: seq<Tree>, glob: string) returns (files: seq<Path>)
    ensures files == PatternFiles(Leaves(dir, "", listing), glob)
  {
    var leaves := Leaves(dir, "", listing);
    files := [];
    var i := 0;
    while i < |leaves|
      invariant 0 <= i <= |leaves|
      invariant files == PatternFiles(leaves[..i], glob)
    {
      assert leaves[..i + 1][..i] == leaves[..i];
      var regex := GlobRegex(glob);
      if AnchoredMatch(regex, leaves[i].name) {
        files := files + [leaves[i].path];
      }
      i := i + 1;
    }
    assert leaves[..i] == leaves;
  }

  /** A file counts as protected when its directory holds an `.htaccess`. */
  predicate Protected(fs: FileSystem, file: Path) {
    Exists(fs, HtaccessBeside(file))
  }

  /** `allFilesProtected`: stops at the first file whose directory has no `.htaccess`. */
  method AllFilesProtected(fs: FileSystem, files: seq<Path>) returns (all: bool)
    ensures all <==> forall k :: 0 <= k < |files| ==> Protected(fs, files[k])
  {
    var i := 0;
    while i < |files|
      invariant 0 <= i <= |files|
      invariant forall k :: 0 <= k < i ==> Protected(fs, files[k])
    {
      if !Exists(fs, HtaccessBeside(files[i])) {
        return false;
      }
      i := i + 1;
    }
    return true;
  }

  /** A `sensitive_files` entry: how many files match, their paths below the base, and `all_protected`. */
  datatype SensitiveFiles = SensitiveFiles(count: nat, files: seq<Path>, allProtected: bool)

  function SensitiveFilesOf(fs: FileSystem, listing: seq<Tree>, glob: string): (r: SensitiveFiles)
    ensures r.count == |r.files|
  {
    var found := PatternFiles(Leaves(BasePath, "", listing), glob);
    SensitiveFiles(|found|, Map((f: Path) => ReplaceAll(f, BasePath, ""), found),
                   |found| == 0 || forall k :: 0 <= k < |found| ==> Protected(fs, found[k]))
  }

  /** `all_protected` holds iff every reported file's directory has an `.htaccess` (so when none is reported). */
  lemma AllProtectedMeaning(fs: FileSystem, listing: seq<Tree>, glob: string)
    ensures var found := PatternFiles(Leaves(BasePath, "", listing), glob);
      SensitiveFilesOf(fs, listing, glob).allProtected <==> forall f :: f in found ==> Protected(fs, f)
  {
  }

  function SensitiveTable(fs: FileSystem, listing: seq<Tree>): seq<(string, SensitiveFiles)> {
    Map((glob: string) => (glob, SensitiveFilesOf(fs, listing, glob)), SensitivePatterns)
  }

  /** One pattern of `checkSensitiveFileExposure`; the protection walk runs only when something matched. */
  method SensitiveEntry(fs: FileSystem, listing: seq<Tree>, glob: string) returns (entry: SensitiveFiles)
    ensures entry == SensitiveFilesOf(fs, listing, glob)
  {
    var found := FindFilesByPattern(BasePath, listing, glob);
    var protected := true;
    if |found| != 0 {
      protected := AllFilesProtected(fs, found);
    }
    entry := SensitiveFiles(|found|, Map((f: Path) => ReplaceAll(f, BasePath, ""), found), protected);
  }

  /** The loop of `checkSensitiveFileExposure`: one entry per pattern, in order. */
  method SensitiveEntries(fs: FileSystem, listing: seq<Tree>) returns (entries: seq<(string, SensitiveFiles)>)
    ensures entries == SensitiveTable(fs, listing)
  {
    var globs := SensitivePatterns;
    entries := [];
    var i := 0;
    while i < |globs|
      invariant 0 <= i <= |globs|
      invariant entries == Map((glob: string) => (glob, SensitiveFilesOf(fs, listing, glob)), globs[..i])
    {
      var entry := SensitiveEntry(fs, listing, globs[i]);
      MapStep((glob: string) => (glob, SensitiveFilesOf(fs, listing, glob)), globs, i);
      entries := entries + [(globs[i], entry)];
      i := i + 1;
    }
    assert globs[..i] == globs;
  }

  // ---------------------------------------------------------------------
  // Summary

  /** One item the summary visits: its category, its key, and the `status` it carries, if any. */
  datatype ResultItem = ResultItem(category: string, key: string, status: Option<Status>)

  /** A found config file carries only `security_status`, so only a missing one has a `status`. */
  function ConfigItem(e: (Path, ConfigAccess)): ResultItem {
    ResultItem("config_access", e.0, if e.1.ConfigMissing? then Some(Missing) else None)
  }

  function DirItem(e: (Path, DirPermission)): ResultItem {
    ResultItem("directory_permissions", e.0, Some(DirStatus(e.1)))
  }

  /** The keys of the `upload_security` record. */
  function UploadKeys(u: UploadSecurity): seq<string> {
    if u.UploadMissing? then ["directory_exists", "status"]
    else ["directory_exists", "has_htaccess", "blocks_php_execution", "file_count", "status"]
  }

  /**
   * The items of `upload_security` are scalars (its own `status` string
   * among them), and a scalar has no `status` key: none of them is counted.
   */
  function UploadItems(u: Option<UploadSecurity>): seq<ResultItem> {
    if u.None? then [] else Map((k: string) => ResultItem("upload_security", k, None), UploadKeys(u.value))
  }

  /** An `htaccess_security` entry is a table of flags with no `status`. */
  function HtaccessItem(e: (Path, HtaccessSecurity)): ResultItem {
    ResultItem("htaccess_security", e.0, None)
  }

  /** A `sensitive_files` entry has `count`, `files` and `all_protected`, but no `status`. */
  function SensitiveItem(e: (string, SensitiveFiles)): ResultItem {
    ResultItem("sensitive_files", e.0, None)
  }

  /** The items of the results, category by category in the order the tests fill them. */
  function ResultItems(config: seq<(Path, ConfigAccess)>, dirs: seq<(Path, DirPermission)>,
                       upload: Option<UploadSecurity>, htaccess: seq<(Path, HtaccessSecurity)>,
                       sensitive: seq<(string, SensitiveFiles)>): seq<ResultItem> {
    Map(ConfigItem, config) + Map(DirItem, dirs) + UploadItems(upload)
    + Map(HtaccessItem, htaccess) + Map(SensitiveItem, sensitive)
  }

  predicate IsCounted(it: ResultItem) {
    it.status.Some?
  }

  predicate IsPassed(it: ResultItem) {
    it.status.Some? && Passes(it.status.value)
  }

  /** The `"$category: $item"` line of every counted item that did not pass, in order. */
  function VulnerabilityLabels(items: seq<ResultItem>): seq<string> {
    if items == [] then []
    else
      var it := items[|items| - 1];
      VulnerabilityLabels(items[..|items| - 1])
      + (if IsCounted(it) && !IsPassed(it) then [it.category + ": " + it.key] else [])
  }

  /** A passed item is a counted one, and there is one vulnerability line per counted item that failed. */
  lemma {:induction false} TallyConsistent(items: seq<ResultItem>)
    ensures Count(IsPassed, items) <= Count(IsCounted, items)
    ensures |VulnerabilityLabels(items)| == Count(IsCounted, items) - Count(IsPassed, items)
  {
    if items != [] {
      TallyConsistent(items[..|items| - 1]);
    }
  }

  /** The counting loop of `generateSecurityReport`. */
  method Tally(items: seq<ResultItem>) returns (total: nat, passed: nat, vulnerabilities: seq<string>)
    ensures total == Count(IsCounted, items) && passed == Count(IsPassed, items)
    ensures vulnerabilities == VulnerabilityLabels(items)
  {
    total, passed, vulnerabilities := 0, 0, [];
    var i := 0;
    while i < |items|
      invariant 0 <= i <= |items|
      invariant total == Count(IsCounted, items[..i]) && passed == Count(IsPassed, items[..i])
      invariant vulnerabilities == VulnerabilityLabels(items[..i])
    {
      var it := items[i];
      CountStep(IsCounted, items, i);
      CountStep(IsPassed, items, i);
      assert items[..i + 1][..i] == items[..i];
      if it.status.Some? {
        total := total + 1;
        if it.status.value == Pass || it.status.value == Secure {
          passed := passed + 1;
        } else {
          vulnerabilities := vulnerabilities + [it.category + ": " + it.key];
        }
      }
      i := i + 1;
    }
    assert items[..i] == items;
  }

  datatype SecurityLevel = Excellent | GoodWithImprovements | CriticalVulnerabilities

  /** The summary: counts, the failed items, the score in tenths of a percent, and the level. */
  datatype SecurityReport = SecurityReport(totalChecks: nat, passedChecks: nat, vulnerabilities: seq<string>,
                                           scoreTenths: nat, level: SecurityLevel)

  /** `round(passed / total * 100, 1)`, or 0 with nothing to count. */
  function SecurityScore(passed: nat, total: nat): nat {
    if total > 0 then RoundedTenths(passed, total) else 0
  }

  function LevelOf(scoreTenths: nat): SecurityLevel {
    if scoreTenths >= 900 then Excellent
    else if scoreTenths >= 700 then GoodWithImprovements
    else CriticalVulnerabilities
  }

  function SecurityReportOf(items: seq<ResultItem>): SecurityReport {
    var total, passed := Count(IsCounted, items), Count(IsPassed, items);
    var score := SecurityScore(passed, total);
    SecurityReport(total, passed, VulnerabilityLabels(items), score, LevelOf(score))
  }

  /**
   * The report counts the counted and the passed items (passed at most
   * total, one line per failure), the score is the rounded share of passed
   * checks within 0..100.0 (0 with nothing counted), and the level compares the ROUNDED
   * score: EXCELLENT iff the exact ratio is at least 89.95%, GOOD WITH
   * IMPROVEMENTS iff it is at least 69.95% but below that.
   */
  lemma SecurityReportMeaning(items: seq<ResultItem>)
    ensures var r := SecurityReportOf(items); var t, p := r.totalChecks, r.passedChecks;
      && t == Count(IsCounted, items) && p == Count(IsPassed, items)
      && p <= t && |r.vulnerabilities| == t - p
      && r.scoreTenths <= 1000
      && (t == 0 ==> r.scoreTenths == 0 && r.level == CriticalVulnerabilities)
      && (t > 0 ==> r.scoreTenths == RoundedTenths(p, t))
      && (t > 0 ==>
            && (r.level == Excellent <==> 2000 * p + t >= 1800 * t)
            && (r.level == GoodWithImprovements <==> 1400 * t <= 2000 * p + t < 1800 * t))
  {
    TallyConsistent(items);
    var t, p := Count(IsCounted, items), Count(IsPassed, items);
    if t > 0 {
      RoundedTenthsBounds(p, t);
      RoundedAtLeast(p, t, 90);
      RoundedAtLeast(p, t, 70);
    }
  }

  /** The config files that are not there, each one a failed check. */
  function MissingConfigs(fs: FileSystem): nat {
    Count((file: Path) => !Exists(fs, BasePath + file), SensitiveConfigFiles)
  }

  /** The directories whose mode and writability are right. */
  function PassingDirs(fs: FileSystem): nat {
    Count((req: DirRequirement) => DirStatus(DirPermissionOf(fs, req)) == Pass, PermissionRequirements)
  }

  /** The results of a full audit run. */
  function AuditItems(fs: FileSystem, listing: seq<Tree>, uploads: seq<Tree>): seq<ResultItem> {
    ResultItems(ConfigTable(fs), DirTable(fs), Some(UploadSecurityOf(fs, uploads)),
                HtaccessTable(fs), SensitiveTable(fs, listing))
  }

  /** No item without a status is counted or passed. */
  lemma NoStatusUncounted(items: seq<ResultItem>)
    requires forall k :: 0 <= k < |items| ==> items[k].status.None?
    ensures Count(IsCounted, items) == 0 && Count(IsPassed, items) == 0
  {
    CountNone(IsCounted, items);
    CountNone(IsPassed, items);
  }

  /** The upload record's items carry no status. */
  lemma UploadUncounted(u: Option<UploadSecurity>)
    ensures Count(IsCounted, UploadItems(u)) == 0 && Count(IsPassed, UploadItems(u)) == 0
  {
    if u.Some? {
      var keys := UploadKeys(u.value);
      var f := (k: string) => ResultItem("upload_security", k, None);
      forall k | 0 <= k < |keys| ensures UploadItems(u)[k].status.None? {
        MapAt(f, keys, k);
      }
    }
    NoStatusUncounted(UploadItems(u));
  }

  /** The `.htaccess` items carry no status. */
  lemma HtaccessUncounted(h: seq<(Path, HtaccessSecurity)>)
    ensures Count(IsCounted, Map(HtaccessItem, h)) == 0 && Count(IsPassed, Map(HtaccessItem, h)) == 0
  {
    forall k | 0 <= k < |h| ensures Map(HtaccessItem, h)[k].status.None? {
      MapAt(HtaccessItem, h, k);
    }
    NoStatusUncounted(Map(HtaccessItem, h));
  }

  /** The sensitive-file items carry no status. */
  lemma SensitiveUncounted(z: seq<(string, SensitiveFiles)>)
    ensures Count(IsCounted, Map(SensitiveItem, z)) == 0 && Count(IsPassed, Map(SensitiveItem, z)) == 0
  {
    forall k | 0 <= k < |z| ensures Map(SensitiveItem, z)[k].status.None? {
      MapAt(SensitiveItem, z, k);
    }
    NoStatusUncounted(Map(SensitiveItem, z));
  }

  /**
   * What a full run counts: every missing config file (a failure) and all
   * five directories; a config file that exists is never counted, and only
   * directories can pass. So there are always at least five checks.
   */
  lemma AuditTally(fs: FileSystem, listing: seq<Tree>, uploads: seq<Tree>)
    ensures var items := AuditItems(fs, listing, uploads);
      && Count(IsCounted, items) == MissingConfigs(fs) + 5
      && Count(IsPassed, items) == PassingDirs(fs)
  {
    var c := Map(ConfigItem, ConfigTable(fs));
    var d := Map(DirItem, DirTable(fs));
    var u := UploadItems(Some(UploadSecurityOf(fs, uploads)));
    var h := Map(HtaccessItem, HtaccessTable(fs));
    var z := Map(SensitiveItem, SensitiveTable(fs, listing));
    UploadUncounted(Some(UploadSecurityOf(fs, uploads)));
    HtaccessUncounted(HtaccessTable(fs));
    SensitiveUncounted(SensitiveTable(fs, listing));
    CountAppend(IsCounted, c, d);
    CountAppend(IsCounted, c + d, u);
    CountAppend(IsCounted, c + d + u, h);
    CountAppend(IsCounted, c + d + u + h, z);
    CountAppend(IsPassed, c, d);
    CountAppend(IsPassed, c + d, u);
    CountAppend(IsPassed, c + d + u, h);
    CountAppend(IsPassed, c + d + u + h, z);
    ConfigCounts(fs);
    DirCounts(fs);
  }

  /** Among the config items, exactly the missing files are counted, and none passes. */
  lemma ConfigCounts(fs: FileSystem)
    ensures Count(IsCounted, Map(ConfigItem, ConfigTable(fs))) == MissingConfigs(fs)
    ensures Count(IsPassed, Map(ConfigItem, ConfigTable(fs))) == 0
  {
    var entry := (file: Path) => (file, ConfigAccessOf(fs, file));
    var missing := (e: (Path, ConfigAccess)) => e.1.ConfigMissing?;
    CountMap(IsCounted, missing, ConfigItem, ConfigTable(fs));
    CountMap(missing, (file: Path) => !Exists(fs, BasePath + file), entry, SensitiveConfigFiles);
    var c := Map(ConfigItem, ConfigTable(fs));
    forall x | x in c ensures !IsPassed(x) {
      var k :| 0 <= k < |c| && c[k] == x;
      MapAt(ConfigItem, ConfigTable(fs), k);
    }
    CountNone(IsPassed, c);
  }

  /** Every directory item is counted, and it passes iff its status is PASS. */
  lemma DirCounts(fs: FileSystem)
    ensures Count(IsCounted, Map(DirItem, DirTable(fs))) == 5
    ensures Count(IsPassed, Map(DirItem, DirTable(fs))) == PassingDirs(fs)
  {
    var entry := (req: DirRequirement) => (req.dir, DirPermissionOf(fs, req));
    var always := (e: (Path, DirPermission)) => true;
    var passing := (e: (Path, DirPermission)) => Passes(DirStatus(e.1));
    CountMap(IsCounted, always, DirItem, DirTable(fs));
    CountAll(always, DirTable(fs));
    CountMap(IsPassed, passing, DirItem, DirTable(fs));
    CountMap(passing, (req: DirRequirement) => DirStatus(DirPermissionOf(fs, req)) == Pass, entry, PermissionRequirements);
  }

  /**
   * A clean tree (every sensitive config file present, every directory
   * right) scores 100.0 and is EXCELLENT, whatever the other categories say.
   */
  lemma CleanAuditIsExcellent(fs: FileSystem, listing: seq<Tree>, uploads: seq<Tree>)
    requires forall k :: 0 <= k < |SensitiveConfigFiles| ==> Exists(fs, BasePath + SensitiveConfigFiles[k])
    requires forall k :: 0 <= k < |PermissionRequirements| ==>
      DirStatus(DirPermissionOf(fs, PermissionRequirements[k])) == Pass
    ensures var r := SecurityReportOf(AuditItems(fs, listing, uploads));
      r.totalChecks == 5 && r.passedChecks == 5 && r.scoreTenths == 1000 && r.level == Excellent
  {
    AuditTally(fs, listing, uploads);
    CountNone((file: Path) => !Exists(fs, BasePath + file), SensitiveConfigFiles);
    CountAll((req: DirRequirement) => DirStatus(DirPermissionOf(fs, req)) == Pass, PermissionRequirements);
    RoundedTenthsBounds(5, 5);
  }

  /** The audit and the results it accumulates, one field per category. */
  class SecurityAuditor {
    var configAccess: seq<(Path, ConfigAccess)>
    var directoryPermissions: seq<(Path, DirPermission)>
    var uploadSecurity: Option<UploadSecurity>
    var htaccessSecurity: seq<(Path, HtaccessSecurity)>
    var sensitiveFiles: seq<(string, SensitiveFiles)>

    constructor ()
      ensures configAccess == [] && directoryPermissions == [] && uploadSecurity == None
      ensures htaccessSecurity == [] && sensitiveFiles == []
    {
      configAccess, directoryPermissions, uploadSecurity := [], [], None;
      htaccessSecurity, sensitiveFiles := [], [];
    }

    /** The items the summary visits. */
    function Items(): seq<ResultItem>
      reads this
    {
      ResultItems(configAccess, directoryPermissions, uploadSecurity, htaccessSecurity, sensitiveFiles)
    }

    /** `testConfigFileAccess`. */
    method TestConfigFileAccess(fs: FileSystem)
      modifies this
      ensures configAccess == ConfigTable(fs)
      ensures directoryPermissions == old(directoryPermissions) && uploadSecurity == old(uploadSecurity)
      ensures htaccessSecurity == old(htaccessSecurity) && sensitiveFiles == old(sensitiveFiles)
    {
      configAccess := ConfigAccessEntries(fs);
    }

    /** `testDirectoryPermissions`. */
    method TestDirectoryPermissions(fs: FileSystem)
      modifies this
      ensures directoryPermissions == DirTable(fs)
      ensures configAccess == old(configAccess) && uploadSecurity == old(uploadSecurity)
      ensures htaccessSecurity == old(htaccessSecurity) && sensitiveFiles == old(sensitiveFiles)
    {
      directoryPermissions := DirPermissionEntries(fs);
    }

    /** `testUploadSecurity`, given the listing of the uploads directory. */
    method TestUploadSecurity(fs: FileSystem, uploads: seq<Tree>)
      modifies this
      ensures uploadSecurity == Some(UploadSecurityOf(fs, uploads))
      ensures configAccess == old(configAccess) && directoryPermissions == old(directoryPermissions)
      ensures htaccessSecurity == old(htaccessSecurity) && sensitiveFiles == old(sensitiveFiles)
    {
      uploadSecurity := Some(UploadSecurityOf(fs, uploads));
    }

    /** `analyzeHtaccessSecurity`. */
    method AnalyzeHtaccessSecurity(fs: FileSystem)
      modifies this
      ensures htaccessSecurity == HtaccessTable(fs)
      ensures configAccess == old(configAccess) && directoryPermissions == old(directoryPermissions)
      ensures uploadSecurity == old(uploadSecurity) && sensitiveFiles == old(sensitiveFiles)
    {
      htaccessSecurity := HtaccessEntries(fs);
    }

    /** `checkSensitiveFileExposure`, given the listing of the base directory. */
    method CheckSensitiveFileExposure(fs: FileSystem, listing: seq<Tree>)
      modifies this
      ensures sensitiveFiles == SensitiveTable(fs, listing)
      ensures configAccess == old(configAccess) && directoryPermissions == old(directoryPermissions)
      ensures uploadSecurity == old(uploadSecurity) && htaccessSecurity == old(htaccessSecurity)
    {
      sensitiveFiles := SensitiveEntries(fs, listing);
    }

    /** `generateSecurityReport`, over the results gathered so far. */
    method GenerateSecurityReport() returns (report: SecurityReport)
      ensures report == SecurityReportOf(Items())
    {
      var total, passed, vulnerabilities := Tally(Items());
      var score := if total > 0 then RoundedTenths(passed, total) else 0;
      report := SecurityReport(total, passed, vulnerabilities, score, LevelOf(score));
    }

    /** `runSecurityAudit`: the five tests in order, then the summary. */
    method RunSecurityAudit(fs: FileSystem, listing: seq<Tree>, uploads: seq<Tree>) returns (report: SecurityReport)
      modifies this
      ensures configAccess == ConfigTable(fs) && directoryPermissions == DirTable(fs)
      ensures uploadSecurity == Some(UploadSecurityOf(fs, uploads))
      ensures htaccessSecurity == HtaccessTable(fs) && sensitiveFiles == SensitiveTable(fs, listing)
      ensures Items() == AuditItems(fs, listing, uploads)
      ensures report == SecurityReportOf(AuditItems(fs, listing, uploads))
    {
      TestConfigFileAccess(fs);
      TestDirectoryPermissions(fs);
      TestUploadSecurity(fs, uploads);
      AnalyzeHtaccessSecurity(fs);
      CheckSensitiveFileExposure(fs, listing);
      report := GenerateSecurityReport();
    }
  }
}
