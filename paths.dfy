/**
 * The file system as the checkers see it: an oracle that answers
 * `file_exists`, `is_dir`, `file_get_contents`, `fileperms`, `is_readable`,
 * `is_writable` and `filesize` for a path string, and a directory tree
 * that stands for what `scandir` and `RecursiveDirectoryIterator` list.
 */
module Paths {
  import opened Wrappers
  import opened Strings

  type Path = string

  /** What `fileperms`, `is_readable`, `is_writable` and `filesize` report. */
  datatype Meta = Meta(mode: nat, readable: bool, writable: bool, size: nat)

  datatype Entry = FileEntry(content: string, meta: Meta) | DirEntry(meta: Meta)

  /**
   * Every path for which `file_exists` holds, with what is there. Paths are
   * literal strings: the oracle, not the model, answers for `a/../b`.
   */
  datatype FileSystem = FileSystem(entries: map<Path, Entry>)

  /** PHP `file_exists`: true for files and for directories. */
  predicate Exists(fs: FileSystem, p: Path) {
    p in fs.entries
  }

  /** PHP `is_dir`. */
  predicate IsDir(fs: FileSystem, p: Path) {
    p in fs.entries && fs.entries[p].DirEntry?
  }

  /** PHP `file_get_contents`; a directory or a missing path reads as "". */
  function Content(fs: FileSystem, p: Path): string {
    if p in fs.entries && fs.entries[p].FileEntry? then fs.entries[p].content else ""
  }

  function MetaOf(fs: FileSystem, p: Path): Meta
    requires Exists(fs, p)
  {
    fs.entries[p].meta
  }

  /** The index of the last '/' in `p`. */
  function LastSlash(p: Path): (r: Option<nat>)
    ensures r.Some? ==> r.value < |p| && p[r.value] == '/' && '/' !in p[r.value + 1..]
    ensures r.None? ==> '/' !in p
  {
    if p == [] then None
    else if p[|p| - 1] == '/' then Some(|p| - 1)
    else
      var r := LastSlash(p[..|p| - 1]);
      assert r.Some? ==> p[r.value + 1..] == p[..|p| - 1][r.value + 1..] + [p[|p| - 1]];
      r
  }

  /** `dirname`, as a split at the last '/'. */
  function Dirname(p: Path): Path {
    match LastSlash(p)
    case None => "."
    case Some(i) => if i == 0 then "/" else p[..i]
  }

  /** `basename`, as a split at the last '/'. */
  function Basename(p: Path): (b: string)
    ensures '/' !in b
    ensures |b| <= |p| && b == p[|p| - |b|..]
    ensures |b| < |p| ==> p[|p| - |b| - 1] == '/'
  {
    match LastSlash(p)
    case None => p
    case Some(i) => p[i + 1..]
  }

  /** `d + "/" + n` splits back into `d` and `n` when `n` has no '/'. */
  lemma JoinSplits(d: Path, n: string)
    requires d != [] && '/' !in n
    ensures Dirname(d + "/" + n) == d
    ensures Basename(d + "/" + n) == n
  {
    var p := d + "/" + n;
    var i := |d|;
    assert p[i] == '/' && p[i + 1..] == n;
    var r := LastSlash(p);
    assert r.Some?;
    assert p[..i] == d;
  }

  /** PHP `pathinfo($n, PATHINFO_EXTENSION)` / `SplFileInfo::getExtension`. */
  function Extension(name: string): (e: string)
    ensures '.' !in e
    ensures '.' !in name ==> e == ""
    ensures '.' in name ==> |e| < |name| && e == name[|name| - |e|..] && name[|name| - |e| - 1] == '.'
  {
    if '.' !in name then ""
    else if name[|name| - 1] == '.' then ""
    else
      var e := Extension(name[..|name| - 1]);
      if e == "" && name[|name| - 2] == '.' then [name[|name| - 1]]
      else if e == "" && '.' in name[..|name| - 1] then
        assert name[|name| - 2] != '.';
        e
      else if e == "" then ""
      else e + [name[|name| - 1]]
  }

  /** A directory listing in the order the file system returns it. */
  datatype Tree = File(name: string) | Dir(name: string, entries: seq<Tree>)

  predicate IsDot(name: string) {
    name == "." || name == ".."
  }

  /** A regular file met on a walk: its full path, its path below the root, its name. */
  datatype Leaf = Leaf(path: Path, rel: Path, name: string)

  /**
   * The regular files a depth-first walk of `entries` (the listing of `dir`)
   * meets, in listing order; `.` and `..` are never entered.
   */
  function Leaves(dir: Path, rel: Path, entries: seq<Tree>): (r: seq<Leaf>)
    ensures forall k :: 0 <= k < |r| ==> !IsDot(r[k].name)
    decreases entries
  {
    if entries == [] then []
    else
      var e := entries[0];
      var here :=
        if IsDot(e.name) then []
        else match e
          case File(n) => [Leaf(dir + "/" + n, rel + "/" + n, n)]
          case Dir(n, es) => Leaves(dir + "/" + n, rel + "/" + n, es);
      here + Leaves(dir, rel, entries[1..])
  }

  /** The leaves of a one-entry listing: the entry itself, or what walking into it meets. */
  lemma LeavesOne(dir: Path, rel: Path, e: Tree)
    ensures Leaves(dir, rel, [e]) ==
      if IsDot(e.name) then []
      else match e
        case File(n) => [Leaf(dir + "/" + n, rel + "/" + n, n)]
        case Dir(n, es) => Leaves(dir + "/" + n, rel + "/" + n, es)
  {
    assert [e][1..] == [];
  }

  /** A leaf's full path and relative path both end in "/" followed by its name. */
  predicate NamedByPath(l: Leaf) {
    EndsWith(l.path, "/" + l.name) && EndsWith(l.rel, "/" + l.name)
  }

  /** A path built as `d + "/" + n` ends in "/" followed by `n`. */
  lemma JoinEndsWith(d: Path, n: string)
    ensures EndsWith(d + "/" + n, "/" + n)
  {
    assert d + "/" + n == d + ("/" + n);
  }

  /** Every leaf's path ends in "/" followed by its name. */
  lemma {:induction false} LeafPaths(dir: Path, rel: Path, entries: seq<Tree>)
    ensures forall l :: l in Leaves(dir, rel, entries) ==> NamedByPath(l)
    decreases entries
  {
    if entries != [] {
      var e := entries[0];
      var rest := Leaves(dir, rel, entries[1..]);
      LeafPaths(dir, rel, entries[1..]);
      if IsDot(e.name) {
        assert Leaves(dir, rel, entries) == rest;
      } else if e.File? {
        var n := e.name;
        JoinEndsWith(dir, n);
        JoinEndsWith(rel, n);
        assert Leaves(dir, rel, entries) == [Leaf(dir + "/" + n, rel + "/" + n, n)] + rest;
      } else {
        var n := e.name;
        var inner := Leaves(dir + "/" + n, rel + "/" + n, e.entries);
        LeafPaths(dir + "/" + n, rel + "/" + n, e.entries);
        assert Leaves(dir, rel, entries) == inner + rest;
      }
    }
  }

  /** Walking two consecutive parts of a listing is walking each in turn. */
  lemma {:induction false} LeavesAppend(dir: Path, rel: Path, a: seq<Tree>, b: seq<Tree>)
    ensures Leaves(dir, rel, a + b) == Leaves(dir, rel, a) + Leaves(dir, rel, b)
    decreases a
  {
    if a == [] {
      assert a + b == b;
    } else {
      assert (a + b)[0] == a[0] && (a + b)[1..] == a[1..] + b;
      LeavesAppend(dir, rel, a[1..], b);
    }
  }

  /** The first of `files` that exists, if any: a search that stops at the first hit. */
  function FirstFound(fs: FileSystem, files: seq<Path>): (r: Option<Path>)
    ensures r.Some? ==> r.value in files && Exists(fs, r.value)
    ensures r.None? <==> forall f :: f in files ==> !Exists(fs, f)
  {
    if files == [] then None
    else if Exists(fs, files[0]) then Some(files[0])
    else FirstFound(fs, files[1..])
  }

  /** The file found is the existing one before which every file is missing. */
  lemma {:induction false} FirstFoundIsFirst(fs: FileSystem, files: seq<Path>, k: nat)
    requires k < |files| && Exists(fs, files[k])
    requires forall j :: 0 <= j < k ==> !Exists(fs, files[j])
    ensures FirstFound(fs, files) == Some(files[k])
  {
    if k > 0 {
      assert !Exists(fs, files[0]);
      assert files[1..][k - 1] == files[k];
      forall j | 0 <= j < k - 1 ensures !Exists(fs, files[1..][j]) {
        assert files[1..][j] == files[j + 1];
      }
      FirstFoundIsFirst(fs, files[1..], k - 1);
    }
  }

  /** The search loop, left at the first file that exists. */
  method FindFirst(fs: FileSystem, files: seq<Path>) returns (loaded: Option<Path>)
    ensures loaded == FirstFound(fs, files)
  {
    loaded := None;
    var i := 0;
    while i < |files|
      invariant 0 <= i <= |files|
      invariant FirstFound(fs, files) == FirstFound(fs, files[i..])
    {
      if Exists(fs, files[i]) {
        loaded := Some(files[i]);
        return;
      }
      assert files[i..][1..] == files[i + 1..];
      i := i + 1;
    }
  }
}
