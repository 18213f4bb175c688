/**
 * The PHP string primitives the checkers rely on (strpos, substr_count,
 * explode, trim, str_replace), stated over `seq<char>`.
 */
module Strings {
  import opened Wrappers

  /** `t` occurs in `s` starting at index `i`. */
  predicate OccursAt(s: string, t: string, i: int) {
    0 <= i && i + |t| <= |s| && s[i..i + |t|] == t
  }

  /** PHP `strpos($s, $t, $from)`: the first index at or after `from` where `t` occurs. */
  function FindFrom(s: string, t: string, from: nat): Option<nat>
    decreases |s| - from
  {
    if from + |t| > |s| then None
    else if s[from..from + |t|] == t then Some(from)
    else FindFrom(s, t, from + 1)
  }

  /** `FindFrom` finds an occurrence, the first one at or after `from`, or reports that there is none. */
  lemma {:induction false} FindFromSpec(s: string, t: string, from: nat)
    ensures var r := FindFrom(s, t, from);
      && (r.Some? ==> from <= r.value && OccursAt(s, t, r.value))
      && (r.Some? ==> forall j :: from <= j < r.value ==> !OccursAt(s, t, j))
      && (r.None? ==> forall j :: from <= j ==> !OccursAt(s, t, j))
    decreases |s| - from
  {
    if from + |t| <= |s| && s[from..from + |t|] != t {
      FindFromSpec(s, t, from + 1);
    }
  }

  /** PHP `strpos($s, $t)`. */
  function Find(s: string, t: string): Option<nat> {
    FindFrom(s, t, 0)
  }

  /** PHP `strpos($s, $t) !== false`. */
  predicate Contains(s: string, t: string) {
    Find(s, t).Some?
  }

  /** `Contains` is exactly "occurs somewhere". */
  lemma ContainsIff(s: string, t: string)
    ensures Contains(s, t) <==> exists i :: OccursAt(s, t, i)
  {
    FindFromSpec(s, t, 0);
    if Contains(s, t) {
      assert OccursAt(s, t, Find(s, t).value);
    }
  }

  /** A witness occurrence makes `Contains` true. */
  lemma ContainsAt(s: string, t: string, i: int)
    requires OccursAt(s, t, i)
    ensures Contains(s, t)
  {
    ContainsIff(s, t);
  }

  /** Whatever contains `t + u` contains `t`. */
  lemma ContainsPrefix(s: string, t: string, u: string)
    requires Contains(s, t + u)
    ensures Contains(s, t)
  {
    FindFromSpec(s, t + u, 0);
    var i := Find(s, t + u).value;
    assert s[i..i + |t|] == s[i..i + |t + u|][..|t|];
    ContainsAt(s, t, i);
  }

  predicate StartsWith(s: string, p: string) {
    |p| <= |s| && s[..|p|] == p
  }

  /** PHP `strpos($s, $p) === 0` is `StartsWith` (for a non-empty needle). */
  lemma FindZeroIffStartsWith(s: string, p: string)
    ensures Find(s, p) == Some(0) <==> StartsWith(s, p)
  {
    FindFromSpec(s, p, 0);
    if StartsWith(s, p) {
      assert OccursAt(s, p, 0);
    }
  }

  predicate EndsWith(s: string, p: string) {
    |p| <= |s| && s[|s| - |p|..] == p
  }

  /** PHP `substr_count($s, $c)` for a one-character needle. */
  function CountChar(s: string, c: char): (n: nat)
    ensures n <= |s|
    ensures n == 0 <==> c !in s
  {
    if s == [] then 0 else (if s[0] == c then 1 else 0) + CountChar(s[1..], c)
  }

  lemma {:induction false} CountCharAppend(a: string, b: string, c: char)
    ensures CountChar(a + b, c) == CountChar(a, c) + CountChar(b, c)
  {
    if a == [] {
      assert a + b == b;
    } else {
      assert (a + b)[1..] == a[1..] + b;
      CountCharAppend(a[1..], b, c);
    }
  }

  /** The first index of `c` in `s`. */
  function IndexOfChar(s: string, c: char): (i: nat)
    requires c in s
    ensures i < |s| && s[i] == c && c !in s[..i]
  {
    if s[0] == c then 0 else 1 + IndexOfChar(s[1..], c)
  }

  /** The pieces of `s` glued back together with `c` between them. */
  function Join(parts: seq<string>, c: char): string
    requires |parts| >= 1
  {
    if |parts| == 1 then parts[0] else parts[0] + [c] + Join(parts[1..], c)
  }

  /**
   * PHP `explode($c, $s)` / JavaScript `s.split(c)`: never empty, and no
   * piece holds the separator.
   */
  function Split(s: string, c: char): (parts: seq<string>)
    ensures |parts| >= 1
    ensures forall i :: 0 <= i < |parts| ==> c !in parts[i]
    decreases |s|
  {
    if c !in s then [s]
    else
      var i := IndexOfChar(s, c);
      [s[..i]] + Split(s[i + 1..], c)
  }

  /** Joining the pieces of `Split` with the separator gives `s` back. */
  lemma {:induction false} SplitJoin(s: string, c: char)
    ensures Join(Split(s, c), c) == s
    decreases |s|
  {
    if c in s {
      var i := IndexOfChar(s, c);
      SplitJoin(s[i + 1..], c);
      assert Split(s, c)[1..] == Split(s[i + 1..], c);
      assert s == s[..i] + [c] + s[i + 1..];
    }
  }

  /** In `head + [c] + rest`, with `c` absent from `head`, the first `c` is the one after `head`. */
  lemma IndexOfCharAfter(head: string, c: char, rest: string)
    requires c !in head
    ensures IndexOfChar(head + [c] + rest, c) == |head|
  {
    var s := head + [c] + rest;
    assert s[|head|] == c;
    assert s[..|head|] == head;
  }

  /** Splitting cuts at the first separator. */
  lemma SplitAfter(head: string, c: char, rest: string)
    requires c !in head
    ensures Split(head + [c] + rest, c) == [head] + Split(rest, c)
  {
    var s := head + [c] + rest;
    IndexOfCharAfter(head, c, rest);
    assert s[|head|] == c;
    assert s[..|head|] == head;
    assert s[|head| + 1..] == rest;
  }

  /** Pieces free of the separator come back from `Split` after `Join`. */
  lemma {:induction false} JoinSplit(parts: seq<string>, c: char)
    requires |parts| >= 1
    requires forall i :: 0 <= i < |parts| ==> c !in parts[i]
    ensures Split(Join(parts, c), c) == parts
  {
    if |parts| > 1 {
      var head, rest := parts[0], parts[1..];
      assert forall i :: 0 <= i < |rest| ==> rest[i] == parts[i + 1];
      JoinSplit(rest, c);
      assert Join(parts, c) == head + [c] + Join(rest, c);
      SplitAfter(head, c, Join(rest, c));
      assert [head] + rest == parts;
    }
  }

  /** Cutting at the first separator removes exactly one of them. */
  lemma CountCharCut(s: string, c: char, i: nat)
    requires i < |s| && s[i] == c && c !in s[..i]
    ensures CountChar(s, c) == 1 + CountChar(s[i + 1..], c)
  {
    assert s == s[..i] + ([c] + s[i + 1..]);
    CountCharAppend(s[..i], [c] + s[i + 1..], c);
    CountCharAppend([c], s[i + 1..], c);
    assert CountChar([c], c) == 1;
  }

  /** There is one more piece than there are separators. */
  lemma {:induction false} SplitCount(s: string, c: char)
    ensures |Split(s, c)| == CountChar(s, c) + 1
    decreases |s|
  {
    if c in s {
      var i := IndexOfChar(s, c);
      SplitCount(s[i + 1..], c);
      CountCharCut(s, c, i);
    }
  }

  /** The characters PHP `trim` strips by default: " \t\n\r\0\x0B". */
  predicate IsTrimChar(c: char) {
    c == ' ' || c == '\t' || c == '\n' || c == '\r' || c as int == 0 || c as int == 11
  }

  function TrimLeft(s: string): (r: string)
    ensures |r| <= |s| && r == s[|s| - |r|..]
    ensures r != [] ==> !IsTrimChar(r[0])
  {
    if s != [] && IsTrimChar(s[0]) then TrimLeft(s[1..]) else s
  }

  /** Only whitespace is dropped from the front. */
  lemma {:induction false} TrimLeftDropsSpace(s: string)
    ensures forall i :: 0 <= i < |s| - |TrimLeft(s)| ==> IsTrimChar(s[i])
  {
    if s != [] && IsTrimChar(s[0]) {
      TrimLeftDropsSpace(s[1..]);
      assert forall i :: 1 <= i < |s| ==> s[i] == s[1..][i - 1];
    }
  }

  function TrimRight(s: string): (r: string)
    ensures |r| <= |s| && r == s[..|r|]
    ensures r != [] ==> !IsTrimChar(r[|r| - 1])
  {
    if s != [] && IsTrimChar(s[|s| - 1]) then TrimRight(s[..|s| - 1]) else s
  }

  /** Only whitespace is dropped from the back. */
  lemma {:induction false} TrimRightDropsSpace(s: string)
    ensures forall i :: |TrimRight(s)| <= i < |s| ==> IsTrimChar(s[i])
  {
    if s != [] && IsTrimChar(s[|s| - 1]) {
      TrimRightDropsSpace(s[..|s| - 1]);
    }
  }

  /** PHP `trim($s)`: `s` with its leading and trailing whitespace runs removed. */
  function Trim(s: string): string {
    TrimRight(TrimLeft(s))
  }

  /** `Trim` gives the infix of `s` that starts where `TrimLeft` stopped. */
  lemma TrimInfix(s: string)
    ensures var a := |s| - |TrimLeft(s)|;
      a + |Trim(s)| <= |s| && Trim(s) == s[a..a + |Trim(s)|]
  {
    var l := TrimLeft(s);
    var r := TrimRight(l);
    var a := |s| - |l|;
    assert l == s[a..];
    assert r == l[..|r|];
  }

  /** A nonempty `Trim` result starts and ends with non-whitespace. */
  lemma TrimEnds(s: string)
    requires Trim(s) != []
    ensures !IsTrimChar(Trim(s)[0]) && !IsTrimChar(Trim(s)[|Trim(s)| - 1])
  {
    var l := TrimLeft(s);
    var r := TrimRight(l);
    assert r[0] == l[0];
  }

  /** `Trim` drops only whitespace, on either side of the infix it keeps. */
  lemma TrimDropsSpace(s: string, i: nat)
    requires i < |s|
    requires i < |s| - |TrimLeft(s)| || |s| - |TrimLeft(s)| + |Trim(s)| <= i
    ensures IsTrimChar(s[i])
  {
    var l := TrimLeft(s);
    var a := |s| - |l|;
    TrimLeftDropsSpace(s);
    if a <= i {
      TrimRightDropsSpace(l);
      assert s[i] == l[i - a];
    }
  }

  /**
   * PHP `str_replace($pat, $rep, $s)`: every non-overlapping occurrence of
   * `pat`, scanning left to right, replaced by `rep`.
   */
  function ReplaceAll(s: string, pat: string, rep: string): (r: string)
    requires |pat| > 0
    ensures !Contains(s, pat) ==> r == s
    decreases |s|
  {
    if |s| < |pat| then s
    else if s[..|pat|] == pat then
      assert OccursAt(s, pat, 0);
      rep + ReplaceAll(s[|pat|..], pat, rep)
    else
      NotContainsTail(s, pat);
      [s[0]] + ReplaceAll(s[1..], pat, rep)
  }

  /** An occurrence in the tail of `s` is an occurrence in `s`. */
  lemma NotContainsTail(s: string, pat: string)
    requires |s| > 0
    ensures !Contains(s, pat) ==> !Contains(s[1..], pat)
  {
    if Contains(s[1..], pat) {
      FindFromSpec(s[1..], pat, 0);
      var i := Find(s[1..], pat).value;
      assert s[1..][i..i + |pat|] == s[i + 1..i + 1 + |pat|];
      ContainsAt(s, pat, i + 1);
    }
  }

  /** Removing a leading `pat` that does not recur leaves the rest. */
  lemma ReplaceLeading(pat: string, rest: string, rep: string)
    requires |pat| > 0 && !Contains(rest, pat)
    ensures ReplaceAll(pat + rest, pat, rep) == rep + rest
  {
    assert (pat + rest)[..|pat|] == pat;
    assert (pat + rest)[|pat|..] == rest;
  }

  /** Replacing a character that is absent from `s` leaves `s` alone. */
  lemma {:induction false} ReplaceAbsentChar(s: string, c: char, rep: string)
    requires c !in s
    ensures ReplaceAll(s, [c], rep) == s
  {
    if |s| >= 1 {
      assert s[0] != c && s[..1] == [s[0]];
      ReplaceAbsentChar(s[1..], c, rep);
    }
  }

  /** Replacing one character distributes over concatenation. */
  lemma {:induction false} ReplaceCharAppend(a: string, b: string, c: char, rep: string)
    ensures ReplaceAll(a + b, [c], rep) == ReplaceAll(a, [c], rep) + ReplaceAll(b, [c], rep)
  {
    if a == [] {
      assert a + b == b;
    } else {
      assert (a + b)[1..] == a[1..] + b;
      assert (a + b)[..1] == a[..1];
      ReplaceCharAppend(a[1..], b, c, rep);
    }
  }

  /** PCRE's `\s`: space, \t, \n, \v, \f, \r. */
  predicate IsRegexSpace(c: char) {
    c == ' ' || c == '\t' || c == '\n' || c == '\r' || c as int == 11 || c as int == 12
  }

  /** The end of the run of `\s` characters that starts at `j`. */
  function SkipSpaces(s: string, j: nat): (k: nat)
    requires j <= |s|
    ensures j <= k <= |s|
    ensures k < |s| ==> !IsRegexSpace(s[k])
    decreases |s| - j
  {
    if j < |s| && IsRegexSpace(s[j]) then SkipSpaces(s, j + 1) else j
  }

  /** Everything `SkipSpaces` skips is `\s`. */
  lemma {:induction false} SkipSpacesSkipsSpace(s: string, j: nat)
    requires j <= |s|
    ensures forall i :: j <= i < SkipSpaces(s, j) ==> IsRegexSpace(s[i])
    decreases |s| - j
  {
    if j < |s| && IsRegexSpace(s[j]) {
      SkipSpacesSkipsSpace(s, j + 1);
    }
  }

  /** One octal digit, as `sprintf('%o')` writes it. */
  function OctalDigit(d: nat): char
    requires d < 8
  {
    (48 + d) as char
  }

  /** `sprintf('%o', $n)`: `n` in base 8, most significant digit first. */
  function Octal(n: nat): (s: string)
    ensures |s| >= 1 && s[|s| - 1] == OctalDigit(n % 8)
    ensures n < 8 <==> |s| == 1
    decreases n
  {
    if n < 8 then [OctalDigit(n)] else Octal(n / 8) + [OctalDigit(n % 8)]
  }
}
