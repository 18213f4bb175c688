/**
 * The fixed PCRE patterns of the checkers, hand-coded as string predicates.
 * Each pattern's backtracking is deterministic (after a greedy run the next
 * required character can never be one the run consumed), so one left-to-right
 * pass decides each match.
 */
module Patterns {
  import opened Wrappers
  import opened Strings

  /** The PHP variable `$name`. */
  function VarRef(name: string): (v: string)
    ensures |v| == |name| + 1 && v[0] == '$'
  {
    "$" + name
  }

  /** The next non-`\s` character after the occurrence of `v` at `i` is '='. */
  predicate FollowedByAssign(line: string, v: string, i: int)
    requires OccursAt(line, v, i)
  {
    var k := SkipSpaces(line, i + |v|);
    k < |line| && line[k] == '='
  }

  predicate AssignsAt(line: string, v: string, i: int) {
    OccursAt(line, v, i) && FollowedByAssign(line, v, i)
  }

  predicate UsesAt(line: string, v: string, i: int) {
    OccursAt(line, v, i) && !FollowedByAssign(line, v, i)
  }

  /** `preg_match('/\$name\s*=/', $line)`. */
  predicate Assigns(line: string, name: string) {
    exists i :: 0 <= i < |line| && AssignsAt(line, VarRef(name), i)
  }

  /** `preg_match('/\$name(?!\s*=)/', $line)`. */
  predicate Uses(line: string, name: string) {
    exists i :: 0 <= i < |line| && UsesAt(line, VarRef(name), i)
  }

  /** Every occurrence of `$name` is either an assignment or a use. */
  lemma MentionIsAssignOrUse(line: string, name: string)
    ensures Contains(line, VarRef(name)) <==> Assigns(line, name) || Uses(line, name)
  {
    var v := VarRef(name);
    ContainsIff(line, v);
    if Contains(line, v) {
      var i :| OccursAt(line, v, i);
      assert AssignsAt(line, v, i) || UsesAt(line, v, i);
    }
    if Assigns(line, name) {
      var i :| 0 <= i < |line| && AssignsAt(line, v, i);
      ContainsAt(line, v, i);
    }
    if Uses(line, name) {
      var i :| 0 <= i < |line| && UsesAt(line, v, i);
      ContainsAt(line, v, i);
    }
  }

  /** The four include/require patterns of the checkers. */
  datatype Regex =
    | AnyInclude         // (?:include|require)(?:_once)?\s*\(?['"]([^'"]+)['"]
    | AnyIncludeOpener   // (?:require|include)(?:_once)?\s*\(?['"]
    | RequireOnceLoose   // require_once\s*\(?['"]([^'"]+)['"]
    | RequireOnceSpaced  // require_once\s+['"]([^'"]+)['"]

  /** One match: `text` is the whole match (`$match[0]`), `capture` is group 1. */
  datatype Match = Match(start: nat, end: nat, text: string, capture: string)

  predicate IsQuote(c: char) {
    c == '\'' || c == '"'
  }

  /** The index just after the keyword (and its optional `_once`) at `i`. */
  function KeywordEnd(re: Regex, s: string, i: nat): (r: Option<nat>)
    ensures r.Some? ==> i < r.value <= |s|
  {
    if re.AnyInclude? || re.AnyIncludeOpener? then
      if OccursAt(s, "include", i) || OccursAt(s, "require", i) then
        Some(if OccursAt(s, "_once", i + 7) then i + 12 else i + 7)
      else None
    else if OccursAt(s, "require_once", i) then Some(i + 12)
    else None
  }

  /** The index just after the opening quote of a match that starts at `i`. */
  function OpenerEnd(re: Regex, s: string, i: nat): (r: Option<nat>)
    ensures r.Some? ==> i < r.value <= |s| && IsQuote(s[r.value - 1])
  {
    match KeywordEnd(re, s, i)
    case None => None
    case Some(j) =>
      var k := SkipSpaces(s, j);
      if re.RequireOnceSpaced? then
        if j < k < |s| && IsQuote(s[k]) then Some(k + 1) else None
      else
        var q := if k < |s| && s[k] == '(' then k + 1 else k;
        if q < |s| && IsQuote(s[q]) then Some(q + 1) else None
  }

  /** The end of the run of non-quote characters that starts at `j`. */
  function SkipNonQuotes(s: string, j: nat): (k: nat)
    requires j <= |s|
    ensures j <= k <= |s|
    ensures k < |s| ==> IsQuote(s[k])
    decreases |s| - j
  {
    if j < |s| && !IsQuote(s[j]) then SkipNonQuotes(s, j + 1) else j
  }

  /** Everything `SkipNonQuotes` skips is a non-quote. */
  lemma {:induction false} SkipNonQuotesSkipsNonQuotes(s: string, j: nat)
    requires j <= |s|
    ensures forall i :: j <= i < SkipNonQuotes(s, j) ==> !IsQuote(s[i])
    decreases |s| - j
  {
    if j < |s| && !IsQuote(s[j]) {
      SkipNonQuotesSkipsNonQuotes(s, j + 1);
    }
  }

  /** The match of `re` anchored at `i`, if there is one. */
  function MatchAt(re: Regex, s: string, i: nat): (m: Option<Match>)
    ensures m.Some? ==> m.value.start == i < m.value.end <= |s|
    ensures m.Some? ==> m.value.text == s[m.value.start..m.value.end]
    ensures m.Some? && !re.AnyIncludeOpener? ==> m.value.capture != []
  {
    match OpenerEnd(re, s, i)
    case None => None
    case Some(j) =>
      if re.AnyIncludeOpener? then Some(Match(i, j, s[i..j], ""))
      else
        var k := SkipNonQuotes(s, j);
        if j < k < |s| then Some(Match(i, k + 1, s[i..k + 1], s[j..k])) else None
  }

  /** A capture holds no quote character. */
  lemma MatchAtCapture(re: Regex, s: string, i: nat)
    requires MatchAt(re, s, i).Some?
    ensures forall c :: c in MatchAt(re, s, i).value.capture ==> !IsQuote(c)
  {
    match OpenerEnd(re, s, i)
    case Some(j) =>
      SkipNonQuotesSkipsNonQuotes(s, j);
  }

  /** The leftmost match of `re` at or after `from` (`preg_match` from an offset). */
  function FirstMatch(re: Regex, s: string, from: nat): (m: Option<Match>)
    ensures m.Some? ==> from <= m.value.start && MatchAt(re, s, m.value.start) == m
    decreases |s| - from
  {
    if from >= |s| then None
    else match MatchAt(re, s, from)
      case Some(m) => Some(m)
      case None => FirstMatch(re, s, from + 1)
  }

  /** The match found is the leftmost one: no match starts between `from` and it. */
  lemma {:induction false} FirstMatchLeftmost(re: Regex, s: string, from: nat, j: nat)
    requires from <= j
    requires FirstMatch(re, s, from).None? || j < FirstMatch(re, s, from).value.start
    ensures MatchAt(re, s, j).None?
    decreases |s| - from
  {
    if from >= |s| {
      NoMatchPastEnd(re, s, j);
    } else if from < j {
      FirstMatchLeftmost(re, s, from + 1, j);
    }
  }

  /** Nothing matches at or past the end of the subject. */
  lemma NoMatchPastEnd(re: Regex, s: string, j: nat)
    requires j >= |s|
    ensures MatchAt(re, s, j).None?
  {
  }

  /** `preg_match_all`: successive leftmost matches, each search resuming where the last match ended. */
  function AllMatches(re: Regex, s: string, from: nat): (ms: seq<Match>)
    decreases |s| - from
  {
    match FirstMatch(re, s, from)
    case None => []
    case Some(m) => [m] + AllMatches(re, s, m.end)
  }

  /** With no match from `from` on, nothing matches at any position from there. */
  lemma AllMatchesEmpty(re: Regex, s: string, from: nat)
    requires AllMatches(re, s, from) == []
    ensures forall j :: from <= j ==> MatchAt(re, s, j).None?
  {
    forall j | from <= j
      ensures MatchAt(re, s, j).None?
    {
      FirstMatchLeftmost(re, s, from, j);
    }
  }

  /** Every match is a real match at or after `from`, and each ends before the next starts. */
  lemma {:induction false} AllMatchesReal(re: Regex, s: string, from: nat, k: nat)
    requires k < |AllMatches(re, s, from)|
    ensures var ms := AllMatches(re, s, from);
      && from <= ms[k].start && MatchAt(re, s, ms[k].start) == Some(ms[k])
      && (k + 1 < |ms| ==> ms[k].end <= ms[k + 1].start)
    decreases |s| - from
  {
    var m := FirstMatch(re, s, from).value;
    var rest := AllMatches(re, s, m.end);
    assert AllMatches(re, s, from) == [m] + rest;
    if k > 0 {
      AllMatchesReal(re, s, m.end, k - 1);
    } else if rest != [] {
      AllMatchesReal(re, s, m.end, 0);
    }
  }

  /** No match starts between two neighbouring matches. */
  lemma {:induction false} AllMatchesInnerGap(re: Regex, s: string, from: nat, k: nat)
    requires k + 1 < |AllMatches(re, s, from)|
    ensures var ms := AllMatches(re, s, from);
      forall j :: ms[k].end <= j < ms[k + 1].start ==> MatchAt(re, s, j).None?
    decreases |s| - from
  {
    var m := FirstMatch(re, s, from).value;
    var rest := AllMatches(re, s, m.end);
    var ms := AllMatches(re, s, from);
    assert ms == [m] + rest;
    if k > 0 {
      AllMatchesInnerGap(re, s, m.end, k - 1);
      assert ms[k] == rest[k - 1] && ms[k + 1] == rest[k];
    } else {
      assert ms[0] == m && ms[1] == rest[0];
      FirstMatchGap(re, s, m.end);
    }
  }

  /** No match starts after the last one ends. */
  lemma {:induction false} AllMatchesLastGap(re: Regex, s: string, from: nat, k: nat)
    requires k + 1 == |AllMatches(re, s, from)|
    ensures var ms := AllMatches(re, s, from);
      forall j :: ms[k].end <= j ==> MatchAt(re, s, j).None?
    decreases |s| - from
  {
    var m := FirstMatch(re, s, from).value;
    var rest := AllMatches(re, s, m.end);
    var ms := AllMatches(re, s, from);
    assert ms == [m] + rest;
    if k > 0 {
      AllMatchesLastGap(re, s, m.end, k - 1);
      assert ms[k] == rest[k - 1];
    } else {
      assert ms[0] == m;
      AllMatchesEmpty(re, s, m.end);
    }
  }

  /**
   * Every match is a real match at or after `from`, each ends before the
   * next starts, and none is skipped: nothing matches before the first,
   * between two neighbours, or after the last.
   */
  lemma AllMatchesAt(re: Regex, s: string, from: nat, k: nat)
    requires k < |AllMatches(re, s, from)|
    ensures var ms := AllMatches(re, s, from);
      && from <= ms[k].start && MatchAt(re, s, ms[k].start) == Some(ms[k])
      && (k + 1 < |ms| ==> ms[k].end <= ms[k + 1].start)
      && (k == 0 ==> forall j :: from <= j < ms[0].start ==> MatchAt(re, s, j).None?)
      && (k + 1 < |ms| ==> forall j :: ms[k].end <= j < ms[k + 1].start ==> MatchAt(re, s, j).None?)
      && (k + 1 == |ms| ==> forall j :: ms[k].end <= j ==> MatchAt(re, s, j).None?)
  {
    var ms := AllMatches(re, s, from);
    AllMatchesReal(re, s, from, k);
    if k == 0 {
      assert ms[0] == FirstMatch(re, s, from).value;
      FirstMatchGap(re, s, from);
    }
    if k + 1 < |ms| {
      AllMatchesInnerGap(re, s, from, k);
    } else {
      AllMatchesLastGap(re, s, from, k);
    }
  }

  /** Nothing matches between `from` and the match `preg_match` finds from there. */
  lemma FirstMatchGap(re: Regex, s: string, from: nat)
    requires FirstMatch(re, s, from).Some?
    ensures forall j :: from <= j < FirstMatch(re, s, from).value.start ==> MatchAt(re, s, j).None?
  {
    forall j | from <= j < FirstMatch(re, s, from).value.start
      ensures MatchAt(re, s, j).None?
    {
      FirstMatchLeftmost(re, s, from, j);
    }
  }

  /**
   * The delimiter-balance heuristic: as many `open` as `close` characters in
   * the whole text, those inside string literals and comments included.
   */
  predicate Balanced(s: string, open: char, close: char) {
    CountChar(s, open) == CountChar(s, close)
  }

  /** After a balanced prefix, balance is decided by the rest alone. */
  lemma BalancedConcat(a: string, b: string, open: char, close: char)
    requires Balanced(a, open, close)
    ensures Balanced(a + b, open, close) <==> Balanced(b, open, close)
  {
    CountCharAppend(a, b, open);
    CountCharAppend(a, b, close);
  }

  /** A line in which an include pattern matches mentions `include` or `require`. */
  lemma IncludeMatchHasKeyword(re: Regex, s: string, i: nat)
    requires MatchAt(re, s, i).Some?
    ensures Contains(s, "include") || Contains(s, "require")
  {
    if OccursAt(s, "include", i) {
      ContainsAt(s, "include", i);
    } else {
      assert OccursAt(s, "require", i) by {
        if !(re.AnyInclude? || re.AnyIncludeOpener?) {
          assert s[i..i + 7] == s[i..i + 12][..7];
        }
      }
      ContainsAt(s, "require", i);
    }
  }
}
