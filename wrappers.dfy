/** Small failure-carrying datatypes shared by the audit checkers. */
module Wrappers {

  /** A value that may be absent: an unset PHP array key, a missing file. */
  datatype Option<+T> = None | Some(value: T)

  /** The outcome of a call that can throw: a value, or the exception's message. */
  datatype Outcome<+T> = Ok(value: T) | Failed(message: string)

  /** The present values of `xs`, in order: what a loop that appends only on a hit collects. */
  function Present<T>(xs: seq<Option<T>>): (ys: seq<T>)
    ensures |ys| <= |xs|
  {
    if xs == [] then []
    else Present(xs[..|xs| - 1]) + (if xs[|xs| - 1].Some? then [xs[|xs| - 1].value] else [])
  }

  /** The positions `Present` takes its values from, in order. */
  function PresentIndices<T>(xs: seq<Option<T>>): (ks: seq<nat>)
    ensures |ks| == |Present(xs)|
  {
    if xs == [] then []
    else PresentIndices(xs[..|xs| - 1]) + (if xs[|xs| - 1].Some? then [|xs| - 1] else [])
  }

  /** The `k`-th present value comes from a hit at position `PresentIndices(xs)[k]`. */
  lemma {:induction false} PresentIndexHit<T>(xs: seq<Option<T>>, k: nat)
    requires k < |Present(xs)|
    ensures PresentIndices(xs)[k] < |xs| && xs[PresentIndices(xs)[k]] == Some(Present(xs)[k])
  {
    var n := |xs| - 1;
    var front := xs[..n];
    if k < |Present(front)| {
      PresentIndexHit(front, k);
      assert front[PresentIndices(front)[k]] == xs[PresentIndices(front)[k]];
    }
  }

  /** The positions increase strictly: the values keep the order of `xs`. */
  lemma {:induction false} PresentIndicesIncrease<T>(xs: seq<Option<T>>, k: nat, l: nat)
    requires k < l < |Present(xs)|
    ensures PresentIndices(xs)[k] < PresentIndices(xs)[l]
  {
    var n := |xs| - 1;
    var front := xs[..n];
    if l < |Present(front)| {
      PresentIndicesIncrease(front, k, l);
    } else {
      PresentIndexHit(front, k);
    }
  }

  /** Every hit of `xs` is among the present values. */
  lemma {:induction false} PresentHas<T>(xs: seq<Option<T>>, i: nat)
    requires i < |xs| && xs[i].Some?
    ensures xs[i].value in Present(xs)
  {
    var n := |xs| - 1;
    var front := xs[..n];
    if i < n {
      PresentHas(front, i);
      assert front[i] == xs[i];
    }
  }

  /** `f` applied to each element and its index: what `foreach ($xs as $i => $x)` computes per element. */
  function MapIndexed<S, T>(f: (nat, S) -> T, xs: seq<S>): (ys: seq<T>)
    ensures |ys| == |xs|
  {
    if xs == [] then [] else MapIndexed(f, xs[..|xs| - 1]) + [f(|xs| - 1, xs[|xs| - 1])]
  }

  lemma {:induction false} MapIndexedAt<S, T>(f: (nat, S) -> T, xs: seq<S>, i: nat)
    requires i < |xs|
    ensures MapIndexed(f, xs)[i] == f(i, xs[i])
  {
    var n := |xs| - 1;
    if i < n {
      MapIndexedAt(f, xs[..n], i);
    }
  }

  /** One pass over two equally long per-element results, keeping the hits of each in order. */
  method CollectHits<A, B>(xs: seq<Option<A>>, ys: seq<Option<B>>) returns (hitsX: seq<A>, hitsY: seq<B>)
    requires |xs| == |ys|
    ensures hitsX == Present(xs) && hitsY == Present(ys)
  {
    hitsX, hitsY := [], [];
    var i := 0;
    while i < |xs|
      invariant 0 <= i <= |xs|
      invariant hitsX == Present(xs[..i]) && hitsY == Present(ys[..i])
    {
      assert xs[..i + 1][..i] == xs[..i] && ys[..i + 1][..i] == ys[..i];
      if xs[i].Some? {
        hitsX := hitsX + [xs[i].value];
      }
      if ys[i].Some? {
        hitsY := hitsY + [ys[i].value];
      }
      i := i + 1;
    }
    assert xs[..i] == xs && ys[..i] == ys;
  }

  /** `f` applied to each element: PHP `array_map`. */
  function Map<S, T>(f: S -> T, xs: seq<S>): (ys: seq<T>)
    ensures |ys| == |xs|
  {
    if xs == [] then [] else Map(f, xs[..|xs| - 1]) + [f(xs[|xs| - 1])]
  }

  lemma {:induction false} MapAt<S, T>(f: S -> T, xs: seq<S>, i: nat)
    requires i < |xs|
    ensures Map(f, xs)[i] == f(xs[i])
  {
    var n := |xs| - 1;
    if i < n {
      MapAt(f, xs[..n], i);
    }
  }

  /** One more element mapped: what one pass of a `foreach` loop appends. */
  lemma MapStep<S, T>(f: S -> T, xs: seq<S>, i: nat)
    requires i < |xs|
    ensures Map(f, xs[..i + 1]) == Map(f, xs[..i]) + [f(xs[i])]
  {
    assert xs[..i + 1][..i] == xs[..i];
  }

  lemma {:induction false} MapAppend<S, T>(f: S -> T, a: seq<S>, b: seq<S>)
    ensures Map(f, a + b) == Map(f, a) + Map(f, b)
    decreases |b|
  {
    if b == [] {
      assert a + b == a;
    } else {
      var n := |b| - 1;
      assert (a + b)[..|a + b| - 1] == a + b[..n];
      MapAppend(f, a, b[..n]);
    }
  }

  /** Keeping the hits distributes over concatenation. */
  lemma {:induction false} PresentAppend<T>(xs: seq<Option<T>>, ys: seq<Option<T>>)
    ensures Present(xs + ys) == Present(xs) + Present(ys)
    decreases |ys|
  {
    if ys == [] {
      assert xs + ys == xs;
    } else {
      var n := |ys| - 1;
      assert (xs + ys)[..|xs + ys| - 1] == xs + ys[..n];
      PresentAppend(xs, ys[..n]);
    }
  }

  /** How many elements of `xs` satisfy `p`. */
  function Count<T>(p: T -> bool, xs: seq<T>): (n: nat)
    ensures n <= |xs|
  {
    if xs == [] then 0 else Count(p, xs[..|xs| - 1]) + (if p(xs[|xs| - 1]) then 1 else 0)
  }

  /** One more element counted: what one pass of a counting loop adds. */
  lemma CountStep<T>(p: T -> bool, xs: seq<T>, i: nat)
    requires i < |xs|
    ensures Count(p, xs[..i + 1]) == Count(p, xs[..i]) + (if p(xs[i]) then 1 else 0)
  {
    assert xs[..i + 1][..i] == xs[..i];
  }

  lemma {:induction false} CountAppend<T>(p: T -> bool, a: seq<T>, b: seq<T>)
    ensures Count(p, a + b) == Count(p, a) + Count(p, b)
    decreases |b|
  {
    if b == [] {
      assert a + b == a;
    } else {
      var n := |b| - 1;
      assert (a + b)[..|a + b| - 1] == a + b[..n];
      CountAppend(p, a, b[..n]);
    }
  }

  /** Counting the images of `f` is counting the elements whose image satisfies `p`. */
  lemma {:induction false} CountMap<S, T>(p: T -> bool, q: S -> bool, f: S -> T, xs: seq<S>)
    requires forall x :: x in xs ==> q(x) == p(f(x))
    ensures Count(p, Map(f, xs)) == Count(q, xs)
  {
    if xs != [] {
      var n := |xs| - 1;
      assert forall x :: x in xs[..n] ==> x in xs;
      CountMap(p, q, f, xs[..n]);
      assert Map(f, xs)[..n] == Map(f, xs[..n]);
    }
  }

  /** Nothing is counted when no element satisfies `p`. */
  lemma {:induction false} CountNone<T>(p: T -> bool, xs: seq<T>)
    requires forall x :: x in xs ==> !p(x)
    ensures Count(p, xs) == 0
  {
    if xs != [] {
      var n := |xs| - 1;
      assert forall x :: x in xs[..n] ==> x in xs;
      CountNone(p, xs[..n]);
    }
  }

  /** Everything is counted when every element satisfies `p`. */
  lemma {:induction false} CountAll<T>(p: T -> bool, xs: seq<T>)
    requires forall x :: x in xs ==> p(x)
    ensures Count(p, xs) == |xs|
  {
    if xs != [] {
      var n := |xs| - 1;
      assert forall x :: x in xs[..n] ==> x in xs;
      CountAll(p, xs[..n]);
    }
  }

  /** A count is no larger than a count of a weaker property. */
  lemma {:induction false} CountMono<T>(p: T -> bool, q: T -> bool, xs: seq<T>)
    requires forall x :: x in xs && p(x) ==> q(x)
    ensures Count(p, xs) <= Count(q, xs)
  {
    if xs != [] {
      var n := |xs| - 1;
      assert forall x :: x in xs[..n] ==> x in xs;
      CountMono(p, q, xs[..n]);
    }
  }

  /** The elements of `xs` that satisfy `p`, in order. */
  function Filter<T>(p: T -> bool, xs: seq<T>): (ys: seq<T>)
    ensures |ys| <= |xs|
  {
    if xs == [] then [] else (if p(xs[0]) then [xs[0]] else []) + Filter(p, xs[1..])
  }

  /** An element survives the filter iff it was there and satisfies `p`. */
  lemma {:induction false} FilterMember<T>(p: T -> bool, xs: seq<T>, x: T)
    ensures x in Filter(p, xs) <==> x in xs && p(x)
  {
    if xs != [] {
      FilterMember(p, xs[1..], x);
      assert xs == [xs[0]] + xs[1..];
    }
  }

  /** `rank` strictly increases along `xs`. */
  predicate StrictlyRanked<T>(rank: T -> int, xs: seq<T>) {
    forall i, j :: 0 <= i < j < |xs| ==> rank(xs[i]) < rank(xs[j])
  }

  /** An element ranked below everything after it keeps the order. */
  lemma ConsRanked<T>(rank: T -> int, x: T, t: seq<T>)
    requires StrictlyRanked(rank, t)
    requires forall y :: y in t ==> rank(x) < rank(y)
    ensures StrictlyRanked(rank, [x] + t)
  {
    var ys := [x] + t;
    forall i, j | 0 <= i < j < |ys| ensures rank(ys[i]) < rank(ys[j]) {
      assert ys[j] == t[j - 1];
      if i > 0 {
        assert ys[i] == t[i - 1];
      }
    }
  }

  /** Filtering keeps a strict order by `rank`. */
  lemma {:induction false} FilterRanked<T>(p: T -> bool, rank: T -> int, xs: seq<T>)
    requires StrictlyRanked(rank, xs)
    ensures StrictlyRanked(rank, Filter(p, xs))
  {
    if xs != [] {
      var rest := xs[1..];
      assert StrictlyRanked(rank, rest) by {
        forall i, j | 0 <= i < j < |rest| ensures rank(rest[i]) < rank(rest[j]) {
          assert rest[i] == xs[i + 1] && rest[j] == xs[j + 1];
        }
      }
      FilterRanked(p, rank, rest);
      var t := Filter(p, rest);
      if p(xs[0]) {
        forall y | y in t ensures rank(xs[0]) < rank(y) {
          FilterMember(p, rest, y);
          var k :| 0 <= k < |rest| && rest[k] == y;
          assert xs[k + 1] == y;
        }
        ConsRanked(rank, xs[0], t);
      } else {
        assert Filter(p, xs) == [] + t;
      }
    }
  }

  /** Filtering distributes over concatenation. */
  lemma {:induction false} FilterAppend<T>(p: T -> bool, a: seq<T>, b: seq<T>)
    ensures Filter(p, a + b) == Filter(p, a) + Filter(p, b)
  {
    if a != [] {
      assert (a + b)[0] == a[0] && (a + b)[1..] == a[1..] + b;
      FilterAppend(p, a[1..], b);
    } else {
      assert a + b == b;
    }
  }

  /** Nothing survives a filter no element satisfies. */
  lemma {:induction false} FilterNone<T>(p: T -> bool, xs: seq<T>)
    requires forall x :: x in xs ==> !p(x)
    ensures Filter(p, xs) == []
  {
    if xs != [] {
      assert forall x :: x in xs[1..] ==> x in xs;
      FilterNone(p, xs[1..]);
    }
  }

  /** One value per hit: the present values are as many as the hits. */
  lemma {:induction false} PresentCount<T>(xs: seq<Option<T>>)
    ensures |Present(xs)| == Count((x: Option<T>) => x.Some?, xs)
  {
    if xs != [] {
      PresentCount(xs[..|xs| - 1]);
    }
  }

  /** A one-element list survives the filter whole or not at all. */
  lemma FilterSingle<T>(p: T -> bool, x: T)
    ensures Filter(p, [x]) == if p(x) then [x] else []
  {
    assert [x][1..] == [];
  }
}
