/**
 * The passed-over-total scores of the checkers, in integer arithmetic.
 * A percentage `p/t*100` is compared exactly (`100*p >= k*t`), and PHP's
 * `round(p/t*100, 1)` is kept in tenths of a percent.
 */
module Scoring {

  /** `round(passed / total * 100, 1)` in tenths of a percent (half rounds up). */
  function RoundedTenths(passed: nat, total: nat): (t: nat)
    requires total > 0
    ensures 2 * total * t <= 2000 * passed + total < 2 * total * (t + 1)
  {
    (2000 * passed + total) / (2 * total)
  }

  /** Multiplying by a positive factor keeps a strict order, and back. */
  lemma MulStrict(x: nat, a: nat, b: nat)
    requires x > 0
    ensures x * a < x * b <==> a < b
  {
    if a < b {
      assert x * b == x * a + x * (b - a);
    } else {
      assert x * a == x * b + x * (a - b);
    }
  }

  /** The score never leaves [0, 100.0], and its ends are 0 and 100.0. */
  lemma RoundedTenthsBounds(passed: nat, total: nat)
    requires 0 < total && passed <= total
    ensures RoundedTenths(passed, total) <= 1000
    ensures passed == total ==> RoundedTenths(passed, total) == 1000
    ensures passed == 0 ==> RoundedTenths(passed, total) == 0
  {
    var t := RoundedTenths(passed, total);
    var x := 2 * total;
    assert 2000 * passed + total < x * 1001 by {
      assert 2000 * passed <= 2000 * total;
    }
    MulStrict(x, t, 1001);
    if passed == total {
      assert x * 1000 < 2000 * passed + total + 1;
      MulStrict(x, 999, t);
    }
    if passed == 0 {
      MulStrict(x, 0, t);
    }
  }

  /** More passed checks out of the same total never lower the score. */
  lemma RoundedTenthsMonotonic(p1: nat, p2: nat, total: nat)
    requires total > 0 && p1 <= p2
    ensures RoundedTenths(p1, total) <= RoundedTenths(p2, total)
  {
    var t1, t2 := RoundedTenths(p1, total), RoundedTenths(p2, total);
    var x := 2 * total;
    assert x * t1 < x * (t2 + 1) by {
      assert 2000 * p1 <= 2000 * p2;
    }
    MulStrict(x, t1, t2 + 1);
  }

  /** Comparing the rounded score with `pct` is comparing `p/t` with `pct - 0.05`. */
  lemma RoundedAtLeast(passed: nat, total: nat, pct: nat)
    requires total > 0
    ensures RoundedTenths(passed, total) >= 10 * pct <==> 2000 * passed + total >= 20 * pct * total
  {
    var t := RoundedTenths(passed, total);
    var x := 2 * total;
    assert x * (10 * pct) == 20 * pct * total;
    MulStrict(x, t, 10 * pct);
    MulStrict(x, 10 * pct, t + 1);
  }

  /** `passed / total * 100 >= pct`, exactly. */
  predicate AtLeastPercent(passed: nat, total: nat, pct: nat) {
    100 * passed >= pct * total
  }
}
