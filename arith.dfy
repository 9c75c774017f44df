/** Facts about real ratios used where the source compares a quotient with a threshold. */
module Arith {
  lemma RatioBelow(a: real, n: real, t: real)
    requires n > 0.0
    ensures a / n < t <==> a < t * n
  {
    var q := a / n;
    assert q * n == a;
    if q < t {
      assert (t - q) * n > 0.0;
    } else {
      assert (q - t) * n >= 0.0;
    }
  }

  lemma RatioAbove(a: real, n: real, t: real)
    requires n > 0.0
    ensures a / n > t <==> a > t * n
  {
    var q := a / n;
    assert q * n == a;
    if q > t {
      assert (q - t) * n > 0.0;
    } else {
      assert (t - q) * n >= 0.0;
    }
  }

  lemma RatioAtLeast(a: real, n: real, t: real)
    requires n > 0.0
    ensures a / n >= t <==> a >= t * n
  {
    RatioBelow(a, n, t);
  }

  lemma RatioAtMost(a: real, n: real, t: real)
    requires n > 0.0
    ensures a / n <= t <==> a <= t * n
  {
    RatioAbove(a, n, t);
  }

  lemma RatioUnit(a: real, n: real)
    requires n > 0.0 && 0.0 <= a <= n
    ensures 0.0 <= a / n <= 1.0
  {
    RatioAbove(a, n, 1.0);
    RatioBelow(a, n, 0.0);
  }

  lemma RatioTimes(a: real, n: real)
    requires n > 0.0
    ensures (a / n) * n == a
  {
  }

  lemma MulLe(x: nat, y: nat, n: nat)
    requires x <= y
    ensures x * n <= y * n
  {
  }

  /** A percentage `100 * a / n` of a part `a <= n` that is at least `lo` percent lies in [lo, 100]. */
  lemma PercentRange(a: nat, n: nat, lo: nat)
    requires 0 < n && a <= n && lo * n <= 100 * a
    ensures lo <= (100 * a) / n <= 100
  {
    var q := (100 * a) / n;
    var m := (100 * a) % n;
    assert 100 * a == q * n + m && 0 <= m < n;
    if q < lo {
      MulLe(q + 1, lo, n);
    }
    if q > 100 {
      MulLe(101, q, n);
    }
  }
}
