/** Half-up rounding of non-negative fractions, and what survives converting an amount there and back. */
module Rounding {
  /** The code's way: quotient and remainder, one more when the remainder is at least half. */
  function RoundHalfUp(n: nat, d: nat): (q: nat)
    requires d > 0
    ensures IsNearest(n, d, q)
  {
    var q, r := n / d, n % d;
    assert q * d + r == n;
    if 2 * r >= d then q + 1 else q
  }

  /** `q` is the nearest integer to `n / d`, the larger one when two are equally near. */
  predicate IsNearest(n: int, d: int, q: int) {
    2 * (q * d) <= 2 * n + d < 2 * (q * d) + 2 * d
  }

  /** There is only one nearest integer. */
  lemma NearestUnique(n: int, d: int, q: int, p: int)
    requires d > 0 && IsNearest(n, d, q) && IsNearest(n, d, p)
    ensures q == p
  {
    if q < p {
      Scale(q + 1, p, d);
    } else if p < q {
      Scale(p + 1, q, d);
    }
  }

  lemma Scale(a: int, b: int, k: int)
    requires a <= b && k >= 0
    ensures a * k <= b * k
  {
  }

  lemma CancelStrict(a: int, b: int, k: int)
    requires k > 0 && a * k < b * k
    ensures a < b
  {
    if a >= b { Scale(b, a, k); }
  }

  lemma Regroup(a: int, b: int, k: int)
    ensures a * (b * k) == (a * b) * k
  {
  }

  lemma Spread(a: int, b: int, k: int)
    ensures (a + b) * k == a * k + b * k
  {
  }

  lemma ScaleFraction(n: int, d: int, q: int, k: int)
    ensures (2 * (q * d)) * k == 2 * (q * (d * k))
    ensures (2 * n + d) * k == 2 * (n * k) + d * k
    ensures (2 * (q * d) + 2 * d) * k == 2 * (q * (d * k)) + 2 * (d * k)
  {
    Regroup(q, d, k);
    Regroup(2, q * d, k);
    Regroup(2, n, k);
    Regroup(2, d, k);
    Spread(2 * n, d, k);
    Spread(2 * (q * d), 2 * d, k);
  }

  lemma {:induction false} NearestScale(n: int, d: int, q: int, k: int)
    requires k > 0
    ensures IsNearest(n, d, q) <==> IsNearest(n * k, d * k, q)
  {
    var lo, mid, hi := 2 * (q * d), 2 * n + d, 2 * (q * d) + 2 * d;
    ScaleFraction(n, d, q, k);
    OrderScales(lo, mid, k);
    OrderScales(hi, mid, k);
  }

  lemma OrderScales(a: int, b: int, k: int)
    requires k > 0
    ensures a <= b <==> a * k <= b * k
  {
    if a <= b {
      Scale(a, b, k);
    } else {
      Scale(b + 1, a, k);
      Spread(b, 1, k);
    }
  }

  /** Only the ratio matters: reducing the fraction first, as rationals do, changes nothing. */
  lemma {:induction false} RatioDecides(n: nat, d: nat, n': nat, d': nat)
    requires d > 0 && d' > 0 && n * d' == n' * d
    ensures RoundHalfUp(n, d) == RoundHalfUp(n', d')
  {
    hide RoundHalfUp, IsNearest;
    var q := RoundHalfUp(n, d);
    NearestScale(n, d, q, d');
    assert d * d' == d' * d;
    NearestScale(n', d', q, d);
    NearestUnique(n', d', q, RoundHalfUp(n', d'));
  }

  lemma NearestBelow(n: int, d: int, q: int, p: int)
    requires d > 0 && IsNearest(n, d, q) && 2 * n + d < 2 * (p * d) + 2 * d
    ensures q <= p
  {
    var a, b := q * d, (p + 1) * d;
    assert b == p * d + d;
    CancelStrict(q, p + 1, d);
  }

  lemma {:induction false} Monotone(n: nat, n': nat, d: nat)
    requires d > 0 && n <= n'
    ensures RoundHalfUp(n, d) <= RoundHalfUp(n', d)
  {
    hide RoundHalfUp;
    var q, p := RoundHalfUp(n, d), RoundHalfUp(n', d);
    NearestBelow(n, d, q, p);
  }

  // ------------------------------------------------------- there and back again

  /** The amount after converting with the exact factor `s/t` and back with `t/s`. */
  function ThereAndBack(p: nat, s: nat, t: nat): nat
    requires s > 0 && t > 0
  {
    RoundHalfUp(RoundHalfUp(p * s, t) * t, s)
  }

  lemma {:induction false} NothingLost(p: nat, s: nat, t: nat)
    requires s >= t > 0
    ensures ThereAndBack(p, s, t) == p
  {
    var q := RoundHalfUp(p * s, t);
    assert IsNearest(q * t, s, p) by {
      if s == t {
        NearestUnique(p * s, t, q, p);
      }
    }
    NearestUnique(q * t, s, p, RoundHalfUp(q * t, s));
  }

  /** If the first `p` amounts all survive, they need as many target amounts. */
  lemma {:induction false} SurvivorsSpread(p: nat, s: nat, t: nat)
    requires s > 0 && t > 0
    requires forall x: nat :: 1 <= x <= p ==> ThereAndBack(x, s, t) == x
    ensures RoundHalfUp(p * s, t) >= p
  {
    if p > 0 {
      SurvivorsSpread(p - 1, s, t);
      Scale(p - 1, p, s);
      Monotone((p - 1) * s, p * s, t);
      assert ThereAndBack(p, s, t) == p;
      if p > 1 {
        assert ThereAndBack(p - 1, s, t) == p - 1;
      } else {
        assert RoundHalfUp(0, s) == 0;
      }
    }
  }

  /** Every amount survives exactly when the target's minor unit is no larger than the source's. */
  lemma {:induction false} AllSurviveIffFiner(s: nat, t: nat)
    requires s > 0 && t > 0
    ensures (forall p: nat :: p >= 1 ==> ThereAndBack(p, s, t) == p) <==> s >= t
  {
    if s >= t {
      forall p: nat | p >= 1 ensures ThereAndBack(p, s, t) == p {
        NothingLost(p, s, t);
      }
    } else if forall p: nat :: p >= 1 ==> ThereAndBack(p, s, t) == p {
      SurvivorsSpread(t, s, t);
      assert IsNearest(t * s, t, s);
      NearestUnique(t * s, t, s, RoundHalfUp(t * s, t));
      assert false;
    }
  }
}
