/** Facts about floor division and products of naturals that the escalator's proofs use. */
module Arith {

  function Min(a: nat, b: nat): (m: nat)
    ensures m <= a && m <= b && (m == a || m == b)
  {
    if a <= b then a else b
  }

  function Max(a: nat, b: nat): (m: nat)
    ensures m >= a && m >= b && (m == a || m == b)
  {
    if a <= b then b else a
  }

  lemma DivBounds(n: nat, d: nat)
    requires d > 0
    ensures (n / d) * d <= n < (n / d + 1) * d
  {
  }

  lemma DivAtMost(n: nat, d: nat)
    requires d > 0
    ensures n / d <= n
  {
    MulLeq(1, d, n);
    DivAtMostMultiple(n, d, n);
  }

  /** If `k * d <= n` then `k <= n / d`. */
  lemma DivAtLeast(n: nat, d: nat, k: nat)
    requires d > 0 && k * d <= n
    ensures k <= n / d
  {
    DivBounds(n, d);
    if n / d < k {
      MulLeq(n / d + 1, k, d);
    }
  }

  /** If `n <= k * d` then `n / d <= k`. */
  lemma DivAtMostMultiple(n: nat, d: nat, k: nat)
    requires d > 0 && n <= k * d
    ensures n / d <= k
  {
    DivBounds(n, d);
    if n / d > k {
      MulLeq(k + 1, n / d, d);
    }
  }

  lemma MulLeq(a: nat, b: nat, c: nat)
    requires a <= b
    ensures a * c <= b * c
  {
  }

  /** `min * (h + c) <= o * h + n * c <= max * (h + c)` */
  lemma WeightedSumBetween(o: nat, n: nat, h: nat, c: nat)
    ensures Min(o, n) * (h + c) <= o * h + n * c
    ensures o * h + n * c <= Max(o, n) * (h + c)
  {
    if o <= n {
      MulLeq(o, n, c);
      MulLeq(o, n, h);
    } else {
      MulLeq(n, o, c);
      MulLeq(n, o, h);
    }
  }

  /** The floor of a weighted mean lies between the two values. */
  lemma WeightedMeanBetween(o: nat, n: nat, h: nat, c: nat)
    requires h + c > 0
    ensures Min(o, n) <= (o * h + n * c) / (h + c) <= Max(o, n)
  {
    var sum := o * h + n * c;
    WeightedSumBetween(o, n, h, c);
    DivAtLeast(sum, h + c, Min(o, n));
    DivAtMostMultiple(sum, h + c, Max(o, n));
  }

  /** A common positive factor can be cancelled from `a * d <= b * d`. */
  lemma MulCancelLeq(a: nat, b: nat, d: nat)
    requires d > 0 && a * d <= b * d
    ensures a <= b
  {
    if a > b {
      MulLeq(b + 1, a, d);
    }
  }

  /** Floors of ordered quotients are ordered: `q1 * d <= s1 <= s2 < (q2 + 1) * d` gives `q1 <= q2`. */
  lemma FloorMonotone(s1: nat, s2: nat, d: nat, q1: nat, q2: nat)
    requires d > 0 && q1 * d <= s1 <= s2 < (q2 + 1) * d
    ensures q1 <= q2
  {
    if q1 > q2 {
      MulLeq(q2 + 1, q1, d);
    }
  }

  /** If `x * num < (q + 1) * den` and `q <= r`, the same holds of `r`, and `r >= x` once `num >= den`. */
  lemma QuotientFloor(x: nat, num: nat, den: nat, q: nat, r: nat)
    requires den > 0 && x * num < (q + 1) * den && q <= r
    ensures x * num < (r + 1) * den
    ensures num >= den ==> r >= x
  {
    MulLeq(q + 1, r + 1, den);
    if num >= den {
      MulLeq(den, num, x);
      assert x * den < (r + 1) * den;
      if r < x {
        MulLeq(r + 1, x, den);
      }
    }
  }

  /**
   * One escalation through the blend stays within `bound` when
   * `bound * h * num + cap * c * num <= bound * (h + c) * den`:
   * `blended` is the floor of the weighted mean of `o <= bound` and `n <= cap`,
   * and `escalated` the floor of `blended * num / den`.
   */
  lemma BlendStepBound(
    o: nat, n: nat, h: nat, c: nat, num: nat, den: nat,
    blended: nat, escalated: nat, cap: nat, bound: nat)
    requires h + c > 0 && den > 0
    requires blended * (h + c) <= o * h + n * c
    requires escalated * den <= blended * num
    requires o <= bound && n <= cap
    requires bound * h * num + cap * c * num <= bound * (h + c) * den
    ensures escalated <= bound
  {
    var w := h + c;
    var upper := bound * h + cap * c;
    MulLeq(o, bound, h);
    MulLeq(n, cap, c);
    MulLeq(blended * w, upper, num);
    MulSwap(blended, w, num);
    MulDistributes(bound * h, cap * c, num);
    MulSwap(bound, w, den);
    assert (blended * num) * w <= (bound * den) * w;
    MulCancelLeq(blended * num, bound * den, w);
    MulCancelLeq(escalated, bound, den);
  }

  /**
   * When `h * num < (h + c) * den`, the bound `cap * c * num + cap * num`
   * satisfies both conditions of an absorbing bound for estimates up to `cap`.
   */
  lemma DampedBound(h: nat, c: nat, num: nat, den: nat, cap: nat)
    requires den > 0 && h * num < (h + c) * den
    ensures var bound := cap * c * num + cap * num;
      && cap * num <= bound * den
      && bound * h * num + cap * c * num <= bound * (h + c) * den
  {
    var bound := cap * c * num + cap * num;
    MulLeq(1, den, bound);
    assert cap * num <= bound * den;
    MulLeq(h * num + 1, (h + c) * den, bound);
    calc {
      bound * h * num + cap * c * num;
    <=
      bound * h * num + bound;
    ==
      bound * (h * num + 1);
    <=
      bound * ((h + c) * den);
    ==
      bound * (h + c) * den;
    }
  }

  /** Floors of weighted means are monotone in both values. */
  lemma WeightedFloorMonotone(o1: nat, o2: nat, n1: nat, n2: nat, h: nat, c: nat, q1: nat, q2: nat)
    requires h + c > 0 && o1 <= o2 && n1 <= n2
    requires q1 * (h + c) <= o1 * h + n1 * c
    requires o2 * h + n2 * c < (q2 + 1) * (h + c)
    ensures q1 <= q2
  {
    MulLeq(o1, o2, h);
    MulLeq(n1, n2, c);
    FloorMonotone(o1 * h + n1 * c, o2 * h + n2 * c, h + c, q1, q2);
  }

  lemma MulSwap(a: nat, b: nat, c: nat)
    ensures (a * b) * c == (a * c) * b
  {
  }

  lemma MulDistributes(a: nat, b: nat, c: nat)
    ensures (a + b) * c == a * c + b * c
  {
  }

  /**
   * When `(h + c) * den <= h * num` and `cap * c * num > 0`, no `bound`
   * satisfies `bound * h * num + cap * c * num <= bound * (h + c) * den`.
   */
  lemma UndampedUnbounded(h: nat, c: nat, num: nat, den: nat, cap: nat, bound: nat)
    requires h * num >= (h + c) * den
    requires c > 0 && num > 0 && cap > 0
    ensures bound * h * num + cap * c * num > bound * (h + c) * den
  {
    MulLeq((h + c) * den, h * num, bound);
    MulSwap(bound, h, num);
    assert bound * ((h + c) * den) == bound * (h + c) * den;
    assert bound * (h * num) == bound * h * num;
    MulLeq(1, c, cap);
    MulLeq(1, num, cap * c);
  }

  /** With `num <= den`, `cap` is within both conditions of an absorbing bound for itself. */
  lemma UnitMultiplierBound(h: nat, c: nat, num: nat, den: nat, cap: nat)
    requires num <= den
    ensures cap * num <= cap * den
    ensures cap * h * num + cap * c * num <= cap * (h + c) * den
  {
    MulLeq(num, den, cap);
    MulLeq(num, den, cap * h);
    MulLeq(num, den, cap * c);
    MulSwap(cap, h + c, den);
    MulDistributes(cap * h, cap * c, den);
    assert cap * (h + c) == cap * h + cap * c;
  }

  /**
   * With no current weight (`c == 0`, so `h > 0`) and `num > den`, no `bound`
   * satisfies both `cap * num <= bound * den` and `bound * h * num <= bound * h * den`
   * for a positive cap.
   */
  lemma HistoryOnlyGrowth(h: nat, num: nat, den: nat, cap: nat, bound: nat)
    requires h > 0 && num > den && cap > 0
    ensures cap * num > bound * den || bound * h * num > bound * h * den
  {
    if bound == 0 {
      MulLeq(1, num, cap);
    } else {
      MulLeq(1, bound, h);
      MulLeq(den + 1, num, bound * h);
      MulDistributes(den, 1, bound * h);
      MulSwap(bound, h, num);
      MulSwap(bound, h, den);
    }
  }
}
