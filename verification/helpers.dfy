/** Small numeric helpers shared by the simulation: `clamp` and the `Math.max`/`Math.min`
    it is built from, over exact reals. */
module Helpers {

  function Max(a: real, b: real): (r: real)
    ensures r >= a && r >= b
    ensures r == a || r == b
  {
    if a >= b then a else b
  }

  function Min(a: real, b: real): (r: real)
    ensures r <= a && r <= b
    ensures r == a || r == b
  {
    if a <= b then a else b
  }

  /** `Math.max(lo, Math.min(hi, v))`. The result is never below `lo`; when the band is
      non-empty it lies in `[lo, hi]`, and a value already in the band is returned as is. */
  function Clamp(v: real, lo: real, hi: real): (r: real)
    ensures r >= lo
    ensures lo <= hi ==> r <= hi
    ensures lo <= v <= hi ==> r == v
    ensures v < lo ==> r == lo
    ensures lo <= hi < v ==> r == hi
  {
    Max(lo, Min(hi, v))
  }

  /** Among the points of a non-empty band, the clamped value is the nearest one to `v`. */
  lemma ClampIsNearest(v: real, lo: real, hi: real, p: real)
    requires lo <= p <= hi
    ensures (v - Clamp(v, lo, hi)) * (v - Clamp(v, lo, hi)) <= (v - p) * (v - p)
  {
    var c := Clamp(v, lo, hi);
    if v < lo {
      SquareMonotone(c - v, p - v);
    } else if v > hi {
      SquareMonotone(v - c, v - p);
      assert (v - c) * (v - c) == (c - v) * (c - v);
    } else {
      assert c == v;
    }
  }

  // The bounds below are written with strict comparisons and `==` rather than `<=`:
  // the solver settles these nonlinear facts in that form and may give up on the other.
  lemma SquareMonotone(a: real, b: real)
    requires (0.0 < a && a < b) || a == b
    ensures a * a <= b * b
  {
    if a != b {
      assert a * (b - a) > 0.0;
      assert b * (b - a) > 0.0;
    }
  }

  lemma SquareNonneg(x: real)
    ensures x * x >= 0.0
  {
    if x < 0.0 {
      SquarePositive(-x);
      assert (-x) * (-x) == x * x;
    } else if x > 0.0 {
      SquarePositive(x);
    }
  }

  lemma SquarePositive(x: real)
    requires x > 0.0
    ensures x * x > 0.0
  {
  }
}
