/** Arithmetic over finite sequences of reals: the folds (`reduce`) and the
    extrema (`Math.min` / `Math.max` over a spread array) that every
    indicator formula of the dashboard is built from, with the range facts
    the indicator proofs rely on. */
module Series {

  function Min(a: int, b: int): int
  {
    if a <= b then a else b
  }

  /** Sum in the order `reduce((sum, x) => sum + x, 0)` adds: left to right. */
  function Sum(s: seq<real>): real
  {
    if s == [] then 0.0 else Sum(s[..|s| - 1]) + s[|s| - 1]
  }

  /** Every element of `s` lies in the closed interval [lo, hi]. */
  predicate Within(s: seq<real>, lo: real, hi: real)
  {
    forall i :: 0 <= i < |s| ==> lo <= s[i] <= hi
  }

  /** All elements of `s` are equal. */
  predicate Flat(s: seq<real>)
  {
    forall i :: 0 <= i < |s| ==> s[i] == s[0]
  }

  /** The smallest element, as `Math.min(...s)` gives it for a non-empty `s`. */
  function MinOf(s: seq<real>): (r: real)
    requires |s| > 0
    ensures forall i :: 0 <= i < |s| ==> r <= s[i]
    ensures exists i :: 0 <= i < |s| && s[i] == r
  {
    if |s| == 1 then s[0]
    else
      var m := MinOf(s[..|s| - 1]);
      if s[|s| - 1] < m then s[|s| - 1] else m
  }

  /** The largest element, as `Math.max(...s)` gives it for a non-empty `s`. */
  function MaxOf(s: seq<real>): (r: real)
    requires |s| > 0
    ensures forall i :: 0 <= i < |s| ==> s[i] <= r
    ensures exists i :: 0 <= i < |s| && s[i] == r
  {
    if |s| == 1 then s[0]
    else
      var m := MaxOf(s[..|s| - 1]);
      if s[|s| - 1] > m then s[|s| - 1] else m
  }

  /** A non-empty sequence lies between its own extrema. */
  lemma WithinExtremes(s: seq<real>)
    requires |s| > 0
    ensures Within(s, MinOf(s), MaxOf(s))
  {
  }

  /** Bounding every element bounds the sum: |s|*lo <= Sum(s) <= |s|*hi. */
  lemma {:induction false} SumWithin(s: seq<real>, lo: real, hi: real)
    requires Within(s, lo, hi)
    ensures |s| as real * lo <= Sum(s) <= |s| as real * hi
  {
    if s != [] {
      var p := s[..|s| - 1];
      assert Within(p, lo, hi);
      SumWithin(p, lo, hi);
      assert |s| as real * lo == |p| as real * lo + lo;
      assert |s| as real * hi == |p| as real * hi + hi;
    }
  }

  /** Scaling by a positive factor keeps a strict order. */
  lemma ScaleStrict(a: real, b: real, n: real)
    requires n > 0.0 && a < b
    ensures a * n < b * n
  {
    ProductPositive(b - a, n, b * n - a * n);
  }

  /** A positive factor can be cancelled from both sides of `<=`. */
  lemma ScaleCancel(a: real, b: real, n: real)
    requires n > 0.0 && a * n <= b * n
    ensures a <= b
  {
    if b < a {
      ScaleStrict(b, a, n);
    }
  }

  /** Dividing a sum of `n` bounded terms by `n` stays within the bounds. */
  lemma MeanWithin(s: seq<real>, lo: real, hi: real)
    requires |s| > 0 && Within(s, lo, hi)
    ensures lo <= Sum(s) / |s| as real <= hi
  {
    SumWithin(s, lo, hi);
    var n := |s| as real;
    var m := Sum(s) / n;
    assert m * n == Sum(s);
    ScaleCancel(lo, m, n);
    ScaleCancel(m, hi, n);
  }

  /** A product of two non-negative factors is non-negative. */
  lemma ProductNonNegative(a: real, b: real, p: real)
    requires p == a * b && a >= 0.0 && b >= 0.0
    ensures p >= 0.0
  {
    if a > 0.0 && b > 0.0 {
      ProductPositive(a, b, p);
    }
  }

  /** The EMA update `x * k + p * (1 - k)`: the new value weighted by `k`,
      the previous average by `1 - k`. */
  function Blend(x: real, p: real, k: real): real
  {
    x * k + p * (1.0 - k)
  }

  /** With 0 <= k <= 1, blending two values in [lo, hi] stays in [lo, hi]. */
  lemma ConvexStep(x: real, p: real, k: real, lo: real, hi: real)
    requires 0.0 <= k <= 1.0
    requires lo <= x <= hi && lo <= p <= hi
    ensures lo <= Blend(x, p, k) <= hi
  {
    ProductNonNegative(x - lo, k, (x - lo) * k);
    ProductNonNegative(p - lo, 1.0 - k, (p - lo) * (1.0 - k));
    ProductNonNegative(hi - x, k, (hi - x) * k);
    ProductNonNegative(hi - p, 1.0 - k, (hi - p) * (1.0 - k));
  }

  /** `Math.pow(x, 2)` */
  function Sq(x: real): real
  {
    x * x
  }

  /** A product of two factors of the same strict sign is positive. The
      product is passed in as `p` so that callers can apply this to a square
      without the solver rewriting the square away. */
  lemma ProductPositive(a: real, b: real, p: real)
    requires p == a * b
    requires (a > 0.0 && b > 0.0) || (a < 0.0 && b < 0.0)
    ensures p > 0.0
  {
    if a < 0.0 {
      assert p == (-a) * (-b);
    }
  }

  /** A square is non-negative, and zero only for zero. */
  lemma SqSign(x: real)
    ensures Sq(x) >= 0.0
    ensures Sq(x) == 0.0 <==> x == 0.0
  {
    if x != 0.0 {
      ProductPositive(x, x, Sq(x));
    }
  }

  /** Squaring is injective on the non-negative reals. */
  lemma SqInjective(x: real, y: real)
    requires x >= 0.0 && y >= 0.0
    requires Sq(x) == Sq(y)
    ensures x == y
  {
    if x < y {
      ProductPositive(y - x, y + x, Sq(y) - Sq(x));
    } else if y < x {
      ProductPositive(x - y, x + y, Sq(x) - Sq(y));
    }
  }
}
