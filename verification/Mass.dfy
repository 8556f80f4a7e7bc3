/** The distance from a query to every window of a series, both z-normalised: computed from running sums and
    one circular convolution, and what it means window by window. */
module Mass {
  import opened RealMath
  import opened Sums

  const FLAT := 0.000000000001

  /** Square root, of which only this is used. */
  ghost predicate IsRoot(root: real -> real) {
    forall v :: v >= 0.0 ==> root(v) >= 0.0 && Sq(root(v)) == v
  }

  /** s padded with zeros on both sides. */
  function At(s: seq<real>, i: int): real { if 0 <= i < |s| then s[i] else 0.0 }

  function Values(s: seq<real>): int -> real { i => At(s, i) }

  function Squares(s: seq<real>): int -> real { i => Sq(At(s, i)) }

  function Deviations(s: seq<real>, c: real): int -> real { i => Sq(At(s, i) - c) }

  function Products(a: seq<real>, b: seq<real>): int -> real { i => Times(At(a, i), At(b, i)) }

  function Gaps(a: seq<real>, b: seq<real>): int -> real { i => Sq(At(a, i) - At(b, i)) }

  // ---- what the profile means ------------------------------------------------------------------------

  function MeanOf(w: seq<real>): real
    requires w != []
  {
    Sigma(0, |w|, Values(w)) / |w| as real
  }

  function VarianceOf(w: seq<real>): real
    requires w != []
  {
    Sigma(0, |w|, Deviations(w, MeanOf(w))) / |w| as real
  }

  function Scaled(x: real, center: real, scale: real): real
    requires scale != 0.0
  {
    (x - center) / scale
  }

  /** w shifted to mean 0 and scaled to deviation 1. */
  function Normalised(w: seq<real>, scale: real): (z: seq<real>)
    requires w != [] && scale != 0.0
    ensures |z| == |w|
  {
    seq(|w|, i requires 0 <= i < |w| => Scaled(w[i], MeanOf(w), scale))
  }

  function Inner(a: seq<real>, b: seq<real>): real { Sigma(0, |a|, Products(a, b)) }

  function SquaredDistance(a: seq<real>, b: seq<real>): real { Sigma(0, |a|, Gaps(a, b)) }

  // ---- sums of squares ---------------------------------------------------------------------------------

  lemma {:induction false} SqStep(x: real, c: real)
    ensures Sq(x - c) == Sq(x) - 2.0 * Times(c, x) + Sq(c)
  {
  }

  lemma {:induction false} DeviationSum(s: seq<real>, c: real, lo: int, hi: int)
    requires lo <= hi
    ensures Sigma(lo, hi, Deviations(s, c))
         == Sigma(lo, hi, Squares(s)) - 2.0 * Times(c, Sigma(lo, hi, Values(s))) + Times((hi - lo) as real, Sq(c))
    decreases hi - lo
  {
    if lo < hi {
      DeviationSum(s, c, lo, hi - 1);
      SqStep(At(s, hi - 1), c);
      TimesSplit(c, Sigma(lo, hi - 1, Values(s)), At(s, hi - 1));
      TimesAdd((hi - 1 - lo) as real, 1.0, Sq(c));
      assert Times(1.0, Sq(c)) == Sq(c);
      hide Sq, Times;
      assert (hi - lo) as real == (hi - 1 - lo) as real + 1.0;
    } else {
      TimesSplit(c, 0.0, 0.0);
      TimesAdd(0.0, 0.0, Sq(c));
    }
  }

  lemma {:induction false} GapStep(x: real, y: real)
    ensures Sq(x - y) == Sq(x) + Sq(y) - 2.0 * Times(x, y)
    ensures Sq(x - y) + 4.0 * Times(x, y) >= 0.0
    ensures Sq(x - y) >= 0.0
  {
    assert Sq(x - y) + 4.0 * Times(x, y) == Sq(x + y);
    Square(x + y);
    Square(x - y);
  }

  lemma {:induction false} GapSum(a: seq<real>, b: seq<real>, n: nat)
    ensures Sigma(0, n, Gaps(a, b)) == Sigma(0, n, Squares(a)) + Sigma(0, n, Squares(b)) - 2.0 * Sigma(0, n, Products(a, b))
    ensures Sigma(0, n, Gaps(a, b)) >= 0.0
    ensures Sigma(0, n, Gaps(a, b)) + 4.0 * Sigma(0, n, Products(a, b)) >= 0.0
  {
    if n > 0 {
      GapSum(a, b, n - 1);
      GapStep(At(a, n - 1), At(b, n - 1));
    }
  }

  // ---- the normalised query ---------------------------------------------------------------------------

  lemma {:induction false} DivTimes(a: real, c: real)
    requires c != 0.0
    ensures Times(c, a / c) == a
  {
    DivMul(a, c);
  }

  lemma {:induction false} MeanTimes(w: seq<real>)
    requires w != []
    ensures Times(|w| as real, MeanOf(w)) == Sigma(0, |w|, Values(w))
    ensures Times(|w| as real, VarianceOf(w)) == Sigma(0, |w|, Deviations(w, MeanOf(w)))
  {
    DivTimes(Sigma(0, |w|, Values(w)), |w| as real);
    DivTimes(Sigma(0, |w|, Deviations(w, MeanOf(w))), |w| as real);
    hide Times;
  }

  lemma {:induction false} ScaledTimes(x: real, c: real, scale: real)
    requires scale != 0.0
    ensures Times(scale, Scaled(x, c, scale)) == x - c
  {
    DivMul(x - c, scale);
  }

  /** scale times the running sum of the normalised values is the running sum less its share of the mean. */
  lemma {:induction false} NormalisedSum(w: seq<real>, scale: real, n: nat)
    requires w != [] && scale != 0.0 && n <= |w|
    ensures Times(scale, Sigma(0, n, Values(Normalised(w, scale)))) == Sigma(0, n, Values(w)) - Times(n as real, MeanOf(w))
  {
    hide Scaled, MeanOf;
    if n == 0 {
      TimesSplit(scale, 0.0, 0.0);
      TimesAdd(0.0, 0.0, MeanOf(w));
    } else {
      NormalisedSum(w, scale, n - 1);
      ScaledTimes(w[n - 1], MeanOf(w), scale);
      TimesSplit(scale, Sigma(0, n - 1, Values(Normalised(w, scale))), At(Normalised(w, scale), n - 1));
      TimesAdd((n - 1) as real, 1.0, MeanOf(w));
      assert Times(1.0, MeanOf(w)) == MeanOf(w);
      hide Times;
      assert n as real == (n - 1) as real + 1.0;
    }
  }

  lemma {:induction false} TimesZero(a: real, b: real)
    requires a != 0.0 && Times(a, b) == 0.0
    ensures b == 0.0
  {
  }

  lemma {:induction false} TimesCancel(a: real, b: real, c: real)
    requires a != 0.0 && Times(a, b) == Times(a, c)
    ensures b == c
  {
  }

  lemma {:induction false} NormalisedSumsToZero(w: seq<real>, scale: real)
    requires w != [] && scale != 0.0
    ensures Sigma(0, |w|, Values(Normalised(w, scale))) == 0.0
  {
    NormalisedSum(w, scale, |w|);
    MeanTimes(w);
    TimesZero(scale, Sigma(0, |w|, Values(Normalised(w, scale))));
  }

  lemma {:induction false} SqScaled(x: real, c: real, scale: real)
    requires scale != 0.0
    ensures Times(Sq(scale), Sq(Scaled(x, c, scale))) == Sq(x - c)
  {
    var z := Scaled(x, c, scale);
    ScaledTimes(x, c, scale);
    assert Times(Sq(scale), Sq(z)) == Times(scale, z) * Times(scale, z);
  }

  lemma {:induction false} NormalisedSquares(w: seq<real>, scale: real, n: nat)
    requires w != [] && scale != 0.0 && n <= |w|
    ensures Times(Sq(scale), Sigma(0, n, Squares(Normalised(w, scale)))) == Sigma(0, n, Deviations(w, MeanOf(w)))
  {
    hide Scaled, MeanOf;
    if n == 0 {
      TimesSplit(Sq(scale), 0.0, 0.0);
    } else {
      NormalisedSquares(w, scale, n - 1);
      SqScaled(w[n - 1], MeanOf(w), scale);
      TimesSplit(Sq(scale), Sigma(0, n - 1, Squares(Normalised(w, scale))), Sq(At(Normalised(w, scale), n - 1)));
      hide Times, Sq;
    }
  }

  lemma {:induction false} ZeroProduct(a: real, b: real)
    ensures Times(a, b) == 0.0 <==> a == 0.0 || b == 0.0
  {
  }

  lemma {:induction false} SqPositive(x: real)
    requires x != 0.0
    ensures Sq(x) > 0.0
  {
    Square(x);
    ZeroProduct(x, x);
    assert Sq(x) == Times(x, x);
  }

  /** Scaled by its deviation, a window's squares sum to its length. */
  lemma {:induction false} NormalisedSquaresSum(w: seq<real>, scale: real)
    requires w != [] && scale != 0.0 && Sq(scale) == VarianceOf(w)
    ensures Sigma(0, |w|, Squares(Normalised(w, scale))) == |w| as real
  {
    NormalisedSquares(w, scale, |w|);
    MeanTimes(w);
    TimesSwap(|w| as real, VarianceOf(w));
    SqPositive(scale);
    hide Times, Sq, MeanOf, VarianceOf;
    TimesCancel(Sq(scale), Sigma(0, |w|, Squares(Normalised(w, scale))), |w| as real);
  }

  lemma {:induction false} ProductStep(a: real, x: real, c: real, scale: real)
    requires scale != 0.0
    ensures Times(scale, Times(a, Scaled(x, c, scale))) == Times(a, x) - Times(c, a)
  {
    var z := Scaled(x, c, scale);
    ScaledTimes(x, c, scale);
    assert Times(scale, Times(a, z)) == a * Times(scale, z);
    assert a * (x - c) == Times(a, x) - Times(c, a);
  }

  lemma {:induction false} NormalisedProducts(a: seq<real>, w: seq<real>, scale: real, n: nat)
    requires w != [] && scale != 0.0 && n <= |w| == |a|
    ensures Times(scale, Sigma(0, n, Products(a, Normalised(w, scale))))
         == Sigma(0, n, Products(a, w)) - Times(MeanOf(w), Sigma(0, n, Values(a)))
  {
    hide Scaled, MeanOf;
    if n == 0 {
      TimesSplit(scale, 0.0, 0.0);
      TimesSplit(MeanOf(w), 0.0, 0.0);
    } else {
      NormalisedProducts(a, w, scale, n - 1);
      ProductStep(a[n - 1], w[n - 1], MeanOf(w), scale);
      TimesSplit(scale, Sigma(0, n - 1, Products(a, Normalised(w, scale))), Times(a[n - 1], At(Normalised(w, scale), n - 1)));
      TimesSplit(MeanOf(w), Sigma(0, n - 1, Values(a)), a[n - 1]);
      hide Times;
    }
  }

  // ---- the distance from the dot product ---------------------------------------------------------------

  function Correlation(dot: real, m: nat, deviation: real): real
    requires m > 0 && deviation > 0.0
  {
    MulLt(0.0, m as real, deviation);
    dot / (m as real * deviation)
  }

  function FromCorrelation(m: nat, corr: real): real { 2.0 * m as real * (1.0 - corr) }

  lemma {:induction false} CorrelationTimes(dot: real, p: real, m: nat, deviation: real)
    requires m > 0 && deviation > 0.0 && Times(deviation, p) == dot
    ensures FromCorrelation(m, Correlation(dot, m, deviation)) == 2.0 * m as real - 2.0 * p
  {
    var n, corr := m as real, Correlation(dot, m, deviation);
    MulLt(0.0, n, deviation);
    DivMul(dot, n * deviation);
    assert corr * (n * deviation) == Times(deviation, n * corr);
    TimesCancel(deviation, n * corr, p);
    assert 2.0 * n * (1.0 - corr) == 2.0 * n - 2.0 * (n * corr);
  }

  /** The number computed from a window's dot product with the normalised query is the squared distance of the
      two normalised windows, and lies between 0 and four times their length. */
  lemma {:induction false} DistanceFromDot(q: seq<real>, w: seq<real>, sq: real, sw: real)
    requires |q| == |w| > 0 && sq > 0.0 && sw > 0.0 && Sq(sq) == VarianceOf(q) && Sq(sw) == VarianceOf(w)
    ensures var dot := Inner(Normalised(q, sq), w);
            var d := FromCorrelation(|q|, Correlation(dot, |q|, sw));
            d == SquaredDistance(Normalised(q, sq), Normalised(w, sw)) && 0.0 <= d <= 4.0 * |q| as real
  {
    var zq, zw := Normalised(q, sq), Normalised(w, sw);
    var p := Inner(zq, zw);
    GapSum(zq, zw, |q|);
    NormalisedSquaresSum(q, sq);
    NormalisedSquaresSum(w, sw);
    NormalisedProducts(zq, w, sw, |w|);
    NormalisedSumsToZero(q, sq);
    TimesSplit(MeanOf(w), 0.0, 0.0);
    hide Times, Sq, MeanOf, VarianceOf, Normalised, FromCorrelation, Correlation;
    CorrelationTimes(Inner(zq, w), p, |q|, sw);
  }

  // ---- what the distance does not see ---------------------------------------------------------------------

  function Affine(a: real, b: real, q: seq<real>): (w: seq<real>)
    ensures |w| == |q|
  {
    seq(|q|, i requires 0 <= i < |q| => Times(a, q[i]) + b)
  }

  lemma {:induction false} AffineSum(a: real, b: real, q: seq<real>, n: nat)
    requires n <= |q|
    ensures Sigma(0, n, Values(Affine(a, b, q))) == Times(a, Sigma(0, n, Values(q))) + Times(n as real, b)
  {
    if n == 0 {
      TimesSplit(a, 0.0, 0.0);
      TimesAdd(0.0, 0.0, b);
    } else {
      AffineSum(a, b, q, n - 1);
      TimesSplit(a, Sigma(0, n - 1, Values(q)), q[n - 1]);
      TimesAdd((n - 1) as real, 1.0, b);
      assert Times(1.0, b) == b;
      hide Times;
      assert n as real == (n - 1) as real + 1.0;
    }
  }

  lemma {:induction false} TimesOut(n: real, a: real, x: real, b: real)
    ensures Times(n, Times(a, x) + b) == Times(a, Times(n, x)) + Times(n, b)
    ensures Times(n, Times(a, x)) == Times(a, Times(n, x))
  {
  }

  lemma {:induction false} AffineMean(a: real, b: real, q: seq<real>)
    requires q != []
    ensures MeanOf(Affine(a, b, q)) == Times(a, MeanOf(q)) + b
  {
    var w, n := Affine(a, b, q), |q| as real;
    AffineSum(a, b, q, |q|);
    MeanTimes(w);
    MeanTimes(q);
    TimesOut(n, a, MeanOf(q), b);
    hide Times, MeanOf;
    TimesCancel(n, MeanOf(w), Times(a, MeanOf(q)) + b);
  }

  lemma {:induction false} AffineDeviations(a: real, b: real, q: seq<real>, c: real, n: nat)
    requires n <= |q|
    ensures Sigma(0, n, Deviations(Affine(a, b, q), Times(a, c) + b)) == Times(Sq(a), Sigma(0, n, Deviations(q, c)))
  {
    if n == 0 {
      TimesSplit(Sq(a), 0.0, 0.0);
    } else {
      AffineDeviations(a, b, q, c, n - 1);
      AffineDeviation(a, b, q[n - 1], c);
      TimesSplit(Sq(a), Sigma(0, n - 1, Deviations(q, c)), Sq(q[n - 1] - c));
      hide Times, Sq;
    }
  }

  lemma {:induction false} AffineDeviation(a: real, b: real, x: real, c: real)
    ensures Sq(Times(a, x) + b - (Times(a, c) + b)) == Times(Sq(a), Sq(x - c))
  {
    assert Times(a, x) - Times(a, c) == a * (x - c);
  }

  lemma {:induction false} AffineVariance(a: real, b: real, q: seq<real>)
    requires q != []
    ensures VarianceOf(Affine(a, b, q)) == Times(Sq(a), VarianceOf(q))
  {
    var w, n := Affine(a, b, q), |q| as real;
    AffineMean(a, b, q);
    AffineDeviations(a, b, q, MeanOf(q), |q|);
    MeanTimes(w);
    MeanTimes(q);
    TimesOut(n, Sq(a), VarianceOf(q), 0.0);
    hide Times, MeanOf, VarianceOf, Sq;
    TimesCancel(n, VarianceOf(w), Times(Sq(a), VarianceOf(q)));
  }

  lemma {:induction false} ScaledAffine(a: real, b: real, x: real, c: real, s: real)
    requires a > 0.0 && s > 0.0
    ensures Times(a, s) > 0.0 && Scaled(Times(a, x) + b, Times(a, c) + b, Times(a, s)) == Scaled(x, c, s)
  {
    MulLt(0.0, a, s);
    ScaledTimes(x, c, s);
    ScaledTimes(Times(a, x) + b, Times(a, c) + b, Times(a, s));
    assert Times(Times(a, s), Scaled(x, c, s)) == a * Times(s, Scaled(x, c, s));
    assert Times(a, x) + b - (Times(a, c) + b) == a * (x - c);
    TimesCancel(Times(a, s), Scaled(Times(a, x) + b, Times(a, c) + b, Times(a, s)), Scaled(x, c, s));
  }

  /** Amplitude-blind: a window that is the query raised and stretched is at distance zero from it. */
  lemma {:induction false} AffineCopyIsNear(q: seq<real>, sq: real, a: real, b: real)
    requires q != [] && sq > 0.0 && Sq(sq) == VarianceOf(q) && a > 0.0
    ensures var w, sw := Affine(a, b, q), Times(a, sq);
            sw > 0.0 && Sq(sw) == VarianceOf(w) && SquaredDistance(Normalised(q, sq), Normalised(w, sw)) == 0.0
  {
    var w, sw := Affine(a, b, q), Times(a, sq);
    MulLt(0.0, a, sq);
    assert Sq(sw) == Times(Sq(a), Sq(sq));
    AffineVariance(a, b, q);
    AffineMean(a, b, q);
    hide MeanOf, VarianceOf, Sq, Times, Scaled;
    forall i | 0 <= i < |q|
      ensures Normalised(w, sw)[i] == Normalised(q, sq)[i]
    {
      ScaledAffine(a, b, q[i], MeanOf(q), sq);
    }
    assert Normalised(w, sw) == Normalised(q, sq);
    NearItself(Normalised(q, sq), |q|);
  }

  lemma {:induction false} NearItself(z: seq<real>, n: nat)
    ensures Sigma(0, n, Gaps(z, z)) == 0.0
  {
    assert Sq(0.0) == 0.0;
    forall i
      ensures Gaps(z, z)(i) == 0.0
    {
      assert At(z, i) - At(z, i) == 0.0;
    }
    SigmaZero(0, n, Gaps(z, z));
  }
}
