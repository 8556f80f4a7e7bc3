/** Has this asset looked like this before. */
module Novelty {
  // The distance profile as it is computed, and the memory it is computed against.

  import opened IntMath
  import opened Mass
  import opened RealMath
  import opened Samples
  import opened Sums

  const HISTORY_MAX: nat := 200000

  // ---- the sliding dot products ------------------------------------------------------------------------

  function Reverse(q: seq<real>): (r: seq<real>)
    ensures |r| == |q|
  {
    seq(|q|, i requires 0 <= i < |q| => q[|q| - 1 - i])
  }

  function Wrapped(t: seq<real>, r: seq<real>, nf: nat, s: int): int -> real
    requires nf > 0
  {
    a => Times(At(t, a), At(r, (s - a) % nf))
  }

  /** Entry s of the circular convolution of two sequences padded with zeros to length nf. */
  function Circular(t: seq<real>, r: seq<real>, nf: nat, s: int): real
    requires nf > 0
  {
    Sigma(0, nf, Wrapped(t, r, nf, s))
  }

  /** The smallest power of two that is at least n. */
  function PadTo(n: nat): (p: nat)
    ensures p >= n && p >= 1 && (n >= 2 ==> p < 2 * n)
  {
    if n <= 1 then 1 else 2 * PadTo((n + 1) / 2)
  }

  lemma {:induction false} TimesNone(a: real, b: real)
    ensures a == 0.0 || b == 0.0 ==> Times(a, b) == 0.0
  {
  }

  /** Outside the window the wrapped product vanishes: no term wraps around onto it. */
  lemma {:induction false} OutsideVanishes(t: seq<real>, q: seq<real>, nf: nat, k: nat, a: nat)
    requires q != [] && k + |q| <= |t| <= nf && a < nf && !(k <= a < k + |q|)
    ensures Wrapped(t, Reverse(q), nf, |q| - 1 + k)(a) == 0.0
  {
    var s := |q| - 1 + k;
    TimesNone(At(t, a), At(Reverse(q), (s - a) % nf));
    if a < k {
      ModIs(s - a, nf, 0, s - a);
    } else if a < |t| {
      ModIs(s - a, nf, -1, s - a + nf);
    }
  }

  lemma {:induction false} InsideIsProduct(t: seq<real>, q: seq<real>, nf: nat, k: nat, i: nat)
    requires q != [] && k + |q| <= |t| <= nf && i < |q|
    ensures Wrapped(t, Reverse(q), nf, |q| - 1 + k)(i + k) == Products(q, t[k..k + |q|])(i)
  {
    var s := |q| - 1 + k;
    ModIs(s - (i + k), nf, 0, |q| - 1 - i);
    TimesSwap(t[i + k], q[i]);
  }

  lemma {:induction false} OutsideSum(t: seq<real>, q: seq<real>, nf: nat, k: nat, lo: nat, hi: nat)
    requires q != [] && k + |q| <= |t| <= nf && lo <= hi <= nf && (hi <= k || k + |q| <= lo)
    ensures Sigma(lo, hi, Wrapped(t, Reverse(q), nf, |q| - 1 + k)) == 0.0
    decreases hi - lo
  {
    hide Wrapped;
    if lo < hi {
      OutsideSum(t, q, nf, k, lo, hi - 1);
      OutsideVanishes(t, q, nf, k, hi - 1);
    }
  }

  lemma {:induction false} InsideSum(t: seq<real>, q: seq<real>, nf: nat, k: nat, n: nat)
    requires q != [] && k + |q| <= |t| <= nf && n <= |q|
    ensures Sigma(k, k + n, Wrapped(t, Reverse(q), nf, |q| - 1 + k)) == Sigma(0, n, Products(q, t[k..k + |q|]))
  {
    hide Wrapped, Products;
    if n > 0 {
      InsideSum(t, q, nf, k, n - 1);
      InsideIsProduct(t, q, nf, k, n - 1);
    }
  }

  /** With padding to at least the series' length, entry m - 1 + k of the circular convolution with the
      reversed query is the dot product of the query and window k. */
  lemma {:induction false} ConvolutionIsDot(t: seq<real>, q: seq<real>, nf: nat, k: nat)
    requires q != [] && k + |q| <= |t| <= nf
    ensures Circular(t, Reverse(q), nf, |q| - 1 + k) == Inner(q, t[k..k + |q|])
  {
    hide Wrapped, Products, Sigma;
    var f := Wrapped(t, Reverse(q), nf, |q| - 1 + k);
    SigmaSplit(0, k, nf, f);
    SigmaSplit(k, k + |q|, nf, f);
    OutsideSum(t, q, nf, k, 0, k);
    OutsideSum(t, q, nf, k, k + |q|, nf);
    InsideSum(t, q, nf, k, |q|);
  }

  // ---- running sums ----------------------------------------------------------------------------------------

  method CumulativeSum(x: seq<real>) returns (cs: seq<real>)
    ensures |cs| == |x| + 1 && forall i :: 0 <= i <= |x| ==> cs[i] == Sigma(0, i, Values(x))
  {
    cs := [0.0];
    for i := 0 to |x|
      invariant |cs| == i + 1 && forall j :: 0 <= j <= i ==> cs[j] == Sigma(0, j, Values(x))
    {
      cs := cs + [cs[i] + x[i]];
    }
  }

  function SquareAll(x: seq<real>): (y: seq<real>)
    ensures |y| == |x|
  {
    seq(|x|, i requires 0 <= i < |x| => Sq(x[i]))
  }

  /** Differences of running sums are the sums over a window. */
  lemma {:induction false} WindowSums(t: seq<real>, m: nat, k: nat)
    requires k + m <= |t|
    ensures Sigma(0, k + m, Values(t)) - Sigma(0, k, Values(t)) == Sigma(0, m, Values(t[k..k + m]))
    ensures Sigma(0, k + m, Values(SquareAll(t))) - Sigma(0, k, Values(SquareAll(t))) == Sigma(0, m, Squares(t[k..k + m]))
  {
    var w, u := t[k..k + m], SquareAll(t);
    hide Sq;
    SigmaSplit(0, k, k + m, Values(t));
    SigmaShift(0, m, k, Values(w), Values(t));
    SigmaSplit(0, k, k + m, Values(u));
    SigmaShift(0, m, k, Squares(w), Values(u));
  }

  lemma {:induction false} MeanSquare(m: real, mean: real, sum: real)
    requires Times(m, mean) == sum
    ensures Times(mean, sum) == Times(m, Sq(mean))
  {
  }

  lemma {:induction false} VarianceForm(m: real, s2: real, msq: real, total: real)
    requires m != 0.0 && total == s2 - Times(m, msq)
    ensures total / m == s2 / m - msq
  {
    DivTimes(total, m);
    DivTimes(s2, m);
    TimesSplit(m, total / m, msq);
    TimesCancel(m, total / m + msq, s2 / m);
  }

  /** Mean of squares less square of the mean is the mean squared deviation. */
  lemma {:induction false} VarianceFromSums(w: seq<real>)
    requires w != []
    ensures Sigma(0, |w|, Squares(w)) / |w| as real - Sq(MeanOf(w)) == VarianceOf(w)
  {
    var m := |w| as real;
    DeviationSum(w, MeanOf(w), 0, |w|);
    MeanTimes(w);
    MeanSquare(m, MeanOf(w), Sigma(0, |w|, Values(w)));
    hide MeanOf, Sq, Times;
    VarianceForm(m, Sigma(0, |w|, Squares(w)), Sq(MeanOf(w)), Sigma(0, |w|, Deviations(w, MeanOf(w))));
  }

  lemma {:induction false} VarianceNonneg(w: seq<real>)
    requires w != []
    ensures VarianceOf(w) >= 0.0
  {
    var f := Deviations(w, MeanOf(w));
    forall i: int
      ensures f(i) >= 0.0
    {
      Square(At(w, i) - MeanOf(w));
    }
    SigmaNonneg(0, |w|, f);
    DivBound(Sigma(0, |w|, f), 0.0, |w| as real);
  }

  // ---- the profile ---------------------------------------------------------------------------------------------

  lemma {:induction false} SqDifference(a: real, b: real)
    ensures Times(b - a, b + a) == Sq(b) - Sq(a)
  {
  }

  lemma {:induction false} SqLt(a: real, b: real)
    requires 0.0 <= a < b
    ensures Sq(a) < Sq(b)
  {
    SqDifference(a, b);
    TimesLt(0.0, b - a, b + a);
    TimesAdd(0.0, 0.0, b + a);
    hide Sq, Times;
  }

  lemma {:induction false} SqZero(a: real)
    ensures Sq(a) == 0.0 <==> a == 0.0
  {
    ZeroProduct(a, a);
    assert Times(a, a) == Sq(a);
  }

  lemma {:induction false} RootOrder(root: real -> real, x: real, y: real)
    requires IsRoot(root) && x >= 0.0 && y >= 0.0
    ensures x <= y <==> root(x) <= root(y)
    ensures root(x) == 0.0 <==> x == 0.0
  {
    var a, b := root(x), root(y);
    assert Sq(a) == x && Sq(b) == y && a >= 0.0 && b >= 0.0;
    hide Sq;
    if a < b {
      SqLt(a, b);
    } else if b < a {
      SqLt(b, a);
    }
    SqZero(a);
  }

  lemma {:induction false} RootOfFour(root: real -> real, x: real)
    requires IsRoot(root) && x >= 0.0
    ensures root(4.0 * x) == 2.0 * root(x)
  {
    var a, b := root(4.0 * x), 2.0 * root(x);
    assert Sq(root(x)) == x && Sq(a) == 4.0 * x;
    assert Sq(b) == 4.0 * Sq(root(x));
    SameRoot(a, b);
  }

  lemma {:induction false} SameRoot(a: real, b: real)
    requires a >= 0.0 && b >= 0.0 && Sq(a) == Sq(b)
    ensures a == b
  {
    SqDifference(b, a);
    ZeroProduct(a - b, a + b);
  }

  function Deviation(root: real -> real, w: seq<real>): real
    requires w != []
  {
    root(VarianceOf(w))
  }

  /** The z-normalised distance of a window from the query; maximal for a flat query, and that of uncorrelated
      windows for a flat window. */
  function Distance(root: real -> real, q: seq<real>, w: seq<real>): real
    requires |q| == |w| > 0
  {
    var sq, sw := Deviation(root, q), Deviation(root, w);
    if sq < 0.000000000001 then 2.0 * root(|q| as real)
    else if sw > 0.000000000001 then root(SquaredDistance(Normalised(q, sq), Normalised(w, sw)))
    else root(2.0 * |q| as real)
  }

  /** One entry of the profile, from the running sums and the convolution. */
  function Entry(root: real -> real, m: nat, mean: real, meanSquares: real, conv: real): real
    requires m > 0
  {
    var variance := meanSquares - Sq(mean);
    var deviation := root(Max(variance, 0.0));
    var corr := if deviation > FLAT then Correlation(conv, m, deviation) else 0.0;
    root(Max(FromCorrelation(m, corr), 0.0))
  }

  lemma {:induction false} EntryIsDistance(root: real -> real, q: seq<real>, w: seq<real>, conv: real)
    requires IsRoot(root) && |q| == |w| > 0 && Deviation(root, q) >= FLAT
    requires conv == Inner(Normalised(q, Deviation(root, q)), w)
    ensures Entry(root, |q|, MeanOf(w), Sigma(0, |w|, Squares(w)) / |w| as real, conv) == Distance(root, q, w)
  {
    VarianceFromSums(w);
    VarianceNonneg(w);
    VarianceNonneg(q);
    var sq, sw := Deviation(root, q), Deviation(root, w);
    assert Sq(sq) == VarianceOf(q) && Sq(sw) == VarianceOf(w);
    hide MeanOf, VarianceOf, Sq, Normalised, Correlation, Inner, SquaredDistance, IsRoot;
    if sw > FLAT {
      DistanceFromDot(q, w, sq, sw);
    } else {
      assert FromCorrelation(|q|, 0.0) == 2.0 * |q| as real;
    }
  }

  /** Shape distances lie between 0 and the distance given to a flat query. */
  lemma {:induction false} DistanceInRange(root: real -> real, q: seq<real>, w: seq<real>)
    requires IsRoot(root) && |q| == |w| > 0
    ensures 0.0 <= Distance(root, q, w) <= 2.0 * root(|q| as real)
  {
    var m := |q| as real;
    var sq, sw := Deviation(root, q), Deviation(root, w);
    VarianceNonneg(w);
    VarianceNonneg(q);
    RootOfFour(root, m);
    RootOrder(root, 2.0 * m, 4.0 * m);
    assert root(m) >= 0.0 && root(2.0 * m) >= 0.0;
    assert Sq(sq) == VarianceOf(q) && Sq(sw) == VarianceOf(w);
    hide MeanOf, VarianceOf, Normalised, Correlation, Inner, FromCorrelation;
    if sq >= FLAT && sw > FLAT {
      DistanceFromDot(q, w, sq, sw);
      var d := SquaredDistance(Normalised(q, sq), Normalised(w, sw));
      RootOrder(root, d, 4.0 * m);
      assert root(d) >= 0.0;
    }
  }

  /** A past window that is the query raised and stretched makes it not novel at all. */
  lemma {:induction false} SeenShapeIsZero(root: real -> real, q: seq<real>, a: real, b: real)
    requires IsRoot(root) && q != [] && a > 0.0
    requires Deviation(root, q) >= FLAT && Deviation(root, Affine(a, b, q)) > FLAT
    ensures Distance(root, q, Affine(a, b, q)) == 0.0
  {
    var w, sq := Affine(a, b, q), Deviation(root, q);
    VarianceNonneg(q);
    VarianceNonneg(w);
    assert Sq(sq) == VarianceOf(q) && Sq(Deviation(root, w)) == VarianceOf(w);
    hide MeanOf, VarianceOf, Normalised, Sq, Affine;
    AffineCopyIsNear(q, sq, a, b);
    SameRoot(Deviation(root, w), Times(a, sq));
    RootOrder(root, 0.0, 0.0);
  }

  lemma {:induction false} FlatQuery(root: real -> real, q: seq<real>)
    requires q != []
    ensures Deviation(root, q) < FLAT ==> forall w: seq<real> :: |w| == |q| ==> Distance(root, q, w) == 2.0 * root(|q| as real)
  {
    hide Deviation;
  }

  /** The entry computed for window k from the running sums around it. */
  lemma {:induction false} EntryAt(root: real -> real, q: seq<real>, t: seq<real>, nf: nat, k: nat, a: real, b: real, a2: real, b2: real)
    requires IsRoot(root) && q != [] && Deviation(root, q) >= FLAT && k + |q| <= |t| <= nf
    requires a == Sigma(0, k, Values(t)) && b == Sigma(0, k + |q|, Values(t))
    requires a2 == Sigma(0, k, Values(SquareAll(t))) && b2 == Sigma(0, k + |q|, Values(SquareAll(t)))
    ensures Entry(root, |q|, (b - a) / |q| as real, (b2 - a2) / |q| as real,
                  Circular(t, Reverse(Normalised(q, Deviation(root, q))), nf, |q| - 1 + k))
         == Distance(root, q, t[k..k + |q|])
  {
    hide Distance, Entry, Deviation, Normalised, Circular, Sigma, Values, SquareAll;
    WindowSums(t, |q|, k);
    ConvolutionIsDot(t, Normalised(q, Deviation(root, q)), nf, k);
    EntryIsDistance(root, q, t[k..k + |q|], Inner(Normalised(q, Deviation(root, q)), t[k..k + |q|]));
  }

  /** The z-normalised distance from the query to every window of the series. */
  method MassDistanceProfile(root: real -> real, q: seq<real>, t: seq<real>) returns (profile: seq<real>)
    requires IsRoot(root) && q != []
    ensures |t| < |q| ==> profile == []
    ensures |t| >= |q| ==> |profile| == |t| - |q| + 1
    ensures forall k :: 0 <= k < |profile| ==> profile[k] == Distance(root, q, t[k..k + |q|])
  {
    hide Distance, Entry, Deviation, Normalised, Circular, Sigma, Values, SquareAll, PadTo;
    var m, n := |q|, |t|;
    if n < m {
      return [];
    }
    var sigQ := Deviation(root, q);
    if sigQ < FLAT {
      FlatQuery(root, q);
      return seq(n - m + 1, _ => 2.0 * root(m as real));
    }
    var z := Normalised(q, sigQ);
    var cs := CumulativeSum(t);
    var cs2 := CumulativeSum(SquareAll(t));
    var nf := PadTo(n + m);
    profile := [];
    for k := 0 to n - m + 1
      invariant |profile| == k
      invariant forall j :: 0 <= j < k ==> profile[j] == Distance(root, q, t[j..j + m])
    {
      EntryAt(root, q, t, nf, k, cs[k], cs[k + m], cs2[k], cs2[k + m]);
      profile := profile + [Entry(root, m, (cs[k + m] - cs[k]) / m as real, (cs2[k + m] - cs2[k]) / m as real,
                                  Circular(t, Reverse(z), nf, m - 1 + k))];
    }
  }

  // ---- the memory ------------------------------------------------------------------------------------------------

  function Size(chunks: seq<seq<real>>): nat { if chunks == [] then 0 else |chunks[0]| + Size(chunks[1..]) }

  lemma {:induction false} SizeSnoc(chunks: seq<seq<real>>, c: seq<real>)
    ensures Size(chunks + [c]) == Size(chunks) + |c|
  {
    if chunks == [] {
      assert chunks + [c] == [c];
    } else {
      assert (chunks + [c])[1..] == chunks[1..] + [c];
      SizeSnoc(chunks[1..], c);
    }
  }

  /** What is kept: chunks are dropped from the front while more than the maximum is held and more than one
      is left. */
  function Kept(chunks: seq<seq<real>>): seq<seq<real>>
    decreases |chunks|
  {
    if Size(chunks) > HISTORY_MAX && |chunks| > 1 then Kept(chunks[1..]) else chunks
  }

  /** The memory is a suffix of what was remembered, in whole chunks: the longest one within the maximum, or
      the last chunk alone when that one exceeds it. */
  lemma {:induction false} KeptIsLongestSuffix(chunks: seq<seq<real>>) returns (d: nat)
    ensures d <= |chunks| && Kept(chunks) == chunks[d..]
    ensures Size(chunks[d..]) <= 200000 || |chunks| - d <= 1
    ensures forall e :: 0 <= e < d ==> Size(chunks[e..]) > 200000
    ensures chunks != [] ==> d < |chunks|
    decreases |chunks|
  {
    assert chunks[0..] == chunks;
    if Size(chunks) > HISTORY_MAX && |chunks| > 1 {
      var rest := chunks[1..];
      var r := KeptIsLongestSuffix(rest);
      d := r + 1;
      assert rest[r..] == chunks[d..];
      forall e | 0 <= e < d
        ensures Size(chunks[e..]) > HISTORY_MAX
      {
        assert e > 0 ==> chunks[e..] == rest[e - 1..];
      }
    } else {
      d := 0;
    }
  }

  class NoveltyEngine {
    const window: nat
    var history: seq<seq<real>>
    var n: nat

    ghost predicate Valid()
      reads this
    {
      n == Size(history) && forall i :: 0 <= i < |history| ==> history[i] != []
    }

    constructor (w: nat)
      ensures Valid() && window == w && history == []
    {
      window, history, n := w, [], 0;
    }

    /** Remembers the finite scores and forgets whole chunks from the front. */
    method Extend(scores: seq<Score>)
      requires Valid()
      modifies this
      ensures Valid()
      ensures history == if FiniteOf(scores) == [] then old(history) else Kept(old(history) + [FiniteOf(scores)])
    {
      hide Kept, Size;
      var s := FiniteOf(scores);
      if s != [] {
        SizeSnoc(history, s);
        history := history + [s];
        n := n + |s|;
        Forget();
      }
    }

    method Forget()
      requires Valid()
      modifies this
      ensures Valid()
      ensures history == Kept(old(history))
    {
      hide Size;
      while n > HISTORY_MAX && |history| > 1
        invariant Kept(history) == Kept(old(history)) && Valid()
        decreases |history|
      {
        SizeTail(history);
        n := n - |history[0]|;
        history := history[1..];
      }
    }
  }

  lemma {:induction false} SizeTail(chunks: seq<seq<real>>)
    requires chunks != []
    ensures Size(chunks) == |chunks[0]| + Size(chunks[1..])
  {
  }
}
