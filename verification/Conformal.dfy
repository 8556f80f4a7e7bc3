/** The smoothed p-value is uniform. */
module Conformal {
  // Under exchangeability and with ties included: draw the test value uniformly among n+1 values, calibrate
  // on the other n, and average over the smoothing draw.

  import opened RealMath
  import opened Sums
  import opened Calibration
  import opened EProcesses

  /** The p-value the process computes when position i of zs is the test value. */
  function TestP(zs: seq<real>, i: nat, u: real): real
    requires i < |zs|
  {
    Clip(RawP(Sort(Others(zs, i)), zs[i], u))
  }

  function Others(zs: seq<real>, i: nat): seq<real>
    requires i < |zs|
  {
    zs[..i] + zs[i + 1..]
  }

  function Clamp(x: real, hi: real): real { Min(Max(x, 0.0), hi) }

  /** t on the scale 0..n. */
  function Scaled(t: real, n: nat): real { t * n as real }

  /** The smoothing draw at which the p-value of g greater and e tied values passes cut T. */
  function Cut(T: real, g: nat, e: nat): real
    requires e >= 1
  {
    (T - g as real) / e as real
  }

  /** The part of one test value's unit of smoothing mass that falls below cut T, T on the 0..n+1 scale. */
  function Share(zs: seq<real>, T: real, x: real): real {
    if CountEqual(zs, x) == 0 then 0.0
    else Clamp(Cut(T, CountGreater(zs, x), CountEqual(zs, x)), 1.0)
  }

  function ShareSum(zs: seq<real>, xs: seq<real>, T: real): real {
    if xs == [] then 0.0 else Share(zs, T, xs[0]) + ShareSum(zs, xs[1..], T)
  }

  /** The set of draws u in [0,1] satisfying P is an interval from 0 of length len, up to its endpoint. */
  ghost predicate HasLength(P: real -> bool, len: real) {
    0.0 <= len <= 1.0 && forall u :: 0.0 <= u <= 1.0 ==> (u < len ==> P(u)) && (u > len ==> !P(u))
  }

  // ---- the shares of all values below cut T add up to T ----------------------

  function AboveOf(zs: seq<real>, m: real): seq<real> {
    if zs == [] then []
    else if zs[0] > m then [zs[0]] + AboveOf(zs[1..], m)
    else AboveOf(zs[1..], m)
  }

  function Least(zs: seq<real>): (m: real)
    requires zs != []
    ensures m in zs && forall i :: 0 <= i < |zs| ==> m <= zs[i]
  {
    if |zs| == 1 then zs[0] else Min(zs[0], Least(zs[1..]))
  }

  lemma {:induction false} AboveCounts(zs: seq<real>, m: real, x: real)
    requires x >= m
    requires forall i :: 0 <= i < |zs| ==> m <= zs[i]
    ensures CountGreater(AboveOf(zs, m), x) == CountGreater(zs, x)
    ensures x > m ==> CountEqual(AboveOf(zs, m), x) == CountEqual(zs, x)
    ensures |AboveOf(zs, m)| + CountEqual(zs, m) == |zs|
    ensures CountGreater(zs, m) == |AboveOf(zs, m)|
  {
    if zs != [] {
      AboveCounts(zs[1..], m, x);
      assert zs[0] > m ==> AboveOf(zs, m)[1..] == AboveOf(zs[1..], m);
    }
  }

  lemma {:induction false} SharesSplit(zs: seq<real>, xs: seq<real>, m: real, T: real)
    requires forall i :: 0 <= i < |xs| ==> m <= xs[i]
    ensures ShareSum(zs, xs, T) == ShareSum(zs, AboveOf(xs, m), T) + CountEqual(xs, m) as real * Share(zs, T, m)
  {
    hide Share;
    if xs != [] {
      SharesSplit(zs, xs[1..], m, T);
      var rest, c := ShareSum(zs, AboveOf(xs[1..], m), T), CountEqual(xs[1..], m);
      if xs[0] > m {
        assert AboveOf(xs, m)[1..] == AboveOf(xs[1..], m);
      } else {
        assert (c + 1) as real * Share(zs, T, m) == c as real * Share(zs, T, m) + Share(zs, T, m);
      }
    }
  }

  lemma {:induction false} AboveIsAbove(xs: seq<real>, m: real)
    ensures forall i :: 0 <= i < |AboveOf(xs, m)| ==> AboveOf(xs, m)[i] > m
  {
    if xs != [] {
      AboveIsAbove(xs[1..], m);
    }
  }

  lemma {:induction false} SharesAgree(zs: seq<real>, ws: seq<real>, xs: seq<real>, T: real)
    requires forall i :: 0 <= i < |xs| ==>
      CountGreater(zs, xs[i]) == CountGreater(ws, xs[i]) && CountEqual(zs, xs[i]) == CountEqual(ws, xs[i])
    ensures ShareSum(zs, xs, T) == ShareSum(ws, xs, T)
  {
    if xs != [] {
      assert CountGreater(zs, xs[0]) == CountGreater(ws, xs[0]);
      SharesAgree(zs, ws, xs[1..], T);
    }
  }

  lemma {:induction false} ClampScale(e: real, y: real)
    requires e > 0.0
    ensures e * Clamp(y / e, 1.0) == Clamp(y, e)
  {
    DivMul(y, e);
    DivBound(y, 0.0, e);
    DivBound(y, 1.0, e);
  }

  lemma {:induction false} SharesTotal(zs: seq<real>, T: real)
    ensures ShareSum(zs, zs, T) == Clamp(T, |zs| as real)
    decreases |zs|
  {
    if zs != [] {
      var m := Least(zs);
      var above := AboveOf(zs, m);
      AboveCounts(zs, m, m);
      CountBounds(zs, m);
      SharesSplit(zs, zs, m, T);
      SharesOfAbove(zs, m, T);
      SharesTotal(above, T);
      LeastShare(zs, m, T);
    }
  }

  lemma {:induction false} SharesOfAbove(zs: seq<real>, m: real, T: real)
    requires forall i :: 0 <= i < |zs| ==> m <= zs[i]
    ensures ShareSum(zs, AboveOf(zs, m), T) == ShareSum(AboveOf(zs, m), AboveOf(zs, m), T)
  {
    var above := AboveOf(zs, m);
    AboveIsAbove(zs, m);
    forall i | 0 <= i < |above|
      ensures CountGreater(zs, above[i]) == CountGreater(above, above[i])
      ensures CountEqual(zs, above[i]) == CountEqual(above, above[i])
    {
      AboveCounts(zs, m, above[i]);
    }
    SharesAgree(zs, above, above, T);
  }

  lemma {:induction false} LeastShare(zs: seq<real>, m: real, T: real)
    requires m in zs && forall i :: 0 <= i < |zs| ==> m <= zs[i]
    ensures CountEqual(zs, m) as real * Share(zs, T, m)
         == Clamp(T - |AboveOf(zs, m)| as real, CountEqual(zs, m) as real)
  {
    hide Clamp;
    AboveCounts(zs, m, m);
    CountBounds(zs, m);
    ClampScale(CountEqual(zs, m) as real, T - |AboveOf(zs, m)| as real);
  }

  // ---- the theorem -------------------------------------------------------------

  /** Length of the smoothing draws for which position i's p-value is at most t. */
  function AcceptLength(zs: seq<real>, i: nat, t: real): real
    requires i < |zs|
  {
    if t < P_FLOOR then 0.0 else Share(zs, Scaled(t, |zs|), zs[i])
  }

  function TotalLength(zs: seq<real>, i: nat, t: real): real
    requires i <= |zs|
    decreases |zs| - i
  {
    if i == |zs| then 0.0 else AcceptLength(zs, i, t) + TotalLength(zs, i + 1, t)
  }

  lemma {:induction false} RawPByCounts(calib: seq<real>, x: real, u: real)
    requires Sorted(calib)
    ensures RawP(calib, x, u) == Smoothed(CountGreater(calib, x), CountEqual(calib, x) + 1, |calib| + 1, u)
  {
    hide Smoothed;
    SearchCounts(calib, x);
  }

  lemma {:induction false} CountsOfOthers(zs: seq<real>, i: nat)
    requires i < |zs|
    ensures CountEqual(zs, zs[i]) >= 1
    ensures CountGreater(Sort(Others(zs, i)), zs[i]) == CountGreater(zs, zs[i])
    ensures CountEqual(Sort(Others(zs, i)), zs[i]) == CountEqual(zs, zs[i]) - 1
    ensures |Sort(Others(zs, i))| == |zs| - 1
  {
    CountsByMultiset(Sort(Others(zs, i)), Others(zs, i), zs[i]);
    CountRemove(zs, i, zs[i]);
  }

  /** Leaving the test value out and sorting the rest: the two counts behind the p-value. */
  lemma {:induction false} TestCounts(zs: seq<real>, i: nat, u: real)
    requires i < |zs|
    ensures CountEqual(zs, zs[i]) >= 1
    ensures TestP(zs, i, u) == Clip(Smoothed(CountGreater(zs, zs[i]), CountEqual(zs, zs[i]), |zs|, u))
  {
    hide Smoothed, Clip, RawP;
    CountsOfOthers(zs, i);
    RawPByCounts(Sort(Others(zs, i)), zs[i], u);
  }

  lemma {:induction false} BelowCut(g: nat, e: nat, n: nat, u: real, t: real)
    requires e >= 1 && g + e <= n && u <= 1.0
    ensures Smoothed(g, e, n, u) <= 1.0
    ensures Smoothed(g, e, n, u) <= t <==> u <= Cut(Scaled(t, n), g, e)
  {
    MulLe(u, 1.0, e as real);
    SmoothedAtMost(g, e, n, u, 1.0);
    SmoothedAtMost(g, e, n, u, t);
    AtMostCut(g, e, n, u, t);
    hide Smoothed, Cut, Scaled;
  }

  lemma {:induction false} SmoothedAtMost(g: nat, e: nat, n: nat, u: real, t: real)
    requires n >= 1
    ensures Smoothed(g, e, n, u) <= t <==> g as real + u * e as real <= t * n as real
  {
    DivBound(g as real + u * e as real, t, n as real);
  }

  lemma {:induction false} AtMostCut(g: nat, e: nat, n: nat, u: real, t: real)
    requires e >= 1
    ensures u <= Cut(Scaled(t, n), g, e) <==> g as real + u * e as real <= t * n as real
  {
    DivBound(t * n as real - g as real, u, e as real);
  }

  lemma {:induction false} ClipCut(p: real, cut: real, u: real, t: real)
    requires 0.0 <= u <= 1.0 && 0.0 <= t <= 1.0
    requires p <= 1.0 && (p <= t <==> u <= cut)
    ensures t < P_FLOOR ==> Clip(p) > t
    ensures t >= P_FLOOR && u < Clamp(cut, 1.0) ==> Clip(p) <= t
    ensures t >= P_FLOOR && u > Clamp(cut, 1.0) ==> Clip(p) > t
  {
  }

  lemma {:induction false} AcceptedDraws(zs: seq<real>, i: nat, t: real)
    requires i < |zs| && 0.0 <= t <= 1.0
    ensures HasLength(u => TestP(zs, i, u) <= t, AcceptLength(zs, i, t))
  {
    hide Smoothed, Cut, Scaled, TestP, Clip;
    TestCounts(zs, i, 0.0);
    CountBounds(zs, zs[i]);
    forall u | 0.0 <= u <= 1.0
      ensures u < AcceptLength(zs, i, t) ==> TestP(zs, i, u) <= t
      ensures u > AcceptLength(zs, i, t) ==> !(TestP(zs, i, u) <= t)
    {
      TestCounts(zs, i, u);
      BelowCut(CountGreater(zs, zs[i]), CountEqual(zs, zs[i]), |zs|, u, t);
      ClipCut(Smoothed(CountGreater(zs, zs[i]), CountEqual(zs, zs[i]), |zs|, u),
              Cut(Scaled(t, |zs|), CountGreater(zs, zs[i]), CountEqual(zs, zs[i])), u, t);
    }
  }

  lemma {:induction false} LengthsAreShares(zs: seq<real>, i: nat, t: real)
    requires i <= |zs| && t >= P_FLOOR
    ensures TotalLength(zs, i, t) == ShareSum(zs, zs[i..], Scaled(t, |zs|))
    decreases |zs| - i
  {
    if i < |zs| {
      LengthsAreShares(zs, i + 1, t);
      assert zs[i..][1..] == zs[i + 1..];
    }
  }

  lemma {:induction false} NoLengthBelowFloor(zs: seq<real>, i: nat, t: real)
    requires i <= |zs| && t < P_FLOOR
    ensures TotalLength(zs, i, t) == 0.0
    decreases |zs| - i
  {
    if i < |zs| {
      NoLengthBelowFloor(zs, i + 1, t);
    }
  }

  /** Averaged over which of the n+1 values is tested, the p-value is at most t on a set of
      smoothing draws of length exactly t; below the floor 1e-12 the length is 0, so the floored
      p-value only errs upward. */
  lemma {:induction false} PValueIsUniform(zs: seq<real>, t: real)
    requires zs != [] && 0.0 <= t <= 1.0
    ensures forall i :: 0 <= i < |zs| ==> HasLength(u => TestP(zs, i, u) <= t, AcceptLength(zs, i, t))
    ensures TotalLength(zs, 0, t) / |zs| as real == if t < P_FLOOR then 0.0 else t
  {
    hide TestP, HasLength, AcceptLength;
    forall i | 0 <= i < |zs|
      ensures HasLength(u => TestP(zs, i, u) <= t, AcceptLength(zs, i, t))
    {
      AcceptedDraws(zs, i, t);
    }
    AverageLength(zs, t);
  }

  lemma {:induction false} AverageLength(zs: seq<real>, t: real)
    requires zs != [] && 0.0 <= t <= 1.0
    ensures TotalLength(zs, 0, t) / |zs| as real == if t < P_FLOOR then 0.0 else t
  {
    hide AcceptLength, Clamp, Scaled;
    if t < P_FLOOR {
      NoLengthBelowFloor(zs, 0, t);
      DivBound(0.0, 0.0, |zs| as real);
    } else {
      LengthsAreShares(zs, 0, t);
      assert zs[0..] == zs;
      SharesTotal(zs, Scaled(t, |zs|));
      ScaledInside(t, |zs|);
    }
  }

  lemma {:induction false} ScaledInside(t: real, n: nat)
    requires 0.0 <= t <= 1.0 && n >= 1
    ensures Clamp(Scaled(t, n), n as real) == Scaled(t, n)
    ensures Scaled(t, n) / n as real == t
  {
    MulLe(0.0, t, n as real);
    MulLe(t, 1.0, n as real);
    DivBound(t * n as real, t, n as real);
  }
}
