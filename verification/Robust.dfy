/** Medians, spreads and hot blocks of a score trace. */
module Robust {
  import opened IntMath
  import opened Sums
  import opened Calibration
  import opened EProcesses

  function Median(xs: seq<real>): real
    requires xs != []
  {
    var s, n := Sort(xs), |xs|;
    if n % 2 == 1 then s[n / 2] else (s[n / 2 - 1] + s[n / 2]) / 2.0
  }

  /** The middle value twice, or the middle two, by rank. */
  ghost predicate AreMiddle(xs: seq<real>, lo: real, hi: real) {
    xs != [] && IsRank(xs, lo, (|xs| - 1) / 2) && IsRank(xs, hi, |xs| / 2)
  }

  ghost predicate IsMedian(xs: seq<real>, m: real) {
    exists lo, hi :: AreMiddle(xs, lo, hi) && m == (lo + hi) / 2.0
  }

  lemma {:induction false} MedianIsMiddle(xs: seq<real>, m: real)
    requires xs != []
    ensures IsMedian(xs, m) <==> m == Median(xs)
  {
    var s, n := Sort(xs), |xs|;
    hide Sort, IsRank;
    var lo, hi := s[(n - 1) / 2], s[n / 2];
    SortedAtRank(xs, (n - 1) / 2);
    SortedAtRank(xs, n / 2);
    assert Median(xs) == (lo + hi) / 2.0;
    assert AreMiddle(xs, lo, hi);
    if IsMedian(xs, m) {
      var a, b :| AreMiddle(xs, a, b) && m == (a + b) / 2.0;
      OneValuePerRank(xs, a, lo, (n - 1) / 2);
      OneValuePerRank(xs, b, hi, n / 2);
    }
  }

  /** 1.4826 times the median absolute deviation. */
  function Spread(xs: seq<real>): real
    requires xs != []
  {
    1.4826 * Median(seq(|xs|, i requires 0 <= i < |xs| => Abs(xs[i] - Median(xs))))
  }

  /** Which blocks of w scores have a mean above the trace's own robust bar. */
  function HotBlocks(scores: seq<real>, w: nat): (hot: seq<bool>)
    requires 1 <= w <= |scores|
    ensures |hot| == |scores| / w
  {
    RestIsTail(scores, w);
    DivAtLeast(|scores|, w, 1);
    var means := Blocks(scores, w);
    var bar := Median(means) + 4.0 * Max(Spread(means), 0.000000001);
    seq(|means|, i requires 0 <= i < |means| => means[i] > bar)
  }

  /** The means of the whole blocks of w scores. */
  ghost predicate AreBlockMeans(scores: seq<real>, w: nat, means: seq<real>) {
    w >= 1 && |means| == |scores| / w && forall i :: 0 <= i < |means| ==> IsMeanOfBlock(scores, w, i, means[i])
  }

  ghost predicate IsMeanOfBlock(scores: seq<real>, w: nat, i: int, m: real) {
    0 <= i * w < i * w + w <= |scores| && m == Sum(scores[i * w..i * w + w]) / w as real
  }

  /** How far each value lies from c. */
  ghost predicate AreDistances(xs: seq<real>, c: real, ds: seq<real>) {
    |ds| == |xs| && forall i :: 0 <= i < |ds| ==> ds[i] == if xs[i] >= c then xs[i] - c else c - xs[i]
  }

  /** A block is hot exactly when its mean exceeds the median of the means by more than 4 spreads: a spread is 1.4826
      times the median distance from that median, and at least 1e-9. */
  lemma {:induction false} HotExactly(scores: seq<real>, w: nat, means: seq<real>, med: real, ds: seq<real>, mad: real, i: nat)
    requires 1 <= w <= |scores| && AreBlockMeans(scores, w, means) && IsMedian(means, med)
    requires AreDistances(means, med, ds) && IsMedian(ds, mad)
    requires i < |means|
    ensures |HotBlocks(scores, w)| == |means|
    ensures HotBlocks(scores, w)[i] <==>
              means[i] > med + 4.0 * (if 1.4826 * mad >= 0.000000001 then 1.4826 * mad else 0.000000001)
  {
    hide IsMedian, AreBlockMeans, AreDistances, Blocks, Median, Spread;
    DivAtLeast(|scores|, w, 1);
    MeansAre(scores, w, means);
    MedianIsMiddle(means, med);
    SpreadIs(means, med, ds, mad);
  }

  lemma {:induction false} SpreadIs(xs: seq<real>, med: real, ds: seq<real>, mad: real)
    requires xs != [] && IsMedian(xs, med) && AreDistances(xs, med, ds) && IsMedian(ds, mad)
    ensures Spread(xs) == 1.4826 * mad
  {
    hide IsMedian, Median;
    MedianIsMiddle(xs, med);
    assert ds == seq(|xs|, j requires 0 <= j < |xs| => Abs(xs[j] - med));
    MedianIsMiddle(ds, mad);
  }

  lemma {:induction false} MeansAre(scores: seq<real>, w: nat, means: seq<real>)
    requires 1 <= w <= |scores| && AreBlockMeans(scores, w, means)
    ensures Blocks(scores, w) == means
  {
    RestIsTail(scores, w);
    forall i | 0 <= i < |means|
      ensures Blocks(scores, w)[i] == means[i]
    {
      BlockAt(scores, w, i);
      assert IsMeanOfBlock(scores, w, i, means[i]);
    }
  }
}
