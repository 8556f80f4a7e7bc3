/** The contamination scan. */
module Contamination {
  // Contiguous elevated blocks of a score trace, as windows of time.

  import opened Calibration
  import opened EProcesses
  import opened IntMath
  import opened Robust
  import opened Sums
  import opened Timelines

  const SCAN_WINDOW: nat := 256

  /** Region [a, b) is hot throughout and cannot be extended either way. */
  ghost predicate MaximalRun(hot: seq<bool>, a: nat, b: nat) {
    && a < b <= |hot|
    && (forall i :: a <= i < b ==> hot[i])
    && (a == 0 || !hot[a - 1])
    && (b == |hot| || !hot[b])
  }

  /** The regions are the maximal hot runs among the first n blocks, in order, and cover every hot block there. */
  ghost predicate RunsBelow(hot: seq<bool>, regions: seq<(nat, nat)>, n: nat) {
    && n <= |hot|
    && (forall r :: 0 <= r < |regions| ==> MaximalRun(hot, regions[r].0, regions[r].1) && regions[r].1 <= n)
    && (forall r :: 0 <= r < |regions| - 1 ==> regions[r].1 < regions[r + 1].0)
    && (forall i :: 0 <= i < n && hot[i] ==> Covered(regions, i))
  }

  ghost predicate Covered(regions: seq<(nat, nat)>, i: nat) {
    exists r :: 0 <= r < |regions| && regions[r].0 <= i < regions[r].1
  }

  lemma {:induction false} CloseRun(hot: seq<bool>, regions: seq<(nat, nat)>, start: nat, i: nat)
    requires RunsBelow(hot, regions, start) && MaximalRun(hot, start, i)
    requires |regions| > 0 ==> regions[|regions| - 1].1 < start
    ensures RunsBelow(hot, regions + [(start, i)], i)
  {
    var more := regions + [(start, i)];
    forall p | 0 <= p < i && hot[p]
      ensures Covered(more, p)
    {
      if p < start {
        var r :| 0 <= r < |regions| && regions[r].0 <= p < regions[r].1;
        assert more[r] == regions[r];
      } else {
        assert more[|regions|] == (start, i);
      }
    }
  }

  /** The regions closed from block i on, a run being open since `start` when `open` holds. */
  function RunsFrom(hot: seq<bool>, i: nat, open: bool, start: nat): seq<(nat, nat)>
    requires i <= |hot|
    decreases |hot| - i
  {
    if i == |hot| then (if open then [(start, i)] else [])
    else if hot[i] && !open then RunsFrom(hot, i + 1, true, i)
    else if !hot[i] && open then [(start, i)] + RunsFrom(hot, i + 1, false, start)
    else RunsFrom(hot, i + 1, open, start)
  }

  method HotRuns(hot: seq<bool>) returns (regions: seq<(nat, nat)>)
    ensures regions == RunsFrom(hot, 0, false, 0)
    ensures RunsBelow(hot, regions, |hot|)
  {
    hide RunsBelow;
    regions := [];
    NoRuns(hot);
    var open, start: nat := false, 0;
    for i := 0 to |hot|
      invariant start <= |hot|
      invariant RunsBelow(hot, regions, if open then start else i)
      invariant |regions| > 0 ==> regions[|regions| - 1].1 < if open then start else i
      invariant open ==> start < i && (start == 0 || !hot[start - 1]) && forall p :: start <= p < i ==> hot[p]
      invariant !open && i > 0 ==> !hot[i - 1]
      invariant regions + RunsFrom(hot, i, open, start) == RunsFrom(hot, 0, false, 0)
    {
      if hot[i] && !open {
        open, start := true, i;
      } else if !hot[i] && open {
        CloseRun(hot, regions, start, i);
        assert regions + ([(start, i)] + RunsFrom(hot, i + 1, false, start))
            == (regions + [(start, i)]) + RunsFrom(hot, i + 1, false, start);
        regions := regions + [(start, i)];
        open := false;
        ColdStep(hot, regions, i);
      } else if !open {
        ColdStep(hot, regions, i);
      }
    }
    if open {
      CloseRun(hot, regions, start, |hot|);
      regions := regions + [(start, |hot|)];
    }
  }

  lemma {:induction false} NoRuns(hot: seq<bool>)
    ensures RunsBelow(hot, [], 0)
  {
  }

  lemma {:induction false} ColdStep(hot: seq<bool>, regions: seq<(nat, nat)>, i: nat)
    requires RunsBelow(hot, regions, i) && i < |hot| && !hot[i]
    ensures RunsBelow(hot, regions, i + 1)
  {
  }

  /** A window of time from one row's instant to another's. */
  datatype Window = Window(first: int, last: int)

  /** Where a region ends: at the score after it, or at the last one. */
  function RegionEnd(scored: nat, w: nat, region: (nat, nat)): nat
    requires 1 <= scored
  {
    if region.1 * w < scored - 1 then region.1 * w else scored - 1
  }

  /** The window of a region. Score indices are taken for row indices, whatever rows the scores are of. */
  function RegionWindow(ts: seq<int>, scored: nat, w: nat, region: (nat, nat)): Window
    requires 1 <= scored <= |ts| && region.0 < region.1 && region.1 * w <= scored && w >= 1
  {
    MulMono(region.0 + 1, region.1, w);
    Window(ts[region.0 * w], ts[RegionEnd(scored, w, region)])
  }

  lemma {:induction false} RunsFromAreRuns(hot: seq<bool>, i: nat, open: bool, start: nat)
    requires i <= |hot| && (open ==> start < i)
    ensures forall r :: 0 <= r < |RunsFrom(hot, i, open, start)| ==>
              RunsFrom(hot, i, open, start)[r].0 < RunsFrom(hot, i, open, start)[r].1 <= |hot|
    decreases |hot| - i
  {
    if i < |hot| {
      RunsFromAreRuns(hot, i + 1, hot[i], if hot[i] && !open then i else start);
    }
  }

  function ToWindows(ts: seq<int>, scored: nat, w: nat, regions: seq<(nat, nat)>): (out: seq<Window>)
    requires 1 <= scored <= |ts| && w >= 1
    requires forall r :: 0 <= r < |regions| ==> regions[r].0 < regions[r].1 && regions[r].1 * w <= scored
    ensures |out| == |regions| && forall r :: 0 <= r < |out| ==> out[r] == RegionWindow(ts, scored, w, regions[r])
  {
    if regions == [] then [] else [RegionWindow(ts, scored, w, regions[0])] + ToWindows(ts, scored, w, regions[1..])
  }

  lemma {:induction false} RegionsFit(n: nat, w: nat, regions: seq<(nat, nat)>)
    requires w >= 1 && forall r :: 0 <= r < |regions| ==> regions[r].0 < regions[r].1 <= n / w
    ensures forall r :: 0 <= r < |regions| ==> regions[r].0 < regions[r].1 && regions[r].1 * w <= n
  {
    forall r | 0 <= r < |regions|
      ensures regions[r].1 * w <= n
    {
      DivAtLeast(n, w, regions[r].1);
    }
  }

  /** The windows of the maximal hot runs; traces shorter than four windows are not scanned. */
  function ScanWindows(ts: seq<int>, scores: seq<real>): seq<Window>
    requires |scores| <= |ts|
  {
    if |scores| < 4 * SCAN_WINDOW then []
    else
      var hot := HotBlocks(scores, SCAN_WINDOW);
      RunsFromAreRuns(hot, 0, false, 0);
      RegionsFit(|scores|, SCAN_WINDOW, RunsFrom(hot, 0, false, 0));
      ToWindows(ts, |scores|, SCAN_WINDOW, RunsFrom(hot, 0, false, 0))
  }

  /** One window a region, from the region's first row to the row after it, or to the last scored row. */
  ghost predicate AreWindows(ts: seq<int>, n: nat, regions: seq<(nat, nat)>, out: seq<Window>) {
    |out| == |regions| && forall r :: 0 <= r < |out| ==> IsWindow(ts, n, regions[r], out[r])
  }

  ghost predicate IsWindow(ts: seq<int>, n: nat, region: (nat, nat), w: Window) {
    && region.0 * 256 < region.1 * 256 <= n <= |ts|
    && w.first == ts[region.0 * 256] && w.last == ts[if region.1 * 256 < n then region.1 * 256 else n - 1]
  }

  /** Scans in blocks of 256 scores: the windows are those of the maximal runs of hot blocks, in order. */
  method ScanContamination(ts: seq<int>, scores: seq<real>) returns (out: seq<Window>)
    requires |scores| <= |ts|
    ensures out == ScanWindows(ts, scores)
    ensures |scores| < 1024 ==> out == []
    ensures |scores| >= 1024 ==> exists regions ::
              RunsBelow(HotBlocks(scores, 256), regions, |scores| / 256) && AreWindows(ts, |scores|, regions, out)
  {
    hide RegionWindow, RunsFrom, RunsBelow, HotBlocks;
    if |scores| < 4 * SCAN_WINDOW {
      return [];
    }
    var hot := HotBlocks(scores, SCAN_WINDOW);
    var regions := HotRuns(hot);
    RunsFromAreRuns(hot, 0, false, 0);
    RegionsFit(|scores|, SCAN_WINDOW, regions);
    out := [];
    for r := 0 to |regions|
      invariant |out| == r
      invariant forall q :: 0 <= q < r ==> out[q] == RegionWindow(ts, |scores|, SCAN_WINDOW, regions[q])
    {
      out := out + [RegionWindow(ts, |scores|, SCAN_WINDOW, regions[r])];
    }
    assert out == ToWindows(ts, |scores|, SCAN_WINDOW, regions);
    WindowsAre(ts, |scores|, regions, out);
  }

  lemma {:induction false} WindowsAre(ts: seq<int>, n: nat, regions: seq<(nat, nat)>, out: seq<Window>)
    requires 1 <= n <= |ts| && |out| == |regions|
    requires forall r :: 0 <= r < |regions| ==> regions[r].0 < regions[r].1 && regions[r].1 * SCAN_WINDOW <= n
    requires forall r :: 0 <= r < |out| ==> out[r] == RegionWindow(ts, n, SCAN_WINDOW, regions[r])
    ensures AreWindows(ts, n, regions, out)
  {
    forall r | 0 <= r < |out|
      ensures IsWindow(ts, n, regions[r], out[r])
    {
      assert out[r] == RegionWindow(ts, n, SCAN_WINDOW, regions[r]);
    }
  }

  /** Every hot block from i on, or in the open run, lies in some region. */
  lemma {:induction false} RunsCover(hot: seq<bool>, i: nat, open: bool, start: nat, j: nat)
    requires i <= |hot| && (open ==> start < i)
    requires j < |hot| && hot[j] && (i <= j || (open && start <= j < i))
    ensures Covered(RunsFrom(hot, i, open, start), j)
    decreases |hot| - i
  {
    var runs := RunsFrom(hot, i, open, start);
    if i == |hot| {
      assert runs[0] == (start, i);
    } else if !hot[i] && open {
      var more := RunsFrom(hot, i + 1, false, start);
      assert runs == [(start, i)] + more;
      if j < i {
        assert runs[0] == (start, i);
      } else {
        RunsCover(hot, i + 1, false, start, j);
        var r :| 0 <= r < |more| && more[r].0 <= j < more[r].1;
        assert runs[r + 1] == more[r];
      }
    } else {
      RunsCover(hot, i + 1, open || hot[i], if hot[i] && !open then i else start, j);
    }
  }

  /** Which rows of a hot block its window covers. There may be more rows than scores: the first rows then have
      none, and score i is that of row i + late. The window starts in time, and covers the row exactly if it comes
      no later than the index at which the region ends: always, where every row is scored. */
  lemma {:induction false} HotRowsAreCovered(ts: seq<int>, scores: seq<real>, i: nat) returns (r: nat)
    requires 4 * SCAN_WINDOW <= |scores| <= |ts| && Rising(ts) && i < |scores| / SCAN_WINDOW * SCAN_WINDOW
    requires HotBlocks(scores, SCAN_WINDOW)[i / SCAN_WINDOW]
    ensures var regions, windows := RunsFrom(HotBlocks(scores, SCAN_WINDOW), 0, false, 0), ScanWindows(ts, scores);
            var late := |ts| - |scores|;
            && r < |regions| == |windows| && regions[r].0 <= i / SCAN_WINDOW < regions[r].1
            && windows[r].first <= ts[i + late]
            && (ts[i + late] <= windows[r].last <==> i + late <= RegionEnd(|scores|, SCAN_WINDOW, regions[r]))
            && (late == 0 ==> ts[i] <= windows[r].last)
  {
    hide HotBlocks, RunsFrom, Rising, ScanWindows, RegionWindow, RegionEnd;
    var regions := RunsFrom(HotBlocks(scores, SCAN_WINDOW), 0, false, 0);
    r := RegionOf(HotBlocks(scores, SCAN_WINDOW), i / SCAN_WINDOW);
    ScanWindowAt(ts, scores, r);
    RegionCovers(ts, |scores|, regions[r], i);
  }

  lemma {:induction false} RegionOf(hot: seq<bool>, j: nat) returns (r: nat)
    requires j < |hot| && hot[j]
    ensures var regions := RunsFrom(hot, 0, false, 0); r < |regions| && regions[r].0 <= j < regions[r].1
  {
    RunsCover(hot, 0, false, 0, j);
    var regions := RunsFrom(hot, 0, false, 0);
    r :| 0 <= r < |regions| && regions[r].0 <= j < regions[r].1;
  }

  /** The r-th window is that of the r-th region. */
  lemma {:induction false} ScanWindowAt(ts: seq<int>, scores: seq<real>, r: nat)
    requires 4 * SCAN_WINDOW <= |scores| <= |ts| && r < |RunsFrom(HotBlocks(scores, SCAN_WINDOW), 0, false, 0)|
    ensures var regions := RunsFrom(HotBlocks(scores, SCAN_WINDOW), 0, false, 0);
            && |ScanWindows(ts, scores)| == |regions|
            && regions[r].0 < regions[r].1 && regions[r].1 * SCAN_WINDOW <= |scores|
            && ScanWindows(ts, scores)[r] == RegionWindow(ts, |scores|, SCAN_WINDOW, regions[r])
  {
    var hot := HotBlocks(scores, SCAN_WINDOW);
    RunsFromAreRuns(hot, 0, false, 0);
    RegionsFit(|scores|, SCAN_WINDOW, RunsFrom(hot, 0, false, 0));
    hide HotBlocks, RunsFrom, RegionWindow;
  }

  lemma {:induction false} RegionCovers(ts: seq<int>, scored: nat, region: (nat, nat), i: nat)
    requires 1 <= scored <= |ts| && region.0 < region.1 && region.1 * SCAN_WINDOW <= scored && Rising(ts)
    requires region.0 <= i / SCAN_WINDOW < region.1
    ensures i < scored
    ensures var late, window := |ts| - scored, RegionWindow(ts, scored, SCAN_WINDOW, region);
            && window.first <= ts[i + late]
            && (ts[i + late] <= window.last <==> i + late <= RegionEnd(scored, SCAN_WINDOW, region))
            && (late == 0 ==> ts[i] <= window.last)
  {
    RowInRegion(i, region.0, region.1);
    WindowCovers(ts, scored, SCAN_WINDOW, region, i + |ts| - scored);
    EndIsReached(scored, SCAN_WINDOW, region, i);
    hide Rising, RegionEnd, RegionWindow;
  }

  lemma {:induction false} EndIsReached(scored: nat, w: nat, region: (nat, nat), i: nat)
    requires i < region.1 * w <= scored
    ensures i <= RegionEnd(scored, w, region)
  {
  }

  lemma {:induction false} RowInRegion(i: nat, lo: nat, hi: nat)
    requires lo <= i / SCAN_WINDOW < hi
    ensures lo * SCAN_WINDOW <= i < hi * SCAN_WINDOW
  {
    MulMono(lo, i / SCAN_WINDOW, SCAN_WINDOW);
    MulMono(i / SCAN_WINDOW + 1, hi, SCAN_WINDOW);
  }

  /** A window covers exactly the rows from the index at which its region starts to the one at which it ends. */
  lemma {:induction false} WindowCovers(ts: seq<int>, scored: nat, w: nat, region: (nat, nat), j: nat)
    requires 1 <= scored <= |ts| && region.0 < region.1 && region.1 * w <= scored && w >= 1 && Rising(ts) && j < |ts|
    ensures RegionWindow(ts, scored, w, region).first <= ts[j] <==> region.0 * w <= j
    ensures ts[j] <= RegionWindow(ts, scored, w, region).last <==> j <= RegionEnd(scored, w, region)
  {
    MulMono(region.0 + 1, region.1, w);
    RisingOrder(ts, region.0 * w, j);
    RisingOrder(ts, j, RegionEnd(scored, w, region));
    hide Rising;
  }

  lemma {:induction false} RisingOrder(ts: seq<int>, i: nat, j: nat)
    requires Rising(ts) && i < |ts| && j < |ts|
    ensures ts[i] <= ts[j] <==> i <= j
  {
  }

  /** A window starts at a row's instant and does not end before it. */
  lemma {:induction false} WindowsStartAtRows(ts: seq<int>, scores: seq<real>, r: nat)
    requires |scores| <= |ts| && Rising(ts) && r < |ScanWindows(ts, scores)|
    ensures exists i :: 0 <= i < |ts| && ts[i] == ScanWindows(ts, scores)[r].first
    ensures ScanWindows(ts, scores)[r].first <= ScanWindows(ts, scores)[r].last
  {
    var hot := HotBlocks(scores, SCAN_WINDOW);
    var regions := RunsFrom(hot, 0, false, 0);
    RunsFromAreRuns(hot, 0, false, 0);
    RegionsFit(|scores|, SCAN_WINDOW, regions);
    MulMono(regions[r].0 + 1, regions[r].1, SCAN_WINDOW);
    assert ts[regions[r].0 * SCAN_WINDOW] == ScanWindows(ts, scores)[r].first;
  }

  // ---- scores that start late ------------------------------------------------------------------------------

  lemma {:induction false} SumOfEqual(xs: seq<real>, c: real)
    requires forall i :: 0 <= i < |xs| ==> xs[i] == c
    ensures Sum(xs) == |xs| as real * c
  {
    if xs != [] {
      SumOfEqual(xs[1..], c);
    }
  }

  /** 1024 scores, the first 256 of them 1 and the rest 0. */
  function FirstBlockHot(): seq<real> { seq(4 * SCAN_WINDOW, i => if i < SCAN_WINDOW then 1.0 else 0.0) }

  lemma {:induction false} BlockMeans()
    ensures Blocks(FirstBlockHot(), SCAN_WINDOW) == [1.0, 0.0, 0.0, 0.0]
  {
    var scores := FirstBlockHot();
    var means := Blocks(scores, SCAN_WINDOW);
    RestIsTail(scores, SCAN_WINDOW);
    hide FirstBlockHot, Blocks;
    forall b: nat | b < 4
      ensures b < |means| && means[b] == if b == 0 then 1.0 else 0.0
    {
      BlockMean(b);
    }
  }

  lemma {:induction false} BlockMean(b: nat)
    requires b < 4
    ensures var means := Blocks(FirstBlockHot(), SCAN_WINDOW); b < |means| && means[b] == if b == 0 then 1.0 else 0.0
  {
    var scores := FirstBlockHot();
    BlockAt(scores, SCAN_WINDOW, b);
    hide Blocks;
    MeanOfEqual(scores[b * SCAN_WINDOW..b * SCAN_WINDOW + SCAN_WINDOW], if b == 0 then 1.0 else 0.0);
  }

  lemma {:induction false} MeanOfEqual(xs: seq<real>, c: real)
    requires xs != [] && forall i :: 0 <= i < |xs| ==> xs[i] == c
    ensures Mean(xs) == c
  {
    SumOfEqual(xs, c);
  }

  /** A value above all of a sample is inserted at its end. */
  lemma {:induction false} InsertLast(x: real, s: seq<real>)
    requires Sorted(s) && forall i :: 0 <= i < |s| ==> s[i] < x
    ensures Insert(x, s) == s + [x]
  {
    if s != [] {
      InsertLast(x, s[1..]);
      assert s == [s[0]] + s[1..];
    }
  }

  lemma {:induction false} SortEqual(xs: seq<real>, c: real)
    requires forall i :: 0 <= i < |xs| ==> xs[i] == c
    ensures Sort(xs) == xs
  {
    var s := Sort(xs);
    forall i | 0 <= i < |s|
      ensures s[i] == c
    {
      assert s[i] in multiset(s);
      assert s[i] in multiset(xs);
    }
  }

  lemma {:induction false} SortTop(x: real, s: seq<real>, c: real)
    requires c < x && forall i :: 0 <= i < |s| ==> s[i] == c
    ensures Sort([x] + s) == s + [x]
  {
    assert ([x] + s)[1..] == s;
    SortEqual(s, c);
    InsertLast(x, s);
  }

  lemma {:induction false} MedianOfOneHot()
    ensures Median([1.0, 0.0, 0.0, 0.0]) == 0.0
  {
    hide Insert, Sort;
    SortTop(1.0, [0.0, 0.0, 0.0], 0.0);
    assert [1.0] + [0.0, 0.0, 0.0] == [1.0, 0.0, 0.0, 0.0];
  }

  lemma {:induction false} OnlyFirstIsHot()
    ensures HotBlocks(FirstBlockHot(), SCAN_WINDOW) == [true, false, false, false]
  {
    var means := [1.0, 0.0, 0.0, 0.0];
    BlockMeans();
    MedianOfOneHot();
    hide Median, Blocks;
    assert seq(|means|, i requires 0 <= i < |means| => Abs(means[i] - Median(means))) == means;
  }

  /** Where scores start at least two rows late, the last of a hot region's rows lie in no window. */
  lemma {:induction false} LateScoresMissed(late: nat)
    requires late >= 2
    ensures var ts := seq(4 * SCAN_WINDOW + late, i => i);
            && HotBlocks(FirstBlockHot(), SCAN_WINDOW)[(SCAN_WINDOW - 1) / SCAN_WINDOW]
            && ScanWindows(ts, FirstBlockHot()) == [Window(0, SCAN_WINDOW)] && ts[SCAN_WINDOW - 1 + late] > SCAN_WINDOW
  {
    OnlyFirstIsHot();
    hide HotBlocks, FirstBlockHot;
    var hot := [true, false, false, false];
    assert RunsFrom(hot, 4, false, 0) == [];
    assert RunsFrom(hot, 1, true, 0) == [(0, 1)];
  }
}
