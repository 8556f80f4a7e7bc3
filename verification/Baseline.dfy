/** The lifetime baseline. */
module Baselines {
  // How much weight recent periods may hold, and which rows calibrate.

  import opened Constants
  import opened IntMath
  import opened Ledgers
  import opened RealMath
  import opened Sums
  import opened Summaries
  import opened Timelines

  const RECENT_PERIODS: nat := 2
  const CALIB_CHUNK_ROWS: nat := 512

  // ---- the recency cap --------------------------------------------------------------

  /** Row totals count as at least 1. */
  function AtLeastOne(rows: nat): nat { if rows == 0 then 1 else rows }

  /** Weight of one recent row so that recent rows hold at most the cap. */
  function RecentWeight(rowsOld: nat, rowsRecent: nat): real {
    Min(1.0, RECENCY_CAP / (1.0 - RECENCY_CAP) * (AtLeastOne(rowsOld) as real / AtLeastOne(rowsRecent) as real))
  }

  function SumRows(rows: seq<nat>): nat {
    if rows == [] then 0 else rows[0] + SumRows(rows[1..])
  }

  function Repeat(w: real, n: nat): (r: seq<real>)
    ensures |r| == n
  {
    if n == 0 then [] else [w] + Repeat(w, n - 1)
  }

  function OldCount(n: nat): nat { if n <= RECENT_PERIODS then 0 else n - RECENT_PERIODS }

  /** The weights of a life's periods, oldest first: the last two count as recent. */
  function PeriodWeights(rows: seq<nat>): (ws: seq<real>)
    ensures |ws| == |rows|
  {
    var past := OldCount(|rows|);
    if past == 0 then Repeat(1.0, |rows|)
    else Repeat(1.0, past) + Repeat(RecentWeight(SumRows(rows[..past]), SumRows(rows[past..])), |rows| - past)
  }

  /** Share of the merged whole held by `recent` samples of weight w beside `old` samples of weight 1. */
  function Share(past: real, recent: real, w: real): real
    requires past + Times(w, recent) > 0.0
  {
    Times(w, recent) / (past + Times(w, recent))
  }

  lemma {:induction false} ShareAtMostCap(past: real, recent: real, w: real)
    requires past + Times(w, recent) > 0.0
    ensures Share(past, recent, w) <= RECENCY_CAP <==> 4.0 * Times(w, recent) <= past
  {
    hide Times;
    DivBound(Times(w, recent), RECENCY_CAP, past + Times(w, recent));
  }

  lemma {:induction false} RecentWeightFacts(rowsOld: nat, rowsRecent: nat)
    requires rowsOld > 0 && rowsRecent > 0
    ensures 0.0 < RecentWeight(rowsOld, rowsRecent) <= 1.0
    ensures 4.0 * Times(RecentWeight(rowsOld, rowsRecent), rowsRecent as real) <= rowsOld as real
    ensures 4 * rowsRecent >= rowsOld ==> 4.0 * Times(RecentWeight(rowsOld, rowsRecent), rowsRecent as real) == rowsOld as real
    ensures 4 * rowsRecent <= rowsOld ==> RecentWeight(rowsOld, rowsRecent) == 1.0
  {
    var o, r := rowsOld as real, rowsRecent as real;
    var q := o / r;
    DivMul(o, r);
    DivBound(o, 4.0, r);
    DivBound(o, 0.0, r);
    assert RECENCY_CAP / (1.0 - RECENCY_CAP) == 0.25;
    if q >= 4.0 {
      assert RecentWeight(rowsOld, rowsRecent) == 1.0;
    } else {
      assert RecentWeight(rowsOld, rowsRecent) == 0.25 * q;
      assert 0.25 * q * r == 0.25 * (q * r);
    }
  }

  /** The weight of all rows when a row of period i weighs ws[i]. */
  function WeightedRows(rows: seq<nat>, ws: seq<real>): real
    requires |rows| == |ws|
  {
    if rows == [] then 0.0 else Times(ws[0], rows[0] as real) + WeightedRows(rows[1..], ws[1..])
  }

  lemma {:induction false} EvenRows(rows: seq<nat>, w: real)
    ensures WeightedRows(rows, Repeat(w, |rows|)) == Times(w, SumRows(rows) as real)
  {
    hide Times;
    if rows == [] {
      TimesSplit(w, 0.0, 0.0);
    } else {
      assert Repeat(w, |rows|)[1..] == Repeat(w, |rows[1..]|);
      EvenRows(rows[1..], w);
      TimesSplit(w, rows[0] as real, SumRows(rows[1..]) as real);
    }
  }

  lemma {:induction false} RowsAppend(a: seq<nat>, u: seq<real>, b: seq<nat>, v: seq<real>)
    requires |a| == |u| && |b| == |v|
    ensures WeightedRows(a + b, u + v) == WeightedRows(a, u) + WeightedRows(b, v)
  {
    hide Times;
    if a == [] {
      assert a + b == b && u + v == v;
    } else {
      assert (a + b)[1..] == a[1..] + b && (u + v)[1..] == u[1..] + v;
      RowsAppend(a[1..], u[1..], b, v);
    }
  }

  /** The weights of a life's periods: 1 before the last two, one common weight after, itself 1 where no period
      is older. */
  lemma {:induction false} WeightsSplit(rows: seq<nat>)
    ensures var past := OldCount(|rows|);
            var w := if past == 0 then 1.0 else RecentWeight(SumRows(rows[..past]), SumRows(rows[past..]));
            0.0 < w <= 1.0 && PeriodWeights(rows) == Repeat(1.0, past) + Repeat(w, |rows| - past)
  {
    var past := OldCount(|rows|);
    RecentWeightFacts(AtLeastOne(SumRows(rows[..past])), AtLeastOne(SumRows(rows[past..])));
  }

  lemma {:induction false} RepeatAt(w: real, n: nat)
    ensures forall i :: 0 <= i < n ==> Repeat(w, n)[i] == w
  {
    if n > 0 {
      RepeatAt(w, n - 1);
    }
  }

  /** The recency cap on whole periods, exactly: of the weight the code gives a life's rows, the last two
      periods hold at most the cap if and only if the older life has a row at all or they have none. They hold
      exactly the cap once they have a quarter as many rows as the older life. */
  lemma {:induction false} RecentPeriodsHoldAtMostCap(rows: seq<nat>)
    ensures var past, ws := if |rows| <= 2 then 0 else |rows| - 2, PeriodWeights(rows);
            var older, newer := SumRows(rows[..past]), SumRows(rows[past..]);
            && (WeightedRows(rows[past..], ws[past..]) <= 0.2 * WeightedRows(rows, ws)
                <==> older > 0 || newer == 0)
            && (older > 0 && 4 * newer >= older ==>
                  WeightedRows(rows[past..], ws[past..]) == 0.2 * WeightedRows(rows, ws))
            && (forall i :: 0 <= i < past ==> ws[i] == 1.0)
            && (4 * newer <= older && newer > 0 ==> forall i :: 0 <= i < |rows| ==> ws[i] == 1.0)
  {
    hide Times, WeightedRows, RecentWeight, PeriodWeights;
    var past, ws := OldCount(|rows|), PeriodWeights(rows);
    var older, newer := SumRows(rows[..past]), SumRows(rows[past..]);
    var w := if past == 0 then 1.0 else RecentWeight(older, newer);
    WeightsSplit(rows);
    var u, v := Repeat(1.0, past), Repeat(w, |rows| - past);
    assert ws[past..] == v && rows == rows[..past] + rows[past..];
    RepeatAt(1.0, past);
    RepeatAt(w, |rows| - past);
    RowsAppend(rows[..past], u, rows[past..], v);
    EvenRows(rows[..past], 1.0);
    EvenRows(rows[past..], w);
    TimesOne(older as real);
    TimesSplit(w, 0.0, 0.0);
    if newer > 0 {
      TimesPositive(w, newer as real);
      if older > 0 {
        RecentWeightFacts(older, newer);
      }
    }
  }

  // ---- what the cap does to one channel's mean --------------------------------------------

  lemma {:induction false} RepeatedWeights(data: seq<seq<real>>, w: real)
    ensures DataWeight(data, Repeat(w, |data|)) == Times(w, |Concat(data)| as real)
    ensures DataSum(data, Repeat(w, |data|)) == Times(w, Sum(Concat(data)))
  {
    hide Times;
    if data == [] {
      TimesSplit(w, 0.0, 0.0);
    } else {
      assert Repeat(w, |data|)[1..] == Repeat(w, |data[1..]|);
      RepeatedWeights(data[1..], w);
      TimesSplit(w, |data[0]| as real, |Concat(data[1..])| as real);
      TimesSwap(|data[0]| as real, w);
      SumConcat(data[0], Concat(data[1..]));
      TimesSplit(w, Sum(data[0]), Sum(Concat(data[1..])));
    }
  }

  lemma {:induction false} DataAppend(a: seq<seq<real>>, u: seq<real>, b: seq<seq<real>>, v: seq<real>)
    requires |a| == |u| && |b| == |v|
    ensures DataWeight(a + b, u + v) == DataWeight(a, u) + DataWeight(b, v)
    ensures DataSum(a + b, u + v) == DataSum(a, u) + DataSum(b, v)
  {
    hide Times;
    if a == [] {
      assert a + b == b && u + v == v;
    } else {
      assert (a + b)[1..] == a[1..] + b && (u + v)[1..] == u[1..] + v;
      DataAppend(a[1..], u[1..], b, v);
    }
  }

  lemma {:induction false} MixMoves(past: real, recent: real, mo: real, mr: real)
    requires past + recent > 0.0
    ensures (Times(past, mo) + Times(recent, mr)) / (past + recent) - mo == Times(recent / (past + recent), mr - mo)
  {
    var t := past + recent;
    var s := recent / t;
    DivMul(recent, t);
    assert past * mo + recent * mr == mo * t + (s * t) * (mr - mo);
    assert mo * t + (s * t) * (mr - mo) == (mo + s * (mr - mo)) * t;
    DivBound(past * mo + recent * mr, mo + s * (mr - mo), t);
  }

  /** Merging a channel's old data at weight 1 with its recent data at weight w moves the mean from
      the old mean toward the recent one by exactly the recent share. */
  lemma {:induction false} MergedMeanShift(past: seq<seq<real>>, recent: seq<seq<real>>, w: real)
    requires w > 0.0 && Concat(past) != [] && Concat(recent) != []
    requires forall i :: 0 <= i < |past| ==> past[i] != []
    requires forall i :: 0 <= i < |recent| ==> recent[i] != []
    ensures var data, ws := past + recent, Repeat(1.0, |past|) + Repeat(w, |recent|);
            var no, nr := |Concat(past)| as real, |Concat(recent)| as real;
            data != [] && Sum(Counts(SummariesOf(data), ws)) != 0.0 && no + Times(w, nr) > 0.0
            && MergeChannel(SummariesOf(data), ws).mean - Mean(Concat(past))
               == Times(Share(no, nr, w), Mean(Concat(recent)) - Mean(Concat(past)))
  {
    hide Times;
    var data, ws := past + recent, Repeat(1.0, |past|) + Repeat(w, |recent|);
    var no, nr := |Concat(past)| as real, |Concat(recent)| as real;
    var mo, mr := Mean(Concat(past)), Mean(Concat(recent));
    DataAppend(past, Repeat(1.0, |past|), recent, Repeat(w, |recent|));
    RepeatedWeights(past, 1.0);
    RepeatedWeights(recent, w);
    TimesOne(no);
    TimesOne(Sum(Concat(past)));
    TimesPositive(w, nr);
    WeightedMergeIsExact(data, ws);
    MeanTimesCount(Concat(past));
    MeanTimesCount(Concat(recent));
    TimesAssoc(w, nr, mr);
    MixMoves(no, Times(w, nr), mo, mr);
  }

  lemma {:induction false} TimesAssoc(a: real, b: real, c: real)
    ensures Times(Times(a, b), c) == Times(a, Times(b, c))
  {
  }

  lemma {:induction false} TimesNeg(s: real, d: real)
    ensures Times(s, -d) == -Times(s, d)
  {
  }

  lemma {:induction false} AbsOfTimes(s: real, d: real)
    requires s > 0.0
    ensures Abs(Times(s, d)) == Times(s, Abs(d))
  {
    TimesNeg(s, d);
    TimesSplit(s, 0.0, 0.0);
    if d > 0.0 {
      TimesPositive(s, d);
    } else if d < 0.0 {
      TimesPositive(s, -d);
    }
  }

  lemma {:induction false} AbsTimes(s: real, d: real)
    requires s > 0.0
    ensures Abs(Times(s, d)) <= Times(RECENCY_CAP, Abs(d)) <==> s <= RECENCY_CAP || d == 0.0
  {
    AbsOfTimes(s, d);
    if d == 0.0 {
      TimesSplit(s, 0.0, 0.0);
      TimesSplit(RECENCY_CAP, 0.0, 0.0);
    } else {
      ProductOrder(s, RECENCY_CAP, Abs(d));
    }
  }

  lemma {:induction false} ProductOrder(a: real, b: real, d: real)
    requires d > 0.0
    ensures Times(a, d) <= Times(b, d) <==> a <= b
  {
    hide Times;
    if a > b {
      TimesLt(b, a, d);
    } else if a < b {
      TimesLt(a, b, d);
    }
  }

  /** The cap on one channel, exactly: its merged mean stays within the cap's share of the gap
      between recent and past mean if and only if four times its weighted recent count is at most
      its past count, or there is no gap. */
  lemma {:induction false} ChannelCapExactly(past: seq<seq<real>>, recent: seq<seq<real>>, w: real)
    requires w > 0.0 && Concat(past) != [] && Concat(recent) != []
    requires forall i :: 0 <= i < |past| ==> past[i] != []
    requires forall i :: 0 <= i < |recent| ==> recent[i] != []
    ensures var data, ws := past + recent, Repeat(1.0, |past|) + Repeat(w, |recent|);
            var mo, mr := Mean(Concat(past)), Mean(Concat(recent));
            data != [] && Sum(Counts(SummariesOf(data), ws)) != 0.0
            && (Abs(MergeChannel(SummariesOf(data), ws).mean - mo) <= Times(RECENCY_CAP, Abs(mr - mo))
                <==> 4.0 * Times(w, |Concat(recent)| as real) <= |Concat(past)| as real || mr == mo)
  {
    hide Times, MergeChannel, Mean;
    MergedMeanShift(past, recent, w);
    var no, nr := |Concat(past)| as real, |Concat(recent)| as real;
    TimesPositive(w, nr);
    ShareAtMostCap(no, nr, w);
    DivBound(Times(w, nr), 0.0, no + Times(w, nr));
    AbsTimes(Share(no, nr, w), Mean(Concat(recent)) - Mean(Concat(past)));
  }

  /** A channel whose recent-to-old ratio does not exceed that of the rows is within the cap. */
  lemma {:induction false} ProportionateChannelIsCapped(rowsOld: nat, rowsRecent: nat, no: nat, nr: nat)
    requires rowsOld > 0 && rowsRecent > 0 && nr * rowsOld <= no * rowsRecent
    ensures 4.0 * Times(RecentWeight(rowsOld, rowsRecent), nr as real) <= no as real
  {
    RecentWeightFacts(rowsOld, rowsRecent);
    Proportion(RecentWeight(rowsOld, rowsRecent), rowsOld as real, rowsRecent as real, no as real, nr as real);
  }

  lemma {:induction false} Proportion(w: real, o: real, r: real, no: real, nr: real)
    requires o > 0.0 && r > 0.0 && nr >= 0.0 && w > 0.0
    requires 4.0 * Times(w, r) <= o && nr * o <= no * r
    ensures 4.0 * Times(w, nr) <= no
  {
    MulLe(4.0 * (w * r), o, nr);
    assert 4.0 * (w * r) * nr == (4.0 * (w * nr)) * r;
    ProductOrder(4.0 * (w * nr), no, r);
  }

  /** The weights of the periods that have the channel. */
  function PresentWeights(data: seq<seq<real>>, ws: seq<real>): seq<real>
    requires |data| == |ws|
  {
    if data == [] then []
    else (if |data[0]| >= 2 then [ws[0]] else []) + PresentWeights(data[1..], ws[1..])
  }

  lemma {:induction false} PresentCons(values: seq<real>, w: real, data: seq<seq<real>>, ws: seq<real>)
    requires |data| == |ws|
    ensures Present([values] + data) == (if |values| >= 2 then [values] else []) + Present(data)
    ensures PresentWeights([values] + data, [w] + ws) == (if |values| >= 2 then [w] else []) + PresentWeights(data, ws)
  {
    assert ([values] + data)[1..] == data && ([w] + ws)[1..] == ws;
  }

  lemma {:induction false} PresentAppend(a: seq<seq<real>>, u: seq<real>, b: seq<seq<real>>, v: seq<real>)
    requires |a| == |u| && |b| == |v|
    ensures Present(a + b) == Present(a) + Present(b)
    ensures PresentWeights(a + b, u + v) == PresentWeights(a, u) + PresentWeights(b, v)
  {
    if a == [] {
      assert a + b == b && u + v == v;
    } else {
      hide Present, PresentWeights;
      PresentAppend(a[1..], u[1..], b, v);
      PresentCons(a[0], u[0], a[1..], u[1..]);
      PresentCons(a[0], u[0], a[1..] + b, u[1..] + v);
      assert a == [a[0]] + a[1..] && u == [u[0]] + u[1..];
      assert a + b == [a[0]] + (a[1..] + b) && u + v == [u[0]] + (u[1..] + v);
    }
  }

  lemma {:induction false} PresentRepeat(data: seq<seq<real>>, w: real)
    ensures PresentWeights(data, Repeat(w, |data|)) == Repeat(w, |Present(data)|)
  {
    if data != [] {
      assert Repeat(w, |data|)[1..] == Repeat(w, |data[1..]|);
      PresentRepeat(data[1..], w);
    }
  }

  /** Merged, the mean moves from the past one by at most the cap's share of the way to the recent one. */
  ghost predicate WithinCap(merged: real, past: real, recent: real) {
    Abs(merged - past) <= Times(0.2, Abs(recent - past))
  }

  /** The cap on a channel under the weights the code gives a life of the given row totals, its values in
      period i being data[i]: exact, and met whenever the channel's recent-to-old ratio is at most the rows'. */
  lemma {:induction false} LifetimeChannelCap(rows: seq<nat>, data: seq<seq<real>>)
    requires |data| == |rows|
    requires Present(data[..OldCount(|rows|)]) != [] && Present(data[OldCount(|rows|)..]) != []
    ensures var past := OldCount(|rows|);
            var older, newer := SumRows(rows[..past]), SumRows(rows[past..]);
            var before, after := Concat(Present(data[..past])), Concat(Present(data[past..]));
            var parts, ws := PartsOf(data), PresentWeights(data, PeriodWeights(rows));
            && before != [] && after != []
            && parts != [] && |parts| == |ws| && Sum(Counts(parts, ws)) != 0.0
            && (WithinCap(MergeChannel(parts, ws).mean, Mean(before), Mean(after))
                <==> 4.0 * Times(RecentWeight(older, newer), |after| as real) <= |before| as real || Mean(after) == Mean(before))
            && (older > 0 && newer > 0 && |after| * older <= |before| * newer ==>
                  WithinCap(MergeChannel(parts, ws).mean, Mean(before), Mean(after)))
  {
    hide Times, MergeChannel, Mean, RecentWeight, PeriodWeights, PartsOf, Abs, Sum;
    var past := OldCount(|rows|);
    assert past > 0;
    var older, newer := SumRows(rows[..past]), SumRows(rows[past..]);
    var w := RecentWeight(older, newer);
    var a, b := Present(data[..past]), Present(data[past..]);
    WeightsSplit(rows);
    assert data == data[..past] + data[past..];
    PresentAppend(data[..past], Repeat(1.0, past), data[past..], Repeat(w, |rows| - past));
    PresentRepeat(data[..past], 1.0);
    PresentRepeat(data[past..], w);
    PartsOfPresent(data);
    PresentKeepsAllButSingletons(data[..past]);
    PresentKeepsAllButSingletons(data[past..]);
    assert a[0] != [] && b[0] != [];
    ChannelCapExactly(a, b, w);
    if older > 0 && newer > 0 && |Concat(b)| * older <= |Concat(a)| * newer {
      ProportionateChannelIsCapped(older, newer, |Concat(a)|, |Concat(b)|);
    }
  }

  // ---- the merge of a life ---------------------------------------------------------------------

  /** Periods' data as summaries see them: no lone values. */
  lemma {:induction false} FilledIsPresent(data: seq<seq<real>>, ws: seq<real>)
    requires |data| == |ws| && forall i :: 0 <= i < |data| ==> |data[i]| != 1
    ensures Present(data) == Filled(data) && PresentWeights(data, ws) == FilledWeights(data, ws)
    ensures Concat(Present(data)) == Concat(data)
  {
    if data != [] {
      FilledIsPresent(data[1..], ws[1..]);
      if |data[0]| >= 2 {
        assert Present(data)[1..] == Present(data[1..]);
      } else {
        assert Present(data) == Present(data[1..]);
      }
    }
  }

  lemma {:induction false} DataSplit(periods: seq<Columns>, col: string, k: nat)
    requires k <= |periods|
    ensures DataOf(periods, col)[..k] == DataOf(periods[..k], col) && DataOf(periods, col)[k..] == DataOf(periods[k..], col)
    ensures forall i :: 0 <= i < |periods| ==> |DataOf(periods, col)[i]| != 1
  {
    if periods != [] {
      assert DataOf(periods, col)[1..] == DataOf(periods[1..], col);
      if k > 0 {
        DataSplit(periods[1..], col, k - 1);
        assert periods[..k][1..] == periods[1..][..k - 1] && periods[k..] == periods[1..][k - 1..];
      } else {
        DataSplit(periods[1..], col, 0);
        assert periods[0..] == periods && periods[..0] == [] && periods[1..][0..] == periods[1..];
      }
    }
  }

  /** The one mean a weighted summary can have. */
  lemma {:induction false} SameMean(s: Summary, t: Summary, data: seq<seq<real>>, ws: seq<real>)
    requires IsWeightedSummary(s, data, ws) && IsWeightedSummary(t, data, ws)
    ensures s.mean == t.mean
  {
    hide Times, DataScatter, Round, Lowest, Highest;
    TimesOrder(s.mean, t.mean, DataWeight(data, ws));
  }

  lemma {:induction false} TimesOrder(a: real, b: real, c: real)
    requires c > 0.0 && Times(a, c) == Times(b, c)
    ensures a == b
  {
    ProductOrder(a, b, c);
    ProductOrder(b, a, c);
  }

  /** A channel of both old and recent periods keeps to the cap in the merged life exactly as stated. */
  ghost predicate ChannelCapped(merged: PeriodSummary, periods: seq<Columns>, rows: seq<nat>, col: string)
    requires |periods| == |rows|
  {
    var past := if |rows| <= 2 then 0 else |rows| - 2;
    var older, newer := SumRows(rows[..past]), SumRows(rows[past..]);
    var before, after := Concat(DataOf(periods[..past], col)), Concat(DataOf(periods[past..], col));
    before != [] && after != [] ==>
      && col in merged.channels
      && (WithinCap(merged.channels[col].mean, Mean(before), Mean(after))
          <==> 4.0 * Times(RecentWeight(older, newer), |after| as real) <= |before| as real || Mean(after) == Mean(before))
      && (older > 0 && newer > 0 && |after| * older <= |before| * newer ==>
            WithinCap(merged.channels[col].mean, Mean(before), Mean(after)))
  }

  lemma {:induction false} PresentHalves(data: seq<seq<real>>, k: nat)
    requires k <= |data| && forall i :: 0 <= i < |data| ==> |data[i]| != 1
    ensures Concat(Present(data[..k])) == Concat(data[..k]) && Concat(Present(data[k..])) == Concat(data[k..])
    ensures Concat(data) == Concat(data[..k]) + Concat(data[k..])
  {
    FilledIsPresent(data[..k], Repeat(1.0, k));
    FilledIsPresent(data[k..], Repeat(1.0, |data| - k));
    ConcatParts(data, k);
  }

  /** The mean of a weighted summary is that of the merged parts. */
  lemma {:induction false} MeanOfParts(s: Summary, data: seq<seq<real>>, ws: seq<real>)
    requires IsWeightedSummary(s, data, ws) && forall i :: 0 <= i < |ws| ==> ws[i] > 0.0
    requires forall i :: 0 <= i < |data| ==> |data[i]| != 1
    ensures var parts, weights := PartsOf(data), PresentWeights(data, ws);
            parts != [] && |parts| == |weights| && Sum(Counts(parts, weights)) != 0.0 && MergeChannel(parts, weights).mean == s.mean
  {
    FilledIsPresent(data, ws);
    PartsOfPresent(data);
    FilledSums(data, ws, 0.0);
    FilledMerge(data, ws);
    SameMean(s, MergeChannel(SummariesOf(Filled(data)), FilledWeights(data, ws)), data, ws);
  }

  lemma {:induction false} MergedLifeIsCapped(merged: PeriodSummary, periods: seq<Columns>, rows: seq<nat>, col: string)
    requires |periods| == |rows| && MergesData(merged, periods, PeriodWeights(rows))
    ensures ChannelCapped(merged, periods, rows, col)
  {
    hide IsWeightedSummary, WithinCap, RecentWeight, Mean, Times, PeriodWeights, SumRows, DataOf, Concat, Present, PartsOf,
         PresentWeights, MergeChannel;
    var past, data, ws := OldCount(|rows|), DataOf(periods, col), PeriodWeights(rows);
    DataSplit(periods, col, past);
    PresentHalves(data, past);
    if Concat(data[..past]) != [] && Concat(data[past..]) != [] {
      WeightsArePositive(rows);
      NoneConcat();
      LifetimeChannelCap(rows, data);
      MeanOfParts(merged.channels[col], data, ws);
    }
  }

  lemma {:induction false} NoneConcat()
    ensures Concat([]) == []
  {
  }

  lemma {:induction false} WeightsArePositive(rows: seq<nat>)
    ensures forall i :: 0 <= i < |rows| ==> PeriodWeights(rows)[i] > 0.0
  {
    var past := OldCount(|rows|);
    WeightsSplit(rows);
    var w := if past == 0 then 1.0 else RecentWeight(SumRows(rows[..past]), SumRows(rows[past..]));
    RepeatAt(1.0, past);
    RepeatAt(w, |rows| - past);
    hide PeriodWeights, RecentWeight, SumRows;
  }

  lemma {:induction false} ConcatParts(data: seq<seq<real>>, k: nat)
    requires k <= |data|
    ensures Concat(data) == Concat(data[..k]) + Concat(data[k..])
  {
    if k > 0 {
      ConcatParts(data[1..], k - 1);
      assert data[..k][1..] == data[1..][..k - 1] && data[k..] == data[1..][k - 1..];
    } else {
      assert data[..0] == [] && data[0..] == data;
    }
  }

  /** The summary of a life from those of its periods and their numbers of rows. */
  method MergeLifetime(parts: seq<PeriodSummary>, rows: seq<nat>) returns (merged: PeriodSummary)
    requires |parts| == |rows|
    requires forall i, col :: 0 <= i < |parts| && col in parts[i].channels ==> parts[i].channels[col].count > 0
    ensures merged.period == "lifetime"
    ensures forall periods :: SummariseAll(parts, periods) ==> MergesData(merged, periods, PeriodWeights(rows))
    ensures forall periods, col :: SummariseAll(parts, periods) ==> ChannelCapped(merged, periods, rows, col)
  {
    hide SummariseAll, MergesData, ChannelCapped, PeriodWeights;
    WeightsArePositive(rows);
    merged := MergeSummaries(parts, PeriodWeights(rows), "lifetime");
    forall periods, col | SummariseAll(parts, periods)
      ensures |periods| == |rows| && ChannelCapped(merged, periods, rows, col)
    {
      AsManyPeriods(parts, periods);
      MergedLifeIsCapped(merged, periods, rows, col);
    }
  }

  lemma {:induction false} AsManyPeriods(parts: seq<PeriodSummary>, periods: seq<Columns>)
    requires SummariseAll(parts, periods)
    ensures |parts| == |periods|
  {
  }

  /** A channel that only recent periods carry is not capped at all: its baseline is its recent mean. */
  lemma {:induction false} NewChannelIsAllRecent(recent: seq<seq<real>>, w: real)
    requires w > 0.0 && recent != [] && forall i :: 0 <= i < |recent| ==> recent[i] != []
    ensures Concat(recent) != [] && Sum(Counts(SummariesOf(recent), Repeat(w, |recent|))) != 0.0
    ensures MergeChannel(SummariesOf(recent), Repeat(w, |recent|)).mean == Mean(Concat(recent))
  {
    hide Times, MergeChannel, Mean, Sum, Lowest, Highest, PartsLowest, PartsHighest;
    PartsExtremes(recent);
    RepeatedWeights(recent, w);
    var n, m := |Concat(recent)| as real, Mean(Concat(recent));
    TimesPositive(w, n);
    WeightedMergeIsExact(recent, Repeat(w, |recent|));
    MeanTimesCount(Concat(recent));
    TimesAssoc(w, n, m);
    QuotientOfProduct(Times(w, n), m);
  }

  lemma {:induction false} QuotientOfProduct(a: real, m: real)
    requires a > 0.0
    ensures Times(a, m) / a == m
  {
    DivBound(Times(a, m), m, a);
  }

  // ---- the calibration sample ----------------------------------------------------------------

  function ConcatRows<T>(parts: seq<seq<T>>): seq<T> {
    if parts == [] then [] else parts[0] + ConcatRows(parts[1..])
  }

  /** Older partitions only, unless that would leave none. */
  function OlderParts<T>(parts: seq<seq<T>>, excludeRecent: nat): seq<seq<T>> {
    if 0 < excludeRecent < |parts| then parts[..|parts| - excludeRecent] else parts
  }

  function ChunkCount(maxRows: nat): nat {
    if maxRows / CALIB_CHUNK_ROWS >= 1 then maxRows / CALIB_CHUNK_ROWS else 1
  }

  function ChunkStart(height: nat, chunks: nat, i: nat): nat
    requires chunks >= 1
  {
    i * height / chunks
  }

  /** A slice as a table gives it: shorter when it runs off the end. */
  function Slice<T>(rows: seq<T>, start: nat, n: nat): seq<T> {
    if start >= |rows| then [] else if start + n >= |rows| then rows[start..] else rows[start..start + n]
  }

  /** Chunk i of n starts at the last row that is no further than i parts in n of the history. */
  lemma {:induction false} ChunkStartIsEven(height: nat, chunks: nat, i: nat)
    requires chunks >= 1
    ensures ChunkStart(height, chunks, i) * chunks <= i * height < (ChunkStart(height, chunks, i) + 1) * chunks
  {
    DivAtLeast(i * height, chunks, ChunkStart(height, chunks, i));
    DivAtLeast(i * height, chunks, ChunkStart(height, chunks, i) + 1);
  }

  /** Above the budget the chunks are whole, in order, disjoint and inside the history. */
  lemma {:induction false} ChunksAreDisjoint(height: nat, maxRows: nat, i: nat)
    requires height > maxRows >= CALIB_CHUNK_ROWS && i < ChunkCount(maxRows)
    ensures ChunkStart(height, ChunkCount(maxRows), i) + CALIB_CHUNK_ROWS <= height
    ensures i + 1 < ChunkCount(maxRows) ==>
              ChunkStart(height, ChunkCount(maxRows), i) + CALIB_CHUNK_ROWS <= ChunkStart(height, ChunkCount(maxRows), i + 1)
  {
    var n := ChunkCount(maxRows);
    assert CALIB_CHUNK_ROWS * n <= maxRows < height;
    assert (i + 1) * height == i * height + height;
    DivStepUp(i * height, (i + 1) * height, CALIB_CHUNK_ROWS, n);
    StartMono(i + 1, n, height);
  }

  lemma {:induction false} StartMono(i: nat, n: nat, height: nat)
    requires 1 <= i <= n
    ensures i * height / n <= height
  {
    MulMono(i, n, height);
    assert (height + 1) * n == n * height + n;
    DivAtLeast(i * height, n, height + 1);
  }

  // ---- rows of the older life outside every fault window ------------------------------------------

  lemma {:induction false} OutsideConcat(a: seq<int>, b: seq<int>, e: Episode)
    ensures Outside(a + b, e) == Outside(a, e) + Outside(b, e)
  {
    if a == [] {
      assert a + b == b;
    } else {
      assert (a + b)[1..] == a[1..] + b;
      OutsideConcat(a[1..], b, e);
    }
  }

  /** Masking part by part is masking the whole. */
  lemma {:induction false} MaskedParts(a: seq<int>, b: seq<int>, eps: seq<Episode>)
    ensures Masked(a + b, eps) == Masked(a, eps) + Masked(b, eps)
    decreases |eps|
  {
    if eps != [] {
      OutsideConcat(a, b, eps[0]);
      MaskedParts(Outside(a, eps[0]), Outside(b, eps[0]), eps[1..]);
    }
  }

  lemma {:induction false} OlderRises(parts: seq<seq<int>>, k: nat)
    requires k <= |parts| && Rising(ConcatRows(parts))
    ensures ConcatRows(parts[..k]) <= ConcatRows(parts) && Rising(ConcatRows(parts[..k]))
  {
    if k > 0 {
      assert parts[..k][1..] == parts[1..][..k - 1];
      var rest := ConcatRows(parts[1..]);
      assert forall i :: 0 <= i < |rest| ==> rest[i] == ConcatRows(parts)[|parts[0]| + i];
      OlderRises(parts[1..], k - 1);
    }
  }

  lemma {:induction false} MaskedNone(eps: seq<Episode>)
    ensures Masked([], eps) == []
  {
    MaskedShrinks([], eps);
  }

  /** The healthy rows of the older life, by their timestamps: recent partitions left out unless that would leave
      none, and of each partition the rows no fault window of the asset covers. */
  function HealthyRows(parts: seq<seq<int>>, eps: seq<Episode>, asset: string, excludeRecent: nat): seq<int> {
    Masked(ConcatRows(OlderParts(parts, excludeRecent)), Faults(Own(eps, asset)))
  }

  lemma {:induction false} InConcatRows<T>(parts: seq<seq<T>>, t: T)
    ensures t in ConcatRows(parts) <==> exists p :: 0 <= p < |parts| && t in parts[p]
  {
    if parts != [] {
      InConcatRows(parts[1..], t);
      if p :| 0 <= p < |parts| && t in parts[p] {
        assert p > 0 ==> t in parts[1..][p - 1];
      }
      if p :| 0 <= p < |parts[1..]| && t in parts[1..][p] {
        assert t in parts[p + 1];
      }
      if t in parts[0] {
        assert exists p :: 0 <= p < |parts| && t in parts[p];
      }
    }
  }

  /** A row is healthy exactly when some partition has it, none of the recent ones where those are left out and others
      remain, and no alarm or intervention of the asset spans it. */
  lemma {:induction false} HealthyExactly(parts: seq<seq<int>>, eps: seq<Episode>, asset: string, excludeRecent: nat, t: int)
    ensures t in HealthyRows(parts, eps, asset, excludeRecent) <==>
              && (exists p :: 0 <= p < (if 0 < excludeRecent < |parts| then |parts| - excludeRecent else |parts|) && t in parts[p])
              && (forall e :: e in eps && e.asset == asset && (e.state == AlarmEpisode || e.state == Intervention) ==>
                    t < e.start || (if e.end.At? then e.end.ts else 253402214400) < t)
  {
    var older, windows := OlderParts(parts, excludeRecent), Faults(Own(eps, asset));
    MaskedIsUncovered(ConcatRows(older), windows, t);
    InConcatRows(older, t);
    forall e
      ensures e in windows <==> e in eps && e.asset == asset && (e.state == AlarmEpisode || e.state == Intervention)
    {
      FaultsMembers(Own(eps, asset), e);
      PickMembers(eps, asset, true, e);
    }
    hide Faults, Pick, Masked, ConcatRows;
    assert (forall k :: 0 <= k < |windows| ==> !Covers(windows[k], t)) <==> (forall e :: e in windows ==> !Covers(e, t));
  }

  lemma {:induction false} HealthyRowsRise(parts: seq<seq<int>>, eps: seq<Episode>, asset: string, excludeRecent: nat)
    requires Rising(ConcatRows(parts))
    ensures Rising(HealthyRows(parts, eps, asset, excludeRecent))
  {
    OlderRises(parts, |OlderParts(parts, excludeRecent)|);
    assert OlderParts(parts, excludeRecent) == parts[..|OlderParts(parts, excludeRecent)|];
    MaskedRising(ConcatRows(OlderParts(parts, excludeRecent)), Faults(Own(eps, asset)));
  }

  /** Each older partition is masked on its own. */
  method MaskOlderParts(parts: seq<seq<int>>, ledger: EpisodeLedger, asset: string, excludeRecent: nat) returns (full: seq<int>)
    ensures full == HealthyRows(parts, ledger.episodes, asset, excludeRecent)
  {
    hide Masked, Faults, Own;
    var use := OlderParts(parts, excludeRecent);
    ghost var faults := Faults(Own(ledger.episodes, asset));
    full := [];
    for i := 0 to |use|
      invariant full + Masked(ConcatRows(use[i..]), faults) == Masked(ConcatRows(use), faults)
    {
      assert use[i..][1..] == use[i + 1..];
      MaskedParts(use[i], ConcatRows(use[i + 1..]), faults);
      var kept := ledger.Mask(asset, use[i], true);
      assert full + (kept + Masked(ConcatRows(use[i + 1..]), faults)) == (full + kept) + Masked(ConcatRows(use[i + 1..]), faults);
      full := full + kept;
    }
    MaskedNone(faults);
  }

  /** Rows taken so far rise and, if any are, end before the start of chunk i. */
  ghost predicate IsRun(sample: seq<int>, full: seq<int>, n: nat, i: nat)
    requires n >= 1
  {
    Rising(sample) && (sample != [] && i < n && ChunkStart(|full|, n, i) < |full| ==> sample[|sample| - 1] < full[ChunkStart(|full|, n, i)])
  }

  lemma {:induction false} NextChunk(sample: seq<int>, full: seq<int>, n: nat, i: nat)
    requires n >= 1 && i < n && Rising(full) && IsRun(sample, full, n, i)
    requires ChunkStart(|full|, n, i) + CALIB_CHUNK_ROWS <= |full|
    requires i + 1 < n ==> ChunkStart(|full|, n, i) + CALIB_CHUNK_ROWS <= ChunkStart(|full|, n, i + 1)
    ensures IsRun(sample + Slice(full, ChunkStart(|full|, n, i), CALIB_CHUNK_ROWS), full, n, i + 1)
  {
    hide ChunkStart;
  }

  /** The calibration rows, in time order: the healthy rows of the older life, or evenly spaced chunks of them.
      Those rows already rise, so that sorting them by timestamp, as the code then does, changes nothing. */
  method CalibrationSample(parts: seq<seq<int>>, ledger: EpisodeLedger, asset: string, maxRows: nat, excludeRecent: nat)
    returns (sample: seq<int>)
    requires Rising(ConcatRows(parts))
    ensures Rising(HealthyRows(parts, ledger.episodes, asset, excludeRecent)) && Rising(sample)
    ensures var full := HealthyRows(parts, ledger.episodes, asset, excludeRecent);
            if |full| <= maxRows then sample == full
            else if maxRows < 512 then sample == full[..if |full| < 512 then |full| else 512]
            else |sample| == maxRows / 512 * 512
                 && forall i :: 0 <= i < maxRows / 512 ==>
                      var s := ChunkStart(|full|, maxRows / 512, i);
                      s + 512 <= |full| && sample[i * 512..i * 512 + 512] == full[s..s + 512]
    ensures |sample| <= maxRows <==>
              |HealthyRows(parts, ledger.episodes, asset, excludeRecent)| <= maxRows || maxRows >= 512
  {
    hide HealthyRows;
    var full := MaskOlderParts(parts, ledger, asset, excludeRecent);
    HealthyRowsRise(parts, ledger.episodes, asset, excludeRecent);
    if |full| <= maxRows {
      return full;
    }
    var n := ChunkCount(maxRows);
    sample := [];
    for i := 0 to n
      invariant maxRows >= CALIB_CHUNK_ROWS ==> |sample| == i * CALIB_CHUNK_ROWS && IsRun(sample, full, n, i)
      invariant maxRows >= CALIB_CHUNK_ROWS ==> forall j :: 0 <= j < i ==>
        var s := ChunkStart(|full|, n, j);
        s + CALIB_CHUNK_ROWS <= |full|
        && sample[j * CALIB_CHUNK_ROWS..j * CALIB_CHUNK_ROWS + CALIB_CHUNK_ROWS] == full[s..s + CALIB_CHUNK_ROWS]
      invariant maxRows < CALIB_CHUNK_ROWS ==> sample == if i == 0 then [] else Slice(full, 0, CALIB_CHUNK_ROWS)
    {
      if maxRows >= CALIB_CHUNK_ROWS {
        ChunksAreDisjoint(|full|, maxRows, i);
        NextChunk(sample, full, n, i);
      }
      sample := sample + Slice(full, ChunkStart(|full|, n, i), CALIB_CHUNK_ROWS);
    }
  }
}
