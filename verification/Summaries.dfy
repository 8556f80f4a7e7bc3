/** Mergeable per-period summaries. */
module Summaries {
  // Counts, means, squared deviations and extremes of one channel, and how parts of a life combine.

  import opened RealMath
  import opened Sums
  import opened Calibration
  import opened Samples
  import opened Results

  datatype Summary = Summary(count: int, mean: real, m2: real, minimum: real, maximum: real)

  /** Sum of squared deviations from c. */
  function Scatter(xs: seq<real>, c: real): real {
    if xs == [] then 0.0 else Sq(xs[0] - c) + Scatter(xs[1..], c)
  }

  function Lowest(xs: seq<real>): real
    requires xs != []
  {
    if |xs| == 1 then xs[0] else Min(xs[0], Lowest(xs[1..]))
  }

  function Highest(xs: seq<real>): real
    requires xs != []
  {
    if |xs| == 1 then xs[0] else Max(xs[0], Highest(xs[1..]))
  }

  /** The summary computed from the data itself. */
  function SummaryOf(xs: seq<real>): Summary
    requires xs != []
  {
    Summary(|xs|, Mean(xs), Scatter(xs, Mean(xs)), Lowest(xs), Highest(xs))
  }

  /** A channel with fewer than two finite values is left out of its period. */
  function SummarizeChannel(column: seq<Score>): Option<Summary> { SummarizeValues(FiniteOf(column)) }

  function SummarizeValues(xs: seq<real>): Option<Summary> { if |xs| < 2 then None else Some(SummaryOf(xs)) }

  // ---- the weighted merge ------------------------------------------------------------

  function Counts(parts: seq<Summary>, ws: seq<real>): seq<real>
    requires |parts| == |ws|
  {
    if parts == [] then [] else [Times(parts[0].count as real, ws[0])] + Counts(parts[1..], ws[1..])
  }

  function CountMeans(parts: seq<Summary>, ws: seq<real>): real
    requires |parts| == |ws|
  {
    if parts == [] then 0.0
    else Times(Times(parts[0].count as real, ws[0]), parts[0].mean) + CountMeans(parts[1..], ws[1..])
  }

  function MergedM2(parts: seq<Summary>, ws: seq<real>, mean: real): real
    requires |parts| == |ws|
  {
    if parts == [] then 0.0
    else Times(ws[0], parts[0].m2) + Times(Times(parts[0].count as real, ws[0]), Sq(parts[0].mean - mean))
         + MergedM2(parts[1..], ws[1..], mean)
  }

  function PartsLowest(parts: seq<Summary>): real
    requires parts != []
  {
    if |parts| == 1 then parts[0].minimum else Min(parts[0].minimum, PartsLowest(parts[1..]))
  }

  function PartsHighest(parts: seq<Summary>): real
    requires parts != []
  {
    if |parts| == 1 then parts[0].maximum else Max(parts[0].maximum, PartsHighest(parts[1..]))
  }

  /** Rounds to the nearest integer, halves to the even one. */
  function Round(r: real): int {
    var f := r.Floor;
    var frac := r - f as real;
    if frac < 0.5 || (frac == 0.5 && f % 2 == 0) then f else f + 1
  }

  function MergeChannel(parts: seq<Summary>, ws: seq<real>): Summary
    requires parts != [] && |parts| == |ws| && Sum(Counts(parts, ws)) != 0.0
  {
    var total := Sum(Counts(parts, ws));
    var mean := CountMeans(parts, ws) / total;
    Summary(Round(total), mean, MergedM2(parts, ws, mean), PartsLowest(parts), PartsHighest(parts))
  }

  // ---- scatter about any centre --------------------------------------------------------

  lemma {:induction false} ScatterExpand(xs: seq<real>, c: real)
    ensures Scatter(xs, c) == Scatter(xs, 0.0) - 2.0 * Times(c, Sum(xs)) + Times(|xs| as real, Sq(c))
  {
    if xs == [] {
      TimesSplit(c, 0.0, 0.0);
      TimesAdd(0.0, 0.0, Sq(c));
    } else {
      ScatterExpand(xs[1..], c);
      TimesSplit(c, xs[0], Sum(xs[1..]));
      TimesAdd(|xs[1..]| as real, 1.0, Sq(c));
      SquareExpand(xs[0], c);
    }
  }

  lemma {:induction false} SquareExpand(x: real, c: real)
    ensures Sq(x - c) == Sq(x - 0.0) - 2.0 * Times(c, x) + Times(1.0, Sq(c))
  {
  }

  lemma {:induction false} CentreShift(n: real, m: real, c: real)
    ensures Times(n, Sq(m - c)) == 2.0 * Times(m, Times(n, m)) - Times(n, Sq(m)) - 2.0 * Times(c, Times(n, m)) + Times(n, Sq(c))
  {
    assert n * ((m - c) * (m - c)) == n * (m * m) - 2.0 * (c * (n * m)) + n * (c * c);
    assert m * (n * m) == n * (m * m);
  }

  lemma {:induction false} MeanTimesCount(xs: seq<real>)
    requires xs != []
    ensures Times(|xs| as real, Mean(xs)) == Sum(xs)
  {
    DivMul(Sum(xs), |xs| as real);
  }

  /** Moving the centre from the mean to c adds count times the squared distance. */
  lemma {:induction false} ScatterAbout(xs: seq<real>, c: real)
    requires xs != []
    ensures Scatter(xs, c) == Scatter(xs, Mean(xs)) + Times(|xs| as real, Sq(Mean(xs) - c))
  {
    hide Times, Sq, Mean, Scatter, Sum;
    ScatterExpand(xs, c);
    ScatterExpand(xs, Mean(xs));
    MeanTimesCount(xs);
    CentreShift(|xs| as real, Mean(xs), c);
  }

  // ---- data behind the parts -------------------------------------------------------------

  function SummariesOf(data: seq<seq<real>>): (r: seq<Summary>)
    requires forall i :: 0 <= i < |data| ==> data[i] != []
    ensures |r| == |data|
  {
    if data == [] then [] else [SummaryOf(data[0])] + SummariesOf(data[1..])
  }

  /** Total weight, weighted sum and weighted scatter of the raw samples, part i's samples weighing ws[i]. */
  function DataWeight(data: seq<seq<real>>, ws: seq<real>): real
    requires |data| == |ws|
  {
    if data == [] then 0.0 else Times(|data[0]| as real, ws[0]) + DataWeight(data[1..], ws[1..])
  }

  function DataSum(data: seq<seq<real>>, ws: seq<real>): real
    requires |data| == |ws|
  {
    if data == [] then 0.0 else Times(ws[0], Sum(data[0])) + DataSum(data[1..], ws[1..])
  }

  function DataScatter(data: seq<seq<real>>, ws: seq<real>, c: real): real
    requires |data| == |ws|
  {
    if data == [] then 0.0 else Times(ws[0], Scatter(data[0], c)) + DataScatter(data[1..], ws[1..], c)
  }

  lemma {:induction false} RegroupMean(n: real, w: real, m: real)
    ensures Times(Times(n, w), m) == Times(w, Times(n, m))
  {
  }

  lemma {:induction false} MergeSums(data: seq<seq<real>>, ws: seq<real>, c: real)
    requires |data| == |ws| && forall i :: 0 <= i < |data| ==> data[i] != []
    ensures Sum(Counts(SummariesOf(data), ws)) == DataWeight(data, ws)
    ensures CountMeans(SummariesOf(data), ws) == DataSum(data, ws)
    ensures MergedM2(SummariesOf(data), ws, c) == DataScatter(data, ws, c)
  {
    hide Times, Sq, Mean, Scatter;
    if data != [] {
      var parts := SummariesOf(data);
      assert parts[1..] == SummariesOf(data[1..]);
      MergeSums(data[1..], ws[1..], c);
      var n, m := |data[0]| as real, Mean(data[0]);
      MeanTimesCount(data[0]);
      RegroupMean(n, ws[0], m);
      ScatterAbout(data[0], c);
      RegroupMean(n, ws[0], Sq(m - c));
      TimesSplit(ws[0], Scatter(data[0], m), Times(n, Sq(m - c)));
      assert Counts(parts, ws)[1..] == Counts(parts[1..], ws[1..]);
    }
  }

  /** One flat weighted merge has the mean and the squared deviations of the raw samples weighted
      part by part. */
  lemma {:induction false} WeightedMergeIsExact(data: seq<seq<real>>, ws: seq<real>)
    requires data != [] && |data| == |ws| && forall i :: 0 <= i < |data| ==> data[i] != []
    requires DataWeight(data, ws) != 0.0
    ensures Sum(Counts(SummariesOf(data), ws)) != 0.0
    ensures MergeChannel(SummariesOf(data), ws).mean == DataSum(data, ws) / DataWeight(data, ws)
    ensures MergeChannel(SummariesOf(data), ws).m2
         == DataScatter(data, ws, DataSum(data, ws) / DataWeight(data, ws))
    ensures MergeChannel(SummariesOf(data), ws).count == Round(DataWeight(data, ws))
  {
    MergeSums(data, ws, DataSum(data, ws) / DataWeight(data, ws));
  }

  // ---- unit weights: merging equals summarising the concatenation ------------------------

  function Ones(n: nat): (r: seq<real>)
    ensures |r| == n
  {
    if n == 0 then [] else [1.0] + Ones(n - 1)
  }

  function Concat(data: seq<seq<real>>): seq<real> {
    if data == [] then [] else data[0] + Concat(data[1..])
  }

  lemma {:induction false} ScatterConcat(xs: seq<real>, ys: seq<real>, c: real)
    ensures Scatter(xs + ys, c) == Scatter(xs, c) + Scatter(ys, c)
  {
    hide Sq;
    if xs == [] {
      assert xs + ys == ys;
    } else {
      assert (xs + ys)[1..] == xs[1..] + ys;
      ScatterConcat(xs[1..], ys, c);
    }
  }

  lemma {:induction false} ExtremesConcat(xs: seq<real>, ys: seq<real>)
    requires xs != [] && ys != []
    ensures Lowest(xs + ys) == Min(Lowest(xs), Lowest(ys)) && Highest(xs + ys) == Max(Highest(xs), Highest(ys))
  {
    if |xs| == 1 {
      assert (xs + ys)[1..] == ys;
    } else {
      assert (xs + ys)[1..] == xs[1..] + ys;
      ExtremesConcat(xs[1..], ys);
    }
  }

  lemma {:induction false} TimesOne(a: real)
    ensures Times(1.0, a) == a && Times(a, 1.0) == a
  {
  }

  lemma {:induction false} UnitData(data: seq<seq<real>>, c: real)
    ensures DataWeight(data, Ones(|data|)) == |Concat(data)| as real
    ensures DataSum(data, Ones(|data|)) == Sum(Concat(data))
    ensures DataScatter(data, Ones(|data|), c) == Scatter(Concat(data), c)
  {
    hide Times, Sq;
    if data != [] {
      assert Ones(|data|)[1..] == Ones(|data[1..]|);
      UnitData(data[1..], c);
      TimesOne(|data[0]| as real);
      TimesOne(Sum(data[0]));
      TimesOne(Scatter(data[0], c));
      SumConcat(data[0], Concat(data[1..]));
      ScatterConcat(data[0], Concat(data[1..]), c);
    }
  }

  lemma {:induction false} PartsExtremes(data: seq<seq<real>>)
    requires data != [] && forall i :: 0 <= i < |data| ==> data[i] != []
    ensures Concat(data) != []
    ensures PartsLowest(SummariesOf(data)) == Lowest(Concat(data))
    ensures PartsHighest(SummariesOf(data)) == Highest(Concat(data))
  {
    if |data| == 1 {
      assert Concat(data) == data[0];
    } else {
      PartsExtremes(data[1..]);
      ExtremesConcat(data[0], Concat(data[1..]));
      assert SummariesOf(data)[1..] == SummariesOf(data[1..]);
    }
  }

  /** Merging unweighted summaries gives the summary of all the data. */
  lemma {:induction false} MergeIsExact(data: seq<seq<real>>)
    requires data != [] && forall i :: 0 <= i < |data| ==> data[i] != []
    ensures Concat(data) != [] && Sum(Counts(SummariesOf(data), Ones(|data|))) != 0.0
    ensures MergeChannel(SummariesOf(data), Ones(|data|)) == SummaryOf(Concat(data))
  {
    PartsExtremes(data);
    UnitData(data, Mean(Concat(data)));
    WeightedMergeIsExact(data, Ones(|data|));
  }

  /** How the parts of a life were merged: leaves hold data, inner nodes merge their children. */
  datatype Plan = Part(xs: seq<real>) | Merge(kids: seq<Plan>)

  ghost predicate ValidPlan(p: Plan)
    decreases p
  {
    match p
    case Part(xs) => |xs| >= 2
    case Merge(kids) => kids != [] && forall i :: 0 <= i < |kids| ==> ValidPlan(kids[i])
  }

  function Flatten(p: Plan): seq<real>
    decreases p
  {
    match p
    case Part(xs) => xs
    case Merge(kids) => FlattenAll(kids)
  }

  function FlattenAll(ps: seq<Plan>): seq<real>
    decreases ps
  {
    if ps == [] then [] else Flatten(ps[0]) + FlattenAll(ps[1..])
  }

  /** The unweighted merge; nothing when no part is left to merge. */
  function MergeParts(parts: seq<Summary>): Option<Summary> {
    if parts == [] || Sum(Counts(parts, Ones(|parts|))) == 0.0 then None
    else Some(MergeChannel(parts, Ones(|parts|)))
  }

  /** A summary computed by merging as the plan says. */
  function Evaluate(p: Plan): Option<Summary>
    decreases p
  {
    match p
    case Part(xs) => if xs == [] then None else Some(SummaryOf(xs))
    case Merge(kids) => MergeParts(EvaluateAll(kids))
  }

  function EvaluateAll(ps: seq<Plan>): seq<Summary>
    decreases ps
  {
    if ps == [] then []
    else
      var first := Evaluate(ps[0]);
      (if first.Some? then [first.value] else []) + EvaluateAll(ps[1..])
  }

  function Leaves(ps: seq<Plan>): seq<seq<real>> {
    if ps == [] then [] else [Flatten(ps[0])] + Leaves(ps[1..])
  }

  lemma {:induction false} LeavesConcat(ps: seq<Plan>)
    ensures Concat(Leaves(ps)) == FlattenAll(ps) && |Leaves(ps)| == |ps|
  {
    if ps != [] {
      LeavesConcat(ps[1..]);
    }
  }

  /** Any grouping, to any depth: the merged summary is that of the flattened data. */
  lemma {:induction false} AnyGroupingIsExact(p: Plan)
    requires ValidPlan(p)
    ensures Flatten(p) != [] && Evaluate(p) == Some(SummaryOf(Flatten(p)))
    decreases p, 1
  {
    match p
    case Part(xs) =>
    case Merge(kids) =>
      GroupingOfKids(kids);
      LeavesConcat(kids);
      MergeIsExact(Leaves(kids));
  }

  lemma {:induction false} GroupingOfKids(ps: seq<Plan>)
    requires forall i :: 0 <= i < |ps| ==> ValidPlan(ps[i])
    ensures |Leaves(ps)| == |ps| && forall i :: 0 <= i < |ps| ==> Leaves(ps)[i] != []
    ensures EvaluateAll(ps) == SummariesOf(Leaves(ps))
    decreases ps, 0
  {
    if ps != [] {
      assert ValidPlan(ps[0]);
      AnyGroupingIsExact(ps[0]);
      GroupingOfKids(ps[1..]);
      assert Leaves(ps)[1..] == Leaves(ps[1..]);
    }
  }

  lemma {:induction false} SumByMultiset(xs: seq<real>, ys: seq<real>, c: real)
    requires multiset(xs) == multiset(ys)
    ensures Sum(xs) == Sum(ys) && Scatter(xs, c) == Scatter(ys, c)
    decreases |xs|
  {
    if xs == [] {
      assert |multiset(ys)| == |multiset(xs)| == 0;
    } else {
      var k := MatchHead(xs, ys);
      SumByMultiset(xs[1..], ys[..k] + ys[k + 1..], c);
      TakeOut(ys, k, c);
    }
  }

  lemma {:induction false} TakeOut(ys: seq<real>, k: nat, c: real)
    requires k < |ys|
    ensures Sum(ys) == ys[k] + Sum(ys[..k] + ys[k + 1..])
    ensures Scatter(ys, c) == Sq(ys[k] - c) + Scatter(ys[..k] + ys[k + 1..], c)
  {
    hide Sq;
    assert ys == (ys[..k] + [ys[k]]) + ys[k + 1..];
    SumConcat(ys[..k] + [ys[k]], ys[k + 1..]);
    SumConcat(ys[..k], [ys[k]]);
    SumConcat(ys[..k], ys[k + 1..]);
    ScatterConcat(ys[..k] + [ys[k]], ys[k + 1..], c);
    ScatterConcat(ys[..k], [ys[k]], c);
    ScatterConcat(ys[..k], ys[k + 1..], c);
  }

  lemma {:induction false} ExtremesAreAttained(xs: seq<real>)
    requires xs != []
    ensures Lowest(xs) in xs && forall i :: 0 <= i < |xs| ==> Lowest(xs) <= xs[i]
    ensures Highest(xs) in xs && forall i :: 0 <= i < |xs| ==> Highest(xs) >= xs[i]
  {
    if |xs| > 1 {
      ExtremesAreAttained(xs[1..]);
      assert xs == [xs[0]] + xs[1..];
    }
  }

  /** Any order: the summary depends on the samples, not on how they are arranged. */
  lemma {:induction false} AnyOrderIsExact(xs: seq<real>, ys: seq<real>)
    requires xs != [] && multiset(xs) == multiset(ys)
    ensures ys != [] && SummaryOf(xs) == SummaryOf(ys)
  {
    assert |xs| == |multiset(xs)| == |multiset(ys)| == |ys|;
    SumByMultiset(xs, ys, Mean(xs));
    ExtremesAreAttained(xs);
    ExtremesAreAttained(ys);
    assert forall v :: v in xs <==> v in multiset(xs);
    assert forall v :: v in ys <==> v in multiset(ys);
  }

  // ---- parts too short to be summarised ---------------------------------------------------

  /** The periods' summaries of one channel that a merge is given. */
  function PartsOf(data: seq<seq<real>>): seq<Summary> {
    if data == [] then []
    else
      var first := SummarizeValues(data[0]);
      (if first.Some? then [first.value] else []) + PartsOf(data[1..])
  }

  /** The data behind them: the periods with at least two values. */
  function Present(data: seq<seq<real>>): seq<seq<real>> {
    if data == [] then []
    else (if |data[0]| >= 2 then [data[0]] else []) + Present(data[1..])
  }

  function Singletons(data: seq<seq<real>>): nat {
    if data == [] then 0 else (if |data[0]| == 1 then 1 else 0) + Singletons(data[1..])
  }

  lemma {:induction false} PresentKeepsAllButSingletons(data: seq<seq<real>>)
    ensures |Concat(Present(data))| + Singletons(data) == |Concat(data)|
    ensures Singletons(data) == 0 ==> Concat(Present(data)) == Concat(data)
    ensures forall i :: 0 <= i < |Present(data)| ==> |Present(data)[i]| >= 2
  {
    if data != [] {
      PresentKeepsAllButSingletons(data[1..]);
      if |data[0]| >= 2 {
        assert Present(data)[1..] == Present(data[1..]);
      } else {
        assert Present(data) == Present(data[1..]);
        assert |data[0]| == 0 ==> Concat(data) == Concat(data[1..]);
      }
    }
  }

  lemma {:induction false} PartsOfPresent(data: seq<seq<real>>)
    ensures forall i :: 0 <= i < |Present(data)| ==> Present(data)[i] != []
    ensures PartsOf(data) == SummariesOf(Present(data))
  {
    PresentKeepsAllButSingletons(data);
    if data != [] {
      PartsOfPresent(data[1..]);
      if |data[0]| >= 2 {
        assert Present(data)[1..] == Present(data[1..]);
      } else {
        assert Present(data) == Present(data[1..]);
      }
    }
  }

  /** Merging the periods' summaries of a channel gives the summary of its whole life, or none just when its
      life gives none, exactly when no period holds a lone finite value or the life has fewer than two. A lone
      value is in no summary: it is lost, and with it the channel where no period holds more. */
  lemma {:induction false} PeriodsMergeExactly(data: seq<seq<real>>)
    ensures MergeParts(PartsOf(data)) == SummarizeValues(Concat(data))
            <==> Singletons(data) == 0 || |Concat(data)| < 2
  {
    PresentKeepsAllButSingletons(data);
    PartsOfPresent(data);
    if Present(data) != [] {
      MergeIsExact(Present(data));
    }
  }

  // ---- whole periods ----------------------------------------------------------------------

  datatype PeriodSummary = PeriodSummary(period: string, channels: map<string, Summary>)

  method BuildPeriodSummary(period: string, columns: map<string, seq<Score>>) returns (s: PeriodSummary)
    ensures s.period == period
    ensures forall col :: col in s.channels <==> col in columns && |FiniteOf(columns[col])| >= 2
    ensures forall col :: col in s.channels ==> s.channels[col] == SummaryOf(FiniteOf(columns[col]))
  {
    var channels: map<string, Summary> := map[];
    var left := columns.Keys;
    while left != {}
      invariant left <= columns.Keys
      invariant forall col :: col in channels <==> col in columns && col !in left && |FiniteOf(columns[col])| >= 2
      invariant forall col :: col in channels ==> channels[col] == SummaryOf(FiniteOf(columns[col]))
      decreases |left|
    {
      var col :| col in left;
      left := left - {col};
      var cs := SummarizeChannel(columns[col]);
      if cs.Some? {
        channels := channels[col := cs.value];
      }
    }
    s := PeriodSummary(period, channels);
  }

  /** Summaries and weights of the periods that have the channel. */
  function PartsWith(parts: seq<PeriodSummary>, col: string): seq<Summary> {
    if parts == [] then []
    else (if col in parts[0].channels then [parts[0].channels[col]] else []) + PartsWith(parts[1..], col)
  }

  function WeightsWith(parts: seq<PeriodSummary>, ws: seq<real>, col: string): (r: seq<real>)
    requires |parts| == |ws|
    ensures |r| == |PartsWith(parts, col)|
  {
    if parts == [] then []
    else (if col in parts[0].channels then [ws[0]] else []) + WeightsWith(parts[1..], ws[1..], col)
  }

  function ChannelsOf(parts: seq<PeriodSummary>): set<string> {
    if parts == [] then {} else parts[0].channels.Keys + ChannelsOf(parts[1..])
  }

  ghost predicate Usable(parts: seq<PeriodSummary>, ws: seq<real>) {
    && |parts| == |ws|
    && (forall i :: 0 <= i < |ws| ==> ws[i] > 0.0)
    && (forall i, col :: 0 <= i < |parts| && col in parts[i].channels ==> parts[i].channels[col].count > 0)
  }

  lemma {:induction false} TotalIsPositive(parts: seq<PeriodSummary>, ws: seq<real>, col: string)
    requires Usable(parts, ws)
    ensures Sum(Counts(PartsWith(parts, col), WeightsWith(parts, ws, col))) >= 0.0
    ensures col in ChannelsOf(parts) ==>
              PartsWith(parts, col) != [] && Sum(Counts(PartsWith(parts, col), WeightsWith(parts, ws, col))) > 0.0
  {
    hide Times;
    if parts != [] {
      TotalIsPositive(parts[1..], ws[1..], col);
      if col in parts[0].channels {
        var ps, qs := PartsWith(parts, col), WeightsWith(parts, ws, col);
        assert ps[1..] == PartsWith(parts[1..], col) && qs[1..] == WeightsWith(parts[1..], ws[1..], col);
        assert Counts(ps, qs)[1..] == Counts(ps[1..], qs[1..]);
        TimesPositive(ps[0].count as real, qs[0]);
      } else {
        assert PartsWith(parts, col) == PartsWith(parts[1..], col);
        assert WeightsWith(parts, ws, col) == WeightsWith(parts[1..], ws[1..], col);
      }
    }
  }

  lemma {:induction false} TimesPositive(a: real, b: real)
    requires a > 0.0 && b > 0.0
    ensures Times(a, b) > 0.0
  {
    MulLt(0.0, a, b);
  }

  // ---- what a merge of periods is of the data behind them -------------------------------------------------

  /** The columns of one period's table. */
  type Columns = map<string, seq<Score>>

  /** What a period's summary was made of. */
  ghost predicate Summarises(part: PeriodSummary, columns: Columns) {
    && (forall col :: col in part.channels <==> col in columns && |FiniteOf(columns[col])| >= 2)
    && (forall col :: col in part.channels ==> part.channels[col] == SummaryOf(FiniteOf(columns[col])))
  }

  ghost predicate SummariseAll(parts: seq<PeriodSummary>, periods: seq<Columns>) {
    |parts| == |periods| && forall i :: 0 <= i < |parts| ==> Summarises(parts[i], periods[i])
  }

  /** The values of a channel that a period's summary speaks for. */
  function ValuesOf(columns: Columns, col: string): seq<real> {
    if col in columns && |FiniteOf(columns[col])| >= 2 then FiniteOf(columns[col]) else []
  }

  function DataOf(periods: seq<Columns>, col: string): (data: seq<seq<real>>)
    ensures |data| == |periods|
  {
    if periods == [] then [] else [ValuesOf(periods[0], col)] + DataOf(periods[1..], col)
  }

  /** Period by period, the values that are there and the weights of those periods. */
  function Filled(data: seq<seq<real>>): (r: seq<seq<real>>)
    ensures forall i :: 0 <= i < |r| ==> r[i] != []
  {
    if data == [] then [] else (if data[0] != [] then [data[0]] else []) + Filled(data[1..])
  }

  function FilledWeights(data: seq<seq<real>>, ws: seq<real>): (r: seq<real>)
    requires |data| == |ws|
    ensures |r| == |Filled(data)|
  {
    if data == [] then [] else (if data[0] != [] then [ws[0]] else []) + FilledWeights(data[1..], ws[1..])
  }

  lemma {:induction false} FilledParts(parts: seq<PeriodSummary>, periods: seq<Columns>, ws: seq<real>, col: string)
    requires |ws| == |parts| && SummariseAll(parts, periods)
    ensures PartsWith(parts, col) == SummariesOf(Filled(DataOf(periods, col)))
    ensures WeightsWith(parts, ws, col) == FilledWeights(DataOf(periods, col), ws)
    ensures col in ChannelsOf(parts) <==> Filled(DataOf(periods, col)) != []
  {
    hide SummaryOf;
    if parts != [] {
      assert Summarises(parts[0], periods[0]);
      assert forall i :: 0 <= i < |parts[1..]| ==> parts[1..][i] == parts[i + 1] && periods[1..][i] == periods[i + 1];
      FilledParts(parts[1..], periods[1..], ws[1..], col);
      var data := DataOf(periods, col);
      assert data[0] == ValuesOf(periods[0], col) && data[1..] == DataOf(periods[1..], col);
      if data[0] != [] {
        assert Filled(data)[1..] == Filled(data[1..]);
      } else {
        assert Filled(data) == Filled(data[1..]);
      }
    }
  }

  /** Periods without the channel weigh nothing. */
  lemma {:induction false} FilledSums(data: seq<seq<real>>, ws: seq<real>, c: real)
    requires |data| == |ws|
    ensures DataWeight(Filled(data), FilledWeights(data, ws)) == DataWeight(data, ws)
    ensures DataSum(Filled(data), FilledWeights(data, ws)) == DataSum(data, ws)
    ensures DataScatter(Filled(data), FilledWeights(data, ws), c) == DataScatter(data, ws, c)
    ensures Concat(Filled(data)) == Concat(data)
  {
    hide Sq;
    if data != [] {
      FilledSums(data[1..], ws[1..], c);
      TimesSplit(ws[0], 0.0, 0.0);
      TimesAdd(0.0, 0.0, ws[0]);
      hide Times;
      if data[0] != [] {
        assert Filled(data)[1..] == Filled(data[1..]) && FilledWeights(data, ws)[1..] == FilledWeights(data[1..], ws[1..]);
      } else {
        assert Filled(data) == Filled(data[1..]) && FilledWeights(data, ws) == FilledWeights(data[1..], ws[1..]);
      }
    }
  }

  lemma {:induction false} WeightIsPositive(data: seq<seq<real>>, ws: seq<real>)
    requires |data| == |ws| && forall i :: 0 <= i < |ws| ==> ws[i] > 0.0
    ensures DataWeight(data, ws) >= 0.0
    ensures Filled(data) != [] ==> DataWeight(data, ws) > 0.0 && Concat(data) != []
  {
    if data != [] {
      WeightIsPositive(data[1..], ws[1..]);
      TimesNonneg(|data[0]| as real, ws[0]);
      if data[0] != [] {
        TimesPositive(|data[0]| as real, ws[0]);
      }
      hide Times;
    }
  }

  /** A summary of raw values, those of period i weighing ws[i]: their weighted mean, their weighted squared
      deviations from it, their weighted number to the nearest whole, and their extremes. */
  ghost predicate IsWeightedSummary(s: Summary, data: seq<seq<real>>, ws: seq<real>) {
    && |data| == |ws| && DataWeight(data, ws) > 0.0 && Concat(data) != []
    && Times(s.mean, DataWeight(data, ws)) == DataSum(data, ws)
    && s.m2 == DataScatter(data, ws, s.mean)
    && s.count == Round(DataWeight(data, ws))
    && s.minimum == Lowest(Concat(data)) && s.maximum == Highest(Concat(data))
  }

  /** Every channel some period speaks for, and no other, is summed up over all periods with their weights. */
  ghost predicate MergesData(merged: PeriodSummary, periods: seq<Columns>, ws: seq<real>) {
    forall col :: if Concat(DataOf(periods, col)) == [] then col !in merged.channels
                  else col in merged.channels && IsWeightedSummary(merged.channels[col], DataOf(periods, col), ws)
  }

  lemma {:induction false} FilledMerge(data: seq<seq<real>>, ws: seq<real>)
    requires |data| == |ws| && Filled(data) != [] && forall i :: 0 <= i < |ws| ==> ws[i] > 0.0
    ensures Sum(Counts(SummariesOf(Filled(data)), FilledWeights(data, ws))) != 0.0
    ensures IsWeightedSummary(MergeChannel(SummariesOf(Filled(data)), FilledWeights(data, ws)), data, ws)
  {
    hide DataWeight, DataSum, DataScatter, Round, Lowest, Highest, PartsLowest, PartsHighest, Filled, FilledWeights, SummariesOf, Concat,
         Sum, Counts, MergedM2, CountMeans, Times;
    WeightIsPositive(data, ws);
    FilledSums(data, ws, 0.0);
    WeightedMergeIsExact(Filled(data), FilledWeights(data, ws));
    PartsExtremes(Filled(data));
    FilledSums(data, ws, DataSum(data, ws) / DataWeight(data, ws));
    QuotientTimes(DataSum(data, ws), DataWeight(data, ws));
  }

  lemma {:induction false} QuotientTimes(a: real, c: real)
    requires c != 0.0
    ensures Times(a / c, c) == a
  {
    DivMul(a, c);
  }

  lemma {:induction false} MergedChannel(parts: seq<PeriodSummary>, periods: seq<Columns>, ws: seq<real>, col: string)
    requires Usable(parts, ws) && SummariseAll(parts, periods) && col in ChannelsOf(parts)
    ensures PartsWith(parts, col) != [] && Sum(Counts(PartsWith(parts, col), WeightsWith(parts, ws, col))) != 0.0
    ensures IsWeightedSummary(MergeChannel(PartsWith(parts, col), WeightsWith(parts, ws, col)), DataOf(periods, col), ws)
  {
    FilledParts(parts, periods, ws, col);
    hide PartsWith, WeightsWith, DataOf, IsWeightedSummary, MergeChannel, Filled, FilledWeights, SummariesOf;
    FilledMerge(DataOf(periods, col), ws);
  }

  lemma {:induction false} NoChannel(parts: seq<PeriodSummary>, periods: seq<Columns>, ws: seq<real>, col: string)
    requires Usable(parts, ws) && SummariseAll(parts, periods)
    ensures col in ChannelsOf(parts) <==> Concat(DataOf(periods, col)) != []
  {
    var data := DataOf(periods, col);
    FilledParts(parts, periods, ws, col);
    WeightIsPositive(data, ws);
    FilledSums(data, ws, 0.0);
  }

  lemma {:induction false} MergedOfData(parts: seq<PeriodSummary>, ws: seq<real>, merged: PeriodSummary)
    requires Usable(parts, ws) && merged.channels.Keys == ChannelsOf(parts)
    requires forall col :: col in merged.channels ==>
               PartsWith(parts, col) != [] && Sum(Counts(PartsWith(parts, col), WeightsWith(parts, ws, col))) != 0.0
               && merged.channels[col] == MergeChannel(PartsWith(parts, col), WeightsWith(parts, ws, col))
    ensures forall periods :: SummariseAll(parts, periods) ==> MergesData(merged, periods, ws)
  {
    hide IsWeightedSummary, SummariseAll, DataOf, PartsWith, WeightsWith, MergeChannel, Usable;
    forall periods | SummariseAll(parts, periods)
      ensures MergesData(merged, periods, ws)
    {
      forall col
        ensures if Concat(DataOf(periods, col)) == [] then col !in merged.channels
                else col in merged.channels && IsWeightedSummary(merged.channels[col], DataOf(periods, col), ws)
      {
        NoChannel(parts, periods, ws, col);
        assert col in merged.channels <==> col in ChannelsOf(parts);
        if col in ChannelsOf(parts) {
          MergedChannel(parts, periods, ws, col);
        }
      }
    }
  }

  /** Rounding is to a nearest whole number, and to an even one where two are. */
  lemma {:induction false} RoundIsNearest(r: real)
    ensures -0.5 <= Round(r) as real - r <= 0.5
    ensures Round(r) as real - r == 0.5 || Round(r) as real - r == -0.5 ==> Round(r) % 2 == 0
  {
  }

  method MergeSummaries(parts: seq<PeriodSummary>, ws: seq<real>, tag: string) returns (merged: PeriodSummary)
    requires Usable(parts, ws)
    ensures merged.period == tag && merged.channels.Keys == ChannelsOf(parts)
    ensures forall col :: col in merged.channels ==>
              PartsWith(parts, col) != [] && Sum(Counts(PartsWith(parts, col), WeightsWith(parts, ws, col))) != 0.0
              && merged.channels[col] == MergeChannel(PartsWith(parts, col), WeightsWith(parts, ws, col))
    ensures forall periods :: SummariseAll(parts, periods) ==> MergesData(merged, periods, ws)
  {
    hide MergesData, SummariseAll;
    var channels: map<string, Summary> := map[];
    var left := ChannelsOf(parts);
    while left != {}
      invariant left <= ChannelsOf(parts) && channels.Keys == ChannelsOf(parts) - left
      invariant forall col :: col in channels ==>
        PartsWith(parts, col) != [] && Sum(Counts(PartsWith(parts, col), WeightsWith(parts, ws, col))) != 0.0
        && channels[col] == MergeChannel(PartsWith(parts, col), WeightsWith(parts, ws, col))
      decreases |left|
    {
      var col :| col in left;
      left := left - {col};
      TotalIsPositive(parts, ws, col);
      channels := channels[col := MergeChannel(PartsWith(parts, col), WeightsWith(parts, ws, col))];
    }
    merged := PeriodSummary(tag, channels);
    MergedOfData(parts, ws, merged);
  }
}
