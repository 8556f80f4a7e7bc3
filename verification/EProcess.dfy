/** Conformal betting e-processes. */
module EProcesses {
  // Scores become block means, block means become smoothed conformal p-values, p-values multiply wealth,
  // and the peak of the wealth latches the alarm. Wealth is kept as wealth, not as its logarithm: the cap
  // on log-wealth is `cap` here.

  import opened IntMath
  import opened RealMath
  import opened Sums
  import opened Calibration
  import opened Results
  import opened Samples

  const P_FLOOR := 0.000000000001
  const MIN_CALIB_BLOCKS := 30
  const ACF_DECORR_THRESHOLD := 0.1
  const ACF_REFUSAL_FLOOR := 0.2

  /** What the process is parameterised by: the bet on a p-value, the wealth cap and the generator
      of smoothing draws (a state, the draw it yields, the state after the draw). */
  datatype Kernel = Kernel(bet: real -> real, cap: real,
                           draw: nat -> real, advance: nat -> nat, seeded: nat -> nat)

  datatype EState = EState(wealth: real, peak: real, blocks: nat, buffer: seq<real>, rng: nat)

  datatype CalibError = BadAlpha | TooFewValues | TooFewBlocks | TooAutocorrelated

  // ---- one block --------------------------------------------------------

  /** `tied` counts the test value itself, `total` the calibration values and the test value. */
  function Smoothed(greater: int, tied: int, total: nat, u: real): real
    requires total >= 1
  {
    (greater as real + u * tied as real) / total as real
  }

  function RawP(calib: seq<real>, x: real, u: real): real
    requires Sorted(calib)
  {
    var n := |calib|;
    var greater := n - SearchRight(calib, x);
    var equal := SearchRight(calib, x) - SearchLeft(calib, x);
    Smoothed(greater, equal + 1, n + 1, u)
  }

  function Clip(p: real): real { Min(Max(p, P_FLOOR), 1.0) }

  /** The e-value of a block statistic x with smoothing draw u. */
  function EValue(k: Kernel, calib: seq<real>, x: real, u: real): real
    requires Sorted(calib)
  {
    k.bet(Clip(RawP(calib, x, u)))
  }

  /** Betting on one block statistic x with smoothing draw u. */
  function Bet(k: Kernel, calib: seq<real>, s: EState, x: real, u: real): EState
    requires Sorted(calib)
  {
    var w := Min(Times(s.wealth, EValue(k, calib, x, u)), k.cap);
    s.(wealth := w, peak := Max(s.peak, w), blocks := s.blocks + 1)
  }

  function Ingest(k: Kernel, calib: seq<real>, s: EState, x: real): EState
    requires Sorted(calib)
  {
    Bet(k, calib, s, x, k.draw(s.rng)).(rng := k.advance(s.rng))
  }

  function IngestAll(k: Kernel, calib: seq<real>, s: EState, xs: seq<real>): EState
    requires Sorted(calib)
    decreases |xs|
  {
    if xs == [] then s else IngestAll(k, calib, Ingest(k, calib, s, xs[0]), xs[1..])
  }

  predicate Latched(s: EState, alpha: real)
    requires alpha > 0.0
  {
    s.peak >= 1.0 / alpha
  }

  // ---- block forming ----------------------------------------------------

  /** Means of the whole consecutive blocks of length b. */
  function Blocks(xs: seq<real>, b: nat): seq<real>
    requires b >= 1
  {
    if |xs| < b then [] else [Mean(xs[..b])] + Blocks(xs[b..], b)
  }

  function Rest(xs: seq<real>, b: nat): seq<real>
    requires b >= 1
  {
    if |xs| < b then xs else Rest(xs[b..], b)
  }

  lemma {:induction false} RestIsTail(xs: seq<real>, b: nat)
    requires b >= 1
    ensures |Blocks(xs, b)| == |xs| / b
    ensures 0 <= |xs| / b * b <= |xs| && Rest(xs, b) == xs[|xs| / b * b..] && |Rest(xs, b)| < b
    decreases |xs|
  {
    if |xs| < b {
      DivSmall(|xs|, b);
    } else {
      DivStep(|xs|, b);
      RestIsTail(xs[b..], b);
      assert xs[|xs| / b * b..] == xs[b..][|xs[b..]| / b * b..];
    }
  }

  /** Block forming is the batch reshape: block i averages positions i*b .. (i+1)*b. */
  lemma {:induction false} BlockAt(xs: seq<real>, b: nat, i: nat)
    requires b >= 1 && i < |xs| / b
    ensures |Blocks(xs, b)| == |xs| / b
    ensures 0 <= i * b <= i * b + b <= |xs|
    ensures Blocks(xs, b)[i] == Mean(xs[i * b..i * b + b])
    decreases i
  {
    RestIsTail(xs, b);
    DivSmall(|xs|, b);
    if i == 0 {
      assert xs[0..b] == xs[..b];
    } else {
      DivStep(|xs|, b);
      BlockAt(xs[b..], b, i - 1);
      assert (i - 1) * b == i * b - b;
      assert xs[b..][(i - 1) * b..(i - 1) * b + b] == xs[i * b..i * b + b];
      assert Blocks(xs, b)[i] == Blocks(xs[b..], b)[i - 1];
    }
  }

  function Push(k: Kernel, calib: seq<real>, b: nat, s: EState, v: real): EState
    requires Sorted(calib) && b >= 1
  {
    var buf := s.buffer + [v];
    if |buf| >= b then Ingest(k, calib, s.(buffer := buf[b..]), Mean(buf[..b]))
    else s.(buffer := buf)
  }

  /** The state after a stream of finite scores, one at a time. */
  function Feed(k: Kernel, calib: seq<real>, b: nat, s: EState, vs: seq<real>): EState
    requires Sorted(calib) && b >= 1
    decreases |vs|
  {
    if vs == [] then s else Feed(k, calib, b, Push(k, calib, b, s, vs[0]), vs[1..])
  }

  /** Any chunking of a stream leaves the same state. */
  lemma {:induction false} FeedConcat(k: Kernel, calib: seq<real>, b: nat, s: EState, xs: seq<real>, ys: seq<real>)
    requires Sorted(calib) && b >= 1
    ensures Feed(k, calib, b, s, xs + ys) == Feed(k, calib, b, Feed(k, calib, b, s, xs), ys)
    decreases |xs|
  {
    if xs == [] {
      assert xs + ys == ys;
    } else {
      assert (xs + ys)[1..] == xs[1..] + ys;
      FeedConcat(k, calib, b, Push(k, calib, b, s, xs[0]), xs[1..], ys);
    }
  }

  /** So may a raw one be cut anywhere, values that are not finite included. */
  lemma {:induction false} RawFeedConcat(k: Kernel, calib: seq<real>, b: nat, s: EState, xs: seq<Score>, ys: seq<Score>)
    requires Sorted(calib) && b >= 1
    ensures Feed(k, calib, b, s, FiniteOf(xs + ys)) == Feed(k, calib, b, Feed(k, calib, b, s, FiniteOf(xs)), FiniteOf(ys))
  {
    FiniteOfConcat(xs, ys);
    FeedConcat(k, calib, b, s, FiniteOf(xs), FiniteOf(ys));
  }

  lemma {:induction false} IngestBuffer(k: Kernel, calib: seq<real>, s: EState, x: real, buf: seq<real>)
    requires Sorted(calib)
    ensures Ingest(k, calib, s.(buffer := buf), x) == Ingest(k, calib, s, x).(buffer := buf)
  {
    hide EValue;
  }

  lemma {:induction false} IngestAllBuffer(k: Kernel, calib: seq<real>, s: EState, xs: seq<real>, buf: seq<real>)
    requires Sorted(calib)
    ensures IngestAll(k, calib, s.(buffer := buf), xs) == IngestAll(k, calib, s, xs).(buffer := buf)
    decreases |xs|
  {
    hide Ingest;
    if xs != [] {
      IngestBuffer(k, calib, s, xs[0], buf);
      IngestAllBuffer(k, calib, Ingest(k, calib, s, xs[0]), xs[1..], buf);
    }
  }

  /** Streaming is batch: the blocks bet on are those of the whole stream reshaped, the buffer is
      the incomplete tail. */
  lemma {:induction false} FeedIsBatch(k: Kernel, calib: seq<real>, b: nat, s: EState, vs: seq<real>)
    requires Sorted(calib) && b >= 1 && |s.buffer| < b
    ensures Feed(k, calib, b, s, vs)
         == IngestAll(k, calib, s, Blocks(s.buffer + vs, b)).(buffer := Rest(s.buffer + vs, b))
    decreases |vs|
  {
    hide Ingest;
    if vs == [] {
      assert s.buffer + vs == s.buffer;
    } else {
      var all := s.buffer + vs;
      var t := Push(k, calib, b, s, vs[0]);
      var buf := s.buffer + [vs[0]];
      if |buf| >= b {
        IngestBuffer(k, calib, s, Mean(buf[..b]), buf[b..]);
      }
      FeedIsBatch(k, calib, b, t, vs[1..]);
      if |buf| >= b {
        assert buf[b..] == [] && all[..b] == buf[..b] && all[b..] == vs[1..] == t.buffer + vs[1..];
        assert Blocks(all, b) == [Mean(all[..b])] + Blocks(all[b..], b);
        var s0 := s.(buffer := []);
        assert t == Ingest(k, calib, s0, Mean(all[..b]));
        assert IngestAll(k, calib, s0, Blocks(all, b)) == IngestAll(k, calib, t, Blocks(vs[1..], b));
        IngestAllBuffer(k, calib, s, Blocks(all, b), []);
      } else {
        assert buf + vs[1..] == all;
        IngestAllBuffer(k, calib, s, Blocks(all, b), buf);
      }
    }
  }

  /** Once latched, always latched: feeding never lowers the peak. */
  lemma {:induction false} FeedLatches(k: Kernel, calib: seq<real>, b: nat, s: EState, vs: seq<real>)
    requires Sorted(calib) && b >= 1
    ensures Feed(k, calib, b, s, vs).peak >= s.peak
    decreases |vs|
  {
    if vs != [] {
      FeedLatches(k, calib, b, Push(k, calib, b, s, vs[0]), vs[1..]);
    }
  }

  /** The peak was the wealth after some block, the wealth never exceeds the cap, and every block is counted. */
  lemma {:induction false} PeakIsAttained(k: Kernel, calib: seq<real>, s: EState, xs: seq<real>) returns (n: nat)
    requires Sorted(calib) && s.wealth <= s.peak
    ensures n <= |xs| && IngestAll(k, calib, s, xs).peak == if n == 0 then s.peak else IngestAll(k, calib, s, xs[..n]).wealth
    ensures IngestAll(k, calib, s, xs).wealth <= IngestAll(k, calib, s, xs).peak
    ensures s.wealth <= k.cap ==> IngestAll(k, calib, s, xs).wealth <= k.cap
    ensures IngestAll(k, calib, s, xs).blocks == s.blocks + |xs|
    decreases |xs|
  {
    n := 0;
    assert xs[..0] == [];
    if xs != [] {
      hide EValue;
      var t := Ingest(k, calib, s, xs[0]);
      var r := PeakIsAttained(k, calib, t, xs[1..]);
      if IngestAll(k, calib, s, xs).peak == s.peak {
        n := 0;
      } else {
        n := r + 1;
        assert xs[..n][0] == xs[0] && xs[..n][1..] == xs[1..][..r];
        assert r == 0 ==> xs[1..][..r] == [];
      }
    }
  }

  /** No wealth on the way exceeds the peak. */
  lemma {:induction false} WealthStaysBelowPeak(k: Kernel, calib: seq<real>, s: EState, xs: seq<real>, n: nat)
    requires Sorted(calib) && s.wealth <= s.peak && n <= |xs|
    ensures IngestAll(k, calib, s, xs[..n]).wealth <= IngestAll(k, calib, s, xs).peak
    decreases |xs|
  {
    hide Ingest;
    if n == 0 {
      assert xs[..0] == [];
      PeakOnlyRises(k, calib, s, xs);
    } else {
      StepBelowPeak(k, calib, s, xs[0]);
      WealthStaysBelowPeak(k, calib, Ingest(k, calib, s, xs[0]), xs[1..], n - 1);
      assert xs[..n][0] == xs[0] && xs[..n][1..] == xs[1..][..n - 1];
    }
  }

  lemma {:induction false} StepBelowPeak(k: Kernel, calib: seq<real>, s: EState, x: real)
    requires Sorted(calib)
    ensures Ingest(k, calib, s, x).wealth <= Ingest(k, calib, s, x).peak && s.peak <= Ingest(k, calib, s, x).peak
  {
    hide EValue;
  }

  lemma {:induction false} PeakOnlyRises(k: Kernel, calib: seq<real>, s: EState, xs: seq<real>)
    requires Sorted(calib)
    ensures s.peak <= IngestAll(k, calib, s, xs).peak
    decreases |xs|
  {
    hide Ingest;
    if xs != [] {
      StepBelowPeak(k, calib, s, xs[0]);
      PeakOnlyRises(k, calib, Ingest(k, calib, s, xs[0]), xs[1..]);
    }
  }

  // ---- what wealth is -----------------------------------------------------

  /** The smoothed rank of a value in its calibration sample, the value itself included. */
  function RankP(calib: seq<real>, x: real, u: real): real {
    (CountGreater(calib, x) as real + u * (CountEqual(calib, x) + 1) as real) / (|calib| + 1) as real
  }

  /** What the n-th draw is taken from. */
  function Drawn(k: Kernel, rng: nat, n: nat): nat { if n == 0 then rng else k.advance(Drawn(k, rng, n - 1)) }

  /** The bet on a block statistic, its p-value kept between 1e-12 and 1. */
  function RankBet(k: Kernel, calib: seq<real>, x: real, u: real): real {
    var p := RankP(calib, x, u);
    k.bet(if p < 0.000000000001 then 0.000000000001 else if p > 1.0 then 1.0 else p)
  }

  /** The bet on block n of a stream. */
  function BetOn(k: Kernel, calib: seq<real>, xs: seq<real>, rng: nat, n: nat): real
    requires n < |xs|
  {
    RankBet(k, calib, xs[n], k.draw(Drawn(k, rng, n)))
  }

  /** A stake multiplied by the bets on the first n blocks. */
  function Staked(k: Kernel, calib: seq<real>, w: real, xs: seq<real>, rng: nat, n: nat): real
    requires n <= |xs|
  {
    if n == 0 then w else Times(Staked(k, calib, w, xs, rng, n - 1), BetOn(k, calib, xs, rng, n - 1))
  }

  lemma {:induction false} IngestSnoc(k: Kernel, calib: seq<real>, s: EState, xs: seq<real>, x: real)
    requires Sorted(calib)
    ensures IngestAll(k, calib, s, xs + [x]) == Ingest(k, calib, IngestAll(k, calib, s, xs), x)
    decreases |xs|
  {
    hide Ingest;
    if xs == [] {
      assert xs + [x] == [x] && [x][1..] == [];
    } else {
      assert (xs + [x])[0] == xs[0] && (xs + [x])[1..] == xs[1..] + [x];
      IngestSnoc(k, calib, Ingest(k, calib, s, xs[0]), xs[1..], x);
    }
  }

  lemma {:induction false} RankIsRaw(calib: seq<real>, x: real, u: real)
    requires Sorted(calib)
    ensures RawP(calib, x, u) == RankP(calib, x, u)
  {
    hide SearchLeft, SearchRight, CountGreater, CountEqual, Sorted;
    SearchCounts(calib, x);
    var tied := CountEqual(calib, x) + 1;
    assert SearchRight(calib, x) - SearchLeft(calib, x) + 1 == tied;
  }

  /** One block more: the next draw, the bet on the smoothed rank, the cap. */
  lemma {:induction false} NextBlock(k: Kernel, calib: seq<real>, s: EState, xs: seq<real>, n: nat)
    requires Sorted(calib) && n < |xs|
    ensures var t, next := IngestAll(k, calib, s, xs[..n]), IngestAll(k, calib, s, xs[..n + 1]);
            && (t.rng == Drawn(k, s.rng, n) ==> next.wealth == Min(Times(t.wealth, BetOn(k, calib, xs, s.rng, n)), k.cap))
            && next.peak == Max(t.peak, next.wealth) && next.rng == k.advance(t.rng)
  {
    assert xs[..n + 1] == xs[..n] + [xs[n]];
    IngestSnoc(k, calib, s, xs[..n], xs[n]);
    RankIsRaw(calib, xs[n], k.draw(IngestAll(k, calib, s, xs[..n]).rng));
    hide RawP, RankP, Times, IngestAll;
  }

  lemma {:induction false} DrawsInOrder(k: Kernel, calib: seq<real>, s: EState, xs: seq<real>, n: nat)
    requires Sorted(calib) && n <= |xs|
    ensures IngestAll(k, calib, s, xs[..n]).rng == Drawn(k, s.rng, n)
  {
    if n > 0 {
      DrawsInOrder(k, calib, s, xs, n - 1);
      NextBlock(k, calib, s, xs, n - 1);
      hide IngestAll;
    } else {
      assert xs[..0] == [];
    }
  }

  /** While the cap is not passed, wealth is the stake multiplied by the bets on all blocks so far. */
  lemma {:induction false} WealthIsProduct(k: Kernel, calib: seq<real>, s: EState, xs: seq<real>, n: nat)
    requires Sorted(calib) && n <= |xs|
    requires forall j :: 0 < j <= n ==> Staked(k, calib, s.wealth, xs, s.rng, j) <= k.cap
    ensures IngestAll(k, calib, s, xs[..n]).wealth == Staked(k, calib, s.wealth, xs, s.rng, n)
  {
    hide BetOn, Times;
    if n > 0 {
      WealthIsProduct(k, calib, s, xs, n - 1);
      DrawsInOrder(k, calib, s, xs, n - 1);
      NextBlock(k, calib, s, xs, n - 1);
      hide IngestAll;
    } else {
      assert xs[..0] == [];
    }
  }

  ghost predicate Reaches(k: Kernel, calib: seq<real>, w: real, xs: seq<real>, rng: nat, n: nat, level: real)
    requires n <= |xs|
  {
    exists j :: 0 < j <= n && Staked(k, calib, w, xs, rng, j) >= level
  }

  /** The peak reaches a level no higher than the cap exactly when the product of some first blocks does. */
  lemma {:induction false} PeakReaches(k: Kernel, calib: seq<real>, s: EState, xs: seq<real>, n: nat, level: real)
    requires Sorted(calib) && n <= |xs| && s.peak < level <= k.cap
    ensures IngestAll(k, calib, s, xs[..n]).peak >= level <==> Reaches(k, calib, s.wealth, xs, s.rng, n, level)
  {
    hide BetOn, Times;
    if n > 0 {
      PeakReaches(k, calib, s, xs, n - 1, level);
      DrawsInOrder(k, calib, s, xs, n - 1);
      NextBlock(k, calib, s, xs, n - 1);
      if !Reaches(k, calib, s.wealth, xs, s.rng, n - 1, level) {
        WealthIsProduct(k, calib, s, xs, n - 1);
      }
      hide IngestAll;
      assert Reaches(k, calib, s.wealth, xs, s.rng, n, level)
        <==> Reaches(k, calib, s.wealth, xs, s.rng, n - 1, level) || Staked(k, calib, s.wealth, xs, s.rng, n) >= level;
    } else {
      assert xs[..0] == [];
    }
  }

  /** The means of the whole blocks of a stream, position by position. */
  function BlockMeans(xs: seq<real>, b: nat): seq<real>
    requires b >= 1
  {
    seq(|xs| / b, i requires 0 <= i < |xs| / b => BlockMean(xs, b, i))
  }

  function BlockMean(xs: seq<real>, b: nat, i: nat): real
    requires b >= 1 && i < |xs| / b
  {
    BlockAt(xs, b, i);
    Sum(xs[i * b..i * b + b]) / b as real
  }

  lemma {:induction false} BlocksAreMeans(xs: seq<real>, b: nat)
    requires b >= 1
    ensures Blocks(xs, b) == BlockMeans(xs, b)
  {
    RestIsTail(xs, b);
    forall i | 0 <= i < |xs| / b
      ensures Blocks(xs, b)[i] == BlockMean(xs, b, i)
    {
      BlockAt(xs, b, i);
    }
  }

  /** Fed a stream, a process that was not latched is latched exactly when the stake multiplied by the bets on the
      first blocks of buffer and stream together reaches 1 / alpha at some block. */
  lemma {:induction false} LatchedExactly(k: Kernel, calib: seq<real>, b: nat, s: EState, vs: seq<real>, alpha: real)
    requires Sorted(calib) && b >= 1 && |s.buffer| < b && 0.0 < alpha && s.peak < 1.0 / alpha <= k.cap
    ensures var means := BlockMeans(s.buffer + vs, b);
            Feed(k, calib, b, s, vs).peak >= 1.0 / alpha <==> Reaches(k, calib, s.wealth, means, s.rng, |means|, 1.0 / alpha)
  {
    var means := BlockMeans(s.buffer + vs, b);
    FeedIsBatch(k, calib, b, s, vs);
    BlocksAreMeans(s.buffer + vs, b);
    assert means[..|means|] == means;
    PeakReaches(k, calib, s, means, |means|, 1.0 / alpha);
    hide IngestAll, Feed, Reaches, BlockMeans, Blocks;
  }

  // ---- the process ------------------------------------------------------

  /** The calibration sample an e-process keeps: finite values, averaged in blocks, sorted. */
  function PrepareCalibration(calibration: seq<Score>, alpha: real, b: nat): (r: Result<seq<real>, CalibError>)
    requires b >= 1
    ensures r.Ok? ==> Sorted(r.value) && |r.value| >= MIN_CALIB_BLOCKS && 0.0 < alpha < 1.0
  {
    var finite := FiniteOf(calibration);
    if !(0.0 < alpha < 1.0) then Err(BadAlpha)
    else if |finite| < MIN_CALIB_BLOCKS then Err(TooFewValues)
    else if b > 1 then
      if |Blocks(finite, b)| < MIN_CALIB_BLOCKS then Err(TooFewBlocks) else Ok(Sort(Blocks(finite, b)))
    else Ok(Sort(finite))
  }

  lemma {:induction false} SingleBlocks(xs: seq<real>)
    ensures Blocks(xs, 1) == xs
  {
    if xs != [] {
      SingleBlocks(xs[1..]);
      assert xs[..1] == [xs[0]] && Sum([xs[0]]) == xs[0];
    }
  }

  /** A sample is accepted exactly for a proper level and at least 30 whole blocks of finite values, whatever the
      block size; it is then the block means, sorted. A refusal says which of the two, or a want of values, it was. */
  lemma {:induction false} PreparedExactly(calibration: seq<Score>, alpha: real, b: nat)
    requires b >= 1
    ensures var r, finite := PrepareCalibration(calibration, alpha, b), FiniteOf(calibration);
            && (r.Ok? <==> 0.0 < alpha < 1.0 && |finite| / b >= MIN_CALIB_BLOCKS)
            && (r.Ok? ==> Sorted(r.value) && |r.value| == |finite| / b && multiset(r.value) == multiset(Blocks(finite, b)))
            && (r.Err? ==> (r.error == BadAlpha <==> !(0.0 < alpha < 1.0)))
            && (r.Err? && 0.0 < alpha < 1.0 ==> r.error == if |finite| < MIN_CALIB_BLOCKS then TooFewValues else TooFewBlocks)
  {
    var finite := FiniteOf(calibration);
    RestIsTail(finite, b);
    QuotientAtMost(|finite|, b);
    SingleBlocks(finite);
    hide Blocks, FiniteOf, Sort, Sorted, Rest;
    if b == 1 {
      assert |finite| / b == |finite|;
    }
  }

  lemma {:induction false} QuotientAtMost(n: nat, b: nat)
    requires b >= 1
    ensures n / b <= n
  {
    MulMono(1, b, n / b);
  }

  class EProcess {
    const kernel: Kernel
    const calibSorted: seq<real>
    const alpha: real
    const blockSize: nat
    var wealth: real
    var peak: real
    var nBlocks: nat
    var buffer: seq<real>
    var rng: nat

    ghost predicate Valid() {
      Sorted(calibSorted) && blockSize >= 1 && 0.0 < alpha < 1.0
    }

    constructor (k: Kernel, calib: seq<real>, a: real, b: nat, seed: nat)
      requires Sorted(calib) && b >= 1 && 0.0 < a < 1.0
      ensures Valid() && kernel == k && calibSorted == calib && alpha == a && blockSize == b
      ensures RuntimeState() == Fresh(k, seed)
    {
      kernel, calibSorted, alpha, blockSize := k, calib, a, b;
      wealth, peak, nBlocks, buffer, rng := 1.0, 1.0, 0, [], k.seeded(seed);
    }

    /** What is saved for a restart. */
    function RuntimeState(): EState
      reads this
    {
      EState(wealth, peak, nBlocks, buffer, rng)
    }

    method LoadRuntimeState(s: EState)
      modifies this
      ensures RuntimeState() == s
    {
      wealth, peak, nBlocks, buffer, rng := s.wealth, s.peak, s.blocks, s.buffer, s.rng;
    }

    predicate Alarmed()
      requires alpha > 0.0
      reads this
    {
      peak >= 1.0 / alpha
    }

    method IngestBlock(x: real)
      requires Valid()
      modifies this
      ensures RuntimeState() == Ingest(kernel, calibSorted, old(RuntimeState()), x)
      ensures wealth == Min(Times(old(wealth), RankBet(kernel, calibSorted, x, kernel.draw(old(rng)))), kernel.cap)
      ensures peak == Max(old(peak), wealth) && nBlocks == old(nBlocks) + 1
      ensures buffer == old(buffer) && rng == kernel.advance(old(rng))
    {
      RankIsRaw(calibSorted, x, kernel.draw(rng));
      var u := kernel.draw(rng);
      rng := kernel.advance(rng);
      var p := Clip(RawP(calibSorted, x, u));
      var e := kernel.bet(p);
      assert e == EValue(kernel, calibSorted, x, u);
      hide EValue, RawP, Times;
      wealth := Min(Times(wealth, e), kernel.cap);
      peak := Max(peak, wealth);
      nBlocks := nBlocks + 1;
    }

    method Update(scores: seq<Score>)
      requires Valid()
      modifies this
      ensures RuntimeState() == Feed(kernel, calibSorted, blockSize, old(RuntimeState()), FiniteOf(scores))
      ensures old(Alarmed()) ==> Alarmed()
      ensures !old(Alarmed()) && kernel.cap >= 1.0 / alpha && |old(buffer)| < blockSize ==>
                var means := BlockMeans(old(buffer) + FiniteOf(scores), blockSize);
                Alarmed() <==> Reaches(kernel, calibSorted, old(wealth), means, old(rng), |means|, 1.0 / alpha)
    {
      FeedLatches(kernel, calibSorted, blockSize, RuntimeState(), FiniteOf(scores));
      if !Alarmed() && kernel.cap >= 1.0 / alpha && |buffer| < blockSize {
        LatchedExactly(kernel, calibSorted, blockSize, RuntimeState(), FiniteOf(scores), alpha);
      }
      hide Reaches, BlockMeans;
      for i := 0 to |scores|
        invariant Feed(kernel, calibSorted, blockSize, RuntimeState(), FiniteOf(scores[i..]))
               == Feed(kernel, calibSorted, blockSize, old(RuntimeState()), FiniteOf(scores))
      {
        assert scores[i..][1..] == scores[i + 1..];
        if scores[i].NonFinite? {
          assert FiniteOf(scores[i..]) == FiniteOf(scores[i + 1..]);
          continue;
        }
        assert FiniteOf(scores[i..]) == [scores[i].v] + FiniteOf(scores[i + 1..]);
        assert FiniteOf(scores[i..])[1..] == FiniteOf(scores[i + 1..]);
        buffer := buffer + [scores[i].v];
        if |buffer| >= blockSize {
          var blockStat := Mean(buffer[..blockSize]);
          buffer := buffer[blockSize..];
          IngestBlock(blockStat);
        }
      }
    }
  }

  function Fresh(k: Kernel, seed: nat): EState {
    EState(1.0, 1.0, 0, [], k.seeded(seed))
  }
}
