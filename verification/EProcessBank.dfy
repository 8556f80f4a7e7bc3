/** The multi-timescale bank. */
module Banks {
  // Block sizes are derived from the calibration stream itself, one member per size; what is saved is keyed
  // by block size and restored only onto the same calibration reference.

  import opened Sequences
  import opened IntMath
  import opened RealMath
  import opened Sums
  import opened Calibration
  import opened EProcesses
  import opened Results
  import opened Samples

  // ---- autocorrelation and the derived block sizes -------------------------

  function Centered(xs: seq<real>): (r: seq<real>)
    ensures |r| == |xs|
  {
    seq(|xs|, i requires 0 <= i < |xs| => xs[i] - Mean(xs))
  }

  /** Lag autocorrelation; 0 when the series is too short or constant. */
  function AcfAt(xs: seq<real>, lag: nat): real {
    if lag < 1 || |xs| <= lag + 2 then 0.0
    else
      var c := Centered(xs);
      var denom := Dot(c, c);
      if denom <= 0.0 then 0.0 else Dot(c[..|c| - lag], c[lag..]) / denom
  }

  /** How far a value lies from the mean. */
  function Deviation(xs: seq<real>, i: int): real {
    if 0 <= i < |xs| then xs[i] - Sum(xs) / |xs| as real else 0.0
  }

  function LagTerm(xs: seq<real>, lag: nat): int -> real {
    i => Times(Deviation(xs, i), Deviation(xs, i + lag))
  }

  /** The products of deviations a lag apart, added up. */
  function LagProducts(xs: seq<real>, lag: nat): real {
    Sigma(0, |xs| - lag, LagTerm(xs, lag))
  }

  lemma {:induction false} LagProductsAreDot(xs: seq<real>, lag: nat)
    requires lag <= |xs|
    ensures Dot(Centered(xs)[..|xs| - lag], Centered(xs)[lag..]) == LagProducts(xs, lag)
  {
    hide Times, Centered, Deviation;
    var x, w, f := Centered(xs)[..|xs| - lag], Centered(xs)[lag..], LagTerm(xs, lag);
    forall i | 0 <= i < |x|
      ensures f(0 + i) == Times(x[i], w[i])
    {
      DeviationIsCentered(xs, i);
      DeviationIsCentered(xs, i + lag);
    }
    DotIsSigma(x, w, 0, f);
  }

  lemma {:induction false} DeviationIsCentered(xs: seq<real>, i: nat)
    requires i < |xs|
    ensures Centered(xs)[i] == Deviation(xs, i)
  {
    hide Sum;
    assert Centered(xs)[i] == xs[i] - Mean(xs);
    assert Mean(xs) == Sum(xs) / |xs| as real;
    assert Deviation(xs, i) == xs[i] - Sum(xs) / |xs| as real;
  }

  /** The correlation is the ratio of the lag products to the squared deviations. */
  lemma {:induction false} AcfIsRatio(xs: seq<real>, lag: nat)
    ensures AcfAt(xs, lag) == if 1 <= lag && lag + 2 < |xs| && LagProducts(xs, 0) > 0.0
                              then LagProducts(xs, lag) / LagProducts(xs, 0)
                              else 0.0
  {
    if 1 <= lag && lag + 2 < |xs| {
      hide LagProducts, Dot;
      LagProductsAreDot(xs, 0);
      LagProductsAreDot(xs, lag);
      var c := Centered(xs);
      assert c[..|xs| - 0] == c && c[0..] == c;
    }
  }

  predicate Decorrelated(xs: seq<real>, lag: nat) {
    Abs(AcfAt(xs, lag)) < ACF_DECORR_THRESHOLD
  }

  function LagCap(n: nat, maxLag: nat): nat {
    if maxLag != 0 then maxLag else n / (2 * MIN_CALIB_BLOCKS)
  }

  /** The lag returned: 1 on a short series; else the smallest decorrelated lag below the cap; else the cap. */
  ghost predicate IsDecorrelationLength(xs: seq<real>, maxLag: nat, r: nat) {
    if |xs| < 60 then r == 1
    else
      var cap := LagCap(|xs|, maxLag);
      var bound := if cap >= 2 then cap else 2;
      (forall l :: 1 <= l < r && l < bound ==> !Decorrelated(xs, l))
      && ((1 <= r < bound && Decorrelated(xs, r))
          || (!(exists l :: 1 <= l < bound && Decorrelated(xs, l)) && r == if cap >= 1 then cap else 1))
  }

  /** With the default cap of n / 60 lags: the first lag whose correlation is below 0.1, or the cap. */
  lemma {:induction false} FirstQuietLag(xs: seq<real>, r: nat)
    ensures IsDecorrelationLength(xs, 0, r) <==>
              if |xs| < 60 then r == 1
              else && 1 <= r <= |xs| / 60
                   && (forall l: nat :: 1 <= l < r ==> Abs(AcfAt(xs, l)) >= 0.1)
                   && (Abs(AcfAt(xs, r)) < 0.1 || r == |xs| / 60)
  {
    hide AcfAt;
    if |xs| >= 60 {
      assert |xs| / 60 >= 1;
      forall l: nat
        ensures Decorrelated(xs, l) <==> Abs(AcfAt(xs, l)) < 0.1
      {
      }
    }
  }

  lemma {:induction false} OneDecorrelationLength(xs: seq<real>, r: nat, s: nat)
    requires IsDecorrelationLength(xs, 0, r) && IsDecorrelationLength(xs, 0, s)
    ensures r == s
  {
    hide IsDecorrelationLength, AcfAt;
    FirstQuietLag(xs, r);
    FirstQuietLag(xs, s);
  }

  method DecorrelationLength(xs: seq<real>, maxLag: nat) returns (r: nat)
    ensures IsDecorrelationLength(xs, maxLag, r)
    ensures r >= 1
  {
    if |xs| < 60 {
      return 1;
    }
    var cap := LagCap(|xs|, maxLag);
    var bound := if cap >= 2 then cap else 2;
    for lag := 1 to bound
      invariant forall l :: 1 <= l < lag ==> !Decorrelated(xs, l)
    {
      if Decorrelated(xs, lag) {
        return lag;
      }
    }
    return if cap >= 1 then cap else 1;
  }

  /** Geometric sizes the calibration supports with at least 30 blocks, or the base alone. */
  function DeriveSizes(n: nat, base: nat): (sizes: seq<nat>)
    requires base >= 1
    ensures sizes != [] && forall i :: 0 <= i < |sizes| ==> sizes[i] >= 1
    ensures Distinct(sizes)
    ensures n / base >= MIN_CALIB_BLOCKS ==> forall i :: 0 <= i < |sizes| ==> n / sizes[i] >= MIN_CALIB_BLOCKS
  {
    var a := if n / base >= MIN_CALIB_BLOCKS then [base] else [];
    var b := if n / (4 * base) >= MIN_CALIB_BLOCKS then [4 * base] else [];
    var c := if n / (16 * base) >= MIN_CALIB_BLOCKS then [16 * base] else [];
    if a + b + c == [] then [base] else a + b + c
  }

  /** Of the base, 4 bases and 16 bases, those that leave 30 blocks, smallest first. */
  lemma {:induction false} SupportedSizes(n: nat, base: nat, size: nat)
    requires base >= 1 && size >= 1
    ensures n / base >= 30 ==> (size in DeriveSizes(n, base) <==> size in {base, 4 * base, 16 * base} && n / size >= 30)
    ensures n / base < 30 ==> DeriveSizes(n, base) == [base]
    ensures forall i, j :: 0 <= i < j < |DeriveSizes(n, base)| ==> DeriveSizes(n, base)[i] < DeriveSizes(n, base)[j]
  {
    if n / base < 30 {
      FewerBlocks(n, base, 4 * base);
      FewerBlocks(n, base, 16 * base);
    }
  }

  lemma {:induction false} FewerBlocks(n: nat, b: nat, c: nat)
    requires 1 <= b <= c
    ensures n / c <= n / b
  {
    MulMono(b, c, n / c);
    assert n / c * c <= n;
    DivAtLeast(n, b, n / c);
  }

  /** The capped lag search never leaves a calibration of 30 values with fewer than 30 blocks. */
  lemma {:induction false} DerivedBaseIsSupported(xs: seq<real>, r: nat)
    requires |xs| >= MIN_CALIB_BLOCKS && IsDecorrelationLength(xs, 0, r)
    ensures r >= 1 && |xs| / r >= MIN_CALIB_BLOCKS
  {
    var n := |xs|;
    if n >= 60 {
      var cap := n / 60;
      assert cap >= 1;
      assert 1 <= r <= cap;
      assert cap * 60 <= n;
      MulMono(r, cap, 60);
      DivAtLeast(n, r, 60);
    }
  }

  /** The audit refuses when the lag cap bound first and the residual correlation is at least
      0.2 + 2/sqrt(n); the root is squared away. */
  predicate Refused(xs: seq<real>, base: nat) {
    var n := |xs|;
    var cap := if n / (2 * MIN_CALIB_BLOCKS) >= 1 then n / (2 * MIN_CALIB_BLOCKS) else 1;
    var over := Abs(AcfAt(xs, base)) - ACF_REFUSAL_FLOOR;
    base >= cap && over > 0.0 && over * over * (if n >= 1 then n else 1) as real >= 4.0
  }

  /** Against any square root of the number of values: refused at the lag cap from a correlation of
      0.2 + 2 / root on. */
  lemma {:induction false} RefusedByRoot(xs: seq<real>, base: nat, root: real)
    requires xs != [] && root > 0.0 && root * root == |xs| as real
    ensures Refused(xs, base) <==>
              base >= 1 && base >= |xs| / 60 && Abs(AcfAt(xs, base)) >= 0.2 + 2.0 / root
  {
    var over := Abs(AcfAt(xs, base)) - 0.2;
    hide AcfAt;
    RootOrder(over, root);
    assert over * over * |xs| as real == (over * root) * (over * root);
  }

  lemma {:induction false} RootOrder(over: real, root: real)
    requires root > 0.0
    ensures over > 0.0 && (over * root) * (over * root) >= 4.0 <==> over >= 2.0 / root
  {
    var t := over * root;
    DivBound(2.0, over, root);
    if t >= 2.0 {
      SquareOrder(2.0, t);
    } else if over > 0.0 {
      SquareOrder(t, 2.0);
    }
  }

  lemma {:induction false} SquareOrder(a: real, b: real)
    requires 0.0 < a <= b
    ensures a * a <= b * b && (a < b ==> a * a < b * b)
  {
  }

  /** The lag the stream decorrelates at, or the cap, is one the audit refuses. */
  ghost predicate RefusedAtBase(xs: seq<real>) {
    exists base: nat :: IsDecorrelationLength(xs, 0, base) && Refused(xs, base)
  }

  // ---- saving and restoring the members --------------------------------------

  /** The saved dictionary: one entry per block size, a later member overwriting an earlier one. */
  function SaveMembers(sizes: seq<nat>, states: seq<EState>): map<nat, EState>
    requires |sizes| == |states|
  {
    if sizes == [] then map[]
    else
      var n := |sizes| - 1;
      SaveMembers(sizes[..n], states[..n])[sizes[n] := states[n]]
  }

  function LoadMember(size: nat, current: EState, saved: map<nat, EState>): EState {
    if size in saved then saved[size] else current
  }

  function LoadMembers(sizes: seq<nat>, current: seq<EState>, saved: map<nat, EState>): seq<EState>
    requires |sizes| == |current|
  {
    seq(|sizes|, i requires 0 <= i < |sizes| => LoadMember(sizes[i], current[i], saved))
  }

  ghost predicate AgreeOnSize(sizes: seq<nat>, states: seq<EState>)
    requires |sizes| == |states|
  {
    forall i, j :: 0 <= i < j < |sizes| && sizes[i] == sizes[j] ==> states[i] == states[j]
  }

  lemma {:induction false} SavedIsLast(sizes: seq<nat>, states: seq<EState>, i: nat)
    requires |sizes| == |states| && i < |sizes|
    ensures sizes[i] in SaveMembers(sizes, states)
    ensures exists j :: i <= j < |sizes| && sizes[j] == sizes[i] && SaveMembers(sizes, states)[sizes[i]] == states[j]
    decreases |sizes|
  {
    var n := |sizes| - 1;
    if sizes[n] == sizes[i] {
      assert SaveMembers(sizes, states)[sizes[i]] == states[n];
    } else {
      SavedIsLast(sizes[..n], states[..n], i);
      var j :| i <= j < n && sizes[..n][j] == sizes[..n][i]
               && SaveMembers(sizes[..n], states[..n])[sizes[i]] == states[..n][j];
      assert sizes[j] == sizes[i] && SaveMembers(sizes, states)[sizes[i]] == states[j];
    }
  }

  /** Restoring what was saved gives every member its state back exactly when members that share a
      block size were in the same state: the dictionary keeps one state per size. */
  lemma {:induction false} SaveLoadExact(sizes: seq<nat>, states: seq<EState>, current: seq<EState>)
    requires |sizes| == |states| == |current|
    ensures LoadMembers(sizes, current, SaveMembers(sizes, states)) == states <==> AgreeOnSize(sizes, states)
  {
    var saved := SaveMembers(sizes, states);
    var loaded := LoadMembers(sizes, current, saved);
    forall i, j | 0 <= i < j < |sizes| && sizes[i] == sizes[j]
      ensures loaded[i] == loaded[j]
    {
      SavedIsLast(sizes, states, i);
    }
    if AgreeOnSize(sizes, states) {
      forall i | 0 <= i < |sizes|
        ensures loaded[i] == states[i]
      {
        SavedIsLast(sizes, states, i);
        var j :| i <= j < |sizes| && sizes[j] == sizes[i] && saved[sizes[i]] == states[j];
        assert states[i] == states[j];
      }
      assert loaded == states;
    }
  }

  // ---- runs ----------------------------------------------------------------

  /** Every member of the bank consumes the same stream. */
  function BankFeed(k: Kernel, calibs: seq<seq<real>>, sizes: seq<nat>, states: seq<EState>, vs: seq<real>): (r: seq<EState>)
    requires |calibs| == |sizes| == |states|
    requires forall i :: 0 <= i < |sizes| ==> sizes[i] >= 1 && Sorted(calibs[i])
    ensures |r| == |sizes|
  {
    seq(|sizes|, i requires 0 <= i < |sizes| => Feed(k, calibs[i], sizes[i], states[i], vs))
  }

  function FreshStates(k: Kernel, n: nat, seed: nat): (r: seq<EState>)
    ensures |r| == n
  {
    seq(n, i requires 0 <= i < n => Fresh(k, seed + i))
  }

  /** Run xs, save, restart into a freshly built bank, restore, run ys. */
  function Resumed(k: Kernel, calibs: seq<seq<real>>, sizes: seq<nat>, seed: nat, xs: seq<real>, ys: seq<real>): seq<EState>
    requires |calibs| == |sizes|
    requires forall i :: 0 <= i < |sizes| ==> sizes[i] >= 1 && Sorted(calibs[i])
  {
    var start := FreshStates(k, |sizes|, seed);
    var saved := SaveMembers(sizes, BankFeed(k, calibs, sizes, start, xs));
    BankFeed(k, calibs, sizes, LoadMembers(sizes, start, saved), ys)
  }

  lemma {:induction false} ResumedIsUninterrupted(k: Kernel, calibs: seq<seq<real>>, sizes: seq<nat>, seed: nat, xs: seq<real>, ys: seq<real>)
    requires |calibs| == |sizes|
    requires forall i :: 0 <= i < |sizes| ==> sizes[i] >= 1 && Sorted(calibs[i])
    requires Distinct(sizes)
    ensures Resumed(k, calibs, sizes, seed, xs, ys)
         == BankFeed(k, calibs, sizes, FreshStates(k, |sizes|, seed), xs + ys)
  {
    var start := FreshStates(k, |sizes|, seed);
    var mid := BankFeed(k, calibs, sizes, start, xs);
    SaveLoadExact(sizes, mid, start);
    assert LoadMembers(sizes, start, SaveMembers(sizes, mid)) == mid;
    var whole := BankFeed(k, calibs, sizes, start, xs + ys);
    var parts := BankFeed(k, calibs, sizes, mid, ys);
    forall i | 0 <= i < |sizes|
      ensures whole[i] == parts[i]
    {
      FeedConcat(k, calibs[i], sizes[i], start[i], xs, ys);
    }
    assert whole == parts;
  }

  /** Restart continuity, exactly: for a generator whose seeds give different states, saving and
      restoring at every split point of every stream equals never stopping if and only if the
      member block sizes are distinct. */
  lemma {:induction false} RestartContinuity(k: Kernel, calibs: seq<seq<real>>, sizes: seq<nat>, seed: nat)
    requires |calibs| == |sizes|
    requires forall i :: 0 <= i < |sizes| ==> sizes[i] >= 1 && Sorted(calibs[i])
    requires forall a, b :: a != b ==> k.seeded(a) != k.seeded(b)
    ensures Distinct(sizes) <==>
            forall xs, ys :: Resumed(k, calibs, sizes, seed, xs, ys)
                          == BankFeed(k, calibs, sizes, FreshStates(k, |sizes|, seed), xs + ys)
  {
    if Distinct(sizes) {
      forall xs, ys
        ensures Resumed(k, calibs, sizes, seed, xs, ys)
             == BankFeed(k, calibs, sizes, FreshStates(k, |sizes|, seed), xs + ys)
      {
        ResumedIsUninterrupted(k, calibs, sizes, seed, xs, ys);
      }
    } else {
      var start := FreshStates(k, |sizes|, seed);
      var i, j :| 0 <= i < j < |sizes| && sizes[i] == sizes[j];
      assert k.seeded(seed + i) != k.seeded(seed + j);
      assert start[i] == Fresh(k, seed + i) && start[j] == Fresh(k, seed + j);
      var none: seq<real> := [];
      FeedNothing(k, calibs, sizes, start);
      SaveLoadExact(sizes, start, start);
      var loaded := LoadMembers(sizes, start, SaveMembers(sizes, start));
      FeedNothing(k, calibs, sizes, loaded);
      assert none + none == none;
      assert Resumed(k, calibs, sizes, seed, none, none) == loaded != start;
    }
  }

  lemma {:induction false} FeedNothing(k: Kernel, calibs: seq<seq<real>>, sizes: seq<nat>, states: seq<EState>)
    requires |calibs| == |sizes| == |states|
    requires forall i :: 0 <= i < |sizes| ==> sizes[i] >= 1 && Sorted(calibs[i])
    ensures BankFeed(k, calibs, sizes, states, []) == states
  {
    assert BankFeed(k, calibs, sizes, states, []) == states;
  }

  // ---- the bank --------------------------------------------------------------

  /** The reference a bank's wealth is accumulated against. */
  datatype Signature = Signature(calibration: seq<real>, blockSizes: seq<nat>)

  datatype BankSnapshot = BankSnapshot(signature: Signature, members: map<nat, EState>)

  // ---- the evidence of a bank ------------------------------------------------

  /** What is used of a logarithm: it rises, from 0 at 1. */
  ghost predicate IsLog(log: real -> real) {
    log(1.0) == 0.0 && forall x, y :: 0.0 < x < y ==> log(x) < log(y)
  }

  /** A member's peak on the scale on which its threshold is 1; wealth below the start is no evidence. */
  function MemberEvidence(log: real -> real, peak: real, alpha: real): real
    requires IsLog(log) && 0.0 < alpha < 1.0
  {
    ThresholdAboveOne(log, alpha);
    if peak <= 1.0 then 0.0 else log(peak) / log(1.0 / alpha)
  }

  lemma {:induction false} ThresholdAboveOne(log: real -> real, alpha: real)
    requires IsLog(log) && 0.0 < alpha < 1.0
    ensures 1.0 / alpha > 1.0 && log(1.0 / alpha) > 0.0
  {
    DivBound(1.0, 1.0, alpha);
  }

  /** Evidence reaches 1 exactly when the peak has reached the threshold. */
  lemma {:induction false} EvidenceAtThreshold(log: real -> real, peak: real, alpha: real)
    requires IsLog(log) && 0.0 < alpha < 1.0
    ensures MemberEvidence(log, peak, alpha) >= 0.0
    ensures MemberEvidence(log, peak, alpha) >= 1.0 <==> peak >= 1.0 / alpha
  {
    var t := 1.0 / alpha;
    ThresholdAboveOne(log, alpha);
    if peak > 1.0 {
      DivBound(log(peak), 1.0, log(t));
      DivBound(log(peak), 0.0, log(t));
      assert peak < t ==> log(peak) < log(t);
      assert t < peak ==> log(t) < log(peak);
      assert log(peak) > log(1.0);
    }
  }

  /** On the log scale the peak has covered a share t of the way from 1 to the threshold. */
  predicate HasCovered(log: real -> real, peak: real, alpha: real, t: real)
    requires alpha > 0.0
  {
    peak > 1.0 && log(peak) >= t * log(1.0 / alpha)
  }

  lemma {:induction false} EvidenceIsShare(log: real -> real, peak: real, alpha: real, t: real)
    requires IsLog(log) && 0.0 < alpha < 1.0 && t > 0.0
    ensures MemberEvidence(log, peak, alpha) >= t <==> HasCovered(log, peak, alpha, t)
  {
    ThresholdAboveOne(log, alpha);
    if peak > 1.0 {
      DivBound(log(peak), t, log(1.0 / alpha));
    }
  }

  class EProcessBank {
    const kernel: Kernel
    const calibrationScores: seq<real>
    const blockSizes: seq<nat>
    const members: seq<EProcess>

    ghost predicate Valid() {
      && |members| == |blockSizes|
      && (forall i :: 0 <= i < |members| ==>
            members[i].Valid() && members[i].blockSize == blockSizes[i] && members[i].kernel == kernel)
      && (forall i, j :: 0 <= i < j < |members| ==> members[i] != members[j])
    }

    constructor (k: Kernel, calibration: seq<real>, sizes: seq<nat>, ms: seq<EProcess>)
      ensures kernel == k && calibrationScores == calibration && blockSizes == sizes && members == ms
    {
      kernel, calibrationScores, blockSizes, members := k, calibration, sizes, ms;
    }

    ghost function Calibs(): (r: seq<seq<real>>)
      ensures |r| == |members|
    {
      seq(|members|, i requires 0 <= i < |members| => members[i].calibSorted)
    }

    function States(): (r: seq<EState>)
      reads members
      ensures |r| == |members|
    {
      seq(|members|, i requires 0 <= i < |members| reads members => members[i].RuntimeState())
    }

    method Update(scores: seq<Score>) returns (alarmed: bool)
      requires Valid()
      modifies members
      ensures States() == BankFeed(kernel, Calibs(), blockSizes, old(States()), FiniteOf(scores))
      ensures alarmed <==> exists i :: 0 <= i < |members| && members[i].Alarmed()
    {
      ghost var before := States();
      for i := 0 to |members|
        invariant forall j :: 0 <= j < i ==>
          members[j].RuntimeState() == Feed(kernel, Calibs()[j], blockSizes[j], before[j], FiniteOf(scores))
        invariant forall j :: i <= j < |members| ==> members[j].RuntimeState() == before[j]
      {
        members[i].Update(scores);
      }
      alarmed := exists i :: 0 <= i < |members| && members[i].Alarmed();
    }

    /** The greatest evidence of the first n members. */
    function EvidenceOf(log: real -> real, n: nat): real
      requires Valid() && IsLog(log) && n <= |members|
      reads members
    {
      if n == 0 then 0.0
      else Max(EvidenceOf(log, n - 1), MemberEvidence(log, members[n - 1].peak, members[n - 1].alpha))
    }

    /** A bank's evidence is never negative, and reaches 1 exactly when a member is latched. */
    lemma {:induction false} EvidenceIsConsistent(log: real -> real, n: nat)
      requires Valid() && IsLog(log) && n <= |members|
      ensures EvidenceOf(log, n) >= 0.0
      ensures EvidenceOf(log, n) >= 1.0 <==> exists i :: 0 <= i < n && members[i].Alarmed()
    {
      if n > 0 {
        EvidenceIsConsistent(log, n - 1);
        EvidenceAtThreshold(log, members[n - 1].peak, members[n - 1].alpha);
        hide MemberEvidence;
      }
    }

    /** Some member of the first n has covered a share t of the way to its threshold 1 / alpha. */
    ghost predicate Covered(log: real -> real, n: nat, t: real)
      requires Valid() && n <= |members|
      reads members
    {
      exists i :: 0 <= i < n && HasCovered(log, members[i].peak, members[i].alpha, t)
    }

    lemma {:induction false} OneMoreCovered(log: real -> real, n: nat, t: real)
      requires Valid() && 0 < n <= |members|
      ensures Covered(log, n, t) <==> Covered(log, n - 1, t) || HasCovered(log, members[n - 1].peak, members[n - 1].alpha, t)
    {
      hide HasCovered;
    }

    /** A bank's evidence is the share its best member has covered. */
    lemma {:induction false} EvidenceIsBestShare(log: real -> real, n: nat, t: real)
      requires Valid() && IsLog(log) && n <= |members| && t > 0.0
      ensures EvidenceOf(log, n) >= t <==> Covered(log, n, t)
    {
      if n > 0 {
        EvidenceIsBestShare(log, n - 1, t);
        EvidenceIsShare(log, members[n - 1].peak, members[n - 1].alpha, t);
        OneMoreCovered(log, n, t);
        hide MemberEvidence, HasCovered, IsLog, Covered;
      }
    }

    function RuntimeState(): BankSnapshot
      requires |members| == |blockSizes|
      reads members
    {
      BankSnapshot(Signature(calibrationScores, blockSizes), SaveMembers(blockSizes, States()))
    }

    /** Overlays saved wealth, only onto the reference it was accumulated against. */
    method LoadRuntimeState(d: BankSnapshot) returns (applied: bool)
      requires Valid()
      modifies members
      ensures applied <==> d.signature == Signature(calibrationScores, blockSizes)
      ensures States() == if applied then LoadMembers(blockSizes, old(States()), d.members) else old(States())
    {
      if d.signature != Signature(calibrationScores, blockSizes) {
        return false;
      }
      ghost var before := States();
      for i := 0 to |members|
        invariant forall j :: 0 <= j < i ==>
          members[j].RuntimeState() == LoadMember(blockSizes[j], before[j], d.members)
        invariant forall j :: i <= j < |members| ==> members[j].RuntimeState() == before[j]
      {
        if blockSizes[i] in d.members {
          members[i].LoadRuntimeState(d.members[blockSizes[i]]);
        }
      }
      return true;
    }
  }

  /** Members 0..n-1 are freshly seeded processes with the given sizes, each funded with memberAlpha. */
  ghost predicate Armed(members: seq<EProcess>, k: Kernel, calib: seq<real>, sizes: seq<nat>, memberAlpha: real, seed: nat)
    requires |members| <= |sizes|
    reads members
  {
    && (forall i :: 0 <= i < |members| ==> ArmedMember(members[i], k, calib, sizes[i], memberAlpha, seed + i))
    && (forall i, j :: 0 <= i < j < |members| ==> members[i] != members[j])
  }

  ghost predicate ArmedMember(m: EProcess, k: Kernel, calib: seq<real>, size: nat, memberAlpha: real, seed: nat)
    reads m
  {
    && m.Valid() && m.blockSize == size >= 1 && m.kernel == k && m.alpha == memberAlpha
    && PrepareCalibration(Scores(calib), memberAlpha, size) == Ok(m.calibSorted)
    && m.RuntimeState() == Fresh(k, seed)
  }

  method CreateMembers(k: Kernel, calib: seq<real>, memberAlpha: real, sizes: seq<nat>, seed: nat)
    returns (r: Result<seq<EProcess>, CalibError>)
    requires forall i :: 0 <= i < |sizes| ==> sizes[i] >= 1
    ensures r.Ok? ==> |r.value| == |sizes| && fresh(r.value) && Armed(r.value, k, calib, sizes, memberAlpha, seed)
    ensures r.Ok? <==> forall i :: 0 <= i < |sizes| ==> PrepareCalibration(Scores(calib), memberAlpha, sizes[i]).Ok?
    ensures r.Err? ==> exists i :: 0 <= i < |sizes| && PrepareCalibration(Scores(calib), memberAlpha, sizes[i]) == Err(r.error)
  {
    hide PrepareCalibration, Fresh;
    var members: seq<EProcess> := [];
    for i := 0 to |sizes|
      invariant |members| == i && fresh(members)
      invariant Armed(members, k, calib, sizes, memberAlpha, seed)
      invariant forall j :: 0 <= j < i ==> PrepareCalibration(Scores(calib), memberAlpha, sizes[j]).Ok?
    {
      var prepared := PrepareCalibration(Scores(calib), memberAlpha, sizes[i]);
      if prepared.Err? {
        return Err(prepared.error);
      }
      var m := new EProcess(k, prepared.value, memberAlpha, sizes[i], seed + i);
      members := members + [m];
    }
    return Ok(members);
  }

  /** Sizes derived from a base at which the calibration decorrelates, or at the cap, and which the audit passed. */
  ghost predicate DerivedBy(calib: seq<real>, base: nat, audit: bool, sizes: seq<nat>) {
    && base >= 1 && IsDecorrelationLength(calib, 0, base)
    && !(audit && Refused(calib, base))
    && sizes == DeriveSizes(|calib|, base)
  }

  method DerivedSizes(calib: seq<real>, alpha: real, audit: bool) returns (r: Result<seq<nat>, CalibError>)
    ensures r.Ok? ==> r.value != [] && Distinct(r.value) && forall i :: 0 <= i < |r.value| ==> r.value[i] >= 1
    ensures r.Ok? ==> exists base: nat :: DerivedBy(calib, base, audit, r.value)
    ensures r.Err? <==> audit && RefusedAtBase(calib)
    ensures r.Err? ==> r.error == TooAutocorrelated
    ensures r.Ok? && |calib| >= MIN_CALIB_BLOCKS && 0.0 < alpha < 1.0 ==>
              forall i :: 0 <= i < |r.value| ==> PrepareCalibration(Scores(calib), alpha / |r.value| as real, r.value[i]).Ok?
  {
    hide IsDecorrelationLength, Refused, PrepareCalibration;
    var base := DecorrelationLength(calib, 0);
    forall other: nat | IsDecorrelationLength(calib, 0, other)
      ensures other == base
    {
      OneDecorrelationLength(calib, base, other);
    }
    if audit && Refused(calib, base) {
      return Err(TooAutocorrelated);
    }
    var sizes := DeriveSizes(|calib|, base);
    assert DerivedBy(calib, base, audit, sizes);
    if |calib| >= MIN_CALIB_BLOCKS {
      DerivedBaseIsSupported(calib, base);
      DerivedSizesArm(calib, alpha, sizes);
    }
    return Ok(sizes);
  }

  /** Builds a bank: derived or given block sizes, each member funded with alpha / members. A bank with derived
      sizes is refused exactly by the audit or for want of 30 values; one with given sizes exactly when some member refuses its calibration. */
  method CreateBank(k: Kernel, calibration: seq<Score>, alpha: real, given: Option<seq<nat>>, seed: nat, audit: bool)
    returns (r: Result<EProcessBank, CalibError>)
    requires given.Some? ==> given.value != [] && forall i :: 0 <= i < |given.value| ==> given.value[i] >= 1
    ensures r.Ok? ==> fresh(r.value) && fresh(r.value.members) && r.value.Valid() && r.value.blockSizes != []
    ensures r.Ok? ==> r.value.calibrationScores == FiniteOf(calibration)
    ensures r.Ok? ==> |r.value.members| == |r.value.blockSizes|
    ensures r.Ok? ==> Armed(r.value.members, k, FiniteOf(calibration), r.value.blockSizes, alpha / |r.value.blockSizes| as real, seed)
    ensures r.Ok? && given.Some? ==> r.value.blockSizes == given.value
    ensures r.Ok? && given.None? ==>
              Distinct(r.value.blockSizes) && exists base: nat :: DerivedBy(FiniteOf(calibration), base, audit, r.value.blockSizes)
    ensures given.None? && 0.0 < alpha < 1.0 ==>
              (r.Err? <==> |FiniteOf(calibration)| < 30 || (audit && RefusedAtBase(FiniteOf(calibration))))
    ensures given.None? && audit && RefusedAtBase(FiniteOf(calibration)) ==> r == Err(TooAutocorrelated)
    ensures given.Some? ==>
              (r.Ok? <==> forall i :: 0 <= i < |given.value| ==>
                 PrepareCalibration(Scores(FiniteOf(calibration)), alpha / |given.value| as real, given.value[i]).Ok?)
    ensures r.Ok? ==> |FiniteOf(calibration)| >= MIN_CALIB_BLOCKS
  {
    hide DerivedBy, Distinct, IsDecorrelationLength, Refused, RefusedAtBase, DeriveSizes, Armed, PrepareCalibration, FiniteOf;
    var calib := FiniteOf(calibration);
    var sizes: seq<nat>;
    if given.None? {
      var derived := DerivedSizes(calib, alpha, audit);
      if derived.Err? {
        return Err(derived.error);
      }
      sizes := derived.value;
    } else {
      sizes := given.value;
    }
    var built := CreateMembers(k, calib, alpha / |sizes| as real, sizes, seed);
    if built.Err? {
      return Err(built.error);
    }
    ArmedMeansEnough(calib, alpha / |sizes| as real, sizes[0]);
    ArmedFacts(built.value, k, calib, sizes, alpha / |sizes| as real, seed);
    var bank := new EProcessBank(k, calib, sizes, built.value);
    return Ok(bank);
  }

  lemma {:induction false} ArmedFacts(members: seq<EProcess>, k: Kernel, calib: seq<real>, sizes: seq<nat>, memberAlpha: real, seed: nat)
    requires |members| == |sizes| && Armed(members, k, calib, sizes, memberAlpha, seed)
    ensures forall i :: 0 <= i < |members| ==>
              members[i].Valid() && members[i].blockSize == sizes[i] && members[i].kernel == k
    ensures forall i, j :: 0 <= i < j < |members| ==> members[i] != members[j]
  {
  }

  lemma {:induction false} ArmedMeansEnough(calib: seq<real>, memberAlpha: real, size: nat)
    requires size >= 1 && PrepareCalibration(Scores(calib), memberAlpha, size).Ok?
    ensures |calib| >= MIN_CALIB_BLOCKS
  {
    FinitesAreFinite(calib);
  }

  lemma {:induction false} DerivedSizesArm(calib: seq<real>, alpha: real, sizes: seq<nat>)
    requires |calib| >= MIN_CALIB_BLOCKS && sizes != []
    requires forall i :: 0 <= i < |sizes| ==> sizes[i] >= 1 && |calib| / sizes[i] >= MIN_CALIB_BLOCKS
    ensures 0.0 < alpha < 1.0 ==> forall i :: 0 <= i < |sizes| ==>
              PrepareCalibration(Scores(calib), alpha / |sizes| as real, sizes[i]).Ok?
  {
    if 0.0 < alpha < 1.0 {
      ShareIsProbability(alpha, |sizes|);
      FinitesAreFinite(calib);
      forall i | 0 <= i < |sizes|
        ensures PrepareCalibration(Scores(calib), alpha / |sizes| as real, sizes[i]).Ok?
      {
        RestIsTail(calib, sizes[i]);
      }
    }
  }

  function Scores(xs: seq<real>): seq<Score> {
    if xs == [] then [] else [Finite(xs[0])] + Scores(xs[1..])
  }

  lemma {:induction false} FinitesAreFinite(xs: seq<real>)
    ensures FiniteOf(Scores(xs)) == xs
  {
    if xs != [] {
      FinitesAreFinite(xs[1..]);
    }
  }

  lemma {:induction false} ShareIsProbability(alpha: real, n: nat)
    requires n >= 1
    ensures 0.0 < alpha < 1.0 ==> 0.0 < alpha / n as real < 1.0
  {
    if 0.0 < alpha < 1.0 {
      QuotientBounds(alpha, n as real);
    }
  }

  lemma {:induction false} QuotientBounds(a: real, m: real)
    requires m >= 1.0 && 0.0 < a < 1.0
    ensures 0.0 < a / m < 1.0
  {
    assert a / m <= a / 1.0;
  }
}
