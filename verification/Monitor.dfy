/** One asset's alarm budget. */
module Monitors {
  // How the yearly false-alarm budget is divided over the banks of an asset and their members, and how one
  // verdict is chosen among the banks.

  import opened Constants
  import opened RealMath
  import opened Sums
  import opened EProcesses
  import opened Bets
  import opened Verdicts
  import opened Ville

  const ALPHA_PER_ANCHOR := ALPHA_PER_ASSET_YEAR / REANCHORS_PER_YEAR as real

  /** Magnitude, channel-local, availability, horizon gap, predictability band, transients, dynamics. */
  const ALPHA_SHARES: seq<real> := [0.4, 0.1, 0.15, 0.1, 0.05, 0.1, 0.1]

  /** n equal shares of a bank's alpha. */
  function EqualShares(alpha: real, n: nat, left: nat): (r: seq<real>)
    requires n >= 1
    ensures |r| == left
  {
    if left == 0 then [] else [alpha / n as real] + EqualShares(alpha, n, left - 1)
  }

  function BankAlphas(share: real, count: nat): seq<real> {
    if count == 0 then [] else EqualShares(Times(ALPHA_PER_ANCHOR, share), count, count)
  }

  /** The alphas of all members, bank after bank; a bank with no members was not built. */
  function MemberAlphas(counts: seq<nat>, shares: seq<real>): seq<real>
    requires |counts| == |shares|
  {
    if counts == [] then [] else BankAlphas(shares[0], counts[0]) + MemberAlphas(counts[1..], shares[1..])
  }

  function SharesBuilt(counts: seq<nat>, shares: seq<real>): real
    requires |counts| == |shares|
  {
    if counts == [] then 0.0
    else (if counts[0] == 0 then 0.0 else shares[0]) + SharesBuilt(counts[1..], shares[1..])
  }

  lemma {:induction false} EqualSharesSum(alpha: real, n: nat, left: nat)
    requires n >= 1
    ensures Sum(EqualShares(alpha, n, left)) == Times(left as real, alpha / n as real)
  {
    if left > 0 {
      EqualSharesSum(alpha, n, left - 1);
      assert EqualShares(alpha, n, left)[1..] == EqualShares(alpha, n, left - 1);
      TimesAdd((left - 1) as real, 1.0, alpha / n as real);
    }
  }

  lemma {:induction false} BankAlphasSum(share: real, count: nat)
    ensures Sum(BankAlphas(share, count)) == Times(ALPHA_PER_ANCHOR, if count == 0 then 0.0 else share)
  {
    if count > 0 {
      EqualSharesSum(Times(ALPHA_PER_ANCHOR, share), count, count);
      DivMul(Times(ALPHA_PER_ANCHOR, share), count as real);
    }
  }

  /** Division loses nothing: the member alphas add up to exactly the shares of the banks built. */
  lemma {:induction false} AlphasAddUp(counts: seq<nat>, shares: seq<real>)
    requires |counts| == |shares|
    ensures Sum(MemberAlphas(counts, shares)) == Times(1.0 / 52.0, SharesBuilt(counts, shares))
  {
    hide Times;
    TimesSplit(ALPHA_PER_ANCHOR, 0.0, 0.0);
    if counts != [] {
      AlphasAddUp(counts[1..], shares[1..]);
      BankAlphasSum(shares[0], counts[0]);
      SumConcat(BankAlphas(shares[0], counts[0]), MemberAlphas(counts[1..], shares[1..]));
      TimesSplit(ALPHA_PER_ANCHOR, if counts[0] == 0 then 0.0 else shares[0], SharesBuilt(counts[1..], shares[1..]));
    }
  }

  lemma {:induction false} SharesBuiltAtMostAll(counts: seq<nat>, shares: seq<real>)
    requires |counts| == |shares| && forall i :: 0 <= i < |shares| ==> shares[i] >= 0.0
    ensures SharesBuilt(counts, shares) <= Sum(shares)
  {
    if counts != [] {
      SharesBuiltAtMostAll(counts[1..], shares[1..]);
    }
  }

  lemma {:induction false} SharesAreOne()
    ensures Sum(ALPHA_SHARES) == 1.0
  {
    assert Sum([0.1]) == 0.1;
    assert [0.1, 0.1][1..] == [0.1];
    assert [0.05, 0.1, 0.1][1..] == [0.1, 0.1];
    assert [0.1, 0.05, 0.1, 0.1][1..] == [0.05, 0.1, 0.1];
    assert [0.15, 0.1, 0.05, 0.1, 0.1][1..] == [0.1, 0.05, 0.1, 0.1];
    assert [0.1, 0.15, 0.1, 0.05, 0.1, 0.1][1..] == [0.15, 0.1, 0.05, 0.1, 0.1];
    assert ALPHA_SHARES[1..] == [0.1, 0.15, 0.1, 0.05, 0.1, 0.1];
  }

  function Alphas(ms: seq<Member>): seq<real> {
    if ms == [] then [] else [ms[0].alpha] + Alphas(ms[1..])
  }

  /** The members of an asset whose seven banks have the given member counts. */
  ghost predicate FundsAsset(ms: seq<Member>, counts: seq<nat>) {
    |counts| == |ALPHA_SHARES| && Members(ms) && Alphas(ms) == MemberAlphas(counts, ALPHA_SHARES)
  }

  lemma {:induction false} ChancesBelowAlphas(ms: seq<Member>, n: nat, f: int -> real)
    requires n <= |ms| && forall i :: 0 <= i < n ==> f(i) <= ms[i].alpha
    ensures Sigma(0, n, f) <= Sum(Alphas(ms[..n]))
  {
    if n == 0 {
      assert ms[..0] == [];
    } else {
      ChancesBelowAlphas(ms, n - 1, f);
      assert ms[..n] == ms[..n - 1] + [ms[n - 1]];
      AlphasConcat(ms[..n - 1], [ms[n - 1]]);
      SumSnoc(Alphas(ms[..n - 1]), ms[n - 1].alpha);
      assert Alphas([ms[n - 1]]) == [ms[n - 1].alpha];
    }
  }

  lemma {:induction false} AlphasConcat(a: seq<Member>, b: seq<Member>)
    ensures Alphas(a + b) == Alphas(a) + Alphas(b)
  {
    if a == [] {
      assert a + b == b;
    } else {
      assert (a + b)[1..] == a[1..] + b;
      AlphasConcat(a[1..], b);
    }
  }

  /** Given each member's own bound, on one outcome space: the chance that any bank of the asset
      latches between two anchors is at most the yearly budget over the anchors of a year. */
  lemma {:induction false} AssetBudget(k: Kernel, ms: seq<Member>, counts: seq<nat>, t: Tree)
    requires FundsAsset(ms, counts) && IsRun(t)
    requires forall m :: 0 <= m < |ms| ==> Chance(k, ms, t, Start(|ms|), OneOf(m)) <= ms[m].alpha
    ensures Chance(k, ms, t, Start(|ms|), AnyOf) <= ALPHA_PER_ASSET_YEAR / REANCHORS_PER_YEAR as real
  {
    UnionBound(k, ms, t, Start(|ms|));
    ChancesBelowAlphas(ms, |ms|, i => Chance(k, ms, t, Start(|ms|), OneOf(i)));
    assert ms[..|ms|] == ms;
    BudgetTotal(counts);
  }

  lemma {:induction false} ShareOfAnchor(x: real)
    requires x <= 1.0
    ensures Times(ALPHA_PER_ANCHOR, x) <= ALPHA_PER_ANCHOR
  {
    MulLe(x, 1.0, ALPHA_PER_ANCHOR);
  }

  lemma {:induction false} BudgetFrom(counts: seq<nat>, shares: seq<real>)
    requires |counts| == |shares| && Sum(shares) == 1.0 && forall i :: 0 <= i < |shares| ==> shares[i] >= 0.0
    ensures Sum(MemberAlphas(counts, shares)) <= ALPHA_PER_ANCHOR
  {
    hide Times, Sum, MemberAlphas, SharesBuilt;
    AlphasAddUp(counts, shares);
    SharesBuiltAtMostAll(counts, shares);
    ShareOfAnchor(SharesBuilt(counts, shares));
  }

  lemma {:induction false} BudgetTotal(counts: seq<nat>)
    requires |counts| == |ALPHA_SHARES|
    ensures Sum(MemberAlphas(counts, ALPHA_SHARES)) <= ALPHA_PER_ANCHOR
  {
    SharesAreOne();
    hide Times, Sum, MemberAlphas, SharesBuilt;
    BudgetFrom(counts, ALPHA_SHARES);
  }

  /** The whole chain: p-values uniform given the past and a fair bet keep the asset within budget. */
  lemma {:induction false} AssetWithinBudget(k: Kernel, ms: seq<Member>, counts: seq<nat>, t: Tree)
    requires FundsAsset(ms, counts) && IsRun(t) && FairBet(k.bet) && k.cap > 0.0
    requires forall m :: 0 <= m < |ms| ==> UniformGivenPast(ms, m, t)
    ensures Chance(k, ms, t, Start(|ms|), AnyOf) <= ALPHA_PER_ASSET_YEAR / REANCHORS_PER_YEAR as real
  {
    forall m | 0 <= m < |ms|
      ensures Chance(k, ms, t, Start(|ms|), OneOf(m)) <= ms[m].alpha
    {
      VilleInequality(k, ms, m, t);
    }
    AssetBudget(k, ms, counts, t);
  }

  // ---- the years of an asset --------------------------------------------------------------------

  /** The time between two anchors: the members then, how many each bank has, and the run they watch. */
  datatype Anchored = Anchored(ms: seq<Member>, counts: seq<nat>, t: Tree)

  /** The outcome of a run: which arm each draw took. */
  type Path = seq<nat>

  /** What the next anchor finds may depend on all that happened before it. */
  type Plan = seq<Path> -> Anchored

  ghost predicate MeansRuns(plan: Plan) { forall past :: Members(plan(past).ms) }

  /** The expected number of latched periods among the next n. */
  ghost function ExpectedLatches(k: Kernel, plan: Plan, n: nat, past: seq<Path>): real
    requires MeansRuns(plan)
    decreases n, 0
  {
    if n == 0 then 0.0 else Tally(k, plan, n - 1, past, plan(past).ms, plan(past).t, Start(|plan(past).ms|), [])
  }

  /** The same, from within a period whose draws so far took the path, with `left` periods after it. */
  ghost function Tally(k: Kernel, plan: Plan, left: nat, past: seq<Path>, ms: seq<Member>, t: Tree, st: seq<EState>, path: Path): real
    requires MeansRuns(plan) && Members(ms) && |st| == |ms|
    decreases left, 1, t
  {
    match t
    case Stop => (if Hit(ms, st, AnyOf) then 1.0 else 0.0) + ExpectedLatches(k, plan, left, past + [path])
    case Draw(who, fan) => FanTally(k, plan, left, past, ms, who, fan, st, path, 0)
  }

  ghost function FanTally(k: Kernel, plan: Plan, left: nat, past: seq<Path>, ms: seq<Member>, who: nat, fan: Fan, st: seq<EState>,
                          path: Path, arm: nat): real
    requires MeansRuns(plan) && Members(ms) && |st| == |ms|
    decreases left, 1, fan
  {
    match fan
    case End => 0.0
    case Arm(prob, x, u, next, rest) =>
      Weighted(prob, Tally(k, plan, left, past, ms, next, Advance(k, ms, st, who, x, u), path + [arm]))
      + FanTally(k, plan, left, past, ms, who, rest, st, path, arm + 1)
  }

  ghost predicate NoMoreThan(k: Kernel, plan: Plan, left: nat, bound: real)
    requires MeansRuns(plan)
  {
    forall past :: ExpectedLatches(k, plan, left, past) <= bound
  }

  lemma {:induction false} TallyBound(k: Kernel, plan: Plan, left: nat, past: seq<Path>, ms: seq<Member>, t: Tree, st: seq<EState>,
                                      path: Path, bound: real)
    requires MeansRuns(plan) && Members(ms) && |st| == |ms| && IsRun(t) && NoMoreThan(k, plan, left, bound)
    ensures Tally(k, plan, left, past, ms, t, st, path) <= Chance(k, ms, t, st, AnyOf) + bound
    decreases t
  {
    hide Hit, MeansRuns;
    match t
    case Stop =>
    case Draw(who, fan) =>
      FanTallyBound(k, plan, left, past, ms, who, fan, st, path, 0, bound);
      WeightedAdd(1.0, 0.0, bound);
  }

  lemma {:induction false} FanTallyBound(k: Kernel, plan: Plan, left: nat, past: seq<Path>, ms: seq<Member>, who: nat, fan: Fan,
                                         st: seq<EState>, path: Path, arm: nat, bound: real)
    requires MeansRuns(plan) && Members(ms) && |st| == |ms| && IsFan(fan) && NoMoreThan(k, plan, left, bound)
    ensures FanTally(k, plan, left, past, ms, who, fan, st, path, arm)
         <= FanChance(k, ms, who, fan, st, AnyOf) + Weighted(Mass(fan), bound)
    decreases fan
  {
    hide Weighted, Advance, MeansRuns, NoMoreThan;
    match fan
    case End =>
      WeightedAdd(0.0, 0.0, bound);
    case Arm(prob, x, u, next, rest) =>
      var st' := Advance(k, ms, st, who, x, u);
      var chance := Chance(k, ms, next, st', AnyOf);
      TallyBound(k, plan, left, past, ms, next, st', path + [arm], bound);
      FanTallyBound(k, plan, left, past, ms, who, rest, st, path, arm + 1, bound);
      WeightedLe(prob, Tally(k, plan, left, past, ms, next, st', path + [arm]), chance + bound);
      WeightedSplit(prob, chance, bound);
      WeightedAdd(prob, Mass(rest), bound);
  }

  lemma {:induction false} WeightedSplit(prob: real, a: real, b: real)
    ensures Weighted(prob, a + b) == Weighted(prob, a) + Weighted(prob, b)
  {
  }

  /** Each period starts its banks afresh with the asset's alphas, and its p-values are uniform given the past. */
  ghost predicate WithinHypotheses(plan: Plan) {
    forall past :: Sound(plan(past))
  }

  ghost predicate Sound(p: Anchored) {
    FundsAsset(p.ms, p.counts) && IsRun(p.t) && forall m :: 0 <= m < |p.ms| ==> UniformGivenPast(p.ms, m, p.t)
  }

  lemma {:induction false} PlanMeansRuns(plan: Plan)
    requires WithinHypotheses(plan)
    ensures MeansRuns(plan)
  {
    forall past
      ensures Members(plan(past).ms)
    {
      assert Sound(plan(past));
    }
  }

  lemma {:induction false} LatchesOf(k: Kernel, plan: Plan, n: nat, past: seq<Path>)
    requires FairBet(k.bet) && k.cap > 0.0 && WithinHypotheses(plan) && MeansRuns(plan)
    ensures ExpectedLatches(k, plan, n, past) <= Times(n as real, ALPHA_PER_ANCHOR)
    decreases n
  {
    if n == 0 {
      TimesAdd(0.0, 0.0, ALPHA_PER_ANCHOR);
    } else {
      var left: nat := n - 1;
      forall earlier
        ensures ExpectedLatches(k, plan, left, earlier) <= Times(left as real, ALPHA_PER_ANCHOR)
      {
        LatchesOf(k, plan, left, earlier);
      }
      assert Sound(plan(past));
      var p := plan(past);
      AssetWithinBudget(k, p.ms, p.counts, p.t);
      hide WithinHypotheses, MeansRuns, FairBet, FundsAsset, UniformGivenPast, IsRun, Times;
      TallyBound(k, plan, left, past, p.ms, p.t, Start(|p.ms|), [], Times(left as real, ALPHA_PER_ANCHOR));
      TimesAdd(left as real, 1.0, ALPHA_PER_ANCHOR);
      TimesIdentity(ALPHA_PER_ANCHOR);
    }
  }

  lemma {:induction false} TimesIdentity(a: real)
    ensures Times(1.0, a) == a
  {
  }

  /** What the budget promises of a year: over any n periods, however each depends on those before, the expected
      number of them with a false alarm is at most n anchors' share; over the 52 of a year, at most the asset's
      yearly budget. */
  lemma {:induction false} YearWithinBudget(k: Kernel, plan: Plan, n: nat, past: seq<Path>)
    requires FairBet(k.bet) && k.cap > 0.0 && WithinHypotheses(plan)
    ensures MeansRuns(plan)
    ensures ExpectedLatches(k, plan, n, past) <= n as real * (ALPHA_PER_ASSET_YEAR / 52.0)
    ensures n <= 52 ==> ExpectedLatches(k, plan, n, past) <= ALPHA_PER_ASSET_YEAR
  {
    PlanMeansRuns(plan);
    LatchesOf(k, plan, n, past);
    hide ExpectedLatches, WithinHypotheses, MeansRuns;
  }

  // ---- the verdict of one frame ---------------------------------------------------------

  const WATCH_EVIDENCE := 0.5

  /** A bank's answer: latched or not, and its peak evidence as a fraction of the threshold. */
  datatype BankAnswer = BankAnswer(alarmed: bool, evidence: real)

  datatype Domain = Magnitude | Availability | Auxiliary(index: nat)

  datatype Decision = Decision(level: Level, domain: Domain)

  ghost predicate Consistent(b: BankAnswer) { b.evidence >= 0.0 && (b.alarmed <==> b.evidence >= 1.0) }

  /** Every bank has been updated; the strongest auxiliary alarm, availability and magnitude are
      tried in rising priority. The verdict is an alarm exactly when some bank that answered is
      latched, and its domain is latched and, among auxiliaries, of maximal evidence. */
  method Decide(now: BankAnswer, avail: BankAnswer, aux: seq<BankAnswer>) returns (d: Decision)
    requires Consistent(now) && Consistent(avail) && forall i :: 0 <= i < |aux| ==> Consistent(aux[i])
    ensures d.level == AlarmLevel <==>
              now.alarmed || avail.alarmed || exists i :: 0 <= i < |aux| && aux[i].alarmed
    ensures d.level == AlarmLevel ==> match d.domain
              case Magnitude => now.alarmed
              case Availability => avail.alarmed && !now.alarmed
              case Auxiliary(i) => !now.alarmed && !avail.alarmed && i < |aux| && aux[i].alarmed
                                   && forall j :: 0 <= j < |aux| ==> aux[j].evidence <= aux[i].evidence
    ensures d.level == WatchLevel <==>
              !now.alarmed && !avail.alarmed && (forall i :: 0 <= i < |aux| ==> !aux[i].alarmed) && now.evidence >= 0.5
    ensures d.level != AlarmLevel ==> d.domain == Magnitude
  {
    var found, best, bestEvidence := false, 0, 0.0;
    for i := 0 to |aux|
      invariant found ==> best < i && aux[best].alarmed && bestEvidence == aux[best].evidence
      invariant !found ==> bestEvidence == 0.0 && forall j :: 0 <= j < i ==> !aux[j].alarmed
      invariant forall j :: 0 <= j < i && aux[j].alarmed ==> aux[j].evidence <= bestEvidence
    {
      if aux[i].alarmed && aux[i].evidence > bestEvidence {
        found, best, bestEvidence := true, i, aux[i].evidence;
      }
    }
    if found && !now.alarmed && !avail.alarmed {
      return Decision(AlarmLevel, Auxiliary(best));
    }
    if avail.alarmed && !now.alarmed {
      return Decision(AlarmLevel, Availability);
    }
    if now.alarmed {
      return Decision(AlarmLevel, Magnitude);
    } else if now.evidence >= WATCH_EVIDENCE {
      return Decision(WatchLevel, Magnitude);
    }
    return Decision(HealthyLevel, Magnitude);
  }
}
