/** Ville's inequality. */
module Ville {
  // A whole family of processes is watched together, over finite trees of block draws: what is drawn next,
  // with what odds and by which process, may depend on everything drawn before.

  import opened RealMath
  import opened Sums
  import opened Calibration
  import opened EProcesses
  import opened Bets

  /** One monitored process: its calibration sample and its share of the false-alarm budget. */
  datatype Member = Member(calib: seq<real>, alpha: real)

  /** A run is over, or process `who` ingests a block whose statistic x and smoothing draw u are
      one of the arms of the fan. */
  datatype Tree = Stop | Draw(who: nat, fan: Fan)
  datatype Fan = End | Arm(prob: real, x: real, u: real, next: Tree, rest: Fan)

  datatype Event = OneOf(i: int) | AnyOf

  ghost predicate Members(ms: seq<Member>) {
    forall i :: 0 <= i < |ms| ==> Sorted(ms[i].calib) && 0.0 < ms[i].alpha < 1.0
  }

  /** Initial state of every process: wealth and peak 1. */
  function Start(n: nat): (st: seq<EState>)
    ensures |st| == n
  {
    seq(n, i => EState(1.0, 1.0, 0, [], 0))
  }

  predicate LatchedAt(ms: seq<Member>, st: seq<EState>, i: int)
    requires |ms| == |st|
  {
    0 <= i < |ms| && ms[i].alpha > 0.0 && Latched(st[i], ms[i].alpha)
  }

  predicate Hit(ms: seq<Member>, st: seq<EState>, e: Event)
    requires |ms| == |st|
  {
    match e
    case OneOf(i) => LatchedAt(ms, st, i)
    case AnyOf => exists i :: 0 <= i < |ms| && LatchedAt(ms, st, i)
  }

  function Advance(k: Kernel, ms: seq<Member>, st: seq<EState>, who: nat, x: real, u: real): (r: seq<EState>)
    requires Members(ms) && |st| == |ms|
    ensures |r| == |ms|
  {
    if who < |ms| then st[who := Bet(k, ms[who].calib, st[who], x, u)] else st
  }

  /** Chance that the run ends with the event; alarms latch, so that is the chance of it ever occurring. */
  function Chance(k: Kernel, ms: seq<Member>, t: Tree, st: seq<EState>, e: Event): real
    requires Members(ms) && |st| == |ms|
    decreases t
  {
    match t
    case Stop => if Hit(ms, st, e) then 1.0 else 0.0
    case Draw(who, fan) => FanChance(k, ms, who, fan, st, e)
  }

  function FanChance(k: Kernel, ms: seq<Member>, who: nat, fan: Fan, st: seq<EState>, e: Event): real
    requires Members(ms) && |st| == |ms|
    decreases fan
  {
    match fan
    case End => 0.0
    case Arm(prob, x, u, next, rest) =>
      Weighted(prob, Chance(k, ms, next, Advance(k, ms, st, who, x, u), e)) + FanChance(k, ms, who, rest, st, e)
  }

  function Weighted(prob: real, value: real): real { prob * value }

  // ---- hypotheses on a run ---------------------------------------------------------

  function Mass(fan: Fan): real {
    match fan
    case End => 0.0
    case Arm(prob, _, _, _, rest) => prob + Mass(rest)
  }

  /** Odds are nonnegative and add up to 1 at every draw. */
  ghost predicate IsRun(t: Tree) {
    t.Draw? ==> Mass(t.fan) == 1.0 && IsFan(t.fan)
  }

  ghost predicate IsFan(fan: Fan) {
    fan.Arm? ==> fan.prob >= 0.0 && IsRun(fan.next) && IsFan(fan.rest)
  }

  /** Odds that the next p-value of a process with this calibration is at most v. */
  function MassPBelow(calib: seq<real>, fan: Fan, v: real): real
    requires Sorted(calib)
  {
    match fan
    case End => 0.0
    case Arm(prob, x, u, _, rest) =>
      (if RawP(calib, x, u) <= v then prob else 0.0) + MassPBelow(calib, rest, v)
  }

  /** Every p-value of process m is uniform, or errs upward, given the past. */
  ghost predicate UniformGivenPast(ms: seq<Member>, m: nat, t: Tree)
    requires Members(ms) && m < |ms|
  {
    t.Draw? ==>
      && (t.who == m ==> forall v :: 0.0 <= v <= 1.0 ==> MassPBelow(ms[m].calib, t.fan, v) <= v)
      && UniformInFan(ms, m, t.fan)
  }

  ghost predicate UniformInFan(ms: seq<Member>, m: nat, fan: Fan)
    requires Members(ms) && m < |ms|
  {
    fan.Arm? ==> UniformGivenPast(ms, m, fan.next) && UniformInFan(ms, m, fan.rest)
  }

  // ---- the potential ---------------------------------------------------------------

  /** 1 once latched, wealth over threshold before that. */
  function Potential(s: EState, alpha: real): real
    requires alpha > 0.0
  {
    if Latched(s, alpha) then 1.0 else Times(s.wealth, alpha)
  }

  function FanPotential(k: Kernel, ms: seq<Member>, m: nat, who: nat, fan: Fan, st: seq<EState>): real
    requires Members(ms) && |st| == |ms| && m < |ms|
  {
    match fan
    case End => 0.0
    case Arm(prob, x, u, _, rest) =>
      Weighted(prob, Potential(Advance(k, ms, st, who, x, u)[m], ms[m].alpha)) + FanPotential(k, ms, m, who, rest, st)
  }

  lemma {:induction false} WeightedLe(prob: real, a: real, b: real)
    requires prob >= 0.0 && a <= b
    ensures Weighted(prob, a) <= Weighted(prob, b)
  {
    MulLe(a, b, prob);
  }

  lemma {:induction false} WeightedAdd(p: real, q: real, a: real)
    ensures Weighted(p + q, a) == Weighted(p, a) + Weighted(q, a)
    ensures Weighted(1.0, a) == a && Weighted(0.0, a) == 0.0
  {
  }

  function FanLaw(calib: seq<real>, fan: Fan): seq<Atom>
    requires Sorted(calib)
  {
    match fan
    case End => []
    case Arm(prob, x, u, _, rest) => [Atom(prob, Clip(RawP(calib, x, u)))] + FanLaw(calib, rest)
  }

  lemma {:induction false} FanLawFacts(calib: seq<real>, fan: Fan, v: real)
    requires Sorted(calib) && IsFan(fan)
    ensures forall i :: 0 <= i < |FanLaw(calib, fan)| ==>
      FanLaw(calib, fan)[i].mass >= 0.0 && 0.0 < FanLaw(calib, fan)[i].p <= 1.0
    ensures Total(FanLaw(calib, fan)) == Mass(fan)
    ensures v < 1.0 ==> MassBelow(FanLaw(calib, fan), v) <= MassPBelow(calib, fan, v)
    ensures MassBelow(FanLaw(calib, fan), v) <= Mass(fan)
  {
    hide RawP;
    if fan.Arm? {
      FanLawFacts(calib, fan.rest, v);
    }
  }

  lemma {:induction false} FanLawIsValid(calib: seq<real>, fan: Fan)
    requires Sorted(calib) && IsFan(fan) && Mass(fan) == 1.0
    requires forall v :: 0.0 <= v <= 1.0 ==> MassPBelow(calib, fan, v) <= v
    ensures Valid(FanLaw(calib, fan))
  {
    var law := FanLaw(calib, fan);
    forall v | 0.0 <= v <= 1.0
      ensures MassBelow(law, v) <= v
    {
      FanLawFacts(calib, fan, v);
      if v < 1.0 {
        assert MassPBelow(calib, fan, v) <= v;
      }
    }
    FanLawFacts(calib, fan, 0.0);
  }

  lemma {:induction false} BetNonneg(k: Kernel, p: real)
    requires FairBet(k.bet)
    ensures k.bet(Clip(p)) >= 0.0
  {
  }

  /** Before the latch: wealth w grows to at most w * e, whether or not that reaches 1 / alpha. */
  lemma {:induction false} GrowthStep(w: real, e: real, next: real, alpha: real)
    requires 0.0 < alpha && next <= Times(w, e)
    ensures (if next >= 1.0 / alpha then 1.0 else Times(next, alpha)) <= Times(Times(w, alpha), e)
  {
    MulLe(next, w * e, alpha);
    DivBound(1.0, next, alpha);
    Regroup(w, e, alpha);
  }

  /** One block multiplies the potential by at most its e-value; the cap only lowers it. */
  lemma {:induction false} PotentialStep(k: Kernel, calib: seq<real>, s: EState, alpha: real, x: real, u: real)
    requires Sorted(calib) && FairBet(k.bet) && k.cap > 0.0 && 0.0 < alpha && s.wealth >= 0.0
    ensures Bet(k, calib, s, x, u).wealth >= 0.0
    ensures !Latched(s, alpha) ==>
      Potential(Bet(k, calib, s, x, u), alpha) <= Times(Times(s.wealth, alpha), EValue(k, calib, x, u))
    ensures Latched(s, alpha) ==> Latched(Bet(k, calib, s, x, u), alpha)
  {
    var e := EValue(k, calib, x, u);
    BetNonneg(k, RawP(calib, x, u));
    hide EValue, Times;
    TimesNonneg(s.wealth, e);
    GrowthStep(s.wealth, e, Bet(k, calib, s, x, u).wealth, alpha);
  }

  lemma {:induction false} Regroup(w: real, e: real, alpha: real)
    ensures w * e * alpha == Times(Times(w, alpha), e)
  {
  }

  function ArmAtom(calib: seq<real>, prob: real, x: real, u: real): Atom
    requires Sorted(calib)
  {
    Atom(prob, Clip(RawP(calib, x, u)))
  }

  lemma {:induction false} EarnedScale(k: Kernel, calib: seq<real>, prob: real, c: real, x: real, u: real)
    requires Sorted(calib)
    ensures Weighted(prob, Times(c, EValue(k, calib, x, u))) == Times(c, Earned(k.bet, ArmAtom(calib, prob, x, u)))
  {
    hide RawP, Clip;
    var e := EValue(k, calib, x, u);
    assert prob * (c * e) == c * (prob * e);
  }

  /** What one arm contributes to the expected potential. */
  lemma {:induction false} ArmPotential(k: Kernel, calib: seq<real>, s: EState, alpha: real, prob: real, x: real, u: real)
    requires Sorted(calib) && FairBet(k.bet) && k.cap > 0.0 && 0.0 < alpha && s.wealth >= 0.0 && prob >= 0.0
    ensures !Latched(s, alpha) ==>
      Weighted(prob, Potential(Bet(k, calib, s, x, u), alpha))
      <= Times(Times(s.wealth, alpha), Earned(k.bet, ArmAtom(calib, prob, x, u)))
    ensures Latched(s, alpha) ==> Weighted(prob, Potential(Bet(k, calib, s, x, u), alpha)) == prob
  {
    hide Bet, EValue, Earned, ArmAtom, Times, Weighted, Latched;
    PotentialStep(k, calib, s, alpha, x, u);
    if !Latched(s, alpha) {
      var c := Times(s.wealth, alpha);
      WeightedLe(prob, Potential(Bet(k, calib, s, x, u), alpha), Times(c, EValue(k, calib, x, u)));
      EarnedScale(k, calib, prob, c, x, u);
    } else {
      WeightedOne(prob);
    }
  }

  lemma {:induction false} WeightedOne(prob: real)
    ensures Weighted(prob, 1.0) == prob
  {
  }

  /** The sums of a fan, one arm at a time. */
  lemma {:induction false} FanUnfolds(k: Kernel, ms: seq<Member>, m: nat, fan: Fan, st: seq<EState>)
    requires Members(ms) && |st| == |ms| && m < |ms| && IsFan(fan) && fan.Arm?
    ensures IsFan(fan.rest) && fan.prob >= 0.0 && Mass(fan) == fan.prob + Mass(fan.rest)
    ensures FanPotential(k, ms, m, m, fan, st)
         == Weighted(fan.prob, Potential(Bet(k, ms[m].calib, st[m], fan.x, fan.u), ms[m].alpha)) + FanPotential(k, ms, m, m, fan.rest, st)
    ensures Expected(k.bet, FanLaw(ms[m].calib, fan))
         == Earned(k.bet, ArmAtom(ms[m].calib, fan.prob, fan.x, fan.u)) + Expected(k.bet, FanLaw(ms[m].calib, fan.rest))
  {
    hide Weighted, Earned, Potential, Bet;
    assert FanLaw(ms[m].calib, fan)[1..] == FanLaw(ms[m].calib, fan.rest);
  }

  lemma {:induction false} OwnFanPotential(k: Kernel, ms: seq<Member>, m: nat, fan: Fan, st: seq<EState>)
    requires Members(ms) && |st| == |ms| && m < |ms| && FairBet(k.bet) && k.cap > 0.0
    requires IsFan(fan) && st[m].wealth >= 0.0
    ensures !Latched(st[m], ms[m].alpha) ==>
      FanPotential(k, ms, m, m, fan, st)
      <= Times(Times(st[m].wealth, ms[m].alpha), Expected(k.bet, FanLaw(ms[m].calib, fan)))
    ensures Latched(st[m], ms[m].alpha) ==> FanPotential(k, ms, m, m, fan, st) == Mass(fan)
  {
    hide Times, Weighted, Earned, Potential, Bet, Latched, FairBet, ArmAtom;
    var c := Times(st[m].wealth, ms[m].alpha);
    if fan.End? {
      TimesSplit(c, 0.0, 0.0);
    } else {
      FanUnfolds(k, ms, m, fan, st);
      hide FanPotential, Expected, FanLaw, Mass;
      OwnFanPotential(k, ms, m, fan.rest, st);
      ArmPotential(k, ms[m].calib, st[m], ms[m].alpha, fan.prob, fan.x, fan.u);
      TimesSplit(c, Earned(k.bet, ArmAtom(ms[m].calib, fan.prob, fan.x, fan.u)), Expected(k.bet, FanLaw(ms[m].calib, fan.rest)));
    }
  }

  lemma {:induction false} OtherFanPotential(k: Kernel, ms: seq<Member>, m: nat, who: nat, fan: Fan, st: seq<EState>)
    requires Members(ms) && |st| == |ms| && m < |ms| && who != m
    ensures FanPotential(k, ms, m, who, fan, st) == Weighted(Mass(fan), Potential(st[m], ms[m].alpha))
  {
    hide Weighted, Potential, Bet;
    var v := Potential(st[m], ms[m].alpha);
    match fan
    case End => WeightedAdd(0.0, 0.0, v);
    case Arm(prob, x, u, _, rest) =>
      OtherFanPotential(k, ms, m, who, rest, st);
      WeightedAdd(prob, Mass(rest), v);
  }

  /** A draw does not raise the expected potential of process m. */
  lemma {:induction false} FanPotentialBound(k: Kernel, ms: seq<Member>, m: nat, t: Tree, st: seq<EState>)
    requires Members(ms) && |st| == |ms| && m < |ms| && FairBet(k.bet) && k.cap > 0.0
    requires t.Draw? && IsRun(t) && UniformGivenPast(ms, m, t) && st[m].wealth >= 0.0
    ensures FanPotential(k, ms, m, t.who, t.fan, st) <= Potential(st[m], ms[m].alpha)
  {
    hide Times, Weighted, Latched, Expected, FanLaw, Valid, FairBet, MassPBelow;
    var alpha := ms[m].alpha;
    if t.who == m {
      OwnFanPotential(k, ms, m, t.fan, st);
      FanLawIsValid(ms[m].calib, t.fan);
      FairBetEarnsAtMostOne(k.bet, FanLaw(ms[m].calib, t.fan));
      if !Latched(st[m], alpha) {
        var c := Times(st[m].wealth, alpha);
        TimesNonneg(st[m].wealth, alpha);
        TimesLe(c, Expected(k.bet, FanLaw(ms[m].calib, t.fan)));
      }
    } else {
      OtherFanPotential(k, ms, m, t.who, t.fan, st);
      WeightedAdd(1.0, 0.0, Potential(st[m], alpha));
    }
  }

  lemma {:induction false} TimesLe(c: real, x: real)
    requires c >= 0.0 && x <= 1.0
    ensures Times(c, x) <= c
  {
    MulLe(x, 1.0, c);
  }

  lemma {:induction false} AdvanceWealth(k: Kernel, ms: seq<Member>, m: nat, st: seq<EState>, who: nat, x: real, u: real)
    requires Members(ms) && |st| == |ms| && m < |ms| && FairBet(k.bet) && k.cap > 0.0 && st[m].wealth >= 0.0
    ensures Advance(k, ms, st, who, x, u)[m].wealth >= 0.0
  {
    if who == m {
      PotentialStep(k, ms[m].calib, st[m], ms[m].alpha, x, u);
    }
  }

  lemma {:induction false} ChanceBelowPotential(k: Kernel, ms: seq<Member>, m: nat, t: Tree, st: seq<EState>)
    requires Members(ms) && |st| == |ms| && m < |ms| && FairBet(k.bet) && k.cap > 0.0
    requires IsRun(t) && UniformGivenPast(ms, m, t) && st[m].wealth >= 0.0
    ensures Chance(k, ms, t, st, OneOf(m)) <= Potential(st[m], ms[m].alpha)
    decreases t
  {
    match t
    case Stop =>
      MulLe(0.0, st[m].wealth, ms[m].alpha);
    case Draw(who, fan) =>
      FanChanceBelow(k, ms, m, who, fan, st);
      FanPotentialBound(k, ms, m, t, st);
  }

  lemma {:induction false} FanChanceBelow(k: Kernel, ms: seq<Member>, m: nat, who: nat, fan: Fan, st: seq<EState>)
    requires Members(ms) && |st| == |ms| && m < |ms| && FairBet(k.bet) && k.cap > 0.0
    requires IsFan(fan) && UniformInFan(ms, m, fan) && st[m].wealth >= 0.0
    ensures FanChance(k, ms, who, fan, st, OneOf(m)) <= FanPotential(k, ms, m, who, fan, st)
    decreases fan
  {
    hide Weighted, Potential, Advance;
    match fan
    case End =>
    case Arm(prob, x, u, next, rest) =>
      var st' := Advance(k, ms, st, who, x, u);
      AdvanceWealth(k, ms, m, st, who, x, u);
      ChanceBelowPotential(k, ms, m, next, st');
      WeightedLe(prob, Chance(k, ms, next, st', OneOf(m)), Potential(st'[m], ms[m].alpha));
      FanChanceBelow(k, ms, m, who, rest, st);
  }

  /** Ville: whatever the run, if each p-value of process m is uniform given the past, process m
      ever latches its alarm with chance at most its alpha. */
  lemma {:induction false} VilleInequality(k: Kernel, ms: seq<Member>, m: nat, t: Tree)
    requires Members(ms) && m < |ms| && FairBet(k.bet) && k.cap > 0.0
    requires IsRun(t) && UniformGivenPast(ms, m, t)
    ensures Chance(k, ms, t, Start(|ms|), OneOf(m)) <= ms[m].alpha
  {
    ChanceBelowPotential(k, ms, m, t, Start(|ms|));
    DivBound(1.0, 1.0, ms[m].alpha);
  }

  // ---- union bound -------------------------------------------------------------------

  function ChanceSum(k: Kernel, ms: seq<Member>, t: Tree, st: seq<EState>): real
    requires Members(ms) && |st| == |ms|
  {
    Sigma(0, |ms|, i => Chance(k, ms, t, st, OneOf(i)))
  }

  lemma {:induction false} HitBound(ms: seq<Member>, st: seq<EState>, n: nat, f: int -> real)
    requires |st| == |ms| && n <= |ms|
    requires forall i :: 0 <= i < n ==> f(i) == if LatchedAt(ms, st, i) then 1.0 else 0.0
    ensures Sigma(0, n, f) >= 0.0
    ensures (exists i :: 0 <= i < n && LatchedAt(ms, st, i)) ==> Sigma(0, n, f) >= 1.0
  {
    if n > 0 {
      HitBound(ms, st, n - 1, f);
    }
  }

  /** On every run, whatever its odds: the chance that any process latches is at most the sum of
      the members' own chances. */
  lemma {:induction false} UnionBound(k: Kernel, ms: seq<Member>, t: Tree, st: seq<EState>)
    requires Members(ms) && |st| == |ms| && IsRun(t)
    ensures Chance(k, ms, t, st, AnyOf) <= ChanceSum(k, ms, t, st)
    decreases t
  {
    var f := i => Chance(k, ms, t, st, OneOf(i));
    match t
    case Stop =>
      HitBound(ms, st, |ms|, f);
    case Draw(who, fan) =>
      FanUnionBound(k, ms, who, fan, st);
      SigmaEqual(0, |ms|, f, i => FanChance(k, ms, who, fan, st, OneOf(i)));
  }

  lemma {:induction false} FanUnionBound(k: Kernel, ms: seq<Member>, who: nat, fan: Fan, st: seq<EState>)
    requires Members(ms) && |st| == |ms| && IsFan(fan)
    ensures FanChance(k, ms, who, fan, st, AnyOf) <= Sigma(0, |ms|, i => FanChance(k, ms, who, fan, st, OneOf(i)))
    decreases fan
  {
    hide Weighted, Advance, Hit;
    var h := i => FanChance(k, ms, who, fan, st, OneOf(i));
    match fan
    case End =>
      SigmaZero(0, |ms|, h);
    case Arm(prob, x, u, next, rest) =>
      var st' := Advance(k, ms, st, who, x, u);
      var f := i => Chance(k, ms, next, st', OneOf(i));
      var g := i => FanChance(k, ms, who, rest, st, OneOf(i));
      UnionBound(k, ms, next, st');
      FanUnionBound(k, ms, who, rest, st);
      WeightedLe(prob, Chance(k, ms, next, st', AnyOf), Sigma(0, |ms|, f));
      FanSumSplit(prob, |ms|, f, g, h);
  }

  /** And at least each member's own. */
  lemma {:induction false} AnyCoversEach(k: Kernel, ms: seq<Member>, t: Tree, st: seq<EState>, i: nat)
    requires Members(ms) && |st| == |ms| && IsRun(t) && i < |ms|
    ensures Chance(k, ms, t, st, OneOf(i)) <= Chance(k, ms, t, st, AnyOf)
    decreases t
  {
    match t
    case Stop =>
      assert LatchedAt(ms, st, i) ==> Hit(ms, st, AnyOf);
    case Draw(who, fan) =>
      FanCoversEach(k, ms, who, fan, st, i);
  }

  lemma {:induction false} FanCoversEach(k: Kernel, ms: seq<Member>, who: nat, fan: Fan, st: seq<EState>, i: nat)
    requires Members(ms) && |st| == |ms| && IsFan(fan) && i < |ms|
    ensures FanChance(k, ms, who, fan, st, OneOf(i)) <= FanChance(k, ms, who, fan, st, AnyOf)
    decreases fan
  {
    hide Weighted, Advance, Hit;
    match fan
    case End =>
    case Arm(prob, x, u, next, rest) =>
      var st' := Advance(k, ms, st, who, x, u);
      AnyCoversEach(k, ms, next, st', i);
      FanCoversEach(k, ms, who, rest, st, i);
      WeightedLe(prob, Chance(k, ms, next, st', OneOf(i)), Chance(k, ms, next, st', AnyOf));
  }

  lemma {:induction false} FanSumSplit(prob: real, n: nat, f: int -> real, g: int -> real, h: int -> real)
    requires forall i :: 0 <= i < n ==> h(i) == Weighted(prob, f(i)) + g(i)
    ensures Sigma(0, n, h) == Weighted(prob, Sigma(0, n, f)) + Sigma(0, n, g)
  {
    SigmaLinear(0, n, prob, f, 1.0, g, h);
  }
}
