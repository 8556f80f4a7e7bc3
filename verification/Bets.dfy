/** Fair bets on p-values. */
module Bets {
  // A nonnegative decreasing bet whose lower sums stay at most 1 earns at most 1 on average from every
  // p-value law that puts mass at most t below each t; the mixture of power bets is such a bet.

  import opened RealMath

  ghost predicate Grid(g: seq<real>) {
    && (forall i :: 0 <= i < |g| ==> 0.0 < g[i] <= 1.0)
    && (forall i, j :: 0 <= i < j < |g| ==> g[i] < g[j])
  }

  function Last(g: seq<real>): real { if g == [] then 0.0 else g[|g| - 1] }

  function Strip(height: real, from: real, to: real): real { height * (to - from) }

  /** Lower Riemann sum of a decreasing bet over the grid 0 < g[0] < g[1] < ... */
  function LowerSum(bet: real -> real, g: seq<real>): real
    decreases |g|
  {
    if g == [] then 0.0
    else
      var n := |g| - 1;
      LowerSum(bet, g[..n]) + Strip(bet(g[n]), Last(g[..n]), g[n])
  }

  ghost predicate Decreasing(bet: real -> real) {
    && (forall p :: 0.0 < p <= 1.0 ==> bet(p) >= 0.0)
    && (forall p, q :: 0.0 < p <= q <= 1.0 ==> bet(p) >= bet(q))
  }

  /** Nonnegative, decreasing, and of integral at most 1 over (0, 1]. */
  ghost predicate FairBet(bet: real -> real) {
    Decreasing(bet) && forall g :: Grid(g) ==> LowerSum(bet, g) <= 1.0
  }

  // ---- laws ------------------------------------------------------------------

  datatype Atom = Atom(mass: real, p: real)

  function Total(law: seq<Atom>): real {
    if law == [] then 0.0 else law[0].mass + Total(law[1..])
  }

  function MassBelow(law: seq<Atom>, t: real): real {
    if law == [] then 0.0 else (if law[0].p <= t then law[0].mass else 0.0) + MassBelow(law[1..], t)
  }

  function Earned(bet: real -> real, a: Atom): real { a.mass * bet(a.p) }

  function Expected(bet: real -> real, law: seq<Atom>): real {
    if law == [] then 0.0 else Earned(bet, law[0]) + Expected(bet, law[1..])
  }

  /** A conditional law of p-values that is uniform or errs upward. */
  ghost predicate Valid(law: seq<Atom>) {
    && (forall i :: 0 <= i < |law| ==> law[i].mass >= 0.0 && 0.0 < law[i].p <= 1.0)
    && (forall t :: 0.0 <= t <= 1.0 ==> MassBelow(law, t) <= t)
  }

  lemma {:induction false} LawConcat(bet: real -> real, a: seq<Atom>, b: seq<Atom>, t: real)
    ensures Total(a + b) == Total(a) + Total(b)
    ensures MassBelow(a + b, t) == MassBelow(a, t) + MassBelow(b, t)
    ensures Expected(bet, a + b) == Expected(bet, a) + Expected(bet, b)
  {
    hide Earned;
    if a == [] {
      assert a + b == b;
    } else {
      assert (a + b)[1..] == a[1..] + b;
      LawConcat(bet, a[1..], b, t);
    }
  }

  function Without(law: seq<Atom>, k: nat): seq<Atom>
    requires k < |law|
  {
    law[..k] + law[k + 1..]
  }

  lemma {:induction false} LawWithout(bet: real -> real, law: seq<Atom>, k: nat, t: real)
    requires k < |law|
    ensures Total(law) == Total(Without(law, k)) + law[k].mass
    ensures MassBelow(law, t) == MassBelow(Without(law, k), t) + if law[k].p <= t then law[k].mass else 0.0
    ensures Expected(bet, law) == Expected(bet, Without(law, k)) + Earned(bet, law[k])
  {
    hide Earned;
    assert law == (law[..k] + [law[k]]) + law[k + 1..];
    LawConcat(bet, law[..k] + [law[k]], law[k + 1..], t);
    LawConcat(bet, law[..k], [law[k]], t);
    LawConcat(bet, law[..k], law[k + 1..], t);
  }

  function LargestP(law: seq<Atom>): (k: nat)
    requires law != []
    ensures k < |law| && forall i :: 0 <= i < |law| ==> law[i].p <= law[k].p
  {
    if |law| == 1 then 0
    else
      var k := LargestP(law[1..]) + 1;
      assert forall i :: 1 <= i < |law| ==> law[i] == law[1..][i - 1];
      if law[0].p >= law[k].p then 0 else k
  }

  lemma {:induction false} AllBelow(law: seq<Atom>, t: real)
    requires forall i :: 0 <= i < |law| ==> law[i].p <= t
    ensures MassBelow(law, t) == Total(law)
  {
    if law != [] {
      AllBelow(law[1..], t);
    }
  }

  lemma {:induction false} WithoutIsValid(law: seq<Atom>, k: nat)
    requires Valid(law) && k < |law|
    ensures Valid(Without(law, k))
  {
    forall t | 0.0 <= t <= 1.0
      ensures MassBelow(Without(law, k), t) <= t
    {
      LawWithout(p => 0.0, law, k, t);
    }
  }

  lemma {:induction false} StepUp(bet: real -> real, a: Atom, m: real, last: real)
    requires Decreasing(bet) && 0.0 < m <= a.p <= 1.0 && 0.0 <= a.mass <= m - last
    ensures Earned(bet, a) <= Strip(bet(m), last, m)
  {
    StripDominates(bet(a.p), bet(m), a.mass, m - last);
  }

  lemma {:induction false} StripDominates(low: real, high: real, mass: real, width: real)
    requires low <= high && 0.0 <= high && 0.0 <= mass <= width
    ensures mass * low <= high * width
  {
    MulLe(low, high, mass);
    MulLe(mass, width, high);
  }

  lemma {:induction false} LowerSumSnoc(bet: real -> real, g: seq<real>, m: real)
    ensures LowerSum(bet, g + [m]) == LowerSum(bet, g) + Strip(bet(m), Last(g), m)
  {
    hide Strip;
    assert (g + [m])[..|g|] == g;
  }

  lemma {:induction false} EarnedNothing(bet: real -> real, a: Atom)
    requires a.mass == 0.0
    ensures Earned(bet, a) == 0.0
  {
  }

  lemma {:induction false} TotalNonneg(law: seq<Atom>)
    requires forall i :: 0 <= i < |law| ==> law[i].mass >= 0.0
    ensures Total(law) >= 0.0
  {
    if law != [] {
      TotalNonneg(law[1..]);
    }
  }

  lemma {:induction false} LargestPBoundsMass(law: seq<Atom>, k: nat)
    requires Valid(law) && k < |law| && forall i :: 0 <= i < |law| ==> law[i].p <= law[k].p
    ensures law[k].mass <= Total(law) <= law[k].p
  {
    AllBelow(law, law[k].p);
    LawWithout(p => 0.0, law, k, 0.0);
    TotalNonneg(Without(law, k));
  }

  lemma {:induction false} AtomFacts(law: seq<Atom>, k: nat)
    requires Valid(law) && k < |law|
    ensures law[k].mass >= 0.0 && 0.0 < law[k].p <= 1.0
  {
  }

  lemma {:induction false} GridSnoc(g: seq<real>, m: real)
    requires Grid(g) && Last(g) < m <= 1.0
    ensures Grid(g + [m]) && Last(g + [m]) == m
  {
  }

  /** Adding the atom of largest p-value extends the grid by one strip that dominates it. */
  lemma {:induction false} GridStep(bet: real -> real, law: seq<Atom>, k: nat, g: seq<real>) returns (next: seq<real>)
    requires Decreasing(bet) && Valid(law) && k < |law| && forall i :: 0 <= i < |law| ==> law[i].p <= law[k].p
    requires Grid(g) && Last(g) <= Total(Without(law, k)) && Expected(bet, Without(law, k)) <= LowerSum(bet, g)
    requires 0.0 <= Last(g)
    ensures Grid(next) && Last(next) <= Total(law) && Expected(bet, law) <= LowerSum(bet, next)
    ensures 0.0 <= Last(next)
  {
    hide Earned, Strip, Grid, Last, LowerSum, Expected, Total, Valid, Decreasing, Without, MassBelow;
    var a, m := law[k], Total(law);
    AtomFacts(law, k);
    LawWithout(bet, law, k, a.p);
    LargestPBoundsMass(law, k);
    if a.mass == 0.0 {
      EarnedNothing(bet, a);
      next := g;
    } else {
      StepUp(bet, a, m, Last(g));
      LowerSumSnoc(bet, g, m);
      GridSnoc(g, m);
      next := g + [m];
    }
  }

  /** Removing atoms from the largest p-value down lays the cumulative masses out as a grid on
      which the expectation is dominated by a lower sum. */
  lemma {:induction false} MeanOnGrid(bet: real -> real, law: seq<Atom>) returns (g: seq<real>)
    requires Decreasing(bet) && Valid(law)
    ensures Grid(g) && 0.0 <= Last(g) <= Total(law)
    ensures Expected(bet, law) <= LowerSum(bet, g)
    decreases |law|
  {
    hide Earned, Strip;
    if law == [] {
      g := [];
    } else {
      var k := LargestP(law);
      WithoutIsValid(law, k);
      g := MeanOnGrid(bet, Without(law, k));
      g := GridStep(bet, law, k, g);
    }
  }

  /** A fair bet earns at most 1 on average. */
  lemma {:induction false} FairBetEarnsAtMostOne(bet: real -> real, law: seq<Atom>)
    requires FairBet(bet) && Valid(law)
    ensures Expected(bet, law) <= 1.0
  {
    var g := MeanOnGrid(bet, law);
  }

  // ---- the mixture over the epsilon grid ----------------------------------------

  /** One member of the grid: p -> eps * p^(eps-1) with its antiderivative p -> p^eps. */
  datatype Power = Power(rate: real -> real, area: real -> real)

  /** The facts about powers with 0 < eps <= 1 that the bet rests on: a decreasing rate whose
      tangents lie above the area function. */
  ghost predicate PowerLike(m: Power) {
    && Decreasing(m.rate)
    && (forall a, b :: 0.0 <= a <= b <= 1.0 && 0.0 < b ==> m.area(a) + Strip(m.rate(b), a, b) <= m.area(b))
    && m.area(0.0) == 0.0 && m.area(1.0) == 1.0
  }

  function RateSum(ms: seq<Power>, p: real): real {
    if ms == [] then 0.0 else ms[0].rate(p) + RateSum(ms[1..], p)
  }

  function MeanRate(ms: seq<Power>, p: real): real
    requires ms != []
  {
    RateSum(ms, p) / |ms| as real
  }

  /** The mean over the grid of the member rates. */
  function MixtureBet(ms: seq<Power>): real -> real
    requires ms != []
  {
    p => MeanRate(ms, p)
  }

  lemma {:induction false} RateSumDecreasing(ms: seq<Power>, p: real, q: real)
    requires forall i :: 0 <= i < |ms| ==> PowerLike(ms[i])
    requires 0.0 < p <= q <= 1.0
    ensures RateSum(ms, p) >= RateSum(ms, q) >= 0.0
  {
    if ms != [] {
      assert PowerLike(ms[0]);
      RateSumDecreasing(ms[1..], p, q);
    }
  }

  lemma {:induction false} MemberLowerSum(m: Power, g: seq<real>)
    requires PowerLike(m) && Grid(g)
    ensures LowerSum(m.rate, g) <= m.area(Last(g))
    decreases |g|
  {
    hide Strip;
    if g != [] {
      var n := |g| - 1;
      MemberLowerSum(m, g[..n]);
      assert m.area(Last(g[..n])) + Strip(m.rate(g[n]), Last(g[..n]), g[n]) <= m.area(g[n]);
    }
  }

  lemma {:induction false} MemberAtMostOne(m: Power, g: seq<real>)
    requires PowerLike(m) && Grid(g)
    ensures LowerSum(m.rate, g) <= 1.0
  {
    hide Strip;
    MemberLowerSum(m, g);
    var l := Last(g);
    assert m.area(l) + Strip(m.rate(1.0), l, 1.0) <= m.area(1.0);
    StripNonneg(m.rate(1.0), l, 1.0);
  }

  function LowerSums(ms: seq<Power>, g: seq<real>): real {
    if ms == [] then 0.0 else LowerSum(ms[0].rate, g) + LowerSums(ms[1..], g)
  }

  lemma {:induction false} LowerSumsBound(ms: seq<Power>, g: seq<real>)
    requires Grid(g) && forall i :: 0 <= i < |ms| ==> PowerLike(ms[i])
    ensures LowerSums(ms, g) <= |ms| as real
  {
    if ms != [] {
      MemberAtMostOne(ms[0], g);
      LowerSumsBound(ms[1..], g);
    }
  }

  lemma {:induction false} LowerSumsSnoc(ms: seq<Power>, g: seq<real>, m: real)
    ensures LowerSums(ms, g + [m]) == LowerSums(ms, g) + Strip(RateSum(ms, m), Last(g), m)
  {
    hide Strip;
    StripNonneg(0.0, Last(g), m);
    if ms != [] {
      LowerSumSnoc(ms[0].rate, g, m);
      LowerSumsSnoc(ms[1..], g, m);
      StripAdd(ms[0].rate(m), RateSum(ms[1..], m), Last(g), m);
    }
  }

  lemma {:induction false} StripNonneg(h: real, from: real, to: real)
    ensures h == 0.0 ==> Strip(h, from, to) == 0.0
    ensures h >= 0.0 && from <= to ==> Strip(h, from, to) >= 0.0
  {
    if h >= 0.0 && from <= to {
      MulLe(0.0, h, to - from);
    }
  }

  lemma {:induction false} StripAdd(h: real, i: real, from: real, to: real)
    ensures Strip(h + i, from, to) == Strip(h, from, to) + Strip(i, from, to)
  {
  }

  lemma {:induction false} LowerSumsNil(ms: seq<Power>)
    ensures LowerSums(ms, []) == 0.0
  {
    if ms != [] {
      LowerSumsNil(ms[1..]);
    }
  }

  lemma {:induction false} StripScale(h: real, n: real, from: real, to: real)
    requires n > 0.0
    ensures Times(Strip(h / n, from, to), n) == Strip(h, from, to)
  {
    DivMul(h, n);
    assert h / n * (to - from) * n == (h / n * n) * (to - from);
  }

  lemma {:induction false} MixtureLowerSum(ms: seq<Power>, g: seq<real>)
    requires ms != []
    ensures Times(LowerSum(MixtureBet(ms), g), |ms| as real) == LowerSums(ms, g)
    decreases |g|
  {
    hide Strip, Times;
    if g == [] {
      LowerSumsNil(ms);
      TimesAdd(0.0, 0.0, |ms| as real);
    } else {
      var n := |g| - 1;
      var h, m := g[..n], g[n];
      assert g == h + [m];
      MixtureLowerSum(ms, h);
      LowerSumSnoc(MixtureBet(ms), h, m);
      LowerSumsSnoc(ms, h, m);
      StripScale(RateSum(ms, m), |ms| as real, Last(h), m);
      TimesAdd(LowerSum(MixtureBet(ms), h), Strip(RateSum(ms, m) / |ms| as real, Last(h), m), |ms| as real);
    }
  }

  lemma {:induction false} DivLe(a: real, b: real, n: real)
    requires a <= b && n > 0.0
    ensures a / n <= b / n
  {
    DivMul(b, n);
    DivBound(a, b / n, n);
  }

  lemma {:induction false} MeanRateOrder(ms: seq<Power>, p: real, q: real)
    requires ms != [] && forall i :: 0 <= i < |ms| ==> PowerLike(ms[i])
    requires 0.0 < p <= q <= 1.0
    ensures MeanRate(ms, p) >= MeanRate(ms, q) >= 0.0
  {
    RateSumDecreasing(ms, p, q);
    hide RateSum, PowerLike;
    DivLe(0.0, RateSum(ms, q), |ms| as real);
    DivLe(RateSum(ms, q), RateSum(ms, p), |ms| as real);
  }

  lemma {:induction false} MixtureBetDecreasing(ms: seq<Power>)
    requires ms != [] && forall i :: 0 <= i < |ms| ==> PowerLike(ms[i])
    ensures Decreasing(MixtureBet(ms))
  {
    hide MeanRate, PowerLike;
    forall p, q | 0.0 < p <= q <= 1.0
      ensures MixtureBet(ms)(p) >= MixtureBet(ms)(q) >= 0.0
    {
      MeanRateOrder(ms, p, q);
    }
  }

  /** The mean of power bets over any nonempty grid is a fair bet. */
  lemma {:induction false} MixtureIsFair(ms: seq<Power>)
    requires ms != [] && forall i :: 0 <= i < |ms| ==> PowerLike(ms[i])
    ensures FairBet(MixtureBet(ms))
  {
    hide Times;
    MixtureBetDecreasing(ms);
    forall g | Grid(g)
      ensures LowerSum(MixtureBet(ms), g) <= 1.0
    {
      MixtureLowerSum(ms, g);
      LowerSumsBound(ms, g);
      TimesBound(LowerSum(MixtureBet(ms), g), |ms| as real);
    }
  }

  lemma {:induction false} TimesBound(s: real, n: real)
    requires n > 0.0 && Times(s, n) <= n
    ensures s <= 1.0
  {
    if s > 1.0 {
      MulLt(1.0, s, n);
    }
  }
}
