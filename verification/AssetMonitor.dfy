/** The banks of one asset. */
module AssetMonitors {
  // Each built on its own calibration stream with its own share of the budget.

  import opened Banks
  import opened Calibration
  import opened EProcesses
  import opened Monitors
  import opened RealMath
  import opened Results
  import opened Samples
  import opened Verdicts
  import opened Ville

  function MembersOf(b: Option<EProcessBank>): seq<Member> {
    if b.None? then [] else seq(|b.value.members|, i requires 0 <= i < |b.value.members| => MemberOf(b.value.members[i]))
  }

  function MemberOf(e: EProcess): Member { Member(e.calibSorted, e.alpha) }

  function CountOf(b: Option<EProcessBank>): nat { if b.None? then 0 else |b.value.members| }

  /** A bank over a calibration stream, funded with its share of an anchor's budget. */
  ghost predicate Funded(b: EProcessBank, k: Kernel, stream: seq<Score>, share: real) {
    && b.members != [] && |b.members| == |b.blockSizes| && b.calibrationScores == FiniteOf(stream)
    && forall i :: 0 <= i < |b.members| ==>
         FundedMember(b.members[i], k, FiniteOf(stream), b.blockSizes[i], Times(ALPHA_PER_ANCHOR, share) / |b.members| as real)
  }

  ghost predicate FundedMember(e: EProcess, k: Kernel, calib: seq<real>, size: nat, alpha: real) {
    && e.Valid() && e.kernel == k && e.blockSize == size >= 1 && e.alpha == alpha
    && PrepareCalibration(Scores(calib), alpha, size) == Ok(e.calibSorted)
  }

  lemma {:induction false} EqualShareAt(alpha: real, n: nat, left: nat, i: nat)
    requires n >= 1 && i < left
    ensures EqualShares(alpha, n, left)[i] == alpha / n as real
  {
    if i > 0 {
      EqualShareAt(alpha, n, left - 1, i - 1);
    }
  }

  lemma {:induction false} FundedMembers(b: EProcessBank, k: Kernel, stream: seq<Score>, share: real)
    requires Funded(b, k, stream, share)
    ensures Members(MembersOf(Some(b))) && Alphas(MembersOf(Some(b))) == BankAlphas(share, |b.members|)
  {
    var ms, n := MembersOf(Some(b)), |b.members|;
    forall i | 0 <= i < n
      ensures Sorted(ms[i].calib) && 0.0 < ms[i].alpha < 1.0 && ms[i].alpha == BankAlphas(share, n)[i]
    {
      assert FundedMember(b.members[i], k, FiniteOf(stream), b.blockSizes[i], Times(ALPHA_PER_ANCHOR, share) / n as real);
      EqualShareAt(Times(ALPHA_PER_ANCHOR, share), n, n, i);
    }
    AlphasAre(ms, BankAlphas(share, n));
  }

  lemma {:induction false} AlphasAre(ms: seq<Member>, alphas: seq<real>)
    requires |ms| == |alphas| && forall i :: 0 <= i < |ms| ==> ms[i].alpha == alphas[i]
    ensures Alphas(ms) == alphas
  {
    if ms != [] {
      AlphasAre(ms[1..], alphas[1..]);
      assert alphas == [alphas[0]] + alphas[1..];
    }
  }

  /** The calibration scores of the seven banks; none where a scorer could not be fitted or does not apply. */
  datatype Streams = Streams(magnitude: Option<seq<Score>>, channel: Option<seq<Score>>, availability: Option<seq<Score>>,
                             horizons: Option<(seq<Score>, seq<Score>)>, transient: Option<seq<Score>>, dynamics: Option<seq<Score>>)

  /** No bank, or one funded from the stream. */
  ghost predicate NoneOrFunded(b: Option<EProcessBank>, k: Kernel, stream: Option<seq<Score>>, share: real) {
    b.Some? ==> stream.Some? && Funded(b.value, k, stream.value, share)
  }

  lemma {:induction false} OneMoreBank(b: Option<EProcessBank>, k: Kernel, stream: Option<seq<Score>>, share: real,
                                       ms: seq<Member>, counts: seq<nat>, shares: seq<real>)
    requires NoneOrFunded(b, k, stream, share)
    requires |counts| == |shares| && Members(ms) && Alphas(ms) == MemberAlphas(counts, shares)
    ensures Members(MembersOf(b) + ms)
    ensures Alphas(MembersOf(b) + ms) == MemberAlphas([CountOf(b)] + counts, [share] + shares)
  {
    hide BankAlphas;
    AlphasConcat(MembersOf(b), ms);
    if b.Some? {
      FundedMembers(b.value, k, stream.value, share);
    } else {
      NoAlphas(share);
    }
    assert ([CountOf(b)] + counts)[1..] == counts && ([share] + shares)[1..] == shares;
  }

  lemma {:induction false} NoAlphas(share: real)
    ensures BankAlphas(share, 0) == []
  {
  }

  /** All e-processes of the banks, bank after bank. */
  function AllMembers(b: seq<Option<EProcessBank>>): seq<Member> {
    if b == [] then [] else MembersOf(b[0]) + AllMembers(b[1..])
  }

  function Counts(b: seq<Option<EProcessBank>>): (counts: seq<nat>)
    ensures |counts| == |b|
  {
    if b == [] then [] else [CountOf(b[0])] + Counts(b[1..])
  }

  lemma {:induction false} BanksFrom(b: seq<Option<EProcessBank>>, from: nat)
    requires from < |b| == |ALPHA_SHARES|
    ensures AllMembers(b[from..]) == MembersOf(b[from]) + AllMembers(b[from + 1..])
    ensures Counts(b[from..]) == [CountOf(b[from])] + Counts(b[from + 1..])
    ensures ALPHA_SHARES[from..] == [ALPHA_SHARES[from]] + ALPHA_SHARES[from + 1..]
  {
    assert b[from..][1..] == b[from + 1..];
  }

  lemma {:induction false} NoBanksLeft(b: seq<Option<EProcessBank>>)
    requires |b| == |ALPHA_SHARES|
    ensures Members(AllMembers(b[|b|..])) && Alphas(AllMembers(b[|b|..])) == MemberAlphas(Counts(b[|b|..]), ALPHA_SHARES[|b|..])
  {
    assert b[|b|..] == [];
  }

  lemma {:induction false} BanksFund(k: Kernel, b: seq<Option<EProcessBank>>, streams: seq<Option<seq<Score>>>, from: nat)
    requires |b| == |streams| == |ALPHA_SHARES| && from <= |b|
    requires forall i :: 0 <= i < |b| ==> NoneOrFunded(b[i], k, streams[i], ALPHA_SHARES[i])
    ensures Members(AllMembers(b[from..]))
    ensures Alphas(AllMembers(b[from..])) == MemberAlphas(Counts(b[from..]), ALPHA_SHARES[from..])
    decreases |b| - from
  {
    hide NoneOrFunded, MembersOf, CountOf, AllMembers, Counts, MemberAlphas, Alphas, Members;
    if from < |b| {
      BanksFund(k, b, streams, from + 1);
      BanksFrom(b, from);
      OneMoreBank(b[from], k, streams[from], ALPHA_SHARES[from],
                  AllMembers(b[from + 1..]), Counts(b[from + 1..]), ALPHA_SHARES[from + 1..]);
    } else {
      NoBanksLeft(b);
    }
  }

  /** Seven banks, each funded with its own share or not built, fund the asset. */
  lemma {:induction false} SevenFund(k: Kernel, b: seq<Option<EProcessBank>>, streams: seq<Option<seq<Score>>>)
    requires |b| == |streams| == 7
    requires NoneOrFunded(b[0], k, streams[0], 0.4) && NoneOrFunded(b[1], k, streams[1], 0.1)
    requires NoneOrFunded(b[2], k, streams[2], 0.15) && NoneOrFunded(b[3], k, streams[3], 0.1)
    requires NoneOrFunded(b[4], k, streams[4], 0.05) && NoneOrFunded(b[5], k, streams[5], 0.1)
    requires NoneOrFunded(b[6], k, streams[6], 0.1)
    ensures FundsAsset(AllMembers(b), Counts(b))
  {
    hide NoneOrFunded, AllMembers, Counts, MemberAlphas, Alphas, Members;
    BanksFund(k, b, streams, 0);
    assert b[0..] == b && ALPHA_SHARES[0..] == ALPHA_SHARES;
  }

  // ---- which banks are built -----------------------------------------------------------------------

  /** There is a stream, it holds 30 values, and the audit, where asked for, does not refuse it. */
  ghost predicate Passes(stream: Option<seq<Score>>, audit: bool) {
    stream.Some? && |FiniteOf(stream.value)| >= 30 && !(audit && RefusedAtBase(FiniteOf(stream.value)))
  }

  /** A whole bank: block sizes derived from the stream, every member at its start with its own seed. */
  ghost predicate Started(b: EProcessBank, k: Kernel, seed: nat, audit: bool)
    reads b.members
  {
    && b.Valid()
    && (exists base: nat :: DerivedBy(b.calibrationScores, base, audit, b.blockSizes))
    && (forall i :: 0 <= i < |b.members| ==> b.members[i].RuntimeState() == EState(1.0, 1.0, 0, [], k.seeded(seed + i)))
  }

  /** No bank, or one funded from the stream and at its start. */
  ghost predicate BuiltFrom(b: Option<EProcessBank>, k: Kernel, stream: Option<seq<Score>>, share: real, seed: nat, audit: bool)
    reads if b.Some? then b.value.members else []
  {
    NoneOrFunded(b, k, stream, share) && (b.Some? ==> Started(b.value, k, seed, audit))
  }

  lemma {:induction false} BuiltIsFunded(b: Option<EProcessBank>, k: Kernel, stream: Option<seq<Score>>, share: real, seed: nat, audit: bool)
    requires BuiltFrom(b, k, stream, share, seed, audit)
    ensures NoneOrFunded(b, k, stream, share)
  {
  }

  function Gaps(streams: Streams): Option<seq<Score>> {
    if streams.horizons.None? then None else Some(streams.horizons.value.0)
  }

  function Bands(streams: Streams): Option<seq<Score>> {
    if streams.horizons.None? then None else Some(streams.horizons.value.1)
  }

  lemma {:induction false} ShareOfAnchor(share: real)
    requires 0.0 < share <= 1.0
    ensures 0.0 < Times(ALPHA_PER_ANCHOR, share) < 1.0
  {
  }

  // ---- the verdict on the banks' state ------------------------------------------------------------

  ghost predicate AnyLatched(b: EProcessBank)
    requires b.Valid()
    reads b.members
  {
    exists i :: 0 <= i < |b.members| && b.members[i].Alarmed()
  }

  /** Some member's peak has come half of the way to its threshold, on the log scale. */
  ghost predicate Halfway(b: EProcessBank, log: real -> real)
    requires b.Valid()
    reads b.members
  {
    b.Covered(log, |b.members|, 0.5)
  }

  /** A bank's answer from the state of its members. */
  method Answer(b: EProcessBank, log: real -> real) returns (a: BankAnswer)
    requires b.Valid() && IsLog(log)
    ensures Consistent(a) && (a.alarmed <==> AnyLatched(b)) && a.evidence == b.EvidenceOf(log, |b.members|)
    ensures a.evidence >= 0.5 <==> Halfway(b, log)
  {
    b.EvidenceIsBestShare(log, |b.members|, 0.5);
    b.EvidenceIsConsistent(log, |b.members|);
    var alarmed := exists i :: 0 <= i < |b.members| && b.members[i].Alarmed();
    return BankAnswer(alarmed, b.EvidenceOf(log, |b.members|));
  }

  lemma {:induction false} NoAnswer()
    ensures Consistent(BankAnswer(false, 0.0))
  {
  }

  class AssetMonitor {
    var bank: Option<EProcessBank>
    var chanBank: Option<EProcessBank>
    var availBank: Option<EProcessBank>
    var gapBank: Option<EProcessBank>
    var bandBank: Option<EProcessBank>
    var transBank: Option<EProcessBank>
    var dynBank: Option<EProcessBank>

    constructor ()
      ensures forall i :: 0 <= i < 7 ==> Banks()[i].None?
    {
      bank, chanBank, availBank, gapBank, bandBank, transBank, dynBank := None, None, None, None, None, None, None;
    }

    function Banks(): (b: seq<Option<EProcessBank>>)
      reads this
      ensures |b| == 7
    {
      [bank, chanBank, availBank, gapBank, bandBank, transBank, dynBank]
    }

    method Hold(magnitude: Option<EProcessBank>, channel: Option<EProcessBank>, availability: Option<EProcessBank>,
                gap: Option<EProcessBank>, band: Option<EProcessBank>, transient: Option<EProcessBank>, dynamics: Option<EProcessBank>)
      modifies this
      ensures bank == magnitude && chanBank == channel && availBank == availability && gapBank == gap
      ensures bandBank == band && transBank == transient && dynBank == dynamics
    {
      bank, chanBank, availBank, gapBank, bandBank, transBank, dynBank :=
        magnitude, channel, availability, gap, band, transient, dynamics;
    }

    /** Builds the banks on fresh calibration streams: the asset is calibrated exactly when the magnitude stream
        passes, and then each other bank is built exactly when its own stream passes, the two on horizons only
        together. An asset that is not keeps its other banks. Every bank built is funded with its share of the
        budget and starts from its own seeds. */
    method Calibrate(k: Kernel, streams: Streams, seed: nat, audit: bool) returns (ok: bool)
      modifies this
      ensures ok <==> bank.Some?
      ensures ok <==> Passes(streams.magnitude, audit)
      ensures !ok ==> Banks()[1..] == old(Banks())[1..]
      ensures ok ==> FundsAsset(AllMembers(Banks()), Counts(Banks()))
      ensures ok ==> (chanBank.Some? <==> Passes(streams.channel, true)) && (availBank.Some? <==> Passes(streams.availability, true))
      ensures ok ==> (gapBank.Some? <==> Passes(Gaps(streams), true) && Passes(Bands(streams), true))
      ensures ok ==> (bandBank.Some? <==> gapBank.Some?)
      ensures ok ==> (transBank.Some? <==> Passes(streams.transient, true)) && (dynBank.Some? <==> Passes(streams.dynamics, true))
      ensures ok ==> BuiltFrom(bank, k, streams.magnitude, 0.4, seed, audit)
      ensures ok ==> BuiltFrom(chanBank, k, streams.channel, 0.1, seed + 500, true)
      ensures ok ==> BuiltFrom(availBank, k, streams.availability, 0.15, seed + 1000, true)
      ensures ok ==> BuiltFrom(gapBank, k, Gaps(streams), 0.1, seed + 2000, true)
      ensures ok ==> BuiltFrom(bandBank, k, Bands(streams), 0.05, seed + 3000, true)
      ensures ok ==> BuiltFrom(transBank, k, streams.transient, 0.1, seed + 4000, true)
      ensures ok ==> BuiltFrom(dynBank, k, streams.dynamics, 0.1, seed + 5000, true)
    {
      hide BuiltFrom, NoneOrFunded, Passes, FundsAsset, AllMembers, Counts;
      var first := TryBank(k, streams.magnitude, 0.4, seed, audit);
      if first.None? {
        bank := None;
        return false;
      }
      var channel, availability, gap, band, transient, dynamics := OtherBanks(k, streams, seed);
      ghost var built := [first, channel, availability, gap, band, transient, dynamics];
      BuiltIsFunded(first, k, streams.magnitude, 0.4, seed, audit);
      BuiltIsFunded(channel, k, streams.channel, 0.1, seed + 500, true);
      BuiltIsFunded(availability, k, streams.availability, 0.15, seed + 1000, true);
      BuiltIsFunded(gap, k, Gaps(streams), 0.1, seed + 2000, true);
      BuiltIsFunded(band, k, Bands(streams), 0.05, seed + 3000, true);
      BuiltIsFunded(transient, k, streams.transient, 0.1, seed + 4000, true);
      BuiltIsFunded(dynamics, k, streams.dynamics, 0.1, seed + 5000, true);
      SevenFund(k, built, [streams.magnitude, streams.channel, streams.availability, Gaps(streams), Bands(streams),
                           streams.transient, streams.dynamics]);
      Hold(first, channel, availability, gap, band, transient, dynamics);
      assert Banks() == built;
      return true;
    }

    /** The verdict on the present state of the banks: availability answers or not, and so do the auxiliary banks,
        in the order in which they are asked. An alarm is given exactly when some member of an answering bank is
        latched, whatever else the banks hold. */
    method Judge(log: real -> real, availAnswers: bool, aux: seq<EProcessBank>) returns (d: Decision)
      requires IsLog(log) && bank.Some? && bank.value.Valid()
      requires availAnswers ==> availBank.Some? && availBank.value.Valid()
      requires forall i :: 0 <= i < |aux| ==> aux[i].Valid()
      ensures d.level == AlarmLevel <==>
                || AnyLatched(bank.value)
                || (availAnswers && AnyLatched(availBank.value))
                || exists i :: 0 <= i < |aux| && AnyLatched(aux[i])
      ensures d.level == WatchLevel <==>
                && !AnyLatched(bank.value)
                && !(availAnswers && AnyLatched(availBank.value))
                && (forall i :: 0 <= i < |aux| ==> !AnyLatched(aux[i]))
                && Halfway(bank.value, log)
    {
      hide AnyLatched, Halfway, Consistent, IsLog;
      var now := Answer(bank.value, log);
      var avail := BankAnswer(false, 0.0);
      NoAnswer();
      if availAnswers {
        avail := Answer(availBank.value, log);
      }
      var answers: seq<BankAnswer> := [];
      for i := 0 to |aux|
        invariant |answers| == i
        invariant forall j :: 0 <= j < i ==> Consistent(answers[j]) && (answers[j].alarmed <==> AnyLatched(aux[j]))
      {
        var a := Answer(aux[i], log);
        answers := answers + [a];
      }
      d := Decide(now, avail, answers);
    }
  }

  /** Builds a bank where there is a stream and neither its length nor the audit refuses it. */
  method TryBank(k: Kernel, stream: Option<seq<Score>>, share: real, seed: nat, audit: bool) returns (b: Option<EProcessBank>)
    ensures BuiltFrom(b, k, stream, share, seed, audit)
    ensures b.Some? ==> fresh(b.value) && fresh(b.value.members) && Passes(stream, audit)
    ensures 0.0 < share <= 1.0 && Passes(stream, audit) ==> b.Some?
  {
    if stream.None? {
      return None;
    }
    hide PrepareCalibration, DerivedBy, FiniteOf, Times, RefusedAtBase;
    if 0.0 < share <= 1.0 {
      ShareOfAnchor(share);
    }
    var r := CreateBank(k, stream.value, Times(ALPHA_PER_ANCHOR, share), None, seed, audit);
    if r.Err? {
      return None;
    }
    forall i | 0 <= i < |r.value.members|
      ensures FundedMember(r.value.members[i], k, FiniteOf(stream.value), r.value.blockSizes[i],
                           Times(ALPHA_PER_ANCHOR, share) / |r.value.members| as real)
    {
      assert ArmedMember(r.value.members[i], k, FiniteOf(stream.value), r.value.blockSizes[i],
                         Times(ALPHA_PER_ANCHOR, share) / |r.value.members| as real, seed + i);
    }
    assert Started(r.value, k, seed, audit) by {
      forall i | 0 <= i < |r.value.members|
        ensures r.value.members[i].RuntimeState() == EState(1.0, 1.0, 0, [], k.seeded(seed + i))
      {
        assert ArmedMember(r.value.members[i], k, FiniteOf(stream.value), r.value.blockSizes[i],
                           Times(ALPHA_PER_ANCHOR, share) / |r.value.members| as real, seed + i);
      }
    }
    return Some(r.value);
  }

  /** The two banks on horizons: both, or none where either refuses. */
  method HorizonBanks(k: Kernel, streams: Streams, seed: nat) returns (gap: Option<EProcessBank>, band: Option<EProcessBank>)
    ensures BuiltFrom(gap, k, Gaps(streams), 0.1, seed + 2000, true)
    ensures BuiltFrom(band, k, Bands(streams), 0.05, seed + 3000, true)
    ensures gap.Some? ==> fresh(gap.value) && fresh(gap.value.members)
    ensures band.Some? ==> fresh(band.value) && fresh(band.value.members)
    ensures gap.Some? <==> Passes(Gaps(streams), true) && Passes(Bands(streams), true)
    ensures band.Some? <==> gap.Some?
  {
    gap := TryBank(k, Gaps(streams), 0.1, seed + 2000, true);
    band := None;
    if gap.Some? {
      band := TryBank(k, Bands(streams), 0.05, seed + 3000, true);
      if band.None? {
        gap := None;
      }
    }
  }

  /** The banks beside the magnitude bank. */
  method OtherBanks(k: Kernel, streams: Streams, seed: nat)
    returns (channel: Option<EProcessBank>, availability: Option<EProcessBank>, gap: Option<EProcessBank>,
             band: Option<EProcessBank>, transient: Option<EProcessBank>, dynamics: Option<EProcessBank>)
    ensures BuiltFrom(channel, k, streams.channel, 0.1, seed + 500, true)
    ensures BuiltFrom(availability, k, streams.availability, 0.15, seed + 1000, true)
    ensures BuiltFrom(gap, k, Gaps(streams), 0.1, seed + 2000, true)
    ensures BuiltFrom(band, k, Bands(streams), 0.05, seed + 3000, true)
    ensures BuiltFrom(transient, k, streams.transient, 0.1, seed + 4000, true)
    ensures BuiltFrom(dynamics, k, streams.dynamics, 0.1, seed + 5000, true)
    ensures (channel.Some? <==> Passes(streams.channel, true)) && (availability.Some? <==> Passes(streams.availability, true))
    ensures (gap.Some? <==> Passes(Gaps(streams), true) && Passes(Bands(streams), true)) && (band.Some? <==> gap.Some?)
    ensures (transient.Some? <==> Passes(streams.transient, true)) && (dynamics.Some? <==> Passes(streams.dynamics, true))
  {
    hide BuiltFrom, NoneOrFunded, Passes;
    channel := TryBank(k, streams.channel, 0.1, seed + 500, true);
    availability := TryBank(k, streams.availability, 0.15, seed + 1000, true);
    gap, band := HorizonBanks(k, streams, seed);
    transient := TryBank(k, streams.transient, 0.1, seed + 4000, true);
    dynamics := TryBank(k, streams.dynamics, 0.1, seed + 5000, true);
  }
}
