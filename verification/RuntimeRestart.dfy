/** What a restart brings back. */
module RuntimeRestart {
  // And what it loses, and what it should not bring back but does.

  import opened Ledgers
  import opened Results
  import opened Runtimes
  import opened RuntimeSafety
  import opened Timelines
  import opened Verdicts

  lemma {:induction false} RunConcat(s: Setup, w: World, a: seq<Event>, b: seq<Event>)
    ensures Run(s, w, a + b) == Run(s, Run(s, w, a), b)
    decreases |a|
  {
    hide Next;
    if a == [] {
      assert a + b == b;
    } else {
      assert (a + b)[0] == a[0] && (a + b)[1..] == a[1..] + b;
      RunConcat(s, Next(s, w, a[0]), a[1..], b);
    }
  }

  lemma {:induction false} RunOne(s: Setup, w: World, a: Event)
    ensures Run(s, w, [a]) == Next(s, w, a)
  {
    hide Next;
    assert [a][1..] == [];
  }

  lemma {:induction false} RunTwo(s: Setup, w: World, a: Event, b: Event)
    ensures Run(s, w, [a, b]) == Next(s, Next(s, w, a), b)
  {
    hide Next;
    assert [a, b][1..] == [b];
    RunOne(s, Next(s, w, a), b);
  }

  lemma {:induction false} RunThree(s: Setup, w: World, a: Event, b: Event, c: Event)
    ensures Run(s, w, [a, b, c]) == Next(s, Next(s, Next(s, w, a), b), c)
  {
    hide Next;
    assert [a, b, c][1..] == [b, c];
    RunTwo(s, Next(s, w, a), b, c);
  }

  lemma {:induction false} RunFour(s: Setup, w: World, a: Event, b: Event, c: Event, d: Event)
    ensures Run(s, w, [a, b, c, d]) == Next(s, Next(s, Next(s, Next(s, w, a), b), c), d)
  {
    hide Next;
    assert [a, b, c, d][1..] == [b, c, d];
    RunThree(s, Next(s, w, a), b, c, d);
  }

  /** A crash and restart of an idle asset keeps its wealth exactly when the wealth on disk stands on the
      calibration that came out and counts the same rows, or neither counts any. */
  lemma {:induction false} RestartKeepsWealth(s: Setup, w: World, sig: int)
    requires w.live.Some? && w.live.value.bank.Some?
    ensures var b := w.live.value.bank.value;
            var saved := if w.disk.wealth.Some? && w.disk.wealth.value.sig == sig then w.disk.wealth.value.fed else [];
            var after := Run(s, w, [Crash, Restart(Some(sig))]);
            after.live.Some? && (after.live.value.bank == w.live.value.bank <==> b.sig == sig && b.fed == saved)
  {
    RunTwo(s, w, Crash, Restart(Some(sig)));
    var saved := if w.disk.wealth.Some? && w.disk.wealth.value.sig == sig then w.disk.wealth.value.fed else [];
    var bank := Restored(Some(sig), w.disk.wealth);
    assert Next(s, Next(s, w, Crash), Restart(Some(sig))).live.value.bank == bank;
    assert bank.value.sig == sig && bank.value.fed == saved;
  }

  /** What a tick that finds new rows does, step by step. */
  function ScoredTick(c: Choices): seq<Event> {
    [Do(Mark), Do(Process(c.open, c.verdict)), Do(Absorb(c.note, c.absorbSig))] + TickEnd(c)
  }

  /** What a tick that finds none does. */
  function IdleTick(c: Choices): seq<Event> { [Do(Mark)] + TickEnd(c) }

  function TickEnd(c: Choices): seq<Event> { [Do(Bump), Do(Rebuild(c.rebuildSig)), Do(Immune(c.sick, c.immuneSig)), Do(Save)] }

  /** What a tick does not decide itself: the episode and verdict its frame gives, and how each calibration comes out. */
  datatype Choices = Choices(open: Option<int>, verdict: State, note: string, absorbSig: Option<int>,
                             rebuildSig: Option<int>, sick: bool, immuneSig: Option<int>)

  ghost predicate MayScore(l: Live, frame: seq<int>, c: Choices) {
    MayProcess(l.open, frame, c.open, c.verdict) && (l.bank.None? ==> c.verdict == Insufficient)
  }

  lemma {:induction false} EndOfTick(s: Setup, w: World, c: Choices)
    requires w.live.Some? && w.live.value.phase.Governed?
    ensures var after := Run(s, w, TickEnd(c));
      && after.live.Some? && after.live.value.phase == Idle
      && after.disk.lastSeen == w.disk.lastSeen && after.live.value.lastSeen == w.live.value.lastSeen
      && after.disk.ticks == after.live.value.ticks
      && (w.live.value.phase.scored && after.live.value.bank.Some? ==> after.disk.wealth == after.live.value.bank)
      && (!w.live.value.phase.scored ==> after.disk.wealth == w.disk.wealth)
  {
    RunFour(s, w, Do(Bump), Do(Rebuild(c.rebuildSig)), Do(Immune(c.sick, c.immuneSig)), Do(Save));
    hide Run;
  }

  /** A tick that scored rows ends with its wealth on disk, whatever was absorbed or rebuilt on the way. A crash and
      restart then lose the open episode, and the wealth if the calibration comes out different, and nothing else:
      the process is the one that ran on exactly when there was no episode and the calibration is the same. */
  lemma {:induction false} ScoredTickIsDurable(s: Setup, w: World, c: Choices, sig: int)
    requires w.live.Some? && w.live.value.phase == Idle && Since(w.disk.rows, w.live.value.lastSeen) != []
    requires MayScore(w.live.value, Since(w.disk.rows, w.live.value.lastSeen), c)
    ensures var after := Run(s, w, ScoredTick(c));
            && after.live.Some? && after.live.value.phase == Idle
            && (after.live.value.bank.Some? ==>
                  var l, restarted := after.live.value, Run(s, after, [Crash, Restart(Some(sig))]);
                  && restarted == after.(live := Some(l.(open := None, bank := if l.bank.value.sig == sig then l.bank else Some(Bank(sig, [])))))
                  && (restarted == after <==> l.open.None? && l.bank.value.sig == sig))
  {
    hide Since;
    var first := [Do(Mark), Do(Process(c.open, c.verdict)), Do(Absorb(c.note, c.absorbSig))];
    var scored := ScoredSteps(s, w, c);
    RunConcat(s, w, first, TickEnd(c));
    EndOfTick(s, scored, c);
    var after := Run(s, w, ScoredTick(c));
    RunTwo(s, after, Crash, Restart(Some(sig)));
    hide Run;
  }

  lemma {:induction false} ScoredSteps(s: Setup, w: World, c: Choices) returns (scored: World)
    requires w.live.Some? && w.live.value.phase == Idle && Since(w.disk.rows, w.live.value.lastSeen) != []
    requires MayScore(w.live.value, Since(w.disk.rows, w.live.value.lastSeen), c)
    ensures scored == Run(s, w, [Do(Mark), Do(Process(c.open, c.verdict)), Do(Absorb(c.note, c.absorbSig))])
    ensures scored.live.Some? && scored.live.value.phase == Governed(true)
    ensures scored.live.value.lastSeen == scored.disk.lastSeen
  {
    hide Since;
    RunThree(s, w, Do(Mark), Do(Process(c.open, c.verdict)), Do(Absorb(c.note, c.absorbSig)));
    scored := Run(s, w, [Do(Mark), Do(Process(c.open, c.verdict)), Do(Absorb(c.note, c.absorbSig))]);
    hide Run;
  }

  /** An operator's re-anchor starts the evidence afresh but does not save it: a restart before the next
      scored tick brings the old evidence back exactly when the new calibration has the old signature
      and rows had been counted. */
  lemma {:induction false} RestartUndoesReanchor(s: Setup, w: World, last: State, closedAt: int, note: string, sig: int)
    requires w.live.Some? && w.live.value.phase == Idle
    ensures var anchored := Next(s, w, Do(Reanchor(last, closedAt, note, Some(sig))));
            var restarted := Run(s, anchored, [Crash, Restart(Some(sig))]);
            && anchored.live.Some? && anchored.live.value.bank == Some(Bank(sig, []))
            && restarted.live.Some?
            && (restarted.live.value.bank != anchored.live.value.bank
                <==> w.disk.wealth.Some? && w.disk.wealth.value.sig == sig && w.disk.wealth.value.fed != [])
            && (restarted.live.value.bank != anchored.live.value.bank ==> restarted.live.value.bank == w.disk.wealth)
  {
    var anchored := Next(s, w, Do(Reanchor(last, closedAt, note, Some(sig))));
    RunTwo(s, anchored, Crash, Restart(Some(sig)));
  }

  /** The re-anchor itself: the open episode is ledgered from its onset, as a change or as an alarm, and the bank stands
      on a fresh calibration; the journal is left as it was. */
  lemma {:induction false} ReanchorLeaves(s: Setup, w: World, last: State, closedAt: int, note: string, sig: Option<int>)
    requires w.live.Some? && w.live.value.phase == Idle
    ensures var l, after := w.live.value, Next(s, w, Do(Reanchor(last, closedAt, note, sig)));
            && after.live == Some(l.(open := None, bank := if sig.Some? then Some(Bank(sig.value, [])) else None))
            && after.absorbed == w.absorbed
            && after.disk.episodes == w.disk.episodes
                 + (if l.open.None? then []
                    else [Episode(s.asset, l.open.value, At(closedAt), if last == Change then ChangeNotFault else AlarmEpisode, note)])
            && after.disk == w.disk.(episodes := after.disk.episodes)
  {
  }

  /** A completed bootstrap leaves no stored row to score: the next tick that finds nothing appended scores nothing, and
      what is appended later is scored whole. */
  lemma {:induction false} BootstrapReadsAll(s: Setup, w: World, episodes: seq<Episode>, bank: Option<Bank>, open: Option<int>, zeroTicks: bool)
    requires w.live.Some? && CanAct(w.disk, w.live.value, Bootstrap(episodes, bank, open, zeroTicks)) && Rising(w.disk.rows)
    ensures var after := Next(s, w, Do(Bootstrap(episodes, bank, open, zeroTicks)));
            && after.live.Some? && Since(after.disk.rows, after.live.value.lastSeen) == []
            && after.live.value.bank == bank && after.disk.episodes == episodes && after.disk.lastSeen == after.live.value.lastSeen
            && after.disk.ticks == after.live.value.ticks == if zeroTicks then 0 else w.live.value.ticks
  {
    NothingSince(w.disk.rows, LastRow(w.disk.rows));
  }

  lemma {:induction false} NothingSince(rows: seq<int>, lastSeen: Option<int>)
    requires rows != [] ==> lastSeen.Some? && forall i :: 0 <= i < |rows| ==> rows[i] <= lastSeen.value
    ensures Since(rows, lastSeen) == []
  {
    if rows != [] {
      NothingSince(rows[1..], lastSeen);
    }
  }

  ghost predicate Unsaved(w: World, t: int) {
    && w.disk.lastSeen.Some? && t <= w.disk.lastSeen.value
    && (w.disk.wealth.Some? ==> !Holds(w.disk.wealth.value.fed, t))
  }

  lemma {:induction false} StaysUnsaved(s: Setup, w: World, e: Event, t: int)
    requires JournalAgrees(w) && Unsaved(w, t) && e != Do(Save)
    ensures Unsaved(Next(s, w, e), t)
  {
    hide Since, Holds, Rising, Extends;
    if e.Do? && w.live.Some? && CanAct(w.disk, w.live.value, e.action) {
      match e.action {
        case Mark => SinceRising(w.disk.rows, w.disk.lastSeen);
        case Bootstrap(_, _, _, _) => BootstrapMovesForward(w);
        case _ =>
      }
    }
  }

  lemma {:induction false} RunStaysUnsaved(s: Setup, w: World, es: seq<Event>, t: int)
    requires JournalAgrees(w) && Unsaved(w, t) && forall i :: 0 <= i < |es| ==> es[i] != Do(Save)
    ensures JournalAgrees(Run(s, w, es)) && Unsaved(Run(s, w, es), t)
    decreases |es|
  {
    hide JournalAgrees, Unsaved, Next;
    if es != [] {
      JournalKept(s, w, es[0]);
      StaysUnsaved(s, w, es[0], t);
      RunStaysUnsaved(s, Next(s, w, es[0]), es[1..], t);
    }
  }

  /** A crash after a tick has moved the watermark and before wealth is next saved loses the tick's rows for good:
      no later run counts them that does not replay them in a bootstrap that raises. */
  lemma {:induction false} CrashLosesFrame(s: Setup, w: World, es: seq<Event>, later: seq<Event>, t: int)
    requires JournalAgrees(w) && EvidenceOnce(w) && w.live.Some? && w.live.value.phase == Idle
    requires Holds(Since(w.disk.rows, w.disk.lastSeen), t)
    requires forall i :: 0 <= i < |es| ==> es[i] != Do(Save)
    ensures var crashed := Next(s, Run(s, Next(s, w, Do(Mark)), es), Crash);
            PassedOver(crashed, t) && (NeverReplayed(s, crashed, later, t) ==> PassedOver(Run(s, crashed, later), t))
  {
    var marked := Next(s, w, Do(Mark));
    JournalKept(s, w, Do(Mark));
    MarkLeavesUnsaved(s, w, t);
    RunStaysUnsaved(s, marked, es, t);
    var crashed := Next(s, Run(s, marked, es), Crash);
    JournalKept(s, Run(s, marked, es), Crash);
    assert PassedOver(crashed, t) by { hide JournalAgrees, Holds, Run; }
    PassedOverForGood(s, crashed, later, t);
  }

  /** So does a tick that fails before its rows are scored, although its process lives on: the next tick starts
      after them. */
  lemma {:induction false} FailedTickLosesFrame(s: Setup, w: World, later: seq<Event>, t: int)
    requires JournalAgrees(w) && EvidenceOnce(w) && w.live.Some? && w.live.value.phase == Idle
    requires Holds(Since(w.disk.rows, w.disk.lastSeen), t)
    ensures var failed := Run(s, w, [Do(Mark), Do(Abandon)]);
            PassedOver(failed, t) && (NeverReplayed(s, failed, later, t) ==> PassedOver(Run(s, failed, later), t))
  {
    hide Run;
    var marked := Next(s, w, Do(Mark));
    var failed := Next(s, marked, Do(Abandon));
    MarkLeavesUnsaved(s, w, t);
    NotCounted(s, w, t);
    JournalKept(s, w, Do(Mark));
    JournalKept(s, marked, Do(Abandon));
    RunTwo(s, w, Do(Mark), Do(Abandon));
    PassedOverForGood(s, failed, later, t);
  }

  lemma {:induction false} NotCounted(s: Setup, w: World, t: int)
    requires JournalAgrees(w) && EvidenceOnce(w) && w.live.Some? && w.live.value.phase == Idle
    requires Holds(Since(w.disk.rows, w.disk.lastSeen), t)
    ensures var failed := Next(s, Next(s, w, Do(Mark)), Do(Abandon));
            failed.live.Some? && (failed.live.value.bank.Some? ==> !Holds(failed.live.value.bank.value.fed, t))
            && !failed.live.value.phase.Marked?
  {
    var frame := Since(w.disk.rows, w.disk.lastSeen);
    SinceRising(w.disk.rows, w.disk.lastSeen);
    hide Since;
    var i :| 0 <= i < |frame| && frame[i] == t;
    if w.live.value.bank.Some? {
      var fed := w.live.value.bank.value.fed;
      forall k | 0 <= k < |fed|
        ensures fed[k] != t
      {
        assert fed[k] <= fed[|fed| - 1] <= w.disk.lastSeen.value < frame[0] <= t;
      }
    }
  }

  lemma {:induction false} MarkLeavesUnsaved(s: Setup, w: World, t: int)
    requires JournalAgrees(w) && EvidenceOnce(w) && w.live.Some? && w.live.value.phase == Idle
    requires Holds(Since(w.disk.rows, w.disk.lastSeen), t)
    ensures Unsaved(Next(s, w, Do(Mark)), t)
  {
    var frame := Since(w.disk.rows, w.disk.lastSeen);
    SinceRising(w.disk.rows, w.disk.lastSeen);
    MarkKeepsEvidence(s, w);
    hide Since;
    var i :| 0 <= i < |frame| && frame[i] == t;
    assert frame[0] <= t <= frame[|frame| - 1];
    if w.disk.wealth.Some? {
      var fed := w.disk.wealth.value.fed;
      forall k | 0 <= k < |fed|
        ensures fed[k] != t
      {
        assert fed[k] <= fed[|fed| - 1] < frame[0];
      }
    }
  }
}
