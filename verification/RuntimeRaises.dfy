/** A bootstrap that raises. */
module RuntimeRaises {
  // In a process that goes on: what it leaves behind the watermark, what cures it, and what happens otherwise.

  import opened Ledgers
  import opened Results
  import opened Runtimes
  import opened RuntimeRestart
  import opened RuntimeSafety
  import opened Timelines
  import opened Verdicts

  /** Between ticks, the bank in memory counts stored rows, each once, the last of them after the watermark. */
  ghost predicate CountsUnread(w: World) {
    && JournalAgrees(w) && BankOk(w.disk.wealth, w)
    && w.live.Some? && w.live.value.phase == Idle && w.live.value.bank.Some?
    && CountsAhead(w.live.value.bank, w.disk.lastSeen)
    && Rising(w.live.value.bank.value.fed) && AllHeld(w.disk.rows, w.live.value.bank.value.fed)
  }

  /** That is what a bootstrap that raises leaves when it spoils the evidence. */
  lemma {:induction false} RaiseCountsUnread(s: Setup, w: World, e: Event)
    requires JournalAgrees(w) && EvidenceOnce(w) && Raises(w, e)
    ensures CountsUnread(Next(s, w, e)) <==> CountsAhead(e.action.bank, w.disk.lastSeen)
  {
    JournalKept(s, w, e);
    hide Holds, Rising;
  }

  /** What sets the evidence right before the next tick: a crash, an operator's re-anchor, a bootstrap that completes
      or is killed, or one that raises again and leaves no row counted ahead. */
  ghost predicate Cures(w: World, e: Event) {
    || e == Crash
    || (e.Do? && w.live.Some? && CanAct(w.disk, w.live.value, e.action)
        && match e.action
           case Reanchor(_, _, _, _) => true
           case Bootstrap(_, _, _, _) => true
           case BootstrapCut(_) => true
           case BootstrapRaises(_, bank, _) => !CountsAhead(bank, w.disk.lastSeen)
           case _ => false)
  }

  /** Exactly those events do. */
  lemma {:induction false} CuredExactly(s: Setup, w: World, e: Event)
    requires CountsUnread(w)
    ensures EvidenceOnce(Next(s, w, e)) <==> Cures(w, e)
  {
    NoneRises();
    hide Since, Holds, AllHeld, Extends, Rising, MayProcess;
    if e == Do(Mark) {
      var frame := MarkOverlaps(s, w);
      hide Next;
    } else if e.Do? && e.action.Bootstrap? {
      BootstrapCures(s, w, e);
    }
  }

  lemma {:induction false} NoneRises()
    ensures Rising([])
  {
  }

  lemma {:induction false} BootstrapCures(s: Setup, w: World, e: Event)
    requires CountsUnread(w) && e.Do? && e.action.Bootstrap?
    ensures CanAct(w.disk, w.live.value, e.action) <==> EvidenceOnce(Next(s, w, e))
  {
    LastIsStored(w);
    BootstrapMovesForward(w);
    hide Since, Holds, AllHeld;
  }

  lemma {:induction false} LastIsStored(w: World)
    requires CountsUnread(w)
    ensures Holds(w.disk.rows, w.live.value.bank.value.fed[|w.live.value.bank.value.fed| - 1])
    ensures w.disk.rows != [] && var fed := w.live.value.bank.value.fed; fed[|fed| - 1] <= w.disk.rows[|w.disk.rows| - 1]
  {
    var fed := w.live.value.bank.value.fed;
    assert Holds(w.disk.rows, fed[|fed| - 1]);
    HeldWithin(w.disk.rows, fed[|fed| - 1]);
  }

  /** The next tick finds the counted rows again. */
  lemma {:induction false} MarkOverlaps(s: Setup, w: World) returns (frame: seq<int>)
    requires CountsUnread(w)
    ensures var fed, after := w.live.value.bank.value.fed, Next(s, w, Do(Mark));
            && frame != [] && Holds(frame, fed[|fed| - 1]) && frame[0] <= fed[|fed| - 1]
            && after.live.Some? && after.live.value.phase == Marked(frame)
            && after.live.value.bank == w.live.value.bank && after.live.value.open == w.live.value.open
            && after.disk == w.disk.(lastSeen := LastRow(frame)) && after.absorbed == w.absorbed
            && fed[|fed| - 1] <= frame[|frame| - 1]
  {
    var fed := w.live.value.bank.value.fed;
    var t := fed[|fed| - 1];
    hide BankOk, AllHeld, Rising, Holds;
    LastIsStored(w);
    SinceIsAfter(w.disk.rows, w.disk.lastSeen, t);
    frame := MarkEffect(s, w);
    hide Since, Act;
    assert Next(s, w, Do(Mark)) == Act(s, w, w.live.value, Mark);
    HeldWithin(frame, t);
    hide Next, CanAct, JournalAgrees;
  }

  lemma {:induction false} HeldWithin(rows: seq<int>, t: int)
    requires Rising(rows) && Holds(rows, t)
    ensures rows != [] && rows[0] <= t <= rows[|rows| - 1]
  {
    var i :| 0 <= i < |rows| && rows[i] == t;
    assert rows[0] <= rows[i] <= rows[|rows| - 1];
  }

  ghost predicate CountedTwice(fed: seq<int>, t: int) { exists i, j :: 0 <= i < j < |fed| && fed[i] == fed[j] == t }

  lemma {:induction false} Twice(fed: seq<int>, frame: seq<int>, t: int)
    requires Holds(fed, t) && Holds(frame, t)
    ensures CountedTwice(fed + frame, t)
  {
    var i :| 0 <= i < |fed| && fed[i] == t;
    var j :| 0 <= j < |frame| && frame[j] == t;
    assert (fed + frame)[i] == t && (fed + frame)[|fed| + j] == t;
  }

  /** Left uncured, the next tick counts a row twice as soon as it scores; failing before that, or crashing, it
      passes the rows over, and the evidence is right again. */
  lemma {:induction false} UncuredTick(s: Setup, w: World, c: Choices)
    requires CountsUnread(w)
    ensures var fed, marked := w.live.value.bank.value.fed, Next(s, w, Do(Mark));
            && EvidenceOnce(Next(s, marked, Do(Abandon))) && EvidenceOnce(Next(s, marked, Crash))
            && marked.live.Some? && marked.live.value.phase.Marked?
            && (MayScore(w.live.value, marked.live.value.phase.frame, c) ==>
                  var scored := Next(s, marked, Do(Process(c.open, c.verdict)));
                  && scored.live.Some? && scored.live.value.bank.Some?
                  && CountedTwice(scored.live.value.bank.value.fed, fed[|fed| - 1]))
  {
    var fed := w.live.value.bank.value.fed;
    var frame := MarkOverlaps(s, w);
    assert Holds(fed, fed[|fed| - 1]);
    Twice(fed, frame, fed[|fed| - 1]);
    hide Since, Holds, AllHeld, CountedTwice, MayProcess;
  }

  /** From an asset never seen before: one stored row, a bootstrap that raises once it was replayed, one tick. */
  lemma {:induction false} RowCountsTwice(s: Setup, t: int)
    ensures var w := World(Disk([t], None, 0, None, []), None, []);
            var es := [Restart(Some(1)), Do(BootstrapRaises([], Some(Bank(1, [t])), None)), Do(Mark), Do(Process(None, Healthy))];
            Initial(w) && Run(s, w, es).live.Some? && Run(s, w, es).live.value.bank == Some(Bank(1, [t, t]))
  {
    var w := World(Disk([t], None, 0, None, []), None, []);
    RunFour(s, w, Restart(Some(1)), Do(BootstrapRaises([], Some(Bank(1, [t])), None)), Do(Mark), Do(Process(None, Healthy)));
    hide Run;
    var w1 := Next(s, w, Restart(Some(1)));
    assert Holds([t], [t][0]);
    assert AllHeld([t], [t]);
    var w2 := Next(s, w1, Do(BootstrapRaises([], Some(Bank(1, [t])), None)));
    assert w2 == World(Disk([t], None, 0, None, []), Some(Live(None, 0, Some(Bank(1, [t])), None, Idle)), []);
    assert Since([t], None) == [t];
    var w3 := Next(s, w2, Do(Mark));
    assert w3 == World(Disk([t], Some(t), 0, None, []), Some(Live(Some(t), 0, Some(Bank(1, [t])), None, Marked([t]))), []);
    assert [t] + [t] == [t, t];
  }

  // ---- an episode left open from before the last absorption ------------------------------------------------

  /** Such an episode is absorbed by the first tick that names it a change once it is ripe, however soon after the
      last absorption that is. */
  lemma {:induction false} OldOnsetIsAbsorbed(s: Setup, w: World, frame: seq<int>, note: string, sig: Option<int>)
    requires w.live.Some? && w.live.value.phase == Idle && w.live.value.bank.Some?
    requires frame == Since(w.disk.rows, w.live.value.lastSeen) && frame != []
    requires w.live.value.open.Some? && Ripe(w.live.value.open.value, frame[|frame| - 1])
    ensures var o := w.live.value.open;
            Run(s, w, [Do(Mark), Do(Process(o, Change)), Do(Absorb(note, sig))]).absorbed
            == w.absorbed + [Absorption(o.value, frame[|frame| - 1])]
  {
    var o := w.live.value.open;
    RunThree(s, w, Do(Mark), Do(Process(o, Change)), Do(Absorb(note, sig)));
    hide Run, Since;
  }

  /** A tick that absorbs and recalibrates, step by step. */
  lemma {:induction false} AbsorbingSteps(s: Setup, w: World, l: Live, frame: seq<int>, c: Choices)
    requires w.live == Some(l) && l.phase == Idle && l.bank.Some? && l.open.None?
    requires frame == Since(w.disk.rows, l.lastSeen) && frame != [] && c.open.Some? && Holds(frame, c.open.value)
    requires c.verdict == Change && Ripe(c.open.value, frame[|frame| - 1])
    ensures var o, now := c.open.value, frame[|frame| - 1];
            Run(s, w, [Do(Mark), Do(Process(c.open, c.verdict)), Do(Absorb(c.note, c.absorbSig))])
            == World(w.disk.(lastSeen := Some(now), episodes := w.disk.episodes + [Episode(s.asset, o, At(now), ChangeNotFault, c.note)]),
                     Some(Live(Some(now), l.ticks, Fresh(c.absorbSig), None, Governed(true))), w.absorbed + [Absorption(o, now)])
  {
    RunThree(s, w, Do(Mark), Do(Process(c.open, c.verdict)), Do(Absorb(c.note, c.absorbSig)));
    hide Run, Since, Holds;
  }

  lemma {:induction false} ClosingSteps(s: Setup, w: World, l: Live, c: Choices, sig: int)
    requires w.live == Some(l) && l.phase == Governed(true) && l.bank == Some(Bank(sig, []))
    requires c.rebuildSig == Some(sig) && !c.sick
    ensures Run(s, w, TickEnd(c)) == World(w.disk.(ticks := l.ticks + 1, wealth := l.bank), Some(l.(ticks := l.ticks + 1, phase := Idle)), w.absorbed)
  {
    RunFour(s, w, Do(Bump), Do(Rebuild(c.rebuildSig)), Do(Immune(c.sick, c.immuneSig)), Do(Save));
    hide Run;
  }

  const FIRST_ROWS: seq<int> := [0, 100, 1000000]
  const MORE_ROWS: seq<int> := [0, 100, 1000000, 1000001]

  /** An asset whose first tick absorbs a change that began at its second row. */
  function Unseen(): World { World(Disk(FIRST_ROWS, None, 0, None, []), None, []) }

  function FirstChoices(): Choices { Choices(Some(100), Change, "", Some(1), Some(1), false, Some(1)) }

  function Known(s: Setup): seq<Episode> { [Episode(s.asset, 100, At(1000000), ChangeNotFault, "")] }

  function Absorbed(s: Setup): World {
    World(Disk(FIRST_ROWS, Some(1000000), 1, Some(Bank(1, [])), Known(s)),
          Some(Live(Some(1000000), 1, Some(Bank(1, [])), None, Idle)), [Absorption(100, 1000000)])
  }

  lemma {:induction false} FirstAbsorption(s: Setup)
    ensures Run(s, Unseen(), [Restart(Some(1))] + ScoredTick(FirstChoices())) == Absorbed(s)
  {
    var c, l := FirstChoices(), Live(None, 0, Some(Bank(1, [])), None, Idle);
    var first := [Do(Mark), Do(Process(c.open, c.verdict)), Do(Absorb(c.note, c.absorbSig))];
    RunConcat(s, Unseen(), [Restart(Some(1))], ScoredTick(c));
    RunOne(s, Unseen(), Restart(Some(1)));
    var w1 := Next(s, Unseen(), Restart(Some(1)));
    assert w1 == Unseen().(live := Some(l));
    hide Run, Next, TickEnd, Since;
    RunConcat(s, w1, first, TickEnd(c));
    AllSince(FIRST_ROWS);
    assert Holds(FIRST_ROWS, FIRST_ROWS[1]);
    AbsorbingSteps(s, w1, l, FIRST_ROWS, c);
    ClosingSteps(s, Run(s, w1, first), l.(lastSeen := Some(1000000), phase := Governed(true)), c, 1);
  }

  lemma {:induction false} AllSince(rows: seq<int>)
    ensures Since(rows, None) == rows
  {
    if rows != [] {
      AllSince(rows[1..]);
    }
  }

  /** On from there: a bootstrap replays the one row before that episode and raises with an episode open at it; then
      another row arrives. */
  lemma {:induction false} OldRowReplayed(s: Setup)
    ensures Run(s, Absorbed(s), [Do(BootstrapRaises(Known(s), Some(Bank(1, [0])), Some(0))), Append(MORE_ROWS)])
         == World(Absorbed(s).disk.(rows := MORE_ROWS), Some(Live(Some(1000000), 1, Some(Bank(1, [0])), Some(0), Idle)),
                  [Absorption(100, 1000000)])
  {
    var raise := Do(BootstrapRaises(Known(s), Some(Bank(1, [0])), Some(0)));
    RunTwo(s, Absorbed(s), raise, Append(MORE_ROWS));
    hide Run;
    assert Holds(FIRST_ROWS, FIRST_ROWS[0]);
    OneRowMore(FIRST_ROWS, MORE_ROWS);
    hide Extends, Known;
  }

  /** The next tick absorbs that one too, a second after the first. */
  lemma {:induction false} AbsorptionsTooClose(s: Setup)
    ensures Initial(Unseen())
    ensures Run(s, Unseen(), ([Restart(Some(1))] + ScoredTick(FirstChoices()))
                             + ([Do(BootstrapRaises(Known(s), Some(Bank(1, [0])), Some(0))), Append(MORE_ROWS)]
                                + [Do(Mark), Do(Process(Some(0), Change)), Do(Absorb("", Some(1)))])).absorbed
         == [Absorption(100, 1000000), Absorption(0, 1000001)]
  {
    var first := [Restart(Some(1))] + ScoredTick(FirstChoices());
    var raised := [Do(BootstrapRaises(Known(s), Some(Bank(1, [0])), Some(0))), Append(MORE_ROWS)];
    var last := [Do(Mark), Do(Process(Some(0), Change)), Do(Absorb("", Some(1)))];
    assert Initial(Unseen());
    FirstAbsorption(s);
    OldRowReplayed(s);
    hide Unseen, Known, FirstChoices, ScoredTick, Absorbed;
    RunConcat(s, Unseen(), first, raised + last);
    RunConcat(s, Absorbed(s), raised, last);
    OneRowMore(FIRST_ROWS, MORE_ROWS);
    hide Run, Next, Since;
    OldOnsetIsAbsorbed(s, Run(s, Absorbed(s), raised), [1000001], "", Some(1));
  }

  lemma {:induction false} OneRowMore(rows: seq<int>, more: seq<int>)
    requires rows == [0, 100, 1000000] && more == [0, 100, 1000000, 1000001]
    ensures Extends(rows, more) && Since(more, Some(1000000)) == [1000001]
  {
    forall i | 0 <= i < |rows|
      ensures Holds(more, rows[i])
    {
      assert more[i] == rows[i];
    }
    assert more[1..] == [100, 1000000, 1000001] && more[1..][1..] == [1000000, 1000001] && more[1..][1..][1..] == [1000001];
    assert Since([1000001], Some(1000000)) == [1000001];
    assert Since([1000000, 1000001], Some(1000000)) == [1000001];
    assert Since([100, 1000000, 1000001], Some(1000000)) == [1000001];
  }
}
