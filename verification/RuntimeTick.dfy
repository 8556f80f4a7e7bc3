/** One tick of an asset. */
module RuntimeTick {
  // As the runtime performs it, write by write; the run it amounts to; and what a drift does to it.

  import opened Episodes
  import opened BootstrapSpec
  import opened Ledgers
  import opened Results
  import opened Runtimes
  import opened RuntimeRestart
  import opened RuntimeSafety
  import opened Verdicts

  /** What a monitor does with a frame is what a run allows: it keeps an open episode, opens one only on an
      alarm and at a row of the frame, and reports insufficiency while uncalibrated. */
  lemma {:induction false} ProcessIsAllowed<M(!new)>(env: Env<M>, em: Em<M>, frame: seq<int>)
    requires ScoresRows(env) && frame != []
    ensures var (em', verdict) := ProcessStep(env, em, frame);
            MayProcess(em.open, frame, em'.open, verdict.state) && (em.monitor.None? ==> verdict.state == Insufficient)
  {
    ProcessOpens(env, em, frame);
    OnlyAlarmsOpen(env, em, frame);
    hide OnsetTs;
    var em' := ProcessStep(env, em, frame).0;
    if em.open.None? && em'.open.Some? {
      var i :| 0 <= i < |frame| && frame[i] == em'.open.value;
      assert Holds(frame, frame[i]);
    }
  }

  // ---- what a tick comes to ------------------------------------------------------------------------------

  /** Freshly calibrated, or without a bank where that fails. */
  ghost predicate OnFresh(bank: Option<Bank>, sig: Option<int>) {
    bank == if sig.Some? then Some(Bank(sig.value, [])) else None
  }

  /** A change reported at the last of the rows, a 52nd of a year of 31557600 seconds after its onset or later. */
  ghost predicate Plateaued(frame: seq<int>, c: Choices) {
    frame != [] && c.verdict == Change && c.open.Some? && 52 * (frame[|frame| - 1] - c.open.value) >= 31557600
  }

  /** Once in 168 ticks, at the asset's own offset. */
  ghost predicate Scheduled(tick: nat, stagger: nat) { (tick + stagger % 168) % 168 == 0 }

  /** From one idle state to the next, the rows of the frame having been found. The watermark is the frame's last row
      and the tick is counted. A change that has held is closed and ledgered. The bank stands on a fresh calibration
      if the scheduled self-check found it sick; else if a rebuild was scheduled and no episode was open; else if a
      change was absorbed; else it has counted the rows. It is saved where there were rows. */
  ghost predicate Ticked(s: Setup, w: World, frame: seq<int>, c: Choices, after: World)
    requires w.live.Some?
  {
    && after.live.Some? && after.live.value.phase == Idle && after.disk.rows == w.disk.rows
    && after.disk.ticks == after.live.value.ticks == w.live.value.ticks + 1
    && TickedJournal(w, frame, after) && TickedEpisode(s, w, frame, c, after) && TickedBank(s, w, frame, c, after)
  }

  ghost predicate TickedJournal(w: World, frame: seq<int>, after: World)
    requires w.live.Some? && after.live.Some?
  {
    && after.disk.lastSeen == (if frame == [] then w.disk.lastSeen else Some(frame[|frame| - 1]))
    && after.live.value.lastSeen == (if frame == [] then w.live.value.lastSeen else Some(frame[|frame| - 1]))
    && after.disk.wealth == if frame != [] && after.live.value.bank.Some? then after.live.value.bank else w.disk.wealth
  }

  ghost predicate TickedEpisode(s: Setup, w: World, frame: seq<int>, c: Choices, after: World)
    requires w.live.Some? && after.live.Some?
  {
    if Plateaued(frame, c) then
      && after.live.value.open.None? && after.absorbed == w.absorbed + [Absorption(c.open.value, frame[|frame| - 1])]
      && after.disk.episodes == w.disk.episodes + [Episode(s.asset, c.open.value, At(frame[|frame| - 1]), ChangeNotFault, c.note)]
    else
      && after.live.value.open == (if frame == [] then w.live.value.open else c.open)
      && after.absorbed == w.absorbed && after.disk.episodes == w.disk.episodes
  }

  ghost predicate TickedBank(s: Setup, w: World, frame: seq<int>, c: Choices, after: World)
    requires w.live.Some? && after.live.Some?
  {
    var tick := w.live.value.ticks + 1;
    if Scheduled(tick, s.immuneStagger) && c.sick then OnFresh(after.live.value.bank, c.immuneSig)
    else if Scheduled(tick, s.rebuildStagger) && after.live.value.open.None? then OnFresh(after.live.value.bank, c.rebuildSig)
    else if Plateaued(frame, c) then OnFresh(after.live.value.bank, c.absorbSig)
    else if w.live.value.bank.None? then after.live.value.bank.None?
    else after.live.value.bank == Some(Bank(w.live.value.bank.value.sig, w.live.value.bank.value.fed + frame))
  }

  /** What the steps up to the tick count leave, whether or not there were rows. */
  ghost predicate Begun(s: Setup, w: World, frame: seq<int>, c: Choices, mid: World)
    requires w.live.Some?
  {
    && mid.live.Some? && mid.live.value.phase == Governed(frame != []) && mid.disk.rows == w.disk.rows
    && mid.live.value.ticks == w.live.value.ticks && mid.disk.wealth == w.disk.wealth
    && mid.disk.lastSeen == (if frame == [] then w.disk.lastSeen else Some(frame[|frame| - 1]))
    && mid.live.value.lastSeen == (if frame == [] then w.live.value.lastSeen else Some(frame[|frame| - 1]))
    && TickedEpisode(s, w, frame, c, mid)
    && if Plateaued(frame, c) then OnFresh(mid.live.value.bank, c.absorbSig)
       else if w.live.value.bank.None? then mid.live.value.bank.None?
       else mid.live.value.bank == Some(Bank(w.live.value.bank.value.sig, w.live.value.bank.value.fed + frame))
  }

  lemma {:induction false} IdleBegins(s: Setup, w: World, c: Choices)
    requires w.live.Some? && w.live.value.phase == Idle && Since(w.disk.rows, w.live.value.lastSeen) == []
    ensures Begun(s, w, [], c, Next(s, w, Do(Mark)))
  {
    hide Since;
    if w.live.value.bank.Some? {
      assert w.live.value.bank.value.fed + [] == w.live.value.bank.value.fed;
    }
  }

  lemma {:induction false} ScoredBegins(s: Setup, w: World, frame: seq<int>, c: Choices)
    requires w.live.Some? && w.live.value.phase == Idle && frame == Since(w.disk.rows, w.live.value.lastSeen) && frame != []
    requires MayScore(w.live.value, frame, c)
    ensures Begun(s, w, frame, c, Run(s, w, [Do(Mark), Do(Action.Process(c.open, c.verdict)), Do(Absorb(c.note, c.absorbSig))]))
  {
    hide Since, MayProcess;
    RunThree(s, w, Do(Mark), Do(Action.Process(c.open, c.verdict)), Do(Absorb(c.note, c.absorbSig)));
    hide Run;
  }

  lemma {:induction false} EndTicks(s: Setup, w: World, frame: seq<int>, c: Choices, mid: World)
    requires w.live.Some? && Begun(s, w, frame, c, mid)
    ensures Ticked(s, w, frame, c, Run(s, mid, TickEnd(c)))
  {
    hide Run, TickEnd;
    EndState(s, mid, c);
  }

  /** The bank at the end of a tick that has come to the given count. */
  function EndBank(s: Setup, l: Live, tick: nat, c: Choices): Option<Bank> {
    if Due(tick, s.immuneStagger, IMMUNE_EVERY_TICKS) && c.sick then Fresh(c.immuneSig)
    else if Due(tick, s.rebuildStagger, REBUILD_EVERY_TICKS) && l.open.None? then Fresh(c.rebuildSig)
    else l.bank
  }

  lemma {:induction false} EndState(s: Setup, w: World, c: Choices)
    requires w.live.Some? && w.live.value.phase.Governed?
    ensures var l, tick := w.live.value, w.live.value.ticks + 1;
            var bank := EndBank(s, l, tick, c);
            var saved := if l.phase.scored && bank.Some? then bank else w.disk.wealth;
            Run(s, w, TickEnd(c)) == World(w.disk.(ticks := tick, wealth := saved), Some(l.(ticks := tick, bank := bank, phase := Idle)), w.absorbed)
  {
    hide Due, Fresh;
    RunFour(s, w, Do(Bump), Do(Rebuild(c.rebuildSig)), Do(Immune(c.sick, c.immuneSig)), Do(Save));
    hide Run;
  }

  /** Every tick of an idle asset, with new rows or without, comes to exactly that. */
  lemma {:induction false} TickComesTo(s: Setup, w: World, c: Choices)
    requires w.live.Some? && w.live.value.phase == Idle
    requires Since(w.disk.rows, w.live.value.lastSeen) != [] ==> MayScore(w.live.value, Since(w.disk.rows, w.live.value.lastSeen), c)
    ensures var frame := Since(w.disk.rows, w.live.value.lastSeen);
            Ticked(s, w, frame, c, Run(s, w, if frame != [] then ScoredTick(c) else IdleTick(c)))
  {
    hide Ticked, Begun, Run, Next, Since, MayScore;
    var frame := Since(w.disk.rows, w.live.value.lastSeen);
    var first := if frame != [] then [Do(Mark), Do(Action.Process(c.open, c.verdict)), Do(Absorb(c.note, c.absorbSig))] else [Do(Mark)];
    if frame != [] {
      ScoredBegins(s, w, frame, c);
    } else {
      IdleBegins(s, w, c);
      RunOne(s, w, Do(Mark));
    }
    RunConcat(s, w, first, TickEnd(c));
    EndTicks(s, w, frame, c, Run(s, w, first));
  }

  // ---- a drift is never absorbed -------------------------------------------------------------------------

  /** The rows in the store at a tick, the monitor that scores them, and how each calibration would come out. */
  datatype Turn<M> = Turn(rows: seq<int>, monitor: M, note: string, absorbSig: Option<int>, rebuildSig: Option<int>,
                          sick: bool, immuneSig: Option<int>)

  ghost function FrameOf<M>(s: Setup, w: World, t: Turn<M>): seq<int>
    requires w.live.Some?
  {
    Since(Next(s, w, Append(t.rows)).disk.rows, w.live.value.lastSeen)
  }

  /** The state of the monitor and its verdict on the turn's frame. */
  ghost function Judged<M(!new)>(env: Env<M>, s: Setup, w: World, em: Em<M>, t: Turn<M>): (Em<M>, Verdict)
    requires ScoresRows(env) && w.live.Some?
  {
    ProcessStep(env, em.(monitor := Some(t.monitor)), FrameOf(s, w, t))
  }

  ghost function ChoicesOf<M(!new)>(env: Env<M>, s: Setup, w: World, em: Em<M>, t: Turn<M>): Choices
    requires ScoresRows(env) && w.live.Some?
  {
    var (em', verdict) := Judged(env, s, w, em, t);
    Choices(em'.open, verdict.state, t.note, t.absorbSig, t.rebuildSig, t.sick, t.immuneSig)
  }

  /** The tick that finds the turn's rows. */
  ghost function Turned<M(!new)>(env: Env<M>, s: Setup, w: World, em: Em<M>, t: Turn<M>): World
    requires ScoresRows(env) && w.live.Some?
  {
    Run(s, Next(s, w, Append(t.rows)), ScoredTick(ChoicesOf(env, s, w, em, t)))
  }

  /** The turn finds new rows, its banks alarm, and the surprise since the episode began has the shape of a drift. */
  ghost predicate Drifts<M(!new)>(env: Env<M>, s: Setup, w: World, em: Em<M>, t: Turn<M>)
    requires ScoresRows(env)
  {
    && w.live.Some? && w.live.value.phase == Idle && w.live.value.bank.Some? && FrameOf(s, w, t) != []
    && env.advance(t.monitor, FrameOf(s, w, t)).1 == AlarmLevel
    && env.shape(Judged(env, s, w, em, t).0.scores) == Drift
  }

  ghost predicate KeepsDrifting<M(!new)>(env: Env<M>, s: Setup, w: World, em: Em<M>, turns: seq<Turn<M>>)
    requires ScoresRows(env)
    decreases |turns|
  {
    turns != [] ==>
      Drifts(env, s, w, em, turns[0])
      && KeepsDrifting(env, s, Turned(env, s, w, em, turns[0]), Judged(env, s, w, em, turns[0]).0, turns[1..])
  }

  ghost function AllTurned<M(!new)>(env: Env<M>, s: Setup, w: World, em: Em<M>, turns: seq<Turn<M>>): World
    requires ScoresRows(env) && KeepsDrifting(env, s, w, em, turns)
    decreases |turns|
  {
    if turns == [] then w
    else AllTurned(env, s, Turned(env, s, w, em, turns[0]), Judged(env, s, w, em, turns[0]).0, turns[1..])
  }

  lemma {:induction false} TickKeepsEpisode(s: Setup, w: World, c: Choices, frame: seq<int>)
    requires w.live.Some? && w.live.value.phase == Idle && w.live.value.bank.Some?
    requires frame == Since(w.disk.rows, w.live.value.lastSeen) && frame != []
    requires MayProcess(w.live.value.open, frame, c.open, c.verdict) && c.open.Some? && c.verdict != Change
    ensures var after := Run(s, w, ScoredTick(c));
            && after.disk.episodes == w.disk.episodes && after.absorbed == w.absorbed
            && after.live.Some? && after.live.value.phase == Idle && after.live.value.open == c.open
            && after.live.value.ticks == w.live.value.ticks + 1
            && (after.live.value.bank == Some(Bank(w.live.value.bank.value.sig, w.live.value.bank.value.fed + frame))
                <==> !(Due(w.live.value.ticks + 1, s.immuneStagger, IMMUNE_EVERY_TICKS) && c.sick))
  {
    hide Since, MayProcess;
    var first := [Do(Mark), Do(Action.Process(c.open, c.verdict)), Do(Absorb(c.note, c.absorbSig))];
    var l := w.live.value;
    RunThree(s, w, Do(Mark), Do(Action.Process(c.open, c.verdict)), Do(Absorb(c.note, c.absorbSig)));
    var scored := Run(s, w, first);
    hide Run;
    assert scored.disk.episodes == w.disk.episodes && scored.absorbed == w.absorbed;
    assert scored.live == Some(Live(LastRow(frame), l.ticks, Some(Bank(l.bank.value.sig, l.bank.value.fed + frame)), c.open, Governed(true)));
    RunConcat(s, w, first, TickEnd(c));
    EndKeepsEpisode(s, scored, c);
  }

  lemma {:induction false} EndKeepsEpisode(s: Setup, w: World, c: Choices)
    requires w.live.Some? && w.live.value.phase.Governed? && w.live.value.open.Some?
    ensures var after := Run(s, w, TickEnd(c));
            && after.disk.episodes == w.disk.episodes && after.absorbed == w.absorbed
            && after.live.Some? && after.live.value.phase == Idle && after.live.value.open == w.live.value.open
            && after.live.value.ticks == w.live.value.ticks + 1
            && after.live.value.bank == if Due(w.live.value.ticks + 1, s.immuneStagger, IMMUNE_EVERY_TICKS) && c.sick then Fresh(c.immuneSig)
                                        else w.live.value.bank
  {
    RunFour(s, w, Do(Bump), Do(Rebuild(c.rebuildSig)), Do(Immune(c.sick, c.immuneSig)), Do(Save));
    hide Run;
  }

  /** One tick of a drift closes and absorbs nothing, and its bank counts the new rows on the reference it had, exactly
      unless a self-check is due and finds the model sick: that one rebuilds whatever evidence has accumulated. */
  lemma {:induction false} DriftTurn<M(!new)>(env: Env<M>, s: Setup, w: World, em: Em<M>, t: Turn<M>)
    requires ScoresRows(env) && Drifts(env, s, w, em, t) && w.live.value.open == em.open
    ensures var after, em' := Turned(env, s, w, em, t), Judged(env, s, w, em, t).0;
            && after.disk.episodes == w.disk.episodes && after.absorbed == w.absorbed
            && after.live.Some? && after.live.value.phase == Idle && after.live.value.open == em'.open
            && em'.open.Some? && (em.open.Some? ==> em'.open == em.open)
            && (after.live.value.bank == Some(Bank(w.live.value.bank.value.sig, w.live.value.bank.value.fed + FrameOf(s, w, t)))
                <==> !(Due(w.live.value.ticks + 1, s.immuneStagger, IMMUNE_EVERY_TICKS) && t.sick))
  {
    var frame, scorer := FrameOf(s, w, t), em.(monitor := Some(t.monitor));
    ProcessIsAllowed(env, scorer, frame);
    OnlySharedStepsAreChanges(env, scorer, frame);
    AlarmOpens(env, scorer, frame);
    hide ProcessStep, Since, MayProcess;
    TickKeepsEpisode(s, Next(s, w, Append(t.rows)), ChoicesOf(env, s, w, em, t), frame);
  }

  lemma {:induction false} AlarmOpens<M(!new)>(env: Env<M>, em: Em<M>, frame: seq<int>)
    requires ScoresRows(env) && frame != [] && em.monitor.Some? && env.advance(em.monitor.value, frame).1 == AlarmLevel
    ensures var em' := ProcessStep(env, em, frame).0; em'.open.Some? && (em.open.Some? ==> em'.open == em.open)
  {
    hide OnsetTs;
    OnsetIsARow(frame, env.score(em.monitor.value, frame));
  }

  /** However long a drift lasts, no tick absorbs it or closes its episode; and unless a self-check finds the model
      sick, none rebuilds the reference it is measured against: the bank goes on counting every row. */
  lemma {:induction false} DriftIsNeverAbsorbed<M(!new)>(env: Env<M>, s: Setup, w: World, em: Em<M>, turns: seq<Turn<M>>)
    requires ScoresRows(env) && KeepsDrifting(env, s, w, em, turns) && turns != [] && w.live.value.open == em.open
    ensures var after := AllTurned(env, s, w, em, turns);
            && after.disk.episodes == w.disk.episodes && after.absorbed == w.absorbed
            && after.live.Some? && after.live.value.open.Some? && (em.open.Some? ==> after.live.value.open == em.open)
            && ((forall i :: 0 <= i < |turns| ==> !turns[i].sick) ==>
                  var before, now := w.live.value.bank.value, after.live.value.bank;
                  now.Some? && now.value.sig == before.sig && before.fed <= now.value.fed)
    decreases |turns|
  {
    DriftTurn(env, s, w, em, turns[0]);
    hide Turned, Judged, Drifts;
    if |turns| > 1 {
      DriftIsNeverAbsorbed(env, s, Turned(env, s, w, em, turns[0]), Judged(env, s, w, em, turns[0]).0, turns[1..]);
    }
  }

  // ---- the runtime of one asset ----------------------------------------------------------------------------

  class AssetRuntime {
    const setup: Setup
    // the raw store, the state store and the ledger
    var rows: seq<int>
    var storedLastSeen: Option<int>
    var storedTicks: nat
    var storedWealth: Option<Bank>
    var episodes: seq<Episode>
    // memory
    var lastSeen: Option<int>
    var tickCount: nat
    var bank: Option<Bank>
    var openEpisodeStart: Option<int>
    ghost var phase: Phase
    ghost var absorbed: seq<Absorption>

    /** The fields as one state of a run. */
    ghost function Now(): World
      reads this
    {
      World(Disk(rows, storedLastSeen, storedTicks, storedWealth, episodes),
            Some(Live(lastSeen, tickCount, bank, openEpisodeStart, phase)), absorbed)
    }

    /** A process that finds an asset's store and journal and calibrates to the given signature. */
    constructor (s: Setup, disk: Disk, sig: Option<int>, ghost before: seq<Absorption>)
      ensures setup == s && Now() == Next(s, World(disk, None, before), Restart(sig))
    {
      setup := s;
      rows, storedLastSeen, storedTicks := disk.rows, disk.lastSeen, disk.ticks;
      storedWealth, episodes := disk.wealth, disk.episodes;
      lastSeen, tickCount := disk.lastSeen, disk.ticks;
      bank := Restored(sig, disk.wealth);
      openEpisodeStart, phase, absorbed := None, Idle, before;
    }

    method SetLastSeen(value: Option<int>)
      modifies this`lastSeen, this`storedLastSeen
      ensures lastSeen == storedLastSeen == value
    {
      lastSeen := value;
      storedLastSeen := value;
    }

    method ReadNewRows() returns (frame: seq<int>)
      requires phase == Idle
      modifies this`lastSeen, this`storedLastSeen, this`phase
      ensures frame == Since(rows, old(lastSeen))
      ensures Now() == Next(setup, old(Now()), Do(Mark))
    {
      frame := Since(rows, lastSeen);
      if frame == [] {
        phase := Governed(false);
      } else {
        SetLastSeen(LastRow(frame));
        phase := Marked(frame);
      }
    }

    method Process(frame: seq<int>, c: Choices)
      requires phase == Marked(frame) && frame != [] && MayProcess(openEpisodeStart, frame, c.open, c.verdict)
      requires bank.None? ==> c.verdict == Insufficient
      modifies this`bank, this`openEpisodeStart, this`phase
      ensures phase == Scored(c.verdict, frame[|frame| - 1])
      ensures Now() == Next(setup, old(Now()), Do(Action.Process(c.open, c.verdict)))
    {
      if bank.Some? {
        bank := Some(Bank(bank.value.sig, bank.value.fed + frame));
      }
      openEpisodeStart := c.open;
      phase := Scored(c.verdict, frame[|frame| - 1]);
    }

    /** Absorbs a change whose plateau has held for an anchor period: closes its episode and recalibrates. */
    method AbsorbIfRipe(verdict: State, now: int, c: Choices) returns (did: bool)
      requires phase == Scored(verdict, now)
      modifies this`episodes, this`bank, this`openEpisodeStart, this`phase, this`absorbed
      ensures did <==> DueForAbsorption(old(openEpisodeStart), verdict, now)
      ensures phase == Governed(true)
      ensures Now() == Next(setup, old(Now()), Do(Absorb(c.note, c.absorbSig)))
    {
      did := DueForAbsorption(openEpisodeStart, verdict, now);
      if did {
        episodes := episodes + [Episode(setup.asset, openEpisodeStart.value, At(now), ChangeNotFault, c.note)];
        absorbed := absorbed + [Absorption(openEpisodeStart.value, now)];
        openEpisodeStart := None;
        bank := Fresh(c.absorbSig);
      }
      phase := Governed(true);
    }

    method BumpTickCount()
      requires phase.Governed?
      modifies this`tickCount, this`storedTicks, this`phase
      ensures phase == Counted(old(phase).scored)
      ensures Now() == Next(setup, old(Now()), Do(Bump))
    {
      tickCount := tickCount + 1;
      storedTicks := tickCount;
      phase := Counted(phase.scored);
    }

    /** The scheduled rebuild, never while an episode is open. */
    method RebuildIfScheduled(c: Choices)
      requires phase.Counted?
      modifies this`bank, this`phase
      ensures phase == Rebuilt(old(phase).scored)
      ensures Now() == Next(setup, old(Now()), Do(Rebuild(c.rebuildSig)))
    {
      if (tickCount + setup.rebuildStagger % REBUILD_EVERY_TICKS) % REBUILD_EVERY_TICKS == 0 && openEpisodeStart.None? {
        bank := Fresh(c.rebuildSig);
      }
      phase := Rebuilt(phase.scored);
    }

    /** The scheduled self-check; a sick model is rebuilt at once. */
    method ImmunePassIfScheduled(c: Choices)
      requires phase.Rebuilt?
      modifies this`bank, this`phase
      ensures phase == Checked(old(phase).scored)
      ensures Now() == Next(setup, old(Now()), Do(Immune(c.sick, c.immuneSig)))
    {
      if (tickCount + setup.immuneStagger % IMMUNE_EVERY_TICKS) % IMMUNE_EVERY_TICKS == 0 && c.sick {
        bank := Fresh(c.immuneSig);
      }
      phase := Checked(phase.scored);
    }

    method SaveWealthIfScored(scored: bool)
      requires phase == Checked(scored)
      modifies this`storedWealth, this`phase
      ensures phase == Idle
      ensures Now() == Next(setup, old(Now()), Do(Save))
    {
      if scored && bank.Some? {
        storedWealth := bank;
      }
      phase := Idle;
    }

    /** One tick is a run of the steps between its durable writes; it scores exactly the rows after the
        watermark, and leaves a state in which no row is counted twice and absorptions are spaced. */
    method Tick(c: Choices) returns (scored: bool)
      requires phase == Idle
      requires Since(rows, lastSeen) != [] ==> MayScore(Now().live.value, Since(rows, lastSeen), c)
      modifies this
      ensures scored <==> Since(old(rows), old(lastSeen)) != []
      ensures Now() == Run(setup, old(Now()), if scored then ScoredTick(c) else IdleTick(c))
      ensures Ticked(setup, old(Now()), Since(old(rows), old(lastSeen)), c, Now())
      ensures phase == Idle
      ensures old(JournalAgrees(Now()) && EvidenceOnce(Now()) && AbsorptionsSpaced(Now()))
          ==> JournalAgrees(Now()) && EvidenceOnce(Now()) && AbsorptionsSpaced(Now())
    {
      hide Since, Next, Run, MayProcess, Ticked, JournalAgrees, EvidenceOnce, AbsorptionsSpaced;
      ghost var w := Now();
      TickComesTo(setup, w, c);
      ghost var es := [Do(Mark)];
      var frame := ReadNewRows();
      RunOne(setup, w, Do(Mark));
      scored := frame != [];
      if scored {
        MarkedAt(setup, w, frame);
        ghost var w1 := Now();
        Process(frame, c);
        var _ := AbsorbIfRipe(c.verdict, frame[|frame| - 1], c);
        RunThree(setup, w, Do(Mark), Do(Action.Process(c.open, c.verdict)), Do(Absorb(c.note, c.absorbSig)));
        es := [Do(Mark), Do(Action.Process(c.open, c.verdict)), Do(Absorb(c.note, c.absorbSig))];
      } else {
        MarkedAt(setup, w, frame);
      }
      FinishTick(c, scored);
      hide TickEnd;
      RunConcat(setup, w, es, TickEnd(c));
      TickKeepsSound(setup, w, c, scored);
    }

    /** The steps of a tick from its count on. */
    method FinishTick(c: Choices, scored: bool)
      requires phase == Governed(scored)
      modifies this`tickCount, this`storedTicks, this`bank, this`storedWealth, this`phase
      ensures phase == Idle
      ensures Now() == Run(setup, old(Now()), TickEnd(c))
    {
      hide Next, Run;
      ghost var w := Now();
      BumpTickCount();
      RebuildIfScheduled(c);
      ImmunePassIfScheduled(c);
      SaveWealthIfScored(scored);
      RunFour(setup, w, Do(Bump), Do(Rebuild(c.rebuildSig)), Do(Immune(c.sick, c.immuneSig)), Do(Save));
    }
  }

  lemma {:induction false} TickKeepsSound(s: Setup, w: World, c: Choices, scored: bool)
    ensures JournalAgrees(w) && EvidenceOnce(w) && AbsorptionsSpaced(w) ==>
              var after := Run(s, w, if scored then ScoredTick(c) else IdleTick(c));
              JournalAgrees(after) && EvidenceOnce(after) && AbsorptionsSpaced(after)
  {
    hide Run, JournalAgrees, EvidenceOnce, AbsorptionsSpaced;
    var es := if scored then ScoredTick(c) else IdleTick(c);
    if JournalAgrees(w) && EvidenceOnce(w) && AbsorptionsSpaced(w) {
      WithoutRaises(s, w, es);
      JournalOverRuns(s, w, es);
      NoRowCountsTwice(s, w, es);
      SpacingOverRuns(s, w, es);
    }
  }

  lemma {:induction false} MarkedAt(s: Setup, w: World, frame: seq<int>)
    requires w.live.Some? && w.live.value.phase == Idle && frame == Since(w.disk.rows, w.live.value.lastSeen)
    ensures Next(s, w, Do(Mark)).live.Some?
    ensures Next(s, w, Do(Mark)).live.value.phase == if frame == [] then Governed(false) else Marked(frame)
  {
    hide Since;
  }
}
