/** Episodes of an asset. */
module Episodes {
  // Opened at the onset of an alarm, named by shape, closed by the governed re-anchor.

  import opened IntMath
  import opened Ledgers
  import opened Results
  import opened Robust
  import opened Verdicts

  const CHANGE_CONCENTRATION_MAX := 0.4
  const ONSET_WINDOW: nat := 64

  datatype Shape = Drift | Step | Noisy

  /** The parts of the system an episode does not decide: calibration on an asset's own episodes (audited or not,
      recent periods included or not), the scorer, the banks, the evidence and attribution they give for a
      frame, the shape of a score segment, its concentration, and the note an episode carries. */
  datatype Env<!M> = Env(
    calibrate: (seq<Episode>, bool, bool) -> Option<M>,
    score: (M, seq<int>) -> seq<real>,
    advance: (M, seq<int>) -> (M, Level),
    shape: seq<real> -> Shape,
    concentration: (M, seq<int>) -> real,
    grounds: (M, seq<int>) -> (real, seq<string>),
    note: (Verdict, seq<real>) -> string)

  /** A scorer scores at most every row it is given. */
  ghost predicate ScoresRows<M(!new)>(env: Env<M>) {
    forall m, rows :: |env.score(m, rows)| <= |rows|
  }

  // ---- where an episode starts ---------------------------------------------------------------

  function FirstHot(hot: seq<bool>): Option<nat> {
    if hot == [] then None
    else if hot[0] then Some(0)
    else
      var r := FirstHot(hot[1..]);
      if r.Some? then Some(r.value + 1) else None
  }

  lemma {:induction false} FirstHotIsFirst(hot: seq<bool>)
    ensures FirstHot(hot).None? ==> forall i :: 0 <= i < |hot| ==> !hot[i]
    ensures FirstHot(hot).Some? ==> FirstHot(hot).value < |hot| && hot[FirstHot(hot).value]
    ensures FirstHot(hot).Some? ==> forall i :: 0 <= i < FirstHot(hot).value ==> !hot[i]
  {
    if hot != [] && !hot[0] {
      FirstHotIsFirst(hot[1..]);
      assert forall i :: 1 <= i < |hot| ==> hot[i] == hot[1..][i - 1];
    }
  }

  /** Index of the onset row: the first hot window when that is not the first window, else row 0. */
  function OnsetRow(scores: seq<real>): nat {
    if |scores| < 2 * ONSET_WINDOW then 0
    else
      var first := FirstHot(HotBlocks(scores, ONSET_WINDOW));
      if first.Some? && first.value > 0 then first.value * ONSET_WINDOW else 0
  }

  lemma {:induction false} OnsetRowIsScored(scores: seq<real>)
    ensures OnsetRow(scores) == 0 || OnsetRow(scores) < |scores|
    ensures OnsetRow(scores) > 0 ==>
              |scores| >= 2 * ONSET_WINDOW && FirstHot(HotBlocks(scores, ONSET_WINDOW)) == Some(OnsetRow(scores) / ONSET_WINDOW)
  {
    if |scores| >= 2 * ONSET_WINDOW {
      var hot := HotBlocks(scores, ONSET_WINDOW);
      FirstHotIsFirst(hot);
      var first := FirstHot(hot);
      if first.Some? {
        DivAtLeast(|scores|, ONSET_WINDOW, first.value + 1);
        DivUnique(first.value * ONSET_WINDOW, ONSET_WINDOW, first.value, 0);
      }
    }
  }

  ghost predicate IsFirstHot(hot: seq<bool>, i: nat) {
    i < |hot| && hot[i] && forall j :: 0 <= j < i ==> !hot[j]
  }

  /** In blocks of 64 scores: the onset is the first hot block's first row, and row 0 on fewer than 128 scores or
      where no block is hot. */
  lemma {:induction false} OnsetIsFirstHot(scores: seq<real>, i: nat)
    ensures |scores| < 128 ==> OnsetRow(scores) == 0
    ensures |scores| >= 128 && IsFirstHot(HotBlocks(scores, 64), i) ==> OnsetRow(scores) == i * 64
    ensures |scores| >= 128 && (forall j :: 0 <= j < |HotBlocks(scores, 64)| ==> !HotBlocks(scores, 64)[j]) ==>
              OnsetRow(scores) == 0
  {
    if |scores| >= 128 {
      var hot := HotBlocks(scores, ONSET_WINDOW);
      FirstHotIsFirst(hot);
      hide HotBlocks, FirstHot;
      if IsFirstHot(hot, i) {
        assert FirstHot(hot) == Some(i);
      }
    }
  }

  function OnsetTs(frame: seq<int>, scores: seq<real>): Option<int>
    requires |scores| <= |frame|
  {
    OnsetRowIsScored(scores);
    if frame == [] then None else Some(frame[OnsetRow(scores)])
  }

  // ---- what an alarm is called ----------------------------------------------------------------

  function EnrichState(shape: Shape, concentration: real): State {
    if shape == Step && concentration < CHANGE_CONCENTRATION_MAX then Change
    else if shape == Drift then Escalating
    else Alarm
  }

  predicate AlarmLike(s: State) { s == Alarm || s == Escalating || s == Change }

  // ---- the monitor state ----------------------------------------------------------------------

  /** monitor is None while calibration is insufficient; open is the start of the open episode. */
  datatype Em<+M> = Em(monitor: Option<M>, open: Option<int>, scores: seq<real>, lastTs: int)

  function LastOf(frame: seq<int>, otherwise: int): int {
    if frame == [] then otherwise else frame[|frame| - 1]
  }

  function ProcessStep<M(!new)>(env: Env<M>, em: Em<M>, frame: seq<int>): (Em<M>, Verdict)
    requires ScoresRows(env)
  {
    var last := LastOf(frame, em.lastTs);
    match em.monitor
    case None => (em.(lastTs := last), Verdict(Insufficient, 0.0, []))
    case Some(m) =>
      var s := env.score(m, frame);
      var (m', level) := env.advance(m, frame);
      var (evidence, channels) := env.grounds(m', frame);
      if level == AlarmLevel then
        var open := if em.open.Some? then em.open else OnsetTs(frame, s);
        var segment := em.scores + s;
        (Em(Some(m'), open, segment, last),
         Verdict(EnrichState(env.shape(segment), env.concentration(m', frame)), evidence, channels))
      else
        (em.(monitor := Some(m'), lastTs := last), Verdict(LevelState(level), evidence, channels))
  }

  function ClosingEpisode<M>(env: Env<M>, asset: string, em: Em<M>, last: Verdict): Episode
    requires em.open.Some?
  {
    Episode(asset, em.open.value, At(em.lastTs), if last.state == Change then ChangeNotFault else AlarmEpisode,
            env.note(last, em.scores))
  }

  /** The asset's episodes after a re-anchor: the open one closed, if any. */
  function ReanchoredOwn<M>(env: Env<M>, asset: string, em: Em<M>, own: seq<Episode>, last: Verdict): seq<Episode> {
    if em.open.Some? then own + [ClosingEpisode(env, asset, em, last)] else own
  }

  function ReanchorStep<M>(env: Env<M>, asset: string, em: Em<M>, own: seq<Episode>, last: Verdict): Em<M> {
    Em(env.calibrate(ReanchoredOwn(env, asset, em, own, last), true, last.state == Change), None, [], em.lastTs)
  }

  /** A drift is never reported as a change, so it is never absorbed; a change is a step all channels share. */
  lemma {:induction false} OnlySharedStepsAreChanges<M(!new)>(env: Env<M>, em: Em<M>, frame: seq<int>)
    requires ScoresRows(env)
    ensures var (em', verdict) := ProcessStep(env, em, frame);
            verdict.state == Change <==>
              && em.monitor.Some? && env.advance(em.monitor.value, frame).1 == AlarmLevel
              && env.shape(em'.scores) == Step && env.concentration(em'.monitor.value, frame) < 0.4
    ensures var (em', verdict) := ProcessStep(env, em, frame);
            em.monitor.Some? && env.advance(em.monitor.value, frame).1 == AlarmLevel && env.shape(em'.scores) == Drift ==>
              verdict.state == Escalating
  {
    hide OnsetTs;
  }

  /** An alarm opens an episode at the onset in its frame, unless one is open, and adds its scores to the segment
      the shape is read off; without one both stay as they are. */
  lemma {:induction false} AlarmOpensAtOnset<M(!new)>(env: Env<M>, em: Em<M>, frame: seq<int>)
    requires ScoresRows(env) && em.monitor.Some? && frame != []
    ensures var (em', verdict) := ProcessStep(env, em, frame);
            var scores := env.score(em.monitor.value, frame);
            && (verdict.state in {Alarm, Escalating, Change} <==> env.advance(em.monitor.value, frame).1 == AlarmLevel)
            && em'.lastTs == frame[|frame| - 1] && OnsetRow(scores) < |frame|
            && if verdict.state in {Alarm, Escalating, Change}
               then em'.open == (if em.open.Some? then em.open else Some(frame[OnsetRow(scores)])) && em'.scores == em.scores + scores
               else em'.open == em.open && em'.scores == em.scores
  {
    OnsetRowIsScored(env.score(em.monitor.value, frame));
    hide OnsetRow;
  }

  /** A closed change leaves the fault windows as they were; any other closed episode joins them. */
  lemma {:induction false} OnlyFaultsAreMasked<M>(env: Env<M>, asset: string, em: Em<M>, own: seq<Episode>, last: Verdict)
    requires em.open.Some?
    ensures Faults(ReanchoredOwn(env, asset, em, own, last))
         == Faults(own) + if last.state == Change then [] else [ClosingEpisode(env, asset, em, last)]
  {
    FaultsConcat(own, [ClosingEpisode(env, asset, em, last)]);
  }

  class EpisodicMonitor<M(!new)> {
    const asset: string
    const ledger: EpisodeLedger
    var monitor: Option<M>
    var openEpisodeStart: Option<int>
    var episodeScores: seq<real>
    var lastTs: int

    constructor (key: string, shared: EpisodeLedger, m: Option<M>)
      ensures asset == key && ledger == shared && Now() == Em(m, None, [], 0)
    {
      asset, ledger, monitor, openEpisodeStart, episodeScores, lastTs := key, shared, m, None, [], 0;
    }

    /** The monitor's fields as one value. */
    function Now(): Em<M>
      reads this
    {
      Em(monitor, openEpisodeStart, episodeScores, lastTs)
    }

    method Process(env: Env<M>, frame: seq<int>) returns (verdict: Verdict)
      requires ScoresRows(env)
      modifies this
      ensures (Now(), verdict) == ProcessStep(env, old(Now()), frame)
    {
      lastTs := LastOf(frame, lastTs);
      if monitor.None? {
        return Verdict(Insufficient, 0.0, []);
      }
      var scores := env.score(monitor.value, frame);
      var (m, level) := env.advance(monitor.value, frame);
      var (evidence, channels) := env.grounds(m, frame);
      monitor := Some(m);
      if level == AlarmLevel {
        if openEpisodeStart.None? {
          openEpisodeStart := OnsetTs(frame, scores);
        }
        episodeScores := episodeScores + scores;
        verdict := Verdict(EnrichState(env.shape(episodeScores), env.concentration(m, frame)), evidence, channels);
      } else {
        verdict := Verdict(LevelState(level), evidence, channels);
      }
    }

    /** Closes the open episode into the ledger and recalibrates on the masked lifetime; a change is
        absorbed into the reference, a fault is not. */
    method Reanchor(env: Env<M>, last: Verdict) returns (ok: bool)
      requires ledger.Valid()
      modifies this, ledger
      ensures ledger.Valid()
      ensures Own(ledger.episodes, asset) == ReanchoredOwn(env, asset, old(Now()), old(Own(ledger.episodes, asset)), last)
      ensures Others(ledger.episodes, asset) == old(Others(ledger.episodes, asset))
      ensures |ledger.episodes| == |old(ledger.episodes)| + if old(Now()).open.Some? then 1 else 0
      ensures Now() == ReanchorStep(env, asset, old(Now()), old(Own(ledger.episodes, asset)), last)
      ensures ok <==> Now().monitor.Some?
      ensures monitor == env.calibrate(Own(ledger.episodes, asset), true, last.state == Change)
      ensures old(openEpisodeStart).Some? ==>
                Own(ledger.episodes, asset) == old(Own(ledger.episodes, asset))
                  + [Episode(asset, old(openEpisodeStart.value), At(lastTs),
                             if last.state == Change then ChangeNotFault else AlarmEpisode, env.note(last, old(episodeScores)))]
      ensures openEpisodeStart.None? && episodeScores == [] && lastTs == old(lastTs)
    {
      if openEpisodeStart.Some? {
        var e := ClosingEpisode(env, asset, Now(), last);
        OwnAdd(ledger.episodes, e, asset);
        ledger.Add(e);
      }
      openEpisodeStart, episodeScores := None, [];
      monitor := env.calibrate(Own(ledger.episodes, asset), true, last.state == Change);
      return monitor.Some?;
    }
  }
}
