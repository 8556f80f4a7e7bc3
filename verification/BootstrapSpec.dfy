/** First contact as a function. */
module BootstrapSpec {
  // On the asset's own episodes: detect, mask and re-detect until a pass finds nothing, then calibrate,
  // dropping the widest fault windows if that is what it takes.

  import opened Contamination
  import opened Episodes
  import opened Ledgers
  import opened Results
  import opened Timelines
  import opened Verdicts

  const REPLAY_CHUNK: nat := 4000
  const SCAN_NOTE := "{\"source\": \"bootstrap-scan\"}"

  // ---- detect: contamination scan ---------------------------------------------------------------

  predicate Overlaps(existing: seq<Episode>, w: Window) {
    exists k :: 0 <= k < |existing| && !(w.last < existing[k].start || w.first > WindowEnd(existing[k]))
  }

  function ScanEpisode(asset: string, w: Window): Episode {
    Episode(asset, w.first, At(w.last), AlarmEpisode, SCAN_NOTE)
  }

  /** Episodes for the windows that overlap nothing ledgered before the pass. */
  function ScanAdded(asset: string, windows: seq<Window>, existing: seq<Episode>): seq<Episode> {
    if windows == [] then []
    else if Overlaps(existing, windows[0]) then ScanAdded(asset, windows[1..], existing)
    else [ScanEpisode(asset, windows[0])] + ScanAdded(asset, windows[1..], existing)
  }

  predicate Apart(w: Window, e: Episode) { w.last < e.start || WindowEnd(e) < w.first }

  ghost predicate FromWindow(asset: string, windows: seq<Window>, existing: seq<Episode>, e: Episode, r: nat) {
    && r < |windows| && (forall k :: 0 <= k < |existing| ==> Apart(windows[r], existing[k]))
    && e == Episode(asset, windows[r].first, At(windows[r].last), AlarmEpisode, "{\"source\": \"bootstrap-scan\"}")
  }

  /** What a scan ledgers: an episode for each window that overlaps no episode there is, and nothing else. All of
      them are fault windows. */
  lemma {:induction false} ScanLedgers(asset: string, windows: seq<Window>, existing: seq<Episode>, e: Episode)
    ensures e in ScanAdded(asset, windows, existing) <==> exists r: nat :: FromWindow(asset, windows, existing, e, r)
    ensures e in ScanAdded(asset, windows, existing) ==> IsFault(e)
  {
    if windows != [] {
      ScanLedgers(asset, windows[1..], existing, e);
      var first := FromWindow(asset, windows, existing, e, 0);
      assert !Overlaps(existing, windows[0]) <==> forall k :: 0 <= k < |existing| ==> Apart(windows[0], existing[k]);
      forall r: nat
        ensures FromWindow(asset, windows[1..], existing, e, r) <==> FromWindow(asset, windows, existing, e, r + 1)
      {
      }
      if exists r: nat :: FromWindow(asset, windows, existing, e, r) {
        var r: nat :| FromWindow(asset, windows, existing, e, r);
        assert r > 0 ==> FromWindow(asset, windows[1..], existing, e, r - 1);
      }
    }
  }

  // ---- detect: replay ----------------------------------------------------------------------------

  function ChunkSize(n: nat): nat { if n < REPLAY_CHUNK then n else REPLAY_CHUNK }

  /** Replays the remaining rows chunk by chunk; `last` is the latest alarm verdict not yet closed. */
  function ReplayFrom<M(!new)>(env: Env<M>, asset: string, em: Em<M>, own: seq<Episode>, last: Option<Verdict>, rows: seq<int>)
    : (r: (Em<M>, seq<Episode>))
    requires ScoresRows(env)
    decreases |rows|, 0
  {
    if rows == [] then
      if em.open.Some? && last.Some?
      then (ReanchorStep(env, asset, em, own, last.value), ReanchoredOwn(env, asset, em, own, last.value))
      else (em, own)
    else
      var n := ChunkSize(|rows|);
      var (em1, v) := ProcessStep(env, em, rows[..n]);
      ReplayNext(env, asset, em1, own, last, rows[n..], v)
  }

  /** The rest of the replay once a chunk has given verdict v: an alarm is remembered, and a recovery
      with evidence still latched closes the episode. */
  function ReplayNext<M(!new)>(env: Env<M>, asset: string, em: Em<M>, own: seq<Episode>, last: Option<Verdict>, rest: seq<int>, v: Verdict)
    : (r: (Em<M>, seq<Episode>))
    requires ScoresRows(env)
    decreases |rest|, 1
  {
    if AlarmLike(v.state) then ReplayFrom(env, asset, em, own, Some(v), rest)
    else if em.open.Some? && last.Some? then
      ReplayFrom(env, asset, ReanchorStep(env, asset, em, own, last.value),
                 ReanchoredOwn(env, asset, em, own, last.value), None, rest)
    else ReplayFrom(env, asset, em, own, last, rest)
  }

  // ---- one pass and all passes ---------------------------------------------------------------------

  datatype PassRecord = InsufficientHistory | NewEpisodes(n: nat)

  predicate Conclusive(r: PassRecord) { r == InsufficientHistory || r == NewEpisodes(0) }

  /** The asset's episodes after one pass, and what the pass reports. */
  function PassStep<M(!new)>(env: Env<M>, asset: string, history: seq<int>, own: seq<Episode>)
    : (r: (seq<Episode>, PassRecord))
    requires ScoresRows(env)
  {
    var mon := env.calibrate(own, false, false);
    if mon.None? then (own, InsufficientHistory)
    else
      var unexplained := Masked(history, own);
      if unexplained == [] then (own, NewEpisodes(0))
      else
        var windows := ScanWindows(unexplained, env.score(mon.value, unexplained));
        var scanned := own + ScanAdded(asset, windows, own);
        var after := ReplayFrom(env, asset, Em(mon, None, [], 0), scanned, None, unexplained).1;
        (after, NewEpisodes(if |after| >= |own| then |after| - |own| else 0))
  }

  function Passes<M(!new)>(env: Env<M>, asset: string, history: seq<int>, iters: nat, own: seq<Episode>)
    : (r: (seq<Episode>, seq<PassRecord>))
    requires ScoresRows(env)
    decreases iters
  {
    if iters == 0 then (own, [])
    else
      var (after, record) := PassStep(env, asset, history, own);
      if Conclusive(record) then (after, [record])
      else
        var (final, records) := Passes(env, asset, history, iters - 1, after);
        (final, [record] + records)
  }

  // ---- repair -----------------------------------------------------------------------------------------

  function Span(e: Episode): int { WindowEnd(e) - e.start }

  /** First episode of maximal span. */
  function Widest(eps: seq<Episode>): (k: nat)
    requires eps != []
    ensures k < |eps| && forall i :: 0 <= i < |eps| ==> Span(eps[i]) <= Span(eps[k])
    ensures forall i :: 0 <= i < k ==> Span(eps[i]) < Span(eps[k])
  {
    if |eps| == 1 then 0
    else
      var k := Widest(eps[1..]) + 1;
      assert forall i :: 1 <= i < |eps| ==> eps[i] == eps[1..][i - 1];
      if Span(eps[0]) >= Span(eps[k]) then 0 else k
  }

  lemma {:induction false} FaultsCons(eps: seq<Episode>)
    requires eps != []
    ensures IsFault(eps[0]) ==> Faults(eps) != [] && Faults(eps)[0] == eps[0] && Faults(eps)[1..] == Faults(eps[1..])
    ensures !IsFault(eps[0]) ==> Faults(eps) == Faults(eps[1..])
  {
    assert Faults(eps) == (if IsFault(eps[0]) then [eps[0]] else []) + Faults(eps[1..]);
    if IsFault(eps[0]) {
      assert ([eps[0]] + Faults(eps[1..]))[1..] == Faults(eps[1..]);
    }
  }

  lemma {:induction false} FaultsMember(eps: seq<Episode>, k: nat)
    requires k < |Faults(eps)|
    ensures Faults(eps)[k] in eps && IsFault(Faults(eps)[k])
  {
    FaultsCons(eps);
    if !IsFault(eps[0]) {
      FaultsMember(eps[1..], k);
    } else if k > 0 {
      FaultsMember(eps[1..], k - 1);
      assert Faults(eps)[k] == Faults(eps)[1..][k - 1];
    }
  }

  lemma {:induction false} FaultsRemove(eps: seq<Episode>, e: Episode)
    requires IsFault(e)
    ensures Faults(RemoveFirst(eps, e)) == RemoveFirst(Faults(eps), e)
  {
    if eps != [] {
      FaultsCons(eps);
      if eps[0] != e {
        FaultsRemove(eps[1..], e);
        assert RemoveFirst(eps, e)[1..] == RemoveFirst(eps[1..], e);
        FaultsCons(RemoveFirst(eps, e));
      }
    }
  }

  lemma {:induction false} FaultsShrink(eps: seq<Episode>)
    requires Faults(eps) != []
    ensures IsFault(Faults(eps)[Widest(Faults(eps))])
    ensures |Faults(RemoveFirst(eps, Faults(eps)[Widest(Faults(eps))]))| == |Faults(eps)| - 1
  {
    var k := Widest(Faults(eps));
    FaultsMember(eps, k);
    FaultsRemove(eps, Faults(eps)[k]);
    AbsentStays(Faults(eps), Faults(eps)[k]);
  }

  /** Calibrates; while that fails, drops the widest fault window and tries again. The result is the
      episodes left, those dropped in order, and whether a calibration succeeded. */
  function Repair<M(!new)>(env: Env<M>, own: seq<Episode>): (r: (seq<Episode>, seq<Episode>, bool))
    decreases |Faults(own)|
  {
    if env.calibrate(own, true, false).Some? then (own, [], true)
    else if Faults(own) == [] then (own, [], false)
    else
      FaultsShrink(own);
      var e := Faults(own)[Widest(Faults(own))];
      var (rest, dropped, ok) := Repair(env, RemoveFirst(own, e));
      (rest, [e] + dropped, ok)
  }

  datatype Report = Report(own: seq<Episode>, passes: seq<PassRecord>, dropped: seq<Episode>, ok: bool)

  /** The whole bootstrap of one asset as a function of its own episodes. */
  function RunOwn<M(!new)>(env: Env<M>, asset: string, history: seq<int>, iters: nat, own: seq<Episode>): Report
    requires ScoresRows(env)
  {
    var (found, passes) := Passes(env, asset, history, iters, own);
    var (rest, dropped, ok) := Repair(env, found);
    Report(rest, passes, dropped, ok)
  }

  // ---- every pass explains more of the life -----------------------------------------------------------

  ghost predicate Grounded(e: Episode, rows: seq<int>) { exists i :: 0 <= i < |rows| && Covers(e, rows[i]) }

  ghost predicate AllGrounded(eps: seq<Episode>, rows: seq<int>) {
    forall k :: 0 <= k < |eps| ==> Grounded(eps[k], rows)
  }

  ghost predicate StartsInRows(w: Window, rows: seq<int>) {
    w.first <= w.last && exists i :: 0 <= i < |rows| && rows[i] == w.first
  }

  lemma {:induction false} ScanIsGrounded(asset: string, rows: seq<int>, windows: seq<Window>, existing: seq<Episode>)
    requires forall r :: 0 <= r < |windows| ==> StartsInRows(windows[r], rows)
    ensures AllGrounded(ScanAdded(asset, windows, existing), rows)
  {
    if windows != [] {
      assert forall r :: 0 <= r < |windows[1..]| ==> windows[1..][r] == windows[r + 1];
      ScanIsGrounded(asset, rows, windows[1..], existing);
      assert StartsInRows(windows[0], rows);
      var i :| 0 <= i < |rows| && rows[i] == windows[0].first;
      assert Covers(ScanEpisode(asset, windows[0]), rows[i]);
    }
  }

  /** After the first k rows were replayed: an open episode starts at one of them. */
  ghost predicate OpenInRows<M(!new)>(em: Em<M>, rows: seq<int>, k: nat) {
    && k <= |rows|
    && (k > 0 ==> em.lastTs == rows[k - 1])
    && (em.open.Some? ==> exists i :: 0 <= i < k && rows[i] == em.open.value)
  }

  lemma {:induction false} OnsetIsARow(frame: seq<int>, scores: seq<real>)
    requires |scores| <= |frame| && frame != []
    ensures OnsetTs(frame, scores).Some? && exists i :: 0 <= i < |frame| && frame[i] == OnsetTs(frame, scores).value
  {
    hide OnsetRow;
    OnsetRowIsScored(scores);
    assert frame[OnsetRow(scores)] == OnsetTs(frame, scores).value;
  }

  lemma {:induction false} ProcessOpens<M(!new)>(env: Env<M>, em: Em<M>, frame: seq<int>)
    requires ScoresRows(env) && frame != []
    ensures ProcessStep(env, em, frame).0.lastTs == frame[|frame| - 1]
    ensures em.open.Some? ==> ProcessStep(env, em, frame).0.open == em.open
    ensures ProcessStep(env, em, frame).0.open.Some? ==>
              || ProcessStep(env, em, frame).0.open == em.open
              || exists i :: 0 <= i < |frame| && frame[i] == ProcessStep(env, em, frame).0.open.value
  {
    hide OnsetTs, EnrichState, LevelState;
    if em.monitor.Some? {
      OnsetIsARow(frame, env.score(em.monitor.value, frame));
    }
  }

  lemma {:induction false} ProcessKeepsOpenInRows<M(!new)>(env: Env<M>, em: Em<M>, rows: seq<int>, k: nat, n: nat)
    requires ScoresRows(env) && OpenInRows(em, rows, k) && 1 <= n && k + n <= |rows|
    ensures OpenInRows(ProcessStep(env, em, rows[k..k + n]).0, rows, k + n)
  {
    var frame := rows[k..k + n];
    ProcessOpens(env, em, frame);
    hide ProcessStep, ScoresRows;
    MovesOn(em, ProcessStep(env, em, frame).0, rows, k, frame);
  }

  lemma {:induction false} MovesOn<M(!new)>(em: Em<M>, after: Em<M>, rows: seq<int>, k: nat, frame: seq<int>)
    requires OpenInRows(em, rows, k) && frame != [] && k + |frame| <= |rows| && frame == rows[k..k + |frame|]
    requires after.lastTs == frame[|frame| - 1]
    requires after.open.Some? ==> after.open == em.open || exists i :: 0 <= i < |frame| && frame[i] == after.open.value
    ensures OpenInRows(after, rows, k + |frame|)
  {
    if after.open.Some? {
      if after.open == em.open {
        var i :| 0 <= i < k && rows[i] == em.open.value;
      } else {
        var i :| 0 <= i < |frame| && frame[i] == after.open.value;
        assert rows[k + i] == after.open.value;
      }
    }
  }

  lemma {:induction false} ClosingIsGrounded<M(!new)>(env: Env<M>, asset: string, em: Em<M>, rows: seq<int>, k: nat, last: Verdict)
    requires Rising(rows) && OpenInRows(em, rows, k) && em.open.Some?
    ensures Grounded(ClosingEpisode(env, asset, em, last), rows)
  {
    var i :| 0 <= i < k && rows[i] == em.open.value;
    assert rows[i] <= rows[k - 1];
    assert Covers(ClosingEpisode(env, asset, em, last), rows[i]);
  }

  /** One chunk of the replay of rows[k..]. */
  lemma {:induction false} ReplayChunk<M(!new)>(env: Env<M>, asset: string, em: Em<M>, own: seq<Episode>, last: Option<Verdict>,
                                          rows: seq<int>, k: nat, n: nat)
    requires ScoresRows(env) && k < |rows| && n == ChunkSize(|rows| - k)
    ensures k + n <= |rows|
    ensures ReplayFrom(env, asset, em, own, last, rows[k..])
         == ReplayNext(env, asset, ProcessStep(env, em, rows[k..k + n]).0, own, last, rows[k + n..],
                       ProcessStep(env, em, rows[k..k + n]).1)
  {
    hide ProcessStep, ReanchorStep, ReanchoredOwn;
    assert rows[k..][..n] == rows[k..k + n];
    assert rows[k..][n..] == rows[k + n..];
  }

  lemma {:induction false} ReanchorCloses<M(!new)>(env: Env<M>, asset: string, em: Em<M>, own: seq<Episode>, last: Verdict, rows: seq<int>, k: nat)
    requires em.open.Some? && OpenInRows(em, rows, k)
    ensures ReanchoredOwn(env, asset, em, own, last) == own + [ClosingEpisode(env, asset, em, last)]
    ensures OpenInRows(ReanchorStep(env, asset, em, own, last), rows, k)
  {
    hide ClosingEpisode;
  }

  lemma {:induction false} GroundedConcat(a: seq<Episode>, b: seq<Episode>, rows: seq<int>)
    requires AllGrounded(a, rows) && AllGrounded(b, rows)
    ensures AllGrounded(a + b, rows)
  {
    hide Grounded;
  }

  /** What a replay adds are episodes that each cover a replayed row. */
  lemma {:induction false} ReplayIsGrounded<M(!new)>(env: Env<M>, asset: string, em: Em<M>, own: seq<Episode>, last: Option<Verdict>,
                                               rows: seq<int>, k: nat) returns (added: seq<Episode>)
    requires ScoresRows(env) && Rising(rows) && OpenInRows(em, rows, k)
    ensures ReplayFrom(env, asset, em, own, last, rows[k..]).1 == own + added
    ensures AllGrounded(added, rows)
    decreases |rows| - k
  {
    hide ProcessStep, ReanchorStep, OpenInRows, Grounded, ClosingEpisode, Rising;
    if k >= |rows| {
      assert k == |rows| by { OpenInBounds(em, rows, k); }
      assert rows[k..] == [];
      added := [];
      if em.open.Some? && last.Some? {
        ClosingIsGrounded(env, asset, em, rows, k, last.value);
        added := [ClosingEpisode(env, asset, em, last.value)];
      }
    } else {
      var n := ChunkSize(|rows| - k);
      ReplayChunk(env, asset, em, own, last, rows, k, n);
      var (em1, v) := ProcessStep(env, em, rows[k..k + n]);
      ProcessKeepsOpenInRows(env, em, rows, k, n);
      hide ReplayFrom;
      if AlarmLike(v.state) {
        added := ReplayIsGrounded(env, asset, em1, own, Some(v), rows, k + n);
      } else if em1.open.Some? && last.Some? {
        ClosingIsGrounded(env, asset, em1, rows, k + n, last.value);
        ReanchorCloses(env, asset, em1, own, last.value, rows, k + n);
        var e := ClosingEpisode(env, asset, em1, last.value);
        var more := ReplayIsGrounded(env, asset, ReanchorStep(env, asset, em1, own, last.value), own + [e], None, rows, k + n);
        added := [e] + more;
        GroundedConcat([e], more, rows);
        assert (own + [e]) + more == own + ([e] + more);
      } else {
        added := ReplayIsGrounded(env, asset, em1, own, last, rows, k + n);
      }
    }
  }

  lemma {:induction false} OpenInBounds<M(!new)>(em: Em<M>, rows: seq<int>, k: nat)
    requires OpenInRows(em, rows, k)
    ensures k <= |rows|
  {
  }

  lemma {:induction false} OnlyAlarmsOpen<M(!new)>(env: Env<M>, em: Em<M>, frame: seq<int>)
    requires ScoresRows(env)
    ensures !AlarmLike(ProcessStep(env, em, frame).1.state) ==> ProcessStep(env, em, frame).0.open == em.open
  {
    hide OnsetTs;
  }

  /** A replay leaves no episode open. */
  lemma {:induction false} ReplayCloses<M(!new)>(env: Env<M>, asset: string, em: Em<M>, own: seq<Episode>, last: Option<Verdict>, rows: seq<int>)
    requires ScoresRows(env) && (em.open.Some? ==> last.Some?)
    ensures ReplayFrom(env, asset, em, own, last, rows).0.open.None?
    decreases |rows|
  {
    hide ProcessStep, ReanchoredOwn;
    if rows != [] {
      var n := ChunkSize(|rows|);
      var (em1, v) := ProcessStep(env, em, rows[..n]);
      OnlyAlarmsOpen(env, em, rows[..n]);
      if AlarmLike(v.state) {
        ReplayCloses(env, asset, em1, own, Some(v), rows[n..]);
      } else if em1.open.Some? && last.Some? {
        ReplayCloses(env, asset, ReanchorStep(env, asset, em1, own, last.value), ReanchoredOwn(env, asset, em1, own, last.value),
                     None, rows[n..]);
      } else {
        ReplayCloses(env, asset, em1, own, last, rows[n..]);
      }
    }
  }

  // ---- what a replay ledgers -----------------------------------------------------------------------------

  ghost predicate Ledgered(asset: string, own: seq<Episode>, after: seq<Episode>, start: int) {
    exists k :: |own| <= k < |after| && after[k].asset == asset && after[k].start == start
  }

  /** An episode that is open is ledgered before the replay ends, from its own start. */
  lemma {:induction false} OpenIsLedgered<M(!new)>(env: Env<M>, asset: string, em: Em<M>, own: seq<Episode>, last: Option<Verdict>, rows: seq<int>)
    requires ScoresRows(env) && em.open.Some? && last.Some?
    ensures Ledgered(asset, own, ReplayFrom(env, asset, em, own, last, rows).1, em.open.value)
    decreases |rows|
  {
    hide ProcessStep, ReanchorStep;
    if rows == [] {
      var after := ReanchoredOwn(env, asset, em, own, last.value);
      assert after[|own|].start == em.open.value;
    } else {
      var n := ChunkSize(|rows|);
      var (em1, v) := ProcessStep(env, em, rows[..n]);
      ProcessOpens(env, em, rows[..n]);
      if AlarmLike(v.state) {
        OpenIsLedgered(env, asset, em1, own, Some(v), rows[n..]);
      } else {
        var closed := ReanchoredOwn(env, asset, em1, own, last.value);
        ReplayAppends(env, asset, ReanchorStep(env, asset, em1, own, last.value), closed, None, rows[n..]);
        assert closed[|own|].start == em.open.value;
      }
    }
  }

  lemma {:induction false} ReplayAppends<M(!new)>(env: Env<M>, asset: string, em: Em<M>, own: seq<Episode>, last: Option<Verdict>, rows: seq<int>)
    requires ScoresRows(env)
    ensures own <= ReplayFrom(env, asset, em, own, last, rows).1
    decreases |rows|
  {
    hide ProcessStep, ReanchorStep;
    if rows != [] {
      var n := ChunkSize(|rows|);
      var (em1, v) := ProcessStep(env, em, rows[..n]);
      if AlarmLike(v.state) {
        ReplayAppends(env, asset, em1, own, Some(v), rows[n..]);
      } else if em1.open.Some? && last.Some? {
        ReplayAppends(env, asset, ReanchorStep(env, asset, em1, own, last.value), ReanchoredOwn(env, asset, em1, own, last.value), None, rows[n..]);
      } else {
        ReplayAppends(env, asset, em1, own, last, rows[n..]);
      }
    }
  }

  lemma {:induction false} AlarmsOpen<M(!new)>(env: Env<M>, em: Em<M>, frame: seq<int>)
    requires ScoresRows(env) && frame != []
    ensures AlarmLike(ProcessStep(env, em, frame).1.state) ==> ProcessStep(env, em, frame).0.open.Some?
  {
    hide OnsetRow, EnrichState;
  }

  /** A chunk of at most 4000 rows on which the monitor alarms is ledgered: with the start of the episode that was open, or
      that the alarm opened. */
  lemma {:induction false} AlarmIsLedgered<M(!new)>(env: Env<M>, asset: string, em: Em<M>, own: seq<Episode>, last: Option<Verdict>, rows: seq<int>)
    requires ScoresRows(env) && rows != []
    requires AlarmLike(ProcessStep(env, em, rows[..if |rows| < 4000 then |rows| else 4000]).1.state)
    ensures var after := ProcessStep(env, em, rows[..if |rows| < 4000 then |rows| else 4000]).0;
            && after.open.Some? && (em.open.Some? ==> after.open == em.open)
            && Ledgered(asset, own, ReplayFrom(env, asset, em, own, last, rows).1, after.open.value)
  {
    var n := ChunkSize(|rows|);
    var (em1, v) := ProcessStep(env, em, rows[..n]);
    ProcessOpens(env, em, rows[..n]);
    AlarmsOpen(env, em, rows[..n]);
    hide ProcessStep;
    OpenIsLedgered(env, asset, em1, own, Some(v), rows[n..]);
  }

  // ---- convergence -------------------------------------------------------------------------------------

  lemma {:induction false} GroundedMaskShrinks(rows: seq<int>, added: seq<Episode>)
    requires AllGrounded(added, rows) && added != []
    ensures |Masked(rows, added)| < |rows|
  {
    assert Grounded(added[0], rows);
    OutsideShrinks(rows, added[0]);
    MaskedShrinks(Outside(rows, added[0]), added[1..]);
  }

  lemma {:induction false} ScannedAreGrounded(asset: string, rows: seq<int>, scores: seq<real>, existing: seq<Episode>)
    requires |scores| <= |rows| && Rising(rows)
    ensures AllGrounded(ScanAdded(asset, ScanWindows(rows, scores), existing), rows)
  {
    var windows := ScanWindows(rows, scores);
    forall r | 0 <= r < |windows|
      ensures StartsInRows(windows[r], rows)
    {
      WindowsStartAtRows(rows, scores, r);
    }
    hide ScanWindows;
    ScanIsGrounded(asset, rows, windows, existing);
  }

  /** A pass only appends, reports how many it appended, and, if any, leaves strictly fewer rows unexplained. */
  lemma {:induction false} PassShrinksUnexplained<M(!new)>(env: Env<M>, asset: string, history: seq<int>, own: seq<Episode>)
    returns (added: seq<Episode>)
    requires ScoresRows(env) && Rising(history)
    ensures PassStep(env, asset, history, own).0 == own + added
    ensures PassStep(env, asset, history, own).1 == InsufficientHistory ==> added == []
    ensures PassStep(env, asset, history, own).1 != InsufficientHistory ==>
              PassStep(env, asset, history, own).1 == NewEpisodes(|added|)
    ensures added != [] ==> |Masked(history, own + added)| < |Masked(history, own)|
  {
    hide ReplayFrom, ReplayNext, Rising, ScanWindows, ScanAdded, Masked, AllGrounded;
    var mon := env.calibrate(own, false, false);
    var u := Masked(history, own);
    if mon.None? || u == [] {
      added := [];
    } else {
      MaskedRising(history, own);
      var scores := env.score(mon.value, u);
      var scan := ScanAdded(asset, ScanWindows(u, scores), own);
      ScannedAreGrounded(asset, u, scores, own);
      var em := Em(mon, None, [], 0);
      assert u[0..] == u;
      FreshIsInRows(em, u);
      var replayed := ReplayIsGrounded(env, asset, em, own + scan, None, u, 0);
      added := scan + replayed;
      assert (own + scan) + replayed == own + added;
      GroundedConcat(scan, replayed, u);
      MaskedConcat(history, own, added);
      if added != [] {
        GroundedMaskShrinks(u, added);
      }
    }
  }

  /** A pass that calibrates and leaves rows to explain ledgers every scanned window that overlaps no episode of the
      asset, and the alarm its replay starts with, if it starts with one. One that does not calibrate reports that,
      and leaves the ledger alone. */
  lemma {:induction false} PassLedgers<M(!new)>(env: Env<M>, asset: string, history: seq<int>, own: seq<Episode>, w: Window)
    requires ScoresRows(env)
    ensures own <= PassStep(env, asset, history, own).0
    ensures PassStep(env, asset, history, own).1 == InsufficientHistory <==> env.calibrate(own, false, false).None?
    ensures var (mon, u) := (env.calibrate(own, false, false), Masked(history, own));
            mon.Some? && u != [] && w in ScanWindows(u, env.score(mon.value, u))
            && (forall k :: 0 <= k < |own| ==> Apart(w, own[k])) ==>
              Episode(asset, w.first, At(w.last), AlarmEpisode, "{\"source\": \"bootstrap-scan\"}")
                in PassStep(env, asset, history, own).0
    ensures var (mon, u) := (env.calibrate(own, false, false), Masked(history, own));
            mon.Some? && u != [] ==>
              var (after, v) := ProcessStep(env, Em(mon, None, [], 0), u[..if |u| < 4000 then |u| else 4000]);
              AlarmLike(v.state) ==>
                after.open.Some? && Ledgered(asset, own, PassStep(env, asset, history, own).0, after.open.value)
  {
    hide ReplayFrom, ScanWindows, ScanAdded, Masked, ProcessStep, Overlaps;
    var mon, u := env.calibrate(own, false, false), Masked(history, own);
    if mon.Some? && u != [] {
      var windows := ScanWindows(u, env.score(mon.value, u));
      var em: Em<M> := Em(mon, None, [], 0);
      var scanned := own + ScanAdded(asset, windows, own);
      ReplayAppends(env, asset, em, scanned, None, u);
      if w in windows {
        var e := ScanEpisode(asset, w);
        ScanLedgers(asset, windows, own, e);
        var r :| 0 <= r < |windows| && windows[r] == w;
        if forall k :: 0 <= k < |own| ==> Apart(w, own[k]) {
          assert FromWindow(asset, windows, own, e, r);
          assert e in scanned;
        }
      }
      if AlarmLike(ProcessStep(env, em, u[..if |u| < 4000 then |u| else 4000]).1.state) {
        AlarmIsLedgered(env, asset, em, scanned, None, u);
      }
    }
  }

  // ---- the whole run ------------------------------------------------------------------------------------

  predicate FindsNothing(r: PassRecord) { r in {InsufficientHistory, NewEpisodes(0)} }

  /** The episodes before, between and after the passes, each pass taking them from one to the next. */
  ghost predicate AreStages<M(!new)>(env: Env<M>, asset: string, history: seq<int>, stages: seq<seq<Episode>>, records: seq<PassRecord>)
    requires ScoresRows(env)
  {
    && |stages| == |records| + 1
    && forall k :: 0 <= k < |records| ==> PassStep(env, asset, history, stages[k]) == (stages[k + 1], records[k])
  }

  lemma {:induction false} StagesCons<M(!new)>(env: Env<M>, asset: string, history: seq<int>, own: seq<Episode>, record: PassRecord,
                                               stages: seq<seq<Episode>>, records: seq<PassRecord>)
    requires ScoresRows(env) && AreStages(env, asset, history, stages, records)
    requires PassStep(env, asset, history, own) == (stages[0], record)
    ensures AreStages(env, asset, history, [own] + stages, [record] + records)
  {
    hide PassStep;
    var more, all := [own] + stages, [record] + records;
    forall k | 0 <= k < |all|
      ensures PassStep(env, asset, history, more[k]) == (more[k + 1], all[k])
    {
      if k > 0 {
        assert more[k] == stages[k - 1] && all[k] == records[k - 1];
      }
    }
  }

  lemma {:induction false} PassesAreStages<M(!new)>(env: Env<M>, asset: string, history: seq<int>, iters: nat, own: seq<Episode>)
    returns (stages: seq<seq<Episode>>)
    requires ScoresRows(env)
    ensures AreStages(env, asset, history, stages, Passes(env, asset, history, iters, own).1)
    ensures stages[0] == own && stages[|stages| - 1] == Passes(env, asset, history, iters, own).0
    ensures |stages| <= iters + 1
    ensures forall k :: 0 <= k < |stages| - 2 ==> !Conclusive(Passes(env, asset, history, iters, own).1[k])
    ensures |stages| == iters + 1 || (|stages| > 1 && Conclusive(Passes(env, asset, history, iters, own).1[|stages| - 2]))
    decreases iters
  {
    hide PassStep, Conclusive;
    if iters == 0 {
      stages := [own];
    } else {
      var (after, record) := PassStep(env, asset, history, own);
      if Conclusive(record) {
        stages := [own, after];
      } else {
        var rest := PassesAreStages(env, asset, history, iters - 1, after);
        var records := Passes(env, asset, history, iters - 1, after).1;
        StagesCons(env, asset, history, own, record, rest, records);
        stages := [own] + rest;
        assert Passes(env, asset, history, iters, own).1 == [record] + records;
        hide Passes;
      }
    }
  }

  /** A bootstrap end to end: passes from the asset's own episodes until one finds nothing or the limit is reached;
      then it is calibrated with what the repair left, or no fault window is left, and what it dropped is what is
      missing of what the passes left. */
  lemma {:induction false} BootstrapOutcome<M(!new)>(env: Env<M>, asset: string, history: seq<int>, iters: nat, own: seq<Episode>)
    returns (stages: seq<seq<Episode>>)
    requires ScoresRows(env)
    ensures var r := RunOwn(env, asset, history, iters, own);
            && AreStages(env, asset, history, stages, r.passes) && stages[0] == own
            && (|r.passes| == iters || (r.passes != [] && FindsNothing(r.passes[|r.passes| - 1])))
            && (forall k :: 0 <= k < |r.passes| - 1 ==> !FindsNothing(r.passes[k]))
            && multiset(stages[|r.passes|]) == multiset(r.own) + multiset(r.dropped)
            && (r.ok <==> env.calibrate(r.own, true, false).Some?) && (r.ok || Faults(r.own) == [])
            && (r.dropped != [] ==> env.calibrate(stages[|r.passes|], true, false).None?)
  {
    hide Passes, AreStages, Repair, Faults;
    stages := PassesAreStages(env, asset, history, iters, own);
    StagesLength(env, asset, history, stages, Passes(env, asset, history, iters, own).1);
    var found := Passes(env, asset, history, iters, own).0;
    RepairOutcome(env, found);
    RepairConserves(env, found);
    RepairDrops(env, found);
  }

  lemma {:induction false} StagesLength<M(!new)>(env: Env<M>, asset: string, history: seq<int>, stages: seq<seq<Episode>>, records: seq<PassRecord>)
    requires ScoresRows(env) && AreStages(env, asset, history, stages, records)
    ensures |stages| == |records| + 1
  {
  }

  lemma {:induction false} FreshIsInRows<M(!new)>(em: Em<M>, rows: seq<int>)
    requires em.open.None?
    ensures OpenInRows(em, rows, 0)
  {
  }

  /** There are at most as many fruitful passes as unexplained rows; given one pass more than that, the
      loop ends on a conclusive pass, and any larger limit gives the same result. */
  lemma {:induction false} PassesConverge<M(!new)>(env: Env<M>, asset: string, history: seq<int>, iters: nat, more: nat, own: seq<Episode>)
    requires ScoresRows(env) && Rising(history)
    ensures |Passes(env, asset, history, iters, own).1| <= |Masked(history, own)| + 1
    ensures var records := Passes(env, asset, history, iters, own).1;
            forall k :: 0 <= k < |records| - 1 ==> !Conclusive(records[k])
    ensures iters > |Masked(history, own)| ==>
              var records := Passes(env, asset, history, iters, own).1;
              records != [] && Conclusive(records[|records| - 1])
    ensures iters > |Masked(history, own)| ==>
              Passes(env, asset, history, iters + more, own) == Passes(env, asset, history, iters, own)
    decreases iters
  {
    hide PassStep, Masked, Rising;
    if iters > 0 {
      var added := PassShrinksUnexplained(env, asset, history, own);
      var (after, record) := PassStep(env, asset, history, own);
      if !Conclusive(record) {
        PassesConverge(env, asset, history, iters - 1, more, after);
        var records := Passes(env, asset, history, iters, own).1;
        var rest := Passes(env, asset, history, iters - 1, after).1;
        assert records == [record] + rest;
        assert forall k :: 1 <= k < |records| ==> records[k] == rest[k - 1];
      }
    }
  }

  // ---- what the repair does ------------------------------------------------------------------------------

  function RemoveAll(eps: seq<Episode>, dropped: seq<Episode>): seq<Episode>
    decreases |dropped|
  {
    if dropped == [] then eps else RemoveAll(RemoveFirst(eps, dropped[0]), dropped[1..])
  }

  lemma {:induction false} RemoveFirstCounts(eps: seq<Episode>, e: Episode)
    ensures e in eps ==> multiset(eps) == multiset(RemoveFirst(eps, e)) + multiset{e}
  {
    if eps != [] {
      assert eps == [eps[0]] + eps[1..];
      RemoveFirstCounts(eps[1..], e);
    }
  }

  lemma {:induction false} FaultsOf(eps: seq<Episode>, e: Episode) returns (k: nat)
    requires e in eps && IsFault(e)
    ensures k < |Faults(eps)| && Faults(eps)[k] == e
  {
    FaultsCons(eps);
    if eps[0] == e {
      k := 0;
    } else {
      assert eps == [eps[0]] + eps[1..];
      k := FaultsOf(eps[1..], e);
      if IsFault(eps[0]) {
        assert Faults(eps)[k + 1] == Faults(eps)[1..][k];
        k := k + 1;
      }
    }
  }

  lemma {:induction false} RepairDrops<M(!new)>(env: Env<M>, own: seq<Episode>)
    ensures Repair(env, own).1 != [] <==> env.calibrate(own, true, false).None? && Faults(own) != []
  {
  }

  lemma {:induction false} RepairStep<M(!new)>(env: Env<M>, own: seq<Episode>) returns (e: Episode)
    requires env.calibrate(own, true, false).None? && Faults(own) != []
    ensures e in own && IsFault(e) && |Faults(RemoveFirst(own, e))| < |Faults(own)|
    ensures forall d :: d in own && IsFault(d) ==> Span(d) <= Span(e)
    ensures multiset(own) == multiset(RemoveFirst(own, e)) + multiset{e}
    ensures Repair(env, own).1 == [e] + Repair(env, RemoveFirst(own, e)).1
    ensures Repair(env, own).0 == Repair(env, RemoveFirst(own, e)).0
    ensures Repair(env, own).2 == Repair(env, RemoveFirst(own, e)).2
  {
    var k := Widest(Faults(own));
    e := Faults(own)[k];
    FaultsShrink(own);
    FaultsMember(own, k);
    RemoveFirstCounts(own, e);
    hide RemoveFirst;
    forall d | d in own && IsFault(d)
      ensures Span(d) <= Span(e)
    {
      var j := FaultsOf(own, d);
    }
  }

  /** The repair ends with a calibration or with no fault window left; the episodes left are the given
      ones less those it lists. */
  lemma {:induction false} RepairOutcome<M(!new)>(env: Env<M>, own: seq<Episode>)
    ensures Repair(env, own).2 <==> env.calibrate(Repair(env, own).0, true, false).Some?
    ensures Repair(env, own).2 || Faults(Repair(env, own).0) == []
    ensures Repair(env, own).0 == RemoveAll(own, Repair(env, own).1)
    decreases |Faults(own)|
  {
    if env.calibrate(own, true, false).None? && Faults(own) != [] {
      var e := RepairStep(env, own);
      RepairOutcome(env, RemoveFirst(own, e));
      hide Repair, Faults, RemoveFirst, Span, IsFault;
      assert ([e] + Repair(env, RemoveFirst(own, e)).1)[1..] == Repair(env, RemoveFirst(own, e)).1;
    }
  }

  /** Nothing is dropped that did not have to be: every calibration before the last drop failed. */
  lemma {:induction false} RepairDropsOnlyOnFailure<M(!new)>(env: Env<M>, own: seq<Episode>, j: nat)
    requires j < |Repair(env, own).1|
    ensures env.calibrate(RemoveAll(own, Repair(env, own).1[..j]), true, false).None?
    decreases |Faults(own)|
  {
    hide Repair, Faults, RemoveFirst, Span, IsFault;
    RepairDrops(env, own);
    var e := RepairStep(env, own);
    var less := RemoveFirst(own, e);
    if j > 0 {
      RepairDropsOnlyOnFailure(env, less, j - 1);
      assert Repair(env, own).1[..j] == [e] + Repair(env, less).1[..j - 1];
      assert Repair(env, own).1[..j][1..] == Repair(env, less).1[..j - 1];
    }
  }

  /** What is dropped is what is missing. */
  lemma {:induction false} RepairConserves<M(!new)>(env: Env<M>, own: seq<Episode>)
    ensures multiset(own) == multiset(Repair(env, own).0) + multiset(Repair(env, own).1)
    decreases |Faults(own)|
  {
    if env.calibrate(own, true, false).None? && Faults(own) != [] {
      var e := RepairStep(env, own);
      RepairConserves(env, RemoveFirst(own, e));
      hide Repair, Faults, RemoveFirst, Span, IsFault;
    }
  }

  /** Only fault windows of the asset are dropped. */
  lemma {:induction false} RepairDropsFaults<M(!new)>(env: Env<M>, own: seq<Episode>)
    ensures forall j :: 0 <= j < |Repair(env, own).1| ==> Repair(env, own).1[j] in own && IsFault(Repair(env, own).1[j])
    decreases |Faults(own)|
  {
    if env.calibrate(own, true, false).None? && Faults(own) != [] {
      var e := RepairStep(env, own);
      var less := RemoveFirst(own, e);
      RepairDropsFaults(env, less);
      hide Repair, Faults, RemoveFirst, Span, IsFault;
      var dropped := Repair(env, own).1;
      var more := Repair(env, less).1;
      forall j | 0 <= j < |dropped|
        ensures dropped[j] in own && IsFault(dropped[j])
      {
        if j > 0 {
          assert dropped[j] == more[j - 1];
          assert more[j - 1] in multiset(less);
          assert more[j - 1] in multiset(own);
        }
      }
    }
  }

  /** The widest window goes first, and so on down. */
  lemma {:induction false} RepairDropsWidestFirst<M(!new)>(env: Env<M>, own: seq<Episode>, j: nat)
    requires j + 1 < |Repair(env, own).1|
    ensures Span(Repair(env, own).1[j]) >= Span(Repair(env, own).1[j + 1])
    decreases |Faults(own)|
  {
    hide Repair, Faults, RemoveFirst, Span, IsFault;
    RepairDrops(env, own);
    var e := RepairStep(env, own);
    var less := RemoveFirst(own, e);
    if j > 0 {
      RepairDropsWidestFirst(env, less, j - 1);
    } else {
      RepairDropsFaults(env, less);
      var next := Repair(env, less).1[0];
      assert next in multiset(less);
      assert next in multiset(own);
    }
  }

  // ---- which windows a bootstrap may drop ----------------------------------------------------------------

  lemma {:induction false} NoFaults(eps: seq<Episode>)
    requires Faults(eps) == []
    ensures forall e :: e in eps ==> !IsFault(e)
  {
    if eps != [] {
      FaultsCons(eps);
      NoFaults(eps[1..]);
      assert eps == [eps[0]] + eps[1..];
    }
  }

  /** The bootstrap drops only episodes it added itself. */
  ghost predicate KeepsKnown<M(!new)>(env: Env<M>, asset: string, history: seq<int>, iters: nat, own: seq<Episode>)
    requires ScoresRows(env)
  {
    var dropped := RunOwn(env, asset, history, iters, own).dropped;
    forall j :: 0 <= j < |dropped| ==> dropped[j] !in own
  }

  /** A system in which nothing calibrates. */
  ghost function Uncalibrated<M(!new)>(): (env: Env<M>)
    ensures ScoresRows(env) && forall eps, audited, recent :: env.calibrate(eps, audited, recent) == None
  {
    Env((eps, audited, recent) => None, (m, rows) => [], (m, rows) => (m, HealthyLevel), scores => Noisy,
        (m, rows) => 1.0, (m, rows) => (0.0, []), (v, scores) => "")
  }

  /** No pass gets anywhere on an asset that does not calibrate. */
  lemma {:induction false} PassesNeedCalibration<M(!new)>(env: Env<M>, asset: string, history: seq<int>, iters: nat, own: seq<Episode>)
    requires ScoresRows(env) && env.calibrate(own, false, false).None?
    ensures Passes(env, asset, history, iters, own).0 == own
  {
    hide ReplayFrom, ScanAdded, Masked;
  }

  lemma {:induction false} LostIsDropped(own: seq<Episode>, rest: seq<Episode>, dropped: seq<Episode>)
    requires multiset(own) == multiset(rest) + multiset(dropped) && Faults(own) != [] && Faults(rest) == []
    ensures exists j :: 0 <= j < |dropped| && dropped[j] in own
  {
    FaultsMember(own, 0);
    NoFaults(rest);
    var e := Faults(own)[0];
    hide Faults, IsFault;
    assert e in multiset(own) && e !in multiset(rest);
    assert e in multiset(dropped);
    var j :| 0 <= j < |dropped| && dropped[j] == e;
    assert dropped[j] in own;
  }

  lemma {:induction false} UncalibratedDropsFault<M(!new)>(asset: string, history: seq<int>, iters: nat, own: seq<Episode>)
    requires Faults(own) != []
    ensures !KeepsKnown<M>(Uncalibrated(), asset, history, iters, own)
  {
    var env: Env<M> := Uncalibrated();
    RepairOutcome(env, own);
    RepairConserves(env, own);
    PassesNeedCalibration(env, asset, history, iters, own);
    hide Repair, Passes, Faults;
    LostIsDropped(own, Repair(env, own).0, Repair(env, own).1);
  }

  /** When the repair keeps to windows this bootstrap created, exactly: whatever history, passes and system it
      meets, no episode known before is dropped if and only if none of them was a fault window. */
  lemma {:induction false} KnownIsKept<M(!new)>(asset: string, history: seq<int>, iters: nat, own: seq<Episode>)
    ensures Faults(own) == [] <==> forall env: Env<M> :: ScoresRows(env) ==> KeepsKnown(env, asset, history, iters, own)
  {
    if Faults(own) == [] {
      NoFaults(own);
      forall env: Env<M> | ScoresRows(env)
        ensures KeepsKnown(env, asset, history, iters, own)
      {
        RepairDropsFaults(env, Passes(env, asset, history, iters, own).0);
      }
    } else {
      UncalibratedDropsFault<M>(asset, history, iters, own);
    }
  }

  /** An alarm that an earlier re-anchor ledgered, on an asset that calibrates only with no window masked: a
      bootstrap asked for now drops it. */
  lemma {:induction false} KnownAlarmIsDropped<M(!new)>(env: Env<M>, asset: string, m: Option<M>, history: seq<int>, iters: nat)
    requires ScoresRows(env)
    requires forall eps, audited, recent :: env.calibrate(eps, audited, recent).Some? <==> Faults(eps) == []
    ensures var last := Verdict(Alarm, 20.0, ["bearing"]);
            var own := ReanchoredOwn(env, asset, Em(m, Some(100), [], 200), [], last);
            var r := RunOwn(env, asset, history, iters, own);
            |own| == 1 && own[0].state == AlarmEpisode && r.own == [] && r.dropped == own && r.ok
  {
    var e := ClosingEpisode(env, asset, Em(m, Some(100), [], 200), Verdict(Alarm, 20.0, ["bearing"]));
    assert ReanchoredOwn(env, asset, Em(m, Some(100), [], 200), [], Verdict(Alarm, 20.0, ["bearing"])) == [e];
    OneFault(e);
    PassesNeedCalibration(env, asset, history, iters, [e]);
    RepairOfOne(env, e);
    hide Repair, Passes, Faults, ReanchoredOwn, ClosingEpisode;
  }

  lemma {:induction false} OneFault(e: Episode)
    requires IsFault(e)
    ensures Faults([e]) == [e] && Faults([]) == [] && RemoveFirst([e], e) == []
  {
    FaultsCons([e]);
  }

  lemma {:induction false} RepairOfOne<M(!new)>(env: Env<M>, e: Episode)
    requires IsFault(e) && env.calibrate([e], true, false).None? && env.calibrate([], true, false).Some?
    ensures Repair(env, [e]) == ([], [e], true)
  {
    OneFault(e);
    hide Faults, RemoveFirst;
    assert Repair(env, []) == ([], [], true);
    assert Widest([e]) == 0;
  }
}
