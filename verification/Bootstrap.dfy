/** The bootstrap loop as it runs: on a ledger shared with other assets and on the asset's monitor. */
module Bootstrap {
  import opened BootstrapSpec
  import opened Contamination
  import opened Episodes
  import opened Ledgers
  import opened Results
  import opened Timelines
  import opened Verdicts

  /** Ledgers the scanned windows that overlap nothing ledgered before. */
  method LedgerScan(ledger: EpisodeLedger, asset: string, windows: seq<Window>)
    requires ledger.Valid()
    modifies ledger
    ensures ledger.Valid()
    ensures Own(ledger.episodes, asset)
         == old(Own(ledger.episodes, asset)) + ScanAdded(asset, windows, old(Own(ledger.episodes, asset)))
    ensures Others(ledger.episodes, asset) == old(Others(ledger.episodes, asset))
  {
    hide Pick, Overlaps;
    ghost var before := Own(ledger.episodes, asset);
    var existing := Own(ledger.episodes, asset);
    assert windows[0..] == windows;
    for i := 0 to |windows|
      invariant ledger.Valid()
      invariant Own(ledger.episodes, asset) + ScanAdded(asset, windows[i..], existing)
             == existing + ScanAdded(asset, windows, existing)
      invariant Others(ledger.episodes, asset) == old(Others(ledger.episodes, asset))
    {
      assert windows[i..][0] == windows[i] && windows[i..][1..] == windows[i + 1..];
      if !Overlaps(existing, windows[i]) {
        var e := ScanEpisode(asset, windows[i]);
        OwnAdd(ledger.episodes, e, asset);
        ghost var was, rest := Own(ledger.episodes, asset), ScanAdded(asset, windows[i + 1..], existing);
        assert was + ([e] + rest) == (was + [e]) + rest;
        ledger.Add(e);
      }
    }
  }

  /** A replay does not depend on what was processed before it. */
  lemma {:induction false} ReplayForgetsLastTs<M(!new)>(env: Env<M>, asset: string, em: Em<M>, ts: int, own: seq<Episode>, rows: seq<int>)
    requires ScoresRows(env) && rows != []
    ensures ReplayFrom(env, asset, em, own, None, rows) == ReplayFrom(env, asset, em.(lastTs := ts), own, None, rows)
  {
    ProcessForgetsLastTs(env, em, ts, rows[..ChunkSize(|rows|)]);
    hide ProcessStep, ReplayNext;
  }

  lemma {:induction false} ProcessForgetsLastTs<M(!new)>(env: Env<M>, em: Em<M>, ts: int, frame: seq<int>)
    requires ScoresRows(env) && frame != []
    ensures ProcessStep(env, em, frame) == ProcessStep(env, em.(lastTs := ts), frame)
  {
    hide OnsetTs, EnrichState, LevelState;
  }

  /** Replays the unexplained rows in chunks, closing an episode when its alarm recovers. */
  method Replay<M(!new)>(env: Env<M>, em: EpisodicMonitor<M>, rows: seq<int>)
    requires ScoresRows(env) && em.ledger.Valid()
    modifies em, em.ledger
    ensures em.ledger.Valid()
    ensures (em.Now(), Own(em.ledger.episodes, em.asset))
         == ReplayFrom(env, em.asset, old(em.Now()), old(Own(em.ledger.episodes, em.asset)), None, rows)
    ensures Others(em.ledger.episodes, em.asset) == old(Others(em.ledger.episodes, em.asset))
  {
    hide ProcessStep, ReanchorStep, ReanchoredOwn, Pick;
    ghost var expected := ReplayFrom(env, em.asset, em.Now(), Own(em.ledger.episodes, em.asset), None, rows);
    var last: Option<Verdict> := None;
    var start := 0;
    assert rows[0..] == rows;
    while start < |rows|
      invariant 0 <= start <= |rows|
      invariant em.ledger.Valid()
      invariant ReplayFrom(env, em.asset, em.Now(), Own(em.ledger.episodes, em.asset), last, rows[start..]) == expected
      invariant Others(em.ledger.episodes, em.asset) == old(Others(em.ledger.episodes, em.asset))
    {
      var n := ChunkSize(|rows| - start);
      ReplayChunk(env, em.asset, em.Now(), Own(em.ledger.episodes, em.asset), last, rows, start, n);
      var v := em.Process(env, rows[start..start + n]);
      if AlarmLike(v.state) {
        last := Some(v);
      } else if em.openEpisodeStart.Some? && last.Some? {
        var _ := em.Reanchor(env, last.value);
        last := None;
      }
      start := start + n;
    }
    assert rows[start..] == [];
    if em.openEpisodeStart.Some? && last.Some? {
      var _ := em.Reanchor(env, last.value);
    }
  }

  /** One pass: calibrate on the masked life, scan what is unexplained, replay it. */
  method Pass<M(!new)>(env: Env<M>, em: EpisodicMonitor<M>, history: seq<int>) returns (record: PassRecord)
    requires ScoresRows(env) && em.ledger.Valid() && Rising(history)
    modifies em, em.ledger
    ensures em.ledger.Valid()
    ensures (Own(em.ledger.episodes, em.asset), record)
         == PassStep(env, em.asset, history, old(Own(em.ledger.episodes, em.asset)))
    ensures Others(em.ledger.episodes, em.asset) == old(Others(em.ledger.episodes, em.asset))
    ensures em.openEpisodeStart == if record == InsufficientHistory then old(em.openEpisodeStart) else None
  {
    hide Pick, Masked, ReplayFrom, ScanAdded, ScanWindows;
    ghost var own := Own(em.ledger.episodes, em.asset);
    em.monitor := env.calibrate(Own(em.ledger.episodes, em.asset), false, false);
    if em.monitor.None? {
      return InsufficientHistory;
    }
    em.openEpisodeStart, em.episodeScores := None, [];
    LedgerSize(em.ledger.episodes, em.asset);
    var before := |em.ledger.episodes|;
    var unexplained := em.ledger.Mask(em.asset, history, false);
    if unexplained == [] {
      return NewEpisodes(0);
    }
    var scores := env.score(em.monitor.value, unexplained);
    var windows := ScanContamination(unexplained, scores);
    LedgerScan(em.ledger, em.asset, windows);
    ReplayForgetsLastTs(env, em.asset, em.Now(), 0, Own(em.ledger.episodes, em.asset), unexplained);
    ReplayCloses(env, em.asset, em.Now(), Own(em.ledger.episodes, em.asset), None, unexplained);
    Replay(env, em, unexplained);
    LedgerSize(em.ledger.episodes, em.asset);
    ghost var added := PassShrinksUnexplained(env, em.asset, history, own);
    assert |em.ledger.episodes| - before == |added|;
    record := NewEpisodes(|em.ledger.episodes| - before);
  }

  /** Keeps the first maximum, as `max` does. */
  method FindWidest(candidates: seq<Episode>) returns (widest: Episode)
    requires candidates != []
    ensures widest == candidates[Widest(candidates)]
  {
    var k := 0;
    for i := 1 to |candidates|
      invariant 0 <= k < i
      invariant forall j :: 0 <= j < i ==> Span(candidates[j]) <= Span(candidates[k])
      invariant forall j :: 0 <= j < k ==> Span(candidates[j]) < Span(candidates[k])
    {
      if Span(candidates[i]) > Span(candidates[k]) {
        k := i;
      }
    }
    WidestIsUnique(candidates, k);
    widest := candidates[k];
  }

  lemma {:induction false} WidestIsUnique(eps: seq<Episode>, k: nat)
    requires k < |eps|
    requires forall j :: 0 <= j < |eps| ==> Span(eps[j]) <= Span(eps[k])
    requires forall j :: 0 <= j < k ==> Span(eps[j]) < Span(eps[k])
    ensures Widest(eps) == k
  {
    var w := Widest(eps);
    assert Span(eps[w]) == Span(eps[k]);
  }

  /** Calibrates, dropping the widest fault window for as long as that fails and one is left. */
  method RepairMask<M(!new)>(env: Env<M>, em: EpisodicMonitor<M>) returns (dropped: seq<Episode>, ok: bool)
    requires em.ledger.Valid()
    modifies em, em.ledger
    ensures em.ledger.Valid()
    ensures (Own(em.ledger.episodes, em.asset), dropped, ok) == Repair(env, old(Own(em.ledger.episodes, em.asset)))
    ensures Others(em.ledger.episodes, em.asset) == old(Others(em.ledger.episodes, em.asset))
    ensures em.monitor == env.calibrate(Own(em.ledger.episodes, em.asset), true, false) && (ok <==> em.monitor.Some?)
    ensures em.openEpisodeStart == old(em.openEpisodeStart)
  {
    hide Pick, RemoveFirst;
    ghost var own := Own(em.ledger.episodes, em.asset);
    em.monitor := env.calibrate(Own(em.ledger.episodes, em.asset), true, false);
    ok := em.monitor.Some?;
    dropped := [];
    assert [] + Repair(env, own).1 == Repair(env, own).1;
    while !ok
      invariant em.ledger.Valid()
      invariant em.monitor == env.calibrate(Own(em.ledger.episodes, em.asset), true, false) && (ok <==> em.monitor.Some?)
      invariant Others(em.ledger.episodes, em.asset) == old(Others(em.ledger.episodes, em.asset))
      invariant em.openEpisodeStart == old(em.openEpisodeStart)
      invariant Continues(Repair(env, own), dropped, Repair(env, Own(em.ledger.episodes, em.asset)))
      decreases |Faults(Own(em.ledger.episodes, em.asset))|, !ok
    {
      var candidates := Faults(Own(em.ledger.episodes, em.asset));
      if candidates == [] {
        break;
      }
      var widest := FindWidest(candidates);
      FaultsShrink(Own(em.ledger.episodes, em.asset));
      FaultsMember(Own(em.ledger.episodes, em.asset), Widest(candidates));
      PickMembers(em.ledger.episodes, em.asset, true, widest);
      OwnRemove(em.ledger.episodes, widest, em.asset);
      var _ := em.ledger.Remove(widest);
      ContinuesFurther(Repair(env, own), dropped, widest, Repair(env, Own(em.ledger.episodes, em.asset)));
      dropped := dropped + [widest];
      em.monitor := env.calibrate(Own(em.ledger.episodes, em.asset), true, false);
      ok := em.monitor.Some?;
    }
    assert Repair(env, Own(em.ledger.episodes, em.asset)) == (Own(em.ledger.episodes, em.asset), [], ok);
    assert dropped + [] == dropped;
  }

  /** The whole repair is what was dropped so far followed by the rest of it. */
  predicate Continues(all: (seq<Episode>, seq<Episode>, bool), dropped: seq<Episode>, rest: (seq<Episode>, seq<Episode>, bool)) {
    all == (rest.0, dropped + rest.1, rest.2)
  }

  lemma {:induction false} ContinuesFurther(all: (seq<Episode>, seq<Episode>, bool), dropped: seq<Episode>, e: Episode,
                                            rest: (seq<Episode>, seq<Episode>, bool))
    requires Continues(all, dropped, (rest.0, [e] + rest.1, rest.2))
    ensures Continues(all, dropped + [e], rest)
  {
    assert dropped + ([e] + rest.1) == (dropped + [e]) + rest.1;
  }

  /** All passes are those done so far followed by the rest of them. */
  predicate PassesContinue(all: (seq<Episode>, seq<PassRecord>), done: seq<PassRecord>, rest: (seq<Episode>, seq<PassRecord>)) {
    all == (rest.0, done + rest.1)
  }

  lemma {:induction false} PassesFurther<M(!new)>(env: Env<M>, asset: string, history: seq<int>, left: nat, own: seq<Episode>,
                                             all: (seq<Episode>, seq<PassRecord>), done: seq<PassRecord>)
    requires ScoresRows(env) && left > 0 && PassesContinue(all, done, Passes(env, asset, history, left, own))
    ensures var (after, record) := PassStep(env, asset, history, own);
            if Conclusive(record) then all == (after, done + [record])
            else PassesContinue(all, done + [record], Passes(env, asset, history, left - 1, after))
  {
    hide PassStep;
    var (after, record) := PassStep(env, asset, history, own);
    if !Conclusive(record) {
      assert done + ([record] + Passes(env, asset, history, left - 1, after).1)
          == (done + [record]) + Passes(env, asset, history, left - 1, after).1;
    }
  }

  lemma {:induction false} PassesAround<M(!new)>(env: Env<M>, asset: string, history: seq<int>, iters: nat, own: seq<Episode>)
    requires ScoresRows(env)
    ensures PassesContinue(Passes(env, asset, history, iters, own), [], Passes(env, asset, history, iters, own))
    ensures Passes(env, asset, history, 0, own) == (own, [])
  {
    assert [] + Passes(env, asset, history, iters, own).1 == Passes(env, asset, history, iters, own).1;
  }

  /** Detect, mask and re-detect until a pass is conclusive or the limit is reached. */
  method RunPasses<M(!new)>(env: Env<M>, em: EpisodicMonitor<M>, history: seq<int>, maxIters: nat) returns (passes: seq<PassRecord>)
    requires ScoresRows(env) && em.ledger.Valid() && Rising(history)
    modifies em, em.ledger
    ensures em.ledger.Valid()
    ensures (Own(em.ledger.episodes, em.asset), passes)
         == Passes(env, em.asset, history, maxIters, old(Own(em.ledger.episodes, em.asset)))
    ensures Others(em.ledger.episodes, em.asset) == old(Others(em.ledger.episodes, em.asset))
    ensures em.openEpisodeStart.None? || em.openEpisodeStart == old(em.openEpisodeStart)
  {
    hide Pick, PassStep, Rising, Passes, Conclusive;
    ghost var all := Passes(env, em.asset, history, maxIters, Own(em.ledger.episodes, em.asset));
    PassesAround(env, em.asset, history, maxIters, Own(em.ledger.episodes, em.asset));
    passes := [];
    var it := 0;
    while it < maxIters
      invariant 0 <= it <= maxIters
      invariant em.ledger.Valid()
      invariant Others(em.ledger.episodes, em.asset) == old(Others(em.ledger.episodes, em.asset))
      invariant em.openEpisodeStart.None? || em.openEpisodeStart == old(em.openEpisodeStart)
      invariant PassesContinue(all, passes, Passes(env, em.asset, history, maxIters - it, Own(em.ledger.episodes, em.asset)))
    {
      PassesFurther(env, em.asset, history, maxIters - it, Own(em.ledger.episodes, em.asset), all, passes);
      var record := Pass(env, em, history);
      passes := passes + [record];
      it := it + 1;
      if Conclusive(record) {
        return;
      }
    }
    PassesAround(env, em.asset, history, 0, Own(em.ledger.episodes, em.asset));
    assert passes + [] == passes;
  }

  /** The passes, then the repair. Only the asset's own episodes change, and they change as a function of
      themselves alone. The monitor is left freshly calibrated, and opens no episode. */
  method RunBootstrap<M(!new)>(env: Env<M>, em: EpisodicMonitor<M>, history: seq<int>, maxIters: nat) returns (report: Report)
    requires ScoresRows(env) && em.ledger.Valid() && Rising(history)
    modifies em, em.ledger
    ensures em.ledger.Valid()
    ensures report == RunOwn(env, em.asset, history, maxIters, old(Own(em.ledger.episodes, em.asset)))
    ensures Own(em.ledger.episodes, em.asset) == report.own
    ensures Others(em.ledger.episodes, em.asset) == old(Others(em.ledger.episodes, em.asset))
    ensures em.monitor == env.calibrate(report.own, true, false) && (report.ok <==> em.monitor.Some?)
    ensures em.openEpisodeStart.None? || em.openEpisodeStart == old(em.openEpisodeStart)
  {
    hide Pick, Passes, Rising, Repair;
    var passes := RunPasses(env, em, history, maxIters);
    var dropped, ok := RepairMask(env, em);
    report := Report(Own(em.ledger.episodes, em.asset), passes, dropped, ok);
  }
}
