/** First contact for a fleet. */
module Fleet {
  // Workers bootstrap private copies of the ledger, and the parent applies what each added and removed, in
  // whatever order they finish.

  import opened Bootstrap
  import opened BootstrapSpec
  import opened Episodes
  import opened Ledgers
  import opened Results
  import opened Sequences
  import opened Timelines

  // ---- set differences and what applying them leaves ------------------------------------------------

  /** `l` lists, in some order and once each, the episodes in `a` but not in `b`. */
  ghost predicate ListsDifference(l: seq<Episode>, a: seq<Episode>, b: seq<Episode>) {
    Distinct(l) && forall e :: e in l <==> e in a && e !in b
  }

  /** What the parent holds for an asset after applying a worker's difference to `own`. */
  ghost predicate Reapplied(own: seq<Episode>, worker: seq<Episode>, left: seq<Episode>) {
    exists added, removed ::
      ListsDifference(added, worker, own) && ListsDifference(removed, own, worker) && left == RemoveAll(own + added, removed)
  }

  ghost predicate SameSet(a: seq<Episode>, b: seq<Episode>) { forall e :: e in a <==> e in b }

  lemma {:induction false} RemoveFirstMultiset(eps: seq<Episode>, e: Episode)
    ensures multiset(RemoveFirst(eps, e)) == multiset(eps) - multiset{e}
  {
    if eps != [] {
      assert eps == [eps[0]] + eps[1..];
      RemoveFirstMultiset(eps[1..], e);
    }
  }

  lemma {:induction false} RemoveAllMultiset(eps: seq<Episode>, dropped: seq<Episode>, e: Episode)
    requires Distinct(dropped)
    ensures multiset(RemoveAll(eps, dropped))[e]
         == multiset(eps)[e] - if e in dropped && e in eps then 1 else 0
    decreases |dropped|
  {
    if dropped != [] {
      var d := dropped[0];
      assert dropped == [d] + dropped[1..];
      assert forall j :: 0 <= j < |dropped[1..]| ==> dropped[1..][j] == dropped[j + 1];
      assert d !in dropped[1..];
      RemoveFirstMultiset(eps, d);
      RemoveAllMultiset(RemoveFirst(eps, d), dropped[1..], e);
      assert e != d ==> (e in eps <==> e in multiset(RemoveFirst(eps, d)));
    }
  }

  /** Applying a worker's difference gives the worker's set of episodes exactly when every episode it
      removed was ledgered once. */
  lemma {:induction false} DifferenceRebuilds(own: seq<Episode>, worker: seq<Episode>, left: seq<Episode>)
    requires Reapplied(own, worker, left)
    ensures SameSet(left, worker) <==> forall e :: e in own && e !in worker ==> multiset(own)[e] == 1
  {
    var added, removed :|
      ListsDifference(added, worker, own) && ListsDifference(removed, own, worker) && left == RemoveAll(own + added, removed);
    hide RemoveAll;
    forall e
      ensures (e in left <==> e in worker) <==> (e in own && e !in worker ==> multiset(own)[e] == 1)
    {
      RemoveAllMultiset(own + added, removed, e);
      assert e in left <==> multiset(left)[e] > 0;
      assert multiset(own + added)[e] == multiset(own)[e] + multiset(added)[e];
      assert e in own + added <==> e in own || e in added;
      if e in worker {
        assert multiset(own)[e] + multiset(added)[e] > 0 by {
          assert e in own ==> e in multiset(own);
          assert e in added ==> e in multiset(added);
        }
      } else {
        assert multiset(added)[e] == 0 by {
          assert e !in multiset(added);
        }
      }
    }
  }

  /** Where a window was ledgered twice and the repair dropped both, the parent keeps one. */
  lemma {:induction false} DuplicateSurvives<M(!new)>(env: Env<M>, asset: string, history: seq<int>, iters: nat, left: seq<Episode>)
    requires ScoresRows(env)
    requires forall eps, audited, recent :: env.calibrate(eps, audited, recent).Some? <==> eps == []
    ensures var e := Episode(asset, 0, At(1), AlarmEpisode, "");
            var own := [e, e];
      && RunOwn(env, asset, history, iters, own).own == []
      && (Reapplied(own, [], left) ==> left == [e])
  {
    var e := Episode(asset, 0, At(1), AlarmEpisode, "");
    assert Passes(env, asset, history, iters, [e, e]).0 == [e, e];
    TwinsRepaired(env, e);
    if Reapplied([e, e], [], left) {
      TwinLeft(e, left);
    }
  }

  lemma {:induction false} TwinsRepaired<M(!new)>(env: Env<M>, e: Episode)
    requires IsFault(e) && forall eps, audited, recent :: env.calibrate(eps, audited, recent).Some? <==> eps == []
    ensures Repair(env, [e, e]).0 == []
  {
    var own := [e, e];
    assert own[1..] == [e] && [e][1..] == [];
    FaultsCons(own);
    FaultsCons([e]);
    assert Faults([e]) == [e];
    assert |Faults(own)| == 2 && Faults(own)[0] == e && Faults(own)[1] == Faults(own)[1..][0] == e;
    assert RemoveFirst(own, e) == [e] && RemoveFirst([e], e) == [];
    assert Repair(env, []).0 == [];
    assert Repair(env, [e]).0 == [];
  }

  lemma {:induction false} TwinLeft(e: Episode, left: seq<Episode>)
    requires Reapplied([e, e], [], left)
    ensures left == [e]
  {
    var own := [e, e];
    var added, removed :|
      ListsDifference(added, [], own) && ListsDifference(removed, own, []) && left == RemoveAll(own + added, removed);
    FirstTwo(added);
    assert added == [];
    OnlyElement(removed, e);
    assert own + added == own && own[1..] == [e] && [e][1..] == [];
    assert RemoveFirst(own, e) == [e];
    assert RemoveAll([e], []) == [e];
  }

  lemma {:induction false} FirstTwo(xs: seq<Episode>)
    ensures |xs| > 0 ==> xs[0] in xs
    ensures |xs| > 1 && Distinct(xs) ==> xs[1] in xs && xs[0] != xs[1]
  {
  }

  lemma {:induction false} OnlyElement(xs: seq<Episode>, e: Episode)
    requires Distinct(xs) && forall x :: x in xs <==> x == e
    ensures xs == [e]
  {
    assert e in xs;
    FirstTwo(xs);
  }

  // ---- the worker --------------------------------------------------------------------------------------

  /** Lists a set in some order; any order is possible. */
  method ListSet(s: set<Episode>) returns (l: seq<Episode>)
    ensures Distinct(l) && forall e :: e in l <==> e in s
  {
    var rest := s;
    l := [];
    while rest != {}
      invariant Distinct(l) && rest <= s
      invariant forall e :: e in l <==> e in s && e !in rest
      decreases |rest|
    {
      var e :| e in rest;
      rest := rest - {e};
      l := l + [e];
    }
  }

  lemma {:induction false} OwnOfOwn(eps: seq<Episode>, asset: string)
    ensures Others(eps, asset) == [] ==> Own(eps, asset) == eps
    ensures Own(eps, asset) == eps ==> Others(eps, asset) == []
  {
    LedgerSize(eps, asset);
    if Others(eps, asset) == [] && eps != [] {
      LedgerSize(eps[1..], asset);
      OwnOfOwn(eps[1..], asset);
    }
  }

  /** Bootstraps a private copy of the snapshot and reports what it added and removed, as sets. */
  method BootstrapWorker<M(!new)>(env: Env<M>, key: string, history: seq<int>, snapshot: seq<Episode>, maxIters: nat)
    returns (report: Report, added: seq<Episode>, removed: seq<Episode>)
    requires ScoresRows(env) && Rising(history) && Own(snapshot, key) == snapshot
    ensures report == RunOwn(env, key, history, maxIters, snapshot)
    ensures ListsDifference(added, report.own, snapshot) && ListsDifference(removed, snapshot, report.own)
    ensures forall k :: 0 <= k < |added| ==> added[k].asset == key
    ensures forall k :: 0 <= k < |removed| ==> removed[k].asset == key
  {
    hide RunOwn;
    var ledger := new EpisodeLedger(snapshot);
    var em := new EpisodicMonitor<M>(key, ledger, None);
    OwnOfOwn(snapshot, key);
    report := RunBootstrap(env, em, history, maxIters);
    OwnOfOwn(ledger.episodes, key);
    added := ListSet((set e | e in ledger.episodes) - (set e | e in snapshot));
    removed := ListSet((set e | e in snapshot) - (set e | e in ledger.episodes));
    forall k | 0 <= k < |added|
      ensures added[k].asset == key
    {
      assert added[k] in added;
      PickMembers(ledger.episodes, key, true, added[k]);
    }
    forall k | 0 <= k < |removed|
      ensures removed[k].asset == key
    {
      assert removed[k] in removed;
      PickMembers(snapshot, key, true, removed[k]);
    }
  }

  // ---- the parent ----------------------------------------------------------------------------------------

  lemma {:induction false} OwnOfOthers(eps: seq<Episode>, key: string, asset: string)
    requires asset != key
    ensures Own(Others(eps, key), asset) == Own(eps, asset)
  {
    if eps != [] {
      OwnOfOthers(eps[1..], key, asset);
      if eps[0].asset != key {
        assert Others(eps, key)[1..] == Others(eps[1..], key);
      }
    }
  }

  lemma {:induction false} RemoveFirstKeeps(eps: seq<Episode>, e: Episode, x: Episode)
    requires x in eps && x != e
    ensures x in RemoveFirst(eps, e)
  {
    RemoveFirstMultiset(eps, e);
    assert x in multiset(RemoveFirst(eps, e));
  }

  /** Applies one worker's difference to the shared ledger; every removal finds its episode. */
  method ApplyDifference(ledger: EpisodeLedger, key: string, added: seq<Episode>, removed: seq<Episode>)
    requires ledger.Valid() && Distinct(removed)
    requires forall k :: 0 <= k < |added| ==> added[k].asset == key
    requires forall k :: 0 <= k < |removed| ==> removed[k].asset == key && removed[k] in Own(ledger.episodes, key)
    modifies ledger
    ensures ledger.Valid()
    ensures Own(ledger.episodes, key) == RemoveAll(old(Own(ledger.episodes, key)) + added, removed)
    ensures Others(ledger.episodes, key) == old(Others(ledger.episodes, key))
  {
    hide Pick, RemoveFirst;
    ghost var own := Own(ledger.episodes, key);
    for k := 0 to |added|
      invariant ledger.Valid() && Own(ledger.episodes, key) == own + added[..k]
      invariant Others(ledger.episodes, key) == old(Others(ledger.episodes, key))
    {
      OwnAdd(ledger.episodes, added[k], key);
      assert (own + added[..k]) + [added[k]] == own + added[..k + 1];
      ledger.Add(added[k]);
    }
    assert added[..|added|] == added && removed[0..] == removed;
    for k := 0 to |removed|
      invariant ledger.Valid()
      invariant RemoveAll(Own(ledger.episodes, key), removed[k..]) == RemoveAll(own + added, removed)
      invariant Others(ledger.episodes, key) == old(Others(ledger.episodes, key))
      invariant forall j :: k <= j < |removed| ==> removed[j] in Own(ledger.episodes, key)
    {
      var e := removed[k];
      assert removed[k..][0] == e && removed[k..][1..] == removed[k + 1..];
      OwnRemove(ledger.episodes, e, key);
      PickMembers(ledger.episodes, key, true, e);
      forall j | k + 1 <= j < |removed|
        ensures removed[j] in RemoveFirst(Own(ledger.episodes, key), e)
      {
        RemoveFirstKeeps(Own(ledger.episodes, key), e, removed[j]);
      }
      var found := ledger.Remove(e);
      assert found;
    }
    assert removed[|removed|..] == [];
  }

  /** What an asset's bootstrap sees besides its episodes: its store and scorers, and its stored rows. */
  datatype World<!M> = World(env: Env<M>, history: seq<int>)

  /** How an asset's bootstrap ended, if it was reached. A worker that raised (Crashed) leaves the asset as it was,
      marked as bootstrapped; a direct bootstrap that raised (Broken) leaves what it had written by then. */
  datatype How = Waiting | Direct | ByWorker | Crashed | Broken

  /** One thing a bootstrap that raises had written of its own asset. */
  datatype Write = Adds(e: Episode) | Drops(e: Episode)

  /** The direct bootstrap of the i-th asset raises, after some writes. */
  datatype Break = Break(i: nat, writes: seq<Write>)

  datatype Arrival = Finished(i: nat) | Raised(i: nat)

  ghost predicate Usable<M(!new)>(w: World<M>) { ScoresRows(w.env) && Rising(w.history) }

  ghost predicate AllUsable<M(!new)>(worlds: seq<World<M>>) { forall i :: 0 <= i < |worlds| ==> Usable(worlds[i]) }

  /** The asset's episodes a direct bootstrap would leave. */
  function Bootstrapped<M(!new)>(w: World<M>, key: string, iters: nat, before: seq<Episode>): seq<Episode>
    requires Usable(w)
  {
    RunOwn(w.env, key, w.history, iters, before).own
  }

  ghost predicate Settled<M(!new)>(w: World<M>, key: string, iters: nat, before: seq<Episode>, left: seq<Episode>, how: How)
    requires Usable(w)
  {
    match how
    case Waiting => left == before
    case Direct => left == Bootstrapped(w, key, iters, before)
    case ByWorker => Reapplied(before, Bootstrapped(w, key, iters, before), left)
    case Crashed => left == before
    case Broken => true
  }

  ghost predicate AllSettled<M(!new)>(worlds: seq<World<M>>, keys: seq<string>, iters: nat,
                                      before: seq<Episode>, now: seq<Episode>, how: seq<How>)
    requires AllUsable(worlds)
  {
    && |worlds| == |keys| == |how|
    && forall i :: 0 <= i < |keys| ==>
         Settled(worlds[i], keys[i], iters, Own(before, keys[i]), Own(now, keys[i]), how[i])
  }

  /** Assets outside the list keep their episodes. */
  ghost predicate OutsidersKept(keys: seq<string>, before: seq<Episode>, now: seq<Episode>) {
    forall a :: (forall i :: 0 <= i < |keys| ==> keys[i] != a) ==> Own(now, a) == Own(before, a)
  }

  /** Settling one asset disturbs no other. */
  lemma {:induction false} SettleOne<M(!new)>(worlds: seq<World<M>>, keys: seq<string>, iters: nat, before: seq<Episode>,
                                         now: seq<Episode>, next: seq<Episode>, how: seq<How>, i: nat, h: How)
    requires AllUsable(worlds) && AllSettled(worlds, keys, iters, before, now, how) && Distinct(keys) && i < |keys|
    requires OutsidersKept(keys, before, now)
    requires Others(next, keys[i]) == Others(now, keys[i])
    requires Settled(worlds[i], keys[i], iters, Own(before, keys[i]), Own(next, keys[i]), h)
    ensures AllSettled(worlds, keys, iters, before, next, how[i := h])
    ensures OutsidersKept(keys, before, next)
  {
    hide Settled, Pick;
    forall j | 0 <= j < |keys|
      ensures Settled(worlds[j], keys[j], iters, Own(before, keys[j]), Own(next, keys[j]), how[i := h][j])
    {
      if j != i {
        OwnOfOthers(next, keys[i], keys[j]);
        OwnOfOthers(now, keys[i], keys[j]);
      }
    }
    forall a | forall k :: 0 <= k < |keys| ==> keys[k] != a
      ensures Own(next, a) == Own(before, a)
    {
      OwnOfOthers(next, keys[i], a);
      OwnOfOthers(now, keys[i], a);
    }
  }

  /** One asset bootstrapped directly on the shared ledger. */
  method SettleDirectly<M(!new)>(ledger: EpisodeLedger, keys: seq<string>, worlds: seq<World<M>>, iters: nat, i: nat,
                           ghost before: seq<Episode>, how: seq<How>) returns (how': seq<How>)
    requires ledger.Valid() && AllUsable(worlds) && Distinct(keys) && i < |keys|
    requires AllSettled(worlds, keys, iters, before, ledger.episodes, how) && OutsidersKept(keys, before, ledger.episodes)
    requires how[i] == Waiting
    modifies ledger
    ensures ledger.Valid() && how' == how[i := Direct]
    ensures AllSettled(worlds, keys, iters, before, ledger.episodes, how') && OutsidersKept(keys, before, ledger.episodes)
  {
    hide Pick, RunOwn, Reapplied, OutsidersKept;
    assert Settled(worlds[i], keys[i], iters, Own(before, keys[i]), Own(ledger.episodes, keys[i]), how[i]);
    assert Usable(worlds[i]);
    ghost var now := ledger.episodes;
    var em := new EpisodicMonitor<M>(keys[i], ledger, None);
    var report := RunBootstrap(worlds[i].env, em, worlds[i].history, iters);
    assert Settled(worlds[i], keys[i], iters, Own(before, keys[i]), Own(ledger.episodes, keys[i]), Direct);
    SettleOne(worlds, keys, iters, before, now, ledger.episodes, how, i, Direct);
    how' := how[i := Direct];
  }

  /** One asset whose direct bootstrap raises. */
  method BreakDirectly<M(!new)>(ledger: EpisodeLedger, keys: seq<string>, worlds: seq<World<M>>, iters: nat, brk: Break,
                          ghost before: seq<Episode>, how: seq<How>) returns (how': seq<How>)
    requires ledger.Valid() && AllUsable(worlds) && Distinct(keys) && brk.i < |keys|
    requires AllSettled(worlds, keys, iters, before, ledger.episodes, how) && OutsidersKept(keys, before, ledger.episodes)
    modifies ledger
    ensures ledger.Valid() && how' == how[brk.i := Broken]
    ensures AllSettled(worlds, keys, iters, before, ledger.episodes, how') && OutsidersKept(keys, before, ledger.episodes)
  {
    hide Pick, RunOwn, Reapplied, OutsidersKept, Distinct;
    ghost var now := ledger.episodes;
    var i, key := brk.i, keys[brk.i];
    assert Usable(worlds[i]);
    for k := 0 to |brk.writes|
      invariant ledger.Valid() && Others(ledger.episodes, key) == Others(now, key)
    {
      var e := brk.writes[k].e.(asset := key);
      if brk.writes[k].Adds? {
        OwnAdd(ledger.episodes, e, key);
        ledger.Add(e);
      } else {
        OwnRemove(ledger.episodes, e, key);
        var _ := ledger.Remove(e);
      }
    }
    SettleOne(worlds, keys, iters, before, now, ledger.episodes, how, i, Broken);
    how' := how[i := Broken];
  }

  /** A worker's result applied to the shared ledger when it arrives. */
  method SettleArrival<M(!new)>(ledger: EpisodeLedger, keys: seq<string>, worlds: seq<World<M>>, iters: nat, i: nat,
                          snapshot: seq<Episode>, ghost before: seq<Episode>, how: seq<How>) returns (how': seq<How>)
    requires ledger.Valid() && AllUsable(worlds) && Distinct(keys) && i < |keys|
    requires AllSettled(worlds, keys, iters, before, ledger.episodes, how) && OutsidersKept(keys, before, ledger.episodes)
    requires how[i] == Waiting && snapshot == Own(before, keys[i])
    modifies ledger
    ensures ledger.Valid() && how' == how[i := ByWorker]
    ensures AllSettled(worlds, keys, iters, before, ledger.episodes, how') && OutsidersKept(keys, before, ledger.episodes)
  {
    hide Pick, RunOwn, OutsidersKept, RemoveAll, Distinct;
    assert Settled(worlds[i], keys[i], iters, Own(before, keys[i]), Own(ledger.episodes, keys[i]), how[i]);
    assert Usable(worlds[i]);
    ghost var now := ledger.episodes;
    PickOfPick(before, keys[i], true);
    var report, added, removed := BootstrapWorker(worlds[i].env, keys[i], worlds[i].history, snapshot, iters);
    forall k | 0 <= k < |removed|
      ensures removed[k] in snapshot
    {
      assert removed[k] in removed;
    }
    ApplyDifference(ledger, keys[i], added, removed);
    assert Reapplied(snapshot, report.own, Own(ledger.episodes, keys[i]));
    assert Settled(worlds[i], keys[i], iters, Own(before, keys[i]), Own(ledger.episodes, keys[i]), ByWorker);
    SettleOne(worlds, keys, iters, before, now, ledger.episodes, how, i, ByWorker);
    how' := how[i := ByWorker];
  }

  function Result(a: Arrival): How { if a.Finished? then ByWorker else Crashed }

  /** The first t arrivals are recorded, the later ones are not. */
  ghost predicate Recorded(arrivals: seq<Arrival>, t: nat, how: seq<How>) {
    && (forall p :: 0 <= p < |arrivals| ==>
         arrivals[p].i < |how| && how[arrivals[p].i] == if p < t then Result(arrivals[p]) else Waiting)
    && (forall i :: 0 <= i < |how| && how[i] == Crashed ==> Raised(i) in arrivals)
    && (forall i :: 0 <= i < |how| ==> how[i] != Broken && how[i] != Direct)
  }

  ghost predicate DistinctArrivals(arrivals: seq<Arrival>, n: nat) {
    && (forall p :: 0 <= p < |arrivals| ==> arrivals[p].i < n)
    && (forall p, q :: 0 <= p < q < |arrivals| ==> arrivals[p].i != arrivals[q].i)
  }

  lemma {:induction false} RecordArrival(arrivals: seq<Arrival>, t: nat, how: seq<How>)
    requires t < |arrivals| && Recorded(arrivals, t, how) && DistinctArrivals(arrivals, |how|)
    ensures Recorded(arrivals, t + 1, how[arrivals[t].i := Result(arrivals[t])])
  {
    assert arrivals[t] in arrivals;
    assert arrivals[t].Raised? ==> arrivals[t] == Raised(arrivals[t].i);
  }

  lemma {:induction false} Unstarted<M(!new)>(worlds: seq<World<M>>, keys: seq<string>, iters: nat, eps: seq<Episode>, how: seq<How>)
    requires AllUsable(worlds) && |worlds| == |keys| && how == seq(|keys|, _ => Waiting)
    ensures AllSettled(worlds, keys, iters, eps, eps, how) && OutsidersKept(keys, eps, eps)
  {
  }

  /** Bootstraps the given assets, one by one or in workers. Arrivals are the worker results in order of completion;
      when there are fewer of them than assets the pool broke, and the assets still waiting are bootstrapped one by
      one. If the direct bootstrap of one raises, those after it are not reached. */
  method BootstrapParallel<M(!new)>(ledger: EpisodeLedger, keys: seq<string>, worlds: seq<World<M>>, iters: nat,
                              workers: nat, arrivals: seq<Arrival>, brk: Option<Break>) returns (how: seq<How>, raised: bool)
    requires ledger.Valid() && |worlds| == |keys| && AllUsable(worlds) && Distinct(keys)
    requires DistinctArrivals(arrivals, |keys|)
    modifies ledger
    ensures ledger.Valid()
    ensures AllSettled(worlds, keys, iters, old(ledger.episodes), ledger.episodes, how)
    ensures OutsidersKept(keys, old(ledger.episodes), ledger.episodes)
    ensures forall i :: 0 <= i < |how| && how[i] == Crashed ==> Raised(i) in arrivals
    ensures raised ==> brk.Some? && brk.value.i < |keys|
    ensures forall i :: 0 <= i < |how| ==> (how[i] == Broken <==> raised && i == brk.value.i)
    ensures forall i :: 0 <= i < |how| && how[i] == Waiting ==> raised && i > brk.value.i
    ensures forall i :: 0 <= i < |how| && brk.Some? && brk.value.i == i ==> how[i] != Direct
  {
    hide AllSettled, OutsidersKept, Distinct, AllUsable, Pick, Recorded;
    ghost var before := ledger.episodes;
    raised := false;
    how := seq(|keys|, _ => Waiting);
    Unstarted(worlds, keys, iters, before, how);
    if workers > 1 && |keys| > 1 {
      var snapshots := seq(|keys|, i requires 0 <= i < |keys| reads ledger => Own(ledger.episodes, keys[i]));
      assert Recorded(arrivals, 0, how) by { RecordedAtStart(arrivals, how); }
      for t := 0 to |arrivals|
        invariant ledger.Valid() && |how| == |keys|
        invariant AllSettled(worlds, keys, iters, before, ledger.episodes, how)
        invariant OutsidersKept(keys, before, ledger.episodes)
        invariant Recorded(arrivals, t, how)
      {
        RecordArrival(arrivals, t, how);
        RecordedWaits(arrivals, t, how);
        var i := arrivals[t].i;
        if arrivals[t].Finished? {
          how := SettleArrival(ledger, keys, worlds, iters, i, snapshots[i], before, how);
        } else {
          CrashLeavesAsset(worlds, keys, iters, before, ledger.episodes, how, i);
          how := how[i := Crashed];
        }
      }
      RecordedCrashes(arrivals, |arrivals|, how);
    }
    for i := 0 to |keys|
      invariant ledger.Valid() && |how| == |keys|
      invariant AllSettled(worlds, keys, iters, before, ledger.episodes, how)
      invariant OutsidersKept(keys, before, ledger.episodes)
      invariant forall j :: 0 <= j < |how| ==>
        (j < i ==> how[j] != Waiting) && (how[j] == Crashed ==> Raised(j) in arrivals) && how[j] != Broken
      invariant forall j :: 0 <= j < |how| && brk.Some? && brk.value.i == j ==> how[j] != Direct
    {
      if how[i] == Waiting && brk.Some? && brk.value.i == i {
        how := BreakDirectly(ledger, keys, worlds, iters, brk.value, before, how);
        return how, true;
      }
      if how[i] == Waiting {
        how := SettleDirectly(ledger, keys, worlds, iters, i, before, how);
      }
    }
  }

  lemma {:induction false} RecordedAtStart(arrivals: seq<Arrival>, how: seq<How>)
    requires DistinctArrivals(arrivals, |how|) && forall i :: 0 <= i < |how| ==> how[i] == Waiting
    ensures Recorded(arrivals, 0, how)
  {
  }

  lemma {:induction false} RecordedWaits(arrivals: seq<Arrival>, t: nat, how: seq<How>)
    requires Recorded(arrivals, t, how) && t < |arrivals|
    ensures arrivals[t].i < |how| && how[arrivals[t].i] == Waiting
  {
  }

  lemma {:induction false} RecordedCrashes(arrivals: seq<Arrival>, t: nat, how: seq<How>)
    requires Recorded(arrivals, t, how)
    ensures forall i :: 0 <= i < |how| ==> (how[i] == Crashed ==> Raised(i) in arrivals) && how[i] != Broken && how[i] != Direct
  {
  }

  lemma {:induction false} CrashLeavesAsset<M(!new)>(worlds: seq<World<M>>, keys: seq<string>, iters: nat,
                                                before: seq<Episode>, now: seq<Episode>, how: seq<How>, i: nat)
    requires AllUsable(worlds) && AllSettled(worlds, keys, iters, before, now, how) && i < |keys| && how[i] == Waiting
    ensures AllSettled(worlds, keys, iters, before, now, how[i := Crashed])
  {
    hide Pick, RunOwn, Reapplied;
  }

  /** An asset that did not crash ends with the set of episodes a direct bootstrap leaves, exactly when no
      episode its worker removed was ledgered twice; without a worker, with that very sequence. */
  lemma {:induction false} SettledLikeDirect<M(!new)>(w: World<M>, key: string, iters: nat, before: seq<Episode>, left: seq<Episode>, how: How)
    requires Usable(w) && Settled(w, key, iters, before, left, how) && (how == Direct || how == ByWorker)
    ensures how == Direct ==> left == Bootstrapped(w, key, iters, before)
    ensures how == ByWorker ==>
              (SameSet(left, Bootstrapped(w, key, iters, before))
               <==> forall e :: e in before && e !in Bootstrapped(w, key, iters, before) ==> multiset(before)[e] == 1)
    ensures before == [] ==> SameSet(left, Bootstrapped(w, key, iters, before))
  {
    hide Bootstrapped;
    if how == ByWorker {
      DifferenceRebuilds(before, Bootstrapped(w, key, iters, before), left);
    }
  }

  // ---- first contact for every asset that never had it -------------------------------------------------

  /** The monitored assets to bootstrap: not marked before, and with nothing in the ledger. */
  ghost predicate Selects(idx: seq<nat>, keys: seq<string>, marked: seq<bool>, eps: seq<Episode>, n: nat)
    requires |marked| == |keys|
  {
    && (forall k :: 0 <= k < |idx| ==> idx[k] < n <= |keys| && !marked[idx[k]] && Own(eps, keys[idx[k]]) == [])
    && (forall j, k :: 0 <= j < k < |idx| ==> idx[j] < idx[k])
    && (forall i :: 0 <= i < n <= |keys| && !marked[i] && Own(eps, keys[i]) == [] ==> exists k :: 0 <= k < |idx| && idx[k] == i)
  }

  lemma {:induction false} SelectNext(idx: seq<nat>, keys: seq<string>, marked: seq<bool>, eps: seq<Episode>, n: nat)
    requires |marked| == |keys| && n < |keys| && Selects(idx, keys, marked, eps, n)
    ensures Selects(if !marked[n] && Own(eps, keys[n]) == [] then idx + [n] else idx, keys, marked, eps, n + 1)
  {
    hide Pick;
    var next := if !marked[n] && Own(eps, keys[n]) == [] then idx + [n] else idx;
    forall i | 0 <= i < n + 1 && !marked[i] && Own(eps, keys[i]) == []
      ensures exists k :: 0 <= k < |next| && next[k] == i
    {
      if i < n {
        var k :| 0 <= k < |idx| && idx[k] == i;
        assert next[k] == i;
      } else {
        assert next[|idx|] == i;
      }
    }
  }

  /** The episodes a first contact leaves: those of a direct bootstrap as a set, none if the worker raised or the
      asset was not reached; what a direct bootstrap wrote before it raised is not said. */
  ghost predicate FirstContact<M(!new)>(w: World<M>, key: string, iters: nat, now: seq<Episode>, how: How)
    requires Usable(w)
  {
    if how == Crashed || how == Waiting then now == []
    else how != Broken ==> SameSet(now, Bootstrapped(w, key, iters, []))
  }

  /** Whatever the number of workers and the order in which they finish, every pending asset whose worker did not
      raise ends with the episodes of a direct bootstrap, unless a direct bootstrap raised, its own or one before
      it; and every other asset keeps its own. */
  method BootstrapVirgin<M(!new)>(ledger: EpisodeLedger, keys: seq<string>, marked: seq<bool>, worlds: seq<World<M>>, iters: nat,
                            workers: nat, schedule: nat -> seq<Arrival>, brk: Option<Break>)
    returns (pending: seq<nat>, how: seq<How>, raised: bool)
    requires ledger.Valid() && |worlds| == |keys| == |marked| && AllUsable(worlds) && Distinct(keys)
    requires forall n :: DistinctArrivals(schedule(n), n)
    modifies ledger
    ensures ledger.Valid() && |how| == |pending|
    ensures raised ==> brk.Some? && brk.value.i < |pending|
    ensures Selects(pending, keys, marked, old(ledger.episodes), |keys|)
    ensures forall k :: 0 <= k < |pending| ==>
              && FirstContact(worlds[pending[k]], keys[pending[k]], iters, Own(ledger.episodes, keys[pending[k]]), how[k])
              && (how[k] == Crashed ==> Raised(k) in schedule(|pending|))
              && (how[k] == Broken <==> raised && k == brk.value.i)
              && (how[k] == Waiting ==> raised && k > brk.value.i)
    ensures forall a :: (forall k :: 0 <= k < |pending| ==> keys[pending[k]] != a) ==>
              Own(ledger.episodes, a) == old(Own(ledger.episodes, a))
  {
    hide Pick, Settled, Selects, SameSet, Bootstrapped;
    pending := [];
    assert Selects(pending, keys, marked, ledger.episodes, 0) by { SelectNone(keys, marked, ledger.episodes); }
    for i := 0 to |keys|
      invariant ledger.Valid() && ledger.episodes == old(ledger.episodes) && Selects(pending, keys, marked, ledger.episodes, i)
    {
      SelectNext(pending, keys, marked, ledger.episodes, i);
      if !marked[i] && Own(ledger.episodes, keys[i]) == [] {
        pending := pending + [i];
      }
    }
    SelectedFacts(pending, keys, marked, ledger.episodes, |keys|);
    ghost var before := ledger.episodes;
    var chosen := seq(|pending|, k requires 0 <= k < |pending| => keys[pending[k]]);
    var seen := seq(|pending|, k requires 0 <= k < |pending| => worlds[pending[k]]);
    assert AllUsable(seen) by {
      forall k | 0 <= k < |seen|
        ensures Usable(seen[k])
      {
        assert Usable(worlds[pending[k]]);
      }
    }
    how, raised := BootstrapParallel(ledger, chosen, seen, iters, workers, schedule(|pending|), brk);
    forall k | 0 <= k < |pending|
      ensures FirstContact(worlds[pending[k]], keys[pending[k]], iters, Own(ledger.episodes, keys[pending[k]]), how[k])
    {
      assert Own(before, keys[pending[k]]) == [] && chosen[k] == keys[pending[k]];
      assert Settled(seen[k], chosen[k], iters, Own(before, chosen[k]), Own(ledger.episodes, chosen[k]), how[k]);
      SettledIsFirstContact(seen[k], chosen[k], iters, Own(ledger.episodes, chosen[k]), how[k]);
    }
    forall a | forall k :: 0 <= k < |pending| ==> keys[pending[k]] != a
      ensures Own(ledger.episodes, a) == Own(before, a)
    {
      assert forall k :: 0 <= k < |chosen| ==> chosen[k] != a;
    }
  }

  lemma {:induction false} SelectNone(keys: seq<string>, marked: seq<bool>, eps: seq<Episode>)
    requires |marked| == |keys|
    ensures Selects([], keys, marked, eps, 0)
  {
  }

  lemma {:induction false} SelectedFacts(idx: seq<nat>, keys: seq<string>, marked: seq<bool>, eps: seq<Episode>, n: nat)
    requires |marked| == |keys| && Distinct(keys) && n <= |keys| && Selects(idx, keys, marked, eps, n)
    ensures forall k :: 0 <= k < |idx| ==> idx[k] < |keys| && Own(eps, keys[idx[k]]) == []
    ensures forall j, k :: 0 <= j < k < |idx| ==> keys[idx[j]] != keys[idx[k]]
  {
    hide Pick;
  }

  lemma {:induction false} SettledIsFirstContact<M(!new)>(w: World<M>, key: string, iters: nat, left: seq<Episode>, how: How)
    requires Usable(w) && Settled(w, key, iters, [], left, how)
    ensures FirstContact(w, key, iters, left, how)
  {
    hide Bootstrapped;
    if how == Direct || how == ByWorker {
      SettledLikeDirect(w, key, iters, [], left, how);
    }
  }
}
