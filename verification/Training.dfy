/** Early stopping and compaction. */
module Training {
  // Channels train in one group and stop one by one: whether or not stopped channels are compacted out of
  // the tensors, every channel ends as if it had been trained alone.

  import opened Timelines

  const MAX_EPOCHS: nat := 300
  const PATIENCE: nat := 20
  const COMPACT_AT_LEAST: nat := 8
  const IMPROVEMENT := 0.00001

  /** A held-out loss; anything but a finite number never counts as an improvement. */
  datatype Loss = Finite(value: real) | Infinite | NotANumber

  predicate Improves(loss: Loss, best: Loss) {
    loss.Finite? && (best == Infinite || (best.Finite? && loss.value < best.value - IMPROVEMENT))
  }

  /** What training does to one channel: its step of an epoch (weights, moments and the epoch's shuffle
      included), taken with or without gradient, and its held-out loss. */
  datatype Recipe<!W> = Recipe(step: (nat, nat, W, bool) -> W, loss: (nat, W) -> Loss)

  datatype Record<W> = Record(best: Loss, bestW: W, patience: int, active: bool)

  datatype Track<W> = Track(w: W, record: Record<W>)

  function Fresh<W>(w: W): Record<W> { Record(Infinite, w, PATIENCE, true) }

  /** Early stopping after an epoch that left weights w. */
  function Judge<W>(r: Record<W>, w: W, loss: Loss): Record<W> {
    if !r.active then r
    else if Improves(loss, r.best) then Record(loss, w, PATIENCE, true)
    else r.(patience := r.patience - 1, active := r.patience - 1 > 0)
  }

  function NextTrack<W>(recipe: Recipe<W>, i: nat, epoch: nat, t: Track<W>): Track<W> {
    var w := recipe.step(epoch, i, t.w, t.record.active);
    Track(w, Judge(t.record, w, recipe.loss(i, w)))
  }

  /** Channel i trained alone for the given number of epochs. */
  function Alone<W>(recipe: Recipe<W>, i: nat, init: W, epochs: nat): Track<W> {
    if epochs == 0 then Track(init, Fresh(init))
    else NextTrack(recipe, i, epochs - 1, Alone(recipe, i, init, epochs - 1))
  }

  /** Once a channel has stopped nothing about its result changes. */
  lemma {:induction false} StoppedIsFinal<W>(recipe: Recipe<W>, i: nat, init: W, e: nat, later: nat)
    requires e <= later && !Alone(recipe, i, init, e).record.active
    ensures Alone(recipe, i, init, later).record == Alone(recipe, i, init, e).record
  {
    if e < later {
      StoppedIsFinal(recipe, i, init, e, later - 1);
    }
  }

  /** Without an improvement a channel stops within the patience left. */
  lemma {:induction false} PatienceBounds<W>(recipe: Recipe<W>, i: nat, init: W, e: nat)
    ensures var r := Alone(recipe, i, init, e).record;
      r.patience <= PATIENCE && (r.active <==> r.patience > 0)
  {
    if e > 0 {
      PatienceBounds(recipe, i, init, e - 1);
    }
  }

  /** The weights kept are those that had the best loss, or the initial ones while no epoch gave a finite loss. */
  lemma {:induction false} BestWeightsAreKept<W>(recipe: Recipe<W>, i: nat, init: W, e: nat)
    ensures var r := Alone(recipe, i, init, e).record;
            (r.best == Infinite && r.bestW == init) || (r.best.Finite? && r.best == recipe.loss(i, r.bestW))
  {
    if e > 0 {
      BestWeightsAreKept(recipe, i, init, e - 1);
    }
  }

  // ---- what early stopping keeps, and when it stops -----------------------------------------------------

  /** The loss of an epoch, and whether the channel was still being trained in it. */
  function LossAt<W>(recipe: Recipe<W>, i: nat, init: W, k: nat): Loss { recipe.loss(i, Alone(recipe, i, init, k + 1).w) }

  predicate ActiveAt<W>(recipe: Recipe<W>, i: nat, init: W, k: nat) { Alone(recipe, i, init, k).record.active }

  /** The loss of epoch k is the first finite one, or below the best before it by more than 0.00001. */
  predicate Better<W>(recipe: Recipe<W>, i: nat, init: W, k: nat) {
    var loss, best := LossAt(recipe, i, init, k), Alone(recipe, i, init, k).record.best;
    loss.Finite? && (best.Finite? ==> loss.value < best.value - 0.00001)
  }

  /** Weights move by the steps, with gradient exactly while the channel is active. */
  lemma {:induction false} WeightsFollowSteps<W>(recipe: Recipe<W>, i: nat, init: W, k: nat)
    ensures Alone(recipe, i, init, 0).w == init
    ensures Alone(recipe, i, init, k + 1).w == recipe.step(k, i, Alone(recipe, i, init, k).w, ActiveAt(recipe, i, init, k))
  {
  }

  lemma {:induction false} JudgedBy<W>(recipe: Recipe<W>, i: nat, init: W, k: nat)
    ensures var r, next := Alone(recipe, i, init, k).record, Alone(recipe, i, init, k + 1).record;
            && (!r.active ==> next == r)
            && (r.active && Better(recipe, i, init, k) ==>
                  next == Record(LossAt(recipe, i, init, k), Alone(recipe, i, init, k + 1).w, 20, true))
            && (r.active && !Better(recipe, i, init, k) ==>
                  next == r.(patience := r.patience - 1, active := r.patience > 1))
  {
    BestWeightsAreKept(recipe, i, init, k);
  }

  /** The best loss kept is within 0.00001 of every finite loss of an epoch the channel was trained in. */
  lemma {:induction false} NoEpochMuchBetter<W>(recipe: Recipe<W>, i: nat, init: W, e: nat, k: nat)
    requires k < e && ActiveAt(recipe, i, init, k) && LossAt(recipe, i, init, k).Finite?
    ensures Alone(recipe, i, init, e).record.best.Finite?
    ensures Alone(recipe, i, init, e).record.best.value <= LossAt(recipe, i, init, k).value + 0.00001
    decreases e
  {
    JudgedBy(recipe, i, init, e - 1);
    if k + 1 < e {
      NoEpochMuchBetter(recipe, i, init, e - 1, k);
    }
    hide Alone;
  }

  /** The epoch whose loss and weights are the ones kept. */
  ghost predicate KeptAt<W>(recipe: Recipe<W>, i: nat, init: W, k: nat, r: Record<W>) {
    ActiveAt(recipe, i, init, k) && r.best.Finite? && r.best == LossAt(recipe, i, init, k) && r.bestW == Alone(recipe, i, init, k + 1).w
  }

  /** What is kept was had: by an epoch the channel was trained in, or, none having a finite loss, at the start. */
  lemma {:induction false} BestWasHad<W(!new)>(recipe: Recipe<W>, i: nat, init: W, e: nat)
    ensures var r := Alone(recipe, i, init, e).record;
            if r.best.Finite? then exists k: nat :: k < e && KeptAt(recipe, i, init, k, r) else r.bestW == init
  {
    hide KeptAt;
    if e > 0 {
      BestWasHad(recipe, i, init, e - 1);
      JudgedBy(recipe, i, init, e - 1);
      KeptLater(recipe, i, init, e - 1);
      var was, r := Alone(recipe, i, init, e - 1).record, Alone(recipe, i, init, e).record;
      hide Alone;
      if was.best.Finite? && r.best == was.best && r.bestW == was.bestW {
        var k: nat :| k < e - 1 && KeptAt(recipe, i, init, k, was);
        KeptSame(recipe, i, init, k, was, r);
      }
    }
  }

  lemma {:induction false} KeptLater<W>(recipe: Recipe<W>, i: nat, init: W, k: nat)
    ensures ActiveAt(recipe, i, init, k) && Better(recipe, i, init, k) ==> KeptAt(recipe, i, init, k, Alone(recipe, i, init, k + 1).record)
  {
    JudgedBy(recipe, i, init, k);
    hide Alone;
  }

  lemma {:induction false} KeptSame<W>(recipe: Recipe<W>, i: nat, init: W, k: nat, r: Record<W>, q: Record<W>)
    requires KeptAt(recipe, i, init, k, r) && q.best == r.best && q.bestW == r.bestW
    ensures KeptAt(recipe, i, init, k, q)
  {
  }

  /** Twenty epochs in a row from epoch f on none of which was better. */
  ghost predicate Stalled<W>(recipe: Recipe<W>, i: nat, init: W, f: nat) {
    forall k :: f <= k < f + 20 ==> !Better(recipe, i, init, k)
  }

  ghost predicate StalledBefore<W>(recipe: Recipe<W>, i: nat, init: W, e: nat) {
    exists f: nat :: f + 20 <= e && Stalled(recipe, i, init, f)
  }

  /** Patience counts down the epochs since the last better one. */
  ghost predicate Waits<W>(recipe: Recipe<W>, i: nat, init: W, e: nat, patience: int) {
    && 0 < patience <= 20 && 20 - patience <= e
    && (forall k :: e - (20 - patience) <= k < e ==> !Better(recipe, i, init, k))
    && (20 - patience < e ==> Better(recipe, i, init, e - (20 - patience) - 1))
  }

  /** A channel stops exactly when twenty epochs in a row were not better. */
  lemma {:induction false} StopsExactly<W>(recipe: Recipe<W>, i: nat, init: W, e: nat)
    ensures ActiveAt(recipe, i, init, e) <==> !StalledBefore(recipe, i, init, e)
    ensures ActiveAt(recipe, i, init, e) ==> Waits(recipe, i, init, e, Alone(recipe, i, init, e).record.patience)
  {
    if e > 0 {
      StopsExactly(recipe, i, init, e - 1);
      JudgedBy(recipe, i, init, e - 1);
      hide Alone, Better;
      var p := Alone(recipe, i, init, e - 1).record.patience;
      if ActiveAt(recipe, i, init, e - 1) {
        NewStall(recipe, i, init, e, p);
      } else {
        OldStall(recipe, i, init, e);
      }
    }
  }

  lemma {:induction false} OldStall<W>(recipe: Recipe<W>, i: nat, init: W, e: nat)
    requires e > 0 && StalledBefore(recipe, i, init, e - 1)
    ensures StalledBefore(recipe, i, init, e)
  {
    hide Stalled;
  }

  lemma {:induction false} NewStall<W>(recipe: Recipe<W>, i: nat, init: W, e: nat, patience: int)
    requires e > 0 && !StalledBefore(recipe, i, init, e - 1) && Waits(recipe, i, init, e - 1, patience)
    ensures StalledBefore(recipe, i, init, e) <==> patience == 1 && !Better(recipe, i, init, e - 1)
    ensures Better(recipe, i, init, e - 1) ==> Waits(recipe, i, init, e, 20)
    ensures patience > 1 && !Better(recipe, i, init, e - 1) ==> Waits(recipe, i, init, e, patience - 1)
  {
    hide Better;
    if patience == 1 && !Better(recipe, i, init, e - 1) {
      assert Stalled(recipe, i, init, e - 20);
    }
  }

  /** What a trained channel's result promises, whatever computed it: the best loss is that of the weights kept, had
      in an epoch the channel was trained in, within 0.00001 of every finite one; the initial weights are kept only
      if there was none; and the channel was trained until twenty epochs in a row were not better. */
  ghost predicate WellTrained<W(!new)>(recipe: Recipe<W>, i: nat, init: W, r: Record<W>) {
    && (if r.best.Finite? then exists k: nat :: k < 300 && KeptAt(recipe, i, init, k, r) else r.bestW == init)
    && (forall k: nat :: k < 300 && ActiveAt(recipe, i, init, k) && LossAt(recipe, i, init, k).Finite? ==>
          r.best.Finite? && r.best.value <= LossAt(recipe, i, init, k).value + 0.00001)
    && (r.active <==> !StalledBefore(recipe, i, init, 300))
    && (forall k: nat :: k < 300 ==> (ActiveAt(recipe, i, init, k) <==> !StalledBefore(recipe, i, init, k)))
  }

  lemma {:induction false} AloneIsWellTrained<W(!new)>(recipe: Recipe<W>, init: seq<W>, result: seq<Record<W>>)
    requires AsIfAlone(recipe, init, result)
    ensures forall i :: 0 <= i < |init| ==> WellTrained(recipe, i, init[i], result[i])
  {
    hide Alone, LossAt, StalledBefore, KeptAt;
    forall i | 0 <= i < |init|
      ensures WellTrained(recipe, i, init[i], result[i])
    {
      BestWasHad(recipe, i, init[i], 300);
      StopsExactly(recipe, i, init[i], 300);
      forall k: nat | k < 300
        ensures ActiveAt(recipe, i, init[i], k) <==> !StalledBefore(recipe, i, init[i], k)
        ensures ActiveAt(recipe, i, init[i], k) && LossAt(recipe, i, init[i], k).Finite? ==>
                  result[i].best.Finite? && result[i].best.value <= LossAt(recipe, i, init[i], k).value + 0.00001
      {
        StopsExactly(recipe, i, init[i], k);
        if ActiveAt(recipe, i, init[i], k) && LossAt(recipe, i, init[i], k).Finite? {
          NoEpochMuchBetter(recipe, i, init[i], 300, k);
        }
      }
    }
  }

  ghost predicate AnyActive<W(!new)>(recipe: Recipe<W>, init: seq<W>, e: nat) {
    exists i: nat :: i < |init| && Alone(recipe, i, init[i], e).record.active
  }

  /** The number of epochs a group trains: until no channel is active or the limit. */
  ghost predicate IsStop<W(!new)>(recipe: Recipe<W>, init: seq<W>, epochs: nat) {
    && epochs <= MAX_EPOCHS
    && (epochs == MAX_EPOCHS || (epochs > 0 && !AnyActive(recipe, init, epochs)))
    && forall e :: 0 < e < epochs ==> AnyActive(recipe, init, e)
  }

  lemma {:induction false} StopIsUnique<W(!new)>(recipe: Recipe<W>, init: seq<W>, a: nat, b: nat)
    requires IsStop(recipe, init, a) && IsStop(recipe, init, b)
    ensures a == b
  {
    hide AnyActive;
    var atA, atB := AnyActive(recipe, init, a), AnyActive(recipe, init, b);
  }

  /** Every channel's best weights, best loss, patience and active flag are those of training it alone. */
  ghost predicate AsIfAlone<W(!new)>(recipe: Recipe<W>, init: seq<W>, records: seq<Record<W>>) {
    && |records| == |init|
    && forall i :: 0 <= i < |init| ==> records[i] == Alone(recipe, i, init[i], MAX_EPOCHS).record
  }

  ghost predicate AllAt<W(!new)>(recipe: Recipe<W>, init: seq<W>, e: nat, records: seq<Record<W>>) {
    && |records| == |init|
    && forall i :: 0 <= i < |init| ==> records[i] == Alone(recipe, i, init[i], e).record
  }

  lemma {:induction false} StoppedGroup<W(!new)>(recipe: Recipe<W>, init: seq<W>, e: nat, records: seq<Record<W>>)
    requires AllAt(recipe, init, e, records) && e <= MAX_EPOCHS
    requires e == MAX_EPOCHS || forall i :: 0 <= i < |records| ==> !records[i].active
    ensures AsIfAlone(recipe, init, records)
  {
    forall i | 0 <= i < |init|
      ensures records[i] == Alone(recipe, i, init[i], MAX_EPOCHS).record
    {
      if e < MAX_EPOCHS {
        StoppedIsFinal(recipe, i, init[i], e, MAX_EPOCHS);
      }
    }
  }

  lemma {:induction false} ActiveSeen<W(!new)>(recipe: Recipe<W>, init: seq<W>, e: nat, records: seq<Record<W>>)
    requires AllAt(recipe, init, e, records)
    ensures AnyActive(recipe, init, e) <==> exists i :: 0 <= i < |records| && records[i].active
  {
    if AnyActive(recipe, init, e) {
      var i: nat :| i < |init| && Alone(recipe, i, init[i], e).record.active;
      assert records[i].active;
    }
    if i :| 0 <= i < |records| && records[i].active {
      assert Alone(recipe, i, init[i], e).record.active;
    }
  }

  /** Whether any channel of the group is still active. */
  method AnyLeft<W>(records: array<Record<W>>) returns (any: bool)
    ensures any <==> exists i :: 0 <= i < records.Length && records[i].active
  {
    any := false;
    for i := 0 to records.Length
      invariant any <==> exists p :: 0 <= p < i && records[p].active
    {
      any := any || records[i].active;
    }
  }

  // ---- without compaction -------------------------------------------------------------------------------

  /** All channels train on to the end of the group, the stopped ones without gradient. */
  method TrainPlain<W(!new)>(recipe: Recipe<W>, init: seq<W>) returns (result: seq<Record<W>>, epochs: nat)
    requires init != []
    ensures AsIfAlone(recipe, init, result) && IsStop(recipe, init, epochs)
    ensures forall i :: 0 <= i < |init| ==> WellTrained(recipe, i, init[i], result[i])
  {
    hide AnyActive, Alone, WellTrained;
    var records := new Record<W>[|init|](i requires 0 <= i < |init| => Fresh(init[i]));
    var w := init;
    epochs := 0;
    StartsFresh(recipe, init, records[..]);
    while epochs < MAX_EPOCHS
      invariant epochs <= MAX_EPOCHS && |w| == |init| && records.Length == |init|
      invariant AllAt(recipe, init, epochs, records[..])
      invariant forall i :: 0 <= i < |init| ==> w[i] == Alone(recipe, i, init[i], epochs).w
      invariant forall e :: 0 < e <= epochs ==> AnyActive(recipe, init, e)
    {
      w := StepAll(recipe, init, epochs, w, records);
      epochs := epochs + 1;
      var any := AnyLeft(records);
      ActiveSeen(recipe, init, epochs, records[..]);
      if !any {
        break;
      }
    }
    StoppedGroup(recipe, init, epochs, records[..]);
    result := records[..];
    AloneIsWellTrained(recipe, init, result);
  }

  lemma {:induction false} StartsFresh<W(!new)>(recipe: Recipe<W>, init: seq<W>, records: seq<Record<W>>)
    requires |records| == |init| && forall i :: 0 <= i < |init| ==> records[i] == Fresh(init[i])
    ensures AllAt(recipe, init, 0, records)
    ensures forall i :: 0 <= i < |init| ==> Alone(recipe, i, init[i], 0).w == init[i]
  {
  }

  method StepAll<W(!new)>(recipe: Recipe<W>, init: seq<W>, e: nat, w: seq<W>, records: array<Record<W>>) returns (next: seq<W>)
    requires |w| == |init| && AllAt(recipe, init, e, records[..])
    requires forall i :: 0 <= i < |init| ==> w[i] == Alone(recipe, i, init[i], e).w
    modifies records
    ensures |next| == |init| && AllAt(recipe, init, e + 1, records[..])
    ensures forall i :: 0 <= i < |init| ==> next[i] == Alone(recipe, i, init[i], e + 1).w
  {
    assert forall i :: 0 <= i < |init| ==> records[..][i] == records[i];
    next := [];
    for i := 0 to |init|
      invariant |next| == i && records.Length == |init|
      invariant forall p :: 0 <= p < i ==> Track(next[p], records[p]) == Alone(recipe, p, init[p], e + 1)
      invariant forall p :: i <= p < |init| ==> records[p] == Alone(recipe, p, init[p], e).record
    {
      var v := recipe.step(e, i, w[i], records[i].active);
      assert Track(w[i], records[i]) == Alone(recipe, i, init[i], e);
      records[i] := Judge(records[i], v, recipe.loss(i, v));
      next := next + [v];
    }
  }

  // ---- with compaction -----------------------------------------------------------------------------------

  /** Rows still in the tensors: the channels in `live`, in order, among them every active one, each with the
      weights of training it alone. */
  ghost predicate LiveRows<W(!new)>(recipe: Recipe<W>, init: seq<W>, e: nat, live: seq<nat>, w: seq<W>) {
    && |w| == |live| && Rising(live)
    && (forall r :: 0 <= r < |live| ==> live[r] < |init| && w[r] == Alone(recipe, live[r], init[live[r]], e).w)
    && (forall i: nat :: i < |init| && Alone(recipe, i, init[i], e).record.active ==> IsLive(live, i))
  }

  ghost predicate IsLive(live: seq<nat>, i: nat) { exists r :: 0 <= r < |live| && live[r] == i }

  /** Stopped channels are dropped from the tensors whenever enough of the rows are dead. */
  method TrainCompacting<W(!new)>(recipe: Recipe<W>, init: seq<W>) returns (result: seq<Record<W>>, epochs: nat)
    requires init != []
    ensures AsIfAlone(recipe, init, result) && IsStop(recipe, init, epochs)
    ensures forall i :: 0 <= i < |init| ==> WellTrained(recipe, i, init[i], result[i])
  {
    hide AnyActive, Alone, LiveRows, WellTrained;
    var records := new Record<W>[|init|](i requires 0 <= i < |init| => Fresh(init[i]));
    StartsFresh(recipe, init, records[..]);
    var live: seq<nat> := seq(|init|, i => i);
    var w := init;
    AllLive(recipe, init, live);
    epochs := 0;
    while epochs < MAX_EPOCHS
      invariant epochs <= MAX_EPOCHS && records.Length == |init|
      invariant AllAt(recipe, init, epochs, records[..]) && LiveRows(recipe, init, epochs, live, w)
      invariant forall e :: 0 < e <= epochs ==> AnyActive(recipe, init, e)
    {
      w := StepLive(recipe, init, epochs, live, w, records);
      epochs := epochs + 1;
      var any := AnyLeft(records);
      ActiveSeen(recipe, init, epochs, records[..]);
      if !any {
        break;
      }
      live, w := Compact(recipe, init, epochs, live, w, records);
    }
    StoppedGroup(recipe, init, epochs, records[..]);
    result := records[..];
    AloneIsWellTrained(recipe, init, result);
  }

  lemma {:induction false} AllLive<W(!new)>(recipe: Recipe<W>, init: seq<W>, live: seq<nat>)
    requires live == seq(|init|, i => i)
    ensures LiveRows(recipe, init, 0, live, init)
  {
    forall i: nat | i < |init|
      ensures IsLive(live, i)
    {
      assert live[i] == i;
    }
  }

  lemma {:induction false} LiveDistinct(live: seq<nat>, r: nat)
    requires Rising(live) && r < |live|
    ensures !IsLive(live[..r], live[r])
    ensures forall i: nat :: IsLive(live[..r + 1], i) <==> IsLive(live[..r], i) || i == live[r]
  {
    forall i: nat
      ensures IsLive(live[..r + 1], i) <==> IsLive(live[..r], i) || i == live[r]
    {
      if IsLive(live[..r], i) {
        var p :| 0 <= p < r && live[..r][p] == i;
        assert live[..r + 1][p] == i;
      }
      assert live[..r + 1][r] == live[r];
    }
  }

  method StepLive<W(!new)>(recipe: Recipe<W>, init: seq<W>, e: nat, live: seq<nat>, w: seq<W>, records: array<Record<W>>)
    returns (next: seq<W>)
    requires AllAt(recipe, init, e, records[..]) && LiveRows(recipe, init, e, live, w)
    modifies records
    ensures AllAt(recipe, init, e + 1, records[..]) && LiveRows(recipe, init, e + 1, live, next)
  {
    hide IsLive, Rising;
    ghost var was := records[..];
    next := [];
    assert live[..0] == [];
    NoneLive();
    for r := 0 to |live|
      invariant |next| == r && records.Length == |init|
      invariant forall p :: 0 <= p < r ==> Track(next[p], records[live[p]]) == Alone(recipe, live[p], init[live[p]], e + 1)
      invariant forall i: nat :: i < |init| && !IsLive(live[..r], i) ==> records[i] == was[i]
      invariant forall p :: 0 <= p < r ==> IsLive(live[..r], live[p])
    {
      LiveDistinct(live, r);
      var i := live[r];
      var v := recipe.step(e, i, w[r], records[i].active);
      assert Track(w[r], records[i]) == Alone(recipe, i, init[i], e);
      records[i] := Judge(records[i], v, recipe.loss(i, v));
      next := next + [v];
    }
    assert live[..|live|] == live;
    AllStepped(recipe, init, e, live, w, next, was, records[..]);
  }

  lemma {:induction false} NoneLive()
    ensures forall i: nat :: !IsLive([], i)
  {
  }

  /** Rows that are not live are of stopped channels, which a step of theirs would not change either. */
  lemma {:induction false} AllStepped<W(!new)>(recipe: Recipe<W>, init: seq<W>, e: nat, live: seq<nat>, w: seq<W>, next: seq<W>,
                                          was: seq<Record<W>>, now: seq<Record<W>>)
    requires AllAt(recipe, init, e, was) && LiveRows(recipe, init, e, live, w)
    requires |next| == |live| && |now| == |init|
    requires forall p :: 0 <= p < |live| ==> Track(next[p], now[live[p]]) == Alone(recipe, live[p], init[live[p]], e + 1)
    requires forall i: nat :: i < |init| && !IsLive(live, i) ==> now[i] == was[i]
    ensures AllAt(recipe, init, e + 1, now) && LiveRows(recipe, init, e + 1, live, next)
  {
    forall i: nat | i < |init|
      ensures now[i] == Alone(recipe, i, init[i], e + 1).record
      ensures now[i].active ==> IsLive(live, i)
    {
      if IsLive(live, i) {
        var r :| 0 <= r < |live| && live[r] == i;
      } else {
        StoppedIsFinal(recipe, i, init[i], e, e + 1);
      }
    }
    forall r | 0 <= r < |live|
      ensures next[r] == Alone(recipe, live[r], init[live[r]], e + 1).w
    {
      assert Track(next[r], now[live[r]]).w == next[r];
    }
  }

  /** The rows in the tensors whose channel is still being trained, and their weights. */
  function ActiveRows<W>(live: seq<nat>, records: seq<Record<W>>): (rows: seq<nat>)
    requires forall r :: 0 <= r < |live| ==> live[r] < |records|
    ensures |rows| <= |live|
  {
    if live == [] then []
    else
      var n := |live| - 1;
      ActiveRows(live[..n], records) + if records[live[n]].active then [live[n]] else []
  }

  function ActiveWeights<W>(live: seq<nat>, w: seq<W>, records: seq<Record<W>>): (rows: seq<W>)
    requires |w| == |live| && forall r :: 0 <= r < |live| ==> live[r] < |records|
    ensures |rows| == |ActiveRows(live, records)|
  {
    if live == [] then []
    else
      var n := |live| - 1;
      ActiveWeights(live[..n], w[..n], records) + if records[live[n]].active then [w[n]] else []
  }

  /** Drops the rows of stopped channels when there are at least eight of them and a quarter of the rows. */
  method Compact<W(!new)>(recipe: Recipe<W>, init: seq<W>, e: nat, live: seq<nat>, w: seq<W>, records: array<Record<W>>)
    returns (live': seq<nat>, w': seq<W>)
    requires AllAt(recipe, init, e, records[..]) && LiveRows(recipe, init, e, live, w)
    ensures LiveRows(recipe, init, e, live', w')
    ensures var dead := |live| - |ActiveRows(live, records[..])|;
            live' == if dead >= 8 && dead >= |live| / 4 then ActiveRows(live, records[..]) else live
  {
    hide Alone, IsLive, Rising;
    var kept: seq<nat> := [];
    var keptW: seq<W> := [];
    for r := 0 to |live|
      invariant kept == ActiveRows(live[..r], records[..]) && keptW == ActiveWeights(live[..r], w[..r], records[..])
    {
      assert live[..r + 1][..r] == live[..r] && w[..r + 1][..r] == w[..r];
      if records[live[r]].active {
        kept, keptW := kept + [live[r]], keptW + [w[r]];
      }
    }
    assert live[..|live|] == live && w[..|live|] == w;
    ActiveAreLive(recipe, init, e, live, w, records[..]);
    var dead := |live| - |kept|;
    if dead >= COMPACT_AT_LEAST && dead >= |live| / 4 {
      return kept, keptW;
    }
    return live, w;
  }

  lemma {:induction false} ActiveFrom<W>(live: seq<nat>, w: seq<W>, records: seq<Record<W>>, p: nat) returns (r: nat)
    requires |w| == |live| && (forall r :: 0 <= r < |live| ==> live[r] < |records|) && p < |ActiveRows(live, records)|
    ensures r < |live| && live[r] == ActiveRows(live, records)[p] && w[r] == ActiveWeights(live, w, records)[p]
  {
    var n := |live| - 1;
    if p < |ActiveRows(live[..n], records)| {
      r := ActiveFrom(live[..n], w[..n], records, p);
    } else {
      r := n;
    }
  }

  lemma {:induction false} ActiveRise<W>(live: seq<nat>, w: seq<W>, records: seq<Record<W>>)
    requires |w| == |live| && Rising(live) && forall r :: 0 <= r < |live| ==> live[r] < |records|
    ensures Rising(ActiveRows(live, records))
  {
    if live != [] {
      var n := |live| - 1;
      var rows := ActiveRows(live[..n], records);
      ActiveRise(live[..n], w[..n], records);
      forall p | 0 <= p < |rows|
        ensures rows[p] < live[n]
      {
        var r := ActiveFrom(live[..n], w[..n], records, p);
      }
    }
  }

  lemma {:induction false} ActiveKept<W>(live: seq<nat>, records: seq<Record<W>>, r: nat)
    requires r < |live| && (forall r :: 0 <= r < |live| ==> live[r] < |records|) && records[live[r]].active
    ensures IsLive(ActiveRows(live, records), live[r])
  {
    var n := |live| - 1;
    var rows := ActiveRows(live[..n], records);
    if r < n {
      ActiveKept(live[..n], records, r);
    }
    if records[live[n]].active {
      KeepsLive(rows, live[n]);
    } else {
      assert ActiveRows(live, records) == rows;
    }
  }

  /** The active rows are rows in the tensors, and every active channel is among them. */
  lemma {:induction false} ActiveAreLive<W(!new)>(recipe: Recipe<W>, init: seq<W>, e: nat, live: seq<nat>, w: seq<W>, records: seq<Record<W>>)
    requires AllAt(recipe, init, e, records) && LiveRows(recipe, init, e, live, w)
    ensures LiveRows(recipe, init, e, ActiveRows(live, records), ActiveWeights(live, w, records))
  {
    hide Alone, Rising;
    ActiveRise(live, w, records);
    var rows, weights := ActiveRows(live, records), ActiveWeights(live, w, records);
    forall p | 0 <= p < |rows|
      ensures rows[p] < |init| && weights[p] == Alone(recipe, rows[p], init[rows[p]], e).w
    {
      var r := ActiveFrom(live, w, records, p);
    }
    forall i: nat | i < |init| && Alone(recipe, i, init[i], e).record.active
      ensures IsLive(rows, i)
    {
      assert records[i].active && IsLive(live, i);
      var r :| 0 <= r < |live| && live[r] == i;
      ActiveKept(live, records, r);
    }
  }

  lemma {:induction false} KeepsLive(live: seq<nat>, c: nat)
    ensures forall i: nat :: IsLive(live, i) ==> IsLive(live + [c], i)
    ensures IsLive(live + [c], c)
  {
    var more := live + [c];
    assert more[|live|] == c;
    forall i: nat | IsLive(live, i)
      ensures IsLive(more, i)
    {
      var p :| 0 <= p < |live| && live[p] == i;
      assert more[p] == i;
    }
  }

  /** Compacting changes neither any channel's result nor the number of epochs. */
  lemma {:induction false} CompactionIsInvisible<W(!new)>(recipe: Recipe<W>, init: seq<W>, plain: seq<Record<W>>, plainEpochs: nat,
                                                     compacted: seq<Record<W>>, epochs: nat)
    requires AsIfAlone(recipe, init, plain) && IsStop(recipe, init, plainEpochs)
    requires AsIfAlone(recipe, init, compacted) && IsStop(recipe, init, epochs)
    ensures plain == compacted && plainEpochs == epochs
  {
    hide Alone, IsStop;
    StopIsUnique(recipe, init, plainEpochs, epochs);
  }
}
