/** What every run of an asset keeps. */
module RuntimeSafety {
  // Whatever crashes and restarts the run contains.

  import opened Constants
  import opened IntMath
  import opened Ledgers
  import opened Results
  import opened Runtimes
  import opened Timelines
  import opened Verdicts

  // ---- the rows of a tick ----------------------------------------------------------------------------

  lemma {:induction false} SinceUnfolds(rows: seq<int>, lastSeen: Option<int>)
    requires rows != []
    ensures lastSeen.Some? && rows[0] <= lastSeen.value ==> Since(rows, lastSeen) == Since(rows[1..], lastSeen)
    ensures !(lastSeen.Some? && rows[0] <= lastSeen.value) ==> Since(rows, lastSeen) == [rows[0]] + Since(rows[1..], lastSeen)
  {
  }

  lemma {:induction false} SinceOrdered(rows: seq<int>, lastSeen: Option<int>)
    requires Rising(rows)
    ensures var since := Since(rows, lastSeen);
            Rising(since) && (since != [] ==> rows[0] <= since[0] <= since[|since| - 1])
    ensures Since(rows, lastSeen) != [] && lastSeen.Some? ==> Since(rows, lastSeen)[0] > lastSeen.value
  {
    if rows != [] {
      RisingTail(rows);
      hide Rising;
      SinceOrdered(rows[1..], lastSeen);
      SinceUnfolds(rows, lastSeen);
      hide Since;
      var rest := Since(rows[1..], lastSeen);
      if rest == [] {
        SingleRises(rows[0]);
      } else if !(lastSeen.Some? && rows[0] <= lastSeen.value) {
        RisesAfter(rows[0], rest);
      }
    }
  }

  lemma {:induction false} RisingTail(rows: seq<int>)
    requires Rising(rows) && rows != []
    ensures Rising(rows[1..]) && (|rows| > 1 ==> rows[0] < rows[1..][0])
  {
  }

  lemma {:induction false} SingleRises(t: int)
    ensures Rising([t])
  {
  }

  lemma {:induction false} RisesAfter(t: int, rows: seq<int>)
    requires Rising(rows) && rows != [] && t < rows[0]
    ensures Rising([t] + rows)
  {
  }

  lemma {:induction false} SinceEndsWithStore(rows: seq<int>, lastSeen: Option<int>)
    requires Rising(rows)
    ensures Since(rows, lastSeen) != [] ==> LastRow(Since(rows, lastSeen)) == LastRow(rows)
    ensures Since(rows, lastSeen) == [] <==> rows == [] || (lastSeen.Some? && rows[|rows| - 1] <= lastSeen.value)
  {
    if rows != [] {
      RisingTail(rows);
      assert |rows| > 1 ==> rows[|rows| - 1] == rows[1..][|rows| - 2] > rows[0];
      hide Rising;
      SinceEndsWithStore(rows[1..], lastSeen);
      SinceUnfolds(rows, lastSeen);
      hide Since;
    }
  }

  lemma {:induction false} SinceRising(rows: seq<int>, lastSeen: Option<int>)
    requires Rising(rows)
    ensures Rising(Since(rows, lastSeen))
    ensures Since(rows, lastSeen) != [] ==> Since(rows, lastSeen)[0] >= rows[0] && LastRow(Since(rows, lastSeen)) == LastRow(rows)
    ensures Since(rows, lastSeen) != [] && lastSeen.Some? ==> Since(rows, lastSeen)[0] > lastSeen.value
    ensures var since := Since(rows, lastSeen); since != [] ==> since[0] <= since[|since| - 1]
    ensures Since(rows, lastSeen) == [] <==> rows == [] || (lastSeen.Some? && rows[|rows| - 1] <= lastSeen.value)
  {
    SinceOrdered(rows, lastSeen);
    SinceEndsWithStore(rows, lastSeen);
    hide Since, Rising;
  }

  /** A tick's frame is exactly the stored rows after the watermark. */
  lemma {:induction false} SinceIsAfter(rows: seq<int>, lastSeen: Option<int>, t: int)
    ensures Holds(Since(rows, lastSeen), t) <==> Holds(rows, t) && (lastSeen.None? || t > lastSeen.value)
  {
    if rows != [] {
      SinceIsAfter(rows[1..], lastSeen, t);
      HoldsSplit(rows, t);
      if lastSeen.Some? && rows[0] <= lastSeen.value {
        assert Since(rows, lastSeen) == Since(rows[1..], lastSeen);
      } else {
        assert Since(rows, lastSeen)[1..] == Since(rows[1..], lastSeen);
        HoldsSplit(Since(rows, lastSeen), t);
      }
    }
  }

  lemma {:induction false} HoldsSplit(rows: seq<int>, t: int)
    requires rows != []
    ensures Holds(rows, t) <==> rows[0] == t || Holds(rows[1..], t)
  {
    if Holds(rows[1..], t) {
      var i :| 0 <= i < |rows[1..]| && rows[1..][i] == t;
      assert rows[i + 1] == t;
    }
    if Holds(rows, t) {
      var i :| 0 <= i < |rows| && rows[i] == t;
      assert i > 0 ==> rows[1..][i - 1] == t;
    }
  }

  // ---- the journal ---------------------------------------------------------------------------------------

  /** What starting a tick does, and where its frame lies. */
  lemma {:induction false} MarkEffect(s: Setup, w: World) returns (frame: seq<int>)
    requires JournalAgrees(w) && w.live.Some? && w.live.value.phase == Idle
    ensures frame == Since(w.disk.rows, w.disk.lastSeen) && Rising(frame)
    ensures frame == [] ==> Act(s, w, w.live.value, Mark) == w.(live := Some(w.live.value.(phase := Governed(false))))
    ensures frame != [] ==>
              && LastRow(frame) == LastRow(w.disk.rows)
              && frame[0] <= frame[|frame| - 1]
              && (w.disk.lastSeen.Some? ==> w.disk.lastSeen.value < frame[0])
              && Act(s, w, w.live.value, Mark)
                 == w.(disk := w.disk.(lastSeen := LastRow(frame)),
                       live := Some(w.live.value.(lastSeen := LastRow(frame), phase := Marked(frame))))
  {
    frame := Since(w.disk.rows, w.disk.lastSeen);
    SinceRising(w.disk.rows, w.disk.lastSeen);
    hide Since, Rising, Holds;
  }

  lemma {:induction false} MarkKeepsJournal(s: Setup, w: World)
    requires JournalAgrees(w) && w.live.Some? && w.live.value.phase == Idle
    ensures JournalAgrees(Act(s, w, w.live.value, Mark))
  {
    var frame := MarkEffect(s, w);
    hide Act, Since;
    if frame != [] {
      var i := |w.disk.rows| - 1;
      assert w.disk.rows[i] == LastRow(frame).value;
    }
  }

  lemma {:induction false} JournalKept(s: Setup, w: World, e: Event)
    requires JournalAgrees(w)
    ensures JournalAgrees(Next(s, w, e))
  {
    hide Since;
    if e.Append? && Extends(w.disk.rows, e.rows) && w.disk.lastSeen.Some? {
      var i :| 0 <= i < |w.disk.rows| && w.disk.rows[i] == w.disk.lastSeen.value;
      assert Holds(e.rows, w.disk.rows[i]);
    } else if e == Do(Mark) && w.live.Some? && CanAct(w.disk, w.live.value, Mark) {
      MarkKeepsJournal(s, w);
    } else if e.Do? && e.action.Bootstrap? && w.disk.rows != [] {
      assert w.disk.rows[|w.disk.rows| - 1] == LastRow(w.disk.rows).value;
    }
  }

  // ---- evidence --------------------------------------------------------------------------------------------

  lemma {:induction false} BankOutlivesMark(b: Option<Bank>, w: World, after: World, frame: seq<int>)
    requires BankOk(b, w) && frame != [] && frame[0] <= frame[|frame| - 1]
    requires w.disk.lastSeen.Some? ==> w.disk.lastSeen.value < frame[0]
    requires after.disk.lastSeen == LastRow(frame) && after.live.Some? && after.live.value.phase == Marked(frame)
    ensures BankOk(b, after)
  {
    hide Rising;
  }

  /** Marking moves the watermark past the frame, and the whole frame lies after what was counted. */
  lemma {:induction false} MarkKeepsEvidence(s: Setup, w: World)
    requires JournalAgrees(w) && EvidenceOnce(w) && w.live.Some? && w.live.value.phase == Idle
    ensures EvidenceOnce(Act(s, w, w.live.value, Mark))
  {
    var frame := MarkEffect(s, w);
    hide Act, Since;
    if frame != [] {
      var after := Act(s, w, w.live.value, Mark);
      BankOutlivesMark(w.disk.wealth, w, after, frame);
      BankOutlivesMark(w.live.value.bank, w, after, frame);
      hide BankOk;
    } else {
      hide Rising, Holds;
    }
  }

  lemma {:induction false} ProcessKeepsEvidence(s: Setup, w: World, open: Option<int>, verdict: State)
    requires JournalAgrees(w) && EvidenceOnce(w) && w.live.Some? && CanAct(w.disk, w.live.value, Process(open, verdict))
    ensures EvidenceOnce(Act(s, w, w.live.value, Process(open, verdict)))
  {
  }

  lemma {:induction false} BootstrapKeepsEvidence(s: Setup, w: World, a: Action)
    requires a.Bootstrap? && JournalAgrees(w) && EvidenceOnce(w) && w.live.Some? && CanAct(w.disk, w.live.value, a)
    ensures EvidenceOnce(Act(s, w, w.live.value, a))
  {
    if w.disk.lastSeen.Some? {
      var i :| 0 <= i < |w.disk.rows| && w.disk.rows[i] == w.disk.lastSeen.value;
      assert w.disk.rows[i] <= w.disk.rows[|w.disk.rows| - 1];
    }
  }

  /** A bootstrap raises in a process that goes on. */
  ghost predicate Raises(w: World, e: Event) {
    e.Do? && e.action.BootstrapRaises? && w.live.Some? && CanAct(w.disk, w.live.value, e.action)
  }

  /** The bank counts a row after the watermark. */
  predicate CountsAhead(b: Option<Bank>, lastSeen: Option<int>) {
    b.Some? && b.value.fed != [] && (lastSeen.None? || b.value.fed[|b.value.fed| - 1] > lastSeen.value)
  }

  /** Of all steps only a bootstrap that raises can spoil the evidence, and exactly by a bank that counts a row
      after the watermark. */
  lemma {:induction false} EvidenceKept(s: Setup, w: World, e: Event)
    requires JournalAgrees(w) && EvidenceOnce(w)
    ensures EvidenceOnce(Next(s, w, e)) <==> !(Raises(w, e) && CountsAhead(e.action.bank, w.disk.lastSeen))
  {
    hide Since, Holds, AllHeld;
    if e.Do? && w.live.Some? && CanAct(w.disk, w.live.value, e.action) {
      match e.action {
        case Mark => MarkKeepsEvidence(s, w);
        case Process(open, verdict) => ProcessKeepsEvidence(s, w, open, verdict);
        case Bootstrap(_, _, _, _) => BootstrapKeepsEvidence(s, w, e.action);
        case _ =>
      }
    }
  }

  /** Something holds in every state of a run. */
  ghost predicate Throughout(s: Setup, w: World, es: seq<Event>, holds: World -> bool)
    decreases |es|
  {
    holds(w) && (es != [] ==> Throughout(s, Next(s, w, es[0]), es[1..], holds))
  }

  /** No bootstrap that raises in the run leaves a bank that counts a row after the watermark. */
  ghost predicate StaysBehind(s: Setup, w: World, es: seq<Event>)
    decreases |es|
  {
    es != [] ==>
      && !(Raises(w, es[0]) && CountsAhead(es[0].action.bank, w.disk.lastSeen))
      && StaysBehind(s, Next(s, w, es[0]), es[1..])
  }

  lemma {:induction false} JournalOverRuns(s: Setup, w: World, es: seq<Event>)
    requires JournalAgrees(w)
    ensures JournalAgrees(Run(s, w, es))
    decreases |es|
  {
    hide JournalAgrees, Next;
    if es != [] {
      JournalKept(s, w, es[0]);
      JournalOverRuns(s, Next(s, w, es[0]), es[1..]);
    }
  }

  /** The wealth in memory and the wealth on disk each count a row at most once and none after the watermark on
      disk, and a frame about to be scored lies wholly after both: in every state of a run, whatever crashes,
      failures and restarts it contains, if and only if no bootstrap that raised left rows counted ahead. */
  lemma {:induction false} NoRowCountsTwice(s: Setup, w: World, es: seq<Event>)
    requires JournalAgrees(w) && EvidenceOnce(w)
    ensures Throughout(s, w, es, EvidenceOnce) <==> StaysBehind(s, w, es)
    ensures StaysBehind(s, w, es) ==> EvidenceOnce(Run(s, w, es))
    decreases |es|
  {
    hide JournalAgrees, EvidenceOnce, Next, Raises, CountsAhead;
    if es != [] {
      JournalKept(s, w, es[0]);
      EvidenceKept(s, w, es[0]);
      if EvidenceOnce(Next(s, w, es[0])) {
        NoRowCountsTwice(s, Next(s, w, es[0]), es[1..]);
      }
    }
  }

  lemma {:induction false} WithoutRaises(s: Setup, w: World, es: seq<Event>)
    requires forall i :: 0 <= i < |es| ==> es[i].Do? && !es[i].action.BootstrapRaises?
    ensures StaysBehind(s, w, es) && OnsetsFollow(s, w, es)
    decreases |es|
  {
    hide Next;
    if es != [] {
      WithoutRaises(s, Next(s, w, es[0]), es[1..]);
    }
  }

  lemma {:induction false} InitialIsSafe(w: World)
    requires Initial(w)
    ensures JournalAgrees(w) && EvidenceOnce(w) && AbsorptionsSpaced(w)
  {
  }

  /** A row at or before the watermark that neither wealth has counted. */
  ghost predicate PassedOver(w: World, t: int) {
    && w.disk.lastSeen.Some? && t <= w.disk.lastSeen.value
    && (w.disk.wealth.Some? ==> !Holds(w.disk.wealth.value.fed, t))
    && (w.live.Some? ==>
          && (w.live.value.bank.Some? ==> !Holds(w.live.value.bank.value.fed, t))
          && (w.live.value.phase.Marked? ==> !Holds(w.live.value.phase.frame, t)))
  }

  lemma {:induction false} HoldsConcat(a: seq<int>, b: seq<int>, t: int)
    ensures Holds(a + b, t) <==> Holds(a, t) || Holds(b, t)
  {
    if Holds(a + b, t) {
      var i :| 0 <= i < |a + b| && (a + b)[i] == t;
      assert if i < |a| then a[i] == t else b[i - |a|] == t;
    }
    if i :| 0 <= i < |a| && a[i] == t {
      assert (a + b)[i] == t;
    }
    if i :| 0 <= i < |b| && b[i] == t {
      assert (a + b)[|a| + i] == t;
    }
  }

  predicate Counts(b: Option<Bank>, t: int) { b.Some? && Holds(b.value.fed, t) }

  lemma {:induction false} PassedOverStays(s: Setup, w: World, e: Event, t: int)
    requires JournalAgrees(w) && PassedOver(w, t)
    ensures PassedOver(Next(s, w, e), t) <==> !(Raises(w, e) && Counts(e.action.bank, t))
  {
    hide Since, Holds, AllHeld;
    if e.Do? && w.live.Some? && CanAct(w.disk, w.live.value, e.action) {
      match e.action {
        case Mark => MarkPassesOver(s, w, t);
        case Process(_, _) =>
          if w.live.value.bank.Some? {
            HoldsConcat(w.live.value.bank.value.fed, w.live.value.phase.frame, t);
          }
        case Bootstrap(_, _, _, _) => BootstrapPassesOver(s, w, e.action, t);
        case _ => NothingHolds(t);
      }
    } else {
      NothingHolds(t);
    }
  }

  lemma {:induction false} NothingHolds(t: int)
    ensures !Holds([], t)
  {
  }

  lemma {:induction false} MarkPassesOver(s: Setup, w: World, t: int)
    requires JournalAgrees(w) && PassedOver(w, t) && w.live.Some? && w.live.value.phase == Idle
    ensures PassedOver(Act(s, w, w.live.value, Mark), t)
  {
    SinceRising(w.disk.rows, w.disk.lastSeen);
    SinceIsAfter(w.disk.rows, w.disk.lastSeen, t);
    hide Since, Holds;
  }

  lemma {:induction false} BootstrapPassesOver(s: Setup, w: World, a: Action, t: int)
    requires a.Bootstrap? && JournalAgrees(w) && PassedOver(w, t) && w.live.Some? && CanAct(w.disk, w.live.value, a)
    ensures PassedOver(Act(s, w, w.live.value, a), t)
  {
    var i :| 0 <= i < |w.disk.rows| && w.disk.rows[i] == w.disk.lastSeen.value;
    assert w.disk.rows[i] <= w.disk.rows[|w.disk.rows| - 1];
    NothingHolds(t);
    hide Holds;
  }

  /** No bootstrap that raises in the run leaves the row counted. */
  ghost predicate NeverReplayed(s: Setup, w: World, es: seq<Event>, t: int)
    decreases |es|
  {
    es != [] ==> !(Raises(w, es[0]) && Counts(es[0].action.bank, t)) && NeverReplayed(s, Next(s, w, es[0]), es[1..], t)
  }

  /** At most once, not at least once: a row the watermark has passed uncounted, because it arrived late or because
      a crash or failure fell between the watermark and the wealth, is not counted in any later state, if and only
      if no bootstrap that raises leaves it counted. */
  lemma {:induction false} PassedOverForGood(s: Setup, w: World, es: seq<Event>, t: int)
    requires JournalAgrees(w) && PassedOver(w, t)
    ensures Throughout(s, w, es, x => PassedOver(x, t)) <==> NeverReplayed(s, w, es, t)
    ensures NeverReplayed(s, w, es, t) ==> PassedOver(Run(s, w, es), t)
    decreases |es|
  {
    hide JournalAgrees, PassedOver, Next, Raises, Counts;
    if es != [] {
      JournalKept(s, w, es[0]);
      PassedOverStays(s, w, es[0], t);
      if PassedOver(Next(s, w, es[0]), t) {
        PassedOverForGood(s, Next(s, w, es[0]), es[1..], t);
      }
    }
  }

  // ---- when a tick is due to rebuild ---------------------------------------------------------------------

  lemma {:induction false} Multiple(y: int, n: nat) returns (p: int)
    requires n > 0 && y % n == 0
    ensures y == p * n
  {
    p := y / n;
  }

  /** Only one multiple of n lies in n consecutive numbers. */
  lemma {:induction false} MultiplesApart(p: int, c: int, n: nat, x: int)
    requires n > 0 && x <= p * n < x + n && x <= c * n < x + n
    ensures p == c
  {
    assert (c + 1) * n == c * n + n && (p + 1) * n == p * n + n;
    MulOrder(p + 1, c, n);
    MulOrder(c + 1, p, n);
  }

  lemma {:induction false} NextMultiple(x: nat, n: nat) returns (p: nat)
    requires n > 0
    ensures x <= p * n < x + n
  {
    var q, r := x / n, x % n;
    p := if r == 0 then q else q + 1;
    assert (q + 1) * n == q * n + n;
  }

  /** Whatever an asset's stagger, exactly one tick of any 168 in a row is due for a rebuild, and so for a self-check. */
  lemma {:induction false} DueOncePerCycle(from: nat, stagger: nat, every: nat) returns (t: nat)
    requires every > 0
    ensures from <= t < from + every && Due(t, stagger, every)
    ensures forall u: nat :: from <= u < from + every && Due(u, stagger, every) ==> u == t
  {
    var shift := stagger % every;
    var p := NextMultiple(from + shift, every);
    t := p * every - shift;
    ModIs(t + shift, every, p, 0);
    forall u: nat | from <= u < from + every && Due(u, stagger, every)
      ensures u == t
    {
      var c := Multiple(u + shift, every);
      MultiplesApart(p, c, every, from + shift);
    }
  }

  lemma {:induction false} MulOrder(p: int, c: int, n: nat)
    requires n > 0
    ensures p <= c <==> p * n <= c * n
  {
    if p <= c {
      MulMono(p, c, n);
    } else {
      MulMono(c + 1, p, n);
      assert (c + 1) * n == c * n + n;
    }
  }

  // ---- absorptions ---------------------------------------------------------------------------------------

  /** Every absorption waited an anchor period after its onset. */
  ghost predicate AllRipe(absorbed: seq<Absorption>) {
    forall i :: 0 <= i < |absorbed| ==> Ripe(absorbed[i].onset, absorbed[i].now)
  }

  /** And no onset lies before the absorption before it. */
  ghost predicate Waited(absorbed: seq<Absorption>) {
    AllRipe(absorbed) && forall i :: 0 <= i < |absorbed| - 1 ==> absorbed[i].now <= absorbed[i + 1].onset
  }

  /** Besides, the last absorption is not after the watermark, no episode is open from before it, and a frame
      still to be scored starts after it. */
  ghost predicate AbsorptionsSpaced(w: World) {
    && Waited(w.absorbed)
    && (w.absorbed != [] ==>
          var last := w.absorbed[|w.absorbed| - 1].now;
          && w.disk.lastSeen.Some? && last <= w.disk.lastSeen.value
          && (w.live.Some? && w.live.value.open.Some? ==> last <= w.live.value.open.value)
          && (w.live.Some? && w.live.value.phase.Marked? && w.live.value.phase.frame != [] ==> last < w.live.value.phase.frame[0]))
  }

  lemma {:induction false} MarkKeepsSpacing(s: Setup, w: World)
    requires JournalAgrees(w) && AbsorptionsSpaced(w) && w.live.Some? && w.live.value.phase == Idle
    ensures AbsorptionsSpaced(Act(s, w, w.live.value, Mark))
  {
    var frame := MarkEffect(s, w);
    hide Act, Since, Waited, Rising, Holds;
  }

  lemma {:induction false} ProcessKeepsSpacing(s: Setup, w: World, open: Option<int>, verdict: State)
    requires JournalAgrees(w) && AbsorptionsSpaced(w) && w.live.Some? && CanAct(w.disk, w.live.value, Process(open, verdict))
    ensures AbsorptionsSpaced(Act(s, w, w.live.value, Process(open, verdict)))
  {
    hide Waited;
    var l := w.live.value;
    if open.Some? && open != l.open {
      var i :| 0 <= i < |l.phase.frame| && l.phase.frame[i] == open.value;
      assert l.phase.frame[0] <= l.phase.frame[i];
    }
  }

  lemma {:induction false} AbsorbKeepsSpacing(s: Setup, w: World, note: string, sig: Option<int>)
    requires JournalAgrees(w) && AbsorptionsSpaced(w) && w.live.Some? && CanAct(w.disk, w.live.value, Absorb(note, sig))
    ensures AbsorptionsSpaced(Act(s, w, w.live.value, Absorb(note, sig)))
  {
  }

  lemma {:induction false} AbsorbRaisesKeepsSpacing(s: Setup, w: World, note: string)
    requires JournalAgrees(w) && AbsorptionsSpaced(w) && w.live.Some? && CanAct(w.disk, w.live.value, AbsorbRaises(note))
    ensures AbsorptionsSpaced(Act(s, w, w.live.value, AbsorbRaises(note)))
  {
  }

  /** The episode is open from before the last absorption. */
  predicate OpenFromBefore(open: Option<int>, absorbed: seq<Absorption>) {
    open.Some? && absorbed != [] && open.value < absorbed[|absorbed| - 1].now
  }

  /** Of all steps only a bootstrap that raises can spoil the spacing, and exactly by an episode left open from
      before the last absorption. */
  lemma {:induction false} SpacingKept(s: Setup, w: World, e: Event)
    requires JournalAgrees(w) && AbsorptionsSpaced(w)
    ensures AbsorptionsSpaced(Next(s, w, e)) <==> !(Raises(w, e) && OpenFromBefore(e.action.open, w.absorbed))
  {
    hide Since, Waited, AllHeld;
    if e.Do? && w.live.Some? && CanAct(w.disk, w.live.value, e.action) {
      match e.action {
        case Mark => MarkKeepsSpacing(s, w);
        case Process(open, verdict) => ProcessKeepsSpacing(s, w, open, verdict);
        case Absorb(note, sig) => AbsorbKeepsSpacing(s, w, note, sig);
        case AbsorbRaises(note) => AbsorbRaisesKeepsSpacing(s, w, note);
        case Bootstrap(_, _, _, _) => BootstrapMovesForward(w);
        case _ =>
      }
    }
  }

  lemma {:induction false} BootstrapMovesForward(w: World)
    requires JournalAgrees(w)
    ensures w.disk.lastSeen.Some? ==> LastRow(w.disk.rows).Some? && w.disk.lastSeen.value <= LastRow(w.disk.rows).value
  {
    if w.disk.lastSeen.Some? {
      var i :| 0 <= i < |w.disk.rows| && w.disk.rows[i] == w.disk.lastSeen.value;
      assert w.disk.rows[i] <= w.disk.rows[|w.disk.rows| - 1];
    }
  }

  /** No bootstrap that raises in the run leaves an episode open from before the last absorption. */
  ghost predicate OnsetsFollow(s: Setup, w: World, es: seq<Event>)
    decreases |es|
  {
    es != [] ==>
      && !(Raises(w, es[0]) && OpenFromBefore(es[0].action.open, w.absorbed))
      && OnsetsFollow(s, Next(s, w, es[0]), es[1..])
  }

  lemma {:induction false} SpacingOverRuns(s: Setup, w: World, es: seq<Event>)
    requires JournalAgrees(w) && AbsorptionsSpaced(w)
    ensures Throughout(s, w, es, AbsorptionsSpaced) <==> OnsetsFollow(s, w, es)
    ensures OnsetsFollow(s, w, es) ==> AbsorptionsSpaced(Run(s, w, es))
    decreases |es|
  {
    hide JournalAgrees, AbsorptionsSpaced, Next, Raises, OpenFromBefore;
    if es != [] {
      JournalKept(s, w, es[0]);
      SpacingKept(s, w, es[0]);
      if AbsorptionsSpaced(Next(s, w, es[0])) {
        SpacingOverRuns(s, Next(s, w, es[0]), es[1..]);
      }
    }
  }

  /** Whatever the run, no absorption comes early. */
  lemma {:induction false} RipeOverRuns(s: Setup, w: World, es: seq<Event>)
    requires AllRipe(w.absorbed)
    ensures AllRipe(Run(s, w, es).absorbed)
    decreases |es|
  {
    if es != [] {
      RipeKept(s, w, es[0]);
      hide Next, AllRipe;
      RipeOverRuns(s, Next(s, w, es[0]), es[1..]);
    }
  }

  lemma {:induction false} RipeKept(s: Setup, w: World, e: Event)
    requires AllRipe(w.absorbed)
    ensures AllRipe(Next(s, w, e).absorbed)
  {
    hide Since, Holds, Extends, MayProcess, MayReplay;
  }

  lemma {:induction false} GapsAddUp(absorbed: seq<Absorption>, i: nat, k: nat)
    requires Waited(absorbed) && i + k < |absorbed|
    ensures k >= 1 ==> REANCHORS_PER_YEAR * (absorbed[i + k].now - absorbed[i].now) > k * YEAR
    ensures absorbed[i + k].now >= absorbed[i].now
    decreases k
  {
    if k > 0 {
      GapsAddUp(absorbed, i, k - 1);
      assert absorbed[i + k - 1].now <= absorbed[i + k].onset;
      assert Ripe(absorbed[i + k].onset, absorbed[i + k].now);
    }
  }

  /** Throughout a run no episode is open from before the last absorption if and only if no bootstrap that raised
      left one; then two automatic absorptions lie more than an anchor period apart, and no 365.25 days, wherever
      they start, see more than 52 of them. */
  lemma {:induction false} AbsorptionBudget(s: Setup, w: World, es: seq<Event>)
    requires Initial(w)
    ensures Throughout(s, w, es, AbsorptionsSpaced) <==> OnsetsFollow(s, w, es)
    ensures var a := Run(s, w, es).absorbed; OnsetsFollow(s, w, es) ==>
      && (forall i, j :: 0 <= i < j < |a| ==> 52 * (a[j].now - a[i].now) > 31557600)
      && (forall i, j :: 0 <= i < j < |a| && a[j].now - a[i].now <= 31557600 ==> j - i + 1 <= 52)
  {
    InitialIsSafe(w);
    SpacingOverRuns(s, w, es);
    var a := Run(s, w, es).absorbed;
    assert OnsetsFollow(s, w, es) ==> Waited(a) by { hide Run; }
    hide Run, Waited;
    forall i, j | OnsetsFollow(s, w, es) && 0 <= i < j < |a|
      ensures REANCHORS_PER_YEAR * (a[j].now - a[i].now) > YEAR
      ensures a[j].now - a[i].now <= YEAR ==> j - i + 1 <= REANCHORS_PER_YEAR
    {
      GapsAddUp(a, i, j - i);
      assert (j - i) * YEAR >= YEAR;
      assert a[j].now - a[i].now <= YEAR ==> (j - i) * YEAR < REANCHORS_PER_YEAR * YEAR;
    }
  }

  // ---- who wrote the ledger ------------------------------------------------------------------------------

  /** The event is an operator's re-anchor that closed the episode, or a bootstrap that listed it. */
  ghost predicate Writes(s: Setup, event: Event, e: Episode) {
    match event
    case Do(Reanchor(last, closedAt, note, _)) =>
      e.asset == s.asset && e.end == At(closedAt) && e.note == note && e.state == (if last == Change then ChangeNotFault else AlarmEpisode)
    case Do(Bootstrap(episodes, _, _, _)) => e in episodes
    case Do(BootstrapCut(episodes)) => e in episodes
    case Do(ReanchorRaises(last, closedAt, note)) =>
      e.asset == s.asset && e.end == At(closedAt) && e.note == note && e.state == (if last == Change then ChangeNotFault else AlarmEpisode)
    case Do(BootstrapRaises(episodes, _, _)) => e in episodes
    case _ => false
  }

  ghost predicate Written(s: Setup, es: seq<Event>, e: Episode) { exists i :: 0 <= i < |es| && Writes(s, es[i], e) }

  /** The episode of an automatic absorption. */
  ghost predicate IsAbsorption(s: Setup, a: Absorption, e: Episode) {
    e.asset == s.asset && e.start == a.onset && e.end == At(a.now) && e.state == ChangeNotFault
  }

  ghost predicate ByAbsorption(s: Setup, absorbed: seq<Absorption>, e: Episode) {
    exists k :: 0 <= k < |absorbed| && IsAbsorption(s, absorbed[k], e)
  }

  ghost predicate Ledgered(s: Setup, a: Absorption, episodes: seq<Episode>) {
    exists e :: e in episodes && IsAbsorption(s, a, e)
  }

  predicate ReplacesLedger(event: Event) {
    event.Do? && (event.action.Bootstrap? || event.action.BootstrapCut? || event.action.BootstrapRaises?)
  }

  lemma {:induction false} StepWrites(s: Setup, w: World, event: Event, e: Episode)
    requires e in Next(s, w, event).disk.episodes && e !in w.disk.episodes
    ensures Writes(s, event, e) || ByAbsorption(s, Next(s, w, event).absorbed, e)
  {
    hide Since, Holds, Rising, Extends, MayProcess, MayReplay;
    if event.Do? && (event.action.Absorb? || event.action.AbsorbRaises?) {
      var after := Next(s, w, event);
      assert IsAbsorption(s, after.absorbed[|w.absorbed|], e);
    }
  }

  /** A step never forgets an absorption, and only a bootstrap takes an episode out of the ledger. */
  lemma {:induction false} StepKeeps(s: Setup, w: World, event: Event)
    ensures w.absorbed <= Next(s, w, event).absorbed
    ensures !ReplacesLedger(event) ==> w.disk.episodes <= Next(s, w, event).disk.episodes
    ensures !ReplacesLedger(event) ==> forall k :: |w.absorbed| <= k < |Next(s, w, event).absorbed| ==>
              Ledgered(s, Next(s, w, event).absorbed[k], Next(s, w, event).disk.episodes)
  {
    hide Since, Holds, Rising, Extends, MayProcess, MayReplay;
    if event.Do? && (event.action.Absorb? || event.action.AbsorbRaises?) {
      var after := Next(s, w, event);
      if |w.absorbed| < |after.absorbed| {
        var e := after.disk.episodes[|w.disk.episodes|];
        assert e in after.disk.episodes && IsAbsorption(s, after.absorbed[|w.absorbed|], e);
      }
    }
  }

  lemma {:induction false} MoreAbsorbed(s: Setup, some: seq<Absorption>, more: seq<Absorption>, e: Episode)
    requires some <= more && ByAbsorption(s, some, e)
    ensures ByAbsorption(s, more, e)
  {
    var k :| 0 <= k < |some| && IsAbsorption(s, some[k], e);
    assert IsAbsorption(s, more[k], e);
  }

  lemma {:induction false} RunWrites(s: Setup, w: World, es: seq<Event>, e: Episode)
    ensures w.absorbed <= Run(s, w, es).absorbed
    ensures e in Run(s, w, es).disk.episodes && e !in w.disk.episodes ==>
              Written(s, es, e) || ByAbsorption(s, Run(s, w, es).absorbed, e)
    decreases |es|
  {
    hide Next, Writes, ByAbsorption;
    if es != [] {
      var w1, after := Next(s, w, es[0]), Run(s, w, es);
      StepKeeps(s, w, es[0]);
      RunWrites(s, w1, es[1..], e);
      if e in after.disk.episodes && e !in w.disk.episodes {
        if e in w1.disk.episodes {
          StepWrites(s, w, es[0], e);
          if ByAbsorption(s, w1.absorbed, e) {
            MoreAbsorbed(s, w1.absorbed, after.absorbed, e);
          }
        } else if Written(s, es[1..], e) {
          var i :| 0 <= i < |es[1..]| && Writes(s, es[1..][i], e);
          assert Writes(s, es[i + 1], e);
        }
      }
    }
  }

  /** Nobody declares a change hastily: in every run, an episode new in the ledger that no operator closed and no
      bootstrap listed is a change that had been open for an anchor period, and is one of the absorptions. */
  lemma {:induction false} UnattendedClosingsWaited(s: Setup, w: World, es: seq<Event>, e: Episode)
    requires Initial(w)
    requires e in Run(s, w, es).disk.episodes && e !in w.disk.episodes && !Written(s, es, e)
    ensures ByAbsorption(s, Run(s, w, es).absorbed, e)
    ensures e.asset == s.asset && e.state == ChangeNotFault && e.end.At? && 52 * (e.end.ts - e.start) >= 31557600
  {
    RipeOverRuns(s, w, es);
    RunWrites(s, w, es, e);
    hide Run, Written;
    var a := Run(s, w, es).absorbed;
    var k :| 0 <= k < |a| && IsAbsorption(s, a[k], e);
    assert Ripe(a[k].onset, a[k].now);
  }

  /** Nothing of it is lost: in every run without a bootstrap the ledger only grows, and each absorption is there. */
  lemma {:induction false} AbsorptionsAreLedgered(s: Setup, w: World, es: seq<Event>)
    requires forall i :: 0 <= i < |es| ==> !ReplacesLedger(es[i])
    ensures var after := Run(s, w, es);
            && w.absorbed <= after.absorbed && w.disk.episodes <= after.disk.episodes
            && forall k :: |w.absorbed| <= k < |after.absorbed| ==> Ledgered(s, after.absorbed[k], after.disk.episodes)
    decreases |es|
  {
    hide Next, IsAbsorption;
    if es != [] {
      var w1, after := Next(s, w, es[0]), Run(s, w, es);
      StepKeeps(s, w, es[0]);
      AbsorptionsAreLedgered(s, w1, es[1..]);
      forall k | |w.absorbed| <= k < |w1.absorbed|
        ensures Ledgered(s, after.absorbed[k], after.disk.episodes)
      {
        assert Ledgered(s, w1.absorbed[k], w1.disk.episodes);
        var e :| e in w1.disk.episodes && IsAbsorption(s, w1.absorbed[k], e);
        assert e in after.disk.episodes;
      }
    }
  }
}
