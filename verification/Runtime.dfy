/** One monitored asset and its runs. */
module Runtimes {
  // The rows and the journal on disk, the monitor in memory, and every step between two durable writes, with
  // crashes and restarts anywhere.

  import opened Constants
  import opened Episodes
  import opened Ledgers
  import opened Results
  import opened Timelines
  import opened Verdicts

  /** 365.25 days in seconds. */
  const YEAR := 31557600
  const REBUILD_EVERY_TICKS := 168
  const IMMUNE_EVERY_TICKS := 168

  /** The wealth of an asset's banks: what calibration they stand on, and the rows counted since. */
  datatype Bank = Bank(sig: int, fed: seq<int>)

  /** What survives a crash. */
  datatype Disk = Disk(rows: seq<int>, lastSeen: Option<int>, ticks: nat, wealth: Option<Bank>, episodes: seq<Episode>)

  /** How far a tick has come; `scored` says whether it saw new rows. */
  datatype Phase =
    | Idle
    | Marked(frame: seq<int>)
    | Scored(verdict: State, now: int)
    | Governed(scored: bool)
    | Counted(scored: bool)
    | Rebuilt(scored: bool)
    | Checked(scored: bool)

  /** What is lost in a crash. bank is None while calibration is insufficient. */
  datatype Live = Live(lastSeen: Option<int>, ticks: nat, bank: Option<Bank>, open: Option<int>, phase: Phase)

  /** A change absorbed without an operator: the onset of its episode, and the watermark then. */
  datatype Absorption = Absorption(onset: int, now: int)

  datatype World = World(disk: Disk, live: Option<Live>, absorbed: seq<Absorption>)

  datatype Setup = Setup(asset: string, rebuildStagger: nat, immuneStagger: nat)

  /** What a running process may do to the asset. A tick that fails is abandoned where it stands, and the process
      goes on; so it does when recalibration raises after an episode was closed, and when a bootstrap raises, with
      whatever it had ledgered, calibrated and replayed by then. */
  datatype Action =
    | Mark
    | Process(open: Option<int>, verdict: State)
    | Absorb(note: string, sig: Option<int>)
    | Bump
    | Rebuild(sig: Option<int>)
    | Immune(sick: bool, sig: Option<int>)
    | Save
    | Abandon
    | Reanchor(last: State, closedAt: int, note: string, sig: Option<int>)
    | Bootstrap(episodes: seq<Episode>, bank: Option<Bank>, open: Option<int>, zeroTicks: bool)
    | BootstrapCut(episodes: seq<Episode>)
    | AbsorbRaises(note: string)
    | ReanchorRaises(last: State, closedAt: int, note: string)
    | BootstrapRaises(episodes: seq<Episode>, bank: Option<Bank>, open: Option<int>)

  datatype Event = Append(rows: seq<int>) | Do(action: Action) | Crash | Restart(sig: Option<int>)

  predicate Holds(rows: seq<int>, t: int) { exists i :: 0 <= i < |rows| && rows[i] == t }

  /** An append keeps every stored row and the order of the store. */
  ghost predicate Extends(rows: seq<int>, more: seq<int>) {
    Rising(more) && forall i :: 0 <= i < |rows| ==> Holds(more, rows[i])
  }

  /** The rows strictly after the watermark. */
  function Since(rows: seq<int>, lastSeen: Option<int>): seq<int> {
    if rows == [] then []
    else (if lastSeen.Some? && rows[0] <= lastSeen.value then [] else [rows[0]]) + Since(rows[1..], lastSeen)
  }

  function LastRow(rows: seq<int>): Option<int> { if rows == [] then None else Some(rows[|rows| - 1]) }

  function Fresh(sig: Option<int>): Option<Bank> { if sig.None? then None else Some(Bank(sig.value, [])) }

  /** A restored monitor takes the saved wealth when its calibration came out the same. */
  function Restored(sig: Option<int>, wealth: Option<Bank>): Option<Bank> {
    if sig.None? then None
    else if wealth.Some? && wealth.value.sig == sig.value then wealth
    else Some(Bank(sig.value, []))
  }

  predicate Ripe(onset: int, now: int) { REANCHORS_PER_YEAR * (now - onset) >= YEAR * CHANGE_ABSORB_ANCHOR_PERIODS }

  predicate DueForAbsorption(open: Option<int>, verdict: State, now: int) {
    verdict == Change && open.Some? && Ripe(open.value, now)
  }

  predicate Due(ticks: nat, stagger: nat, every: nat)
    requires every > 0
  {
    (ticks + stagger % every) % every == 0
  }

  /** What processing a frame may do to the open episode: keep it, or open one at a row of the frame. */
  ghost predicate MayProcess(open: Option<int>, frame: seq<int>, after: Option<int>, verdict: State) {
    && (open.Some? ==> after == open)
    && (after != open ==> AlarmLike(verdict) && after.Some? && Holds(frame, after.value))
  }

  // ---- one step ------------------------------------------------------------------------------------

  /** What a bootstrap that raises can leave of the monitor: as it was, or calibrated anew and fed with some of
      the stored rows, an episode open at one of them. */
  ghost predicate MayReplay(d: Disk, l: Live, bank: Option<Bank>, open: Option<int>) {
    && (bank.Some? && bank != l.bank ==> Rising(bank.value.fed) && AllHeld(d.rows, bank.value.fed))
    && (open.Some? && open != l.open ==> Holds(d.rows, open.value))
  }

  ghost predicate AllHeld(rows: seq<int>, some: seq<int>) { forall i :: 0 <= i < |some| ==> Holds(rows, some[i]) }

  ghost predicate CanAct(d: Disk, l: Live, a: Action) {
    match a
    case Mark => l.phase == Idle
    case Process(open, verdict) =>
      && l.phase.Marked? && l.phase.frame != []
      && MayProcess(l.open, l.phase.frame, open, verdict)
      && (l.bank.None? ==> verdict == Insufficient)
    case Absorb(_, _) => l.phase.Scored?
    case Bump => l.phase.Governed?
    case Rebuild(_) => l.phase.Counted?
    case Immune(_, _) => l.phase.Rebuilt?
    case Save => l.phase.Checked?
    case Abandon => l.phase != Idle
    case Reanchor(_, _, _, _) => l.phase == Idle
    case Bootstrap(_, bank, open, _) =>
      && l.phase == Idle
      && (bank.None? || bank == l.bank || bank.value.fed == [])
      && (open.None? || open == l.open)
    case BootstrapCut(_) => l.phase == Idle
    case AbsorbRaises(_) => l.phase.Scored? && DueForAbsorption(l.open, l.phase.verdict, l.phase.now)
    case ReanchorRaises(_, _, _) => l.phase == Idle
    case BootstrapRaises(_, bank, open) => l.phase == Idle && MayReplay(d, l, bank, open)
  }

  /** Reads the new rows and moves the watermark past them before any of them is scored. */
  function MarkRows(d: Disk, l: Live): (Disk, Live) {
    var frame := Since(d.rows, l.lastSeen);
    if frame == [] then (d, l.(phase := Governed(false)))
    else (d.(lastSeen := LastRow(frame)), l.(lastSeen := LastRow(frame), phase := Marked(frame)))
  }

  function FeedRows(l: Live, frame: seq<int>, open: Option<int>, verdict: State): Live
    requires frame != []
  {
    l.(bank := if l.bank.None? then None else Some(l.bank.value.(fed := l.bank.value.fed + frame)),
       open := open, phase := Scored(verdict, frame[|frame| - 1]))
  }

  function Close(d: Disk, asset: string, onset: int, closedAt: int, last: State, note: string): Disk {
    d.(episodes := d.episodes + [Episode(asset, onset, At(closedAt), if last == Change then ChangeNotFault else AlarmEpisode, note)])
  }

  function AbsorbChange(s: Setup, w: World, l: Live, verdict: State, now: int, note: string, sig: Option<int>): World {
    if DueForAbsorption(l.open, verdict, now) then
      World(Close(w.disk, s.asset, l.open.value, now, Change, note),
            Some(l.(open := None, bank := Fresh(sig), phase := Governed(true))),
            w.absorbed + [Absorption(l.open.value, now)])
    else w.(live := Some(l.(phase := Governed(true))))
  }

  function RebuildIfDue(s: Setup, l: Live, sig: Option<int>): Live
    requires l.phase.Counted?
  {
    l.(bank := if Due(l.ticks, s.rebuildStagger, REBUILD_EVERY_TICKS) && l.open.None? then Fresh(sig) else l.bank,
       phase := Rebuilt(l.phase.scored))
  }

  function CheckIfDue(s: Setup, l: Live, sick: bool, sig: Option<int>): Live
    requires l.phase.Rebuilt?
  {
    l.(bank := if Due(l.ticks, s.immuneStagger, IMMUNE_EVERY_TICKS) && sick then Fresh(sig) else l.bank,
       phase := Checked(l.phase.scored))
  }

  function SaveWealth(d: Disk, l: Live): Disk
    requires l.phase.Checked?
  {
    if l.phase.scored && l.bank.Some? then d.(wealth := l.bank) else d
  }

  function Reanchored(s: Setup, d: Disk, l: Live, last: State, closedAt: int, note: string): Disk {
    if l.open.Some? then Close(d, s.asset, l.open.value, closedAt, last, note) else d
  }

  function Act(s: Setup, w: World, l: Live, a: Action): World
    requires CanAct(w.disk, l, a)
  {
    match a
    case Mark => var (d', l') := MarkRows(w.disk, l); w.(disk := d', live := Some(l'))
    case Process(open, verdict) => w.(live := Some(FeedRows(l, l.phase.frame, open, verdict)))
    case Absorb(note, sig) => AbsorbChange(s, w, l, l.phase.verdict, l.phase.now, note, sig)
    case Bump =>
      w.(disk := w.disk.(ticks := l.ticks + 1), live := Some(l.(ticks := l.ticks + 1, phase := Counted(l.phase.scored))))
    case Rebuild(sig) => w.(live := Some(RebuildIfDue(s, l, sig)))
    case Immune(sick, sig) => w.(live := Some(CheckIfDue(s, l, sick, sig)))
    case Save => w.(disk := SaveWealth(w.disk, l), live := Some(l.(phase := Idle)))
    case Abandon => w.(live := Some(l.(phase := Idle)))
    case Reanchor(last, closedAt, note, sig) =>
      w.(disk := Reanchored(s, w.disk, l, last, closedAt, note), live := Some(l.(open := None, bank := Fresh(sig))))
    case Bootstrap(episodes, bank, open, zeroTicks) =>
      var ticks := if zeroTicks then 0 else l.ticks;
      w.(disk := w.disk.(episodes := episodes, lastSeen := LastRow(w.disk.rows), ticks := ticks),
         live := Some(l.(bank := bank, open := open, lastSeen := LastRow(w.disk.rows), ticks := ticks)))
    case BootstrapCut(episodes) => w.(disk := w.disk.(episodes := episodes), live := None)
    case AbsorbRaises(note) =>
      World(Close(w.disk, s.asset, l.open.value, l.phase.now, Change, note), Some(l.(open := None, phase := Idle)),
            w.absorbed + [Absorption(l.open.value, l.phase.now)])
    case ReanchorRaises(last, closedAt, note) =>
      w.(disk := Reanchored(s, w.disk, l, last, closedAt, note), live := Some(l.(open := None)))
    case BootstrapRaises(episodes, bank, open) =>
      w.(disk := w.disk.(episodes := episodes), live := Some(l.(bank := bank, open := open)))
  }

  /** Events that cannot happen change nothing, so every sequence of events is a run. */
  ghost function Next(s: Setup, w: World, e: Event): World {
    match e
    case Append(rows) => if Extends(w.disk.rows, rows) then w.(disk := w.disk.(rows := rows)) else w
    case Do(a) => if w.live.Some? && CanAct(w.disk, w.live.value, a) then Act(s, w, w.live.value, a) else w
    case Crash => w.(live := None)
    case Restart(sig) =>
      if w.live.Some? then w
      else w.(live := Some(Live(w.disk.lastSeen, w.disk.ticks, Restored(sig, w.disk.wealth), None, Idle)))
  }

  ghost function Run(s: Setup, w: World, es: seq<Event>): World
    decreases |es|
  {
    if es == [] then w else Run(s, Next(s, w, es[0]), es[1..])
  }

  /** A store with some rows, and an asset never seen before. */
  ghost predicate Initial(w: World) {
    && Rising(w.disk.rows) && w.disk.lastSeen.None? && w.disk.wealth.None?
    && w.live.None? && w.absorbed == []
  }

  // ---- what every run keeps ----------------------------------------------------------------------------

  /** The watermark is a stored row, the memory copy of the journal agrees with it, and a marked frame ends at it. */
  ghost predicate JournalAgrees(w: World) {
    && Rising(w.disk.rows)
    && (w.disk.lastSeen.Some? ==> Holds(w.disk.rows, w.disk.lastSeen.value))
    && (w.live.Some? ==>
          var l := w.live.value;
          && l.lastSeen == w.disk.lastSeen && l.ticks == w.disk.ticks
          && (l.phase.Marked? ==> Rising(l.phase.frame) && l.phase.frame != [] && w.disk.lastSeen == LastRow(l.phase.frame))
          && (l.phase.Scored? ==> w.disk.lastSeen == Some(l.phase.now)))
  }

  /** Counted rows are in time order, each once, and none is after the watermark. */
  ghost predicate UpTo(fed: seq<int>, lastSeen: Option<int>) {
    Rising(fed) && (fed != [] ==> lastSeen.Some? && fed[|fed| - 1] <= lastSeen.value)
  }

  ghost predicate Before(fed: seq<int>, frame: seq<int>) {
    fed != [] && frame != [] ==> fed[|fed| - 1] < frame[0]
  }

  ghost predicate BankOk(b: Option<Bank>, w: World) {
    b.Some? ==>
      && UpTo(b.value.fed, w.disk.lastSeen)
      && (w.live.Some? && w.live.value.phase.Marked? ==> Before(b.value.fed, w.live.value.phase.frame))
  }

  /** No row is counted twice by the wealth in memory or by the wealth on disk, and no row still to be
      scored was counted by either. */
  ghost predicate EvidenceOnce(w: World) {
    BankOk(w.disk.wealth, w) && (w.live.Some? ==> BankOk(w.live.value.bank, w))
  }
}
