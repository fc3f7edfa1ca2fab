/**
 AutoImport interleaved with its timers, its fires, the callers that hold scan starts, and the scans it
 starts and observes.  One step is one critical section, or one call into a collaborator.

 Every report gets an identity, so that the proof can say when a report is discharged: by the finish notice of a
 watch scan that took its batch after the report and read all of it, or by that of a full manual scan which superseded
 such a watch scan and read everything.
 */
module AutoImportProtocol {
  import opened Options
  import opened DirtyDirectories
  import opened AutoImportState

  /** A timer callback, named by its sequence number.  cut separates the reports it took from later ones. */
  datatype Fire =
    | Waiting
    | Probing(batch: set<Dir>, finishes: nat, cut: nat)
    | Deciding(batch: set<Dir>, finishes: nat, cut: nat)
    | Calling(batch: set<Dir>, finishes: nat, cut: nat)
    | Opened(batch: set<Dir>, finishes: nat, cut: nat)
    | Rejected(batch: set<Dir>, finishes: nat, cut: nat, failed: bool)
    | Closing
  {
    predicate OwnsStart() { Calling? || Opened? || Rejected? }
    predicate Holds() { !Waiting? && !Closing? }
  }

  /** A caller of holdStarts: SetEnabled(false) when switch, else a folder change. */
  datatype Holder =
    | Quiescing(switch: bool)
    | Cloning(switch: bool)
    | Superseding(switch: bool, batch: set<Dir>)
    | Awaiting(switch: bool, batch: set<Dir>)
    | Held(switch: bool, batch: set<Dir>)
    | Changing(switch: bool)
  {
    predicate Past() { !Quiescing? }
    predicate Saves() { Awaiting? || Held? }
  }

  /**
   The scan goroutine; closed once only its notice is outstanding.  A scan that failed or was cut short did not read
   all it was to read: a watch scan its batch, a full manual scan every directory.  A partial rescan is not full.
   */
  datatype Scan =
    | Watching(batch: set<Dir>, cut: nat, requeue: bool, held: Option<nat>, closed: bool, read: bool)
    | Manual(full: bool, closed: bool, read: bool)

  datatype State = State(
    core: Core,
    fires: map<nat, Fire>,
    decider: Option<nat>,    // auxiliary: the fire that set batching and has not cleared it
    startMu: Option<nat>,
    holders: map<nat, Holder>,
    setMu: Option<nat>,
    stopReturned: bool,
    row: bool,               // the store's single running scan
    opener: Option<bool>,    // a manual start between opening the row and launching; whether its scan is full
    starters: set<nat>,      // full manual starts that superseded a watch scan and have not opened a row yet
    scan: Option<Scan>,
    reports: map<nat, Dir>,  // outstanding reports
    owed: set<nat>,          // auxiliary: those a cut watch scan left to a full manual scan, until that has read them
    nextReport: nat)

  /** What timers and fires do. */
  datatype FireStep =
    | Report(dir: Option<Dir>)
    | TimerFires(i: nat, batch: set<Dir>)
    | Split(i: nat, settled: set<Dir>)
    | Check(i: nat)
    | OpenRow(i: nat)
    | OpenFails(i: nat)
    | Launch(i: nat, listed: bool)
    | Reject(i: nat)
    | Finish(i: nat)

  /** What the scans do on their own. */
  datatype ScanStep =
    | ManualOpen(full: bool)
    | ManualLaunch
    | Supersede
    | SupersedeFull(m: nat)
    | StarterOpens(m: nat)
    | StarterFails(m: nat)
    | CloseRow(read: bool)
    | Notice

  /** What a caller of holdStarts does up to its return. */
  datatype HoldStep =
    | HoldFolders
    | HoldSwitch
    | Quiesce
    | Clone
    | SupersedeFor
    | Wake
    | GiveUp

  /** How a holder ends. */
  datatype ReleaseStep =
    | RequeueFolders
    | EndFolders
    | CommitOff
    | RestoreOn

  datatype LifeStep =
    | TurnOn
    | Start(on: bool)
    | MarkStopped
    | StopReturns

  datatype Step =
    | Fires(fire: FireStep)
    | Scans(scan: ScanStep)
    | Holds(h: nat, hold: HoldStep)
    | Releases(h: nat, release: ReleaseStep)
    | Lives(life: LifeStep)

  const Init := State(Initial, map[], None, None, map[], None, false, false, None, {}, None, map[], {}, 0)

  predicate WatchScan(s: State) {
    s.scan.Some? && s.scan.value.Watching?
  }

  /** Install a new core; a timer it armed becomes a waiting callback. */
  function Put(s: State, c: Core): State {
    s.(core := c, fires := if c.timer && c.timerSeq != s.core.timerSeq then s.fires[c.timerSeq := Waiting] else s.fires)
  }

  // ---------------------------------------------------------------- steps of the importer

  function DoReport(s: State, dir: Option<Dir>): State {
    var t := Put(s, Changed(s.core, dir));
    if Listens(s.core) && dir.Some?
    then t.(reports := s.reports[s.nextReport := dir.value], nextReport := s.nextReport + 1)
    else t
  }

  /** The batch is a normal form of what is dirty; which one does not matter. */
  ghost function DoTimerFires(s: State, i: nat, batch: set<Dir>): State
    requires i in s.fires
  {
    var t := s.(core := FireBegin(s.core, i));
    if Takes(s.core, i)
    then t.(fires := s.fires[i := Probing(batch, s.core.finishes, s.nextReport)], decider := Some(i))
    else t.(fires := s.fires - {i})
  }

  function DoSplit(s: State, i: nat, settled: set<Dir>): State
    requires i in s.fires && s.fires[i].Probing?
  {
    var f := s.fires[i];
    var next := if settled == {} then Closing else Deciding(settled, f.finishes, f.cut);
    Put(s.(fires := s.fires[i := next]), KeepUnsettled(s.core, f.batch - settled))
  }

  function DoCheck(s: State, i: nat): State
    requires i in s.fires && s.fires[i].Deciding?
  {
    var f := s.fires[i];
    var t := s.(core := StartCheck(s.core, f.batch));
    if MayStart(s.core)
    then t.(fires := s.fires[i := Calling(f.batch, f.finishes, f.cut)], startMu := Some(i))
    else t.(fires := s.fires[i := Closing])
  }

  /** StartWatchScan asks the store for the running row: it opens one or meets another scan. */
  function DoOpenRow(s: State, i: nat): State
    requires i in s.fires && s.fires[i].Calling?
  {
    var f := s.fires[i];
    if s.row then s.(fires := s.fires[i := Rejected(f.batch, f.finishes, f.cut, false)])
    else s.(row := true, fires := s.fires[i := Opened(f.batch, f.finishes, f.cut)])
  }

  function DoOpenFails(s: State, i: nat): State
    requires i in s.fires && s.fires[i].Calling?
  {
    var f := s.fires[i];
    s.(fires := s.fires[i := Rejected(f.batch, f.finishes, f.cut, true)])
  }

  /**
   The section of Scans.start under its lock.  While the previous goroutine has not sent its notice,
   nothing is launched although the answer is "started".  listed is false when reading the issue list
   for the answer fails, which turns the answer into an error after the launch.
   */
  function DoLaunch(s: State, i: nat, listed: bool): State
    requires i in s.fires && s.fires[i].Opened?
  {
    var f := s.fires[i];
    var t := if s.scan.Some? then s else s.(scan := Some(Watching(f.batch, f.cut, false, None, false, false)));
    if listed then t.(fires := s.fires[i := Closing], startMu := None)
    else t.(fires := s.fires[i := Rejected(f.batch, f.finishes, f.cut, true)])
  }

  function DoReject(s: State, i: nat): State
    requires i in s.fires && s.fires[i].Rejected?
  {
    var f := s.fires[i];
    Put(s.(fires := s.fires[i := Closing], startMu := None), StartRejected(s.core, f.batch, f.finishes, f.failed))
  }

  function DoFinish(s: State, i: nat): State
    requires i in s.fires && s.fires[i].Closing?
  {
    Put(s.(fires := s.fires - {i}, decider := None), FireEnd(s.core))
  }

  // ---------------------------------------------------------------- steps of the scans

  function DoManualOpen(s: State, full: bool): State
    requires !s.row
  {
    s.(row := true, opener := Some(full))
  }

  /** The scan goroutine of a full manual scan. */
  predicate FullScan(s: State) {
    s.scan.Some? && s.scan.value.Manual? && s.scan.value.full
  }

  /** A full manual scan is to start, or its notice to come. */
  predicate FullPending(s: State) {
    s.starters != {} || s.opener == Some(true) || FullScan(s)
  }

  /** What was left to a full scan is left to nobody once none is to come. */
  function Settle(s: State): State {
    if FullPending(s) then s else s.(owed := {})
  }

  function DoManualLaunch(s: State): State
    requires s.opener.Some?
  {
    Settle(s.(opener := None, scan := if s.scan.Some? then s.scan else Some(Manual(s.opener.value, false, false))))
  }

  /** A partial rescan cuts the watch scan short and asks for its directories to be given back. */
  function DoSupersede(s: State): State
    requires WatchScan(s)
  {
    s.(scan := Some(s.scan.value.(requeue := true)))
  }

  function DoStarterOpens(s: State, m: nat): State
    requires m in s.starters && !s.row
  {
    s.(starters := s.starters - {m}, row := true, opener := Some(true))
  }

  /** The store refuses the full scan, or answers another one. */
  function DoStarterFails(s: State, m: nat): State
    requires m in s.starters
  {
    Settle(s.(starters := s.starters - {m}))
  }

  function DoCloseRow(s: State, read: bool): State
    requires s.scan.Some? && !s.scan.value.closed
  {
    s.(row := false, scan := Some(s.scan.value.(closed := true, read := read)))
  }

  /** The scan's goroutine is gone. */
  function Ended(s: State): State {
    s.(scan := None)
  }

  /** The batch of the running watch scan is the one in flight, so that its notice can give it back. */
  predicate Attached(s: State) {
    WatchScan(s) && s.startMu.None? && s.core.inflight == Some(s.scan.value.batch)
  }

  /** The watch scan took its batch after the report. */
  ghost predicate Took(scan: Scan, id: nat, dir: Dir) {
    scan.Watching? && id < scan.cut && Covered(dir, scan.batch)
  }

  ghost predicate ScanTracks(s: State, id: nat, dir: Dir) {
    Attached(s) && Took(s.scan.value, id, dir)
  }

  /** A full scan reads every directory, and so what earlier watch scans left to it. */
  predicate ReadsAll(scan: Scan) {
    scan.Manual? && scan.full && scan.read
  }

  /** Which reports the finish notice discharges: those its scan read. */
  ghost predicate Discharges(s: State, id: nat, dir: Dir)
    requires s.scan.Some?
  {
    (Took(s.scan.value, id, dir) && s.scan.value.read) || (id in s.owed && ReadsAll(s.scan.value))
  }

  /** What the notice of a watch scan leaves to a full scan: what it had taken, did not read and does not give back. */
  ghost function LeftOver(s: State): set<nat>
    requires s.scan.Some?
  {
    set id | id in s.reports && ScanTracks(s, id, s.reports[id]) && !s.scan.value.read && !s.scan.value.requeue
  }

  ghost function DoNotice(s: State): State
    requires s.scan.Some? && s.scan.value.closed
  {
    var scan := s.scan.value;
    Put(s, ScanFinished(s.core, scan.Watching?, scan.Watching? && scan.requeue)).(
      scan := None,
      owed := if ReadsAll(scan) || !FullPending(Ended(s)) then {} else s.owed + LeftOver(s),
      reports := map id | id in s.reports && !Discharges(s, id, s.reports[id]) :: s.reports[id])
  }

  // ---------------------------------------------------------------- steps of the holders

  function DoHold(s: State, h: nat, switch: bool): State
  {
    s.(core := HoldBegin(s.core), holders := s.holders[h := Quiescing(switch)],
       setMu := if switch then Some(h) else s.setMu)
  }

  function DoQuiesce(s: State, h: nat): State
    requires h in s.holders
  {
    s.(holders := s.holders[h := Cloning(s.holders[h].switch)])
  }

  function DoClone(s: State, h: nat): State
    requires h in s.holders
  {
    var batch := if s.core.inflight.Some? then s.core.inflight.value else {};
    s.(holders := s.holders[h := Superseding(s.holders[h].switch, batch)])
  }

  function DoSupersedeFor(s: State, h: nat): State
    requires h in s.holders && s.holders[h].Superseding?
  {
    var holder := s.holders[h];
    if WatchScan(s) then
      s.(holders := s.holders[h := Awaiting(holder.switch, holder.batch)],
         scan := Some(s.scan.value.(held := Some(h))))
    else
      s.(holders := s.holders[h := Held(holder.switch, {})])
  }

  function DoWake(s: State, h: nat): State
    requires h in s.holders && s.holders[h].Awaiting?
  {
    s.(holders := s.holders[h := Held(s.holders[h].switch, s.holders[h].batch)])
  }

  function DoRequeueFolders(s: State, h: nat): State
    requires h in s.holders && s.holders[h].Held?
  {
    s.(core := Requeue(s.core, s.holders[h].batch), holders := s.holders[h := Changing(false)])
  }

  function DoEndFolders(s: State, h: nat): State
    requires h in s.holders
  {
    Put(s.(holders := s.holders - {h}), FoldersChanged(s.core))
  }

  function DoCommitOff(s: State, h: nat): State
    requires h in s.holders
  {
    Put(s.(holders := s.holders - {h}, setMu := None, reports := map[], owed := {}), SwitchOff(s.core))
  }

  function DoRestoreOn(s: State, h: nat): State
    requires h in s.holders && s.holders[h].Held?
  {
    Put(s.(holders := s.holders - {h}, setMu := None), SwitchRestore(s.core, s.holders[h].batch))
  }

  // ---------------------------------------------------------------- the machine

  ghost predicate FireEnabled(s: State, step: FireStep) {
    match step
    case Report(_) => true
    case TimerFires(i, batch) => i in s.fires && s.fires[i].Waiting? && (Takes(s.core, i) ==> NormalForm(batch, s.core.dirty))
    case Split(i, settled) => i in s.fires && s.fires[i].Probing? && settled <= s.fires[i].batch
    case Check(i) => i in s.fires && s.fires[i].Deciding? && s.startMu.None?
    case OpenRow(i) => i in s.fires && s.fires[i].Calling?
    case OpenFails(i) => i in s.fires && s.fires[i].Calling?
    case Launch(i, _) => i in s.fires && s.fires[i].Opened?
    case Reject(i) => i in s.fires && s.fires[i].Rejected?
    case Finish(i) => i in s.fires && s.fires[i].Closing?
  }

  ghost function FireNext(s: State, step: FireStep): State
    requires FireEnabled(s, step)
  {
    match step
    case Report(dir) => DoReport(s, dir)
    case TimerFires(i, batch) => DoTimerFires(s, i, batch)
    case Split(i, settled) => DoSplit(s, i, settled)
    case Check(i) => DoCheck(s, i)
    case OpenRow(i) => DoOpenRow(s, i)
    case OpenFails(i) => DoOpenFails(s, i)
    case Launch(i, listed) => DoLaunch(s, i, listed)
    case Reject(i) => DoReject(s, i)
    case Finish(i) => DoFinish(s, i)
  }

  predicate ScanEnabled(s: State, step: ScanStep) {
    match step
    case ManualOpen(_) => !s.row
    case ManualLaunch => s.opener.Some?
    case Supersede => WatchScan(s)
    case SupersedeFull(_) => WatchScan(s)
    case StarterOpens(m) => m in s.starters && !s.row
    case StarterFails(m) => m in s.starters
    case CloseRow(_) => s.scan.Some? && !s.scan.value.closed
    case Notice => s.scan.Some? && s.scan.value.closed
  }

  ghost function ScanNext(s: State, step: ScanStep): State
    requires ScanEnabled(s, step)
  {
    match step
    case ManualOpen(full) => DoManualOpen(s, full)
    case ManualLaunch => DoManualLaunch(s)
    case Supersede => DoSupersede(s)
    case SupersedeFull(m) => s.(starters := s.starters + {m})
    case StarterOpens(m) => DoStarterOpens(s, m)
    case StarterFails(m) => DoStarterFails(s, m)
    case CloseRow(read) => DoCloseRow(s, read)
    case Notice => DoNotice(s)
  }

  predicate HoldEnabled(s: State, h: nat, step: HoldStep) {
    match step
    case HoldFolders => h !in s.holders
    case HoldSwitch => h !in s.holders && s.setMu.None? && s.core.enabled
    case Quiesce => h in s.holders && s.holders[h].Quiescing? && s.startMu.None?
    case Clone => h in s.holders && s.holders[h].Cloning?
    case SupersedeFor => h in s.holders && s.holders[h].Superseding?
    case Wake => h in s.holders && s.holders[h].Awaiting? && !WatchScan(s)
    case GiveUp => h in s.holders && s.holders[h].Awaiting?
  }

  function HoldNext(s: State, h: nat, step: HoldStep): State
    requires HoldEnabled(s, h, step)
  {
    match step
    case HoldFolders => DoHold(s, h, false)
    case HoldSwitch => DoHold(s, h, true)
    case Quiesce => DoQuiesce(s, h)
    case Clone => DoClone(s, h)
    case SupersedeFor => DoSupersedeFor(s, h)
    case Wake => DoWake(s, h)
    case GiveUp => DoWake(s, h)
  }

  predicate ReleaseEnabled(s: State, h: nat, step: ReleaseStep) {
    match step
    case RequeueFolders => h in s.holders && s.holders[h].Held? && !s.holders[h].switch
    case EndFolders => h in s.holders && s.holders[h].Changing? && s.setMu.None?
    case CommitOff => h in s.holders && s.holders[h].Held? && s.holders[h].switch
    case RestoreOn => h in s.holders && s.holders[h].Held? && s.holders[h].switch
  }

  function ReleaseNext(s: State, h: nat, step: ReleaseStep): State
    requires ReleaseEnabled(s, h, step)
  {
    match step
    case RequeueFolders => DoRequeueFolders(s, h)
    case EndFolders => DoEndFolders(s, h)
    case CommitOff => DoCommitOff(s, h)
    case RestoreOn => DoRestoreOn(s, h)
  }

  predicate LifeEnabled(s: State, step: LifeStep) {
    match step
    case TurnOn => s.setMu.None? && !s.core.enabled
    case Start(_) => s.setMu.None? && !s.core.started
    case MarkStopped => !s.core.stopped
    case StopReturns => s.core.stopped && s.startMu.None?
  }

  function LifeNext(s: State, step: LifeStep): State
    requires LifeEnabled(s, step)
  {
    match step
    case TurnOn => s.(core := SwitchOn(s.core))
    case Start(on) => s.(core := StartUp(s.core, on))
    case MarkStopped => Put(s, Stopping(s.core))
    case StopReturns => s.(stopReturned := true)
  }

  ghost predicate Enabled(s: State, step: Step) {
    match step
    case Fires(f) => FireEnabled(s, f)
    case Scans(c) => ScanEnabled(s, c)
    case Holds(h, x) => HoldEnabled(s, h, x)
    case Releases(h, x) => ReleaseEnabled(s, h, x)
    case Lives(l) => LifeEnabled(s, l)
  }

  ghost function Next(s: State, step: Step): State
    requires Enabled(s, step)
  {
    match step
    case Fires(f) => FireNext(s, f)
    case Scans(c) => ScanNext(s, c)
    case Holds(h, x) => HoldNext(s, h, x)
    case Releases(h, x) => ReleaseNext(s, h, x)
    case Lives(l) => LifeNext(s, l)
  }

  // ---------------------------------------------------------------- what may be lost

  /** The fire that is deciding, if there is one. */
  function Active(s: State): Fire {
    if s.decider.Some? && s.decider.value in s.fires then s.fires[s.decider.value] else Waiting
  }

  /** A timer is set and its callback is still to come. */
  predicate Armed(s: State) {
    s.core.timer && s.core.timerSeq in s.fires && s.fires[s.core.timerSeq].Waiting?
  }

  /** A scan is running, or about to run, whose finish notice is still to come. */
  predicate NoticeToCome(s: State) {
    s.scan.Some? || s.opener.Some?
  }

  /** Dirty directories are never forgotten: something will look at them again. */
  predicate WakeUp(s: State) {
    Listens(s.core) && s.core.dirty != {} ==>
      Armed(s) || (s.core.batching && s.core.rerun) || s.core.holding > 0 || NoticeToCome(s)
  }

  ghost predicate FireTracks(s: State, id: nat, dir: Dir) {
    Active(s).Holds() && id < Active(s).cut && Covered(dir, Active(s).batch)
  }

  ghost predicate HolderTracks(s: State, dir: Dir) {
    exists h | h in s.holders :: s.holders[h].Saves() && Covered(dir, s.holders[h].batch)
  }

  /** A report is dirty, or with the deciding fire, or with a holder, or left to a full scan that is to come. */
  ghost predicate HeldElsewhere(s: State, id: nat, dir: Dir) {
    Covered(dir, s.core.dirty) || FireTracks(s, id, dir) || HolderTracks(s, dir) || (id in s.owed && FullPending(s))
  }

  /** Where an outstanding report is: there, or in the running scan. */
  ghost predicate Tracked(s: State, id: nat, dir: Dir) {
    HeldElsewhere(s, id, dir) || ScanTracks(s, id, dir)
  }

  /** Something is lost: dirty directories without a wake-up, or a report that is nowhere. */
  ghost predicate Lost(s: State) {
    !s.core.stopped && (!WakeUp(s) || exists id :: id in s.reports && !Tracked(s, id, s.reports[id]))
  }

  // ---------------------------------------------------------------- what the code does not guard

  /** A holder that cannot leave before the watch scan has ended. */
  predicate Blocks(holder: Holder) {
    !holder.Held? && !holder.Changing?
  }

  predicate OtherBlocks(holders: map<nat, Holder>, h: nat) {
    exists k | k in holders :: k != h && Blocks(holders[k])
  }

  /** A holder that has to give a batch back before it can leave. */
  predicate HasBatch(holder: Holder) {
    holder.Saves() && holder.batch != {}
  }

  predicate OtherHasBatch(holders: map<nat, Holder>, h: nat) {
    exists k | k in holders :: k != h && HasBatch(holders[k])
  }

  /** The scan read what it was to read, or its batch is given back, or a holder saved it. */
  predicate Accounted(scan: Scan) {
    scan.read || (scan.Watching? && (scan.requeue || scan.held.Some?))
  }

  /** The finish notice discharges every report that only the scan had, or it is given back, or left to a full scan. */
  ghost predicate NoticeSpares(s: State)
    requires s.scan.Some?
  {
    Accounted(s.scan.value) || FullPending(Ended(s)) ||
    forall id | id in s.reports :: HeldElsewhere(Ended(s), id, s.reports[id])
  }

  /** Another full scan is to come, or nothing was left to this one alone. */
  ghost predicate FailureSpares(s: State, m: nat) {
    FullPending(s.(starters := s.starters - {m})) ||
    forall id | id in s.reports && id in s.owed :: Tracked(s.(owed := {}), id, s.reports[id])
  }

  /**
   The steps that lose nothing, then or later, as AutoImportLosses.dfy shows:
   - a start reaches the scan lock only after the previous scan sent its notice, and answers no error once it launched,
     unless starts are held by then;
   - a manual start reaches it only after the previous scan sent its notice;
   - a holder stops waiting only when no watch scan runs, or another holder still waits for it;
   - a folder change returns a batch only to an importer that is on, or while another holder has one to return;
   - a watch scan that did not read its batch gives it back, or a holder saved it, or a full scan will follow;
   - the last full scan to follow does not fail to start;
   - nor does it fail once it started.
   */
  ghost predicate Safe(s: State, step: Step) {
    s.core.stopped ||
    match step
    case Fires(Launch(_, listed)) => s.scan.None? && (listed || s.holders != map[])
    case Scans(ManualLaunch) => s.scan.None?
    case Scans(Notice) => s.scan.Some? ==> NoticeSpares(s)
    case Scans(StarterFails(m)) => FailureSpares(s, m)
    case Holds(h, GiveUp) => !WatchScan(s) || OtherBlocks(s.holders, h)
    case Releases(h, RequeueFolders) =>
      h in s.holders && s.holders[h].Held? ==> s.core.enabled || s.holders[h].batch == {} || OtherHasBatch(s.holders, h)
    case _ => true
  }

  /** The states a sequence of steps visits, from the new importer on. */
  ghost predicate Run(states: seq<State>, steps: seq<Step>) {
    |states| == |steps| + 1 && states[0] == Init &&
    forall k | 0 <= k < |steps| :: Enabled(states[k], steps[k]) && states[k + 1] == Next(states[k], steps[k])
  }

  ghost predicate SafeRun(states: seq<State>, steps: seq<Step>) {
    Run(states, steps) && forall k | 0 <= k < |steps| :: Safe(states[k], steps[k])
  }
}
