/**
 The fields of AutoImport guarded by mu, and the critical sections that change them, as functions.
 The class in AutoImport.dfy carries the sections out in place; AutoImportProtocol.dfy interleaves them.
 */
module AutoImportState {
  import opened Options
  import opened DirtyDirectories

  datatype Core = Core(
    started: bool,
    stopped: bool,
    enabled: bool,
    dirty: set<Dir>,
    inflight: Option<set<Dir>>,
    timerSeq: nat,
    timer: bool,
    batching: bool,
    rerun: bool,
    holding: int,
    finishes: nat)

  const Initial := Core(false, false, true, {}, None, 0, false, false, false, 0, 0)

  function CancelTimer(c: Core): Core {
    c.(timerSeq := c.timerSeq + 1, timer := false)
  }

  function Schedule(c: Core): Core {
    if c.stopped then c else CancelTimer(c).(timer := true)
  }

  function AddDirty(c: Core, dirs: set<Dir>): Core {
    c.(dirty := c.dirty + dirs)
  }

  function Requeue(c: Core, batch: set<Dir>): Core {
    if batch == {} then c else AddDirty(c, batch).(inflight := None)
  }

  predicate Listens(c: Core) {
    c.enabled && c.started && !c.stopped
  }

  /** A report with an empty path names no directory, but still restarts the quiet timer. */
  function Changed(c: Core, report: Option<Dir>): Core {
    if !Listens(c) then c
    else if report.Some? then Schedule(AddDirty(c, {report.value}))
    else Schedule(c)
  }

  /** fire, first section: whether the callback takes the dirty directories. */
  predicate Takes(c: Core, seq': nat) {
    seq' == c.timerSeq && Listens(c) &&
    !c.batching && c.holding <= 0 && c.inflight.None? && c.dirty != {}
  }

  function FireBegin(c: Core, seq': nat): Core {
    if seq' != c.timerSeq || !Listens(c) then c
    else if c.batching then c.(timer := false, rerun := true)
    else if Takes(c, seq') then c.(timer := false, batching := true, dirty := {})
    else c.(timer := false)
  }

  /** fire, second section: unsettled directories stay dirty and are looked at again. */
  function KeepUnsettled(c: Core, unsettled: set<Dir>): Core {
    if !c.enabled || c.stopped then c
    else if unsettled == {} then c
    else Schedule(AddDirty(c, unsettled))
  }

  /** start, first section under startMu. */
  predicate MayStart(c: Core) {
    c.enabled && !c.stopped && c.holding <= 0
  }

  function StartCheck(c: Core, settled: set<Dir>): Core {
    if MayStart(c) then c.(inflight := Some(settled))
    else if c.enabled && !c.stopped then AddDirty(c, settled)
    else c
  }

  /** start, second section: the scan did not start. */
  function StartRejected(c: Core, settled: set<Dir>, finishes: nat, failed: bool): Core {
    var c := c.(inflight := None);
    if c.stopped || !c.enabled then c
    else if failed || c.finishes != finishes then Schedule(AddDirty(c, settled))
    else AddDirty(c, settled)
  }

  /** fire, last section. */
  function FireEnd(c: Core): Core {
    var c := c.(batching := false);
    if !c.rerun then c
    else if c.dirty != {} then Schedule(c.(rerun := false))
    else c.(rerun := false)
  }

  function ScheduleIfDirty(c: Core): Core {
    if c.dirty != {} then Schedule(c) else c
  }

  /** ScanFinished, the batch of a watch scan: dirty again when its scan was superseded for a partial rescan. */
  function EndBatch(c: Core, requeue: bool): Core {
    if requeue && c.enabled && !c.stopped && c.inflight.Some?
    then AddDirty(c, c.inflight.value).(inflight := None)
    else c.(inflight := None)
  }

  function CountFinish(c: Core): Core {
    c.(finishes := c.finishes + 1)
  }

  /** Unless the importer is off or stopped, what is dirty is looked at again. */
  function Woken(c: Core): Core {
    if c.enabled && !c.stopped then ScheduleIfDirty(c) else c
  }

  function ScanFinished(c: Core, watch: bool, requeue: bool): Core {
    Woken(if watch then EndBatch(CountFinish(c), requeue) else CountFinish(c))
  }

  function HoldBegin(c: Core): Core {
    c.(holding := c.holding + 1)
  }

  function Release(c: Core): Core {
    c.(holding := c.holding - 1)
  }

  function FoldersChanged(c: Core): Core {
    if Listens(c) then ScheduleIfDirty(Release(c)) else Release(c)
  }

  /** SetEnabled(false) after the setting was saved. */
  function SwitchOff(c: Core): Core {
    CancelTimer(c.(enabled := false, holding := c.holding - 1, dirty := {}, inflight := None))
  }

  /** SetEnabled(false) when saving the setting failed. */
  function SwitchRestore(c: Core, batch: set<Dir>): Core {
    Woken(Requeue(Release(c), batch))
  }

  function SwitchOn(c: Core): Core {
    c.(enabled := true)
  }

  function StartUp(c: Core, enabled: bool): Core {
    c.(started := true, enabled := enabled)
  }

  function Stopping(c: Core): Core {
    CancelTimer(c.(stopped := true))
  }

  // ---------------------------------------------------------------- what the sections change

  /** Other directories are dirty or in flight, starts are held or not, scans finished, and perhaps a new timer is set. */
  predicate Ticks(c: Core, d: Core) {
    && d.started == c.started && d.stopped == c.stopped && d.enabled == c.enabled
    && d.batching == c.batching && d.rerun == c.rerun && c.finishes <= d.finishes
    && (if d.timerSeq == c.timerSeq then d.timer == c.timer else d.timerSeq == c.timerSeq + 1 && d.timer)
  }

  lemma WokenTicks(c: Core)
    ensures var d := Woken(c);
            && Ticks(c, d) && d.dirty == c.dirty && d.inflight == c.inflight && d.holding == c.holding && d.finishes == c.finishes
            && (c.enabled && !c.stopped && c.dirty != {} ==> d.timerSeq == c.timerSeq + 1)
  {
  }

  function GivenBack(c: Core, requeue: bool): set<Dir> {
    if requeue && c.enabled && !c.stopped && c.inflight.Some? then c.inflight.value else {}
  }

  lemma EndBatchTicks(c: Core, requeue: bool)
    ensures var d := EndBatch(c, requeue);
            && Ticks(c, d) && d.timerSeq == c.timerSeq && d.dirty == c.dirty + GivenBack(c, requeue) && d.inflight.None?
            && d.holding == c.holding && d.finishes == c.finishes
  {
  }

  lemma FinishedTicks(c: Core, watch: bool, requeue: bool)
    ensures var d := ScanFinished(c, watch, requeue);
            && Ticks(c, d) && d.holding == c.holding && d.finishes == c.finishes + 1
            && d.dirty == (if watch then c.dirty + GivenBack(c, requeue) else c.dirty)
            && d.inflight == (if watch then None else c.inflight)
            && (c.enabled && !c.stopped && d.dirty != {} ==> d.timerSeq == c.timerSeq + 1)
  {
    if watch {
      EndBatchTicks(CountFinish(c), requeue);
      WokenTicks(EndBatch(CountFinish(c), requeue));
    } else {
      WokenTicks(CountFinish(c));
    }
  }

  lemma FoldersTicks(c: Core)
    ensures var d := FoldersChanged(c);
            && Ticks(c, d) && d.holding == c.holding - 1 && d.finishes == c.finishes && d.dirty == c.dirty && d.inflight == c.inflight
            && (Listens(c) && d.dirty != {} ==> d.timerSeq == c.timerSeq + 1)
  {
  }

  lemma RequeueTicks(c: Core, batch: set<Dir>)
    ensures var d := Requeue(c, batch);
            && Ticks(c, d) && d.timerSeq == c.timerSeq && d.dirty == c.dirty + batch
            && d.inflight == (if batch == {} then c.inflight else None) && d.holding == c.holding && d.finishes == c.finishes
  {
  }

  lemma RestoreTicks(c: Core, batch: set<Dir>)
    ensures var d := SwitchRestore(c, batch);
            && Ticks(c, d) && d.holding == c.holding - 1 && d.finishes == c.finishes && d.dirty == c.dirty + batch
            && d.inflight == (if batch == {} then c.inflight else None)
            && (c.enabled && !c.stopped && d.dirty != {} ==> d.timerSeq == c.timerSeq + 1)
  {
    RequeueTicks(Release(c), batch);
    WokenTicks(Requeue(Release(c), batch));
  }

  lemma ChangedTicks(c: Core, report: Option<Dir>)
    ensures var d := Changed(c, report);
            && Ticks(c, d) && d.holding == c.holding && d.finishes == c.finishes && d.inflight == c.inflight
            && d.dirty == (if Listens(c) && report.Some? then c.dirty + {report.value} else c.dirty)
            && (Listens(c) ==> d.timerSeq == c.timerSeq + 1)
  {
  }

  lemma UnsettledTicks(c: Core, unsettled: set<Dir>)
    ensures var d := KeepUnsettled(c, unsettled);
            && Ticks(c, d) && d.holding == c.holding && d.finishes == c.finishes && d.inflight == c.inflight
            && d.dirty == (if c.enabled && !c.stopped then c.dirty + unsettled else c.dirty)
            && (c.enabled && !c.stopped && unsettled != {} ==> d.timerSeq == c.timerSeq + 1)
  {
  }

  lemma RejectedTicks(c: Core, settled: set<Dir>, finishes: nat, failed: bool)
    ensures var d := StartRejected(c, settled, finishes, failed);
            && Ticks(c, d) && d.holding == c.holding && d.finishes == c.finishes && d.inflight.None?
            && d.dirty == (if c.enabled && !c.stopped then c.dirty + settled else c.dirty)
            && (c.enabled && !c.stopped && (failed || c.finishes != finishes) ==> d.timerSeq == c.timerSeq + 1)
  {
  }

  lemma FireEndTicks(c: Core)
    ensures var d := FireEnd(c);
            && Ticks(c.(batching := false, rerun := d.rerun), d) && (c.rerun ==> !d.rerun) && (!c.rerun ==> d == c.(batching := false))
            && d.holding == c.holding && d.finishes == c.finishes && d.inflight == c.inflight && d.dirty == c.dirty
            && (c.rerun && c.dirty != {} && !c.stopped ==> d.timerSeq == c.timerSeq + 1)
  {
  }
}
