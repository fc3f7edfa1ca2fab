/** The invariant of the auto-import protocol, and that every safe step keeps it. */
module AutoImportInvariant {
  import opened Options
  import opened DirtyDirectories
  import opened AutoImportState
  import opened AutoImportProtocol

  // Every callback is older than the next.
  ghost predicate Timers(fires: map<nat, Fire>, timerSeq: nat) {
    forall i | i in fires :: i <= timerSeq
  }

  // One decision at a time, and its ownership of startMu.
  ghost predicate Owners(fires: map<nat, Fire>, decider: Option<nat>, startMu: Option<nat>) {
    && (decider.Some? ==> decider.value in fires)
    && (startMu.Some? ==> startMu.value in fires)
    && (forall i | i in fires :: !fires[i].Waiting? <==> decider == Some(i))
    && (forall i | i in fires :: fires[i].OwnsStart() <==> startMu == Some(i))
  }

  ghost predicate FiresOk(s: State) {
    && Timers(s.fires, s.core.timerSeq)
    && Owners(s.fires, s.decider, s.startMu)
    && (s.core.batching <==> s.decider.Some?)
    && (s.core.rerun ==> s.core.batching)
    && (Active(s).Holds() ==>
          Active(s).finishes <= s.core.finishes && Active(s).cut <= s.nextReport && Active(s).batch != {})
  }

  ghost predicate SomeBlocks(holders: map<nat, Holder>) {
    exists h | h in holders :: Blocks(holders[h])
  }

  // The batch of the watch scan is no longer in flight: nobody leaves, and nothing is started, before it ended.
  ghost predicate Detached(s: State) {
    && SomeBlocks(s.holders)
    && (s.startMu.None? ==> s.core.inflight.None?)
    && (Active(s).Waiting? || Active(s).Closing? || (Active(s).Rejected? && Active(s).failed))
  }

  // The batch handed to a scan.
  ghost predicate Batch(s: State) {
    && (Active(s).Probing? || Active(s).Deciding? ==> s.core.inflight.None?)
    && (s.core.stopped || (Active(s).OwnsStart() ==>
          s.core.inflight == Some(Active(s).batch) || (Active(s).Rejected? && Active(s).failed)))
    && (s.core.inflight.Some? ==> s.core.inflight.value != {} && s.core.enabled)
    && (s.core.stopped || (s.core.inflight.Some? ==> s.startMu.Some? || WatchScan(s)))
    && (s.core.stopped || (WatchScan(s) ==> Attached(s) || Detached(s)))
    && (WatchScan(s) ==> s.scan.value.cut <= s.nextReport)
  }

  predicate Opening(s: State) {
    Active(s).Opened?
  }

  predicate Unclosed(s: State) {
    s.scan.Some? && !s.scan.value.closed
  }

  // The store's row: while it is there, a finish notice is still to come.
  ghost predicate Row(s: State) {
    s.core.stopped || (
      && (s.row <==> s.opener.Some? || Unclosed(s) || Opening(s))
      && !(s.opener.Some? && Unclosed(s)) && !(s.opener.Some? && Opening(s)) && !(Unclosed(s) && Opening(s)))
  }

  // Holders keep the start gate shut from the end of quiesceStarts on.
  ghost predicate Gate(holders: map<nat, Holder>, holding: int, startMu: Option<nat>, setMu: Option<nat>) {
    && holding == |holders|
    && (forall h | h in holders :: holders[h].Past() ==> startMu.None?)
    && (forall h | h in holders :: holders[h].switch <==> setMu == Some(h))
    && (setMu.Some? ==> setMu.value in holders)
    && (forall h | h in holders :: holders[h].Changing? ==> !holders[h].switch)
  }

  // While a watch scan runs with its batch in flight, whoever saved a batch saved that one.
  ghost predicate Saved(holders: map<nat, Holder>, batch: set<Dir>, held: Option<nat>) {
    && (forall h | h in holders :: !holders[h].Changing?)
    && (forall h | h in holders :: holders[h].Superseding? || holders[h].Saves() ==> holders[h].batch == batch)
    && (forall h | h in holders :: holders[h].Held? ==> SomeBlocks(holders))
    && (held.Some? ==> held.value in holders && holders[held.value].Saves())
  }

  ghost predicate Holders(s: State) {
    && Gate(s.holders, s.core.holding, s.startMu, s.setMu)
    && (s.stopReturned ==> s.core.stopped && s.startMu.None?)
    && (s.setMu.Some? ==> s.core.enabled)
    && (s.core.stopped || (Attached(s) ==> Saved(s.holders, s.scan.value.batch, s.scan.value.held)))
  }

  ghost predicate NothingSaved(holders: map<nat, Holder>) {
    forall h | h in holders :: holders[h].Superseding? || holders[h].Saves() ==> holders[h].batch == {}
  }

  ghost predicate SomeHasBatch(holders: map<nat, Holder>) {
    exists h | h in holders :: HasBatch(holders[h])
  }

  // An importer that is off, or not started, has nothing pending but what a holder will return.
  ghost predicate Off(s: State) {
    && (!s.core.enabled && !s.core.stopped ==> s.core.dirty == {} || SomeHasBatch(s.holders))
    && (!s.core.enabled ==> s.reports == map[])
    && (!s.core.started && !s.core.stopped ==> s.core.dirty == {})
    && (!s.core.started ==> s.reports == map[])
    && (s.decider.Some? || s.core.inflight.Some? || WatchScan(s) ==> s.core.started)
    && (!s.core.started ==> NothingSaved(s.holders))
  }

  ghost predicate Wakes(s: State) {
    && WakeUp(s)
    && (s.core.stopped ||
        (Active(s).Rejected? && !Active(s).failed && Active(s).finishes == s.core.finishes ==> NoticeToCome(s)))
  }

  ghost predicate Reports(s: State) {
    && (forall id :: id in s.reports ==> id < s.nextReport)
    && (forall id :: id in s.owed ==> id < s.nextReport && (Active(s).Holds() ==> id < Active(s).cut))
    && (!s.core.stopped ==> forall id :: id in s.reports ==> Tracked(s, id, s.reports[id]))
  }

  ghost predicate Shape(s: State) {
    FiresOk(s) && Batch(s) && Row(s) && Holders(s) && Off(s) && Wakes(s)
  }

  ghost predicate Inv(s: State) {
    Shape(s) && Reports(s)
  }

  lemma InitInv()
    ensures Inv(Init)
  {
  }

  // ---------------------------------------------------------------- a new timer

  /** The same fires, and perhaps a new timer. */
  ghost predicate Rearmed(s: State, t: State) {
    && t.decider == s.decider && t.startMu == s.startMu && Ticks(s.core, t.core) && s.nextReport <= t.nextReport
    && (t.fires == s.fires ||
        (t.core.timerSeq == s.core.timerSeq + 1 && t.fires == s.fires[t.core.timerSeq := Waiting]))
  }

  lemma PutRearms(s: State, c: Core)
    requires Ticks(s.core, c)
    ensures Rearmed(s, Put(s, c)) && Put(s, c) == s.(core := c, fires := Put(s, c).fires)
    ensures c.timerSeq == s.core.timerSeq + 1 ==> Armed(Put(s, c))
  {
  }

  lemma RearmedFires(s: State, t: State)
    requires FiresOk(s) && Rearmed(s, t)
    ensures FiresOk(t) && Active(t) == Active(s)
  {
    assert s.core.timerSeq + 1 !in s.fires;
  }

  /** The batch in flight, the scan and the row stay where they are. */
  lemma RearmedBatch(s: State, t: State)
    requires FiresOk(s) && Batch(s) && Row(s) && Rearmed(s, t)
    requires t.core.inflight == s.core.inflight && t.scan == s.scan && t.row == s.row && t.opener == s.opener
    requires SomeBlocks(s.holders) ==> SomeBlocks(t.holders)
    ensures FiresOk(t) && Batch(t) && Row(t)
  {
    RearmedFires(s, t);
  }

  lemma RearmedWakes(s: State, t: State)
    requires FiresOk(s) && Wakes(s) && Rearmed(s, t) && Armed(t)
    requires NoticeToCome(s) ==> NoticeToCome(t)
    ensures Wakes(t)
  {
    RearmedFires(s, t);
  }

  lemma ArmFires(s: State, c: Core)
    requires FiresOk(s) && Batch(s)
    requires c == s.core.(dirty := c.dirty, timer := true, timerSeq := s.core.timerSeq + 1)
    ensures FiresOk(Put(s, c)) && Batch(Put(s, c)) && Active(Put(s, c)) == Active(s)
  {
    assert c.timerSeq !in s.fires;
  }

  lemma AdvanceFires(s: State, i: nat, to: Fire)
    requires FiresOk(s) && Batch(s) && s.decider == Some(i) && s.startMu != Some(i)
    requires !to.Waiting? && !to.OwnsStart()
    requires to.Holds() ==> s.fires[i].Holds() && to.batch != {} && s.core.inflight.None?
    requires to.Holds() ==> to.finishes == s.fires[i].finishes && to.cut == s.fires[i].cut
    ensures FiresOk(s.(fires := s.fires[i := to])) && Batch(s.(fires := s.fires[i := to]))
  {
  }

  lemma GateUpdate(holders: map<nat, Holder>, holding: int, startMu: Option<nat>, setMu: Option<nat>, h: nat, to: Holder)
    requires Gate(holders, holding, startMu, setMu)
    requires h in holders && to.switch == holders[h].switch && (to.Past() ==> startMu.None?) && (to.Changing? ==> !to.switch)
    ensures Gate(holders[h := to], holding, startMu, setMu)
  {
    assert holders[h := to].Keys == holders.Keys;
  }

  /** What a report does while the importer listens. */
  lemma ReportEffect(s: State, dir: Option<Dir>)
    requires Listens(s.core)
    ensures var t := DoReport(s, dir);
            && Rearmed(s, t) && Armed(t) && t.core.inflight == s.core.inflight && t.core.holding == s.core.holding
            && t == s.(core := t.core, fires := t.fires, reports := t.reports, nextReport := t.nextReport)
  {
    ChangedTicks(s.core, dir);
    PutRearms(s, Changed(s.core, dir));
  }

  lemma ReportFires(s: State, dir: Option<Dir>)
    requires Shape(s)
    ensures FiresOk(DoReport(s, dir)) && Batch(DoReport(s, dir)) && Row(DoReport(s, dir))
  {
    if Listens(s.core) {
      ReportEffect(s, dir);
      RearmedBatch(s, DoReport(s, dir));
    }
  }

  lemma ReportGates(s: State, dir: Option<Dir>)
    requires Holders(s)
    ensures Holders(DoReport(s, dir))
  {
    if Listens(s.core) {
      ReportEffect(s, dir);
    }
  }

  lemma ReportOff(s: State, dir: Option<Dir>)
    requires Shape(s)
    ensures Off(DoReport(s, dir))
  {
    var c := Changed(s.core, dir);
    if Listens(s.core) {
      assert c.timer && c.timerSeq == s.core.timerSeq + 1 && c.holding == s.core.holding;
    }
  }

  lemma ReportArms(s: State, dir: Option<Dir>)
    requires FiresOk(s) && Wakes(s)
    ensures Wakes(DoReport(s, dir))
  {
    if Listens(s.core) {
      ReportEffect(s, dir);
      RearmedWakes(s, DoReport(s, dir));
    }
  }

  lemma ReportWakes(s: State, dir: Option<Dir>)
    requires Shape(s)
    ensures Off(DoReport(s, dir)) && Wakes(DoReport(s, dir))
  {
    ReportOff(s, dir);
    ReportArms(s, dir);
  }

  lemma TakenFires(s: State, i: nat, batch: set<Dir>)
    requires FiresOk(s) && FireEnabled(s, TimerFires(i, batch)) && Takes(s.core, i)
    ensures FiresOk(DoTimerFires(s, i, batch))
  {
    NormalFormNonempty(batch, s.core.dirty);
  }

  lemma PassedFires(s: State, i: nat, batch: set<Dir>)
    requires FiresOk(s) && FireEnabled(s, TimerFires(i, batch)) && !Takes(s.core, i)
    ensures FiresOk(DoTimerFires(s, i, batch)) && Active(DoTimerFires(s, i, batch)) == Active(s)
  {
  }

  lemma TimerFiresOwners(s: State, i: nat, batch: set<Dir>)
    requires FiresOk(s) && FireEnabled(s, TimerFires(i, batch))
    ensures FiresOk(DoTimerFires(s, i, batch))
  {
    if Takes(s.core, i) {
      TakenFires(s, i, batch);
    } else {
      PassedFires(s, i, batch);
    }
  }

  lemma TimerFiresBatch(s: State, i: nat, batch: set<Dir>)
    requires Shape(s) && FireEnabled(s, TimerFires(i, batch))
    ensures Batch(DoTimerFires(s, i, batch))
  {
    if Takes(s.core, i) {
      NormalFormNonempty(batch, s.core.dirty);
    }
  }

  lemma TimerFiresFires(s: State, i: nat, batch: set<Dir>)
    requires Shape(s) && FireEnabled(s, TimerFires(i, batch))
    ensures FiresOk(DoTimerFires(s, i, batch)) && Batch(DoTimerFires(s, i, batch))
  {
    TimerFiresOwners(s, i, batch);
    TimerFiresBatch(s, i, batch);
  }

  lemma TimerFiresGates(s: State, i: nat, batch: set<Dir>)
    requires Shape(s) && FireEnabled(s, TimerFires(i, batch))
    ensures Row(DoTimerFires(s, i, batch)) && Holders(DoTimerFires(s, i, batch))
  {
    if Takes(s.core, i) {
      NormalFormNonempty(batch, s.core.dirty);
    }
  }

  lemma TimerFiresWakes(s: State, i: nat, batch: set<Dir>)
    requires Shape(s) && FireEnabled(s, TimerFires(i, batch))
    ensures Off(DoTimerFires(s, i, batch)) && Wakes(DoTimerFires(s, i, batch))
  {
    if Takes(s.core, i) {
      NormalFormNonempty(batch, s.core.dirty);
    }
  }

  /** What splitting the batch does, seen from the fire once it has decided. */
  function Decided(s: State, i: nat, settled: set<Dir>): State
    requires i in s.fires && s.fires[i].Probing?
  {
    var f := s.fires[i];
    s.(fires := s.fires[i := if settled == {} then Closing else Deciding(settled, f.finishes, f.cut)])
  }

  lemma SplitEffect(s: State, i: nat, settled: set<Dir>)
    requires i in s.fires && s.fires[i].Probing?
    ensures var (d, t) := (Decided(s, i, settled), DoSplit(s, i, settled));
            && Rearmed(d, t) && t == d.(core := t.core, fires := t.fires)
            && t.core.inflight == s.core.inflight && t.core.holding == s.core.holding
            && t.core.dirty == (if s.core.enabled && !s.core.stopped then s.core.dirty + (s.fires[i].batch - settled) else s.core.dirty)
            && (s.core.enabled && !s.core.stopped && s.fires[i].batch - settled != {} ==> Armed(t))
  {
    var unsettled := s.fires[i].batch - settled;
    UnsettledTicks(s.core, unsettled);
    PutRearms(Decided(s, i, settled), KeepUnsettled(s.core, unsettled));
  }

  lemma DecidedFires(s: State, i: nat, settled: set<Dir>)
    requires FiresOk(s) && Batch(s) && Row(s) && i in s.fires && s.fires[i].Probing?
    ensures var d := Decided(s, i, settled); FiresOk(d) && Batch(d) && Row(d)
  {
    AdvanceFires(s, i, Decided(s, i, settled).fires[i]);
  }

  lemma SplitFires(s: State, i: nat, settled: set<Dir>)
    requires Shape(s) && i in s.fires && s.fires[i].Probing? && settled <= s.fires[i].batch
    ensures FiresOk(DoSplit(s, i, settled)) && Batch(DoSplit(s, i, settled)) && Row(DoSplit(s, i, settled))
  {
    DecidedFires(s, i, settled);
    SplitEffect(s, i, settled);
    RearmedBatch(Decided(s, i, settled), DoSplit(s, i, settled));
  }

  lemma SplitGates(s: State, i: nat, settled: set<Dir>)
    requires Shape(s) && i in s.fires && s.fires[i].Probing? && settled <= s.fires[i].batch
    ensures Holders(DoSplit(s, i, settled)) && Off(DoSplit(s, i, settled)) && Wakes(DoSplit(s, i, settled))
  {
  }

  lemma CheckFires(s: State, i: nat)
    requires Shape(s) && i in s.fires && s.fires[i].Deciding? && s.startMu.None?
    ensures FiresOk(DoCheck(s, i)) && Batch(DoCheck(s, i))
  {
    if !MayStart(s.core) {
      AdvanceFires(s, i, Closing);
    }
  }

  lemma CheckGates(s: State, i: nat)
    requires Shape(s) && i in s.fires && s.fires[i].Deciding? && s.startMu.None?
    ensures Row(DoCheck(s, i)) && Holders(DoCheck(s, i))
  {
  }

  lemma CheckWakes(s: State, i: nat)
    requires Shape(s) && i in s.fires && s.fires[i].Deciding? && s.startMu.None?
    ensures Off(DoCheck(s, i)) && Wakes(DoCheck(s, i))
  {
  }

  lemma OpenRowShape(s: State, i: nat)
    requires Shape(s) && i in s.fires && s.fires[i].Calling?
    ensures Shape(DoOpenRow(s, i))
  {
  }

  lemma OpenFailsShape(s: State, i: nat)
    requires Shape(s) && i in s.fires && s.fires[i].Calling?
    ensures Shape(DoOpenFails(s, i))
  {
  }

  lemma LaunchOwners(s: State, i: nat, listed: bool)
    requires FiresOk(s) && FireEnabled(s, Launch(i, listed))
    ensures FiresOk(DoLaunch(s, i, listed))
  {
  }

  lemma LaunchBatch(s: State, i: nat, listed: bool)
    requires Shape(s) && FireEnabled(s, Launch(i, listed)) && Safe(s, Step.Fires(Launch(i, listed)))
    ensures Batch(DoLaunch(s, i, listed))
  {
    if !listed && !s.core.stopped {
      // A holder that is here cannot have passed startMu.
      var h :| h in s.holders;
      assert Blocks(s.holders[h]);
    }
  }

  lemma LaunchFires(s: State, i: nat, listed: bool)
    requires Shape(s) && FireEnabled(s, Launch(i, listed)) && Safe(s, Step.Fires(Launch(i, listed)))
    ensures FiresOk(DoLaunch(s, i, listed)) && Batch(DoLaunch(s, i, listed))
  {
    LaunchOwners(s, i, listed);
    LaunchBatch(s, i, listed);
  }

  lemma LaunchRow(s: State, i: nat, listed: bool)
    requires Shape(s) && FireEnabled(s, Launch(i, listed)) && Safe(s, Step.Fires(Launch(i, listed)))
    ensures Row(DoLaunch(s, i, listed)) && Wakes(DoLaunch(s, i, listed))
  {
    if !listed && !s.core.stopped {
      // A holder that is here cannot have passed startMu.
      var h :| h in s.holders;
      assert Blocks(s.holders[h]);
    }
  }

  lemma LaunchGates(s: State, i: nat, listed: bool)
    requires Shape(s) && FireEnabled(s, Launch(i, listed)) && Safe(s, Step.Fires(Launch(i, listed)))
    ensures Holders(DoLaunch(s, i, listed)) && Off(DoLaunch(s, i, listed))
  {
    if !listed && !s.core.stopped {
      // A holder that is here cannot have passed startMu.
      var h :| h in s.holders;
      assert Blocks(s.holders[h]);
    }
  }

  lemma LaunchShape(s: State, i: nat, listed: bool)
    requires Shape(s) && FireEnabled(s, Launch(i, listed)) && Safe(s, Step.Fires(Launch(i, listed)))
    ensures Shape(DoLaunch(s, i, listed))
  {
    LaunchFires(s, i, listed);
    LaunchRow(s, i, listed);
    LaunchGates(s, i, listed);
  }

  /** What a rejected start does, seen from the fire once it has let go of the start. */
  function LetGo(s: State, i: nat): State
    requires i in s.fires
  {
    s.(core := s.core.(inflight := None), fires := s.fires[i := Closing], startMu := None)
  }

  lemma RejectEffect(s: State, i: nat)
    requires i in s.fires && s.fires[i].Rejected?
    ensures var (g, t) := (LetGo(s, i), DoReject(s, i));
            && Rearmed(g, t) && t == g.(core := t.core, fires := t.fires)
            && t.core.inflight.None? && t.core.holding == s.core.holding && t.core.finishes == s.core.finishes
            && t.core.dirty == (if s.core.enabled && !s.core.stopped then s.core.dirty + s.fires[i].batch else s.core.dirty)
            && (s.core.enabled && !s.core.stopped && (s.fires[i].failed || s.core.finishes != s.fires[i].finishes) ==> Armed(t))
  {
    var f := s.fires[i];
    RejectedTicks(s.core, f.batch, f.finishes, f.failed);
    PutRearms(LetGo(s, i), StartRejected(s.core, f.batch, f.finishes, f.failed));
  }

  lemma LetGoOwners(s: State, i: nat)
    requires FiresOk(s) && i in s.fires && s.fires[i].Rejected?
    ensures FiresOk(LetGo(s, i)) && Active(LetGo(s, i)).Closing? && LetGo(s, i).startMu.None?
  {
  }

  lemma LetGoFires(s: State, i: nat)
    requires FiresOk(s) && Batch(s) && Row(s) && i in s.fires && s.fires[i].Rejected?
    ensures var g := LetGo(s, i); FiresOk(g) && Batch(g) && Row(g)
  {
    LetGoOwners(s, i);
  }

  lemma RejectFires(s: State, i: nat)
    requires Shape(s) && i in s.fires && s.fires[i].Rejected?
    ensures FiresOk(DoReject(s, i)) && Batch(DoReject(s, i)) && Row(DoReject(s, i))
  {
    LetGoFires(s, i);
    RejectEffect(s, i);
    RearmedBatch(LetGo(s, i), DoReject(s, i));
  }

  lemma RejectGates(s: State, i: nat)
    requires Shape(s) && i in s.fires && s.fires[i].Rejected?
    ensures Holders(DoReject(s, i)) && Off(DoReject(s, i)) && Wakes(DoReject(s, i))
  {
  }

  /** What the end of a fire does, seen from the fire once it is gone. */
  function Finished(s: State, i: nat): State {
    s.(core := s.core.(batching := false, rerun := false), fires := s.fires - {i}, decider := None)
  }

  lemma FinishEffect(s: State, i: nat)
    requires i in s.fires && s.fires[i].Closing?
    ensures var (g, t) := (Finished(s, i), DoFinish(s, i));
            && Rearmed(g, t) && t == g.(core := t.core, fires := t.fires)
            && t.core.inflight == s.core.inflight && t.core.holding == s.core.holding && t.core.dirty == s.core.dirty
            && (s.core.rerun && s.core.dirty != {} && !s.core.stopped ==> Armed(t))
  {
    FireEndTicks(s.core);
    PutRearms(Finished(s, i), FireEnd(s.core));
  }

  lemma FinishedOwners(s: State, i: nat)
    requires FiresOk(s) && i in s.fires && s.fires[i].Closing?
    ensures FiresOk(Finished(s, i)) && Finished(s, i).decider.None?
  {
  }

  lemma FinishedFires(s: State, i: nat)
    requires FiresOk(s) && Batch(s) && Row(s) && i in s.fires && s.fires[i].Closing?
    ensures var g := Finished(s, i); FiresOk(g) && Batch(g) && Row(g)
  {
    FinishedOwners(s, i);
  }

  lemma FinishFires(s: State, i: nat)
    requires Shape(s) && i in s.fires && s.fires[i].Closing?
    ensures FiresOk(DoFinish(s, i)) && Batch(DoFinish(s, i)) && Row(DoFinish(s, i))
  {
    FinishedFires(s, i);
    FinishEffect(s, i);
    RearmedBatch(Finished(s, i), DoFinish(s, i));
  }

  lemma FinishGates(s: State, i: nat)
    requires Shape(s) && i in s.fires && s.fires[i].Closing?
    ensures Holders(DoFinish(s, i)) && Off(DoFinish(s, i))
  {
    FinishEffect(s, i);
  }

  lemma FinishWakes(s: State, i: nat)
    requires Shape(s) && i in s.fires && s.fires[i].Closing?
    ensures Wakes(DoFinish(s, i))
  {
    FinishedFires(s, i);
    FinishEffect(s, i);
    RearmedFires(Finished(s, i), DoFinish(s, i));
  }

  lemma ManualOpenShape(s: State, full: bool)
    requires Shape(s) && !s.row
    ensures Shape(DoManualOpen(s, full))
  {
  }

  lemma ManualEffect(s: State)
    requires s.opener.Some?
    ensures var t := DoManualLaunch(s);
            && t == s.(opener := None, scan := t.scan, owed := t.owed) && t.owed <= s.owed
            && t.scan == (if s.scan.Some? then s.scan else Some(Manual(s.opener.value, false, false)))
            && (FullPending(t) ==> t.owed == s.owed)
  {
  }

  lemma ManualFires(s: State, t: State)
    requires FiresOk(s) && Batch(s) && Row(s) && s.opener.Some? && (s.core.stopped || s.scan.None?)
    requires t == s.(opener := None, scan := t.scan, owed := t.owed)
    requires t.scan == if s.scan.Some? then s.scan else Some(Manual(s.opener.value, false, false))
    ensures FiresOk(t) && Batch(t) && Row(t)
  {
  }

  lemma ManualGates(s: State, t: State)
    requires Holders(s) && Off(s) && Wakes(s) && s.opener.Some? && (s.core.stopped || s.scan.None?)
    requires t == s.(opener := None, scan := t.scan, owed := t.owed)
    requires t.scan == if s.scan.Some? then s.scan else Some(Manual(s.opener.value, false, false))
    ensures Holders(t) && Off(t) && Wakes(t)
  {
  }

  lemma ManualLaunchShape(s: State)
    requires Shape(s) && s.opener.Some? && (s.core.stopped || s.scan.None?)
    ensures Shape(DoManualLaunch(s))
  {
    ManualEffect(s);
    ManualFires(s, DoManualLaunch(s));
    ManualGates(s, DoManualLaunch(s));
  }

  lemma StarterOpensShape(s: State, m: nat)
    requires Shape(s) && m in s.starters && !s.row
    ensures Shape(DoStarterOpens(s, m))
  {
  }

  lemma StartersShape(s: State, starters: set<nat>, owed: set<nat>)
    requires Shape(s)
    ensures Shape(s.(starters := starters, owed := owed))
  {
  }

  lemma SupersedeShape(s: State)
    requires Shape(s) && WatchScan(s)
    ensures Shape(DoSupersede(s))
  {
  }

  lemma CloseRowShape(s: State, read: bool)
    requires Shape(s) && Unclosed(s)
    ensures Shape(DoCloseRow(s, read))
  {
  }

  /** What a finish notice does: it ends the scan, gives its batch back when asked to, and wakes the importer. */
  lemma NoticeEffect(s: State)
    requires ScanEnabled(s, Notice)
    ensures var (scan, t) := (s.scan.value, DoNotice(s));
            && Rearmed(s, t) && t == s.(core := t.core, fires := t.fires, scan := None, owed := t.owed, reports := t.reports)
            && t.core.holding == s.core.holding && t.core.finishes == s.core.finishes + 1
            && t.core.dirty == (if WatchScan(s) then s.core.dirty + GivenBack(s.core, scan.requeue) else s.core.dirty)
            && t.core.inflight == (if WatchScan(s) then None else s.core.inflight)
            && (s.core.enabled && !s.core.stopped && t.core.dirty != {} ==> Armed(t))
  {
    var scan := s.scan.value;
    var requeue := scan.Watching? && scan.requeue;
    FinishedTicks(s.core, scan.Watching?, requeue);
    PutRearms(s, ScanFinished(s.core, scan.Watching?, requeue));
    NoticeFrame(s);
  }

  lemma NoticeFrame(s: State)
    requires ScanEnabled(s, Notice)
    ensures var (scan, t) := (s.scan.value, DoNotice(s));
            var u := Put(s, ScanFinished(s.core, scan.Watching?, scan.Watching? && scan.requeue));
            t == u.(scan := None, owed := t.owed, reports := t.reports) && t.core == u.core && t.fires == u.fires
  {
  }

  lemma NoticeReports(s: State)
    requires ScanEnabled(s, Notice)
    ensures var t := DoNotice(s);
            && t.reports.Keys <= s.reports.Keys && (forall id | id in t.reports :: t.reports[id] == s.reports[id])
            && t.owed <= s.owed + LeftOver(s)
            && (FullPending(Ended(s)) && !ReadsAll(s.scan.value) ==> t.owed == s.owed + LeftOver(s))
  {
  }

  lemma NoticeActive(s: State)
    requires FiresOk(s) && ScanEnabled(s, Notice)
    ensures FiresOk(DoNotice(s)) && Active(DoNotice(s)) == Active(s)
  {
    NoticeEffect(s);
    RearmedFires(s, DoNotice(s));
  }

  /** With the scan and its batch gone, and nothing else but a new timer. */
  lemma ScanGone(s: State, t: State)
    requires FiresOk(s) && Batch(s) && Row(s) && s.scan.Some? && s.scan.value.closed && Rearmed(s, t)
    requires t.scan.None? && t.row == s.row && t.opener == s.opener && t.holders == s.holders
    requires t.core.inflight == if WatchScan(s) then None else s.core.inflight
    ensures FiresOk(t) && Batch(t) && Row(t)
  {
    RearmedFires(s, t);
  }

  lemma NoticeFires(s: State)
    requires Shape(s) && ScanEnabled(s, Notice)
    ensures FiresOk(DoNotice(s)) && Batch(DoNotice(s)) && Row(DoNotice(s))
  {
    NoticeEffect(s);
    ScanGone(s, DoNotice(s));
  }

  lemma NoticeGates(s: State)
    requires Shape(s) && ScanEnabled(s, Notice)
    ensures Holders(DoNotice(s)) && Off(DoNotice(s))
  {
    NoticeEffect(s);
    NoticeReports(s);
    EndedGates(s, DoNotice(s));
  }

  lemma EndedGates(s: State, t: State)
    requires Holders(s) && Off(s) && Rearmed(s, t) && t.core.holding == s.core.holding && t.scan.None?
    requires t.holders == s.holders && t.setMu == s.setMu && t.stopReturned == s.stopReturned && t.reports.Keys <= s.reports.Keys
    requires t.core.dirty == s.core.dirty || (s.core.enabled && WatchScan(s))
    requires t.core.inflight.Some? ==> s.core.inflight.Some?
    ensures Holders(t) && Off(t)
  {
  }

  lemma NoticeWakes(s: State)
    requires Shape(s) && ScanEnabled(s, Notice)
    ensures Wakes(DoNotice(s))
  {
    NoticeEffect(s);
    NoticeActive(s);
  }

  /** A holder that goes on waiting still blocks. */
  lemma BlocksOn(holders: map<nat, Holder>, h: nat, to: Holder)
    requires SomeBlocks(holders) && Blocks(to)
    ensures SomeBlocks(holders[h := to])
  {
    assert Blocks(holders[h := to][h]);
  }

  lemma HoldFires(s: State, h: nat, switch: bool)
    requires Shape(s) && h !in s.holders && (switch ==> s.setMu.None? && s.core.enabled)
    ensures FiresOk(DoHold(s, h, switch)) && Batch(DoHold(s, h, switch)) && Row(DoHold(s, h, switch))
  {
    if SomeBlocks(s.holders) {
      BlocksOn(s.holders, h, Quiescing(switch));
    }
  }

  lemma HoldGate(s: State, h: nat, switch: bool)
    requires Shape(s) && h !in s.holders && (switch ==> s.setMu.None? && s.core.enabled)
    ensures Gate(DoHold(s, h, switch).holders, DoHold(s, h, switch).core.holding, s.startMu, DoHold(s, h, switch).setMu)
  {
    if SomeBlocks(s.holders) {
      BlocksOn(s.holders, h, Quiescing(switch));
    }
  }

  lemma HoldSaved(s: State, h: nat, switch: bool)
    requires Shape(s) && h !in s.holders && (switch ==> s.setMu.None? && s.core.enabled)
    ensures Attached(s) && !s.core.stopped ==> Saved(DoHold(s, h, switch).holders, s.scan.value.batch, s.scan.value.held)
  {
    if SomeBlocks(s.holders) {
      BlocksOn(s.holders, h, Quiescing(switch));
    }
  }

  lemma HoldGates(s: State, h: nat, switch: bool)
    requires Shape(s) && h !in s.holders && (switch ==> s.setMu.None? && s.core.enabled)
    ensures Holders(DoHold(s, h, switch))
  {
    HoldGate(s, h, switch);
    HoldSaved(s, h, switch);
  }

  lemma HoldOff(s: State, h: nat, switch: bool)
    requires Shape(s) && h !in s.holders && (switch ==> s.setMu.None? && s.core.enabled)
    ensures Off(DoHold(s, h, switch)) && Wakes(DoHold(s, h, switch))
  {
    var t := DoHold(s, h, switch);
    if SomeHasBatch(s.holders) {
      var k :| k in s.holders && HasBatch(s.holders[k]);
      assert HasBatch(t.holders[k]);
    }
  }

  /** The steps of a holder up to where it asks for the scan to be superseded. */
  lemma WaitsFires(s: State, h: nat, to: Holder)
    requires Shape(s) && h in s.holders && Blocks(s.holders[h]) && Blocks(to)
    ensures var t := s.(holders := s.holders[h := to]); FiresOk(t) && Batch(t) && Row(t)
  {
    if SomeBlocks(s.holders) {
      BlocksOn(s.holders, h, to);
    }
  }

  lemma WaitsGates(s: State, h: nat, to: Holder)
    requires Shape(s) && h in s.holders && Blocks(s.holders[h]) && Blocks(to) && to.switch == s.holders[h].switch
    requires to.Past() ==> s.startMu.None?
    requires !s.core.stopped && Attached(s) && (to.Superseding? || to.Saves()) ==> to.batch == s.scan.value.batch
    requires s.holders[h].Saves() ==> to.Saves()
    ensures Holders(s.(holders := s.holders[h := to]))
  {
    GateUpdate(s.holders, s.core.holding, s.startMu, s.setMu, h, to);
    assert SomeBlocks(s.holders);
    BlocksOn(s.holders, h, to);
  }

  lemma WaitsOff(s: State, h: nat, to: Holder)
    requires Shape(s) && h in s.holders && Blocks(s.holders[h]) && !HasBatch(s.holders[h])
    requires !s.core.started && (to.Superseding? || to.Saves()) ==> to.batch == {}
    ensures var t := s.(holders := s.holders[h := to]); Off(t) && Wakes(t)
  {
    if SomeHasBatch(s.holders) {
      var k :| k in s.holders && HasBatch(s.holders[k]);
      assert HasBatch(s.holders[h := to][k]);
    }
  }

  lemma QuiesceShape(s: State, h: nat)
    requires Shape(s) && HoldEnabled(s, h, Quiesce)
    ensures Shape(DoQuiesce(s, h))
  {
    var to := Cloning(s.holders[h].switch);
    WaitsFires(s, h, to);
    WaitsGates(s, h, to);
    WaitsOff(s, h, to);
  }

  lemma CloneShape(s: State, h: nat)
    requires Shape(s) && HoldEnabled(s, h, Clone)
    ensures Shape(DoClone(s, h))
  {
    var to := DoClone(s, h).holders[h];
    WaitsFires(s, h, to);
    WaitsGates(s, h, to);
    WaitsOff(s, h, to);
  }

  lemma SupersedeForFires(s: State, h: nat)
    requires Shape(s) && HoldEnabled(s, h, SupersedeFor)
    ensures Row(DoSupersedeFor(s, h)) && FiresOk(DoSupersedeFor(s, h)) && Batch(DoSupersedeFor(s, h))
  {
    if WatchScan(s) {
      WaitsFires(s, h, DoSupersedeFor(s, h).holders[h]);
    }
  }

  lemma SupersedeForGates(s: State, h: nat)
    requires Shape(s) && HoldEnabled(s, h, SupersedeFor)
    ensures Holders(DoSupersedeFor(s, h))
  {
    var holder := s.holders[h];
    if WatchScan(s) {
      WaitsGates(s, h, Awaiting(holder.switch, holder.batch));
    } else {
      GateUpdate(s.holders, s.core.holding, s.startMu, s.setMu, h, Held(holder.switch, {}));
    }
  }

  lemma SupersedeForWakes(s: State, h: nat)
    requires Shape(s) && HoldEnabled(s, h, SupersedeFor)
    ensures Off(DoSupersedeFor(s, h)) && Wakes(DoSupersedeFor(s, h))
  {
    WaitsOff(s, h, DoSupersedeFor(s, h).holders[h]);
  }

  lemma StillBlocks(holders: map<nat, Holder>, h: nat, to: Holder)
    requires OtherBlocks(holders, h)
    ensures SomeBlocks(holders[h := to]) && SomeBlocks(holders - {h})
  {
    var k :| k in holders && k != h && Blocks(holders[k]);
    assert Blocks(holders[h := to][k]) && Blocks((holders - {h})[k]);
  }

  /** A holder that blocked may stop when another one still blocks, or no watch scan runs. */
  lemma WakeFires(s: State, h: nat)
    requires Shape(s) && h in s.holders && s.holders[h].Awaiting?
    requires s.core.stopped || !WatchScan(s) || OtherBlocks(s.holders, h)
    ensures FiresOk(DoWake(s, h)) && Batch(DoWake(s, h)) && Row(DoWake(s, h))
  {
    if OtherBlocks(s.holders, h) {
      StillBlocks(s.holders, h, DoWake(s, h).holders[h]);
    }
  }

  lemma WakeSaved(holders: map<nat, Holder>, batch: set<Dir>, held: Option<nat>, h: nat)
    requires Saved(holders, batch, held) && h in holders && holders[h].Awaiting? && OtherBlocks(holders, h)
    ensures Saved(holders[h := Held(holders[h].switch, holders[h].batch)], batch, held)
  {
    StillBlocks(holders, h, Held(holders[h].switch, holders[h].batch));
  }

  lemma WakeGates(s: State, h: nat)
    requires Holders(s) && h in s.holders && s.holders[h].Awaiting?
    requires s.core.stopped || !WatchScan(s) || OtherBlocks(s.holders, h)
    ensures Holders(DoWake(s, h))
  {
    GateUpdate(s.holders, s.core.holding, s.startMu, s.setMu, h, DoWake(s, h).holders[h]);
    if Attached(s) && !s.core.stopped {
      WakeSaved(s.holders, s.scan.value.batch, s.scan.value.held, h);
    }
  }

  lemma WakeOff(s: State, h: nat)
    requires Shape(s) && h in s.holders && s.holders[h].Awaiting?
    ensures Off(DoWake(s, h)) && Wakes(DoWake(s, h))
  {
    var t := DoWake(s, h);
    if SomeHasBatch(s.holders) {
      var k :| k in s.holders && HasBatch(s.holders[k]);
      assert HasBatch(t.holders[k]);
    }
  }

  lemma BatchStays(holders: map<nat, Holder>, h: nat, to: Holder)
    requires OtherHasBatch(holders, h)
    ensures SomeHasBatch(holders[h := to])
  {
    var k :| k in holders && k != h && HasBatch(holders[k]);
    assert HasBatch(holders[h := to][k]);
  }

  lemma RequeueFoldersFires(s: State, h: nat)
    requires Shape(s) && ReleaseEnabled(s, h, RequeueFolders)
    ensures FiresOk(DoRequeueFolders(s, h)) && Batch(DoRequeueFolders(s, h)) && Row(DoRequeueFolders(s, h))
  {
    KeepsBlocking(s.holders, h, Changing(false));
  }

  /** One that does not block makes room for nothing. */
  lemma KeepsBlocking(holders: map<nat, Holder>, h: nat, to: Holder)
    requires h in holders && !Blocks(holders[h])
    ensures SomeBlocks(holders) ==> SomeBlocks(holders[h := to]) && SomeBlocks(holders - {h})
  {
    if SomeBlocks(holders) {
      var k :| k in holders && Blocks(holders[k]);
      assert Blocks(holders[h := to][k]) && Blocks((holders - {h})[k]);
    }
  }

  lemma RequeueFoldersGates(s: State, h: nat)
    requires Shape(s) && ReleaseEnabled(s, h, RequeueFolders)
    ensures Holders(DoRequeueFolders(s, h))
  {
    GateUpdate(s.holders, s.core.holding, s.startMu, s.setMu, h, Changing(false));
  }

  lemma RequeueFoldersOff(s: State, h: nat)
    requires Shape(s) && ReleaseEnabled(s, h, RequeueFolders) && Safe(s, Releases(h, RequeueFolders))
    ensures Off(DoRequeueFolders(s, h)) && Wakes(DoRequeueFolders(s, h))
  {
    if OtherHasBatch(s.holders, h) {
      BatchStays(s.holders, h, Changing(false));
    }
    if SomeHasBatch(s.holders) && s.holders[h].batch == {} {
      var k :| k in s.holders && HasBatch(s.holders[k]);
      assert OtherHasBatch(s.holders, h);
      BatchStays(s.holders, h, Changing(false));
    }
  }

  /** What a holder leaves behind: nothing but a new timer, and the batch it had, dirty again. */
  ghost predicate Left(s: State, t: State, h: nat, batch: set<Dir>) {
    && Rearmed(s, t) && h in s.holders
    && t == s.(core := t.core, fires := t.fires, holders := s.holders - {h}, setMu := None)
    && t.core.holding == s.core.holding - 1 && t.core.finishes == s.core.finishes && t.core.dirty == s.core.dirty + batch
    && t.core.inflight == (if batch == {} then s.core.inflight else None)
    && (Listens(s.core) && t.core.dirty != {} ==> Armed(t))
  }

  lemma EndEffect(s: State, h: nat)
    requires h in s.holders && s.setMu.None?
    ensures Left(s, DoEndFolders(s, h), h, {})
  {
    FoldersTicks(s.core);
    PutRearms(s.(holders := s.holders - {h}), FoldersChanged(s.core));
  }

  lemma RestoreEffect(s: State, h: nat)
    requires h in s.holders && s.holders[h].Held?
    ensures Left(s, DoRestoreOn(s, h), h, s.holders[h].batch)
  {
    RestoreTicks(s.core, s.holders[h].batch);
    PutRearms(s.(holders := s.holders - {h}, setMu := None), SwitchRestore(s.core, s.holders[h].batch));
  }

  /** While the scan's batch is in flight, whoever may leave has saved it, and gives it back. */
  lemma LeftDetached(s: State, t: State, h: nat, batch: set<Dir>)
    requires Batch(s) && Holders(s) && Left(s, t, h, batch) && !Blocks(s.holders[h]) && !s.core.stopped && WatchScan(s)
    requires batch == if s.holders[h].Held? then s.holders[h].batch else {}
    ensures !Attached(t) && SomeBlocks(s.holders)
  {
    if Attached(s) {
      assert Saved(s.holders, s.scan.value.batch, s.scan.value.held);
    }
  }

  lemma LeftFires(s: State, t: State, h: nat, batch: set<Dir>)
    requires FiresOk(s) && Batch(s) && Row(s) && Holders(s) && Left(s, t, h, batch) && !Blocks(s.holders[h])
    requires batch == if s.holders[h].Held? then s.holders[h].batch else {}
    ensures FiresOk(t) && Batch(t) && Row(t)
  {
    KeepsBlocking(s.holders, h, s.holders[h]);
    RearmedFires(s, t);
    if WatchScan(s) && !s.core.stopped {
      LeftDetached(s, t, h, batch);
    }
  }

  lemma LeftGate(s: State, t: State, h: nat, batch: set<Dir>)
    requires Gate(s.holders, s.core.holding, s.startMu, s.setMu) && Left(s, t, h, batch) && (s.setMu.None? || s.setMu == Some(h))
    ensures Gate(t.holders, t.core.holding, t.startMu, t.setMu)
  {
  }

  lemma LeftOff(s: State, t: State, h: nat, batch: set<Dir>)
    requires Off(s) && Left(s, t, h, batch) && (s.setMu.Some? ==> s.core.enabled)
    requires if s.setMu == Some(h) then s.holders[h].Held? && batch == s.holders[h].batch else s.holders[h].Changing? && batch == {}
    ensures Off(t)
  {
    if !s.core.enabled && SomeHasBatch(s.holders) {
      var k :| k in s.holders && HasBatch(s.holders[k]);
      assert HasBatch(t.holders[k]);
    }
  }

  lemma LeftGates(s: State, t: State, h: nat, batch: set<Dir>)
    requires Batch(s) && Holders(s) && Off(s) && Left(s, t, h, batch) && (s.setMu.None? || s.setMu == Some(h))
    requires if s.setMu == Some(h) then s.holders[h].Held? && batch == s.holders[h].batch else s.holders[h].Changing? && batch == {}
    ensures Holders(t) && Off(t)
  {
    LeftGate(s, t, h, batch);
    LeftOff(s, t, h, batch);
    if WatchScan(s) && !s.core.stopped {
      LeftDetached(s, t, h, batch);
    }
  }

  lemma LeftWakes(s: State, t: State, h: nat, batch: set<Dir>)
    requires FiresOk(s) && Wakes(s) && Left(s, t, h, batch)
    ensures Wakes(t)
  {
    RearmedFires(s, t);
  }

  lemma EndFoldersFires(s: State, h: nat)
    requires Shape(s) && h in s.holders && s.holders[h].Changing? && s.setMu.None?
    ensures FiresOk(DoEndFolders(s, h)) && Batch(DoEndFolders(s, h)) && Row(DoEndFolders(s, h))
  {
    EndEffect(s, h);
    LeftFires(s, DoEndFolders(s, h), h, {});
  }

  lemma EndFoldersGates(s: State, h: nat)
    requires Shape(s) && h in s.holders && s.holders[h].Changing? && s.setMu.None?
    ensures Holders(DoEndFolders(s, h)) && Off(DoEndFolders(s, h)) && Wakes(DoEndFolders(s, h))
  {
    EndEffect(s, h);
    LeftGates(s, DoEndFolders(s, h), h, {});
    LeftWakes(s, DoEndFolders(s, h), h, {});
  }

  lemma CommitOffShape(s: State, h: nat)
    requires Shape(s) && h in s.holders && s.holders[h].Held? && s.holders[h].switch
    ensures Shape(DoCommitOff(s, h))
  {
    KeepsBlocking(s.holders, h, s.holders[h]);
  }

  lemma RestoreOnFires(s: State, h: nat)
    requires Shape(s) && h in s.holders && s.holders[h].Held? && s.holders[h].switch
    ensures FiresOk(DoRestoreOn(s, h)) && Batch(DoRestoreOn(s, h)) && Row(DoRestoreOn(s, h))
  {
    RestoreEffect(s, h);
    LeftFires(s, DoRestoreOn(s, h), h, s.holders[h].batch);
  }

  lemma RestoreOnGates(s: State, h: nat)
    requires Shape(s) && h in s.holders && s.holders[h].Held? && s.holders[h].switch
    ensures Holders(DoRestoreOn(s, h)) && Off(DoRestoreOn(s, h)) && Wakes(DoRestoreOn(s, h))
  {
    RestoreEffect(s, h);
    LeftGates(s, DoRestoreOn(s, h), h, s.holders[h].batch);
    LeftWakes(s, DoRestoreOn(s, h), h, s.holders[h].batch);
  }

  lemma SwitchesShape(s: State, on: bool)
    requires Shape(s) && s.setMu.None?
    ensures !s.core.enabled ==> Shape(s.(core := SwitchOn(s.core)))
    ensures !s.core.started ==> Shape(s.(core := StartUp(s.core, on)))
  {
  }

  lemma StopShape(s: State)
    requires Shape(s)
    ensures Shape(Put(s, Stopping(s.core)))
    ensures s.core.stopped && s.startMu.None? ==> Shape(s.(stopReturned := true))
  {
  }

  // ---------------------------------------------------------------- reports stay tracked

  /** Whatever held the reports in s holds at least as much in t. */
  ghost predicate Carries(s: State, t: State) {
    && s.core.dirty <= t.core.dirty
    && (Active(s).Holds() ==>
          Active(t).Holds() && Active(t).cut == Active(s).cut && Active(t).batch == Active(s).batch)
    && (Attached(s) ==>
          Attached(t) && t.scan.value.cut == s.scan.value.cut && t.scan.value.batch == s.scan.value.batch)
    && (forall h | h in s.holders :: s.holders[h].Saves() ==>
          h in t.holders && t.holders[h].Saves() && t.holders[h].batch == s.holders[h].batch)
    && s.owed <= t.owed && (FullPending(s) ==> FullPending(t))
  }

  lemma CarriedTracks(s: State, t: State, id: nat, dir: Dir)
    requires Carries(s, t) && Tracked(s, id, dir)
    ensures Tracked(t, id, dir)
  {
    if HolderTracks(s, dir) {
      var h :| h in s.holders && s.holders[h].Saves() && Covered(dir, s.holders[h].batch);
      assert t.holders[h].Saves();
    }
  }

  lemma CarriedReports(s: State, t: State)
    requires Reports(s) && (s.core.stopped || Carries(s, t)) && t.core.stopped == s.core.stopped
    requires t.reports == s.reports && t.nextReport == s.nextReport && t.owed <= s.owed
    requires Active(t).Holds() ==> Active(s).Holds() && Active(t).cut == Active(s).cut
    ensures Reports(t)
  {
    if !s.core.stopped {
      forall id | id in s.reports ensures Tracked(t, id, s.reports[id]) {
        CarriedTracks(s, t, id, s.reports[id]);
      }
    }
  }

  lemma NewReportTracks(s: State, dir: Dir)
    requires Reports(s) && dir in s.core.dirty
    ensures Reports(s.(reports := s.reports[s.nextReport := dir], nextReport := s.nextReport + 1))
  {
    var t := s.(reports := s.reports[s.nextReport := dir], nextReport := s.nextReport + 1);
    assert Covers(dir, dir);
    forall id | id in t.reports && !s.core.stopped ensures Tracked(t, id, t.reports[id]) {
      if id != s.nextReport {
        CarriedTracks(s, t, id, s.reports[id]);
      }
    }
  }

  lemma ReportTracks(s: State, dir: Option<Dir>)
    requires FiresOk(s) && Batch(s) && Reports(s)
    ensures Reports(DoReport(s, dir))
  {
    if Listens(s.core) {
      var t := Put(s, Changed(s.core, dir));
      ArmedCarries(s, t.core);
      CarriedReports(s, t);
      if dir.Some? {
        NewReportTracks(t, dir.value);
      }
    }
  }

  lemma ArmedCarries(s: State, c: Core)
    requires FiresOk(s) && Batch(s)
    requires c == s.core.(dirty := c.dirty, timer := true, timerSeq := s.core.timerSeq + 1) && s.core.dirty <= c.dirty
    ensures Carries(s, Put(s, c))
  {
    ArmFires(s, c);
  }

  lemma TakenTracks(s: State, t: State, batch: set<Dir>, id: nat, dir: Dir)
    requires Tracked(s, id, dir) && id < s.nextReport && !Active(s).Holds() && NormalForm(batch, s.core.dirty)
    requires t.holders == s.holders && t.scan == s.scan && t.owed == s.owed && t.starters == s.starters && t.opener == s.opener
    requires t.startMu == s.startMu && t.core.inflight == s.core.inflight
    requires Active(t).Probing? && Active(t).cut == s.nextReport && Active(t).batch == batch
    ensures Tracked(t, id, dir)
  {
    NormalFormCovers(batch, s.core.dirty, dir);
    assert HolderTracks(s, dir) ==> HolderTracks(t, dir);
  }

  lemma TakenFrame(s: State, i: nat, batch: set<Dir>)
    requires FiresOk(s) && FireEnabled(s, TimerFires(i, batch)) && Takes(s.core, i)
    ensures var t := DoTimerFires(s, i, batch);
            && !Active(s).Holds() && Active(t) == Probing(batch, s.core.finishes, s.nextReport)
            && t == s.(core := t.core, fires := t.fires, decider := t.decider)
            && t.core.inflight == s.core.inflight && t.core.stopped == s.core.stopped
  {
  }

  lemma TimerFiresTracks(s: State, i: nat, batch: set<Dir>)
    requires Inv(s) && FireEnabled(s, TimerFires(i, batch))
    ensures Reports(DoTimerFires(s, i, batch))
  {
    var t := DoTimerFires(s, i, batch);
    if Takes(s.core, i) {
      TakenFrame(s, i, batch);
      forall id | id in s.reports && !s.core.stopped ensures Tracked(t, id, s.reports[id]) {
        TakenTracks(s, t, batch, id, s.reports[id]);
      }
    } else {
      PassedFires(s, i, batch);
      PassedCarries(s, i, batch);
      CarriedReports(s, t);
    }
  }

  lemma PassedCarries(s: State, i: nat, batch: set<Dir>)
    requires FireEnabled(s, TimerFires(i, batch)) && !Takes(s.core, i)
    ensures Carries(s, DoTimerFires(s, i, batch))
  {
  }

  /** Everything but the dirty directories and the deciding fire stays where it is. */
  ghost predicate SameHolders(s: State, t: State) {
    && t.holders == s.holders && t.owed == s.owed && (FullPending(s) ==> FullPending(t)) && s.core.dirty <= t.core.dirty
  }

  lemma FireStepTracks(s: State, t: State, id: nat, dir: Dir)
    requires SameHolders(s, t) && Tracked(s, id, dir)
    requires FireTracks(s, id, dir) ==> FireTracks(t, id, dir) || Covered(dir, t.core.dirty) || ScanTracks(t, id, dir)
    requires Attached(s) ==> Attached(t) && t.scan == s.scan
    ensures Tracked(t, id, dir)
  {
    assert HolderTracks(s, dir) ==> HolderTracks(t, dir);
  }

  lemma SplitTracks(s: State, i: nat, settled: set<Dir>)
    requires Inv(s) && i in s.fires && s.fires[i].Probing? && settled <= s.fires[i].batch
    ensures Reports(DoSplit(s, i, settled))
  {
    var t := DoSplit(s, i, settled);
    var batch := s.fires[i].batch;
    SplitFires(s, i, settled);
    if !s.core.stopped && s.core.enabled {
      forall id | id in s.reports ensures Tracked(t, id, s.reports[id]) {
        var dir := s.reports[id];
        if FireTracks(s, id, dir) {
          assert Covered(dir, settled) || Covered(dir, batch - settled);
        }
        FireStepTracks(s, t, id, dir);
      }
    }
  }

  lemma CheckTracks(s: State, i: nat)
    requires Inv(s) && i in s.fires && s.fires[i].Deciding? && s.startMu.None?
    ensures Reports(DoCheck(s, i))
  {
    var t := DoCheck(s, i);
    if !s.core.stopped && s.core.enabled {
      forall id | id in s.reports ensures Tracked(t, id, s.reports[id]) {
        FireStepTracks(s, t, id, s.reports[id]);
      }
    }
  }

  /** The batch goes from the fire to the scan. */
  lemma LaunchMoves(s: State, i: nat, listed: bool)
    requires FiresOk(s) && Batch(s) && FireEnabled(s, Launch(i, listed)) && !s.core.stopped && s.scan.None?
    ensures var t := DoLaunch(s, i, listed);
            && SameHolders(s, t) && t.reports == s.reports && t.nextReport == s.nextReport && t.owed == s.owed && t.core == s.core
            && Active(s) == s.fires[i]
            && (if listed
                then Active(t).Closing? && Attached(t) && t.scan.value.cut == Active(s).cut && t.scan.value.batch == Active(s).batch
                else Active(t).Rejected? && Active(t).cut == Active(s).cut && Active(t).batch == Active(s).batch)
  {
  }

  lemma LaunchTracks(s: State, i: nat, listed: bool)
    requires Inv(s) && FireEnabled(s, Launch(i, listed)) && Safe(s, Step.Fires(Launch(i, listed)))
    ensures Reports(DoLaunch(s, i, listed))
  {
    var t := DoLaunch(s, i, listed);
    if !s.core.stopped {
      LaunchMoves(s, i, listed);
      forall id | id in s.reports ensures Tracked(t, id, s.reports[id]) {
        FireStepTracks(s, t, id, s.reports[id]);
      }
    } else {
      LaunchOwners(s, i, listed);
      LaunchOwes(s, i, listed);
    }
  }

  lemma LaunchOwes(s: State, i: nat, listed: bool)
    requires FiresOk(s) && FireEnabled(s, Launch(i, listed))
    ensures var t := DoLaunch(s, i, listed);
            && t.reports == s.reports && t.nextReport == s.nextReport && t.owed == s.owed && t.core == s.core
            && (Active(t).Holds() ==> Active(s).Holds() && Active(t).cut == Active(s).cut)
  {
  }

  lemma RejectTracks(s: State, i: nat)
    requires Inv(s) && i in s.fires && s.fires[i].Rejected?
    ensures Reports(DoReject(s, i))
  {
    var t := DoReject(s, i);
    if !s.core.stopped && s.core.enabled {
      forall id | id in s.reports ensures Tracked(t, id, s.reports[id]) {
        FireStepTracks(s, t, id, s.reports[id]);
      }
    }
  }

  lemma FinishTracks(s: State, i: nat)
    requires Inv(s) && i in s.fires && s.fires[i].Closing?
    ensures Reports(DoFinish(s, i))
  {
    var t := DoFinish(s, i);
    FinishedFires(s, i);
    FinishEffect(s, i);
    RearmedFires(Finished(s, i), t);
    CarriedReports(s, t);
  }

  /** What only the scan had is discharged, or dirty again, or saved by a holder, or left to a full scan. */
  lemma NoticeTracks(s: State)
    requires Inv(s) && ScanEnabled(s, Notice) && Safe(s, Scans(Notice))
    ensures Reports(DoNotice(s))
  {
    var t := DoNotice(s);
    NoticeEffect(s);
    NoticeReports(s);
    NoticeActive(s);
    NoticeOwed(s);
    if !s.core.stopped {
      forall id | id in t.reports ensures Tracked(t, id, t.reports[id]) {
        NoticeHolds(s, id);
      }
    }
  }

  lemma NoticeOwed(s: State)
    requires Inv(s) && ScanEnabled(s, Notice)
    ensures Active(s).Holds() ==> LeftOver(s) == {}
  {
  }

  lemma HeldHolds(s: State, id: nat, dir: Dir)
    requires Holders(s) && !s.core.stopped && ScanTracks(s, id, dir) && s.scan.value.held.Some?
    ensures HeldElsewhere(Ended(s), id, dir)
  {
    var e := Ended(s);
    assert e.holders[s.scan.value.held.value].Saves();
    assert HolderTracks(e, dir);
  }

  /** What only the scan had, and the notice leaves outstanding, is dirty again or left to a full scan. */
  lemma ScannedHolds(s: State, id: nat)
    requires Inv(s) && ScanEnabled(s, Notice) && !s.core.stopped && id in s.reports && id in DoNotice(s).reports
    requires ScanTracks(s, id, s.reports[id]) && s.scan.value.held.None? && (s.scan.value.requeue || FullPending(Ended(s)))
    ensures Tracked(DoNotice(s), id, s.reports[id])
  {
    NoticeEffect(s);
    NoticeReports(s);
    if s.scan.value.requeue {
      NoticeGivesBack(s);
    } else {
      assert id in LeftOver(s);
    }
  }

  /** A report that the notice leaves outstanding is held by somebody. */
  lemma NoticeHolds(s: State, id: nat)
    requires Inv(s) && ScanEnabled(s, Notice) && !s.core.stopped && id in s.reports && id in DoNotice(s).reports
    requires Accounted(s.scan.value) || FullPending(Ended(s)) || HeldElsewhere(Ended(s), id, s.reports[id])
    ensures Tracked(DoNotice(s), id, s.reports[id])
  {
    var t, dir := DoNotice(s), s.reports[id];
    if ScanTracks(s, id, dir) && s.scan.value.held.Some? {
      HeldHolds(s, id, dir);
    }
    if HeldElsewhere(Ended(s), id, dir) {
      NoticeEffect(s);
      NoticeReports(s);
      NoticeActive(s);
      NoticeSparesHeld(s, t, id, dir);
    } else if ScanTracks(s, id, dir) {
      ScannedHolds(s, id);
    } else {
      OwedHolds(s, id, dir);
      NoticeReads(s, id);
    }
  }

  /** What neither the scan nor anybody else has, is left to this full scan. */
  lemma OwedHolds(s: State, id: nat, dir: Dir)
    requires Tracked(s, id, dir) && !HeldElsewhere(Ended(s), id, dir) && !ScanTracks(s, id, dir)
    ensures id in s.owed && FullScan(s) && !FullPending(Ended(s))
  {
    assert HolderTracks(s, dir) ==> HolderTracks(Ended(s), dir);
  }

  lemma NoticeReads(s: State, id: nat)
    requires ScanEnabled(s, Notice) && FullScan(s) && id in s.owed && s.scan.value.read
    ensures id !in DoNotice(s).reports
  {
  }

  lemma NoticeSparesHeld(s: State, t: State, id: nat, dir: Dir)
    requires s.scan.Some? && HeldElsewhere(Ended(s), id, dir)
    requires s.core.dirty <= t.core.dirty && t.holders == s.holders && Active(t) == Active(s)
    requires FullPending(Ended(s)) && id in s.owed ==> id in t.owed && FullPending(t)
    ensures HeldElsewhere(t, id, dir)
  {
    assert HolderTracks(Ended(s), dir) ==> HolderTracks(t, dir);
  }

  /** A notice that asks for it gives the batch of its scan back. */
  lemma NoticeGivesBack(s: State)
    requires ScanEnabled(s, Notice) && s.core.enabled && !s.core.stopped && Attached(s) && s.scan.value.requeue
    ensures s.scan.value.batch <= DoNotice(s).core.dirty
  {
    NoticeEffect(s);
  }

  lemma ManualLaunchTracks(s: State)
    requires Reports(s) && s.opener.Some? && (s.core.stopped || s.scan.None?)
    ensures Reports(DoManualLaunch(s))
  {
    var t := DoManualLaunch(s);
    if !s.core.stopped {
      forall id | id in t.reports ensures Tracked(t, id, t.reports[id]) {
        LaunchedTracks(s, t, id, s.reports[id]);
      }
    }
  }

  lemma LaunchedTracks(s: State, t: State, id: nat, dir: Dir)
    requires Tracked(s, id, dir) && !Attached(s) && t.holders == s.holders && t.core == s.core && Active(t) == Active(s)
    requires id in s.owed && FullPending(s) ==> id in t.owed && FullPending(t)
    ensures Tracked(t, id, dir)
  {
    assert HolderTracks(s, dir) ==> HolderTracks(t, dir);
  }

  /** What nobody left to a full scan does not depend on one. */
  lemma UnowedTracks(s: State, t: State, id: nat, dir: Dir)
    requires Tracked(s, id, dir) && id !in s.owed && t == s.(starters := t.starters, owed := t.owed)
    ensures Tracked(t, id, dir)
  {
    assert HolderTracks(s, dir) ==> HolderTracks(t, dir);
  }

  lemma StarterFailsTracks(s: State, m: nat)
    requires Inv(s) && m in s.starters && Safe(s, Scans(StarterFails(m)))
    ensures Reports(DoStarterFails(s, m))
  {
    var t := DoStarterFails(s, m);
    var left := s.(starters := s.starters - {m});
    if FullPending(left) {
      CarriedReports(s, t);
    } else {
      forall id | id in s.reports && !s.core.stopped ensures Tracked(t, id, s.reports[id]) {
        if id in s.owed {
          assert Tracked(s.(owed := {}), id, s.reports[id]);
          UnowedTracks(s.(owed := {}), t, id, s.reports[id]);
        } else {
          UnowedTracks(s, t, id, s.reports[id]);
        }
      }
    }
  }

  lemma HoldTracks(s: State, h: nat, step: HoldStep)
    requires Inv(s) && HoldEnabled(s, h, step)
    ensures Reports(HoldNext(s, h, step))
  {
    HoldCarries(s, h, step);
    CarriedReports(s, HoldNext(s, h, step));
  }

  lemma HoldCarries(s: State, h: nat, step: HoldStep)
    requires HoldEnabled(s, h, step)
    ensures Carries(s, HoldNext(s, h, step))
  {
    if step.SupersedeFor? {
      SupersedeForCarries(s, h);
    }
  }

  lemma SupersedeForCarries(s: State, h: nat)
    requires HoldEnabled(s, h, SupersedeFor)
    ensures Carries(s, DoSupersedeFor(s, h))
  {
  }

  /** A holder that hands its batch back to the dirty directories may leave, and the scan's batch with it. */
  lemma HolderLeaves(s: State, t: State, h: nat, id: nat, dir: Dir)
    requires Tracked(s, id, dir) && h in s.holders
    requires s.core.dirty <= t.core.dirty && (s.holders[h].Saves() ==> s.holders[h].batch <= t.core.dirty)
    requires Active(t) == Active(s) && t.owed == s.owed && (FullPending(s) ==> FullPending(t))
    requires Attached(s) ==> (Attached(t) && t.scan == s.scan) || (s.scan.value.batch <= t.core.dirty)
    requires forall k | k in s.holders && k != h :: k in t.holders && t.holders[k] == s.holders[k]
    ensures Tracked(t, id, dir)
  {
    if HolderTracks(s, dir) {
      var k :| k in s.holders && s.holders[k].Saves() && Covered(dir, s.holders[k].batch);
      assert k == h || t.holders[k].Saves();
    }
  }

  lemma RequeueFoldersTracks(s: State, h: nat)
    requires Inv(s) && ReleaseEnabled(s, h, RequeueFolders)
    ensures Reports(DoRequeueFolders(s, h))
  {
    var t := DoRequeueFolders(s, h);
    forall id | id in t.reports && !s.core.stopped ensures Tracked(t, id, t.reports[id]) {
      HolderLeaves(s, t, h, id, s.reports[id]);
    }
  }

  lemma LeftTracks(s: State, t: State, h: nat, batch: set<Dir>)
    requires Inv(s) && Left(s, t, h, batch) && !Blocks(s.holders[h])
    requires batch == if s.holders[h].Held? then s.holders[h].batch else {}
    ensures Reports(t)
  {
    RearmedFires(s, t);
    if Attached(s) && !s.core.stopped {
      assert Saved(s.holders, s.scan.value.batch, s.scan.value.held);
    }
    forall id | id in t.reports && !s.core.stopped ensures Tracked(t, id, t.reports[id]) {
      HolderLeaves(s, t, h, id, s.reports[id]);
    }
  }

  lemma EndFoldersTracks(s: State, h: nat)
    requires Inv(s) && h in s.holders && s.holders[h].Changing? && s.setMu.None?
    ensures Reports(DoEndFolders(s, h))
  {
    EndEffect(s, h);
    LeftTracks(s, DoEndFolders(s, h), h, {});
  }

  lemma RestoreOnTracks(s: State, h: nat)
    requires Inv(s) && h in s.holders && s.holders[h].Held? && s.holders[h].switch
    ensures Reports(DoRestoreOn(s, h))
  {
    RestoreEffect(s, h);
    LeftTracks(s, DoRestoreOn(s, h), h, s.holders[h].batch);
  }

}
