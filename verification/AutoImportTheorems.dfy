/** What holds of every run of the auto-import protocol, and the runs that show each side condition is needed. */
module AutoImportTheorems {
  import opened Options
  import opened DirtyDirectories
  import opened AutoImportState
  import opened AutoImportProtocol
  import opened AutoImportInvariant

  // ---------------------------------------------------------------- every step keeps the invariant

  lemma FireShape(s: State, step: FireStep)
    requires Shape(s) && FireEnabled(s, step) && Safe(s, Step.Fires(step))
    ensures Shape(FireNext(s, step))
  {
    match step
    case Report(dir) => ReportFires(s, dir); ReportGates(s, dir); ReportWakes(s, dir);
    case TimerFires(i, batch) => TimerFiresFires(s, i, batch); TimerFiresGates(s, i, batch); TimerFiresWakes(s, i, batch);
    case Split(i, settled) => SplitFires(s, i, settled); SplitGates(s, i, settled);
    case Check(i) => CheckFires(s, i); CheckGates(s, i); CheckWakes(s, i);
    case OpenRow(i) => OpenRowShape(s, i);
    case OpenFails(i) => OpenFailsShape(s, i);
    case Launch(i, listed) => LaunchShape(s, i, listed);
    case Reject(i) => RejectFires(s, i); RejectGates(s, i);
    case Finish(i) => FinishFires(s, i); FinishGates(s, i); FinishWakes(s, i);
  }

  lemma StartReports(s: State, step: FireStep)
    requires Inv(s) && FireEnabled(s, step) && Safe(s, Step.Fires(step))
    requires step.OpenRow? || step.OpenFails? || step.Launch? || step.Reject?
    ensures Reports(FireNext(s, step))
  {
    match step
    case OpenRow(i) => CarriedReports(s, DoOpenRow(s, i));
    case OpenFails(i) => CarriedReports(s, DoOpenFails(s, i));
    case Launch(i, listed) => LaunchTracks(s, i, listed);
    case Reject(i) => RejectTracks(s, i);
  }

  lemma FireReports(s: State, step: FireStep)
    requires Inv(s) && FireEnabled(s, step) && Safe(s, Step.Fires(step))
    ensures Reports(FireNext(s, step))
  {
    match step
    case Report(dir) => ReportTracks(s, dir);
    case TimerFires(i, batch) => TimerFiresTracks(s, i, batch);
    case Split(i, settled) => SplitTracks(s, i, settled);
    case Check(i) => CheckTracks(s, i);
    case Finish(i) => FinishTracks(s, i);
    case _ => StartReports(s, step);
  }

  /** No scan step but a manual start that launches nothing is a danger to anything but reports. */
  lemma ScanShape(s: State, step: ScanStep)
    requires Shape(s) && ScanEnabled(s, step) && (step.ManualLaunch? ==> s.core.stopped || s.scan.None?)
    ensures Shape(ScanNext(s, step))
  {
    match step
    case ManualOpen(full) => ManualOpenShape(s, full);
    case ManualLaunch => ManualLaunchShape(s);
    case Supersede => SupersedeShape(s);
    case SupersedeFull(m) => StartersShape(s, s.starters + {m}, s.owed);
    case StarterOpens(m) => StarterOpensShape(s, m);
    case StarterFails(m) => StartersShape(s, s.starters - {m}, DoStarterFails(s, m).owed);
    case CloseRow(read) => CloseRowShape(s, read);
    case Notice => NoticeFires(s); NoticeGates(s); NoticeWakes(s);
  }

  lemma StarterReports(s: State, step: ScanStep)
    requires Inv(s) && ScanEnabled(s, step) && Safe(s, Step.Scans(step))
    requires step.SupersedeFull? || step.StarterOpens? || step.StarterFails?
    ensures Reports(ScanNext(s, step))
  {
    match step
    case SupersedeFull(m) => CarriedReports(s, s.(starters := s.starters + {m}));
    case StarterOpens(m) => CarriedReports(s, DoStarterOpens(s, m));
    case StarterFails(m) => StarterFailsTracks(s, m);
  }

  lemma ScanReports(s: State, step: ScanStep)
    requires Inv(s) && ScanEnabled(s, step) && Safe(s, Step.Scans(step))
    ensures Reports(ScanNext(s, step))
  {
    match step
    case ManualOpen(full) => CarriedReports(s, DoManualOpen(s, full));
    case ManualLaunch => ManualLaunchTracks(s);
    case Supersede => CarriedReports(s, DoSupersede(s));
    case CloseRow(read) => CarriedReports(s, DoCloseRow(s, read));
    case Notice => NoticeTracks(s);
    case _ => StarterReports(s, step);
  }

  lemma HoldShape(s: State, h: nat, step: HoldStep)
    requires Shape(s) && HoldEnabled(s, h, step) && Safe(s, Holds(h, step))
    ensures Shape(HoldNext(s, h, step))
  {
    match step
    case HoldFolders => HoldFires(s, h, false); HoldGates(s, h, false); HoldOff(s, h, false);
    case HoldSwitch => HoldFires(s, h, true); HoldGates(s, h, true); HoldOff(s, h, true);
    case Quiesce => QuiesceShape(s, h);
    case Clone => CloneShape(s, h);
    case SupersedeFor => SupersedeForFires(s, h); SupersedeForGates(s, h); SupersedeForWakes(s, h);
    case Wake => WakeFires(s, h); WakeGates(s, h); WakeOff(s, h);
    case GiveUp => WakeFires(s, h); WakeGates(s, h); WakeOff(s, h);
  }

  lemma ReleaseShape(s: State, h: nat, step: ReleaseStep)
    requires Shape(s) && ReleaseEnabled(s, h, step) && Safe(s, Releases(h, step))
    ensures Shape(ReleaseNext(s, h, step))
  {
    match step
    case RequeueFolders => RequeueFoldersFires(s, h); RequeueFoldersGates(s, h); RequeueFoldersOff(s, h);
    case EndFolders => EndFoldersFires(s, h); EndFoldersGates(s, h);
    case CommitOff => CommitOffShape(s, h);
    case RestoreOn => RestoreOnFires(s, h); RestoreOnGates(s, h);
  }

  lemma ReleaseReports(s: State, h: nat, step: ReleaseStep)
    requires Inv(s) && ReleaseEnabled(s, h, step) && Safe(s, Releases(h, step))
    ensures Reports(ReleaseNext(s, h, step))
  {
    match step
    case RequeueFolders => RequeueFoldersTracks(s, h);
    case EndFolders => EndFoldersTracks(s, h);
    case CommitOff =>
    case RestoreOn => RestoreOnTracks(s, h);
  }

  lemma LifeShape(s: State, step: LifeStep)
    requires Shape(s) && LifeEnabled(s, step)
    ensures Shape(LifeNext(s, step))
  {
    match step
    case TurnOn => SwitchesShape(s, true);
    case Start(on) => SwitchesShape(s, on);
    case MarkStopped => StopShape(s);
    case StopReturns => StopShape(s);
  }

  lemma LifeReports(s: State, step: LifeStep)
    requires Inv(s) && LifeEnabled(s, step)
    ensures Reports(LifeNext(s, step))
  {
    match step
    case TurnOn => CarriedReports(s, s.(core := SwitchOn(s.core)));
    case Start(on) => CarriedReports(s, s.(core := StartUp(s.core, on)));
    case MarkStopped => StopShape(s);
    case StopReturns => CarriedReports(s, s.(stopReturned := true));
  }

  /** Every step but one that drops a report keeps the shape; a finish notice always does. */
  lemma StepShape(s: State, step: Step)
    requires Shape(s) && Enabled(s, step) && (Safe(s, step) || step == Scans(Notice))
    ensures Shape(Next(s, step))
  {
    match step
    case Fires(f) => FireShape(s, f);
    case Scans(c) => ScanShape(s, c);
    case Holds(h, x) => HoldShape(s, h, x);
    case Releases(h, x) => ReleaseShape(s, h, x);
    case Lives(l) => LifeShape(s, l);
  }

  lemma StepReports(s: State, step: Step)
    requires Inv(s) && Enabled(s, step) && Safe(s, step)
    ensures Reports(Next(s, step))
  {
    match step
    case Fires(f) => FireReports(s, f);
    case Scans(c) => ScanReports(s, c);
    case Holds(h, x) => HoldTracks(s, h, x);
    case Releases(h, x) => ReleaseReports(s, h, x);
    case Lives(l) => LifeReports(s, l);
  }

  lemma StepKeeps(s: State, step: Step)
    requires Inv(s) && Enabled(s, step) && Safe(s, step)
    ensures Inv(Next(s, step))
  {
    StepShape(s, step);
    StepReports(s, step);
  }

  // ---------------------------------------------------------------- over all runs

  lemma {:induction false} RunKeeps(states: seq<State>, steps: seq<Step>, k: nat)
    requires SafeRun(states, steps) && k < |states|
    ensures Inv(states[k])
  {
    if k == 0 {
      InitInv();
    } else {
      RunKeeps(states, steps, k - 1);
      StepKeeps(states[k - 1], steps[k - 1]);
    }
  }

  /** No lost wake-up, in every state of every safe run. */
  lemma NoLostWakeUp(states: seq<State>, steps: seq<Step>, k: nat)
    requires SafeRun(states, steps) && k < |states|
    ensures WakeUp(states[k])
  {
    RunKeeps(states, steps, k);
  }

  /** No lost directory: while the importer is on, every report not yet discharged is still held somewhere. */
  lemma NoLostDirectory(states: seq<State>, steps: seq<Step>, k: nat, id: nat)
    requires SafeRun(states, steps) && k < |states| && !states[k].core.stopped && id in states[k].reports
    ensures Tracked(states[k], id, states[k].reports[id])
  {
    RunKeeps(states, steps, k);
  }

  lemma ScansKeepReports(s: State, step: ScanStep)
    requires ScanEnabled(s, step) && !step.Notice?
    ensures ScanNext(s, step).reports == s.reports
  {
  }

  lemma HoldsKeepReports(s: State, h: nat, step: HoldStep)
    requires HoldEnabled(s, h, step)
    ensures HoldNext(s, h, step).reports == s.reports
  {
  }

  lemma ReleasesKeepReports(s: State, h: nat, step: ReleaseStep)
    requires ReleaseEnabled(s, h, step) && !step.CommitOff?
    ensures ReleaseNext(s, h, step).reports == s.reports
  {
  }

  /**
   A report ends only when the notice of a watch scan that took and read it comes, or of a full scan that read
   everything and to which a watch scan had left it, or when the importer is switched off.
   */
  lemma ReportsEndOnlyThen(s: State, step: Step, id: nat)
    requires Enabled(s, step) && id in s.reports && id < s.nextReport
    ensures id in Next(s, step).reports
         || (step == Scans(Notice) && Discharges(s, id, s.reports[id]))
         || (step.Releases? && step.release.CommitOff?)
  {
    match step
    case Fires(f) => FiresKeepReports(s, f, id);
    case Scans(c) => if !c.Notice? { ScansKeepReports(s, c); }
    case Holds(h, x) => HoldsKeepReports(s, h, x);
    case Releases(h, x) => if !x.CommitOff? { ReleasesKeepReports(s, h, x); }
    case Lives(l) => assert LifeNext(s, l).reports == s.reports;
  }

  lemma FiresKeepReports(s: State, step: FireStep, id: nat)
    requires FireEnabled(s, step) && id in s.reports && id < s.nextReport
    ensures id in FireNext(s, step).reports
  {
  }

  /** An armed timer takes every dirty directory, unless another party has to act first. */
  lemma TimerTakes(s: State, batch: set<Dir>)
    requires Shape(s) && Listens(s.core) && s.core.dirty != {} && NormalForm(batch, s.core.dirty)
    requires Armed(s) && !s.core.batching && s.core.holding == 0 && s.core.inflight.None?
    ensures Enabled(s, Step.Fires(TimerFires(s.core.timerSeq, batch)))
    ensures var t := DoTimerFires(s, s.core.timerSeq, batch);
            t.core.dirty == {} && Active(t).Probing? && forall d | d in s.core.dirty :: Covered(d, Active(t).batch)
  {
  }

  /** From the return of holdStarts to its release, and once Stop returned, no watch scan is started. */
  lemma StartGate(states: seq<State>, steps: seq<Step>, k: nat, i: nat, listed: bool)
    requires SafeRun(states, steps) && k < |states|
    requires states[k].stopReturned || exists h | h in states[k].holders :: states[k].holders[h].Past()
    ensures !FireEnabled(states[k], OpenRow(i)) && !FireEnabled(states[k], Launch(i, listed))
  {
    RunKeeps(states, steps, k);
  }

  /** After Stop returned the gate stays shut for the rest of the run. */
  lemma {:induction false} StoppedForever(states: seq<State>, steps: seq<Step>, j: nat, k: nat)
    requires SafeRun(states, steps) && j <= k < |steps| && states[j].stopReturned
    ensures states[k].stopReturned
    ensures steps[k].Fires? ==> !steps[k].fire.OpenRow? && !steps[k].fire.Launch?
    decreases k - j
  {
    if j < k {
      StoppedForever(states, steps, j, k - 1);
      assert states[k].stopReturned by {
        StopStays(states[k - 1], steps[k - 1]);
      }
    }
    match steps[k]
    case Fires(OpenRow(i)) => StartGate(states, steps, k, i, true);
    case Fires(Launch(i, listed)) => StartGate(states, steps, k, i, listed);
    case _ =>
  }

  lemma StopStays(s: State, step: Step)
    requires Enabled(s, step) && s.stopReturned
    ensures Next(s, step).stopReturned
  {
    match step
    case Fires(f) => assert FireNext(s, f).stopReturned;
    case Scans(c) => assert ScanNext(s, c).stopReturned;
    case Holds(h, x) => assert HoldNext(s, h, x).stopReturned;
    case Releases(h, x) => assert ReleaseNext(s, h, x).stopReturned;
    case Lives(l) => assert LifeNext(s, l).stopReturned;
  }

  /** start never overwrites a batch that is in flight. */
  lemma BatchIsNotOverwritten(states: seq<State>, steps: seq<Step>, k: nat)
    requires SafeRun(states, steps) && k < |steps| && steps[k].Fires? && steps[k].fire.Check?
    ensures states[k].core.inflight.None?
  {
    RunKeeps(states, steps, k);
  }
}
