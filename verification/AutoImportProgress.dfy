/**
 Nothing dirty waits for ever: from every reachable state the parties that are under way can finish by steps of their
 own, and then a timer is set that takes everything.  Those steps lose nothing unless the scan is stranded.
 */
module AutoImportProgress {
  import opened Options
  import opened DirtyDirectories
  import opened AutoImportState
  import opened AutoImportProtocol
  import opened AutoImportInvariant
  import opened AutoImportTheorems
  import opened AutoImportPaths
  import opened AutoImportLosses

  /** Every party that was under way has finished. */
  ghost predicate Finished(s: State) {
    Calm(s) && s.holders == map[]
  }

  /**
   The notice to come drops a report, and nobody is left who could save it: a full scan failed, or a watch scan did and
   no holder is about to supersede it.
   */
  ghost predicate Stranded(s: State) {
    s.scan.Some? && s.scan.value.closed && !NoticeSpares(s) && (WatchScan(s) ==> s.holders == map[])
  }

  // ---------------------------------------------------------------- fires end

  /** No manual start is under way, and a fire that runs may open its row and launch its scan. */
  ghost predicate Going(s: State) {
    && Base(s) && s.core.enabled && s.opener.None? && (s.row <==> Unclosed(s) || Active(s).Opened?)
    && (s.scan.Some? ==> Unclosed(s) && (s.decider.None? || Active(s).Closing?))
  }

  ghost predicate Gone(s: State, t: State) {
    Going(t) && Frame(s, t) && FireRank(Active(t)) < FireRank(Active(s))
  }

  lemma OpenGoes(s: State)
    requires Going(s) && s.decider.Some? && Active(s).Calling?
    ensures Gone(s, DoOpenRow(s, s.decider.value))
  {
  }

  lemma LaunchGoes(s: State)
    requires Going(s) && s.decider.Some? && Active(s).Opened?
    ensures Gone(s, DoLaunch(s, s.decider.value, true))
  {
  }

  lemma CheckGoes(s: State)
    requires Going(s) && s.decider.Some? && Active(s).Deciding?
    ensures s.startMu.None? && Gone(s, DoCheck(s, s.decider.value))
  {
    CheckMoves(s);
  }

  lemma MovedGoes(s: State, t: State)
    requires Going(s) && Base(t) && FireMoved(s, t) && !Active(s).Opened? && !Active(t).Opened?
    requires s.scan.Some? ==> Unclosed(s) && (t.decider.None? || Active(t).Closing?)
    ensures Gone(s, t)
  {
  }

  lemma ProbingGoes(s: State)
    requires Going(s) && s.decider.Some? && Active(s).Probing?
    ensures Gone(s, DoSplit(s, s.decider.value, Active(s).batch))
  {
    SplitMoves(s);
    MovedGoes(s, DoSplit(s, s.decider.value, Active(s).batch));
  }

  lemma RejectedGoes(s: State)
    requires Going(s) && s.decider.Some? && Active(s).Rejected?
    ensures Gone(s, DoReject(s, s.decider.value))
  {
    RejectMoves(s);
    RejectFrees(s, s.decider.value);
    MovedGoes(s, DoReject(s, s.decider.value));
  }

  lemma ClosingGoes(s: State)
    requires Going(s) && s.decider.Some? && Active(s).Closing?
    ensures Gone(s, DoFinish(s, s.decider.value))
  {
    FinishMoves(s);
    MovedGoes(s, DoFinish(s, s.decider.value));
  }

  lemma FireGoes(s: State)
    requires Going(s) && s.decider.Some?
    ensures FireEnabled(s, FireMove(s)) && Safe(s, Step.Fires(FireMove(s))) && Own(Step.Fires(FireMove(s)))
    ensures Gone(s, FireNext(s, FireMove(s)))
  {
    match Active(s)
    case Waiting =>
    case Deciding(_, _, _) => CheckGoes(s);
    case Calling(_, _, _) => OpenGoes(s);
    case Opened(_, _, _) => LaunchGoes(s);
    case Probing(_, _, _) => ProbingGoes(s);
    case Rejected(_, _, _, _) => RejectedGoes(s);
    case Closing => ClosingGoes(s);
  }

  lemma {:induction false} FireEnds(s: State) returns (t: State)
    requires Going(s)
    ensures Follows(s, t) && Going(t) && t.decider.None? && Frame(s, t)
    decreases FireRank(Active(s))
  {
    Here(s);
    t := s;
    if s.decider.Some? {
      FireGoes(s);
      var n := FireNext(s, FireMove(s));
      Follow(s, s, Step.Fires(FireMove(s)));
      t := FireEnds(n);
      FollowsOn(s, n, t);
    }
  }

  // ---------------------------------------------------------------- everybody finishes

  lemma EverybodyFinishes(s: State) returns (t: State)
    requires Base(s) && Row(s) && Spared(s) && s.core.enabled
    ensures Follows(s, t) && Finished(t) && Frame(s, t)
  {
    var a := ScansDrain(s);
    assert Frame(s, a) && Going(a);
    var b := FireEnds(a);
    FollowsOn(s, a, b);
    t := RestFinishes(b);
    FollowsOn(s, b, t);
  }

  /** The scan that a fire started, if any, ends, and then the holders leave. */
  lemma RestFinishes(s: State) returns (t: State)
    requires Going(s) && s.decider.None?
    ensures Follows(s, t) && Finished(t) && Frame(s, t)
  {
    var a := ScansDrain(s);
    NobodyStarts(a);
    t := HoldersDrain(a);
    FollowsOn(s, a, t);
  }

  lemma {:induction false} HolderSaves(s: State, h: nat) returns (t: State)
    requires Inv(s) && !s.core.stopped && s.core.enabled && ScanEnabled(s, Notice) && !NoticeSpares(s) && WatchScan(s) && h in s.holders
    ensures Follows(s, t) && Inv(t) && Spared(t) && Frame(s, t)
    decreases HolderRank(s.holders[h])
  {
    OnlyScanHas(s, h);
    HolderGoes(s, h);
    StepKeeps(s, HolderMove(s, h));
    t := Next(s, HolderMove(s, h));
    Here(t);
    if !Spared(t) {
      t := HolderSaves(t, h);
    }
    Onward(s, HolderMove(s, h), t);
  }

  /** What the notice would drop is in the running scan alone, so no holder has saved the batch. */
  lemma OnlyScanHas(s: State, h: nat)
    requires Inv(s) && !s.core.stopped && ScanEnabled(s, Notice) && !NoticeSpares(s) && WatchScan(s) && h in s.holders
    ensures Attached(s) && !s.holders[h].Saves() && !s.holders[h].Changing?
  {
    var id :| id in s.reports && !HeldElsewhere(Ended(s), id, s.reports[id]);
    var dir := s.reports[id];
    assert HolderTracks(s, dir) ==> HolderTracks(Ended(s), dir);
    assert ScanTracks(s, id, dir);
    assert s.holders[h].Saves() ==> HolderTracks(Ended(s), dir);
  }

  /** It goes on while the scan waits to send its notice. */
  ghost predicate WentOn(s: State, t: State, h: nat) {
    && Frame(s, t) && h in s.holders && h in t.holders && HolderRank(t.holders[h]) < HolderRank(s.holders[h])
    && ScanEnabled(t, Notice) && WatchScan(t)
  }

  lemma QuiesceGoes(s: State, h: nat)
    requires HoldEnabled(s, h, Quiesce) && ScanEnabled(s, Notice) && WatchScan(s)
    ensures WentOn(s, DoQuiesce(s, h), h)
  {
  }

  lemma CloneGoes(s: State, h: nat)
    requires HoldEnabled(s, h, Clone) && ScanEnabled(s, Notice) && WatchScan(s)
    ensures WentOn(s, DoClone(s, h), h)
  {
  }

  lemma SupersedeGoes(s: State, h: nat)
    requires HoldEnabled(s, h, SupersedeFor) && ScanEnabled(s, Notice) && WatchScan(s)
    ensures WentOn(s, DoSupersedeFor(s, h), h) && NoticeSpares(DoSupersedeFor(s, h))
  {
  }

  lemma HolderGoes(s: State, h: nat)
    requires Base(s) && ScanEnabled(s, Notice) && WatchScan(s) && Attached(s) && h in s.holders
    requires !s.holders[h].Saves() && !s.holders[h].Changing?
    ensures Enabled(s, HolderMove(s, h)) && Safe(s, HolderMove(s, h)) && Own(HolderMove(s, h))
    ensures var t := Next(s, HolderMove(s, h)); WentOn(s, t, h) && (s.holders[h].Superseding? ==> NoticeSpares(t))
  {
    match s.holders[h]
    case Quiescing(_) => QuiesceGoes(s, h);
    case Cloning(_) => CloneGoes(s, h);
    case Superseding(_, _) => SupersedeGoes(s, h);
  }

  lemma InvBase(s: State)
    requires Shape(s) && !s.core.stopped
    ensures Base(s) && Row(s)
  {
  }

  // ---------------------------------------------------------------- a stranded scan

  /** Nobody but the scan has the report. */
  ghost predicate Nowhere(s: State, id: nat) {
    id in s.reports && !HeldElsewhere(Ended(s), id, s.reports[id])
  }

  lemma NowhereStays(s: State, t: State, id: nat)
    requires Nowhere(s, id) && id in t.reports && t.reports[id] == s.reports[id] && !FullPending(Ended(t))
    requires var dir := s.reports[id];
             && (Covered(dir, t.core.dirty) ==> Covered(dir, s.core.dirty) || FireTracks(s, id, dir) || HolderTracks(s, dir))
             && (FireTracks(t, id, dir) ==> FireTracks(s, id, dir) || Covered(dir, s.core.dirty))
             && (HolderTracks(t, dir) ==> HolderTracks(s, dir))
    ensures Nowhere(t, id)
  {
    var dir := s.reports[id];
    assert HolderTracks(Ended(t), dir) ==> HolderTracks(t, dir);
    assert HolderTracks(s, dir) ==> HolderTracks(Ended(s), dir);
  }

  /** The report was there before the active fire took its batch. */
  lemma BeforeTheFire(s: State, id: nat)
    requires Inv(s) && !s.core.stopped && Stranded(s) && Nowhere(s, id)
    ensures Active(s).Holds() ==> id < Active(s).cut
  {
    var dir := s.reports[id];
    assert HolderTracks(s, dir) ==> HolderTracks(Ended(s), dir);
  }

  /** The scan, the holders and what full scans are left stay; what a fire has goes from the dirty ones and back. */
  ghost predicate Spreads(s: State, t: State, id: nat, dir: Dir) {
    && t.scan == s.scan && t.holders == s.holders && t.reports == s.reports && t.owed == s.owed
    && t.starters == s.starters && t.opener == s.opener && t.core.stopped == s.core.stopped
    && (Covered(dir, t.core.dirty) ==> Covered(dir, s.core.dirty) || FireTracks(s, id, dir))
    && (FireTracks(t, id, dir) ==> FireTracks(s, id, dir) || Covered(dir, s.core.dirty))
  }

  lemma TimerSpreads(s: State, i: nat, batch: set<Dir>, id: nat, dir: Dir)
    requires FiresOk(s) && FireEnabled(s, TimerFires(i, batch))
    ensures Spreads(s, DoTimerFires(s, i, batch), id, dir)
  {
  }

  lemma SplitSpreads(s: State, i: nat, settled: set<Dir>, id: nat, dir: Dir)
    requires FiresOk(s) && FireEnabled(s, Split(i, settled)) && (Active(s).Holds() ==> id < Active(s).cut)
    ensures Spreads(s, DoSplit(s, i, settled), id, dir)
  {
  }

  lemma CheckSpreads(s: State, i: nat, id: nat, dir: Dir)
    requires FiresOk(s) && FireEnabled(s, Check(i)) && (Active(s).Holds() ==> id < Active(s).cut)
    ensures Spreads(s, DoCheck(s, i), id, dir)
  {
    if MayStart(s.core) {
      StartSpreads(s, i, id, dir);
    } else {
      StaySpreads(s, i, id, dir);
    }
  }

  lemma StartSpreads(s: State, i: nat, id: nat, dir: Dir)
    requires FiresOk(s) && FireEnabled(s, Check(i)) && MayStart(s.core)
    ensures Spreads(s, DoCheck(s, i), id, dir)
  {
  }

  lemma StaySpreads(s: State, i: nat, id: nat, dir: Dir)
    requires FiresOk(s) && FireEnabled(s, Check(i)) && (Active(s).Holds() ==> id < Active(s).cut) && !MayStart(s.core)
    ensures Spreads(s, DoCheck(s, i), id, dir)
  {
    assert Active(s) == s.fires[i];
  }

  lemma OpenSpreads(s: State, i: nat, id: nat, dir: Dir)
    requires FiresOk(s) && FireEnabled(s, OpenRow(i))
    ensures Spreads(s, DoOpenRow(s, i), id, dir)
  {
  }

  lemma LaunchSpreads(s: State, i: nat, id: nat, dir: Dir)
    requires FiresOk(s) && FireEnabled(s, Launch(i, true)) && s.scan.Some?
    ensures Spreads(s, DoLaunch(s, i, true), id, dir)
  {
  }

  lemma RejectSpreads(s: State, i: nat, id: nat, dir: Dir)
    requires FiresOk(s) && FireEnabled(s, Reject(i)) && (Active(s).Holds() ==> id < Active(s).cut)
    ensures Spreads(s, DoReject(s, i), id, dir)
  {
    RejectFrees(s, i);
  }

  lemma FinishSpreads(s: State, i: nat, id: nat, dir: Dir)
    requires FiresOk(s) && FireEnabled(s, Finish(i))
    ensures Spreads(s, DoFinish(s, i), id, dir)
  {
    FinishEnds(s);
  }

  lemma FireSpreads(s: State, step: FireStep, id: nat, dir: Dir)
    requires FiresOk(s) && FireEnabled(s, step) && Own(Step.Fires(step)) && (Active(s).Holds() ==> id < Active(s).cut)
    requires s.scan.Some?
    ensures Spreads(s, FireNext(s, step), id, dir)
  {
    match step
    case TimerFires(i, batch) => TimerSpreads(s, i, batch, id, dir);
    case Split(i, settled) => SplitSpreads(s, i, settled, id, dir);
    case Check(i) => CheckSpreads(s, i, id, dir);
    case OpenRow(i) => OpenSpreads(s, i, id, dir);
    case Launch(i, _) => LaunchSpreads(s, i, id, dir);
    case Reject(i) => RejectSpreads(s, i, id, dir);
    case Finish(i) => FinishSpreads(s, i, id, dir);
  }

  lemma FireStrands(s: State, step: FireStep, id: nat)
    requires Inv(s) && !s.core.stopped && Stranded(s) && Nowhere(s, id)
    requires FireEnabled(s, step) && Own(Step.Fires(step))
    ensures var t := FireNext(s, step);
            t.scan == s.scan && t.holders == s.holders && Nowhere(t, id) && !FullPending(Ended(t)) && !t.core.stopped
  {
    var t := FireNext(s, step);
    var dir := s.reports[id];
    BeforeTheFire(s, id);
    FireSpreads(s, step, id, dir);
    assert HolderTracks(t, dir) ==> HolderTracks(s, dir);
    NowhereStays(s, t, id);
  }

  /** A holder has a batch only if it had it before, and gives it to the dirty directories. */
  ghost predicate Returns(s: State, t: State, id: nat, dir: Dir) {
    && t.scan == s.scan && t.reports == s.reports && t.owed == s.owed && t.starters == s.starters && t.opener == s.opener
    && t.core.stopped == s.core.stopped && Active(t) == Active(s)
    && (Covered(dir, t.core.dirty) ==> Covered(dir, s.core.dirty) || HolderTracks(s, dir))
    && (HolderTracks(t, dir) ==> HolderTracks(s, dir))
  }

  lemma HoldReturns(s: State, h: nat, step: HoldStep, id: nat, dir: Dir)
    requires FiresOk(s) && HoldEnabled(s, h, step) && Own(Holds(h, step)) && !WatchScan(s)
    ensures Returns(s, HoldNext(s, h, step), id, dir)
  {
    var t := HoldNext(s, h, step);
    if HolderTracks(t, dir) {
      var k :| k in t.holders && t.holders[k].Saves() && Covered(dir, t.holders[k].batch);
      assert s.holders[k].Saves() && s.holders[k].batch == t.holders[k].batch;
    }
  }

  lemma RequeueReturns(s: State, h: nat, id: nat, dir: Dir)
    requires ReleaseEnabled(s, h, RequeueFolders)
    ensures Returns(s, DoRequeueFolders(s, h), id, dir)
  {
    assert s.holders[h].Saves();
    var t := DoRequeueFolders(s, h);
    if HolderTracks(t, dir) {
      var k :| k in t.holders && t.holders[k].Saves() && Covered(dir, t.holders[k].batch);
      assert s.holders[k].Saves();
    }
  }

  lemma LeaverReturns(s: State, t: State, h: nat, batch: set<Dir>, id: nat, dir: Dir)
    requires FiresOk(s) && Left(s, t, h, batch) && (batch != {} ==> s.holders[h].Saves() && batch == s.holders[h].batch)
    ensures Returns(s, t, id, dir)
  {
    RearmedFires(s, t);
    if HolderTracks(t, dir) {
      var k :| k in t.holders && t.holders[k].Saves() && Covered(dir, t.holders[k].batch);
      assert s.holders[k].Saves();
    }
  }

  lemma RestoreReturns(s: State, h: nat, id: nat, dir: Dir)
    requires FiresOk(s) && ReleaseEnabled(s, h, RestoreOn)
    ensures Returns(s, DoRestoreOn(s, h), id, dir)
  {
    RestoreEffect(s, h);
    LeaverReturns(s, DoRestoreOn(s, h), h, s.holders[h].batch, id, dir);
  }

  lemma EndReturns(s: State, h: nat, id: nat, dir: Dir)
    requires FiresOk(s) && ReleaseEnabled(s, h, EndFolders)
    ensures Returns(s, DoEndFolders(s, h), id, dir)
  {
    EndEffect(s, h);
    LeaverReturns(s, DoEndFolders(s, h), h, {}, id, dir);
  }

  lemma HolderReturns(s: State, step: Step, id: nat, dir: Dir)
    requires FiresOk(s) && Enabled(s, step) && Own(step) && !WatchScan(s) && (step.Holds? || step.Releases?)
    ensures Returns(s, Next(s, step), id, dir)
  {
    match step
    case Holds(h, x) => HoldReturns(s, h, x, id, dir);
    case Releases(h, RequeueFolders) => RequeueReturns(s, h, id, dir);
    case Releases(h, EndFolders) => EndReturns(s, h, id, dir);
    case Releases(h, RestoreOn) => RestoreReturns(s, h, id, dir);
  }

  lemma HolderStrands(s: State, step: Step, id: nat)
    requires Inv(s) && !s.core.stopped && Stranded(s) && Nowhere(s, id) && (step.Holds? || step.Releases?)
    requires Enabled(s, step) && Own(step)
    ensures var t := Next(s, step); t.scan == s.scan && !WatchScan(s) && Nowhere(t, id) && !FullPending(Ended(t)) && !t.core.stopped
  {
    var t := Next(s, step);
    HolderReturns(s, step, id, s.reports[id]);
    NowhereStays(s, t, id);
  }

  lemma StaysStranded(s: State, step: Step)
    requires Inv(s) && !s.core.stopped && Stranded(s) && Enabled(s, step) && Safe(s, step) && Own(step)
    ensures Stranded(Next(s, step)) && !Next(s, step).core.stopped
  {
    var id :| id in s.reports && !HeldElsewhere(Ended(s), id, s.reports[id]);
    assert Nowhere(s, id);
    match step
    case Fires(f) => FireStrands(s, f, id); assert Nowhere(Next(s, step), id);
    case Holds(_, _) => HolderStrands(s, step, id); assert Nowhere(Next(s, step), id);
    case Releases(_, _) => HolderStrands(s, step, id); assert Nowhere(Next(s, step), id);
    case Scans(_) => assert false;
  }

  ghost predicate StrandedHere(s: State) {
    Inv(s) && !s.core.stopped && Stranded(s)
  }

  lemma StaysHere(s: State, step: Step)
    requires StrandedHere(s) && Enabled(s, step) && Safe(s, step) && Own(step)
    ensures StrandedHere(Next(s, step))
  {
    StepKeeps(s, step);
    StaysStranded(s, step);
  }

  lemma {:induction false} PathStaysStranded(states: seq<State>, steps: seq<Step>, k: nat)
    requires Leads(states, steps) && AllOwn(steps) && k < |states| && StrandedHere(states[0])
    ensures StrandedHere(states[k])
  {
    if k > 0 {
      PathStaysStranded(states, steps, k - 1);
      StaysHere(states[k - 1], steps[k - 1]);
    }
  }

  // ---------------------------------------------------------------- theorems

  /**
   In a reachable state of an importer that is on, the parties under way can all finish by safe steps of their own if and
   only if the scan is not stranded.
   */
  lemma FinishExactly(states: seq<State>, steps: seq<Step>, k: nat)
    requires SafeRun(states, steps) && k < |states| && states[k].core.enabled && !states[k].core.stopped
    ensures (exists t :: Follows(states[k], t) && Finished(t)) <==> !Stranded(states[k])
  {
    var s := states[k];
    RunKeeps(states, steps, k);
    if Stranded(s) {
      forall t | Follows(s, t) ensures !Finished(t) {
        var a, x :| Leads(a, x) && AllOwn(x) && a[0] == s && a[|x|] == t;
        PathStaysStranded(a, x, |x|);
      }
    } else {
      var t := UnstrandedFinishes(s);
    }
  }

  lemma UnstrandedFinishes(s: State) returns (t: State)
    requires Inv(s) && s.core.enabled && !s.core.stopped && !Stranded(s)
    ensures Follows(s, t) && Finished(t) && Frame(s, t)
  {
    var a := s;
    Here(s);
    if !Spared(s) {
      var h :| h in s.holders;
      a := HolderSaves(s, h);
    }
    InvBase(a);
    t := EverybodyFinishes(a);
    FollowsOn(s, a, t);
  }

  /**
   From every reachable state that listens with dirty directories, the parties under way lead by steps of their own alone
   to a state whose timer is set and takes all of them.  All those steps are safe, but for the notice of a scan that is
   stranded, and then only that one is not.
   */
  lemma EverythingIsTaken(states: seq<State>, steps: seq<Step>, k: nat, batch: set<Dir>) returns (a: State, t: State)
    requires SafeRun(states, steps) && k < |states| && Listens(states[k].core) && states[k].core.dirty != {}
    ensures if Stranded(states[k]) then a == DoNotice(states[k]) else a == states[k]
    ensures Follows(a, t) && Finished(t) && t.nextReport == states[k].nextReport && Armed(t) && states[k].core.dirty <= t.core.dirty
    ensures NormalForm(batch, t.core.dirty) ==>
              Enabled(t, Step.Fires(TimerFires(t.core.timerSeq, batch))) &&
              var u := DoTimerFires(t, t.core.timerSeq, batch);
              u.core.dirty == {} && Active(u).Probing? && forall d | d in states[k].core.dirty :: Covered(d, Active(u).batch)
  {
    var s := states[k];
    RunKeeps(states, steps, k);
    a := s;
    if Stranded(s) {
      a := DoNotice(s);
      StepShape(s, Scans(Notice));
      NoticeRearms(s);
      InvBase(a);
      t := EverybodyFinishes(a);
    } else {
      t := UnstrandedFinishes(s);
    }
    ReachShapes(a, t);
    FinishedTakes(t, batch);
  }

  /** With everybody finished, only a timer can be left to take what is dirty. */
  lemma FinishedTakes(s: State, batch: set<Dir>)
    requires Shape(s) && Finished(s) && Listens(s.core) && s.core.dirty != {}
    ensures Armed(s)
    ensures NormalForm(batch, s.core.dirty) ==>
              Enabled(s, Step.Fires(TimerFires(s.core.timerSeq, batch))) &&
              var t := DoTimerFires(s, s.core.timerSeq, batch);
              t.core.dirty == {} && Active(t).Probing? && forall d | d in s.core.dirty :: Covered(d, Active(t).batch)
  {
    if NormalForm(batch, s.core.dirty) {
      TimerTakes(s, batch);
    }
  }
}
