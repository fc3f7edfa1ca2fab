/**
 What an unsafe step of the auto-import protocol leads to.  A state can lose something when safe steps alone lead
 from it to one where a report is nowhere or dirty directories have no wake-up.  A step is safe exactly when the state
 after it cannot.
 */
module AutoImportLosses {
  import opened Options
  import opened DirtyDirectories
  import opened AutoImportState
  import opened AutoImportProtocol
  import opened AutoImportInvariant
  import opened AutoImportTheorems
  import opened AutoImportPaths

  ghost predicate CanLose(s: State) {
    exists t :: Reaches(s, t) && Lost(t)
  }

  /** From the invariant nothing is ever lost. */
  lemma NeverLoses(s: State)
    requires Inv(s)
    ensures !CanLose(s)
  {
    forall t | Reaches(s, t) ensures !Lost(t) {
      ReachKeeps(s, t);
    }
  }

  lemma LosesLater(s: State, t: State)
    requires Reaches(s, t) && CanLose(t)
    ensures CanLose(s)
  {
    var u :| Reaches(t, u) && Lost(u);
    Joins(s, t, u);
  }

  // ---------------------------------------------------------------- a row that nobody closes

  /** The store has a running row that belongs to no scan. */
  ghost predicate Stuck(s: State) {
    && Base(s) && s.row && s.opener.None? && !Unclosed(s) && !Active(s).Opened?
    && (s.reports == map[] || Listens(s.core))
  }

  const Videos := Dir(["videos"], false)

  /** A new report is dirty, and its timer set. */
  lemma Reported(s: State, dir: Dir) returns (t: State)
    requires Base(s) && Listens(s.core)
    ensures t == DoReport(s, Some(dir)) && Reaches(s, t)
    ensures Base(t) && Active(t) == Active(s) && Armed(t) && Listens(t.core) && Covered(dir, t.core.dirty)
    ensures t.core == Schedule(AddDirty(s.core, {dir}))
    ensures t.reports == s.reports[s.nextReport := dir] && t.nextReport == s.nextReport + 1
    ensures t == s.(core := t.core, fires := t.fires, reports := t.reports, nextReport := t.nextReport)
    ensures t.fires == s.fires[t.core.timerSeq := Waiting]
  {
    t := DoReport(s, Some(dir));
    Start1(s, Step.Fires(Report(Some(dir))));
    assert Rearmed(s, t);
    RearmedFires(s, t);
    assert Covers(dir, dir) && dir in t.core.dirty;
  }

  /** Reported anew, every outstanding report is dirty again. */
  ghost function Clean(s: State): set<nat> {
    set id | id in s.reports && !Covered(s.reports[id], s.core.dirty)
  }

  lemma {:induction false} Rereported(s: State) returns (t: State)
    requires Base(s) && Listens(s.core)
    ensures Reaches(s, t) && Base(t) && Active(t) == Active(s) && Listens(t.core) && Clean(t) == {}
    ensures t == s.(core := t.core, fires := t.fires, reports := t.reports, nextReport := t.nextReport)
    decreases Clean(s)
  {
    Here(s);
    t := s;
    if Clean(s) != {} {
      var id :| id in Clean(s);
      var n := Reported(s, s.reports[id]);
      ReportCleans(s, n, id);
      t := Rereported(n);
      Joins(s, n, t);
    }
  }

  lemma ReportCleans(s: State, t: State, id: nat)
    requires id in Clean(s) && s.core.dirty <= t.core.dirty && Covered(s.reports[id], t.core.dirty)
    requires t.reports == s.reports[s.nextReport := s.reports[id]]
    ensures Clean(t) < Clean(s)
  {
    assert id !in Clean(t);
  }

  lemma TakenState(s: State, t: State, i: nat, batch: set<Dir>)
    requires Base(s) && i in s.fires && s.fires[i].Waiting? && s.decider.None? && s.startMu.None? && batch != {} && batch == s.core.dirty
    requires t == s.(core := s.core.(timer := false, batching := true, dirty := {}), decider := Some(i),
                     fires := s.fires[i := Probing(batch, s.core.finishes, s.nextReport)])
    ensures Base(t) && Active(t) == t.fires[i]
  {
  }

  /** The timer takes what is dirty. */
  lemma Taken(s: State) returns (t: State)
    requires Base(s) && Armed(s) && Listens(s.core) && s.core.dirty != {}
    requires s.decider.None? && s.startMu.None? && s.holders == map[] && s.core.inflight.None?
    ensures Reaches(s, t) && Base(t) && t.decider == Some(s.core.timerSeq)
    ensures Active(t) == Probing(s.core.dirty, s.core.finishes, s.nextReport)
    ensures t.core == s.core.(timer := false, batching := true, dirty := {})
    ensures t == s.(core := t.core, fires := t.fires, decider := t.decider) && t.decider.value in t.fires
  {
    var i, batch := s.core.timerSeq, s.core.dirty;
    assert forall d :: Covers(d, d);
    assert Takes(s.core, i) && FireEnabled(s, TimerFires(i, batch));
    t := DoTimerFires(s, i, batch);
    TakenState(s, t, i, batch);
    Start1(s, Step.Fires(TimerFires(i, batch)));
  }

  /** With nobody left to act, a new report meets the row, or the batch that is in flight for ever. */
  lemma StuckQuietLoses(s: State)
    requires Stuck(s) && Listens(s.core) && s.holders == map[] && s.decider.None? && s.startMu.None? && s.scan.None?
    ensures CanLose(s)
  {
    var a := Reported(s, Videos);
    if s.core.inflight.Some? {
      var b := DoTimerFires(a, a.core.timerSeq, {});
      Go(s, a, Step.Fires(TimerFires(a.core.timerSeq, {})));
      assert Lost(b);
    } else {
      var b := Taken(a);
      StuckRoundLoses(b, b.decider.value);
      Joins(s, a, b);
      LosesLater(s, b);
    }
  }

  lemma StuckRoundLoses(s: State, i: nat)
    requires Stuck(s) && Listens(s.core) && s.holders == map[] && s.startMu.None? && s.scan.None? && !s.core.timer && !s.core.rerun
    requires s.decider == Some(i) && i in s.fires && s.fires[i].Probing? && s.fires[i].finishes == s.core.finishes && s.core.inflight.None?
    ensures CanLose(s)
  {
    var batch := s.fires[i].batch;
    var b := Calls(s);
    var c := DoOpenRow(b, i);
    Go(s, b, Step.Fires(OpenRow(i)));
    RejectSticks(c, i);
    var d := DoReject(c, i);
    Go(s, c, Step.Fires(Reject(i)));
    var e := DoFinish(d, i);
    Go(s, d, Step.Fires(Finish(i)));
    FinishSticks(d, i);
  }

  /** A start that met the row goes back to the dirty directories, and waits for a notice. */
  lemma RejectSticks(s: State, i: nat)
    requires i in s.fires && s.fires[i].Rejected? && !s.fires[i].failed && s.fires[i].finishes == s.core.finishes
    requires Listens(s.core) && !s.core.timer && !s.core.rerun && s.fires[i].batch != {} && s.core.holding == 0
    requires s.scan.None? && s.opener.None?
    ensures var t := DoReject(s, i);
            && Listens(t.core) && t.core.dirty != {} && !t.core.timer && !t.core.rerun && t.core.holding == 0
            && t.scan.None? && t.opener.None? && i in t.fires && t.fires[i].Closing?
  {
  }

  /** And then nobody is left who would look at them. */
  lemma FinishSticks(s: State, i: nat)
    requires Listens(s.core) && s.core.dirty != {} && !s.core.timer && !s.core.rerun && s.core.holding == 0
    requires s.scan.None? && s.opener.None?
    requires i in s.fires && s.fires[i].Closing?
    ensures Lost(DoFinish(s, i))
  {
  }

  lemma StuckLoses(s: State)
    requires Stuck(s)
    ensures CanLose(s)
  {
    var a := FireDrains(s);
    var b := a;
    Here(a);
    if a.scan.Some? {
      b := StuckNotice(a);
    }
    Joins(s, a, b);
    StuckLeftLoses(b);
    LosesLater(s, b);
  }

  /** With no fire and no scan left, the holders can leave an importer that is on. */
  lemma StuckLeftLoses(s: State)
    requires Stuck(s) && s.decider.None? && s.startMu.None? && s.scan.None?
    ensures CanLose(s)
  {
    var a := s;
    Here(s);
    if !s.core.enabled {
      a := LifeNext(s, TurnOn);
      Go(s, s, Lives(TurnOn));
    }
    var b := HoldersDrain(a);
    Joins(s, a, b);
    StuckAloneLoses(b);
    LosesLater(s, b);
  }

  lemma StuckAloneLoses(s: State)
    requires Calm(s) && s.row && s.core.enabled && s.holders == map[] && s.setMu.None?
    ensures CanLose(s)
  {
    var a := s;
    Here(s);
    if !s.core.started {
      a := LifeNext(s, Start(true));
      Go(s, s, Lives(Start(true)));
    }
    StuckQuietLoses(a);
    LosesLater(s, a);
  }

  lemma StuckNotice(s: State) returns (t: State)
    requires Stuck(s) && s.decider.None? && s.startMu.None? && s.scan.Some?
    ensures Reaches(s, t) && Stuck(t) && t.decider.None? && t.startMu.None? && t.scan.None?
  {
    var spared := s;
    Here(s);
    if !NoticeSpares(s) {
      spared := Rereported(s);
      forall id | id in spared.reports ensures HeldElsewhere(Ended(spared), id, spared.reports[id]) {
        assert id !in Clean(spared);
      }
    }
    NoticeFrees(spared);
    NoticeRearms(spared);
    NoticeListens(spared);
    Go(s, spared, Scans(Notice));
    t := DoNotice(spared);
  }

  lemma NoticeListens(s: State)
    requires ScanEnabled(s, Notice)
    ensures Listens(DoNotice(s).core) == Listens(s.core) && DoNotice(s).reports.Keys <= s.reports.Keys
  {
  }

  // ---------------------------------------------------------------- a watch scan whose batch is not in flight

  /** Starts are open again while a watch scan runs whose batch is no longer in flight. */
  ghost predicate Freed(s: State) {
    && Base(s) && Row(s) && Known(s) && Listens(s.core) && s.holders == map[] && s.setMu.None?
    && s.decider.None? && s.startMu.None? && s.core.inflight.None? && WatchScan(s) && s.scan.value.cut <= s.nextReport
  }

  /** A new report's batch goes in flight, and the notice of the running scan takes it out again. */
  lemma FreedCalls(s: State) returns (t: State)
    requires Freed(s)
    ensures Reaches(s, t) && Base(t) && Row(t) && Known(t) && Listens(t.core) && t.holders == map[] && t.setMu.None?
    ensures t.decider.Some? && Active(t).Calling? && WatchScan(t) && t.scan == s.scan && t.core.dirty == {}
    ensures After(t, s.nextReport) && Active(t).batch != {}
  {
    var a := Reported(s, Videos);
    var b := Taken(a);
    Joins(s, a, b);
    t := Calls(b);
    Joins(s, b, t);
  }

  /** A batch that has settled goes in flight. */
  lemma Calls(s: State) returns (t: State)
    requires Base(s) && Listens(s.core) && s.decider.Some? && s.decider.value in s.fires && Active(s).Probing? && s.holders == map[]
    ensures Reaches(s, t) && Base(t) && t.decider == s.decider && t.decider.value in t.fires
    ensures Active(t) == Calling(Active(s).batch, Active(s).finishes, Active(s).cut)
    ensures t.core == s.core.(inflight := Some(Active(s).batch))
    ensures t == s.(core := t.core, fires := t.fires, startMu := t.startMu)
  {
    var a := Settles(s);
    NobodyStarts(a);
    t := DoCheck(a, a.decider.value);
    Go(s, a, Step.Fires(Check(a.decider.value)));
  }

  lemma SettleFrame(s: State, i: nat)
    requires i in s.fires && s.fires[i].Probing? && s.fires[i].batch != {}
    ensures var f := s.fires[i];
            DoSplit(s, i, f.batch) == s.(fires := s.fires[i := Deciding(f.batch, f.finishes, f.cut)])
  {
    assert s.fires[i].batch - s.fires[i].batch == {};
  }

  lemma SettledBase(s: State, t: State, i: nat)
    requires Base(s) && s.decider == Some(i) && i in s.fires && s.fires[i].Probing?
    requires t == s.(fires := s.fires[i := Deciding(s.fires[i].batch, s.fires[i].finishes, s.fires[i].cut)])
    ensures Base(t) && Active(t) == t.fires[i]
  {
  }

  lemma Settles(s: State) returns (t: State)
    requires Base(s) && s.decider.Some? && s.decider.value in s.fires && Active(s).Probing?
    ensures Reaches(s, t) && Base(t) && t.decider == s.decider && t.decider.value in t.fires
    ensures Active(t) == Deciding(Active(s).batch, Active(s).finishes, Active(s).cut)
    ensures t == s.(fires := t.fires)
  {
    var i, batch := s.decider.value, Active(s).batch;
    SettleFrame(s, i);
    t := DoSplit(s, i, batch);
    SettledBase(s, t, i);
    Start1(s, Step.Fires(Split(i, batch)));
  }

  /** The scan of the batch starts, though the batch is not in flight. */
  lemma FreedLaunches(s: State) returns (t: State)
    requires Freed(s)
    ensures Reaches(s, t) && Base(t) && Row(t) && Known(t) && Listens(t.core) && t.holders == map[] && t.setMu.None?
    ensures t.decider.Some? && Active(t).Closing? && t.startMu.None? && WatchScan(t) && Unclosed(t) && !Requeues(t)
    ensures t.scan.value.cut <= t.nextReport && t.core.inflight.None? && t.opener.None?
    ensures !Requeues(s) ==> t.core.dirty == {} && s.nextReport in t.reports && s.nextReport !in t.owed
  {
    var a := FreedCalls(s);
    var b := Leaves(a);
    Joins(s, a, b);
    var c := ScansDrain(b);
    Joins(s, b, c);
    if b != c {
      MovedJoin(a, b, c);
    }
    t := OpensAndLaunches(c);
    Joins(s, c, t);
  }

  lemma LeaveMoves(s: State)
    requires Base(s) && Row(s)
    ensures var t := s.(starters := {0}); Base(t) && Row(t) && ScanMoved(s, t) && Spared(t)
  {
  }

  /** Where the notice would drop a report, a full scan that is to follow is left it. */
  lemma Leaves(s: State) returns (t: State)
    requires Base(s) && Row(s) && WatchScan(s)
    ensures Reaches(s, t) && Base(t) && Row(t) && ScanMoved(s, t) && Spared(t)
  {
    Here(s);
    t := s;
    if !Spared(s) {
      t := s.(starters := {0});
      Start1(s, Scans(SupersedeFull(0)));
      assert s.starters + {0} == {0};
      LeaveMoves(s);
    }
  }

  lemma LaunchedState(s: State, t: State, i: nat)
    requires Base(s) && Known(s) && s.decider == Some(i) && i in s.fires && s.fires[i].Calling? && s.opener.None?
    requires t == s.(row := true, fires := s.fires[i := Closing], startMu := None,
                     scan := Some(Watching(s.fires[i].batch, s.fires[i].cut, false, None, false, false)))
    ensures Base(t) && Row(t) && Known(t) && Active(t).Closing? && Unclosed(t) && !Requeues(t) && t.scan.value.cut <= t.nextReport
  {
  }

  lemma OpensAndLaunches(s: State) returns (t: State)
    requires Base(s) && Known(s) && s.holders == map[] && s.setMu.None? && s.decider.Some? && Active(s).Calling?
    requires s.scan.None? && s.opener.None? && !s.row
    ensures Reaches(s, t) && Base(t) && Row(t) && Known(t) && t.holders == map[] && t.setMu.None?
    ensures t.decider.Some? && Active(t).Closing? && t.startMu.None? && WatchScan(t) && Unclosed(t) && !Requeues(t)
    ensures t.scan.value.cut <= t.nextReport && t.opener.None?
    ensures t.core == s.core && t.reports == s.reports && t.owed == s.owed
  {
    var i := s.decider.value;
    var a := DoOpenRow(s, i);
    Start1(s, Step.Fires(OpenRow(i)));
    t := DoLaunch(a, i, true);
    Go(s, a, Step.Fires(Launch(i, true)));
    assert t.fires == s.fires[i := Closing];
    LaunchedState(s, t, i);
  }

  lemma FreedLoses(s: State)
    requires Freed(s)
    ensures CanLose(s)
    decreases Requeues(s)
  {
    var a := FreedLaunches(s);
    if Requeues(s) {
      var i := a.decider.value;
      var b := DoFinish(a, i);
      Go(s, a, Step.Fires(Finish(i)));
      FinishEnds(a);
      FreedLoses(b);
      LosesLater(s, b);
    } else {
      CutLoses(a, s.nextReport);
      LosesLater(s, a);
    }
  }

  /** Cut by a partial rescan, the scan has no batch in flight to give back. */
  lemma CutLoses(s: State, id: nat)
    requires Base(s) && s.holders == map[] && Active(s).Closing? && WatchScan(s) && Unclosed(s) && !Requeues(s) && s.core.inflight.None?
    requires s.core.dirty == {} && id in s.reports && id !in s.owed
    ensures CanLose(s)
  {
    var a := DoSupersede(s);
    Start1(s, Scans(Supersede));
    var b := DoCloseRow(a, false);
    Go(s, a, Scans(CloseRow(false)));
    Go(s, b, Scans(Notice));
    CutNotice(s, b, id);
  }

  lemma CutNotice(s: State, b: State, id: nat)
    requires Base(s) && s.holders == map[] && Active(s).Closing? && s.core.inflight.None? && s.core.dirty == {}
    requires b == s.(row := false, scan := b.scan) && ScanEnabled(b, Notice) && WatchScan(b) && !b.scan.value.read
    requires id in s.reports && id !in s.owed
    ensures Lost(DoNotice(b))
  {
    var c := DoNotice(b);
    NoticeEffect(b);
    NoticeActive(b);
    CutKeeps(b, id);
    assert c.core.dirty == {} && c.holders == map[] && !Tracked(c, id, c.reports[id]);
  }

  /** The notice leaves a report that it neither discharges nor leaves to a full scan as it is. */
  lemma CutKeeps(s: State, id: nat)
    requires ScanEnabled(s, Notice) && WatchScan(s) && !s.scan.value.read && !Attached(s) && id in s.reports && id !in s.owed
    ensures id in DoNotice(s).reports && id !in DoNotice(s).owed
  {
  }

  // ---------------------------------------------------------------- the last holder stops waiting

  /** Every holder may leave while the watch scan goes on, and then its batch is not in flight. */
  ghost predicate Deserted(s: State) {
    && Base(s) && Row(s) && Known(s) && s.core.enabled && s.core.started && s.startMu.None?
    && (s.decider.None? || Active(s).Closing?) && WatchScan(s) && s.scan.value.cut <= s.nextReport
    && (forall k | k in s.holders :: !Blocks(s.holders[k]))
    && (s.core.inflight.None? || SomeHasBatch(s.holders))
  }

  /** What a holder returns leaves the scan without its batch. */
  ghost predicate OneLeft(s: State, t: State, h: nat) {
    Deserted(t) && t.holders == s.holders - {h} && t.setMu.None?
  }

  lemma StillHas(holders: map<nat, Holder>, h: nat, to: Holder)
    requires h in holders
    ensures SomeHasBatch(holders) && !HasBatch(holders[h]) ==> SomeHasBatch(holders[h := to]) && SomeHasBatch(holders - {h})
  {
    if SomeHasBatch(holders) && !HasBatch(holders[h]) {
      var k :| k in holders && HasBatch(holders[k]);
      assert HasBatch(holders[h := to][k]) && HasBatch((holders - {h})[k]);
    }
  }

  lemma RestoreLeaves(s: State, h: nat)
    requires Deserted(s) && s.setMu == Some(h)
    ensures ReleaseEnabled(s, h, RestoreOn) && OneLeft(s, DoRestoreOn(s, h), h)
  {
    assert s.holders[h].Held?;
    RestoreEffect(s, h);
    HolderGone(s, DoRestoreOn(s, h), h, s.holders[h].batch);
  }

  /** One holder less, and it had nothing or returned it. */
  lemma HolderGone(s: State, t: State, h: nat, batch: set<Dir>)
    requires Deserted(s) && Left(s, t, h, batch) && (s.setMu.None? || s.setMu == Some(h))
    requires HasBatch(s.holders[h]) ==> batch == s.holders[h].batch
    ensures OneLeft(s, t, h)
  {
    StillHas(s.holders, h, s.holders[h]);
    RearmedFires(s, t);
    LeftGate(s, t, h, batch);
  }

  lemma ReturnLeaves(s: State, h: nat)
    requires Deserted(s) && s.setMu.None? && h in s.holders && s.holders[h].Held?
    ensures ReleaseEnabled(s, h, RequeueFolders) && Safe(s, Releases(h, RequeueFolders))
    ensures var t := DoRequeueFolders(s, h);
            Deserted(t) && t.setMu.None? && t.holders == s.holders[h := Changing(false)]
  {
    StillHas(s.holders, h, Changing(false));
    GateUpdate(s.holders, s.core.holding, s.startMu, s.setMu, h, Changing(false));
  }

  lemma EndLeaves(s: State, h: nat)
    requires Deserted(s) && s.setMu.None? && h in s.holders && s.holders[h].Changing?
    ensures ReleaseEnabled(s, h, EndFolders) && OneLeft(s, DoEndFolders(s, h), h)
  {
    EndEffect(s, h);
    HolderGone(s, DoEndFolders(s, h), h, {});
  }

  lemma OneLeaves(s: State, h: nat) returns (t: State)
    requires Deserted(s) && h in s.holders && (s.setMu.None? || s.setMu == Some(h))
    ensures Reaches(s, t) && OneLeft(s, t, h)
  {
    if s.setMu.Some? {
      RestoreLeaves(s, h);
      Start1(s, Releases(h, RestoreOn));
      t := DoRestoreOn(s, h);
    } else {
      var n := Returned(s, h);
      EndLeaves(n, h);
      Go(s, n, Releases(h, EndFolders));
      t := DoEndFolders(n, h);
    }
  }

  lemma Returned(s: State, h: nat) returns (t: State)
    requires Deserted(s) && s.setMu.None? && h in s.holders
    ensures Reaches(s, t) && Deserted(t) && t.setMu.None? && h in t.holders && t.holders[h].Changing? && t.holders - {h} == s.holders - {h}
  {
    Here(s);
    t := s;
    if s.holders[h].Held? {
      ReturnLeaves(s, h);
      Go(s, s, Releases(h, RequeueFolders));
      t := DoRequeueFolders(s, h);
    }
  }

  lemma {:induction false} DesertedLoses(s: State)
    requires Deserted(s)
    ensures CanLose(s)
    decreases |s.holders|
  {
    if s.holders != map[] {
      var h :| h in s.holders && (s.setMu.None? || s.setMu == Some(h));
      var t := OneLeaves(s, h);
      DesertedLoses(t);
      LosesLater(s, t);
    } else if s.decider.Some? {
      var t := DoFinish(s, s.decider.value);
      Start1(s, Step.Fires(Finish(s.decider.value)));
      FinishFrees(s);
      FreedLoses(t);
      LosesLater(s, t);
    } else {
      FreedLoses(s);
    }
  }

  lemma FinishFrees(s: State)
    requires Deserted(s) && s.holders == map[] && s.decider.Some? && Active(s).Closing?
    ensures Freed(DoFinish(s, s.decider.value))
  {
    FinishEnds(s);
  }

  /** The last holder that waits gives up: it deserts the scan. */
  lemma GiveUpDeserts(s: State, h: nat)
    requires Inv(s) && HoldEnabled(s, h, GiveUp) && !Safe(s, Holds(h, GiveUp))
    ensures CanLose(DoWake(s, h))
  {
    GiveUpDeserted(s, h);
    DesertersLose(DoWake(s, h));
  }

  lemma GiveUpDeserted(s: State, h: nat)
    requires Inv(s) && HoldEnabled(s, h, GiveUp) && !Safe(s, Holds(h, GiveUp))
    ensures var t := DoWake(s, h); Deserted(t.(core := t.core.(enabled := true))) && (t.setMu.Some? ==> t.core.enabled)
  {
    var t := DoWake(s, h);
    GateUpdate(s.holders, s.core.holding, s.startMu, s.setMu, h, t.holders[h]);
    forall k | k in t.holders ensures !Blocks(t.holders[k]) {
      assert k != h ==> t.holders[k] == s.holders[k];
    }
    NobodyActs(s);
    GiveUpHas(s, h);
    WokenDeserts(s, t);
  }

  lemma WokenDeserts(s: State, t: State)
    requires Base(s) && Row(s) && Known(s) && s.core.started && s.startMu.None? && WatchScan(s) && s.scan.value.cut <= s.nextReport
    requires s.decider.None? || Active(s).Closing?
    requires t == s.(holders := t.holders) && Gate(t.holders, s.core.holding, s.startMu, s.setMu)
    requires (forall k | k in t.holders :: !Blocks(t.holders[k])) && (s.core.inflight.None? || SomeHasBatch(t.holders))
    ensures Deserted(t.(core := t.core.(enabled := true)))
  {
  }

  /** The same, whether the importer is on or is turned on now. */
  lemma DesertersLose(s: State)
    requires Deserted(s.(core := s.core.(enabled := true))) && (s.setMu.Some? ==> s.core.enabled)
    ensures CanLose(s)
  {
    if s.core.enabled {
      assert s.(core := s.core.(enabled := true)) == s;
      DesertedLoses(s);
    } else {
      var t := LifeNext(s, TurnOn);
      Start1(s, Lives(TurnOn));
      DesertedLoses(t);
      LosesLater(s, t);
    }
  }

  lemma NobodyActs(s: State)
    requires Inv(s) && WatchScan(s) && !s.core.stopped && s.startMu.None?
    ensures s.decider.None? || Active(s).Closing?
    ensures Row(s) && Known(s) && s.core.started && s.scan.value.cut <= s.nextReport
  {
  }

  lemma GiveUpHas(s: State, h: nat)
    requires Inv(s) && HoldEnabled(s, h, GiveUp) && WatchScan(s) && !s.core.stopped
    ensures s.core.inflight.None? || SomeHasBatch(DoWake(s, h).holders)
  {
    if s.core.inflight.Some? {
      assert HasBatch(DoWake(s, h).holders[h]);
    }
  }

  // ---------------------------------------------------------------- a batch returned to an importer that is off

  /** Off, with something dirty, and nobody left who has to give a batch back. */
  ghost predicate Idle(s: State) {
    && Base(s) && !s.core.enabled && s.core.started && s.core.dirty != {} && s.setMu.None? && s.startMu.None?
    && !SomeHasBatch(s.holders) && s.core.inflight.None? && Row(s) && !Active(s).OwnsStart() && s.reports == map[]
  }

  lemma IdleLoses(s: State)
    requires Idle(s)
    ensures CanLose(s)
  {
    var a := FireDrains(s);
    var b := ScansDrain(a);
    Joins(s, a, b);
    var c := HoldersDrain(b);
    Joins(s, b, c);
    IdleQuietLoses(c);
    LosesLater(s, c);
  }

  lemma IdleQuietLoses(s: State)
    requires Calm(s) && !s.core.enabled && s.core.started && s.core.dirty != {} && s.holders == map[] && s.setMu.None?
    ensures CanLose(s)
  {
    var a := s;
    Here(s);
    if Armed(s) {
      a := DoTimerFires(s, s.core.timerSeq, {});
      Go(s, s, Step.Fires(TimerFires(s.core.timerSeq, {})));
    }
    var b := LifeNext(a, TurnOn);
    Go(s, a, Lives(TurnOn));
    assert Lost(b);
  }

  lemma RequeueIdles(s: State, h: nat)
    requires Inv(s) && ReleaseEnabled(s, h, RequeueFolders) && !Safe(s, Releases(h, RequeueFolders))
    ensures CanLose(DoRequeueFolders(s, h))
  {
    var t := DoRequeueFolders(s, h);
    GateUpdate(s.holders, s.core.holding, s.startMu, s.setMu, h, Changing(false));
    var d :| d in s.holders[h].batch;
    assert d in t.core.dirty;
    forall k | k in t.holders ensures !HasBatch(t.holders[k]) {
      assert k != h ==> t.holders[k] == s.holders[k];
    }
    RowWithoutOpening(s);
    IdleLoses(t);
  }

  lemma RowWithoutOpening(s: State)
    requires Inv(s) && !s.core.stopped && s.startMu.None?
    ensures Row(s) && !Active(s).OwnsStart()
  {
  }

  // ---------------------------------------------------------------- a step is safe exactly when nothing is lost

  /** A start that launched nothing leaves the row to nobody. */
  lemma LaunchSticks(s: State, i: nat, listed: bool)
    requires Inv(s) && FireEnabled(s, Launch(i, listed)) && !s.core.stopped && s.scan.Some?
    ensures Stuck(DoLaunch(s, i, listed))
  {
  }

  /** A start that answered an error after it launched gives its batch back, and the scan goes on without it. */
  lemma LaunchTwice(s: State, i: nat)
    requires Inv(s) && FireEnabled(s, Launch(i, false)) && !s.core.stopped && s.scan.None? && s.holders == map[]
    ensures CanLose(DoLaunch(s, i, false))
  {
    var a := DoLaunch(s, i, false);
    LaunchErrs(s, i);
    RejectDeserts(a, i);
    Start1(a, Step.Fires(Reject(i)));
    DesertedLoses(DoReject(a, i));
    LosesLater(a, DoReject(a, i));
  }

  lemma LaunchErrs(s: State, i: nat)
    requires Inv(s) && FireEnabled(s, Launch(i, false)) && !s.core.stopped && s.scan.None? && s.holders == map[]
    ensures Erred(DoLaunch(s, i, false), i)
  {
    LaunchOwners(s, i, false);
  }

  ghost predicate Erred(s: State, i: nat) {
    && Base(s) && Row(s) && Known(s) && s.core.enabled && s.core.started && s.holders == map[]
    && WatchScan(s) && s.scan.value.cut <= s.nextReport && s.decider == Some(i) && i in s.fires && s.fires[i].Rejected?
  }

  lemma RejectDeserts(s: State, i: nat)
    requires Erred(s, i)
    ensures Deserted(DoReject(s, i))
  {
    RejectFrees(s, i);
  }

  lemma ManualSticks(s: State)
    requires Inv(s) && s.opener.Some? && !s.core.stopped && s.scan.Some?
    ensures Stuck(DoManualLaunch(s))
  {
  }

  lemma NoticeDrops(s: State)
    requires Inv(s) && ScanEnabled(s, Notice) && !s.core.stopped && !NoticeSpares(s)
    ensures Lost(DoNotice(s))
  {
    var id :| id in s.reports && !HeldElsewhere(Ended(s), id, s.reports[id]);
    NoticeLoses(s, id);
  }

  /** A notice loses a report that only its scan had, or was left, and that it did not read. */
  lemma NoticeLoses(s: State, id: nat)
    requires ScanEnabled(s, Notice) && FiresOk(s) && id in s.reports
    requires !Accounted(s.scan.value) && !FullPending(Ended(s)) && !HeldElsewhere(Ended(s), id, s.reports[id])
    ensures id in DoNotice(s).reports && !Tracked(DoNotice(s), id, s.reports[id])
  {
    var t := DoNotice(s);
    NoticeRearms(s);
    RearmedFires(s, t);
    var dir := s.reports[id];
    assert HolderTracks(t, dir) ==> HolderTracks(Ended(s), dir);
  }

  lemma FailureDrops(s: State, m: nat)
    requires Inv(s) && m in s.starters && !s.core.stopped && !FailureSpares(s, m)
    ensures Lost(DoStarterFails(s, m))
  {
    var t := DoStarterFails(s, m);
    var id :| id in s.reports && id in s.owed && !Tracked(s.(owed := {}), id, s.reports[id]);
    var left, dir := s.(owed := {}), s.reports[id];
    assert HolderTracks(t, dir) ==> HolderTracks(left, dir);
    assert !Tracked(t, id, t.reports[id]);
  }

  /** From a state where the invariant holds, safe steps lose nothing, then or later, and every other step can. */
  lemma SafeExactly(s: State, step: Step)
    requires Inv(s) && Enabled(s, step)
    ensures Safe(s, step) <==> !CanLose(Next(s, step))
  {
    if Safe(s, step) {
      StepKeeps(s, step);
      NeverLoses(Next(s, step));
    } else {
      match step
      case Fires(Launch(i, listed)) =>
        if s.scan.Some? {
          LaunchSticks(s, i, listed);
          StuckLoses(DoLaunch(s, i, listed));
        } else {
          LaunchTwice(s, i);
        }
      case Scans(ManualLaunch) => ManualSticks(s); StuckLoses(DoManualLaunch(s));
      case Scans(Notice) => NoticeDrops(s); Here(DoNotice(s));
      case Scans(StarterFails(m)) => FailureDrops(s, m); Here(DoStarterFails(s, m));
      case Holds(h, GiveUp) => GiveUpDeserts(s, h);
      case Releases(h, RequeueFolders) => RequeueIdles(s, h);
    }
  }

  /**
   In a reachable state a launch loses nothing if and only if the importer stopped, or the previous goroutine has sent
   its notice and the answer is no error, or starts are held by then.
   */
  lemma LaunchExactly(states: seq<State>, steps: seq<Step>, k: nat, i: nat, listed: bool)
    requires SafeRun(states, steps) && k < |states| && FireEnabled(states[k], Launch(i, listed))
    ensures var s := states[k];
            !CanLose(DoLaunch(s, i, listed)) <==> s.core.stopped || (s.scan.None? && (listed || s.holders != map[]))
  {
    RunKeeps(states, steps, k);
    SafeExactly(states[k], Step.Fires(Launch(i, listed)));
  }

  lemma ManualLaunchExactly(states: seq<State>, steps: seq<Step>, k: nat)
    requires SafeRun(states, steps) && k < |states| && states[k].opener.Some?
    ensures !CanLose(DoManualLaunch(states[k])) <==> states[k].core.stopped || states[k].scan.None?
  {
    RunKeeps(states, steps, k);
    SafeExactly(states[k], Scans(ManualLaunch));
  }

  /** A holder may stop waiting if and only if no watch scan runs, or another holder still waits for it to end. */
  lemma GiveUpExactly(states: seq<State>, steps: seq<Step>, k: nat, h: nat)
    requires SafeRun(states, steps) && k < |states| && HoldEnabled(states[k], h, GiveUp)
    ensures var s := states[k];
            !CanLose(DoWake(s, h)) <==> s.core.stopped || !WatchScan(s) || OtherBlocks(s.holders, h)
  {
    RunKeeps(states, steps, k);
    SafeExactly(states[k], Holds(h, GiveUp));
  }

  /** A folder change may return its batch if and only if the importer is on, or another holder has one to return. */
  lemma RequeueFoldersExactly(states: seq<State>, steps: seq<Step>, k: nat, h: nat)
    requires SafeRun(states, steps) && k < |states| && ReleaseEnabled(states[k], h, RequeueFolders)
    ensures var s := states[k];
            !CanLose(DoRequeueFolders(s, h)) <==>
            s.core.stopped || s.core.enabled || s.holders[h].batch == {} || OtherHasBatch(s.holders, h)
  {
    RunKeeps(states, steps, k);
    SafeExactly(states[k], Releases(h, RequeueFolders));
  }

  /**
   The finish notice drops a report unread if and only if the scan did not read it, a watch scan is neither asked to
   give its batch back nor superseded by a holder that saved it, no other full scan is to come, and nobody else has it.
   */
  lemma NoticeDropsExactly(states: seq<State>, steps: seq<Step>, k: nat, id: nat)
    requires SafeRun(states, steps) && k < |states| && ScanEnabled(states[k], Notice)
    requires !states[k].core.stopped && id in states[k].reports
    ensures var (s, scan) := (states[k], states[k].scan.value);
            id in DoNotice(s).reports && !Tracked(DoNotice(s), id, s.reports[id]) <==>
            !Accounted(scan) && !FullPending(Ended(s)) && !HeldElsewhere(Ended(s), id, s.reports[id])
  {
    var s := states[k];
    RunKeeps(states, steps, k);
    if !Accounted(s.scan.value) && !FullPending(Ended(s)) && !HeldElsewhere(Ended(s), id, s.reports[id]) {
      NoticeLoses(s, id);
    } else if id in DoNotice(s).reports {
      NoticeHolds(s, id);
    }
  }

  /**
   A full scan that started and failed drops a report if and only if no other full scan is to come and
   nobody else has the report.
   */
  lemma FullScanDropsExactly(states: seq<State>, steps: seq<Step>, k: nat, id: nat)
    requires SafeRun(states, steps) && k < |states| && ScanEnabled(states[k], Notice) && FullScan(states[k])
    requires !states[k].core.stopped && id in states[k].reports
    ensures var s := states[k];
            id in DoNotice(s).reports && !Tracked(DoNotice(s), id, s.reports[id]) <==>
            !s.scan.value.read && s.starters == {} && s.opener != Some(true) && !HeldElsewhere(Ended(s), id, s.reports[id])
  {
    NoticeDropsExactly(states, steps, k, id);
  }

  /** A full scan that fails to start drops a report if and only if it was left to it alone and nobody else has it. */
  lemma StarterFailsExactly(states: seq<State>, steps: seq<Step>, k: nat, m: nat, id: nat)
    requires SafeRun(states, steps) && k < |states| && m in states[k].starters
    requires !states[k].core.stopped && id in states[k].reports
    ensures var s := states[k];
            !Tracked(DoStarterFails(s, m), id, s.reports[id]) <==>
            s.starters == {m} && s.opener != Some(true) && !FullScan(s) && !Tracked(s.(owed := {}), id, s.reports[id])
  {
    var s := states[k];
    var t, u, dir := DoStarterFails(s, m), s.(owed := {}), s.reports[id];
    RunKeeps(states, steps, k);
    assert s.starters == {m} <==> s.starters - {m} == {};
    assert HolderTracks(t, dir) <==> HolderTracks(s, dir);
    assert HolderTracks(u, dir) <==> HolderTracks(s, dir);
  }
}
