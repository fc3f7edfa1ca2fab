/**
 Paths of safe steps of the auto-import protocol, and how the parties that are under way finish: fires, scans and
 holders each end by steps of their own.
 */
module AutoImportPaths {
  import opened Options
  import opened DirtyDirectories
  import opened AutoImportState
  import opened AutoImportProtocol
  import opened AutoImportInvariant
  import opened AutoImportTheorems

  // ---------------------------------------------------------------- paths

  /** A path of safe steps. */
  ghost predicate Leads(states: seq<State>, steps: seq<Step>) {
    |states| == |steps| + 1 &&
    forall k | 0 <= k < |steps| ::
      Enabled(states[k], steps[k]) && Safe(states[k], steps[k]) && states[k + 1] == Next(states[k], steps[k])
  }

  /**
   A step by which a party that is under way goes on, and succeeds: nothing new is reported, opened, held or superseded.
   A switch that is being turned off may fail to be saved, so that there is still somebody to take what is dirty.
   */
  predicate Own(step: Step) {
    match step
    case Fires(f) => !f.Report? && !f.OpenFails? && (f.Launch? ==> f.listed)
    case Scans(c) => c.ManualLaunch? || c.Notice? || c == CloseRow(true) || c.StarterOpens?
    case Holds(_, x) => x.Quiesce? || x.Clone? || x.SupersedeFor? || x.Wake?
    case Releases(_, x) => !x.CommitOff?
    case Lives(_) => false
  }

  predicate AllOwn(steps: seq<Step>) {
    forall k | 0 <= k < |steps| :: Own(steps[k])
  }

  ghost predicate Reaches(s: State, t: State) {
    exists states, steps :: Leads(states, steps) && states[0] == s && states[|steps|] == t
  }

  /** Reached by steps of the parties that are under way alone. */
  ghost predicate Follows(s: State, t: State) {
    exists states, steps :: Leads(states, steps) && AllOwn(steps) && states[0] == s && states[|steps|] == t
  }

  lemma Here(s: State)
    ensures Reaches(s, s) && Follows(s, s)
  {
    assert Leads([s], []) && AllOwn([]);
  }

  lemma Extends(states: seq<State>, steps: seq<Step>, step: Step)
    requires Leads(states, steps) && Enabled(states[|steps|], step) && Safe(states[|steps|], step)
    ensures Leads(states + [Next(states[|steps|], step)], steps + [step])
  {
    var more, taken := states + [Next(states[|steps|], step)], steps + [step];
    forall k | 0 <= k < |taken|
      ensures Enabled(more[k], taken[k]) && Safe(more[k], taken[k]) && more[k + 1] == Next(more[k], taken[k]) {
      assert k < |steps| ==> more[k] == states[k] && more[k + 1] == states[k + 1] && taken[k] == steps[k];
    }
  }

  lemma Go(s: State, t: State, step: Step)
    requires Reaches(s, t) && Enabled(t, step) && Safe(t, step)
    ensures Reaches(s, Next(t, step))
  {
    var states, steps :| Leads(states, steps) && states[0] == s && states[|steps|] == t;
    Extends(states, steps, step);
    assert (states + [Next(t, step)])[|steps + [step]|] == Next(t, step);
  }

  lemma Follow(s: State, t: State, step: Step)
    requires Follows(s, t) && Enabled(t, step) && Safe(t, step) && Own(step)
    ensures Follows(s, Next(t, step))
  {
    var states, steps :| Leads(states, steps) && AllOwn(steps) && states[0] == s && states[|steps|] == t;
    Extends(states, steps, step);
    assert (states + [Next(t, step)])[|steps + [step]|] == Next(t, step) && AllOwn(steps + [step]);
  }

  lemma Appends(a: seq<State>, x: seq<Step>, b: seq<State>, y: seq<Step>)
    requires Leads(a, x) && Leads(b, y) && a[|x|] == b[0]
    ensures Leads(a + b[1..], x + y) && (a + b[1..])[|x + y|] == b[|y|]
  {
    var more, taken := a + b[1..], x + y;
    forall k | 0 <= k < |taken|
      ensures Enabled(more[k], taken[k]) && Safe(more[k], taken[k]) && more[k + 1] == Next(more[k], taken[k]) {
      if k < |x| {
        assert more[k] == a[k] && more[k + 1] == a[k + 1] && taken[k] == x[k];
      } else {
        assert taken[k] == y[k - |x|] && more[k + 1] == b[k - |x| + 1];
        assert more[k] == b[k - |x|];
      }
    }
  }

  lemma Joins(s: State, t: State, u: State)
    requires Reaches(s, t) && Reaches(t, u)
    ensures Reaches(s, u)
  {
    var a, x :| Leads(a, x) && a[0] == s && a[|x|] == t;
    var b, y :| Leads(b, y) && b[0] == t && b[|y|] == u;
    Appends(a, x, b, y);
  }

  lemma FollowsOn(s: State, t: State, u: State)
    requires Follows(s, t) && Follows(t, u)
    ensures Follows(s, u)
  {
    var a, x :| Leads(a, x) && AllOwn(x) && a[0] == s && a[|x|] == t;
    var b, y :| Leads(b, y) && AllOwn(y) && b[0] == t && b[|y|] == u;
    Appends(a, x, b, y);
    assert AllOwn(x + y);
  }

  lemma Start1(s: State, step: Step)
    requires Enabled(s, step) && Safe(s, step)
    ensures Reaches(s, Next(s, step))
  {
    Here(s);
    Go(s, s, step);
  }

  /** A step of its own, and on from there. */
  lemma Onward(s: State, step: Step, t: State)
    requires Enabled(s, step) && Safe(s, step) && Own(step) && Follows(Next(s, step), t)
    ensures Follows(s, t)
  {
    Here(s);
    Follow(s, s, step);
    FollowsOn(s, Next(s, step), t);
  }

  lemma {:induction false} PathKeeps(states: seq<State>, steps: seq<Step>, k: nat)
    requires Leads(states, steps) && k < |states| && Inv(states[0])
    ensures Inv(states[k])
  {
    if k > 0 {
      PathKeeps(states, steps, k - 1);
      StepKeeps(states[k - 1], steps[k - 1]);
    }
  }

  lemma ReachKeeps(s: State, t: State)
    requires Inv(s) && Reaches(s, t)
    ensures Inv(t)
  {
    var states, steps :| Leads(states, steps) && states[0] == s && states[|steps|] == t;
    PathKeeps(states, steps, |steps|);
  }

  lemma {:induction false} PathShapes(states: seq<State>, steps: seq<Step>, k: nat)
    requires Leads(states, steps) && k < |states| && Shape(states[0])
    ensures Shape(states[k])
  {
    if k > 0 {
      PathShapes(states, steps, k - 1);
      StepShape(states[k - 1], steps[k - 1]);
    }
  }

  lemma ReachShapes(s: State, t: State)
    requires Shape(s) && Reaches(s, t)
    ensures Shape(t)
  {
    var states, steps :| Leads(states, steps) && states[0] == s && states[|steps|] == t;
    PathShapes(states, steps, |steps|);
  }

  // ---------------------------------------------------------------- letting parties finish

  /** What letting others finish needs of a state. */
  ghost predicate Base(s: State) {
    && !s.core.stopped && FiresOk(s)
    && Gate(s.holders, s.core.holding, s.startMu, s.setMu) && (s.setMu.Some? ==> s.core.enabled)
  }

  /** What nobody changes while finishing. */
  ghost predicate Frame(s: State, t: State) {
    && t.core.stopped == s.core.stopped && t.core.started == s.core.started && t.core.enabled == s.core.enabled
    && s.core.dirty <= t.core.dirty && t.nextReport == s.nextReport
  }

  lemma NobodyStarts(s: State)
    requires FiresOk(s) && !Active(s).OwnsStart()
    ensures s.startMu.None?
  {
  }

  function FireRank(f: Fire): nat {
    match f
    case Waiting => 0
    case Probing(_, _, _) => 6
    case Deciding(_, _, _) => 5
    case Calling(_, _, _) => 4
    case Opened(_, _, _) => 3
    case Rejected(_, _, _, _) => 2
    case Closing => 1
  }

  function FireMove(s: State): FireStep
    requires s.decider.Some? && s.decider.value in s.fires
  {
    var i := s.decider.value;
    match s.fires[i]
    case Waiting => Finish(i)
    case Probing(batch, _, _) => Split(i, batch)
    case Deciding(_, _, _) => Check(i)
    case Calling(_, _, _) => OpenRow(i)
    case Opened(_, _, _) => Launch(i, true)
    case Rejected(_, _, _, _) => Reject(i)
    case Closing => Finish(i)
  }

  /** The fire goes on to its end without opening a row: the row is taken, or the importer off. */
  ghost predicate Barred(s: State) {
    !Active(s).Opened? && (Active(s).Calling? || s.core.enabled ==> s.row)
  }

  ghost predicate FireMoved(s: State, t: State) {
    && Frame(s, t) && t.holders == s.holders && t.setMu == s.setMu && t.scan == s.scan && t.row == s.row
    && t.opener == s.opener && t.core.holding == s.core.holding
    && t.starters == s.starters && t.owed == s.owed && t.reports == s.reports
    && FireRank(Active(t)) < FireRank(Active(s))
    && (!s.core.enabled && s.core.inflight.None? && !Active(s).OwnsStart() ==> t.core.inflight.None?)
  }

  lemma SplitMoves(s: State)
    requires Base(s) && s.decider.Some? && Active(s).Probing?
    ensures var t := DoSplit(s, s.decider.value, Active(s).batch); Base(t) && FireMoved(s, t) && !Active(t).Opened? && !Active(t).Calling?
  {
    var i := s.decider.value;
    assert s.fires[i].batch - s.fires[i].batch == {};
  }

  lemma CheckStarts(s: State, i: nat)
    requires Base(s) && s.decider == Some(i) && i in s.fires && s.fires[i].Deciding? && s.startMu.None? && MayStart(s.core)
    ensures Base(DoCheck(s, i)) && FireMoved(s, DoCheck(s, i)) && !Active(DoCheck(s, i)).Opened?
  {
  }

  lemma CheckStays(s: State, i: nat)
    requires Base(s) && s.decider == Some(i) && i in s.fires && s.fires[i].Deciding? && s.startMu.None? && !MayStart(s.core)
    ensures Base(DoCheck(s, i)) && FireMoved(s, DoCheck(s, i)) && !Active(DoCheck(s, i)).Opened?
  {
  }

  lemma CheckMoves(s: State)
    requires Base(s) && s.decider.Some? && Active(s).Deciding?
    ensures s.startMu.None?
    ensures var t := DoCheck(s, s.decider.value); Base(t) && FireMoved(s, t) && !Active(t).Opened?
  {
    NobodyStarts(s);
    if MayStart(s.core) {
      CheckStarts(s, s.decider.value);
    } else {
      CheckStays(s, s.decider.value);
    }
  }

  lemma CallMoves(s: State)
    requires Base(s) && Barred(s) && s.decider.Some? && Active(s).Calling?
    ensures var t := DoOpenRow(s, s.decider.value); Base(t) && Barred(t) && FireMoved(s, t)
  {
  }

  lemma RejectFrees(s: State, i: nat)
    requires FiresOk(s) && s.decider == Some(i) && i in s.fires && s.fires[i].Rejected?
    ensures FiresOk(DoReject(s, i)) && Active(DoReject(s, i)).Closing? && DoReject(s, i).startMu.None? && Frame(s, DoReject(s, i))
  {
    LetGoOwners(s, i);
    RejectEffect(s, i);
    RearmedFires(LetGo(s, i), DoReject(s, i));
  }

  lemma RejectMoves(s: State)
    requires Base(s) && s.decider.Some? && Active(s).Rejected?
    ensures var t := DoReject(s, s.decider.value); Base(t) && FireMoved(s, t) && !Active(t).Opened? && !Active(t).Calling?
  {
    RejectFrees(s, s.decider.value);
  }

  lemma FinishEnds(s: State)
    requires FiresOk(s) && s.decider.Some? && Active(s).Closing?
    ensures var t := DoFinish(s, s.decider.value);
            && FiresOk(t) && t.decider.None? && t.startMu == s.startMu && !t.core.rerun && Frame(s, t) && t.core.inflight == s.core.inflight
            && t == s.(core := t.core, fires := t.fires, decider := None) && t.core.holding == s.core.holding
            && t.core.dirty == s.core.dirty
  {
    var i := s.decider.value;
    FinishedOwners(s, i);
    FinishEffect(s, i);
    RearmedFires(Finished(s, i), DoFinish(s, i));
  }

  lemma FinishMoves(s: State)
    requires Base(s) && s.decider.Some? && Active(s).Closing?
    ensures var t := DoFinish(s, s.decider.value);
            Base(t) && FireMoved(s, t) && !Active(t).Opened? && !Active(t).Calling? && t.decider.None?
  {
    FinishEnds(s);
  }

  lemma FireMoves(s: State)
    requires Base(s) && Barred(s) && s.decider.Some?
    ensures Enabled(s, Step.Fires(FireMove(s))) && Safe(s, Step.Fires(FireMove(s))) && Own(Step.Fires(FireMove(s)))
    ensures var t := Next(s, Step.Fires(FireMove(s))); Base(t) && Barred(t) && FireMoved(s, t)
  {
    match Active(s)
    case Waiting =>
    case Probing(_, _, _) => SplitMoves(s);
    case Deciding(_, _, _) => CheckMoves(s);
    case Calling(_, _, _) => CallMoves(s);
    case Opened(_, _, _) =>
    case Rejected(_, _, _, _) => RejectMoves(s);
    case Closing => FinishMoves(s);
  }

  lemma {:induction false} FireDrains(s: State) returns (t: State)
    requires Base(s) && Barred(s)
    ensures Follows(s, t) && Base(t) && t.decider.None? && t.startMu.None?
    ensures Frame(s, t) && t.holders == s.holders && t.setMu == s.setMu && t.scan == s.scan && t.row == s.row && t.opener == s.opener
    ensures t.reports == s.reports
    ensures !s.core.enabled && s.core.inflight.None? && !Active(s).OwnsStart() ==> t.core.inflight.None?
    decreases FireRank(Active(s))
  {
    if s.decider.None? {
      Here(s);
      t := s;
      NobodyStarts(s);
    } else {
      FireMoves(s);
      t := FireDrains(Next(s, Step.Fires(FireMove(s))));
      Onward(s, Step.Fires(FireMove(s)), t);
    }
  }

  ghost predicate Known(s: State) {
    (forall id | id in s.reports :: id < s.nextReport) && (forall id | id in s.owed :: id < s.nextReport)
  }

  /** The scan under way, if it has only its notice to send, may send it. */
  ghost predicate Spared(s: State) {
    s.scan.Some? && s.scan.value.closed ==> NoticeSpares(s)
  }

  function ScanRank(s: State): nat {
    (if s.opener.Some? then 4 else 0) + if s.scan.None? then 0 else if s.scan.value.closed then 1 else 2
  }

  /** The scan took its batch before the report, and nobody else was left it. */
  ghost predicate After(s: State, id: nat) {
    id in s.reports && id !in s.owed && (WatchScan(s) ==> s.scan.value.cut <= id)
  }

  ghost predicate Spares(s: State, t: State) {
    forall id: nat | After(s, id) :: After(t, id) && t.reports[id] == s.reports[id]
  }

  ghost predicate Requeues(s: State) {
    WatchScan(s) && s.scan.value.requeue
  }

  /** Scans ended, and nothing else changed but what their notices do. */
  ghost predicate ScanMoved(s: State, t: State) {
    && Frame(s, t) && t.holders == s.holders && t.setMu == s.setMu && t.core.holding == s.core.holding
    && t.decider == s.decider && t.startMu == s.startMu && Active(t) == Active(s)
    && t.core.batching == s.core.batching && t.core.rerun == s.core.rerun
    && (s.core.inflight.None? || WatchScan(s) ==> t.core.inflight.None? || (WatchScan(t) && t.core.inflight == s.core.inflight))
    && (!Requeues(s) ==> !Requeues(t) && t.core.dirty == s.core.dirty)
    && (Known(s) ==> Known(t)) && Spares(s, t)
  }

  lemma CloseMoves(s: State)
    requires Base(s) && Row(s) && Unclosed(s)
    ensures var t := DoCloseRow(s, true); Base(t) && Row(t) && ScanMoved(s, t) && Spared(t)
  {
  }

  lemma NoticeRearms(s: State)
    requires ScanEnabled(s, Notice)
    ensures var t := DoNotice(s);
            && Rearmed(s, t) && t.holders == s.holders && t.setMu == s.setMu && t.core.holding == s.core.holding
            && Frame(s, t) && t.row == s.row && t.opener == s.opener && t.scan.None?
            && (s.core.inflight.None? || WatchScan(s) ==> t.core.inflight.None?)
            && (!Requeues(s) ==> t.core.dirty == s.core.dirty)
  {
    NoticeEffect(s);
  }

  lemma NoticeFrees(s: State)
    requires Base(s) && ScanEnabled(s, Notice)
    ensures var t := DoNotice(s); Base(t) && Active(t) == Active(s)
  {
    NoticeRearms(s);
    RearmedFires(s, DoNotice(s));
  }

  lemma NoticeMoves(s: State)
    requires Base(s) && Row(s) && ScanEnabled(s, Notice)
    ensures var t := DoNotice(s); Base(t) && Row(t) && ScanMoved(s, t)
  {
    NoticeRearms(s);
    RearmedFires(s, DoNotice(s));
    NoticeSpared(s);
  }

  lemma NoticeSpared(s: State)
    requires ScanEnabled(s, Notice)
    ensures Spares(s, DoNotice(s)) && (Known(s) ==> Known(DoNotice(s)))
  {
  }

  lemma ManualMoves(s: State)
    requires Base(s) && Row(s) && s.opener.Some? && s.scan.None?
    ensures var t := DoManualLaunch(s); Base(t) && Row(t) && ScanMoved(s, t) && ScanRank(t) < ScanRank(s) && Spared(t)
  {
    ManualEffect(s);
    ManualMoved(s, DoManualLaunch(s));
  }

  lemma ManualMoved(s: State, t: State)
    requires Base(s) && Row(s) && s.opener.Some? && s.scan.None?
    requires t == s.(opener := None, scan := t.scan, owed := t.owed) && t.owed <= s.owed
    requires t.scan == Some(Manual(s.opener.value, false, false))
    ensures Base(t) && Row(t) && ScanMoved(s, t) && ScanRank(t) < ScanRank(s)
  {
  }

  lemma MovedJoin(s: State, t: State, u: State)
    requires s == t || ScanMoved(s, t)
    requires ScanMoved(t, u)
    ensures ScanMoved(s, u)
  {
  }

  function ScanMove(s: State): Step
    requires s.scan.Some? || s.opener.Some?
  {
    Scans(if Unclosed(s) then CloseRow(true) else if s.scan.Some? then Notice else ManualLaunch)
  }

  lemma ScanMoves(s: State)
    requires Base(s) && Row(s) && Spared(s) && (s.scan.Some? || s.opener.Some?)
    ensures Enabled(s, ScanMove(s)) && Safe(s, ScanMove(s)) && Own(ScanMove(s))
    ensures var t := Next(s, ScanMove(s)); Base(t) && Row(t) && ScanMoved(s, t) && Spared(t) && ScanRank(t) < ScanRank(s)
  {
    if Unclosed(s) {
      CloseMoves(s);
    } else if s.scan.Some? {
      NoticeMoves(s);
    } else {
      ManualMoves(s);
    }
  }

  lemma {:induction false} ScansDrain(s: State) returns (t: State)
    requires Base(s) && Row(s) && Spared(s)
    ensures Follows(s, t) && Base(t) && Row(t) && t.scan.None? && t.opener.None?
    ensures s == t || ScanMoved(s, t)
    decreases ScanRank(s)
  {
    Here(s);
    t := s;
    if s.scan.Some? || s.opener.Some? {
      ScanMoves(s);
      var n := Next(s, ScanMove(s));
      t := ScansDrain(n);
      Onward(s, ScanMove(s), t);
      if n != t {
        MovedJoin(s, n, t);
      }
    }
  }

  // ---------------------------------------------------------------- holders leave

  /** With no fire and no scan, every holder can leave by safe steps. */
  ghost predicate Calm(s: State) {
    && Base(s) && s.decider.None? && s.startMu.None? && s.scan.None? && s.opener.None?
    && (s.core.enabled || (s.core.inflight.None? && !SomeHasBatch(s.holders)))
  }

  function HolderRank(h: Holder): nat {
    match h
    case Quiescing(_) => 6
    case Cloning(_) => 5
    case Superseding(_, _) => 4
    case Awaiting(_, _) => 3
    case Held(_, _) => 2
    case Changing(_) => 1
  }

  function HolderMove(s: State, h: nat): Step
    requires h in s.holders
  {
    match s.holders[h]
    case Quiescing(_) => Holds(h, Quiesce)
    case Cloning(_) => Holds(h, Clone)
    case Superseding(_, _) => Holds(h, SupersedeFor)
    case Awaiting(_, _) => Holds(h, Wake)
    case Held(switch, _) => Releases(h, if switch then RestoreOn else RequeueFolders)
    case Changing(_) => Releases(h, EndFolders)
  }

  ghost predicate HolderMoved(s: State, t: State, h: nat) {
    && Frame(s, t) && t.row == s.row && t.core.batching == s.core.batching && t.core.rerun == s.core.rerun
    && h in s.holders
    && (if h in t.holders
        then HolderRank(t.holders[h]) < HolderRank(s.holders[h]) && t.holders - {h} == s.holders - {h} && t.setMu == s.setMu
        else t.holders == s.holders - {h} && t.setMu.None?)
  }

  /** A holder goes on waiting, or holds an empty batch. */
  lemma WaitingFrame(s: State, h: nat)
    requires s.startMu.None? && s.scan.None? && h in s.holders && Blocks(s.holders[h]) && (s.core.enabled || s.core.inflight.None?)
    requires !s.core.enabled ==> !HasBatch(s.holders[h])
    ensures Enabled(s, HolderMove(s, h)) && Safe(s, HolderMove(s, h)) && Own(HolderMove(s, h))
    ensures var t := Next(s, HolderMove(s, h));
            && h in t.holders && t == s.(holders := s.holders[h := t.holders[h]]) && t.holders[h].switch == s.holders[h].switch
            && HolderRank(t.holders[h]) < HolderRank(s.holders[h]) && !t.holders[h].Changing?
            && (!s.core.enabled ==> !HasBatch(t.holders[h]))
  {
  }

  lemma WaitingMoves(s: State, h: nat)
    requires Calm(s) && h in s.holders && Blocks(s.holders[h])
    ensures Enabled(s, HolderMove(s, h)) && Safe(s, HolderMove(s, h))
    ensures var t := Next(s, HolderMove(s, h)); Calm(t) && HolderMoved(s, t, h) && h in t.holders
  {
    assert !s.core.enabled ==> !HasBatch(s.holders[h]);
    WaitingFrame(s, h);
    HolderMovedCalm(s, h, Next(s, HolderMove(s, h)).holders[h]);
  }

  lemma HolderMovedCalm(s: State, h: nat, to: Holder)
    requires Calm(s) && h in s.holders && to.switch == s.holders[h].switch && !to.Changing?
    requires HolderRank(to) < HolderRank(s.holders[h]) && (!s.core.enabled ==> !HasBatch(to))
    ensures var t := s.(holders := s.holders[h := to]); Calm(t) && HolderMoved(s, t, h)
  {
    var t := s.(holders := s.holders[h := to]);
    GateUpdate(s.holders, s.core.holding, s.startMu, s.setMu, h, to);
    assert t.holders - {h} == s.holders - {h};
    if !s.core.enabled {
      forall k | k in t.holders ensures !HasBatch(t.holders[k]) {
        assert !HasBatch(s.holders[k]);
      }
    }
  }

  lemma ReturnMoves(s: State, h: nat)
    requires Calm(s) && h in s.holders && s.holders[h].Held? && !s.holders[h].switch
    ensures Enabled(s, HolderMove(s, h)) && Safe(s, HolderMove(s, h))
    ensures var t := Next(s, HolderMove(s, h)); Calm(t) && HolderMoved(s, t, h) && h in t.holders
  {
    var t := Next(s, HolderMove(s, h));
    GateUpdate(s.holders, s.core.holding, s.startMu, s.setMu, h, t.holders[h]);
    if !s.core.enabled {
      assert !HasBatch(s.holders[h]);
      forall k | k in t.holders ensures !HasBatch(t.holders[k]) {
        assert !HasBatch(s.holders[k]);
      }
    }
  }

  lemma LeavingFrame(s: State, h: nat)
    requires s.setMu.None? || s.setMu == Some(h)
    requires h in s.holders && (s.holders[h].Changing? || (s.holders[h].Held? && s.holders[h].switch))
    requires s.holders[h].Changing? ==> s.setMu.None?
    ensures Enabled(s, HolderMove(s, h)) && Safe(s, HolderMove(s, h)) && Own(HolderMove(s, h))
    ensures Left(s, Next(s, HolderMove(s, h)), h, if s.holders[h].Held? then s.holders[h].batch else {})
  {
    if s.holders[h].Held? {
      RestoreEffect(s, h);
    } else {
      EndEffect(s, h);
    }
  }

  lemma LeavingCalm(s: State, t: State, h: nat, batch: set<Dir>)
    requires Calm(s) && Left(s, t, h, batch) && (s.setMu.None? || s.setMu == Some(h))
    requires !s.core.enabled ==> batch == {}
    ensures Calm(t) && HolderMoved(s, t, h)
  {
    RearmedFires(s, t);
    LeftGate(s, t, h, batch);
    if !s.core.enabled {
      forall k | k in t.holders ensures !HasBatch(t.holders[k]) {
        assert !HasBatch(s.holders[k]);
      }
    }
  }

  lemma LeavingMoves(s: State, h: nat)
    requires Calm(s) && h in s.holders && (s.setMu.None? || s.setMu == Some(h))
    requires s.holders[h].Changing? || (s.holders[h].Held? && s.holders[h].switch)
    requires s.holders[h].Changing? ==> s.setMu.None?
    ensures Enabled(s, HolderMove(s, h)) && Safe(s, HolderMove(s, h)) && Own(HolderMove(s, h))
    ensures var t := Next(s, HolderMove(s, h)); Calm(t) && HolderMoved(s, t, h)
  {
    LeavingFrame(s, h);
    assert !s.core.enabled ==> !HasBatch(s.holders[h]);
    LeavingCalm(s, Next(s, HolderMove(s, h)), h, if s.holders[h].Held? then s.holders[h].batch else {});
  }

  lemma HolderMoves(s: State, h: nat)
    requires Calm(s) && h in s.holders && (s.setMu.None? || s.setMu == Some(h))
    ensures Enabled(s, HolderMove(s, h)) && Safe(s, HolderMove(s, h)) && Own(HolderMove(s, h))
    ensures var t := Next(s, HolderMove(s, h)); Calm(t) && HolderMoved(s, t, h)
  {
    if Blocks(s.holders[h]) {
      WaitingMoves(s, h);
    } else if s.holders[h].Held? && !s.holders[h].switch {
      ReturnMoves(s, h);
    } else {
      LeavingMoves(s, h);
    }
  }

  lemma {:induction false} HolderDrains(s: State, h: nat) returns (t: State)
    requires Calm(s) && h in s.holders && (s.setMu.None? || s.setMu == Some(h))
    ensures Follows(s, t) && Calm(t) && t.holders == s.holders - {h} && t.setMu.None?
    ensures Frame(s, t) && t.row == s.row && t.core.batching == s.core.batching && t.core.rerun == s.core.rerun
    decreases HolderRank(s.holders[h])
  {
    HolderMoves(s, h);
    t := Next(s, HolderMove(s, h));
    Here(t);
    if h in t.holders {
      t := HolderDrains(t, h);
    }
    Onward(s, HolderMove(s, h), t);
  }

  lemma {:induction false} HoldersDrain(s: State) returns (t: State)
    requires Calm(s)
    ensures Follows(s, t) && Calm(t) && t.holders == map[] && t.setMu.None?
    ensures Frame(s, t) && t.row == s.row && t.core.batching == s.core.batching && t.core.rerun == s.core.rerun
    decreases |s.holders|
  {
    if s.holders == map[] {
      Here(s);
      t := s;
    } else {
      var h :| h in s.holders && (s.setMu.None? || s.setMu == Some(h));
      var n := HolderDrains(s, h);
      t := HoldersDrain(n);
      FollowsOn(s, n, t);
    }
  }
}
