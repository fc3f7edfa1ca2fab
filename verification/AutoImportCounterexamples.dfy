/** Concrete runs, one for each side condition of Safe, that lose a report or a wake-up once it is broken. */
module AutoImportCounterexamples {
  import opened Options
  import opened DirtyDirectories
  import opened AutoImportState
  import opened AutoImportProtocol
  import opened AutoImportInvariant
  import opened AutoImportTheorems
  import opened AutoImportPaths
  import opened AutoImportLosses

  const Music := Dir(["music"], false)

  lemma {:induction false} Then(states: seq<State>, steps: seq<Step>, step: Step) returns (more: seq<State>, taken: seq<Step>)
    requires Run(states, steps) && Enabled(states[|steps|], step)
    ensures Run(more, taken) && |taken| == |steps| + 1 && more[|taken|] == Next(states[|steps|], step)
    ensures taken[..|steps|] == steps && taken[|steps|] == step && more[..|states|] == states
    ensures SafeRun(states, steps) && Safe(states[|steps|], step) ==> SafeRun(more, taken)
  {
    more, taken := states + [Next(states[|steps|], step)], steps + [step];
    forall k | 0 <= k < |taken|
      ensures Enabled(more[k], taken[k]) && more[k + 1] == Next(more[k], taken[k])
      ensures SafeRun(states, steps) && Safe(states[|steps|], step) ==> Safe(more[k], taken[k])
    {
      if k < |steps| {
        assert states[k] == more[k] && states[k + 1] == more[k + 1] && steps[k] == taken[k];
      }
    }
  }

  /** A run goes on along a path. */
  lemma Continues(states: seq<State>, steps: seq<Step>, t: State) returns (more: seq<State>, taken: seq<Step>)
    requires Run(states, steps) && Reaches(states[|steps|], t)
    ensures Run(more, taken) && steps <= taken && more[|taken|] == t
  {
    var a, x :| Leads(a, x) && a[0] == states[|steps|] && a[|x|] == t;
    more, taken := states + a[1..], steps + x;
    forall k | 0 <= k < |taken| ensures Enabled(more[k], taken[k]) && more[k + 1] == Next(more[k], taken[k]) {
      if k < |steps| {
        assert more[k] == states[k] && more[k + 1] == states[k + 1] && taken[k] == steps[k];
      } else {
        assert taken[k] == x[k - |steps|] && more[k] == a[k - |steps|] && more[k + 1] == a[k - |steps| + 1];
      }
    }
    assert more[|taken|] == t;
  }

  /** After safe steps and one that is not, a run can go on to where something is lost. */
  lemma Loses(states: seq<State>, steps: seq<Step>, step: Step) returns (more: seq<State>, taken: seq<Step>)
    requires SafeRun(states, steps) && Enabled(states[|steps|], step) && !Safe(states[|steps|], step)
    ensures Run(more, taken) && steps + [step] <= taken && Lost(more[|taken|])
  {
    UnsafeLoses(states, steps, step);
    var a, x := Then(states, steps, step);
    var t :| Reaches(a[|x|], t) && Lost(t);
    more, taken := Continues(a, x, t);
    assert x == steps + [step];
  }

  lemma UnsafeLoses(states: seq<State>, steps: seq<Step>, step: Step)
    requires SafeRun(states, steps) && Enabled(states[|steps|], step) && !Safe(states[|steps|], step)
    ensures CanLose(Next(states[|steps|], step))
  {
    RunKeeps(states, steps, |steps|);
    SafeExactly(states[|steps|], step);
  }

  // ---------------------------------------------------------------- reachable states

  /** From a fresh importer to a fire that took {Videos}. */
  lemma ReachProbing() returns (states: seq<State>, steps: seq<Step>)
    ensures SafeRun(states, steps)
    ensures states[|steps|] == State(
      Core(true, false, true, {}, None, 1, false, true, false, 0, 0),
      map[1 := Probing({Videos}, 0, 1)], Some(1), None, map[], None, false, false, None, {}, None, map[0 := Videos], {}, 1)
  {
    states, steps := [Init], [];
    states, steps := Then(states, steps, Lives(Start(true)));
    states, steps := Then(states, steps, Step.Fires(Report(Some(Videos))));
    assert states[|steps|].core == Core(true, false, true, {Videos}, None, 1, true, false, false, 0, 0);
    assert states[|steps|].fires == map[1 := Waiting];
    assert NormalForm({Videos}, {Videos}) by {
      assert Covers(Videos, Videos);
    }
    states, steps := Then(states, steps, Step.Fires(TimerFires(1, {Videos})));
    assert states[|steps|].fires == map[1 := Probing({Videos}, 0, 1)];
  }

  /** The fire is about to call StartWatchScan with {Videos}. */
  lemma ReachCalling() returns (states: seq<State>, steps: seq<Step>)
    ensures SafeRun(states, steps)
    ensures states[|steps|] == State(
      Core(true, false, true, {}, Some({Videos}), 1, false, true, false, 0, 0),
      map[1 := Calling({Videos}, 0, 1)], Some(1), Some(1), map[], None, false, false, None, {}, None, map[0 := Videos], {}, 1)
  {
    states, steps := ReachProbing();
    states, steps := Then(states, steps, Step.Fires(Split(1, {Videos})));
    states, steps := Then(states, steps, Step.Fires(Check(1)));
  }

  /** The watch scan runs, and its fire has ended. */
  lemma ReachScanning() returns (states: seq<State>, steps: seq<Step>)
    ensures SafeRun(states, steps)
    ensures states[|steps|] == State(
      Core(true, false, true, {}, Some({Videos}), 1, false, false, false, 0, 0),
      map[], None, None, map[], None, false, true, None, {},
      Some(Watching({Videos}, 1, false, None, false, false)), map[0 := Videos], {}, 1)
  {
    states, steps := ReachCalling();
    states, steps := Then(states, steps, Step.Fires(OpenRow(1)));
    states, steps := Then(states, steps, Step.Fires(Launch(1, true)));
    states, steps := Then(states, steps, Step.Fires(Finish(1)));
  }

  /** A folder change that superseded the running scan and waits for it. */
  lemma ReachAwaiting() returns (states: seq<State>, steps: seq<Step>)
    ensures SafeRun(states, steps)
    ensures states[|steps|] == State(
      Core(true, false, true, {}, Some({Videos}), 1, false, false, false, 1, 0),
      map[], None, None, map[7 := Awaiting(false, {Videos})], None, false, true, None, {},
      Some(Watching({Videos}, 1, false, Some(7), false, false)), map[0 := Videos], {}, 1)
  {
    states, steps := ReachScanning();
    states, steps := Then(states, steps, Holds(7, HoldFolders));
    states, steps := Then(states, steps, Holds(7, Quiesce));
    states, steps := Then(states, steps, Holds(7, Clone));
    states, steps := Then(states, steps, Holds(7, SupersedeFor));
  }

  /** The same folder change once the scan ended without reading: it holds the batch. */
  lemma ReachHeld() returns (states: seq<State>, steps: seq<Step>)
    ensures SafeRun(states, steps)
    ensures states[|steps|] == State(
      Core(true, false, true, {}, None, 1, false, false, false, 1, 1),
      map[], None, None, map[7 := Held(false, {Videos})], None, false, false, None, {}, None, map[0 := Videos], {}, 1)
  {
    states, steps := ReachAwaiting();
    states, steps := Then(states, steps, Scans(CloseRow(false)));
    states, steps := Then(states, steps, Scans(Notice));
    states, steps := Then(states, steps, Holds(7, Wake));
    assert states[|steps|].reports == map[0 := Videos] && states[|steps|].owed == {};
  }

  lemma ReachSwitching() returns (states: seq<State>, steps: seq<Step>)
    ensures SafeRun(states, steps)
    ensures states[|steps|] == State(
      Core(true, false, true, {}, None, 1, false, false, false, 2, 1),
      map[], None, None, map[7 := Held(false, {Videos}), 8 := Cloning(true)], Some(8), false, false, None, {}, None,
      map[0 := Videos], {}, 1)
  {
    states, steps := ReachHeld();
    states, steps := Then(states, steps, Holds(8, HoldSwitch));
    states, steps := Then(states, steps, Holds(8, Quiesce));
  }

  /** The switch was turned off meanwhile. */
  lemma ReachHeldOff() returns (states: seq<State>, steps: seq<Step>)
    ensures SafeRun(states, steps) && states[|steps|].holders == map[7 := Held(false, {Videos})]
    ensures !states[|steps|].core.enabled && !states[|steps|].core.stopped
  {
    states, steps := ReachSwitching();
    states, steps := Then(states, steps, Holds(8, Clone));
    states, steps := Then(states, steps, Holds(8, SupersedeFor));
    states, steps := Then(states, steps, Releases(8, CommitOff));
  }

  /** A manual scan has closed its row and not sent its notice. */
  lemma ReachClosing() returns (states: seq<State>, steps: seq<Step>)
    ensures SafeRun(states, steps)
    ensures states[|steps|] == State(
      Core(true, false, true, {}, Some({Videos}), 1, false, true, false, 0, 0),
      map[1 := Calling({Videos}, 0, 1)], Some(1), Some(1), map[], None, false, false, None, {},
      Some(Manual(false, true, true)), map[0 := Videos], {}, 1)
  {
    states, steps := ReachCalling();
    states, steps := Then(states, steps, Scans(ManualOpen(false)));
    states, steps := Then(states, steps, Scans(ManualLaunch));
    states, steps := Then(states, steps, Scans(CloseRow(true)));
  }

  // ---------------------------------------------------------------- losses

  /** The start was answered as started, and the manual scan is still closing. */
  lemma ReachUnlaunched() returns (states: seq<State>, steps: seq<Step>)
    ensures Run(states, steps)
    ensures states[|steps|] == State(
      Core(true, false, true, {}, Some({Videos}), 1, false, true, false, 0, 0),
      map[1 := Closing], Some(1), None, map[], None, false, true, None, {},
      Some(Manual(false, true, true)), map[0 := Videos], {}, 1)
  {
    states, steps := ReachClosing();
    states, steps := Then(states, steps, Step.Fires(OpenRow(1)));
    states, steps := Then(states, steps, Step.Fires(Launch(1, true)));
  }

  lemma ReachDropped() returns (states: seq<State>, steps: seq<Step>)
    ensures Run(states, steps)
    ensures states[|steps|] == State(
      Core(true, false, true, {}, Some({Videos}), 1, false, false, false, 0, 1),
      map[], None, None, map[], None, false, true, None, {}, None, map[0 := Videos], {}, 1)
  {
    states, steps := ReachUnlaunched();
    states, steps := Then(states, steps, Scans(Notice));
    assert states[|steps|].reports == map[0 := Videos] && states[|steps|].owed == {};
    states, steps := Then(states, steps, Step.Fires(Finish(1)));
  }

  /**
   A launch answered "started" while a manual scan is closing: the batch stays in flight for ever, its report is held
   nowhere, and later directories are never looked at.
   */
  lemma DroppedLaunchLoses() returns (states: seq<State>, steps: seq<Step>)
    ensures Run(states, steps)
    ensures var t := states[|steps|];
            !WakeUp(t) && 0 in t.reports && !Tracked(t, 0, t.reports[0]) && Listens(t.core)
  {
    states, steps := ReachDropped();
    states, steps := Then(states, steps, Step.Fires(Report(Some(Music))));
    states, steps := Then(states, steps, Step.Fires(TimerFires(2, {})));
    var t := states[|steps|];
    assert t.core.dirty == {Music} && t.decider.None? && t.holders == map[] && t.owed == {};
  }

  /** A launch that answers an error although its scan runs. */
  lemma ErredLaunchLoses() returns (states: seq<State>, steps: seq<Step>)
    ensures Run(states, steps) && Lost(states[|steps|]) && Step.Fires(Launch(1, false)) in steps
  {
    states, steps := ReachCalling();
    states, steps := Then(states, steps, Step.Fires(OpenRow(1)));
    var before := steps + [Step.Fires(Launch(1, false))];
    states, steps := Loses(states, steps, Step.Fires(Launch(1, false)));
    assert steps[|before| - 1] == before[|before| - 1];
  }

  /** A manual start that launches nothing because the last scan is closing. */
  lemma ManualLaunchLoses() returns (states: seq<State>, steps: seq<Step>)
    ensures Run(states, steps) && Lost(states[|steps|])
  {
    states, steps := ReachClosing();
    states, steps := Then(states, steps, Scans(ManualOpen(true)));
    states, steps := Loses(states, steps, Scans(ManualLaunch));
  }

  /** A holder that stops waiting because its request was cancelled. */
  lemma GiveUpLoses() returns (states: seq<State>, steps: seq<Step>)
    ensures Run(states, steps) && Lost(states[|steps|]) && Holds(7, GiveUp) in steps
  {
    states, steps := ReachAwaiting();
    var before := steps + [Holds(7, GiveUp)];
    states, steps := Loses(states, steps, Holds(7, GiveUp));
    assert steps[|before| - 1] == before[|before| - 1];
  }

  /** A folder change whose batch comes back after the switch was turned off. */
  lemma RequeueWhileOffLoses() returns (states: seq<State>, steps: seq<Step>)
    ensures Run(states, steps) && Lost(states[|steps|])
  {
    states, steps := ReachHeldOff();
    states, steps := Loses(states, steps, Releases(7, RequeueFolders));
  }

  /** A watch scan that fails: its directories are not looked at again. */
  lemma FailedScanLoses() returns (states: seq<State>, steps: seq<Step>)
    ensures Run(states, steps) && Lost(states[|steps|])
  {
    states, steps := ReachScanning();
    states, steps := Then(states, steps, Scans(CloseRow(false)));
    var s := states[|steps|];
    assert 0 in s.reports && s.reports[0] == Videos && ScanTracks(s, 0, s.reports[0]) by {
      assert Covers(Videos, Videos);
    }
    assert !HeldElsewhere(s, 0, s.reports[0]) && !NoticeSpares(s);
    states, steps := Loses(states, steps, Scans(Notice));
  }

  /** A full manual start that superseded the watch scan, which left it the report. */
  lemma ReachOwed() returns (states: seq<State>, steps: seq<Step>)
    ensures SafeRun(states, steps) && Scans(SupersedeFull(3)) in steps
    ensures states[|steps|] == State(
      Core(true, false, true, {}, None, 1, false, false, false, 0, 1),
      map[], None, None, map[], None, false, false, None, {3}, None, map[0 := Videos], {0}, 1)
  {
    states, steps := ReachScanning();
    states, steps := Then(states, steps, Scans(SupersedeFull(3)));
    states, steps := Then(states, steps, Scans(CloseRow(false)));
    assert steps[|steps| - 2] == Scans(SupersedeFull(3));
    assert ScanTracks(states[|steps|], 0, Videos) by {
      assert Covers(Videos, Videos);
    }
    var cut := steps;
    states, steps := Then(states, steps, Scans(Notice));
    assert steps[|cut| - 2] == cut[|cut| - 2];
    assert states[|steps|].owed == {0} && states[|steps|].reports == map[0 := Videos];
  }

  /** A full manual start that supersedes the watch scan and then cannot be stored. */
  lemma FailedStartLoses() returns (states: seq<State>, steps: seq<Step>)
    ensures Run(states, steps) && Lost(states[|steps|]) && Scans(SupersedeFull(3)) in steps
  {
    states, steps := ReachOwed();
    var s := states[|steps|];
    assert s.starters - {3} == {} && !Tracked(s.(owed := {}), 0, Videos);
    var before := steps;
    states, steps := Loses(states, steps, Scans(StarterFails(3)));
    assert before <= steps;
  }

  /** The full scan starts, and then it fails. */
  lemma ReachFailing() returns (states: seq<State>, steps: seq<Step>)
    ensures SafeRun(states, steps) && Scans(CloseRow(false)) in steps
    ensures states[|steps|] == State(
      Core(true, false, true, {}, None, 1, false, false, false, 0, 1),
      map[], None, None, map[], None, false, false, None, {}, Some(Manual(true, true, false)), map[0 := Videos], {0}, 1)
  {
    states, steps := ReachFullScan();
    states, steps := Then(states, steps, Scans(CloseRow(false)));
    assert steps[|steps| - 1] == Scans(CloseRow(false));
  }

  lemma ReachFullScan() returns (states: seq<State>, steps: seq<Step>)
    ensures SafeRun(states, steps)
    ensures states[|steps|] == State(
      Core(true, false, true, {}, None, 1, false, false, false, 0, 1),
      map[], None, None, map[], None, false, true, None, {}, Some(Manual(true, false, false)), map[0 := Videos], {0}, 1)
  {
    states, steps := ReachOwed();
    states, steps := Then(states, steps, Scans(StarterOpens(3)));
    assert states[|steps|].starters == {};
    states, steps := Then(states, steps, Scans(ManualLaunch));
  }

  lemma FailedFullScanLoses() returns (states: seq<State>, steps: seq<Step>)
    ensures Run(states, steps) && Lost(states[|steps|])
  {
    states, steps := ReachFailing();
    var s := states[|steps|];
    assert !HeldElsewhere(Ended(s), 0, s.reports[0]) && !NoticeSpares(s);
    states, steps := Loses(states, steps, Scans(Notice));
  }
}
