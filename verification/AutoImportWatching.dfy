/**
 Watch generations: arm starts a goroutine per generation, armMu serialises what they do to the watcher,
 and SetEnabled(false) and Stop disarm outside armMu.  One step is one critical section or watcher call.
 */
module AutoImportWatching {
  import opened Options

  /** The goroutine of one generation, from listing the folders to releasing armMu. */
  datatype Arm =
    | Listing
    | Queued(roots: bool)
    | Locked(roots: bool)
    | Arming
    | Clearing
    | Armed(ok: bool)
    | Stale
    | Disarming
  {
    predicate OwnsArm() { !Listing? && !Queued? }
  }

  /** Who holds setMu, and what is left for it to do. */
  datatype Setting = Free | ToArm | ToDisarm

  datatype State = State(
    enabled: bool,
    stopped: bool,
    armGen: nat,
    arms: map<nat, Arm>,      // running goroutines by generation
    armMu: Option<nat>,
    setting: Setting,
    stopDisarm: bool,         // Stop's goroutine has still to disarm
    watches: Option<nat>,     // the generation whose watches are installed
    settled: Option<nat>)     // the last generation that finished with its watches installed

  /** Steps of the goroutine of generation g. */
  datatype ArmStep =
    | List(ok: bool, roots: bool)
    | Lock
    | Check
    | Install(ok: bool, left: bool)
    | Clear
    | After
    | ReadOff
    | Disarm

  datatype SetStep =
    | BeginOn
    | BeginRearm
    | ArmNext
    | BeginOff
    | OffDisarm
    | Stop
    | StopDisarm

  datatype Step = Arms(g: nat, arm: ArmStep) | Sets(set': SetStep)

  const Init := State(true, false, 0, map[], None, Free, false, None, None)

  predicate Off(s: State) { !s.enabled || s.stopped }

  predicate ArmEnabled(s: State, g: nat, step: ArmStep) {
    g in s.arms &&
    match step
    case List(_, _) => s.arms[g].Listing?
    case Lock => s.arms[g].Queued? && s.armMu.None?
    case Check => s.arms[g].Locked?
    case Install(_, _) => s.arms[g].Arming?
    case Clear => s.arms[g].Clearing?
    case After => s.arms[g].Armed?
    case ReadOff => s.arms[g].Stale?
    case Disarm => s.arms[g].Disarming?
  }

  predicate SetEnabled(s: State, step: SetStep) {
    match step
    case BeginOn => s.setting.Free? && !s.enabled
    case BeginRearm => s.setting.Free? && s.enabled && !s.stopped
    case ArmNext => s.setting.ToArm?
    case BeginOff => s.setting.Free? && s.enabled
    case OffDisarm => s.setting.ToDisarm?
    case Stop => !s.stopped
    case StopDisarm => s.stopDisarm
  }

  function To(s: State, g: nat, arm: Arm): State {
    s.(arms := s.arms[g := arm])
  }

  function Done(s: State, g: nat): State {
    s.(arms := s.arms - {g}, armMu := None)
  }

  function ArmNextState(s: State, g: nat, step: ArmStep): State
    requires ArmEnabled(s, g, step)
  {
    match step
    case List(ok, roots) => if ok then To(s, g, Queued(roots)) else s.(arms := s.arms - {g})
    case Lock => To(s, g, Locked(s.arms[g].roots)).(armMu := Some(g))
    case Check =>
      if g != s.armGen then To(s, g, Stale)
      else if s.arms[g].roots then To(s, g, Arming)
      else To(s, g, Clearing)
    case Install(ok, left) => To(s, g, Armed(ok)).(watches := if ok || left then Some(g) else None)
    case Clear => Done(s, g).(watches := None)
    case After =>
      if g != s.armGen then To(s, g, Stale)
      else Done(s, g).(settled := if s.arms[g].ok then Some(g) else s.settled)
    case ReadOff => if Off(s) then To(s, g, Disarming) else Done(s, g)
    case Disarm => Done(s, g).(watches := None)
  }

  function SetNextState(s: State, step: SetStep): State
    requires SetEnabled(s, step)
  {
    match step
    case BeginOn => s.(enabled := true, setting := ToArm)
    case BeginRearm => s.(setting := ToArm)
    case ArmNext =>
      if s.stopped then s.(setting := Free)
      else s.(setting := Free, armGen := s.armGen + 1, arms := s.arms[s.armGen + 1 := Listing])
    case BeginOff => s.(enabled := false, armGen := s.armGen + 1, setting := ToDisarm)
    case OffDisarm => s.(watches := None, setting := Free)
    case Stop => s.(stopped := true, armGen := s.armGen + 1, stopDisarm := true)
    case StopDisarm => s.(watches := None, stopDisarm := false)
  }

  predicate Enabled(s: State, step: Step) {
    match step
    case Arms(g, a) => ArmEnabled(s, g, a)
    case Sets(a) => SetEnabled(s, a)
  }

  function Next(s: State, step: Step): State
    requires Enabled(s, step)
  {
    match step
    case Arms(g, a) => ArmNextState(s, g, a)
    case Sets(a) => SetNextState(s, a)
  }

  ghost predicate Owners(s: State) {
    && (s.armMu.Some? ==> s.armMu.value in s.arms)
    && (forall g | g in s.arms :: g <= s.armGen && (s.arms[g].OwnsArm() <==> s.armMu == Some(g)))
  }

  function Owner(s: State): Arm {
    if s.armMu.Some? && s.armMu.value in s.arms then s.arms[s.armMu.value] else Listing
  }

  ghost predicate Inv(s: State) {
    && Owners(s)
    && (s.watches.Some? ==> s.watches.value <= s.armGen)
    && (Owner(s).Arming? && s.watches.Some? ==> s.watches.value <= s.armMu.value)
    && (s.setting.ToArm? ==> s.enabled)
    && (s.setting.ToDisarm? ==> !s.enabled)
    && (Off(s) ==> s.armGen !in s.arms)
    && (s.stopDisarm ==> s.stopped)
    && (Off(s) && s.watches.Some? ==>
          s.setting.ToDisarm? || s.stopDisarm || Owner(s).Armed? || Owner(s).Stale? || Owner(s).Disarming?)
    && (s.armMu == Some(s.armGen) && Owner(s).Armed? && Owner(s).ok ==> s.watches == Some(s.armGen))
    && (s.settled.Some? ==> s.settled.value <= s.armGen)
    && (s.settled == Some(s.armGen) ==> !Off(s) && s.watches == Some(s.armGen) && s.armGen !in s.arms)
    && (s.settled == Some(s.armGen) ==> !Owner(s).Disarming? && !Owner(s).Arming? && !Owner(s).Clearing?)
  }

  lemma ListKeeps(s: State, g: nat, ok: bool, roots: bool)
    requires Inv(s) && ArmEnabled(s, g, List(ok, roots))
    ensures Inv(ArmNextState(s, g, List(ok, roots)))
  {
    assert s.armMu != Some(g);
  }

  lemma LockKeeps(s: State, g: nat)
    requires Inv(s) && ArmEnabled(s, g, Lock)
    ensures Inv(ArmNextState(s, g, Lock))
  {
  }

  lemma CheckKeeps(s: State, g: nat)
    requires Inv(s) && ArmEnabled(s, g, Check)
    ensures Inv(ArmNextState(s, g, Check))
  {
  }

  lemma FinishingKeeps(s: State, g: nat, step: ArmStep)
    requires Inv(s) && ArmEnabled(s, g, step) && (step.Install? || step.Clear? || step.After? || step.ReadOff? || step.Disarm?)
    ensures Inv(ArmNextState(s, g, step))
  {
  }

  lemma ArmKeeps(s: State, g: nat, step: ArmStep)
    requires Inv(s) && ArmEnabled(s, g, step)
    ensures Inv(ArmNextState(s, g, step))
  {
    match step
    case List(ok, roots) => ListKeeps(s, g, ok, roots);
    case Lock => LockKeeps(s, g);
    case Check => CheckKeeps(s, g);
    case _ => FinishingKeeps(s, g, step);
  }

  lemma SetKeeps(s: State, step: SetStep)
    requires Inv(s) && SetEnabled(s, step)
    ensures Inv(SetNextState(s, step))
  {
  }

  lemma StepKeeps(s: State, step: Step)
    requires Inv(s) && Enabled(s, step)
    ensures Inv(Next(s, step))
  {
    match step
    case Arms(g, a) => ArmKeeps(s, g, a);
    case Sets(a) => SetKeeps(s, a);
  }

  ghost predicate Run(states: seq<State>, steps: seq<Step>) {
    |states| == |steps| + 1 && states[0] == Init &&
    forall k | 0 <= k < |steps| :: Enabled(states[k], steps[k]) && states[k + 1] == Next(states[k], steps[k])
  }

  lemma {:induction false} RunKeeps(states: seq<State>, steps: seq<Step>, k: nat)
    requires Run(states, steps) && k < |states|
    ensures Inv(states[k])
  {
    if k > 0 {
      RunKeeps(states, steps, k - 1);
      StepKeeps(states[k - 1], steps[k - 1]);
    }
  }

  /** A stale generation never replaces the watches of a newer one. */
  lemma NoStaleInstall(states: seq<State>, steps: seq<Step>, k: nat)
    requires Run(states, steps) && k < |steps| && steps[k].Arms? && steps[k].arm.Install? && states[k].watches.Some?
    ensures states[k].watches.value <= steps[k].g
  {
    RunKeeps(states, steps, k);
  }

  /** An importer that is off has no watch once no goroutine runs and no disarm is pending. */
  lemma OffMeansUnwatched(states: seq<State>, steps: seq<Step>, k: nat)
    requires Run(states, steps) && k < |states|
    requires Off(states[k]) && states[k].arms == map[] && !states[k].setting.ToDisarm? && !states[k].stopDisarm
    ensures states[k].watches.None?
  {
    RunKeeps(states, steps, k);
  }

  /** An importer that is on keeps the watches its latest generation installed. */
  lemma OnKeepsLatestWatches(states: seq<State>, steps: seq<Step>, k: nat)
    requires Run(states, steps) && k < |states|
    requires !Off(states[k]) && states[k].settled == Some(states[k].armGen)
    ensures states[k].watches == states[k].settled
  {
    RunKeeps(states, steps, k);
  }
}
