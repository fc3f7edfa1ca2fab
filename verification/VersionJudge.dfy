/**
 Judging possible duplicates: results are applied, judging is switched and owed resets are run under one lock,
 while a connection is saved and its hook runs outside it.  Any storage call may fail, recovery's included, and the
 process may stop at any point and start again; a failed recovery is logged and the process goes on.
 */
module VersionJudge {
  type Pair = nat

  /** What the holder of the lock is about to do. */
  datatype Section =
    | Free
    | Switching(value: bool)
    | Deciding(pair: Pair, noConnection: bool)
    | Approved(pair: Pair, noConnection: bool)
    | Unsaved(pair: Pair)
    | Resetting
    | Seen(wasSaved: bool)
    | ResetDone

  /** Where a starting process is with its recovery; the server and the scheduler run from Recovered on. */
  datatype Boot = Recovered | Starting | Found(wasSaved: bool)

  /**
   The last two fields only record: whether this process logged that its recovery failed, and whether a connection was
   saved since it started.
   */
  datatype State = State(
    on: bool,
    saved: bool,
    section: Section,
    owed: bool,
    hooks: nat,
    noConnection: set<Pair>,
    boot: Boot,
    failed: bool,
    savedHere: bool)

  function Init(on: bool, saved: bool, noConnection: set<Pair>): State {
    State(on, saved, Free, false, 0, noConnection, Starting, false, false)
  }

  datatype Step =
    | BeginSwitch(value: bool)
    | CommitSwitch(ok: bool)
    | BeginRecord(pair: Pair, noConnection: bool)
    | ReadOn(ok: bool)
    | ReadSaved(ok: bool)
    | Apply(ok: bool)
    | BeginReset
    | ReadForReset(ok: bool)
    | Reset(ok: bool)
    | EndReset
    | SaveConnection
    | Hook
    | Crash
    | RecoverRead(ok: bool)
    | Recover(ok: bool)

  predicate Applies(section: Section) {
    section.Unsaved? || (section.Approved? && !section.noConnection)
  }

  predicate Enabled(s: State, step: Step) {
    match step
    case BeginSwitch(_) => s.section.Free?
    case CommitSwitch(_) => s.section.Switching?
    case BeginRecord(_, _) => s.section.Free? && s.boot.Recovered?
    case ReadOn(_) => s.section.Deciding?
    case ReadSaved(_) => s.section.Approved? && s.section.noConnection
    case Apply(_) => Applies(s.section)
    case BeginReset => s.section.Free? && s.owed
    case ReadForReset(_) => s.section.Resetting?
    case Reset(_) => s.section.Seen?
    case EndReset => s.section.ResetDone?
    case SaveConnection => s.boot.Recovered?
    case Hook => s.hooks > 0
    case Crash => true
    case RecoverRead(_) => s.boot.Starting?
    case Recover(_) => s.boot.Found?
  }

  function Next(s: State, step: Step): State
    requires Enabled(s, step)
  {
    match step
    case BeginSwitch(value) => s.(section := Switching(value))
    case CommitSwitch(ok) => s.(on := if ok then s.section.value else s.on, section := Free)
    case BeginRecord(pair, noConnection) => s.(section := Deciding(pair, noConnection))
    case ReadOn(ok) => s.(section := if ok && s.on then Approved(s.section.pair, s.section.noConnection) else Free)
    case ReadSaved(ok) => s.(section := if ok && !s.saved then Unsaved(s.section.pair) else Free)
    case Apply(ok) =>
      s.(section := Free,
         noConnection := if !ok then s.noConnection
                         else if s.section.Unsaved? then s.noConnection + {s.section.pair}
                         else s.noConnection - {s.section.pair})
    case BeginReset => s.(section := Resetting)
    case ReadForReset(ok) => s.(section := if ok then Seen(s.saved) else Free)
    case Reset(ok) =>
      if !s.section.wasSaved then s.(section := ResetDone)
      else if ok then s.(section := ResetDone, noConnection := {})
      else s.(section := Free)
    case EndReset => s.(section := Free, owed := false)
    case SaveConnection => s.(saved := true, hooks := s.hooks + 1, savedHere := true)
    case Hook => s.(hooks := s.hooks - 1, owed := true)
    case Crash => s.(section := Free, owed := false, hooks := 0, boot := Starting, failed := false, savedHere := false)
    case RecoverRead(ok) => if ok then s.(boot := Found(s.saved)) else s.(boot := Recovered, failed := true)
    case Recover(ok) =>
      if !s.boot.wasSaved then s.(boot := Recovered)
      else if ok then s.(boot := Recovered, noConnection := {})
      else s.(boot := Recovered, failed := true)
  }

  /** Someone will still return the pairs to waiting. */
  predicate Coming(s: State) {
    s.owed || s.hooks > 0
  }

  /** Pairs wait for a connection that is saved, and nobody will return them to waiting. */
  predicate Forgotten(s: State) {
    s.boot.Recovered? && s.saved && s.noConnection != {} && !Coming(s)
  }

  ghost predicate Inv(s: State) {
    && (Coming(s) ==> s.saved && s.savedHere)
    && (s.savedHere ==> s.boot.Recovered? && s.saved && (s.noConnection != {} ==> Coming(s)))
    && (s.saved && !s.savedHere && s.boot.Recovered? && !s.failed ==> s.noConnection == {})
    && (!s.boot.Recovered? ==> !s.failed)
    && (s.boot.Found? ==> s.boot.wasSaved == s.saved)
    && (!s.boot.Recovered? ==> !s.section.Deciding? && !s.section.Approved? && !s.section.Unsaved?)
    && match s.section
       case Approved(_, _) => s.on
       case Unsaved(_) => s.on && (s.saved ==> Coming(s))
       case Resetting => s.owed
       case Seen(wasSaved) => s.owed && wasSaved
       case ResetDone => s.owed && s.noConnection == {}
       case _ => true
  }

  lemma StepKeeps(s: State, step: Step)
    requires Inv(s) && Enabled(s, step)
    ensures Inv(Next(s, step))
  {
  }

  ghost predicate Run(states: seq<State>, steps: seq<Step>) {
    |states| == |steps| + 1 && Inv(states[0]) &&
    forall k | 0 <= k < |steps| :: Enabled(states[k], steps[k]) && states[k + 1] == Next(states[k], steps[k])
  }

  lemma Starts(on: bool, saved: bool, noConnection: set<Pair>)
    ensures Inv(Init(on, saved, noConnection))
  {
  }

  lemma {:induction false} RunKeeps(states: seq<State>, steps: seq<Step>, k: nat)
    requires Run(states, steps) && k < |states|
    ensures Inv(states[k])
  {
    if k > 0 {
      RunKeeps(states, steps, k - 1);
      StepKeeps(states[k - 1], steps[k - 1]);
    }
  }

  /** While judging is off, nothing is applied: between the two, someone turned judging on. */
  lemma {:induction false} NothingAppliedWhileOff(states: seq<State>, steps: seq<Step>, i: nat, k: nat) returns (j: nat)
    requires Run(states, steps) && i <= k < |steps| && !states[i].on && steps[k].Apply?
    ensures i <= j < k && steps[j] == CommitSwitch(true) && states[j].section == Switching(true)
  {
    RunKeeps(states, steps, k);
    j := TurnedOn(states, steps, i, k);
  }

  lemma {:induction false} TurnedOn(states: seq<State>, steps: seq<Step>, i: nat, k: nat) returns (j: nat)
    requires Run(states, steps) && i <= k < |steps| && !states[i].on && states[k].on
    ensures i <= j < k && steps[j] == CommitSwitch(true) && states[j].section == Switching(true)
    decreases k - i
  {
    assert Enabled(states[i], steps[i]) && states[i + 1] == Next(states[i], steps[i]);
    if states[i + 1].on {
      j := i;
    } else {
      j := TurnedOn(states, steps, i + 1, k);
    }
  }

  /**
   Pairs that wait for a saved connection are forgotten exactly when the recovery of the running process failed and no
   connection was saved since it started.
   */
  lemma ForgottenExactly(states: seq<State>, steps: seq<Step>, k: nat)
    requires Run(states, steps) && k < |states|
    requires states[k].boot.Recovered? && states[k].saved && states[k].noConnection != {}
    ensures Forgotten(states[k]) <==> states[k].failed && !states[k].savedHere
  {
    RunKeeps(states, steps, k);
  }

  /** While no recovery fails, no pair is ever forgotten. */
  lemma NoPairForgotten(states: seq<State>, steps: seq<Step>, k: nat)
    requires Run(states, steps) && k < |states|
    requires !states[0].failed && forall j | 0 <= j < k :: steps[j] != RecoverRead(false) && steps[j] != Recover(false)
    ensures !Forgotten(states[k])
  {
    RunKeeps(states, steps, k);
    NeverFailed(states, steps, k);
  }

  lemma {:induction false} NeverFailed(states: seq<State>, steps: seq<Step>, k: nat)
    requires Run(states, steps) && k < |states|
    requires !states[0].failed && forall j | 0 <= j < k :: steps[j] != RecoverRead(false) && steps[j] != Recover(false)
    ensures !states[k].failed
  {
    if k > 0 {
      NeverFailed(states, steps, k - 1);
    }
  }

  /** A connection is saved and nobody will return anything. */
  predicate Settled(s: State) {
    s.boot.Recovered? && s.saved && !Coming(s)
  }

  lemma SettledStep(s: State, step: Step)
    requires Inv(s) && Enabled(s, step) && Settled(s) && !step.SaveConnection? && !step.Crash?
    ensures Settled(Next(s, step)) && Next(s, step).noConnection <= s.noConnection
  {
  }

  /**
   Once forgotten, a pair stays so until a connection is saved again or the process stops, unless its judgement is
   recorded anew; and no other pair joins it.
   */
  lemma {:induction false} ForgottenStays(states: seq<State>, steps: seq<Step>, i: nat, k: nat)
    requires Run(states, steps) && i <= k < |states| && Forgotten(states[i])
    requires forall j | i <= j < k :: !steps[j].SaveConnection? && !steps[j].Crash?
    ensures Settled(states[k]) && states[k].noConnection <= states[i].noConnection
    ensures states[k].noConnection != {} ==> Forgotten(states[k])
    decreases k - i
  {
    if i < k {
      ForgottenStays(states, steps, i, k - 1);
      RunKeeps(states, steps, k - 1);
      SettledStep(states[k - 1], steps[k - 1]);
    }
  }

  lemma Then(states: seq<State>, steps: seq<Step>, step: Step) returns (more: seq<State>, taken: seq<Step>)
    requires Run(states, steps) && Enabled(states[|steps|], step)
    ensures Run(more, taken) && more[|taken|] == Next(states[|steps|], step) && more[0] == states[0]
  {
    more, taken := states + [Next(states[|steps|], step)], steps + [step];
    forall k | 0 <= k < |taken| ensures Enabled(more[k], taken[k]) && more[k + 1] == Next(more[k], taken[k]) {
      assert k < |steps| ==> more[k] == states[k] && more[k + 1] == states[k + 1] && taken[k] == steps[k];
    }
  }

  /** A process that recovered with nothing saved, and recorded a pair without a connection. */
  lemma ReachWaiting() returns (states: seq<State>, steps: seq<Step>)
    ensures Run(states, steps) && states[0] == Init(true, false, {})
    ensures states[|steps|] == State(true, false, Free, false, 0, {1}, Recovered, false, false)
  {
    Starts(true, false, {});
    states, steps := [Init(true, false, {})], [];
    states, steps := Then(states, steps, RecoverRead(true));
    states, steps := Then(states, steps, Recover(true));
    states, steps := Then(states, steps, BeginRecord(1, true));
    states, steps := Then(states, steps, ReadOn(true));
    states, steps := Then(states, steps, ReadSaved(true));
    states, steps := Then(states, steps, Apply(true));
  }

  /** A pair is left without a connection, one is saved, the process stops before its hook runs, and recovery fails. */
  lemma FailedRecoveryForgets() returns (states: seq<State>, steps: seq<Step>)
    ensures Run(states, steps) && states[0] == Init(true, false, {}) && Forgotten(states[|steps|])
  {
    states, steps := ReachWaiting();
    states, steps := Then(states, steps, SaveConnection);
    states, steps := Then(states, steps, Crash);
    states, steps := Then(states, steps, RecoverRead(false));
    assert 1 in states[|steps|].noConnection;
  }

  // ---------------------------------------------------------------- in place

  datatype Recording = Recorded | TurnedOff | SavedMidway | Failed

  /** The critical sections, with connections saved and hooks run between any two of their storage calls. */
  class Judge {
    var s: State

    constructor (s: State)
      requires Inv(s)
      ensures this.s == s
    {
      this.s := s;
    }

    method Others()
      requires Inv(s)
      modifies this
      ensures Inv(s) && s == old(s).(saved := s.saved, hooks := s.hooks, owed := s.owed, savedHere := s.savedHere)
      ensures (old(s).saved ==> s.saved) && (old(s).owed ==> s.owed)
    {
      var n: nat := *;
      while n > 0
        invariant Inv(s) && s == old(s).(saved := s.saved, hooks := s.hooks, owed := s.owed, savedHere := s.savedHere)
        invariant (old(s).saved ==> s.saved) && (old(s).owed ==> s.owed)
      {
        var hook: bool := *;
        var step := if hook then Hook else SaveConnection;
        if Enabled(s, step) {
          StepKeeps(s, step);
          s := Next(s, step);
        }
        n := n - 1;
      }
    }

    method Call(step: Step)
      requires Inv(s) && Enabled(s, step)
      modifies this
      ensures Inv(s) && s == Next(old(s), step)
    {
      StepKeeps(s, step);
      s := Next(s, step);
    }

    /**
     record: applied only while judging is on, and without a connection only while none is saved.  Each of its storage
     calls may fail on its own.
     */
    method Record(pair: Pair, noConnection: bool, readsOn: bool, readsSaved: bool, applies: bool) returns (answer: Recording)
      requires Inv(s) && s.section.Free? && s.boot.Recovered?
      modifies this
      ensures Inv(s) && s.section.Free? && s.on == old(s).on
      ensures answer.Recorded? ==> s.on && readsOn && applies && (noConnection ==> readsSaved && !old(s).saved)
      ensures answer.TurnedOff? <==> readsOn && !old(s).on
      ensures answer.SavedMidway? ==> s.on && s.saved && noConnection && readsSaved
      ensures answer.Failed? <==>
                !readsOn || (s.on && noConnection && !readsSaved) || (s.on && !answer.SavedMidway? && !applies)
      ensures s.noConnection == if !answer.Recorded? then old(s).noConnection
                                else if noConnection then old(s).noConnection + {pair} else old(s).noConnection - {pair}
    {
      Call(BeginRecord(pair, noConnection));
      Others();
      Call(ReadOn(readsOn));
      if s.section.Free? {
        return if readsOn then TurnedOff else Failed;
      }
      Others();
      if noConnection {
        Call(ReadSaved(readsSaved));
        if s.section.Free? {
          return if readsSaved then SavedMidway else Failed;
        }
        Others();
      }
      Call(Apply(applies));
      return if applies then Recorded else Failed;
    }

    /** resetOwed: once it clears the debt, no pair waits for a connection. */
    method ResetOwed(readable: bool, resets: bool)
      requires Inv(s) && s.section.Free?
      modifies this
      ensures Inv(s) && s.section.Free?
      ensures s.noConnection == old(s).noConnection || (old(s).owed && s.noConnection == {})
      ensures old(s).owed ==> if readable && resets then !s.owed && s.noConnection == {} else s.owed
    {
      if !s.owed {
        return;
      }
      Call(BeginReset);
      Others();
      Call(ReadForReset(readable));
      if s.section.Free? {
        return;
      }
      Others();
      Call(Reset(resets));
      if s.section.Free? {
        return;
      }
      Others();
      Call(EndReset);
    }

    method SaveEnabled(value: bool, commits: bool)
      requires Inv(s) && s.section.Free?
      modifies this
      ensures Inv(s) && s.section.Free? && s.noConnection == old(s).noConnection
      ensures s.on == if commits then value else old(s).on
    {
      Call(BeginSwitch(value));
      Others();
      Call(CommitSwitch(commits));
    }
  }
}
