/**
 One instance per machine, found with two named mutexes: a global one that the instance owns and a local one per
 session that marks where it runs.  Any number of processes of any sessions take their steps, one kernel call
 each, in any order, and may exit at any point; what an exiting process has is closed and abandoned one by one, in
 any order.  The class runs acquireInstance against this kernel, with any steps of the others between its calls.
 */
module Instance {
  datatype Answer = Acquired | Activated | OtherSession | StillRunning | Error

  /** Where a process is in acquireInstance; closing comes with the answer it will give. */
  datatype Pc =
    | Start
    | HasLocal
    | Existed
    | LocalClosed
    | SameSession
    | Waiting
    | Closing(answer: Answer)
    | ClosingLocal(answer: Answer)
    | Done(answer: Answer)
    | Exiting

  datatype Process = Process(session: nat, pc: Pc)

  /** A mutex exists while someone has a handle; only the global one is ever owned. */
  datatype State = State(procs: map<nat, Process>, globals: set<nat>, locals: set<nat>, owner: set<nat>)

  const Init := State(map[], {}, {}, {})

  datatype Step =
    | Spawn(p: nat, session: nat)
    | Exit(p: nat)
    | DropLocal(p: nat)
    | DropGlobal(p: nat)
    | Abandon(p: nat)
    | Vanish(p: nat)
    | CreateLocal(p: nat)
    | CreateGlobal(p: nat)
    | CloseLocal(p: nat)
    | CheckLocal(p: nat)
    | Fail(p: nat)
    | Activate(p: nat)
    | Wait(p: nat)
    | GiveUp(p: nat)
    | CloseGlobal(p: nat)

  predicate At(s: State, p: nat, pc: Pc) {
    p in s.procs && s.procs[p].pc == pc
  }

  predicate Enabled(s: State, step: Step) {
    match step
    case Spawn(p, _) => p !in s.procs
    case Exit(p) => p in s.procs && !s.procs[p].pc.Exiting?
    case DropLocal(p) => At(s, p, Exiting) && p in s.locals
    case DropGlobal(p) => At(s, p, Exiting) && p in s.globals
    case Abandon(p) => At(s, p, Exiting) && p in s.owner
    case Vanish(p) => At(s, p, Exiting) && p !in s.locals && p !in s.globals && p !in s.owner
    case CreateLocal(p) => At(s, p, Start) || At(s, p, SameSession)
    case CreateGlobal(p) => At(s, p, HasLocal)
    case CloseLocal(p) => At(s, p, Existed) || (p in s.procs && s.procs[p].pc.ClosingLocal?)
    case CheckLocal(p) => At(s, p, LocalClosed)
    case Fail(p) => At(s, p, Start) || At(s, p, HasLocal) || At(s, p, SameSession) || At(s, p, Waiting)
    case Activate(p) => At(s, p, Waiting)
    case Wait(p) => At(s, p, Waiting)
    case GiveUp(p) => At(s, p, Waiting)
    case CloseGlobal(p) => p in s.procs && s.procs[p].pc.Closing?
  }

  function Goto(s: State, p: nat, pc: Pc): State
    requires p in s.procs
  {
    s.(procs := s.procs[p := s.procs[p].(pc := pc)])
  }

  predicate LocalExists(s: State, session: nat) {
    exists q | q in s.locals :: q in s.procs && s.procs[q].session == session
  }

  /** Creating the mutex grants it; finding it does not. */
  function DoCreateGlobal(s: State, p: nat): State
    requires p in s.procs
  {
    if s.globals == {} then Goto(s, p, Done(Acquired)).(globals := {p}, owner := s.owner + {p})
    else Goto(s, p, Existed).(globals := s.globals + {p})
  }

  /** Waiting succeeds when nobody owns the mutex, released or abandoned. */
  function DoWait(s: State, p: nat): State
    requires p in s.procs
  {
    if s.owner == {} then Goto(s, p, Done(Acquired)).(owner := {p}) else s
  }

  function DoFail(s: State, p: nat): State
    requires p in s.procs
  {
    var pc := s.procs[p].pc;
    Goto(s, p, if pc.Start? then Done(Error) else if pc.HasLocal? then ClosingLocal(Error) else Closing(Error))
  }

  function DoCloseLocal(s: State, p: nat): State
    requires p in s.procs
  {
    var pc := s.procs[p].pc;
    Goto(s, p, if pc.ClosingLocal? then Done(pc.answer) else LocalClosed).(locals := s.locals - {p})
  }

  /** The mutex goes with its last handle; until then its owner stays. */
  function WithoutGlobal(s: State, p: nat): State {
    s.(globals := s.globals - {p}, owner := if s.globals - {p} == {} then {} else s.owner)
  }

  function DoCloseGlobal(s: State, p: nat): State
    requires p in s.procs && s.procs[p].pc.Closing?
  {
    var answer := s.procs[p].pc.answer;
    Goto(WithoutGlobal(s, p), p, if p in s.locals then ClosingLocal(answer) else Done(answer))
  }

  function Next(s: State, step: Step): State
    requires Enabled(s, step)
  {
    var p := step.p;
    match step
    case Spawn(_, session) => s.(procs := s.procs[p := Process(session, Start)])
    case Exit(_) => Goto(s, p, Exiting)
    case DropLocal(_) => s.(locals := s.locals - {p})
    case DropGlobal(_) => WithoutGlobal(s, p)
    case Abandon(_) => s.(owner := s.owner - {p})
    case Vanish(_) => s.(procs := s.procs - {p})
    case CreateLocal(_) =>
      Goto(s, p, if s.procs[p].pc.Start? then HasLocal else Waiting).(locals := s.locals + {p})
    case CreateGlobal(_) => DoCreateGlobal(s, p)
    case CloseLocal(_) => DoCloseLocal(s, p)
    case CheckLocal(_) => Goto(s, p, if LocalExists(s, s.procs[p].session) then SameSession else Closing(OtherSession))
    case Fail(_) => DoFail(s, p)
    case Activate(_) => Goto(s, p, Closing(Activated))
    case Wait(_) => DoWait(s, p)
    case GiveUp(_) => Goto(s, p, Closing(StillRunning))
    case CloseGlobal(_) => DoCloseGlobal(s, p)
  }

  // ---------------------------------------------------------------- what every step keeps

  /** The handles and the ownership of a process follow from where it is. */
  predicate HandlesOk(pc: Pc, global: bool, local: bool, owns: bool) {
    match pc
    case Start => !global && !local && !owns
    case HasLocal => !global && local && !owns
    case Existed => global && local && !owns
    case LocalClosed => global && !local && !owns
    case SameSession => global && !local && !owns
    case Waiting => global && local && !owns
    case Closing(answer) => global && !owns && !answer.Acquired?
    case ClosingLocal(answer) => !global && local && !owns && !answer.Acquired?
    case Done(answer) => if answer.Acquired? then global && local && owns else !global && !local && !owns
    case Exiting => true
  }

  ghost predicate Handles(s: State) {
    forall p | p in s.procs :: HandlesOk(s.procs[p].pc, p in s.globals, p in s.locals, p in s.owner)
  }

  ghost predicate OneOwner(s: State) {
    && s.globals <= s.procs.Keys && s.locals <= s.procs.Keys && s.owner <= s.procs.Keys
    && (s.globals == {} ==> s.owner == {})
    && forall p, q | p in s.owner && q in s.owner :: p == q
  }

  ghost predicate Inv(s: State) {
    Handles(s) && OneOwner(s)
  }

  /** A process that runs and owns the mutex has a handle, so that it stays the owner while others close theirs. */
  lemma WithoutGlobalKeeps(s: State, p: nat)
    requires Inv(s) && p in s.procs && (p in s.owner ==> s.procs[p].pc.Exiting?)
    ensures forall q | q in s.procs && q != p && !s.procs[q].pc.Exiting? :: q in WithoutGlobal(s, p).owner <==> q in s.owner
  {
    forall q | q in s.procs && q != p && !s.procs[q].pc.Exiting? && q in s.owner ensures q in s.globals - {p} {
      assert HandlesOk(s.procs[q].pc, q in s.globals, q in s.locals, q in s.owner);
    }
  }

  lemma StepHandles(s: State, step: Step)
    requires Inv(s) && Enabled(s, step)
    ensures Handles(Next(s, step))
  {
    var n := Next(s, step);
    if step.DropGlobal? || step.CloseGlobal? {
      assert HandlesOk(s.procs[step.p].pc, step.p in s.globals, step.p in s.locals, step.p in s.owner);
      WithoutGlobalKeeps(s, step.p);
    }
    forall p | p in n.procs ensures HandlesOk(n.procs[p].pc, p in n.globals, p in n.locals, p in n.owner) {
      assert p in s.procs ==> HandlesOk(s.procs[p].pc, p in s.globals, p in s.locals, p in s.owner);
      assert p != step.p ==> p in s.procs && n.procs[p] == s.procs[p];
    }
  }

  lemma StepOwner(s: State, step: Step)
    requires Inv(s) && Enabled(s, step)
    ensures OneOwner(Next(s, step))
  {
    assert step.p in s.procs ==>
             HandlesOk(s.procs[step.p].pc, step.p in s.globals, step.p in s.locals, step.p in s.owner);
  }

  lemma StepKeeps(s: State, step: Step)
    requires Inv(s) && Enabled(s, step)
    ensures Inv(Next(s, step))
  {
    StepHandles(s, step);
    StepOwner(s, step);
  }

  ghost predicate Run(states: seq<State>, steps: seq<Step>) {
    |states| == |steps| + 1 && states[0] == Init &&
    forall k | 0 <= k < |steps| :: Enabled(states[k], steps[k]) && states[k + 1] == Next(states[k], steps[k])
  }

  lemma {:induction false} RunKeeps(states: seq<State>, steps: seq<Step>, k: nat)
    requires Run(states, steps) && k < |states|
    ensures Inv(states[k])
  {
    if k > 0 {
      RunKeeps(states, steps, k - 1);
      StepKeeps(states[k - 1], steps[k - 1]);
    }
  }

  // ---------------------------------------------------------------- the theorems

  /** Of the processes alive, at most one was answered Acquired; it owns the global mutex. */
  lemma OneInstance(states: seq<State>, steps: seq<Step>, k: nat, p: nat, q: nat)
    requires Run(states, steps) && k < |states| && At(states[k], p, Done(Acquired))
    ensures states[k].owner == {p}
    ensures At(states[k], q, Done(Acquired)) ==> p == q
  {
    RunKeeps(states, steps, k);
  }

  /** A process that owns the global mutex and is not exiting. */
  predicate Runs(s: State, p: nat) {
    p in s.owner && p in s.procs && !s.procs[p].pc.Exiting?
  }

  /** An owner that is not exiting was answered Acquired, and marks its session. */
  lemma OwnerIsMarked(states: seq<State>, steps: seq<Step>, k: nat, p: nat)
    requires Run(states, steps) && k < |states| && Runs(states[k], p)
    ensures At(states[k], p, Done(Acquired)) && p in states[k].locals && LocalExists(states[k], states[k].procs[p].session)
  {
    RunKeeps(states, steps, k);
    assert HandlesOk(states[k].procs[p].pc, p in states[k].globals, p in states[k].locals, p in states[k].owner);
  }

  /** A process is told of another session only if no process of its own session had the instance then. */
  lemma OtherSessionMeans(states: seq<State>, steps: seq<Step>, k: nat, q: nat)
    requires Run(states, steps) && k < |steps| && steps[k].CheckLocal?
    requires At(states[k + 1], steps[k].p, Closing(OtherSession)) && Runs(states[k], q)
    ensures states[k].procs[steps[k].p].session != states[k].procs[q].session
  {
    OwnerIsMarked(states, steps, k, q);
    assert q in states[k].locals;
  }

  /** All who gave up, or were answered otherwise, left no handle behind. */
  lemma AnsweredLeavesNothing(states: seq<State>, steps: seq<Step>, k: nat, p: nat)
    requires Run(states, steps) && k < |states| && p in states[k].procs
    requires states[k].procs[p].pc.Done? && states[k].procs[p].pc != Done(Acquired)
    ensures p !in states[k].globals && p !in states[k].locals && p !in states[k].owner
  {
    RunKeeps(states, steps, k);
  }

  /** Told of another session, that session has the instance if and only if a process that is not exiting has it. */
  lemma OtherSessionExactly(states: seq<State>, steps: seq<Step>, k: nat)
    requires Run(states, steps) && k < |steps| && steps[k].CheckLocal?
    requires At(states[k + 1], steps[k].p, Closing(OtherSession))
    ensures var (s, p) := (states[k], steps[k].p);
            (exists q | q in s.owner :: At(s, q, Done(Acquired)) && s.procs[q].session != s.procs[p].session) <==>
            exists q | q in s.owner :: Runs(s, q)
  {
    RunKeeps(states, steps, k);
    var s := states[k];
    if q :| q in s.owner && Runs(s, q) {
      OtherSessionMeans(states, steps, k, q);
      OwnerIsMarked(states, steps, k, q);
    }
  }

  lemma Then(states: seq<State>, steps: seq<Step>, step: Step) returns (more: seq<State>, taken: seq<Step>)
    requires Run(states, steps) && Enabled(states[|steps|], step)
    ensures Run(more, taken) && more[|taken|] == Next(states[|steps|], step) && taken == steps + [step]
  {
    more, taken := states + [Next(states[|steps|], step)], steps + [step];
    forall k | 0 <= k < |taken| ensures Enabled(more[k], taken[k]) && more[k + 1] == Next(more[k], taken[k]) {
      assert k < |steps| ==> more[k] == states[k] && more[k + 1] == states[k + 1] && taken[k] == steps[k];
    }
  }

  /** Process 2 found the instance, process 1 of its own session, which then began to exit. */
  lemma ReachExiting() returns (states: seq<State>, steps: seq<Step>)
    ensures Run(states, steps)
    ensures states[|steps|] == State(map[1 := Process(7, Exiting), 2 := Process(7, Existed)], {1, 2}, {1, 2}, {1})
  {
    states, steps := ReachInstance();
    states, steps := Then(states, steps, Spawn(2, 7));
    states, steps := Then(states, steps, CreateLocal(2));
    states, steps := Then(states, steps, CreateGlobal(2));
    states, steps := Then(states, steps, Exit(1));
  }

  lemma ReachInstance() returns (states: seq<State>, steps: seq<Step>)
    ensures Run(states, steps) && states[|steps|] == State(map[1 := Process(7, Done(Acquired))], {1}, {1}, {1})
  {
    states, steps := [Init], [];
    states, steps := Then(states, steps, Spawn(1, 7));
    states, steps := Then(states, steps, CreateLocal(1));
    states, steps := Then(states, steps, CreateGlobal(1));
  }

  /** The answer does not say that another session has the instance: it may just have exited. */
  lemma OtherSessionMayBeAlone() returns (states: seq<State>, steps: seq<Step>)
    ensures Run(states, steps) && states[|steps|].owner == {}
    ensures At(states[|steps|], 2, Closing(OtherSession)) && states[|steps|].procs.Keys == {2}
  {
    states, steps := ReachExiting();
    states, steps := Then(states, steps, Abandon(1));
    states, steps := Then(states, steps, DropGlobal(1));
    states, steps := Then(states, steps, DropLocal(1));
    states, steps := Then(states, steps, Vanish(1));
    assert states[|steps|] == State(map[2 := Process(7, Existed)], {2}, {2}, {});
    states, steps := Then(states, steps, CloseLocal(2));
    states, steps := Then(states, steps, CheckLocal(2));
  }

  /** Nor that the owner is of another session: its mark may be closed before it has given the mutex up. */
  lemma OwnSessionMayStillExit() returns (states: seq<State>, steps: seq<Step>)
    ensures Run(states, steps) && states[|steps|].owner == {1} && states[|steps|].procs.Keys == {1, 2}
    ensures At(states[|steps|], 2, Closing(OtherSession)) && states[|steps|].procs[1].session == states[|steps|].procs[2].session
  {
    states, steps := ReachExiting();
    states, steps := Then(states, steps, DropLocal(1));
    states, steps := Then(states, steps, CloseLocal(2));
    assert states[|steps|].locals == {};
    states, steps := Then(states, steps, CheckLocal(2));
  }

  // ---------------------------------------------------------------- one process

  class Kernel {
    var s: State
    const me: nat

    ghost predicate Valid()
      reads this
    {
      Inv(s) && me in s.procs
    }

    constructor (s: State, me: nat)
      requires Inv(s) && At(s, me, Start)
      ensures Valid() && this.s == s && this.me == me
    {
      this.s, this.me := s, me;
    }

    /** Any steps of the other processes; they do not touch what this one has. */
    method Others()
      requires Valid()
      modifies this`s
      ensures Valid() && s.procs[me] == old(s.procs[me])
    {
      var n: nat := *;
      while n > 0
        invariant Valid() && s.procs[me] == old(s.procs[me])
      {
        var step: Step := *;
        if step.p != me && Enabled(s, step) {
          StepKeeps(s, step);
          s := Next(s, step);
        }
        n := n - 1;
      }
    }

    /** One kernel call of this process. */
    method Call(step: Step)
      requires Valid() && step.p == me && !step.Exit? && !step.Vanish? && Enabled(s, step)
      modifies this`s
      ensures Valid() && s == Next(old(s), step)
    {
      StepKeeps(s, step);
      s := Next(s, step);
    }

    /** Closes what is held, in the code's order. */
    method Release()
      requires Valid() && s.procs[me].pc.Closing?
      modifies this`s
      ensures Valid() && s.procs[me] == old(s.procs[me]).(pc := Done(old(s.procs[me].pc.answer)))
    {
      Call(CloseGlobal(me));
      Others();
      if s.procs[me].pc.ClosingLocal? {
        Call(CloseLocal(me));
      }
    }

    /**
     acquireInstance, given which calls fail, at which polls a window answers or waiting breaks, and how many polls
     fit in the wait.  Each answer is the one the process is at, so what the theorems say of that place holds of
     the answer.
     */
    method AcquireInstance(fails: seq<bool>, window: nat, broken: nat, polls: nat) returns (answer: Answer)
      requires Valid() && s.procs[me].pc.Start? && |fails| == 3
      modifies this`s
      ensures Valid() && s.procs[me] == old(s.procs[me]).(pc := Done(answer))
      ensures answer.Acquired? ==> s.owner == {me} && me in s.globals && me in s.locals
      ensures !answer.Acquired? ==> me !in s.owner && me !in s.globals && me !in s.locals
    {
      Create(fails[0], fails[1]);
      if s.procs[me].pc.Done? {
        return s.procs[me].pc.answer;
      }
      answer := Contend(fails[2], window, broken, polls);
    }

    /** Both mutexes are created, or one call fails; the global one may be there already. */
    method Create(localFails: bool, globalFails: bool)
      requires Valid() && s.procs[me].pc.Start?
      modifies this`s
      ensures Valid() && s.procs[me].session == old(s.procs[me].session)
      ensures s.procs[me].pc == Existed || s.procs[me].pc == Done(Acquired) || s.procs[me].pc == Done(Error)
    {
      Others();
      if localFails {
        Call(Fail(me));
        return;
      }
      Call(CreateLocal(me));
      Others();
      if globalFails {
        Call(Fail(me));
        Others();
        Call(CloseLocal(me));
      } else {
        Call(CreateGlobal(me));
      }
    }

    /** The global mutex exists: tell whether an instance of this session has it, and if so wait for it. */
    method Contend(fails: bool, window: nat, broken: nat, polls: nat) returns (answer: Answer)
      requires Valid() && s.procs[me].pc.Existed?
      modifies this`s
      ensures Valid() && s.procs[me] == old(s.procs[me]).(pc := Done(answer))
    {
      Others();
      Call(CloseLocal(me));
      Others();
      Call(CheckLocal(me));
      if s.procs[me].pc.Closing? {
        Release();
        return OtherSession;
      }
      Others();
      if fails {
        Call(Fail(me));
        Release();
        return Error;
      }
      Call(CreateLocal(me));
      answer := Poll(window, broken, polls);
    }

    method Poll(window: nat, broken: nat, polls: nat) returns (answer: Answer)
      requires Valid() && s.procs[me].pc.Waiting?
      modifies this`s
      ensures Valid() && s.procs[me] == old(s.procs[me]).(pc := Done(answer))
    {
      var polled := 0;
      while true
        invariant Valid() && s.procs[me] == old(s.procs[me]) && s.procs[me].pc.Waiting? && polled <= polls
        decreases polls - polled
      {
        Others();
        if polled == window {
          Call(Activate(me));
          Release();
          return Activated;
        }
        if polled == broken {
          Call(Fail(me));
          Release();
          return Error;
        }
        Call(Wait(me));
        if s.procs[me].pc.Done? {
          return Acquired;
        }
        if polled == polls {
          Call(GiveUp(me));
          Release();
          return StillRunning;
        }
        polled := polled + 1;
      }
    }
  }
}
