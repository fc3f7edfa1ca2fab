/**
 Generation and deletion of content-addressed artifacts.  A generation locks its kind, then shares the
 content lock; lifecycle deletion takes the content lock exclusively and checks the references under it.
 The locks are one RW lock per key, as KeyedLocks.dfy shows.  Any number of threads, any keys.
 */
module ArtifactLifecycle {
  type Key = string

  datatype Kind = Thumbnail | SeekThumbnails | Preview

  datatype Phase =
    // A generation; given up once the caller stopped waiting.
    | WantKind(givenUp: bool)
    | WantContent(givenUp: bool)
    | Delivered(givenUp: bool)     // both locks held and in the channel
    | Running(published: bool)
    | Answering(cleanup: bool)     // the callback's last storage call is made, its answer is on the way
    | Unlocking(cleanup: bool)     // still holds both locks
    | UnlockingKind(cleanup: bool) // holds the kind lock only
    | Checking                     // the unlocked reference check after a generation
    // A deletion.
    | WantDelete
    | Announced                    // first in line: later readers wait behind it
    | Deleting                     // holds the content lock exclusively
    | Removing                     // saw no reference
    | Unlocked

  datatype Thread = Thread(key: Key, kind: Kind, phase: Phase)
  {
    predicate HoldsKind() { phase.WantContent? || SharesContent() || phase.UnlockingKind? }
    predicate SharesContent() { phase.Delivered? || phase.Running? || phase.Answering? || phase.Unlocking? }
    predicate OwnsContent() { phase.Deleting? || phase.Removing? || phase.Unlocked? }

    /** Will see to it that files of the key are removed if the key has no reference then. */
    predicate WillClean() {
      phase == Running(true) || phase == Answering(true) || phase == Unlocking(true) || phase == UnlockingKind(true) ||
      phase.Checking? || phase.WantDelete? || phase.Announced? || phase.Deleting? || phase.Removing?
    }
  }

  datatype State = State(threads: map<nat, Thread>, referenced: set<Key>, disk: set<(Key, Kind)>)

  datatype Step =
    | Begin(t: nat, key: Key, kind: Kind)
    | GrantKind(t: nat)
    | GrantContent(t: nat)
    | GiveUp(t: nat)
    | Take(t: nat)
    | Drain(t: nat)
    | Publish(t: nat)
    | Complete(t: nat, cleanup: bool)
    | Finish(t: nat)
    | UnlockContent(t: nat)
    | UnlockKind(t: nat)
    | EarlyCheck(t: nat)
    | Announce(t: nat)
    | GrantDelete(t: nat)
    | CheckReferences(t: nat)
    | Remove(t: nat)
    | EndDelete(t: nat)
    | Unreference(key: Key, t: nat)
    | Reference(key: Key)

  const Init := State(map[], {}, {})

  /** Why t has to wait for u, for the locks it asks for. */
  predicate Waits(t: Thread, u: Thread) {
    match t.phase
    case WantKind(_) => u.key == t.key && u.kind == t.kind && u.HoldsKind()
    case WantContent(_) => u.key == t.key && (u.OwnsContent() || u.phase.Announced?)
    case WantDelete => u.key == t.key && (u.OwnsContent() || u.phase.Announced?)
    case Announced => u.key == t.key && (u.OwnsContent() || u.SharesContent())
    case _ => false
  }

  ghost predicate Free(s: State, t: nat)
    requires t in s.threads
  {
    forall u | u in s.threads && u != t :: !Waits(s.threads[t], s.threads[u])
  }

  ghost predicate Enabled(s: State, step: Step) {
    match step
    case Begin(t, _, _) => t !in s.threads
    case GrantKind(t) => t in s.threads && s.threads[t].phase.WantKind? && Free(s, t)
    case GrantContent(t) => t in s.threads && s.threads[t].phase.WantContent? && Free(s, t)
    case GiveUp(t) => t in s.threads && (s.threads[t].phase.WantKind? || s.threads[t].phase.WantContent? || s.threads[t].phase.Delivered?)
    case Take(t) => t in s.threads && s.threads[t].phase == Delivered(false)
    case Drain(t) => t in s.threads && s.threads[t].phase == Delivered(true)
    case Publish(t) => t in s.threads && s.threads[t].phase.Running?
    case Complete(t, cleanup) => t in s.threads && s.threads[t].phase.Running? && MayAnswer(s, t, cleanup)
    case Finish(t) => t in s.threads && s.threads[t].phase.Answering?
    case UnlockContent(t) => t in s.threads && s.threads[t].phase.Unlocking?
    case UnlockKind(t) => t in s.threads && s.threads[t].phase.UnlockingKind?
    case EarlyCheck(t) => t in s.threads && s.threads[t].phase.Checking?
    case Announce(t) => t in s.threads && s.threads[t].phase.WantDelete? && Free(s, t)
    case GrantDelete(t) => t in s.threads && s.threads[t].phase.Announced? && Free(s, t)
    case CheckReferences(t) => t in s.threads && s.threads[t].phase.Deleting?
    case Remove(t) => t in s.threads && s.threads[t].phase.Removing?
    case EndDelete(t) => t in s.threads && s.threads[t].phase.Unlocked?
    case Unreference(key, t) => key in s.referenced && t !in s.threads
    case Reference(key) => key !in s.referenced
  }

  /**
   What a callback that published is going to answer: thumbnails and sprites always ask for cleanup; a preview asks when
   its completion was not applied, which it never is once the content is gone.  An applied one may lose its reference
   before the callback returns.
   */
  predicate MayAnswer(s: State, t: nat, cleanup: bool)
    requires t in s.threads && s.threads[t].phase.Running?
  {
    s.threads[t].phase.published ==>
      if s.threads[t].kind.Preview? then s.threads[t].key !in s.referenced ==> cleanup else cleanup
  }

  function To(s: State, t: nat, phase: Phase): State
    requires t in s.threads
  {
    s.(threads := s.threads[t := s.threads[t].(phase := phase)])
  }

  function Gone(s: State, t: nat): State {
    s.(threads := s.threads - {t})
  }

  ghost function Next(s: State, step: Step): State
    requires Enabled(s, step)
  {
    match step
    case Begin(t, key, kind) => s.(threads := s.threads[t := Thread(key, kind, WantKind(false))])
    case GrantKind(t) => To(s, t, WantContent(s.threads[t].phase.givenUp))
    case GrantContent(t) => To(s, t, Delivered(s.threads[t].phase.givenUp))
    case GiveUp(t) =>
      To(s, t, if s.threads[t].phase.WantKind? then WantKind(true)
               else if s.threads[t].phase.WantContent? then WantContent(true) else Delivered(true))
    case Take(t) => To(s, t, Running(false))
    case Drain(t) => To(s, t, Unlocking(false))
    case Publish(t) => To(s, t, Running(true)).(disk := s.disk + {(s.threads[t].key, s.threads[t].kind)})
    case Complete(t, cleanup) => To(s, t, Answering(cleanup))
    case Finish(t) => To(s, t, Unlocking(s.threads[t].phase.cleanup))
    case UnlockContent(t) => To(s, t, UnlockingKind(s.threads[t].phase.cleanup))
    case UnlockKind(t) => if s.threads[t].phase.cleanup then To(s, t, Checking) else Gone(s, t)
    case EarlyCheck(t) => if s.threads[t].key in s.referenced then Gone(s, t) else To(s, t, WantDelete)
    case Announce(t) => To(s, t, Announced)
    case GrantDelete(t) => To(s, t, Deleting)
    case CheckReferences(t) => To(s, t, if s.threads[t].key in s.referenced then Unlocked else Removing)
    case Remove(t) => To(s, t, Unlocked).(disk := set f | f in s.disk && f.0 != s.threads[t].key)
    case EndDelete(t) => Gone(s, t)
    case Unreference(key, t) =>
      s.(referenced := s.referenced - {key}, threads := s.threads[t := Thread(key, Thumbnail, WantDelete)])
    case Reference(key) => s.(referenced := s.referenced + {key})
  }

  // ---------------------------------------------------------------- locks

  /** What two threads may not hold together. */
  predicate Conflict(t: Thread, u: Thread) {
    t.key == u.key &&
    ((t.kind == u.kind && t.HoldsKind() && u.HoldsKind()) ||
     (t.OwnsContent() && (u.OwnsContent() || u.SharesContent())) ||
     (t.SharesContent() && u.OwnsContent()) ||
     (t.phase.Announced? && (u.phase.Announced? || u.OwnsContent())) ||
     (t.OwnsContent() && u.phase.Announced?))
  }

  ghost predicate Locked(s: State) {
    forall t, u | t in s.threads && u in s.threads && t != u :: !Conflict(s.threads[t], s.threads[u])
  }

  /** A thread that takes no lock cannot come into conflict. */
  predicate Weaker(to: Thread, from: Thread) {
    to.key == from.key && to.kind == from.kind &&
    (to.HoldsKind() ==> from.HoldsKind()) && (to.SharesContent() ==> from.SharesContent()) &&
    (to.OwnsContent() ==> from.OwnsContent()) && (to.phase.Announced? ==> from.phase.Announced?)
  }

  lemma GrantKeepsLocked(s: State, t: nat, phase: Phase)
    requires Locked(s) && t in s.threads && Free(s, t)
    requires match s.threads[t].phase
             case WantKind(_) => phase.WantContent?
             case WantContent(_) => phase.Delivered?
             case WantDelete => phase.Announced?
             case Announced => phase.Deleting?
             case _ => false
    ensures Locked(To(s, t, phase))
  {
    var n := To(s, t, phase);
    forall u | u in n.threads && u != t
      ensures !Conflict(n.threads[t], n.threads[u]) && !Conflict(n.threads[u], n.threads[t])
    {
      assert !Waits(s.threads[t], s.threads[u]);
      assert !Conflict(s.threads[t], s.threads[u]);
    }
  }

  lemma WeakerKeepsLocked(s: State, t: nat, phase: Phase)
    requires Locked(s) && t in s.threads && Weaker(s.threads[t].(phase := phase), s.threads[t])
    ensures Locked(To(s, t, phase))
  {
    var n := To(s, t, phase);
    forall u | u in n.threads && u != t
      ensures !Conflict(n.threads[t], n.threads[u]) && !Conflict(n.threads[u], n.threads[t])
    {
      assert !Conflict(s.threads[t], s.threads[u]) && !Conflict(s.threads[u], s.threads[t]);
    }
  }

  lemma NewKeepsLocked(s: State, t: nat, thread: Thread)
    requires Locked(s) && t !in s.threads && (thread.phase.WantKind? || thread.phase.WantDelete?)
    ensures Locked(s.(threads := s.threads[t := thread]))
  {
  }

  lemma LockedKeeps(s: State, step: Step)
    requires Locked(s) && Enabled(s, step)
    ensures Locked(Next(s, step))
  {
    match step
    case Begin(t, key, kind) => NewKeepsLocked(s, t, Thread(key, kind, WantKind(false)));
    case Unreference(key, t) => NewKeepsLocked(s, t, Thread(key, Thumbnail, WantDelete));
    case Reference(_) =>
    case GrantKind(t) => GrantKeepsLocked(s, t, WantContent(s.threads[t].phase.givenUp));
    case GrantContent(t) => GrantKeepsLocked(s, t, Delivered(s.threads[t].phase.givenUp));
    case Announce(t) => GrantKeepsLocked(s, t, Announced);
    case GrantDelete(t) => GrantKeepsLocked(s, t, Deleting);
    case EndDelete(_) =>
    case UnlockKind(t) => if s.threads[t].phase.cleanup { WeakerKeepsLocked(s, t, Checking); }
    case EarlyCheck(t) => if s.threads[t].key !in s.referenced { WeakerKeepsLocked(s, t, WantDelete); }
    case _ => MoveKeepsLocked(s, step);
  }

  /** The steps in which a thread goes on without taking a lock. */
  lemma MoveKeepsLocked(s: State, step: Step)
    requires Locked(s) && Enabled(s, step)
    requires step.GiveUp? || step.Take? || step.Drain? || step.Publish? || step.Complete? || step.Finish? || step.UnlockContent? ||
             step.CheckReferences? || step.Remove?
    ensures Locked(Next(s, step))
  {
    WeakerKeepsLocked(s, step.t, Next(s, step).threads[step.t].phase);
  }

  // ---------------------------------------------------------------- no artifact leaks

  ghost predicate Cleaner(s: State, key: Key) {
    exists t | t in s.threads :: s.threads[t].key == key && s.threads[t].WillClean()
  }

  /** Files of an unreferenced key always have a thread that will remove them. */
  ghost predicate NoLeak(s: State) {
    forall f | f in s.disk && f.0 !in s.referenced :: Cleaner(s, f.0)
  }

  lemma OtherCleaners(s: State, t: nat, phase: Phase)
    requires t in s.threads && NoLeak(s)
    requires s.threads[t].WillClean() ==> s.threads[t].(phase := phase).WillClean()
    ensures NoLeak(To(s, t, phase))
  {
    var n := To(s, t, phase);
    forall f | f in n.disk && f.0 !in n.referenced ensures Cleaner(n, f.0) {
      var u :| u in s.threads && s.threads[u].key == f.0 && s.threads[u].WillClean();
      assert n.threads[u].WillClean();
    }
  }

  /** t may stop cleaning when its key is referenced, or has no file left. */
  lemma MayStop(s: State, n: State, t: nat)
    requires NoLeak(s) && t in s.threads && n.disk <= s.disk && n.referenced == s.referenced
    requires forall u | u in s.threads && u != t :: u in n.threads && n.threads[u] == s.threads[u]
    requires !s.threads[t].WillClean() || s.threads[t].key in s.referenced || forall f | f in n.disk :: f.0 != s.threads[t].key
    ensures NoLeak(n)
  {
    forall f | f in n.disk && f.0 !in n.referenced ensures Cleaner(n, f.0) {
      var u :| u in s.threads && s.threads[u].key == f.0 && s.threads[u].WillClean();
      assert n.threads[u].WillClean();
    }
  }

  lemma PublishKeeps(s: State, t: nat)
    requires NoLeak(s) && t in s.threads && s.threads[t].phase.Running?
    ensures NoLeak(Next(s, Publish(t)))
  {
    var n := Next(s, Publish(t));
    OtherCleaners(s, t, Running(true));
    forall f | f in n.disk && f.0 !in n.referenced ensures Cleaner(n, f.0) {
      if f in s.disk {
        assert Cleaner(To(s, t, Running(true)), f.0);
      } else {
        assert n.threads[t].WillClean();
      }
    }
  }

  lemma UnreferenceKeeps(s: State, key: Key, t: nat)
    requires NoLeak(s) && t !in s.threads
    ensures NoLeak(Next(s.(referenced := s.referenced + {key}), Unreference(key, t)))
  {
    var n := Next(s.(referenced := s.referenced + {key}), Unreference(key, t));
    forall f | f in n.disk && f.0 !in n.referenced ensures Cleaner(n, f.0) {
      if f.0 == key {
        assert n.threads[t].WillClean();
      } else {
        var u :| u in s.threads && s.threads[u].key == f.0 && s.threads[u].WillClean();
        assert n.threads[u].WillClean();
      }
    }
  }

  lemma NoLeakKeeps(s: State, step: Step)
    requires NoLeak(s) && Enabled(s, step)
    ensures NoLeak(Next(s, step))
  {
    var n := Next(s, step);
    match step
    case Publish(t) => PublishKeeps(s, t);
    case Unreference(key, t) =>
      assert s.(referenced := s.referenced + {key}) == s;
      UnreferenceKeeps(s, key, t);
    case Begin(t, _, _) =>
      forall f | f in n.disk && f.0 !in n.referenced ensures Cleaner(n, f.0) {
        var u :| u in s.threads && s.threads[u].key == f.0 && s.threads[u].WillClean();
        assert n.threads[u].WillClean();
      }
    case Reference(_) =>
      forall f | f in n.disk && f.0 !in n.referenced ensures Cleaner(n, f.0) {
        assert Cleaner(s, f.0);
      }
    case Complete(t, cleanup) =>
      if cleanup { OtherCleaners(s, t, Answering(true)); } else { MayStop(s, n, t); }
    case UnlockKind(t) =>
      if s.threads[t].phase.cleanup { OtherCleaners(s, t, Checking); } else { MayStop(s, n, t); }
    case EarlyCheck(t) =>
      if s.threads[t].key in s.referenced { MayStop(s, n, t); } else { OtherCleaners(s, t, WantDelete); }
    case CheckReferences(t) =>
      if s.threads[t].key in s.referenced { MayStop(s, n, t); } else { OtherCleaners(s, t, Removing); }
    case Remove(t) => MayStop(s, n, t);
    case EndDelete(t) => MayStop(s, n, t);
    case _ => OtherCleaners(s, step.t, n.threads[step.t].phase);
  }

  /**
   A callback that published and then fails asks for no cleanup.  Nothing leaks exactly when its key is still
   referenced, or another thread will clean up after it.
   */
  lemma FailureAfterPublishExactly(s: State, t: nat)
    requires NoLeak(s) && t in s.threads && s.threads[t].phase == Running(true)
    requires (s.threads[t].key, s.threads[t].kind) in s.disk
    ensures NoLeak(To(s, t, Unlocking(false))) <==>
              s.threads[t].key in s.referenced ||
              exists u | u in s.threads && u != t :: s.threads[u].key == s.threads[t].key && s.threads[u].WillClean()
  {
    var n, key := To(s, t, Unlocking(false)), s.threads[t].key;
    var f := (key, s.threads[t].kind);
    if NoLeak(n) && f.0 !in s.referenced {
      assert Cleaner(n, f.0);
    }
    if exists u | u in s.threads && u != t :: s.threads[u].key == key && s.threads[u].WillClean() {
      forall g | g in n.disk && g.0 !in n.referenced ensures Cleaner(n, g.0) {
        var u :| u in s.threads && s.threads[u].key == g.0 && s.threads[u].WillClean() && (g.0 == key ==> u != t);
        assert n.threads[u].WillClean();
      }
    } else if key in s.referenced {
      MayStop(s, n, t);
    }
  }

  // ---------------------------------------------------------------- runs

  ghost predicate Run(states: seq<State>, steps: seq<Step>) {
    |states| == |steps| + 1 && states[0] == Init &&
    forall k | 0 <= k < |steps| :: Enabled(states[k], steps[k]) && states[k + 1] == Next(states[k], steps[k])
  }

  lemma {:induction false} RunKeeps(states: seq<State>, steps: seq<Step>, k: nat)
    requires Run(states, steps) && k < |states|
    ensures Locked(states[k]) && NoLeak(states[k])
  {
    if k > 0 {
      RunKeeps(states, steps, k - 1);
      LockedKeeps(states[k - 1], steps[k - 1]);
      NoLeakKeeps(states[k - 1], steps[k - 1]);
    }
  }

  /** Lifecycle deletion of a key overlaps no generation of that key, and no other deletion. */
  lemma DeletionIsAlone(states: seq<State>, steps: seq<Step>, k: nat, t: nat, u: nat)
    requires Run(states, steps) && k < |states|
    requires t in states[k].threads && states[k].threads[t].OwnsContent()
    requires u in states[k].threads && u != t && states[k].threads[u].key == states[k].threads[t].key
    ensures !states[k].threads[u].SharesContent() && !states[k].threads[u].OwnsContent()
  {
    RunKeeps(states, steps, k);
    assert !Conflict(states[k].threads[t], states[k].threads[u]);
  }

  /** Two generations of one kind of one content never run together. */
  lemma KindIsExclusive(states: seq<State>, steps: seq<Step>, k: nat, t: nat, u: nat)
    requires Run(states, steps) && k < |states| && t != u
    requires t in states[k].threads && states[k].threads[t].phase.Running?
    requires u in states[k].threads && states[k].threads[u].phase.Running?
    ensures (states[k].threads[t].key, states[k].threads[t].kind) != (states[k].threads[u].key, states[k].threads[u].kind)
  {
    RunKeeps(states, steps, k);
    assert !Conflict(states[k].threads[t], states[k].threads[u]);
  }

  /** An unreferenced key with no generation or deletion left has no file on disk. */
  lemma NothingLeaks(states: seq<State>, steps: seq<Step>, k: nat, key: Key, kind: Kind)
    requires Run(states, steps) && k < |states| && key !in states[k].referenced
    requires forall t | t in states[k].threads :: states[k].threads[t].key != key
    ensures (key, kind) !in states[k].disk
  {
    RunKeeps(states, steps, k);
    assert (key, kind) in states[k].disk ==> Cleaner(states[k], (key, kind).0);
  }

  // ---------------------------------------------------------------- waiting

  /** Kind before content, and the shared lock dropped before the exclusive one: every wait goes down. */
  function Rank(t: Thread): nat {
    match t.phase
    case WantKind(_) => 3
    case WantContent(_) => 2
    case WantDelete => 2
    case Announced => 1
    case _ => 0
  }

  ghost predicate WaitChain(s: State, chain: seq<nat>) {
    (forall i | 0 <= i < |chain| :: chain[i] in s.threads) &&
    forall i | 0 <= i < |chain| - 1 :: Waits(s.threads[chain[i]], s.threads[chain[i + 1]])
  }

  lemma {:induction false} ChainsDescend(s: State, chain: seq<nat>, i: nat, j: nat)
    requires WaitChain(s, chain) && i < j < |chain|
    ensures Rank(s.threads[chain[j]]) < Rank(s.threads[chain[i]])
  {
    assert Waits(s.threads[chain[j - 1]], s.threads[chain[j]]);
    if i < j - 1 {
      ChainsDescend(s, chain, i, j - 1);
    }
  }

  /** The wait-for relation has no cycle, so no set of threads waits for itself. */
  lemma NoDeadlock(s: State, chain: seq<nat>)
    requires WaitChain(s, chain)
    ensures forall i, j | 0 <= i < j < |chain| :: chain[i] != chain[j]
    ensures |chain| <= 4
  {
    forall i: nat, j: nat | i < j < |chain| ensures chain[i] != chain[j] {
      ChainsDescend(s, chain, i, j);
    }
    if |chain| > 4 {
      ChainsDescend(s, chain, 0, 1);
      ChainsDescend(s, chain, 1, 2);
      ChainsDescend(s, chain, 2, 3);
      ChainsDescend(s, chain, 3, 4);
    }
  }

  // ---------------------------------------------------------------- cancelled acquisitions

  /** Where a thread can be once its caller gave up. */
  predicate GivenUp(phase: Phase) {
    phase in {WantKind(true), WantContent(true), Delivered(true), Unlocking(false), UnlockingKind(false)}
  }

  /** The thread is there in every state from i to k. */
  ghost predicate Alive(states: seq<State>, t: nat, i: nat, k: nat) {
    forall j | i <= j <= k && j < |states| :: t in states[j].threads
  }

  function Count(steps: seq<Step>, step: Step, i: nat, k: nat): nat
    requires i <= k <= |steps|
    decreases k - i
  {
    if i == k then 0 else Count(steps, step, i, k - 1) + if steps[k - 1] == step then 1 else 0
  }

  lemma GivenUpStep(s: State, step: Step, t: nat)
    requires Enabled(s, step) && t in s.threads && GivenUp(s.threads[t].phase)
    ensures t in Next(s, step).threads <==> step != UnlockKind(t)
    ensures t in Next(s, step).threads ==> GivenUp(Next(s, step).threads[t].phase)
    ensures step == UnlockContent(t) ==> s.threads[t].phase.Unlocking? && Next(s, step).threads[t].phase.UnlockingKind?
    ensures step == UnlockKind(t) ==> s.threads[t].phase.UnlockingKind?
    ensures s.threads[t].phase.UnlockingKind? && step != UnlockKind(t) ==> Next(s, step).threads[t].phase.UnlockingKind?
    ensures t in Next(s, step).threads && Next(s, step).threads[t].phase.UnlockingKind? ==>
              s.threads[t].phase.UnlockingKind? || step == UnlockContent(t)
  {
  }

  /** A thread whose caller gave up never runs, and has unlocked its content once exactly when only its kind is left. */
  lemma {:induction false} GivenUpNeverRuns(states: seq<State>, steps: seq<Step>, t: nat, i: nat, k: nat)
    requires Run(states, steps) && i <= k < |states| && Alive(states, t, i, k) && GivenUp(states[i].threads[t].phase)
    requires !states[i].threads[t].phase.UnlockingKind?
    ensures GivenUp(states[k].threads[t].phase)
    ensures Count(steps, UnlockKind(t), i, k) == 0
    ensures Count(steps, UnlockContent(t), i, k) == if states[k].threads[t].phase.UnlockingKind? then 1 else 0
    decreases k - i
  {
    if i < k {
      GivenUpNeverRuns(states, steps, t, i, k - 1);
      GivenUpStep(states[k - 1], steps[k - 1], t);
    }
  }

  /** When it is gone, it has unlocked its content once and its kind once: the acquisition is released exactly once. */
  lemma ReleasedOnce(states: seq<State>, steps: seq<Step>, t: nat, i: nat, k: nat)
    requires Run(states, steps) && i <= k && k + 1 < |states| && Alive(states, t, i, k) && t !in states[k + 1].threads
    requires states[i].threads[t].phase in {WantKind(true), WantContent(true), Delivered(true)}
    ensures Count(steps, UnlockContent(t), i, k + 1) == 1 && Count(steps, UnlockKind(t), i, k + 1) == 1
  {
    GivenUpNeverRuns(states, steps, t, i, k);
    GivenUpStep(states[k], steps[k], t);
  }

  // ---------------------------------------------------------------- a leak

  lemma Then(states: seq<State>, steps: seq<Step>, step: Step) returns (more: seq<State>, taken: seq<Step>)
    requires Run(states, steps) && Enabled(states[|steps|], step)
    ensures Run(more, taken) && more[|taken|] == Next(states[|steps|], step)
  {
    more, taken := states + [Next(states[|steps|], step)], steps + [step];
    forall k | 0 <= k < |taken| ensures Enabled(more[k], taken[k]) && more[k + 1] == Next(more[k], taken[k]) {
      assert k < |steps| ==> more[k] == states[k] && more[k + 1] == states[k + 1] && taken[k] == steps[k];
    }
  }

  lemma ReachDelivered() returns (states: seq<State>, steps: seq<Step>)
    ensures Run(states, steps) && states[|steps|] == State(map[1 := Thread("k", SeekThumbnails, Delivered(false))], {}, {})
  {
    states, steps := [Init], [];
    states, steps := Then(states, steps, Begin(1, "k", SeekThumbnails));
    states, steps := Then(states, steps, GrantKind(1));
    states, steps := Then(states, steps, GrantContent(1));
  }

  /**
   A generation of a content that is not referenced any more publishes its file and then fails: the file has no
   reference, and nobody is left to remove it.
   */
  lemma FailureLeaks() returns (states: seq<State>, steps: seq<Step>, t: nat)
    ensures Run(states, steps) && t in states[|steps|].threads && states[|steps|].threads[t].phase == Running(true)
    ensures NoLeak(states[|steps|]) && !NoLeak(To(states[|steps|], t, Unlocking(false)))
  {
    t := 1;
    states, steps := ReachDelivered();
    states, steps := Then(states, steps, Take(1));
    states, steps := Then(states, steps, Publish(1));
    RunKeeps(states, steps, |steps|);
    assert ("k", SeekThumbnails) in states[|steps|].disk;
    FailureAfterPublishExactly(states[|steps|], 1);
  }
}
