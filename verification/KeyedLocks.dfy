/**
 Reference-counted locks per key: acquire finds or creates the key's entry and counts a user, release
 discards the entry with its last user.  The class does this in place; the machine below interleaves any
 number of threads over entries with identity and shows that the whole is one RW lock per key.
 */
module KeyedLocks {
  class KeyedLock {
    var users: nat

    constructor ()
      ensures users == 0
    {
      users := 0;
    }
  }

  class KeyedLockMap<K(==)> {
    var locks: map<K, KeyedLock>

    /** Only used entries are kept, and no two keys share one. */
    ghost predicate Valid()
      reads this, locks.Values
    {
      (forall k | k in locks :: locks[k].users > 0) &&
      forall j, k | j in locks && k in locks && j != k :: locks[j] != locks[k]
    }

    constructor ()
      ensures Valid() && locks == map[]
    {
      locks := map[];
    }

    method Acquire(key: K) returns (entry: KeyedLock)
      requires Valid()
      modifies this, if key in locks then {locks[key]} else {}
      ensures Valid() && key in locks && locks[key] == entry
      ensures key in old(locks) ==> locks == old(locks) && entry.users == old(entry.users) + 1
      ensures key !in old(locks) ==> fresh(entry) && entry.users == 1 && locks == old(locks)[key := entry]
    {
      if key in locks {
        entry := locks[key];
      } else {
        entry := new KeyedLock();
        locks := locks[key := entry];
      }
      entry.users := entry.users + 1;
    }

    method Release(key: K, entry: KeyedLock)
      requires Valid() && key in locks && locks[key] == entry
      modifies this, entry
      ensures Valid() && entry.users == old(entry.users) - 1
      ensures old(entry.users) > 1 ==> locks == old(locks)
      ensures old(entry.users) == 1 ==> locks == old(locks) - {key}
    {
      entry.users := entry.users - 1;
      if entry.users == 0 {
        locks := locks - {key};
      }
    }
  }

  // ---------------------------------------------------------------- the protocol

  /** Between acquire and release: waiting for the entry, holding it, or done with it. */
  datatype Phase = Waiting | Holding | Leaving

  datatype User<K> = User(key: K, entry: nat, exclusive: bool, phase: Phase)

  /** An entry by identity; the key is auxiliary, the count is the code's. */
  datatype Entry<K> = Entry(key: K, count: nat)

  datatype State<K> = State(locks: map<K, nat>, entries: map<nat, Entry<K>>, users: map<nat, User<K>>, created: nat)

  datatype Step<K> = Acquire(t: nat, key: K, exclusive: bool) | Grant(t: nat) | Unlock(t: nat) | Release(t: nat)

  ghost function Init<K>(): State<K> {
    State(map[], map[], map[], 0)
  }

  /** The RWMutex of one entry lets t and u hold it together. */
  predicate Compatible<K>(t: User<K>, u: User<K>) {
    t.entry == u.entry && t.phase.Holding? && u.phase.Holding? ==> !t.exclusive && !u.exclusive
  }

  /** The entry's RWMutex admits t. */
  ghost predicate Admits<K(!new)>(s: State<K>, t: nat)
    requires t in s.users
  {
    forall u | u in s.users && u != t :: Compatible(s.users[t].(phase := Holding), s.users[u])
  }

  ghost predicate Enabled<K(!new)>(s: State<K>, step: Step<K>) {
    match step
    case Acquire(t, key, _) => t !in s.users && (key in s.locks ==> s.locks[key] in s.entries)
    case Grant(t) => t in s.users && s.users[t].phase.Waiting? && Admits(s, t)
    case Unlock(t) => t in s.users && s.users[t].phase.Holding?
    case Release(t) =>
      t in s.users && s.users[t].phase.Leaving? && s.users[t].entry in s.entries && s.entries[s.users[t].entry].count > 0
  }

  function DoAcquire<K>(s: State<K>, t: nat, key: K, exclusive: bool): State<K>
    requires key in s.locks ==> s.locks[key] in s.entries
  {
    if key in s.locks then
      var entry := s.locks[key];
      s.(entries := s.entries[entry := s.entries[entry].(count := s.entries[entry].count + 1)],
         users := s.users[t := User(key, entry, exclusive, Waiting)])
    else
      s.(locks := s.locks[key := s.created], entries := s.entries[s.created := Entry(key, 1)],
         users := s.users[t := User(key, s.created, exclusive, Waiting)], created := s.created + 1)
  }

  function DoRelease<K>(s: State<K>, t: nat): State<K>
    requires t in s.users && s.users[t].entry in s.entries && s.entries[s.users[t].entry].count > 0
  {
    var user := s.users[t];
    var entry := s.entries[user.entry];
    if entry.count > 1
    then s.(entries := s.entries[user.entry := entry.(count := entry.count - 1)], users := s.users - {t})
    else s.(locks := s.locks - {user.key}, entries := s.entries - {user.entry}, users := s.users - {t})
  }

  ghost function Next<K(!new)>(s: State<K>, step: Step<K>): State<K>
    requires Enabled(s, step)
  {
    match step
    case Acquire(t, key, exclusive) => DoAcquire(s, t, key, exclusive)
    case Grant(t) => s.(users := s.users[t := s.users[t].(phase := Holding)])
    case Unlock(t) => s.(users := s.users[t := s.users[t].(phase := Leaving)])
    case Release(t) => DoRelease(s, t)
  }

  ghost function UsersOf<K(!new)>(users: map<nat, User<K>>, entry: nat): set<nat> {
    set t | t in users && users[t].entry == entry
  }

  ghost predicate Mutual<K(!new)>(locks: map<K, nat>, entries: map<nat, Entry<K>>, created: nat) {
    && (forall k | k in locks :: locks[k] in entries && entries[locks[k]].key == k)
    && (forall e | e in entries :: e < created && entries[e].key in locks && locks[entries[e].key] == e)
  }

  ghost predicate Uses<K(!new)>(users: map<nat, User<K>>, entries: map<nat, Entry<K>>) {
    forall t | t in users :: users[t].entry in entries && entries[users[t].entry].key == users[t].key
  }

  ghost predicate Counted<K(!new)>(users: map<nat, User<K>>, entries: map<nat, Entry<K>>) {
    forall e | e in entries :: entries[e].count == |UsersOf(users, e)| && entries[e].count > 0
  }

  ghost predicate Excluded<K(!new)>(users: map<nat, User<K>>) {
    forall t, u | t in users && u in users && t != u :: Compatible(users[t], users[u])
  }

  ghost predicate Inv<K(!new)>(s: State<K>) {
    Mutual(s.locks, s.entries, s.created) && Uses(s.users, s.entries) && Counted(s.users, s.entries) && Excluded(s.users)
  }

  lemma UserAdded<K(!new)>(users: map<nat, User<K>>, t: nat, user: User<K>, e: nat)
    requires t !in users
    ensures |UsersOf(users[t := user], e)| == |UsersOf(users, e)| + if user.entry == e then 1 else 0
  {
    if user.entry == e {
      assert UsersOf(users[t := user], e) == UsersOf(users, e) + {t};
    } else {
      assert UsersOf(users[t := user], e) == UsersOf(users, e);
    }
  }

  lemma UserRemoved<K(!new)>(users: map<nat, User<K>>, t: nat, e: nat)
    requires t in users
    ensures |UsersOf(users - {t}, e)| == |UsersOf(users, e)| - if users[t].entry == e then 1 else 0
  {
    if users[t].entry == e {
      assert t in UsersOf(users, e);
      assert UsersOf(users - {t}, e) == UsersOf(users, e) - {t};
    } else {
      assert UsersOf(users - {t}, e) == UsersOf(users, e);
    }
  }

  lemma AcquireCounts<K(!new)>(s: State<K>, t: nat, key: K, exclusive: bool)
    requires Inv(s) && t !in s.users
    ensures Counted(DoAcquire(s, t, key, exclusive).users, DoAcquire(s, t, key, exclusive).entries)
  {
    var n := DoAcquire(s, t, key, exclusive);
    forall e | e in n.entries ensures n.entries[e].count == |UsersOf(n.users, e)| && n.entries[e].count > 0 {
      UserAdded(s.users, t, n.users[t], e);
      if e !in s.entries {
        assert UsersOf(s.users, e) == {};
      }
    }
  }

  lemma AcquireMaps<K(!new)>(s: State<K>, t: nat, key: K, exclusive: bool)
    requires Mutual(s.locks, s.entries, s.created)
    ensures var n := DoAcquire(s, t, key, exclusive); Mutual(n.locks, n.entries, n.created)
  {
    var n := DoAcquire(s, t, key, exclusive);
    assert key in s.locks ==> n.locks == s.locks && n.entries.Keys == s.entries.Keys;
  }

  lemma AcquireUses<K(!new)>(s: State<K>, t: nat, key: K, exclusive: bool)
    requires Mutual(s.locks, s.entries, s.created) && Uses(s.users, s.entries)
    ensures Uses(DoAcquire(s, t, key, exclusive).users, DoAcquire(s, t, key, exclusive).entries)
  {
  }

  lemma NewUserWaits<K(!new)>(users: map<nat, User<K>>, t: nat, user: User<K>)
    requires Excluded(users) && user.phase.Waiting?
    ensures Excluded(users[t := user])
  {
  }

  lemma AcquireKeeps<K(!new)>(s: State<K>, t: nat, key: K, exclusive: bool)
    requires Inv(s) && t !in s.users
    ensures Inv(DoAcquire(s, t, key, exclusive))
  {
    AcquireCounts(s, t, key, exclusive);
    AcquireMaps(s, t, key, exclusive);
    AcquireUses(s, t, key, exclusive);
    NewUserWaits(s.users, t, DoAcquire(s, t, key, exclusive).users[t]);
  }

  lemma ReleaseCounts<K(!new)>(s: State<K>, t: nat)
    requires Inv(s) && Enabled(s, Release(t))
    ensures Counted(DoRelease(s, t).users, DoRelease(s, t).entries)
  {
    var n := DoRelease(s, t);
    forall e | e in n.entries ensures n.entries[e].count == |UsersOf(n.users, e)| && n.entries[e].count > 0 {
      UserRemoved(s.users, t, e);
    }
  }

  lemma ReleaseMaps<K(!new)>(s: State<K>, t: nat)
    requires Mutual(s.locks, s.entries, s.created) && Uses(s.users, s.entries) && Enabled(s, Release(t))
    ensures var n := DoRelease(s, t); Mutual(n.locks, n.entries, n.created)
  {
    var n := DoRelease(s, t);
    assert s.entries[s.users[t].entry].count > 1 ==> n.locks == s.locks && n.entries.Keys == s.entries.Keys;
  }

  lemma LastUser<K(!new)>(users: map<nat, User<K>>, t: nat, u: nat)
    requires t in users && u in users && u != t && |UsersOf(users, users[t].entry)| == 1
    ensures users[u].entry != users[t].entry
  {
    UserRemoved(users, t, users[t].entry);
    assert u !in UsersOf(users - {t}, users[t].entry);
  }

  lemma ReleaseUses<K(!new)>(s: State<K>, t: nat)
    requires Uses(s.users, s.entries) && Counted(s.users, s.entries) && Enabled(s, Release(t))
    ensures Uses(DoRelease(s, t).users, DoRelease(s, t).entries)
  {
    if s.entries[s.users[t].entry].count == 1 {
      forall u | u in s.users && u != t ensures s.users[u].entry != s.users[t].entry {
        LastUser(s.users, t, u);
      }
    }
  }

  lemma UserGone<K(!new)>(users: map<nat, User<K>>, t: nat)
    requires Excluded(users)
    ensures Excluded(users - {t})
  {
  }

  lemma ReleaseKeeps<K(!new)>(s: State<K>, t: nat)
    requires Inv(s) && Enabled(s, Release(t))
    ensures Inv(DoRelease(s, t))
  {
    ReleaseCounts(s, t);
    ReleaseMaps(s, t);
    ReleaseUses(s, t);
    UserGone(s.users, t);
  }

  lemma PhaseCounts<K(!new)>(s: State<K>, t: nat, phase: Phase)
    requires Uses(s.users, s.entries) && Counted(s.users, s.entries) && t in s.users
    ensures var users := s.users[t := s.users[t].(phase := phase)]; Uses(users, s.entries) && Counted(users, s.entries)
  {
    var users := s.users[t := s.users[t].(phase := phase)];
    forall e | e in s.entries ensures s.entries[e].count == |UsersOf(users, e)| {
      assert UsersOf(users, e) == UsersOf(s.users, e);
    }
  }

  lemma PhaseExcludes<K(!new)>(s: State<K>, step: Step<K>)
    requires Excluded(s.users) && Enabled(s, step) && (step.Grant? || step.Unlock?)
    ensures Excluded(Next(s, step).users)
  {
  }

  lemma PhaseKeeps<K(!new)>(s: State<K>, step: Step<K>)
    requires Inv(s) && Enabled(s, step) && (step.Grant? || step.Unlock?)
    ensures Inv(Next(s, step))
  {
    PhaseCounts(s, step.t, if step.Grant? then Holding else Leaving);
    PhaseExcludes(s, step);
  }

  lemma StepKeeps<K(!new)>(s: State<K>, step: Step<K>)
    requires Inv(s) && Enabled(s, step)
    ensures Inv(Next(s, step))
  {
    match step
    case Acquire(t, key, exclusive) => AcquireKeeps(s, t, key, exclusive);
    case Release(t) => ReleaseKeeps(s, t);
    case _ => PhaseKeeps(s, step);
  }

  ghost predicate Run<K(!new)>(states: seq<State<K>>, steps: seq<Step<K>>) {
    |states| == |steps| + 1 && states[0] == Init() &&
    forall k | 0 <= k < |steps| :: Enabled(states[k], steps[k]) && states[k + 1] == Next(states[k], steps[k])
  }

  lemma {:induction false} RunKeeps<K(!new)>(states: seq<State<K>>, steps: seq<Step<K>>, k: nat)
    requires Run(states, steps) && k < |states|
    ensures Inv(states[k])
  {
    if k > 0 {
      RunKeeps(states, steps, k - 1);
      StepKeeps(states[k - 1], steps[k - 1]);
    }
  }

  /** The users of one key, holders and waiters alike. */
  ghost function KeyUsers<K(!new)>(s: State<K>, key: K): set<nat> {
    set t | t in s.users && s.users[t].key == key
  }

  /** An entry is kept exactly while its key has users, counts them, and is the one lock all of them use. */
  lemma EntryIffUsers<K(!new)>(states: seq<State<K>>, steps: seq<Step<K>>, k: nat, key: K)
    requires Run(states, steps) && k < |states|
    ensures key in states[k].locks <==> KeyUsers(states[k], key) != {}
    ensures forall t | t in KeyUsers(states[k], key) :: key in states[k].locks && states[k].users[t].entry == states[k].locks[key]
    ensures key in states[k].locks ==>
              states[k].locks[key] in states[k].entries &&
              states[k].entries[states[k].locks[key]].count == |KeyUsers(states[k], key)|
  {
    var s := states[k];
    RunKeeps(states, steps, k);
    if key in s.locks {
      assert KeyUsers(s, key) == UsersOf(s.users, s.locks[key]);
    } else {
      assert KeyUsers(s, key) == {};
    }
  }

  // ---------------------------------------------------------------- one RW lock per key

  /** The lock a key appears to have: who holds it, and how. */
  ghost function Holders<K(!new)>(s: State<K>, key: K, exclusive: bool): set<nat> {
    set t | t in s.users && s.users[t].key == key && s.users[t].phase.Holding? && s.users[t].exclusive == exclusive
  }

  /** The entry admits a waiter exactly when the key's RW lock does. */
  lemma AdmitsAsRWLock<K(!new)>(states: seq<State<K>>, steps: seq<Step<K>>, k: nat, t: nat)
    requires Run(states, steps) && k < |states| && t in states[k].users && states[k].users[t].phase.Waiting?
    ensures var s := states[k];
            var key := s.users[t].key;
            Admits(s, t) <==> Holders(s, key, true) == {} && (s.users[t].exclusive ==> Holders(s, key, false) == {})
  {
    var s := states[k];
    var key := s.users[t].key;
    RunKeeps(states, steps, k);
    if Admits(s, t) {
      forall u | u in Holders(s, key, true) || (s.users[t].exclusive && u in Holders(s, key, false)) ensures false {
      }
    } else {
      var u :| u in s.users && u != t && !Compatible(s.users[t].(phase := Holding), s.users[u]);
      assert u in Holders(s, key, s.users[u].exclusive);
    }
  }

  /** An exclusive holder is the only holder of its key. */
  lemma ExclusiveIsAlone<K(!new)>(states: seq<State<K>>, steps: seq<Step<K>>, k: nat, key: K, t: nat)
    requires Run(states, steps) && k < |states| && t in Holders(states[k], key, true)
    ensures Holders(states[k], key, true) == {t} && Holders(states[k], key, false) == {}
  {
    RunKeeps(states, steps, k);
  }
}
