/**
 Any number of sign-in attempts on one login throttle, interleaved.  The log records, for each source, its
 failures since it was last evicted or signed in; the clock of successive calls does not go back.
 */
module ThrottleProtocol {
  import opened Options
  import opened LoginThrottle

  /** The clients are the attempts whose reservation is not resolved yet. */
  datatype State = State(table: Table, clients: map<nat, Key>, now: int, log: map<Key, seq<int>>, max: nat)

  datatype Step =
    | Reserving(c: nat, key: Key, at: int)
    | Failing(c: nat, at: int)
    | Succeeding(c: nat)
    | Cancelling(c: nat)

  function Init(max: nat): State {
    State(Table(map[], []), map[], 0, map[], max)
  }

  function LogOf(log: map<Key, seq<int>>, key: Key): seq<int> {
    if key in log then log[key] else []
  }

  /** The log without the sources that were evicted. */
  function Forgotten(log: map<Key, seq<int>>, before: Table, after: Table): map<Key, seq<int>> {
    map k | k in log && (k in before.sources ==> k in after.sources) :: log[k]
  }

  predicate Enabled(s: State, step: Step) {
    match step
    case Reserving(c, _, at) => c !in s.clients && s.now <= at
    case Failing(c, at) => c in s.clients && s.now <= at
    case Succeeding(c) => c in s.clients
    case Cancelling(c) => c in s.clients
  }

  function Next(s: State, step: Step): State
    requires Enabled(s, step) && TableOk(s.table)
  {
    match step
    case Reserving(c, key, at) =>
      var (table, retry) := Reserve(s.table, key, at, s.max);
      s.(table := table, now := at, log := Forgotten(s.log, s.table, table),
         clients := if retry.None? then s.clients[c := key] else s.clients)
    case Failing(c, at) =>
      var key := s.clients[c];
      var table := Fail(s.table, key, at, s.max);
      s.(table := table, now := at, clients := s.clients - {c},
         log := Forgotten(s.log, s.table, table)[key := LogOf(s.log, key) + [at]])
    case Succeeding(c) =>
      var key := s.clients[c];
      s.(table := Succeed(s.table, key), clients := s.clients - {c}, log := s.log - {key})
    case Cancelling(c) =>
      s.(table := Cancel(s.table, s.clients[c]), clients := s.clients - {c})
  }

  ghost function ClientsOf(clients: map<nat, Key>, key: Key): set<nat> {
    set c | c in clients && clients[c] == key
  }

  // ---------------------------------------------------------------- one source

  ghost predicate Ordered(log: seq<int>) {
    forall i, j | 0 <= i < j < |log| :: log[i] <= log[j]
  }

  /** Any six failures in a row span more than a window's length: they never fit in one. */
  ghost predicate Spaced(log: seq<int>) {
    forall i | 0 <= i < |log| - Limit :: log[i] + Window <= log[i + Limit]
  }

  ghost predicate Stale(log: seq<int>, now: int) {
    forall i | 0 <= i < |log| :: log[i] + Window <= now
  }

  ghost predicate UpTo(log: seq<int>, now: int) {
    forall i | 0 <= i < |log| :: log[i] <= now
  }

  /** The stored failures are the end of the log, and what came before is out of the window. */
  ghost predicate SourceOk(source: Source, log: seq<int>, unresolved: nat, now: int) {
    && source.pending == unresolved && unresolved + |source.failures| <= Limit
    && |source.failures| <= |log| && source.failures == log[|log| - |source.failures|..]
    && Stale(log[..|log| - |source.failures|], now)
    && Ordered(log) && Spaced(log) && UpTo(log, now)
  }

  lemma {:induction false} PruneMeans(failures: seq<int>, now: int) returns (k: nat)
    requires Ordered(failures)
    ensures k <= |failures| && Prune(failures, now) == failures[k..] && Stale(failures[..k], now)
    ensures forall i | k <= i < |failures| :: failures[i] > now - Window
  {
    if failures != [] && failures[0] <= now - Window {
      var rest := PruneMeans(failures[1..], now);
      k := rest + 1;
      assert forall i | 1 <= i < |failures| :: failures[i] == failures[1..][i - 1];
      assert failures[..k] == [failures[0]] + failures[1..][..rest];
    } else {
      k := 0;
    }
  }

  lemma PruneOk(source: Source, log: seq<int>, unresolved: nat, now: int)
    requires SourceOk(source, log, unresolved, now)
    ensures SourceOk(source.(failures := Prune(source.failures, now)), log, unresolved, now)
  {
    var cut := |log| - |source.failures|;
    EndOrdered(log, cut);
    var k := PruneMeans(source.failures, now);
    CutOn(log, cut, k, now);
  }

  lemma EndOrdered(log: seq<int>, cut: nat)
    requires Ordered(log) && cut <= |log|
    ensures Ordered(log[cut..])
  {
  }

  lemma CutOn(log: seq<int>, cut: nat, k: nat, now: int)
    requires cut + k <= |log| && Stale(log[..cut], now) && Stale(log[cut..][..k], now)
    ensures Stale(log[..cut + k], now) && log[cut..][k..] == log[cut + k..]
  {
    var all := log[..cut + k];
    forall i | 0 <= i < |all| ensures all[i] + Window <= now {
      assert all[i] == if i < cut then log[..cut][i] else log[cut..][..k][i - cut];
    }
  }

  /** Pruned, a source holds exactly the failures that still count. */
  lemma PrunedIsRecent(source: Source, log: seq<int>, unresolved: nat, now: int)
    requires SourceOk(source, log, unresolved, now)
    ensures Recent(log, now) == |Prune(source.failures, now)|
  {
    var failures := Prune(source.failures, now);
    PruneOk(source, log, unresolved, now);
    var cut := |log| - |failures|;
    EndOrdered(log, |log| - |source.failures|);
    var k := PruneMeans(source.failures, now);
    forall i | cut <= i < |log| ensures log[i] > now - Window {
      assert log[i] == source.failures[k + i - cut];
    }
    RecentEnd(log, cut, now);
  }

  lemma LaterOk(source: Source, log: seq<int>, unresolved: nat, now: int, later: int)
    requires SourceOk(source, log, unresolved, now) && now <= later
    ensures SourceOk(source, log, unresolved, later)
  {
  }

  /** A failure is stored without discarding one that still counts. */
  lemma FailOk(source: Source, log: seq<int>, unresolved: nat, now: int)
    requires SourceOk(source, log, unresolved, now) && unresolved > 0
    ensures Trim(source.failures + [now]) == source.failures + [now]
    ensures SourceOk(Source(source.pending - 1, source.failures + [now]), log + [now], unresolved - 1, now)
  {
    var cut := |log| - |source.failures|;
    assert (log + [now])[..cut] == log[..cut];
    assert (log + [now])[cut..] == source.failures + [now];
    if |log| >= Limit {
      assert log[..cut][|log| - Limit] == log[|log| - Limit];
    }
  }

  // ---------------------------------------------------------------- every source

  ghost predicate KeyOk(table: Table, log: map<Key, seq<int>>, clients: map<nat, Key>, now: int, key: Key) {
    SourceOk(SourceAt(table, key), LogOf(log, key), |ClientsOf(clients, key)|, now)
  }

  ghost predicate AllOk(table: Table, log: map<Key, seq<int>>, clients: map<nat, Key>, now: int) {
    forall k :: KeyOk(table, log, clients, now, k)
  }

  ghost predicate Inv(s: State) {
    TableOk(s.table) && AllOk(s.table, s.log, s.clients, s.now)
  }

  lemma Joins(clients: map<nat, Key>, c: nat, key: Key, k: Key)
    requires c !in clients
    ensures |ClientsOf(clients[c := key], k)| == |ClientsOf(clients, k)| + if k == key then 1 else 0
  {
    if k == key {
      assert ClientsOf(clients[c := key], k) == ClientsOf(clients, k) + {c};
    } else {
      assert ClientsOf(clients[c := key], k) == ClientsOf(clients, k);
    }
  }

  lemma Leaves(clients: map<nat, Key>, c: nat, k: Key)
    requires c in clients
    ensures |ClientsOf(clients - {c}, k)| == |ClientsOf(clients, k)| - if k == clients[c] then 1 else 0
  {
    if k == clients[c] {
      assert c in ClientsOf(clients, k);
      assert ClientsOf(clients - {c}, k) == ClientsOf(clients, k) - {c};
    } else {
      assert ClientsOf(clients - {c}, k) == ClientsOf(clients, k);
    }
  }

  lemma TouchKeeps(s: State, key: Key, at: int, k: Key)
    requires Inv(s) && s.now <= at
    ensures var t := Touch(s.table, key, s.max);
            KeyOk(t, Forgotten(s.log, s.table, t), s.clients, at, k)
  {
    TouchEvictsIdle(s.table, key, s.max, k);
    TouchOk(s.table, key, s.max);
    assert KeyOk(s.table, s.log, s.clients, s.now, k);
    LaterOk(SourceAt(s.table, k), LogOf(s.log, k), |ClientsOf(s.clients, k)|, s.now, at);
  }

  lemma ReserveKeeps(s: State, c: nat, key: Key, at: int)
    requires Inv(s) && Enabled(s, Reserving(c, key, at))
    ensures Inv(Next(s, Reserving(c, key, at)))
  {
    var t := Touch(s.table, key, s.max);
    var n := Next(s, Reserving(c, key, at));
    ReserveTableOk(s.table, key, at, s.max);
    assert n.log == Forgotten(s.log, s.table, t);
    forall k ensures KeyOk(n.table, n.log, n.clients, n.now, k) {
      ReserveTable(s.table, key, at, s.max, k);
      TouchKeeps(s, key, at, k);
      Joins(s.clients, c, key, k);
      if k == key {
        ReservedOk(SourceAt(t, k), LogOf(n.log, k), |ClientsOf(s.clients, k)|, at, c in n.clients);
      }
    }
  }

  lemma OneMoreOk(source: Source, log: seq<int>, unresolved: nat, now: int)
    requires SourceOk(source, log, unresolved, now) && source.pending + |source.failures| < Limit
    ensures SourceOk(source.(pending := source.pending + 1), log, unresolved + 1, now)
  {
  }

  /** A source that is pruned, and reserved if there is room. */
  lemma ReservedOk(source: Source, log: seq<int>, unresolved: nat, now: int, reserved: bool)
    requires SourceOk(source, log, unresolved, now)
    requires reserved ==> source.pending + |Prune(source.failures, now)| < Limit
    ensures var s := source.(failures := Prune(source.failures, now));
            if reserved then SourceOk(s.(pending := s.pending + 1), log, unresolved + 1, now) else SourceOk(s, log, unresolved, now)
  {
    PruneOk(source, log, unresolved, now);
    if reserved {
      OneMoreOk(source.(failures := Prune(source.failures, now)), log, unresolved, now);
    }
  }

  lemma CancelledOk(source: Source, log: seq<int>, unresolved: nat, now: int)
    requires SourceOk(source, log, unresolved, now) && unresolved > 0
    ensures SourceOk(Unreserve(source), log, unresolved - 1, now)
  {
  }

  /** What reserving does to the table: the touched source is pruned, and reserved if there is room. */
  lemma ReserveTable(t: Table, key: Key, at: int, max: nat, k: Key)
    requires TableOk(t)
    ensures var touched := Touch(t, key, max);
            var s := SourceAt(touched, key).(failures := Prune(SourceAt(touched, key).failures, at));
            var (table, retry) := Reserve(t, key, at, max);
            && (retry.None? <==> s.pending + |s.failures| < Limit)
            && SourceAt(table, k) ==
               if k != key then SourceAt(touched, k) else if retry.None? then s.(pending := s.pending + 1) else s
  {
  }

  lemma ReserveTableOk(t: Table, key: Key, at: int, max: nat)
    requires TableOk(t)
    ensures var (table, _) := Reserve(t, key, at, max);
            TableOk(table) && table.sources.Keys == Touch(t, key, max).sources.Keys
  {
    TouchOk(t, key, max);
  }

  lemma FailTable(t: Table, key: Key, at: int, max: nat, k: Key)
    requires TableOk(t) && key in t.sources
    ensures var s := Unreserve(t.sources[key]);
            SourceAt(Fail(t, key, at, max), k) ==
            if k == key then s.(failures := Trim(Prune(s.failures, at) + [at])) else SourceAt(t, k)
  {
    TouchOk(t, key, max);
  }

  lemma FailTableOk(t: Table, key: Key, at: int, max: nat)
    requires TableOk(t) && key in t.sources
    ensures TableOk(Fail(t, key, at, max)) && Fail(t, key, at, max).sources.Keys == t.sources.Keys
  {
    TouchOk(t, key, max);
  }

  lemma ClientReserved(s: State, c: nat)
    requires Inv(s) && c in s.clients
    ensures s.clients[c] in s.table.sources && s.table.sources[s.clients[c]].pending > 0
    ensures |ClientsOf(s.clients, s.clients[c])| > 0
  {
    assert KeyOk(s.table, s.log, s.clients, s.now, s.clients[c]);
    assert c in ClientsOf(s.clients, s.clients[c]);
  }

  lemma FailKeeps(s: State, c: nat, at: int)
    requires Inv(s) && Enabled(s, Failing(c, at))
    ensures Inv(Next(s, Failing(c, at)))
  {
    var key := s.clients[c];
    var n := Next(s, Failing(c, at));
    ClientReserved(s, c);
    FailTableOk(s.table, key, at, s.max);
    forall k ensures KeyOk(n.table, n.log, n.clients, n.now, k) {
      FailTable(s.table, key, at, s.max, k);
      Leaves(s.clients, c, k);
      assert KeyOk(s.table, s.log, s.clients, s.now, k);
      assert k != key ==> LogOf(n.log, k) == LogOf(s.log, k);
      FailedAt(s.table, n.table, s.log, n.log, s.clients, n.clients, s.now, at, key, k);
    }
  }

  lemma FailedAt(
    before: Table, after: Table, log: map<Key, seq<int>>, more: map<Key, seq<int>>, clients: map<nat, Key>, left: map<nat, Key>,
    now: int, at: int, key: Key, k: Key)
    requires KeyOk(before, log, clients, now, k) && now <= at
    requires k != key ==>
               && SourceAt(after, k) == SourceAt(before, k) && LogOf(more, k) == LogOf(log, k)
               && |ClientsOf(left, k)| == |ClientsOf(clients, k)|
    requires k == key ==>
               var s := Unreserve(SourceAt(before, k));
               && SourceAt(after, k) == s.(failures := Trim(Prune(s.failures, at) + [at])) && LogOf(more, k) == LogOf(log, k) + [at]
               && |ClientsOf(left, k)| == |ClientsOf(clients, k)| - 1
    ensures KeyOk(after, more, left, at, k)
  {
    LaterOk(SourceAt(before, k), LogOf(log, k), |ClientsOf(clients, k)|, now, at);
    if k == key {
      FailedOk(SourceAt(before, k), LogOf(log, k), |ClientsOf(clients, k)|, at);
    }
  }

  lemma FailedOk(source: Source, log: seq<int>, unresolved: nat, now: int)
    requires SourceOk(source, log, unresolved, now) && unresolved > 0
    ensures var failures := Prune(Unreserve(source).failures, now) + [now];
            SourceOk(Source(source.pending - 1, Trim(failures)), log + [now], unresolved - 1, now)
  {
    PruneOk(source, log, unresolved, now);
    FailOk(source.(failures := Prune(source.failures, now)), log, unresolved, now);
  }

  lemma SucceedKeeps(s: State, c: nat)
    requires Inv(s) && c in s.clients
    ensures Inv(Next(s, Succeeding(c)))
  {
    var key := s.clients[c];
    var n := Next(s, Succeeding(c));
    ClientReserved(s, c);
    ForgetOk(s.table, key);
    forall k ensures KeyOk(n.table, n.log, n.clients, n.now, k) {
      Leaves(s.clients, c, k);
      assert KeyOk(s.table, s.log, s.clients, s.now, k);
      if k == key {
        assert LogOf(n.log, k) == [];
      } else {
        assert LogOf(n.log, k) == LogOf(s.log, k);
      }
    }
  }

  lemma CancelKeeps(s: State, c: nat)
    requires Inv(s) && c in s.clients
    ensures Inv(Next(s, Cancelling(c)))
  {
    var n := Next(s, Cancelling(c));
    ClientReserved(s, c);
    ForgetOk(s.table, s.clients[c]);
    forall k ensures KeyOk(n.table, n.log, n.clients, n.now, k) {
      Leaves(s.clients, c, k);
      assert KeyOk(s.table, s.log, s.clients, s.now, k);
      if k == s.clients[c] {
        CancelledOk(SourceAt(s.table, k), LogOf(s.log, k), |ClientsOf(s.clients, k)|, s.now);
      }
      assert SourceAt(n.table, k) == if k == s.clients[c] then Unreserve(SourceAt(s.table, k)) else SourceAt(s.table, k);
    }
  }

  lemma StepKeeps(s: State, step: Step)
    requires Inv(s) && Enabled(s, step)
    ensures Inv(Next(s, step))
  {
    match step
    case Reserving(c, key, at) => ReserveKeeps(s, c, key, at);
    case Failing(c, at) => FailKeeps(s, c, at);
    case Succeeding(c) => SucceedKeeps(s, c);
    case Cancelling(c) => CancelKeeps(s, c);
  }

  ghost predicate Run(states: seq<State>, steps: seq<Step>, max: nat) {
    |states| == |steps| + 1 && states[0] == Init(max) &&
    forall k | 0 <= k < |steps| ::
      TableOk(states[k].table) && Enabled(states[k], steps[k]) && states[k + 1] == Next(states[k], steps[k])
  }

  lemma {:induction false} RunKeeps(states: seq<State>, steps: seq<Step>, max: nat, k: nat)
    requires Run(states, steps, max) && k < |states|
    ensures Inv(states[k])
  {
    if k > 0 {
      RunKeeps(states, steps, max, k - 1);
      StepKeeps(states[k - 1], steps[k - 1]);
    } else {
      forall key ensures KeyOk(states[0].table, states[0].log, states[0].clients, states[0].now, key) {
        assert ClientsOf(states[0].clients, key) == {};
      }
    }
  }

  // ---------------------------------------------------------------- the theorems

  /** Failures that still count at a time. */
  function Recent(log: seq<int>, now: int): nat {
    if log == [] then 0 else Recent(log[..|log| - 1], now) + if log[|log| - 1] > now - Window then 1 else 0
  }

  lemma {:induction false} RecentStale(log: seq<int>, now: int)
    requires Stale(log, now)
    ensures Recent(log, now) == 0
  {
    if log != [] {
      RecentStale(log[..|log| - 1], now);
    }
  }

  /** Of a log whose start is out of the window, the rest counts, all of it if it is within the window. */
  lemma {:induction false} RecentEnd(log: seq<int>, cut: nat, now: int)
    requires cut <= |log| && Stale(log[..cut], now)
    ensures Recent(log, now) <= |log| - cut
    ensures (forall i | cut <= i < |log| :: log[i] > now - Window) ==> Recent(log, now) == |log| - cut
  {
    if cut == |log| {
      assert log[..cut] == log;
      RecentStale(log, now);
    } else {
      assert log[..|log| - 1][..cut] == log[..cut];
      RecentEnd(log[..|log| - 1], cut, now);
    }
  }

  /** Unresolved reservations and failures in the last window are never more than the limit. */
  lemma NeverOverLimit(states: seq<State>, steps: seq<Step>, max: nat, k: nat, key: Key)
    requires Run(states, steps, max) && k < |states|
    ensures var s := states[k]; |ClientsOf(s.clients, key)| + Recent(LogOf(s.log, key), s.now) <= Limit
  {
    var s := states[k];
    RunKeeps(states, steps, max, k);
    assert KeyOk(s.table, s.log, s.clients, s.now, key);
    var log := LogOf(s.log, key);
    RecentEnd(log, |log| - |SourceAt(s.table, key).failures|, s.now);
  }

  /** Whichever window is looked at: of six failures in a row, the last is out of the first one's window. */
  lemma SlidingWindow(states: seq<State>, steps: seq<Step>, max: nat, k: nat, key: Key, i: nat)
    requires Run(states, steps, max) && k < |states| && i + Limit < |LogOf(states[k].log, key)|
    ensures LogOf(states[k].log, key)[i] + Window <= LogOf(states[k].log, key)[i + Limit]
  {
    RunKeeps(states, steps, max, k);
    assert KeyOk(states[k].table, states[k].log, states[k].clients, states[k].now, key);
  }

  /** An attempt is turned away exactly when reservations and failures in the last window fill the limit. */
  lemma ReserveExactly(states: seq<State>, steps: seq<Step>, max: nat, k: nat)
    requires Run(states, steps, max) && k < |steps| && steps[k].Reserving?
    ensures var (s, n, step) := (states[k], states[k + 1], steps[k]);
            && (step.c !in n.clients <==>
                |ClientsOf(s.clients, step.key)| + Recent(LogOf(s.log, step.key), step.at) >= Limit)
            && n.clients == (if step.c in n.clients then s.clients[step.c := step.key] else s.clients)
  {
    var s, key, at := states[k], steps[k].key, steps[k].at;
    RunKeeps(states, steps, max, k);
    assert KeyOk(s.table, s.log, s.clients, s.now, key);
    ReserveTable(s.table, key, at, s.max, key);
    TouchEvictsIdle(s.table, key, s.max, key);
    var source, log := SourceAt(s.table, key), LogOf(s.log, key);
    LaterOk(source, log, source.pending, s.now, at);
    PrunedIsRecent(source, log, source.pending, at);
  }

  /** The table's counter is the number of attempts not resolved yet, and such a source is in the table. */
  lemma PendingIsUnresolved(states: seq<State>, steps: seq<Step>, max: nat, k: nat, key: Key)
    requires Run(states, steps, max) && k < |states|
    ensures var s := states[k];
            && SourceAt(s.table, key).pending == |ClientsOf(s.clients, key)|
            && (ClientsOf(s.clients, key) != {} ==> key in s.table.sources)
            && TableOk(s.table)
  {
    var s := states[k];
    RunKeeps(states, steps, max, k);
    assert KeyOk(s.table, s.log, s.clients, s.now, key);
  }
}
