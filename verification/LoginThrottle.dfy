/**
 The login throttle: reservations plus recent failures per source, in a table that drops the least recently used
 idle sources.  The functions are the critical sections of the class, which performs them in place.
 */
module LoginThrottle {
  import opened Options

  type Key = string

  /** In milliseconds. */
  const Window := 5 * 60 * 1000
  const Limit := 5
  const DefaultMaxSources := 10000

  /** Failures oldest first. */
  datatype Source = Source(pending: nat, failures: seq<int>)

  const Idle := Source(0, [])

  /** Newest sources first. */
  datatype Table = Table(sources: map<Key, Source>, order: seq<Key>)

  /** A source without a record is one with nothing recorded. */
  function SourceAt(t: Table, key: Key): Source {
    if key in t.sources then t.sources[key] else Idle
  }

  ghost predicate Once(order: seq<Key>) {
    forall i, j | 0 <= i < j < |order| :: order[i] != order[j]
  }

  /** The list and the map hold the same sources, once each. */
  ghost predicate TableOk(t: Table) {
    Once(t.order) && forall k :: k in t.order <==> k in t.sources
  }

  lemma {:induction false} OnceCard(order: seq<Key>, keys: set<Key>)
    requires Once(order) && forall k :: k in order <==> k in keys
    ensures |order| == |keys|
  {
    if order == [] {
      assert keys == {};
    } else {
      var front, last := order[..|order| - 1], order[|order| - 1];
      assert order == front + [last];
      assert last !in front;
      OnceCard(front, keys - {last});
    }
  }

  // ---------------------------------------------------------------- eviction

  /** Reserved, or just created. */
  predicate Busy(sources: map<Key, Source>, key: Key, k: Key) {
    k == key || (k in sources && sources[k].pending > 0)
  }

  function BusyOnes(sources: map<Key, Source>, key: Key, order: seq<Key>): seq<Key> {
    if order == [] then []
    else (if Busy(sources, key, order[0]) then [order[0]] else []) + BusyOnes(sources, key, order[1..])
  }

  /** Every source before the cut, and the busy ones from there on. */
  function Survivors(sources: map<Key, Source>, key: Key, order: seq<Key>, cut: nat): seq<Key>
    requires cut <= |order|
  {
    order[..cut] + BusyOnes(sources, key, order[cut..])
  }

  /** The last cut that leaves room enough, or 0. */
  function Cut(sources: map<Key, Source>, key: Key, order: seq<Key>, max: nat, i: nat): (cut: nat)
    requires i <= |order|
    ensures cut <= i
    ensures cut == 0 || |Survivors(sources, key, order, cut)| <= max
    ensures forall j | cut < j <= i :: |Survivors(sources, key, order, j)| > max
  {
    if i == 0 || |Survivors(sources, key, order, i)| <= max then i else Cut(sources, key, order, max, i - 1)
  }

  function Restrict(sources: map<Key, Source>, order: seq<Key>): map<Key, Source> {
    map k | k in sources && k in order :: sources[k]
  }

  lemma {:induction false} BusyMeans(sources: map<Key, Source>, key: Key, order: seq<Key>)
    ensures forall k :: k in BusyOnes(sources, key, order) <==> k in order && Busy(sources, key, k)
    ensures |BusyOnes(sources, key, order)| <= |order|
    ensures Once(order) ==> Once(BusyOnes(sources, key, order))
  {
    if order != [] {
      BusyMeans(sources, key, order[1..]);
      assert order == [order[0]] + order[1..];
      assert Once(order) ==> order[0] !in order[1..];
    }
  }

  lemma OnceConcat(a: seq<Key>, b: seq<Key>)
    requires Once(a) && Once(b) && forall k | k in a :: k !in b
    ensures Once(a + b)
  {
    forall i, j | 0 <= i < j < |a + b| ensures (a + b)[i] != (a + b)[j] {
      assert i < |a| ==> a[i] in a;
      assert j >= |a| ==> b[j - |a|] in b;
    }
  }

  lemma SurvivorsMeans(sources: map<Key, Source>, key: Key, order: seq<Key>, cut: nat)
    requires Once(order) && cut <= |order|
    ensures forall k :: k in Survivors(sources, key, order, cut) <==>
              k in order[..cut] || (k in order && Busy(sources, key, k))
    ensures Once(Survivors(sources, key, order, cut))
  {
    var a, b := order[..cut], order[cut..];
    BusyMeans(sources, key, b);
    assert order == a + b;
    OnceConcat(a, BusyOnes(sources, key, b));
  }

  // ---------------------------------------------------------------- the critical sections

  function Drop(order: seq<Key>, key: Key): seq<Key> {
    if order == [] then []
    else if order[0] == key then order[1..]
    else [order[0]] + Drop(order[1..], key)
  }

  function Touch(t: Table, key: Key, max: nat): (r: Table)
    ensures key in t.sources ==> r.sources == t.sources
  {
    if key in t.sources then Table(t.sources, [key] + Drop(t.order, key))
    else
      var sources, order := t.sources[key := Idle], [key] + t.order;
      var rest := Survivors(sources, key, order, Cut(sources, key, order, max, |order|));
      Table(Restrict(sources, rest), rest)
  }

  function Prune(failures: seq<int>, now: int): seq<int> {
    if failures != [] && failures[0] <= now - Window then Prune(failures[1..], now) else failures
  }

  function Unreserve(s: Source): Source {
    s.(pending := if s.pending > 0 then s.pending - 1 else 0)
  }

  function Put(t: Table, key: Key, s: Source): Table {
    t.(sources := t.sources[key := s])
  }

  function Forget(t: Table, key: Key): Table {
    Table(t.sources - {key}, Drop(t.order, key))
  }

  function Pruned(t: Table, key: Key, now: int): Table
    requires key in t.sources
  {
    Put(t, key, t.sources[key].(failures := Prune(t.sources[key].failures, now)))
  }

  function Reserve(t: Table, key: Key, now: int, max: nat): (Table, Option<int>)
    requires TableOk(t)
  {
    TouchOk(t, key, max);
    Admit(Pruned(Touch(t, key, max), key, now), key, now)
  }

  /** None when the reservation is granted, else how long to wait. */
  function Admit(t: Table, key: Key, now: int): (Table, Option<int>)
    requires key in t.sources
  {
    var s := t.sources[key];
    if s.pending + |s.failures| >= Limit then
      (t, Some(if s.failures != [] then s.failures[0] + Window - now else 1000))
    else
      (Put(t, key, s.(pending := s.pending + 1)), None)
  }

  /** The newest Limit failures. */
  function Trim(failures: seq<int>): seq<int> {
    if |failures| > Limit then failures[|failures| - Limit..] else failures
  }

  function Fail(t: Table, key: Key, now: int, max: nat): Table
    requires TableOk(t)
  {
    TouchOk(t, key, max);
    var touched := Touch(t, key, max);
    var u := Pruned(Put(touched, key, Unreserve(touched.sources[key])), key, now);
    var s := u.sources[key];
    Put(u, key, s.(failures := Trim(s.failures + [now])))
  }

  function Succeed(t: Table, key: Key): Table {
    if key !in t.sources then t
    else
      var s := Unreserve(t.sources[key]).(failures := []);
      if s.pending == 0 then Forget(t, key) else Put(t, key, s)
  }

  function Cancel(t: Table, key: Key): Table {
    if key !in t.sources then t
    else
      var s := Unreserve(t.sources[key]);
      if s.pending == 0 && s.failures == [] then Forget(t, key) else Put(t, key, s)
  }

  // ---------------------------------------------------------------- what touching does to the table

  lemma {:induction false} DropMeans(order: seq<Key>, key: Key)
    requires Once(order)
    ensures forall k :: k in Drop(order, key) <==> k in order && k != key
    ensures Once(Drop(order, key))
  {
    if order != [] {
      assert order == [order[0]] + order[1..];
      assert order[0] !in order[1..];
      DropMeans(order[1..], key);
    }
  }

  lemma ForgetOk(t: Table, key: Key)
    requires TableOk(t)
    ensures TableOk(Forget(t, key))
  {
    DropMeans(t.order, key);
  }

  lemma OnceFront(order: seq<Key>, key: Key)
    requires Once(order) && key !in order
    ensures Once([key] + order)
  {
  }

  lemma TouchOk(t: Table, key: Key, max: nat)
    requires TableOk(t)
    ensures TableOk(Touch(t, key, max)) && key in Touch(t, key, max).sources
  {
    if key in t.sources {
      DropMeans(t.order, key);
      OnceFront(Drop(t.order, key), key);
    } else {
      var sources, order := t.sources[key := Idle], [key] + t.order;
      OnceFront(t.order, key);
      SurvivorsMeans(sources, key, order, Cut(sources, key, order, max, |order|));
    }
  }

  /** Touching evicts at most idle sources, other than the touched one; the rest stay as they were. */
  lemma TouchEvictsIdle(t: Table, key: Key, max: nat, k: Key)
    requires TableOk(t)
    ensures SourceAt(Touch(t, key, max), k) == SourceAt(t, k) ||
            (k != key && k in t.sources && t.sources[k].pending == 0 && k !in Touch(t, key, max).sources)
    ensures k in Touch(t, key, max).sources ==> k == key || k in t.sources
  {
    if key !in t.sources {
      var sources, order := t.sources[key := Idle], [key] + t.order;
      OnceFront(t.order, key);
      SurvivorsMeans(sources, key, order, Cut(sources, key, order, max, |order|));
    }
  }

  /** The sources of a in the order of b, some left out. */
  predicate Subsequence(a: seq<Key>, b: seq<Key>) {
    a == [] || (b != [] && if a[0] == b[0] then Subsequence(a[1..], b[1..]) else Subsequence(a, b[1..]))
  }

  lemma {:induction false} SubsequenceSelf(a: seq<Key>)
    ensures Subsequence(a, a)
  {
    if a != [] {
      SubsequenceSelf(a[1..]);
    }
  }

  lemma {:induction false} DropOrder(order: seq<Key>, key: Key)
    requires Once(order)
    ensures Subsequence(Drop(order, key), order)
  {
    if order != [] {
      assert order == [order[0]] + order[1..];
      if order[0] == key {
        DropMeans(order[1..], key);
        SkipFirst(order[1..], order);
      } else {
        DropOrder(order[1..], key);
      }
    }
  }

  lemma SkipFirst(a: seq<Key>, b: seq<Key>)
    requires b != [] && a == b[1..] && Once(b)
    ensures Subsequence(a, b)
  {
    SubsequenceSelf(a);
    assert a != [] ==> b[1] == a[0] && b[0] != b[1];
  }

  lemma {:induction false} BusyOrder(sources: map<Key, Source>, key: Key, order: seq<Key>)
    requires Once(order)
    ensures Subsequence(BusyOnes(sources, key, order), order)
  {
    if order != [] {
      var rest := BusyOnes(sources, key, order[1..]);
      BusyOrder(sources, key, order[1..]);
      if !Busy(sources, key, order[0]) {
        BusyMeans(sources, key, order);
        assert BusyOnes(sources, key, order) == rest;
        assert rest != [] ==> rest[0] in rest && rest[0] != order[0];
      } else {
        assert ([order[0]] + rest)[1..] == rest;
      }
    }
  }

  lemma {:induction false} SurvivorsOrder(sources: map<Key, Source>, key: Key, order: seq<Key>, cut: nat)
    requires Once(order) && cut <= |order|
    ensures Subsequence(Survivors(sources, key, order, cut), order)
  {
    if cut == 0 {
      assert order[0..] == order;
      BusyOrder(sources, key, order);
      assert Survivors(sources, key, order, 0) == BusyOnes(sources, key, order);
    } else {
      SurvivorsOrder(sources, key, order[1..], cut - 1);
      SurvivorsFront(sources, key, order, cut);
    }
  }

  lemma SurvivorsFront(sources: map<Key, Source>, key: Key, order: seq<Key>, cut: nat)
    requires 0 < cut <= |order|
    ensures Survivors(sources, key, order, cut) == [order[0]] + Survivors(sources, key, order[1..], cut - 1)
    ensures Survivors(sources, key, order, cut)[1..] == Survivors(sources, key, order[1..], cut - 1)
  {
    assert order[1..][cut - 1..] == order[cut..];
    assert order[..cut] == [order[0]] + order[1..][..cut - 1];
  }

  /** The touched source is the newest; the others keep their order, so the list is ordered by last use. */
  lemma TouchedFirst(t: Table, key: Key, max: nat)
    requires TableOk(t)
    ensures var order := Touch(t, key, max).order;
            order != [] && order[0] == key && key !in order[1..] && Subsequence(order[1..], t.order)
  {
    TouchOk(t, key, max);
    var touched := Touch(t, key, max).order;
    if key in t.sources {
      DropOrder(t.order, key);
      DropMeans(t.order, key);
      assert touched[1..] == Drop(t.order, key);
    } else {
      var sources, order := t.sources[key := Idle], [key] + t.order;
      OnceFront(t.order, key);
      var cut := Cut(sources, key, order, max, |order|);
      SurvivorsOrder(sources, key, order, cut);
      assert order[1..] == t.order;
      assert touched[0] == key by {
        assert cut == 0 ==> order[0..] == order;
        assert cut > 0 ==> order[..cut][0] == key;
      }
      assert Subsequence(touched[1..], order[1..]);
    }
    assert forall i | 1 <= i < |touched| :: touched[0] != touched[i];
  }

  ghost function Reserved(t: Table): set<Key> {
    set k | k in t.sources && t.sources[k].pending > 0
  }

  /** After a touch that creates a source, the table is within its maximum or holds only busy sources. */
  lemma TouchBounds(t: Table, key: Key, max: nat)
    requires TableOk(t) && key !in t.sources
    ensures var n := |Touch(t, key, max).sources|; n <= max || n <= |Reserved(t)| + 1
  {
    var sources, order := t.sources[key := Idle], [key] + t.order;
    var cut := Cut(sources, key, order, max, |order|);
    var u := Touch(t, key, max);
    TouchOk(t, key, max);
    OnceCard(u.order, u.sources.Keys);
    if cut == 0 {
      OnceFront(t.order, key);
      forall k | k in u.sources ensures k in Reserved(t) + {key} {
        OnlyBusy(sources, key, order, k);
      }
      Subset(u.sources.Keys, Reserved(t) + {key});
    }
  }

  lemma OnlyBusy(sources: map<Key, Source>, key: Key, order: seq<Key>, k: Key)
    requires Once(order) && k in Survivors(sources, key, order, 0)
    ensures Busy(sources, key, k)
  {
    SurvivorsMeans(sources, key, order, 0);
  }

  lemma {:induction false} Subset(a: set<Key>, b: set<Key>)
    requires a <= b
    ensures |a| <= |b|
  {
    if a != {} {
      var x :| x in a;
      Subset(a - {x}, b - {x});
    }
  }

  /** Eviction takes the least recently used first: what it takes is behind every idle source that stays. */
  lemma EvictsOldest(t: Table, key: Key, max: nat, i: nat, j: nat)
    requires TableOk(t) && key !in t.sources && i < |t.order| && j < |t.order|
    requires t.order[i] !in Touch(t, key, max).sources
    requires t.order[j] in Touch(t, key, max).sources && t.sources[t.order[j]].pending == 0
    ensures j < i
  {
    TouchKeepsAt(t, key, max, i);
    TouchKeepsAt(t, key, max, j);
  }

  lemma TouchKeepsAt(t: Table, key: Key, max: nat, p: nat)
    requires TableOk(t) && key !in t.sources && p < |t.order|
    ensures t.order[p] in t.sources
    ensures t.order[p] in Touch(t, key, max).sources <==>
            p + 1 < Cut(t.sources[key := Idle], key, [key] + t.order, max, |t.order| + 1) || t.sources[t.order[p]].pending > 0
  {
    var sources, order := t.sources[key := Idle], [key] + t.order;
    var k := t.order[p];
    assert k in t.order && order[p + 1] == k;
    OnceFront(t.order, key);
    var cut := Cut(sources, key, order, max, |order|);
    SurvivorAt(sources, key, order, cut, p + 1);
    assert k in sources && sources[k] == t.sources[k] && k != key;
    assert k in Touch(t, key, max).sources <==> k in Survivors(sources, key, order, cut);
  }

  lemma SurvivorAt(sources: map<Key, Source>, key: Key, order: seq<Key>, cut: nat, p: nat)
    requires Once(order) && cut <= |order| && p < |order|
    ensures order[p] in Survivors(sources, key, order, cut) <==> p < cut || Busy(sources, key, order[p])
  {
    SurvivorsMeans(sources, key, order, cut);
    if p < cut {
      assert order[..cut][p] == order[p];
    }
  }

  // ---------------------------------------------------------------- in place

  /** Dropping a key takes out its first place, if it has one. */
  lemma {:induction false} DropAt(order: seq<Key>, key: Key, i: nat)
    requires i <= |order| && key !in order[..i] && (i < |order| ==> order[i] == key)
    ensures Drop(order, key) == if i < |order| then order[..i] + order[i + 1..] else order
  {
    if i == 0 {
      assert order == [] || order[..0] + order[1..] == order[1..];
    } else {
      var rest := order[1..];
      FrontParts(order, i);
      DropAt(rest, key, i - 1);
      if i == |order| {
        assert [order[0]] + rest == order;
      } else {
        assert rest[i..] == order[i + 1..];
        assert [order[0]] + (rest[..i - 1] + rest[i..]) == ([order[0]] + rest[..i - 1]) + rest[i..];
      }
    }
  }

  lemma FrontParts(order: seq<Key>, i: nat)
    requires 0 < i <= |order|
    ensures order[..i] == [order[0]] + order[1..][..i - 1] && order[0] in order[..i]
    ensures forall k :: k in order[1..][..i - 1] ==> k in order[..i]
  {
    assert order[..i][0] == order[0];
  }

  class Throttle {
    var sources: map<Key, Source>
    var order: seq<Key>
    const maxSources: nat

    ghost function View(): Table
      reads this
    {
      Table(sources, order)
    }

    ghost predicate Valid()
      reads this
    {
      TableOk(View())
    }

    constructor (max: int)
      ensures Valid() && View() == Table(map[], []) && maxSources == if max <= 0 then DefaultMaxSources else max
    {
      sources, order := map[], [];
      maxSources := if max <= 0 then DefaultMaxSources else max;
    }

    method Remove(key: Key)
      requires Valid()
      modifies this
      ensures Valid() && View() == Forget(old(View()), key)
    {
      ForgetOk(View(), key);
      ghost var left := Forget(View(), key);
      var i := 0;
      while i < |order| && order[i] != key
        invariant i <= |order| && key !in order[..i]
      {
        i := i + 1;
      }
      DropAt(order, key, i);
      sources, order := sources - {key}, if i < |order| then order[..i] + order[i + 1..] else order;
      assert View() == left;
    }

    method TouchSource(key: Key)
      requires Valid()
      modifies this
      ensures Valid() && View() == Touch(old(View()), key, maxSources) && key in sources
    {
      TouchOk(View(), key, maxSources);
      if key in sources {
        MoveToFront(key);
      } else {
        Create(key);
      }
    }

    method MoveToFront(key: Key)
      requires Valid() && key in sources
      modifies this
      ensures sources == old(sources) && order == [key] + Drop(old(order), key)
    {
      var source := sources[key];
      Remove(key);
      assert order == Drop(old(order), key) && sources == old(sources) - {key};
      sources, order := sources[key := source], [key] + order;
      assert sources == old(sources);
    }

    method Create(key: Key)
      requires Valid() && key !in sources
      modifies this
      ensures View() == Touch(old(View()), key, maxSources)
    {
      sources, order := sources[key := Idle], [key] + order;
      OnceFront(old(order), key);
      EvictIdle(key);
    }

    method EvictIdle(key: Key)
      requires TableOk(View())
      modifies this
      ensures Evicting(View(), old(View()), key, Cut(old(sources), key, old(order), maxSources, |old(order)|))
    {
      ghost var all := View();
      var i := |order|;
      AllSurvive(sources, key, order);
      while |sources| > maxSources && i > 0
        invariant Evicting(View(), all, key, i)
        invariant Cut(all.sources, key, all.order, maxSources, i) == Cut(all.sources, key, all.order, maxSources, |all.order|)
      {
        EvictStep(View(), all, key, i);
        i := i - 1;
        var last := order[i];
        if sources[last].pending == 0 && last != key {
          RemoveAt(i);
        }
      }
    }

    method RemoveAt(i: nat)
      requires i < |order|
      modifies this
      ensures View() == WithoutAt(old(View()), i)
    {
      sources, order := sources - {order[i]}, order[..i] + order[i + 1..];
    }

    method PruneSource(key: Key, now: int)
      requires Valid() && key in sources
      modifies this`sources
      ensures Valid() && View() == Pruned(old(View()), key, now)
    {
      var failures := sources[key].failures;
      var keep := 0;
      while keep < |failures| && failures[keep] <= now - Window
        invariant keep <= |failures| && Prune(failures, now) == Prune(failures[keep..], now)
      {
        assert failures[keep..][1..] == failures[keep + 1..];
        keep := keep + 1;
      }
      sources := sources[key := sources[key].(failures := failures[keep..])];
    }

    method ReserveAttempt(key: Key, now: int) returns (retry: Option<int>)
      requires Valid()
      modifies this
      ensures Valid() && (View(), retry) == Reserve(old(View()), key, now, maxSources)
    {
      TouchSource(key);
      PruneSource(key, now);
      retry := Decide(key, now);
    }

    method Decide(key: Key, now: int) returns (retry: Option<int>)
      requires Valid() && key in sources
      modifies this`sources
      ensures Valid() && (View(), retry) == Admit(old(View()), key, now)
    {
      var s := sources[key];
      if s.pending + |s.failures| >= Limit {
        return Some(if s.failures != [] then s.failures[0] + Window - now else 1000);
      }
      sources := sources[key := s.(pending := s.pending + 1)];
      retry := None;
    }

    method FailAttempt(key: Key, now: int)
      requires Valid()
      modifies this
      ensures Valid() && View() == Fail(old(View()), key, now, maxSources)
    {
      TouchSource(key);
      sources := sources[key := Unreserve(sources[key])];
      PruneSource(key, now);
      var s := sources[key];
      sources := sources[key := s.(failures := Trim(s.failures + [now]))];
    }

    method SucceedAttempt(key: Key)
      requires Valid()
      modifies this
      ensures Valid() && View() == Succeed(old(View()), key)
    {
      if key !in sources {
        return;
      }
      var s := Unreserve(sources[key]).(failures := []);
      if s.pending == 0 {
        Remove(key);
      } else {
        sources := sources[key := s];
      }
    }

    method CancelAttempt(key: Key)
      requires Valid()
      modifies this
      ensures Valid() && View() == Cancel(old(View()), key)
    {
      if key !in sources {
        return;
      }
      var s := Unreserve(sources[key]);
      if s.pending == 0 && s.failures == [] {
        Remove(key);
      } else {
        sources := sources[key := s];
      }
    }
  }

  /** The table while the sources from i on have been gone through. */
  ghost predicate Evicting(t: Table, all: Table, key: Key, i: int) {
    && 0 <= i <= |all.order| && t.order == Survivors(all.sources, key, all.order, i)
    && t.sources == Restrict(all.sources, t.order) && |t.sources| == |t.order|
  }

  lemma AllSurvive(all: map<Key, Source>, key: Key, list: seq<Key>)
    requires TableOk(Table(all, list))
    ensures Evicting(Table(all, list), Table(all, list), key, |list|)
  {
    assert list[|list|..] == [];
    OnceCard(list, all.Keys);
    assert Restrict(all, list) == all;
  }

  /** Moving the cut one source forward takes that source out unless it is busy. */
  lemma SurvivorsStep(all: map<Key, Source>, key: Key, list: seq<Key>, i: nat)
    requires Once(list) && i < |list|
    ensures var order := Survivors(all, key, list, i + 1);
            && i < |order| && order[i] == list[i]
            && Survivors(all, key, list, i) == if Busy(all, key, list[i]) then order else order[..i] + order[i + 1..]
  {
    assert list[i..][1..] == list[i + 1..];
    assert list[..i + 1] == list[..i] + [list[i]];
  }

  function WithoutAt(t: Table, i: nat): Table
    requires i < |t.order|
  {
    Table(t.sources - {t.order[i]}, t.order[..i] + t.order[i + 1..])
  }

  lemma WithoutMeans(t: Table, i: nat)
    requires Once(t.order) && i < |t.order|
    ensures forall k :: k in WithoutAt(t, i).order <==> k in t.order && k != t.order[i]
  {
    var a, last, b := t.order[..i], t.order[i], t.order[i + 1..];
    assert t.order == a + [last] + b;
    assert last !in a && last !in b;
  }

  lemma RestrictWithout(all: map<Key, Source>, t: Table, i: nat)
    requires Once(t.order) && i < |t.order| && t.sources == Restrict(all, t.order)
    ensures WithoutAt(t, i).sources == Restrict(all, WithoutAt(t, i).order)
  {
    WithoutMeans(t, i);
  }

  lemma EvictedOne(t: Table, i: nat)
    requires i < |t.order| && |t.sources| == |t.order| && t.order[i] in t.sources
    ensures |WithoutAt(t, i).sources| == |WithoutAt(t, i).order|
  {
  }

  lemma EvictListed(t: Table, all: Table, key: Key, i: nat)
    requires TableOk(all) && i > 0 && Evicting(t, all, key, i)
    ensures i <= |t.order| && t.order[i - 1] in t.sources && t.sources[t.order[i - 1]] == all.sources[t.order[i - 1]]
    ensures Once(t.order)
  {
    SurvivorsMeans(all.sources, key, all.order, i);
    SurvivorsStep(all.sources, key, all.order, i - 1);
    var last := t.order[i - 1];
    assert last == all.order[i - 1] && last in t.order && last in all.order;
  }

  lemma EvictMoves(t: Table, all: Table, key: Key, i: nat)
    requires Once(all.order) && Once(t.order) && i > 0 && Evicting(t, all, key, i)
    requires i <= |t.order| && t.order[i - 1] in t.sources && t.sources[t.order[i - 1]] == all.sources[t.order[i - 1]]
    ensures Evicting(if Busy(t.sources, key, t.order[i - 1]) then t else WithoutAt(t, i - 1), all, key, i - 1)
  {
    SurvivorsStep(all.sources, key, all.order, i - 1);
    if !Busy(t.sources, key, t.order[i - 1]) {
      RestrictWithout(all.sources, t, i - 1);
      EvictedOne(t, i - 1);
    }
  }

  lemma EvictStep(t: Table, all: Table, key: Key, i: nat)
    requires TableOk(all) && i > 0 && Evicting(t, all, key, i)
    ensures i <= |t.order| && t.order[i - 1] in t.sources && t.sources[t.order[i - 1]] == all.sources[t.order[i - 1]]
    ensures Evicting(if Busy(t.sources, key, t.order[i - 1]) then t else WithoutAt(t, i - 1), all, key, i - 1)
  {
    EvictListed(t, all, key, i);
    EvictMoves(t, all, key, i);
  }
}
