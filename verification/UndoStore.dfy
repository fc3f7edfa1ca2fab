/**
 The undo-token store: entries in creation order, dropped when they expire or when the count or byte cap asks
 for room, and set aside while a rename refreshes their image.  The functions are the critical sections of the
 class below, which performs them in place.
 */
module UndoStore {
  import opened Options

  /** In milliseconds. */
  const Lifetime := 10 * 60 * 1000
  const Capacity := 100
  const MaxBytes := 64 * 1024 * 1024

  type Token = nat
  type Image = seq<bv8>

  /** The group is 0 for an entry that created none. */
  datatype Entry = Entry(token: Token, image: Image, created: int, group: nat)

  predicate Expired(e: Entry, now: int) {
    now >= e.created + Lifetime
  }

  function Size(es: seq<Entry>): nat {
    if es == [] then 0 else Size(es[..|es| - 1]) + |es[|es| - 1].image|
  }

  ghost function Tokens(es: seq<Entry>): set<Token> {
    set e | e in es :: e.token
  }

  ghost predicate Before(e: Entry, f: Entry) {
    e.created <= f.created && e.token != f.token
  }

  /** Creation order, no token twice. */
  ghost predicate Sound(es: seq<Entry>) {
    forall i, j | 0 <= i < j < |es| :: Before(es[i], es[j])
  }

  ghost predicate Precede(a: seq<Entry>, b: seq<Entry>) {
    forall e, f | e in a && f in b :: Before(e, f)
  }

  lemma SoundConcat(a: seq<Entry>, b: seq<Entry>)
    ensures Sound(a + b) <==> Sound(a) && Sound(b) && Precede(a, b)
  {
    var r := a + b;
    if Sound(r) {
      assert forall i, j | 0 <= i < j < |a| :: a[i] == r[i] && a[j] == r[j];
      assert forall i | 0 <= i < |b| :: b[i] == r[|a| + i];
      forall e, f | e in a && f in b ensures Before(e, f) {
        var i :| 0 <= i < |a| && a[i] == e;
        var j :| 0 <= j < |b| && b[j] == f;
        assert Before(r[i], r[|a| + j]);
      }
    }
  }

  /** The caps, which a single entry may exceed. */
  predicate Fits(es: seq<Entry>) {
    |es| <= 1 || (|es| <= Capacity && Size(es) <= MaxBytes)
  }

  lemma SizePush(es: seq<Entry>, e: Entry)
    ensures Size(es + [e]) == Size(es) + |e.image|
  {
    assert (es + [e])[..|es|] == es;
  }

  lemma {:induction false} SizeConcat(a: seq<Entry>, b: seq<Entry>)
    ensures Size(a + b) == Size(a) + Size(b)
  {
    if b == [] {
      assert a + b == a;
    } else {
      assert (a + b)[..|a + b| - 1] == a + b[..|b| - 1];
      SizeConcat(a, b[..|b| - 1]);
    }
  }

  lemma SizeOne(e: Entry)
    ensures Size([e]) == |e.image|
  {
    SizePush([], e);
    assert [] + [e] == [e];
  }

  /** Taking out entry i takes its bytes out of the total. */
  lemma SizeWithout(es: seq<Entry>, i: nat)
    requires i < |es|
    ensures Size(es) == Size(es[..i] + es[i + 1..]) + |es[i].image|
  {
    assert es == es[..i] + ([es[i]] + es[i + 1..]);
    SizeConcat(es[..i], [es[i]] + es[i + 1..]);
    SizeConcat([es[i]], es[i + 1..]);
    SizeConcat(es[..i], es[i + 1..]);
    SizeOne(es[i]);
  }

  // ---------------------------------------------------------------- forgetting

  function Live(es: seq<Entry>, now: int): seq<Entry> {
    if es == [] then []
    else
      var last := es[|es| - 1];
      Live(es[..|es| - 1], now) + if Expired(last, now) then [] else [last]
  }

  /** Exactly the unexpired entries stay. */
  lemma {:induction false} LiveMeans(es: seq<Entry>, now: int)
    ensures forall e :: e in Live(es, now) <==> e in es && !Expired(e, now)
  {
    if es != [] {
      LiveMeans(es[..|es| - 1], now);
      assert es == es[..|es| - 1] + [es[|es| - 1]];
    }
  }

  lemma {:induction false} LiveSize(es: seq<Entry>, now: int)
    ensures |Live(es, now)| <= |es| && Size(Live(es, now)) <= Size(es)
  {
    if es != [] {
      var front, last := es[..|es| - 1], es[|es| - 1];
      LiveSize(front, now);
      SizePush(Live(front, now), last);
      assert Live(front, now) + [] == Live(front, now);
    }
  }

  lemma {:induction false} LiveSound(es: seq<Entry>, now: int)
    requires Sound(es)
    ensures Sound(Live(es, now))
  {
    if es != [] {
      var front, last := es[..|es| - 1], es[|es| - 1];
      var live := Live(front, now);
      assert es == front + [last];
      SoundConcat(front, [last]);
      LiveSound(front, now);
      assert live + [] == live;
      assert Precede(live, [last]) by {
        LiveMeans(front, now);
        forall e | e in live ensures Before(e, last) {
          assert e in front && last in [last];
        }
      }
      SoundConcat(live, [last]);
    }
  }

  // ---------------------------------------------------------------- inserting

  /** Behind every entry that is not younger. */
  function Position(es: seq<Entry>, created: int): (i: nat)
    ensures i <= |es|
    ensures forall j | 0 <= j < i :: es[j].created <= created
    ensures i < |es| ==> created < es[i].created
  {
    if es == [] || created < es[0].created then 0 else 1 + Position(es[1..], created)
  }

  function Insert(es: seq<Entry>, e: Entry): (r: seq<Entry>) {
    es[..Position(es, e.created)] + [e] + es[Position(es, e.created)..]
  }

  lemma InsertMeans(es: seq<Entry>, e: Entry)
    ensures forall f :: f in Insert(es, e) <==> f in es || f == e
    ensures Size(Insert(es, e)) == Size(es) + |e.image|
  {
    var a, b := es[..Position(es, e.created)], es[Position(es, e.created)..];
    assert es == a + b;
    SizeConcat(a, b);
    SizePush(a, e);
    SizeConcat(a + [e], b);
  }

  lemma RestYounger(es: seq<Entry>, e: Entry)
    requires Sound(es) && e.token !in Tokens(es)
    ensures Sound(es[Position(es, e.created)..]) && Precede([e], es[Position(es, e.created)..])
  {
    var i := Position(es, e.created);
    SuffixSound(es, i);
    forall f | f in es[i..] ensures Before(e, f) {
      var j :| i <= j < |es| && es[j] == f;
      assert f in es;
      assert j == i || Before(es[i], es[j]);
    }
  }

  lemma FrontOlder(es: seq<Entry>, e: Entry)
    requires Sound(es) && e.token !in Tokens(es)
    ensures Sound(es[..Position(es, e.created)]) && Precede(es[..Position(es, e.created)], [e])
  {
    var i := Position(es, e.created);
    forall f | f in es[..i] ensures Before(f, e) {
      var j :| 0 <= j < i && es[j] == f;
      assert f in es;
    }
  }

  lemma InsertSound(es: seq<Entry>, e: Entry)
    requires Sound(es) && e.token !in Tokens(es)
    ensures Sound(Insert(es, e))
  {
    var a, b := es[..Position(es, e.created)], es[Position(es, e.created)..];
    FrontOlder(es, e);
    RestYounger(es, e);
    assert es == a + b;
    SoundConcat(a, b);
    SoundConcat(a, [e]);
    assert Precede(a + [e], b);
    SoundConcat(a + [e], b);
  }

  lemma InsertSafe(es: seq<Entry>, e: Entry, held: set<Token>)
    requires Sound(es) && Tokens(es) !! held && e.token !in Tokens(es) && e.token !in held
    ensures Sound(Insert(es, e)) && Tokens(Insert(es, e)) !! held && Size(Insert(es, e)) == Size(es) + |e.image|
  {
    InsertSound(es, e);
    InsertMeans(es, e);
  }

  lemma SuffixSound(es: seq<Entry>, k: nat)
    requires Sound(es) && k <= |es|
    ensures Sound(es[k..])
  {
    assert es == es[..k] + es[k..];
    SoundConcat(es[..k], es[k..]);
  }

  // ---------------------------------------------------------------- evicting

  function Evict(es: seq<Entry>): seq<Entry> {
    if Fits(es) then es else Evict(es[1..])
  }

  /** What stays is the longest run of newest entries within the caps: no more is evicted than need be. */
  lemma {:induction false} EvictKeepsMost(es: seq<Entry>)
    ensures |Evict(es)| <= |es| && Evict(es) == es[|es| - |Evict(es)|..] && Fits(Evict(es))
    ensures forall k | 0 <= k < |es| - |Evict(es)| :: !Fits(es[k..])
    ensures es != [] ==> Evict(es) != [] && Evict(es)[|Evict(es)| - 1] == es[|es| - 1]
  {
    if !Fits(es) {
      var rest := es[1..];
      EvictKeepsMost(rest);
      forall k | 0 <= k < |es| - |Evict(es)| ensures !Fits(es[k..]) {
        if k > 0 {
          assert es[k..] == rest[k - 1..];
        } else {
          assert es[0..] == es;
        }
      }
    }
  }

  function Keep(es: seq<Entry>, e: Entry, now: int): seq<Entry> {
    Evict(Insert(Live(es, now), e))
  }

  lemma KeepAll(es: seq<Entry>, e: Entry, now: int)
    requires Sound(es) && e.token !in Tokens(es)
    ensures Sound(Insert(Live(es, now), e)) && e.token !in Tokens(Live(es, now))
    ensures forall f :: f in Insert(Live(es, now), e) <==> f == e || (f in es && !Expired(f, now))
  {
    assert forall f :: f in Live(es, now) <==> f in es && !Expired(f, now) by {
      LiveMeans(es, now);
    }
    LiveSound(es, now);
    InsertSound(Live(es, now), e);
    InsertMeans(Live(es, now), e);
  }

  /** After every keep: in order, no token twice, and within the caps or one entry left. */
  lemma KeepSound(es: seq<Entry>, e: Entry, now: int)
    requires Sound(es) && e.token !in Tokens(es)
    ensures Sound(Keep(es, e, now)) && Fits(Keep(es, e, now)) && Keep(es, e, now) != []
    ensures forall f | f in Keep(es, e, now) :: f == e || (f in es && !Expired(f, now))
  {
    var all := Insert(Live(es, now), e);
    KeepAll(es, e, now);
    EvictKeepsMost(all);
    SuffixSound(all, |all| - |Evict(all)|);
    forall f | f in Evict(all) ensures f in all {
    }
  }

  /** The newest entry, by creation, survives every keep. */
  lemma NewestSurvives(es: seq<Entry>, e: Entry, now: int)
    requires Sound(es) && e.token !in Tokens(es)
    ensures Keep(es, e, now) != [] && e.created <= Newest(Keep(es, e, now)).created
    ensures forall f | f in es && !Expired(f, now) :: f.created <= Newest(Keep(es, e, now)).created
  {
    var all := Insert(Live(es, now), e);
    KeepAll(es, e, now);
    EvictKeepsMost(all);
    forall f | f in all ensures f.created <= all[|all| - 1].created {
      var i :| 0 <= i < |all| && all[i] == f;
      assert i == |all| - 1 || Before(all[i], all[|all| - 1]);
    }
    assert e in all;
  }

  function Newest(es: seq<Entry>): Entry
    requires es != []
  {
    es[|es| - 1]
  }

  // ---------------------------------------------------------------- taking

  /** The index of a token, or the length. */
  function Find(es: seq<Entry>, token: Token): (i: nat)
    ensures i <= |es|
    ensures i < |es| ==> es[i].token == token
    ensures forall j | 0 <= j < i :: es[j].token != token
  {
    if es == [] || es[0].token == token then 0 else 1 + Find(es[1..], token)
  }

  function Remove(es: seq<Entry>, i: nat): seq<Entry>
    requires i < |es|
  {
    es[..i] + es[i + 1..]
  }

  lemma RemoveOrder(es: seq<Entry>, i: nat)
    requires Sound(es) && i < |es|
    ensures Sound(Remove(es, i))
  {
    var r := Remove(es, i);
    forall j, k | 0 <= j < k < |r| ensures Before(r[j], r[k]) {
      var x, y := if j < i then j else j + 1, if k < i then k else k + 1;
      assert r[j] == es[x] && r[k] == es[y] && x < y;
    }
  }

  lemma TokenOnce(es: seq<Entry>, i: nat, f: Entry)
    requires Sound(es) && i < |es| && f in es
    ensures f.token == es[i].token <==> f == es[i]
  {
    var j :| 0 <= j < |es| && es[j] == f;
    assert j <= i || Before(es[i], es[j]);
    assert i <= j || Before(es[j], es[i]);
  }

  lemma Removed(es: seq<Entry>, i: nat, f: Entry)
    requires Sound(es) && i < |es|
    ensures f in Remove(es, i) <==> f in es && f.token != es[i].token
  {
    if f in es[..i] {
      var j :| 0 <= j < i && es[j] == f;
      assert Before(es[j], es[i]);
    } else if f in es[i + 1..] {
      var j :| i < j < |es| && es[j] == f;
      assert Before(es[i], es[j]);
    }
    assert es == es[..i] + [es[i]] + es[i + 1..];
  }

  lemma RemoveMeans(es: seq<Entry>, i: nat)
    requires Sound(es) && i < |es|
    ensures forall f :: f in Remove(es, i) <==> f in es && f != es[i]
    ensures Tokens(Remove(es, i)) == Tokens(es) - {es[i].token}
  {
    forall f ensures f in Remove(es, i) <==> f in es && f.token != es[i].token {
      Removed(es, i, f);
    }
    forall f | f in es ensures f.token == es[i].token <==> f == es[i] {
      TokenOnce(es, i, f);
    }
  }

  lemma RemoveSound(es: seq<Entry>, i: nat)
    requires Sound(es) && i < |es|
    ensures Sound(Remove(es, i)) && |Remove(es, i)| == |es| - 1 && Size(Remove(es, i)) == Size(es) - |es[i].image|
    ensures Tokens(Remove(es, i)) == Tokens(es) - {es[i].token}
    ensures forall f :: f in Remove(es, i) <==> f in es && f != es[i]
  {
    SizeWithout(es, i);
    RemoveOrder(es, i);
    RemoveMeans(es, i);
  }

  /** What a take or a hold finds: the unexpired entry of the token, for a hold of the given group only. */
  function Pick(es: seq<Entry>, token: Token, group: Option<nat>, now: int): Option<Entry> {
    var live := Live(es, now);
    var i := Find(live, token);
    if i < |live| && (group.None? || live[i].group == group.value) then Some(live[i]) else None
  }

  function AfterPick(es: seq<Entry>, token: Token, group: Option<nat>, now: int): seq<Entry> {
    var live := Live(es, now);
    if Pick(es, token, group, now).Some? then Remove(live, Find(live, token)) else live
  }

  /** A pick answers an entry exactly when the store has an unexpired one for it, and takes nothing else out. */
  lemma PickExactly(es: seq<Entry>, token: Token, group: Option<nat>, now: int)
    requires Sound(es)
    ensures forall e :: Pick(es, token, group, now) == Some(e) <==>
              e in es && !Expired(e, now) && e.token == token && (group.None? || e.group == group.value)
    ensures forall f :: f in AfterPick(es, token, group, now) <==>
              f in es && !Expired(f, now) && Some(f) != Pick(es, token, group, now)
    ensures Pick(es, token, group, now).Some? ==> token !in Tokens(AfterPick(es, token, group, now))
  {
    var live := Live(es, now);
    assert forall f :: f in live <==> f in es && !Expired(f, now) by {
      LiveMeans(es, now);
    }
    LiveSound(es, now);
    FindExactly(live, token);
    if Find(live, token) < |live| {
      RemoveSound(live, Find(live, token));
    }
  }

  lemma FindExactly(es: seq<Entry>, token: Token)
    requires Sound(es)
    ensures Find(es, token) == |es| ==> token !in Tokens(es)
    ensures Find(es, token) < |es| ==> forall e | e in es && e.token == token :: e == es[Find(es, token)]
  {
    var i := Find(es, token);
    forall e | e in es && e.token == token ensures i < |es| && e == es[i] {
      var j :| 0 <= j < |es| && es[j] == e;
      assert j <= i || Before(es[i], es[j]);
    }
  }

  lemma PickSound(es: seq<Entry>, token: Token, group: Option<nat>, now: int)
    requires Sound(es)
    ensures Sound(AfterPick(es, token, group, now))
    ensures Fits(es) ==> Fits(AfterPick(es, token, group, now))
  {
    LiveSound(es, now);
    LiveSize(es, now);
    if Find(Live(es, now), token) < |Live(es, now)| {
      RemoveSound(Live(es, now), Find(Live(es, now), token));
    }
  }

  // ---------------------------------------------------------------- in place

  /** The mutex is held around each method; held maps a token to the channel its rename will close. */
  class Organizer {
    var entries: seq<Entry>
    var bytes: nat
    var held: map<Token, nat>

    ghost predicate Valid()
      reads this
    {
      Sound(entries) && bytes == Size(entries) && Tokens(entries) !! held.Keys
    }

    constructor ()
      ensures Valid() && entries == [] && held == map[]
    {
      entries, bytes, held := [], 0, map[];
    }

    method ForgetExpired(now: int)
      requires Valid()
      modifies this`entries, this`bytes
      ensures Valid() && entries == Live(old(entries), now)
    {
      var all := entries;
      var kept: seq<Entry> := [];
      var i := 0;
      while i < |all|
        invariant 0 <= i <= |all| && entries == all
        invariant kept == Live(all[..i], now)
        invariant bytes == Size(kept) + Size(all) - Size(all[..i])
        invariant Size(all[..i]) <= Size(all)
      {
        assert all[..i + 1][..i] == all[..i];
        assert all == all[..i + 1] + all[i + 1..];
        SizeConcat(all[..i + 1], all[i + 1..]);
        SizePush(kept, all[i]);
        if Expired(all[i], now) {
          bytes := bytes - |all[i].image|;
        } else {
          kept := kept + [all[i]];
        }
        i := i + 1;
      }
      assert all[..|all|] == all;
      entries := kept;
      assert Tokens(Live(all, now)) <= Tokens(all) by {
        LiveMeans(all, now);
      }
      LiveSound(all, now);
    }

    method KeepLocked(e: Entry, now: int)
      requires Valid() && e.token !in Tokens(entries) && e.token !in held
      modifies this`entries, this`bytes
      ensures Valid() && entries == Keep(old(entries), e, now)
    {
      assert e.token !in Tokens(Live(entries, now)) by {
        LiveMeans(entries, now);
      }
      ForgetExpired(now);
      InsertEntry(e);
      EvictOldest();
    }

    method InsertEntry(e: Entry)
      requires Valid() && e.token !in Tokens(entries) && e.token !in held
      modifies this`entries, this`bytes
      ensures Valid() && entries == Insert(old(entries), e)
    {
      InsertSafe(entries, e, held.Keys);
      ghost var all := Insert(entries, e);
      var i := 0;
      while i < |entries| && entries[i].created <= e.created
        invariant i <= |entries|
        invariant forall j | 0 <= j < i :: entries[j].created <= e.created
      {
        i := i + 1;
      }
      PositionIs(entries, e.created, i);
      entries, bytes := entries[..i] + [e] + entries[i..], bytes + |e.image|;
      assert entries == all;
    }

    method EvictOldest()
      requires Valid()
      modifies this`entries, this`bytes
      ensures Valid() && entries == Evict(old(entries))
    {
      while |entries| > 1 && (|entries| > Capacity || bytes > MaxBytes)
        invariant Valid() && Evict(entries) == Evict(old(entries))
        decreases |entries|
      {
        SuffixSound(entries, 1);
        assert entries == [entries[0]] + entries[1..];
        SizeConcat([entries[0]], entries[1..]);
        SizeOne(entries[0]);
        bytes := bytes - |entries[0].image|;
        entries := entries[1..];
      }
    }

    /** The caller has found the token released; see lockReleased. */
    method TakeLocked(token: Token, now: int) returns (e: Option<Entry>)
      requires Valid() && token !in held
      modifies this`entries, this`bytes
      ensures Valid() && e == Pick(old(entries), token, None, now)
      ensures entries == AfterPick(old(entries), token, None, now)
    {
      e := TakeOut(token, None, now);
    }

    /** Takes out the unexpired entry of the token, if it is of the given group. */
    method TakeOut(token: Token, group: Option<nat>, now: int) returns (e: Option<Entry>)
      requires Valid() && token !in held
      modifies this`entries, this`bytes
      ensures Valid() && e == Pick(old(entries), token, group, now)
      ensures entries == AfterPick(old(entries), token, group, now)
    {
      ForgetExpired(now);
      ghost var live := entries;
      var i := IndexOf(token);
      assert i == Find(live, token);
      if i == |entries| || (group.Some? && entries[i].group != group.value) {
        return None;
      }
      var entry := RemoveAt(i);
      return Some(entry);
    }

    method Hold(token: Token, group: nat, channel: nat, now: int) returns (e: Option<Entry>)
      requires Valid() && token !in held
      modifies this
      ensures Valid() && e == Pick(old(entries), token, Some(group), now)
      ensures entries == AfterPick(old(entries), token, Some(group), now)
      ensures held == if e.Some? then old(held)[token := channel] else old(held)
    {
      e := TakeOut(token, Some(group), now);
      if e.Some? {
        PickExactly(old(entries), token, Some(group), now);
        held := held[token := channel];
      }
    }

    method Release(e: Entry, now: int)
      requires Valid() && e.token in held
      modifies this
      ensures Valid() && entries == Keep(old(entries), e, now) && held == old(held) - {e.token}
    {
      held := held - {e.token};
      KeepLocked(e, now);
    }

    method IndexOf(token: Token) returns (i: nat)
      ensures i == Find(entries, token)
    {
      i := 0;
      while i < |entries| && entries[i].token != token
        invariant i <= |entries|
        invariant forall j | 0 <= j < i :: entries[j].token != token
      {
        i := i + 1;
      }
    }

    method RemoveAt(i: nat) returns (e: Entry)
      requires Valid() && i < |entries|
      modifies this`entries, this`bytes
      ensures Valid() && e == old(entries)[i] && entries == Remove(old(entries), i)
    {
      RemoveSound(entries, i);
      e := entries[i];
      bytes := bytes - |entries[i].image|;
      entries := entries[..i] + entries[i + 1..];
    }
  }

  lemma PositionIs(es: seq<Entry>, created: int, i: nat)
    requires i <= |es| && (i < |es| ==> created < es[i].created)
    requires forall j | 0 <= j < i :: es[j].created <= created
    ensures i == Position(es, created)
  {
  }
}
