/**
 Clients of the undo-token store, interleaved: operations that keep a token, renames that hold one while the
 storage refreshes its image, and undos that take one.  One step per critical section or storage call.
 Tokens are fresh and the clock does not go back.
 */
module UndoProtocol {
  import opened Options
  import opened UndoStore

  datatype Client =
    | Working(token: Token)
    | Ready(entry: Entry)
    | Renaming(entry: Entry)
    | Undoing(entry: Entry)

  function TokenOf(c: Client): Token {
    if c.Working? then c.token else c.entry.token
  }

  /**
   The last five fields only record: which tokens were made, when each was kept first, which client has it in
   hand, and which left the store for good.
   */
  datatype State = State(
    now: int,
    entries: seq<Entry>,
    held: map<Token, nat>,
    clients: map<nat, Client>,
    issued: set<Token>,
    born: map<Token, int>,
    carrier: map<Token, nat>,
    consumed: set<Token>,
    evicted: set<Token>)

  const Init := State(0, [], map[], map[], {}, map[], map[], {}, {})

  datatype Step =
    | Tick(to: int)
    | Begin(c: nat, token: Token)
    | Abandon(c: nat)
    | Finish(c: nat, image: Image, group: nat)
    | KeepBack(c: nat)
    | HoldToken(c: nat, token: Token, group: nat)
    | Release(c: nat, image: Image)
    | Take(c: nat, token: Token)
    | UndoDone(c: nat)
    | UndoFails(c: nat)

  /** A take or a hold first waits until no rename holds the token. */
  predicate Enabled(s: State, step: Step) {
    match step
    case Tick(to) => s.now <= to
    case Begin(c, token) => c !in s.clients && token !in s.issued
    case Abandon(c) => c in s.clients && s.clients[c].Working?
    case Finish(c, _, _) => c in s.clients && s.clients[c].Working?
    case KeepBack(c) => c in s.clients && s.clients[c].Ready?
    case HoldToken(c, token, _) => c !in s.clients && token !in s.held
    case Release(c, _) => c in s.clients && s.clients[c].Renaming?
    case Take(c, token) => c !in s.clients && token !in s.held
    case UndoDone(c) => c in s.clients && s.clients[c].Undoing?
    case UndoFails(c) => c in s.clients && s.clients[c].Undoing?
  }

  ghost function Kept(s: State, c: nat, e: Entry): State {
    var entries := Keep(s.entries, e, s.now);
    s.(entries := entries, clients := s.clients - {c}, carrier := s.carrier - {e.token},
       evicted := s.evicted + (Tokens(Insert(Live(s.entries, s.now), e)) - Tokens(entries)))
  }

  function Picked(s: State, c: nat, token: Token, group: Option<nat>): State {
    var entries := AfterPick(s.entries, token, group, s.now);
    match Pick(s.entries, token, group, s.now)
    case None => s.(entries := entries)
    case Some(e) =>
      s.(entries := entries, carrier := s.carrier[token := c],
         clients := s.clients[c := if group.Some? then Renaming(e) else Undoing(e)],
         held := if group.Some? then s.held[token := c] else s.held)
  }

  ghost function Next(s: State, step: Step): State
    requires Enabled(s, step)
  {
    match step
    case Tick(to) => s.(now := to)
    case Begin(c, token) =>
      s.(clients := s.clients[c := Working(token)], issued := s.issued + {token}, carrier := s.carrier[token := c])
    case Abandon(c) => s.(clients := s.clients - {c}, carrier := s.carrier - {s.clients[c].token})
    case Finish(c, image, group) =>
      var token := s.clients[c].token;
      s.(clients := s.clients[c := Ready(Entry(token, image, s.now, group))], born := s.born[token := s.now])
    case KeepBack(c) => Kept(s, c, s.clients[c].entry)
    case HoldToken(c, token, group) => Picked(s, c, token, Some(group))
    case Release(c, image) =>
      var e := s.clients[c].entry.(image := image);
      Kept(s, c, e).(held := s.held - {e.token})
    case Take(c, token) => Picked(s, c, token, None)
    case UndoDone(c) =>
      var token := s.clients[c].entry.token;
      s.(clients := s.clients - {c}, carrier := s.carrier - {token}, consumed := s.consumed + {token})
    case UndoFails(c) => s.(clients := s.clients[c := Ready(s.clients[c].entry)])
  }

  // ---------------------------------------------------------------- what every step keeps

  ghost predicate Dated(e: Entry, born: map<Token, int>) {
    e.token in born && born[e.token] == e.created
  }

  /** Entries keep the time they were created with, are in no client's hands, and are not spent. */
  ghost predicate StoreOk(entries: seq<Entry>, born: map<Token, int>, carrier: map<Token, nat>, spent: set<Token>) {
    Sound(entries) && Fits(entries) &&
    forall e | e in entries :: Dated(e, born) && e.token !in carrier && e.token !in spent
  }

  ghost predicate Carried(clients: map<nat, Client>, carrier: map<Token, nat>) {
    && (forall c | c in clients :: TokenOf(clients[c]) in carrier && carrier[TokenOf(clients[c])] == c)
    && (forall t: Token | t in carrier :: carrier[t] in clients && TokenOf(clients[carrier[t]]) == t)
  }

  ghost predicate ClientsOk(clients: map<nat, Client>, born: map<Token, int>) {
    forall c | c in clients :: if clients[c].Working? then clients[c].token !in born else Dated(clients[c].entry, born)
  }

  ghost predicate HeldOk(held: map<Token, nat>, clients: map<nat, Client>) {
    && (forall c | c in clients && clients[c].Renaming? :: clients[c].entry.token in held && held[clients[c].entry.token] == c)
    && (forall t: Token | t in held :: held[t] in clients && clients[held[t]].Renaming? && clients[held[t]].entry.token == t)
  }

  ghost predicate Past(issued: set<Token>, born: map<Token, int>, carrier: map<Token, nat>, spent: set<Token>) {
    born.Keys <= issued && carrier.Keys <= issued && spent <= born.Keys && spent !! carrier.Keys
  }

  /** No token is lost: it left the store by a use, by the caps or by its age. */
  ghost predicate Accounted(s: State) {
    forall t: Token | t in s.born ::
      t in Tokens(s.entries) || t in s.carrier || t in s.consumed || t in s.evicted || s.born[t] + Lifetime <= s.now
  }

  ghost predicate Inv(s: State) {
    && StoreOk(s.entries, s.born, s.carrier, s.consumed + s.evicted)
    && Carried(s.clients, s.carrier)
    && ClientsOk(s.clients, s.born)
    && HeldOk(s.held, s.clients)
    && Past(s.issued, s.born, s.carrier, s.consumed + s.evicted)
    && Accounted(s)
  }

  lemma KeptStore(s: State, c: nat, e: Entry)
    requires Inv(s) && c in s.clients && !s.clients[c].Working? && s.clients[c].entry.(image := e.image) == e
    ensures var n := Kept(s, c, e);
            StoreOk(n.entries, n.born, n.carrier, n.consumed + n.evicted) &&
            Past(n.issued, n.born, n.carrier, n.consumed + n.evicted)
  {
    var all := Insert(Live(s.entries, s.now), e);
    KeepAll(s.entries, e, s.now);
    KeepSound(s.entries, e, s.now);
    assert e.token !in s.consumed + s.evicted;
    assert forall f | f in Keep(s.entries, e, s.now) :: f.token in Tokens(Keep(s.entries, e, s.now));
  }

  lemma KeptAccounted(s: State, c: nat, e: Entry)
    requires Inv(s) && c in s.clients && !s.clients[c].Working? && s.clients[c].entry.(image := e.image) == e
    ensures Accounted(Kept(s, c, e))
  {
    KeepAll(s.entries, e, s.now);
    var n, all := Kept(s, c, e), Insert(Live(s.entries, s.now), e);
    forall t: Token | t in n.born && t !in n.carrier && t !in n.consumed && n.now < n.born[t] + Lifetime
      ensures t in Tokens(n.entries) || t in n.evicted
    {
      if t in Tokens(s.entries) {
        var f :| f in s.entries && f.token == t;
        assert f in all;
      } else {
        assert t in s.evicted || (t == e.token && e in all);
      }
    }
  }

  lemma KeptClients(s: State, c: nat, e: Entry)
    requires Inv(s) && c in s.clients && !s.clients[c].Working? && s.clients[c].entry.(image := e.image) == e
    ensures var n := Kept(s, c, e); Carried(n.clients, n.carrier) && ClientsOk(n.clients, n.born)
    ensures s.clients[c].Renaming? ==> HeldOk(s.held - {e.token}, s.clients - {c})
    ensures !s.clients[c].Renaming? ==> HeldOk(s.held, s.clients - {c})
  {
  }

  lemma KeepKeeps(s: State, step: Step)
    requires Inv(s) && Enabled(s, step) && (step.KeepBack? || step.Release?)
    ensures Inv(Next(s, step))
  {
    var e := if step.KeepBack? then s.clients[step.c].entry else s.clients[step.c].entry.(image := step.image);
    KeptStore(s, step.c, e);
    KeptAccounted(s, step.c, e);
    KeptClients(s, step.c, e);
  }

  lemma PickedStore(s: State, c: nat, token: Token, group: Option<nat>)
    requires Inv(s) && c !in s.clients && token !in s.held
    ensures var n := Picked(s, c, token, group);
            StoreOk(n.entries, n.born, n.carrier, n.consumed + n.evicted) &&
            Past(n.issued, n.born, n.carrier, n.consumed + n.evicted)
  {
    PickExactly(s.entries, token, group, s.now);
    PickSound(s.entries, token, group, s.now);
    var n := Picked(s, c, token, group);
    forall e | e in n.entries ensures e in s.entries && e.token !in n.carrier {
      assert e.token in Tokens(n.entries);
    }
  }

  lemma PickedAccounted(s: State, c: nat, token: Token, group: Option<nat>)
    requires Inv(s) && c !in s.clients && token !in s.held
    ensures Accounted(Picked(s, c, token, group))
  {
    PickExactly(s.entries, token, group, s.now);
    var n := Picked(s, c, token, group);
    forall t: Token | t in n.born && t in Tokens(s.entries) && n.now < n.born[t] + Lifetime
      ensures t in Tokens(n.entries) || t in n.carrier
    {
      var f :| f in s.entries && f.token == t;
      assert f in n.entries || Some(f) == Pick(s.entries, token, group, s.now);
    }
  }

  lemma PickedCarried(s: State, c: nat, token: Token, group: Option<nat>)
    requires Inv(s) && c !in s.clients && token !in s.held
    ensures var n := Picked(s, c, token, group); Carried(n.clients, n.carrier) && ClientsOk(n.clients, n.born)
  {
    PickExactly(s.entries, token, group, s.now);
  }

  lemma PickedHeld(s: State, c: nat, token: Token, group: Option<nat>)
    requires Inv(s) && c !in s.clients && token !in s.held
    ensures HeldOk(Picked(s, c, token, group).held, Picked(s, c, token, group).clients)
  {
    PickExactly(s.entries, token, group, s.now);
  }

  lemma PickKeeps(s: State, c: nat, token: Token, group: Option<nat>)
    requires Inv(s) && c !in s.clients && token !in s.held
    ensures Inv(Picked(s, c, token, group))
  {
    PickedStore(s, c, token, group);
    PickedAccounted(s, c, token, group);
    PickedCarried(s, c, token, group);
    PickedHeld(s, c, token, group);
  }

  lemma BeginKeeps(s: State, c: nat, token: Token)
    requires Inv(s) && Enabled(s, Begin(c, token))
    ensures Inv(Next(s, Begin(c, token)))
  {
  }

  lemma AbandonKeeps(s: State, c: nat)
    requires Inv(s) && Enabled(s, Abandon(c))
    ensures Inv(Next(s, Abandon(c)))
  {
  }

  lemma TickKeeps(s: State, to: int)
    requires Inv(s) && Enabled(s, Tick(to))
    ensures Inv(Next(s, Tick(to)))
  {
  }

  lemma FinishKeeps(s: State, c: nat, image: Image, group: nat)
    requires Inv(s) && Enabled(s, Finish(c, image, group))
    ensures Inv(Next(s, Finish(c, image, group)))
  {
  }

  lemma UndoDoneKeeps(s: State, c: nat)
    requires Inv(s) && Enabled(s, UndoDone(c))
    ensures Inv(Next(s, UndoDone(c)))
  {
  }

  lemma UndoFailsKeeps(s: State, c: nat)
    requires Inv(s) && Enabled(s, UndoFails(c))
    ensures Inv(Next(s, UndoFails(c)))
  {
  }

  lemma StepKeeps(s: State, step: Step)
    requires Inv(s) && Enabled(s, step)
    ensures Inv(Next(s, step))
  {
    match step
    case KeepBack(_) => KeepKeeps(s, step);
    case Release(_, _) => KeepKeeps(s, step);
    case HoldToken(c, token, group) => PickKeeps(s, c, token, Some(group));
    case Take(c, token) => PickKeeps(s, c, token, None);
    case Finish(c, image, group) => FinishKeeps(s, c, image, group);
    case UndoDone(c) => UndoDoneKeeps(s, c);
    case UndoFails(c) => UndoFailsKeeps(s, c);
    case Begin(c, token) => BeginKeeps(s, c, token);
    case Abandon(c) => AbandonKeeps(s, c);
    case Tick(to) => TickKeeps(s, to);
  }

  ghost predicate Run(states: seq<State>, steps: seq<Step>) {
    |states| == |steps| + 1 && states[0] == Init &&
    forall k | 0 <= k < |steps| :: Enabled(states[k], steps[k]) && states[k + 1] == Next(states[k], steps[k])
  }

  lemma {:induction false} RunKeeps(states: seq<State>, steps: seq<Step>, k: nat)
    requires Run(states, steps) && k < |states|
    ensures Inv(states[k])
  {
    if k > 0 {
      RunKeeps(states, steps, k - 1);
      StepKeeps(states[k - 1], steps[k - 1]);
    }
  }

  // ---------------------------------------------------------------- the theorems

  /** In order of creation, within the caps, and each token in one place: the store, or one client. */
  lemma StoreAlways(states: seq<State>, steps: seq<Step>, k: nat)
    requires Run(states, steps) && k < |states|
    ensures var s := states[k];
            && Sound(s.entries) && Fits(s.entries)
            && (forall c, d | c in s.clients && d in s.clients && c != d :: TokenOf(s.clients[c]) != TokenOf(s.clients[d]))
            && (forall c | c in s.clients :: TokenOf(s.clients[c]) !in Tokens(s.entries))
            && (forall t: Token :: t in s.held <==> exists c | c in s.clients :: s.clients[c].Renaming? && s.clients[c].entry.token == t)
  {
    RunKeeps(states, steps, k);
    var s := states[k];
    forall t: Token | t in s.held
      ensures exists c | c in s.clients :: s.clients[c].Renaming? && s.clients[c].entry.token == t
    {
      assert s.held[t] in s.clients;
    }
  }

  lemma {:induction false} ConsumedStays(states: seq<State>, steps: seq<Step>, i: nat, j: nat)
    requires Run(states, steps) && i <= j < |states|
    ensures states[i].consumed <= states[j].consumed
    decreases j - i
  {
    if i < j {
      ConsumedStays(states, steps, i, j - 1);
      assert states[j] == Next(states[j - 1], steps[j - 1]);
    }
  }

  /** A token is used by at most one undo that the storage carries out. */
  lemma SingleUse(states: seq<State>, steps: seq<Step>, i: nat, j: nat)
    requires Run(states, steps) && i < j < |steps| && steps[i].UndoDone? && steps[j].UndoDone?
    ensures states[i].clients[steps[i].c].entry.token != states[j].clients[steps[j].c].entry.token
  {
    RunKeeps(states, steps, j);
    ConsumedStays(states, steps, i + 1, j);
    assert states[i + 1] == Next(states[i], steps[i]);
    assert TokenOf(states[j].clients[steps[j].c]) in states[j].carrier;
  }

  /**
   An undo gets its token exactly when the token was kept and has neither been used, nor made way for newer ones,
   nor expired, nor is in another client's hands; a rename that holds it only makes the undo wait.
   */
  lemma UndoExactly(states: seq<State>, steps: seq<Step>, k: nat)
    requires Run(states, steps) && k < |steps| && steps[k].Take?
    ensures var (s, t) := (states[k], steps[k].token);
            Pick(s.entries, t, None, s.now).Some? <==>
            t in s.born && t !in s.consumed && t !in s.evicted && t !in s.carrier && s.now < s.born[t] + Lifetime
    ensures var (s, t) := (states[k], steps[k].token);
            t in s.carrier ==> s.carrier[t] in s.clients && !s.clients[s.carrier[t]].Renaming?
  {
    RunKeeps(states, steps, k);
    var s, t := states[k], steps[k].token;
    PickExactly(s.entries, t, None, s.now);
    if t in Tokens(s.entries) {
      var e :| e in s.entries && e.token == t;
      assert s.now < s.born[t] + Lifetime ==> Pick(s.entries, t, None, s.now) == Some(e);
    }
  }

  lemma BornOnce(s: State, step: Step, t: Token)
    requires Enabled(s, step) && ClientsOk(s.clients, s.born) && t in s.born
    ensures t in Next(s, step).born && Next(s, step).born[t] == s.born[t]
  {
  }

  /** When a token was first kept never changes. */
  lemma {:induction false} BornStays(states: seq<State>, steps: seq<Step>, i: nat, j: nat, t: Token)
    requires Run(states, steps) && i <= j < |states| && t in states[i].born
    ensures t in states[j].born && states[j].born[t] == states[i].born[t]
    decreases j - i
  {
    if i < j {
      BornStays(states, steps, i, j - 1, t);
      RunKeeps(states, steps, j - 1);
      BornOnce(states[j - 1], steps[j - 1], t);
    }
  }

  /**
   A rename gives back the entry with the time it was created, so that it expires when it would have: whenever a token
   is in the store, its entry has the time the token was first kept.
   */
  lemma RenameKeepsExpiry(states: seq<State>, steps: seq<Step>, i: nat, k: nat, e: Entry, f: Entry)
    requires Run(states, steps) && i <= k < |states|
    requires e in states[i].entries && f in states[k].entries && e.token == f.token
    ensures f.token in states[k].born && e.created == f.created == states[k].born[f.token]
  {
    RunKeeps(states, steps, i);
    RunKeeps(states, steps, k);
    BornStays(states, steps, i, k, e.token);
  }
}
