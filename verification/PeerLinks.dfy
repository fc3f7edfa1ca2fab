/**
 Connections to peer nodes: generations that make interrupted attempts harmless, revocation under a lock that
 interruptions wait for, and one loop per connection.  One step per critical section or storage call; any number
 of attempts, failure reports, pairings and removals run at once.
 */
module PeerLinks {
  import opened Options

  type Node = nat
  type Conn = nat

  datatype Shown = Connected | Unreachable | Revoked

  /** A loop returns on its own when it finds no link; until it is dropped it counts as there, and is not started again. */
  datatype Loop = NoLoop | Running | Returned

  /** The revoker holds revokeMu; started counts the loops ever started. */
  datatype Link = Link(
    node: Node, generation: nat, shown: Shown, revoker: Option<nat>, loop: Loop, started: nat)

  /** A loop to be started for a node: for a link just stored, or one found at the start; conn once it was looked up. */
  datatype Pending = Pending(node: Node, conn: Option<Conn>)

  /** A removal with the connection it will drop; deleted once it deleted the link. */
  datatype Removal = Removal(node: Node, conn: Conn, deleted: bool)

  /**
   What became of a stored link: its start has not looked up the connection yet, or found one that can be started and
   stays, or one that is being dropped or whose loop has returned.
   */
  datatype Fate = Fresh(p: nat) | Sound(p: nat) | Doomed

  /** An attempt, report or pairing, with the generation it acts under. */
  datatype Actor =
    | Acting(c: Conn, generation: nat)
    | Checked(c: Conn, generation: nat)
    | Answered(c: Conn, generation: nat, ok: bool)

  /** Marked are the nodes whose link was ever marked revoked; fate, auxiliary, has an entry for every stored link. */
  datatype State = State(
    conns: map<Node, Conn>,
    info: map<Conn, Link>,
    actors: map<nat, Actor>,
    fate: map<Node, Fate>,
    marked: set<Node>,
    pending: map<nat, Pending>,
    removals: map<nat, Removal>)

  /** A process starts with some links stored and marked, and is to start their loops. */
  ghost predicate Initial(s: State) {
    && s.conns == map[] && s.info == map[] && s.actors == map[] && s.removals == map[]
    && (forall p | p in s.pending :: s.pending[p].conn.None?)
    && forall n: Node | n in s.fate :: s.fate[n].Fresh? && s.fate[n].p in s.pending && s.pending[s.fate[n].p].node == n
  }

  predicate Stored(s: State, node: Node) {
    node in s.fate
  }

  datatype Step = Acts(t: nat, act: Act) | Manages(manage: Manage)

  datatype Act =
    | Interrupt(c: Conn)
    | Begin(c: Conn)
    | Show(shown: Shown)
    | LockRevoke
    | Mark(ok: bool)
    | ShowRevoked
    | End

  datatype Manage =
    | MakeConn(node: Node, c: Conn, revoked: bool)
    | AddLink(p: nat, node: Node)
    | LookUp(p: nat)
    | StartLoop(p: nat)
    | LoopReturns(c: Conn)
    | BeginRemoval(r: nat, node: Node)
    | DeleteLink(r: nat)
    | DropConn(r: nat)

  predicate Knows(s: State, t: nat) {
    t in s.actors && s.actors[t].c in s.info
  }

  predicate ActEnabled(s: State, t: nat, act: Act) {
    match act
    case Interrupt(c) => t !in s.actors && c in s.info && s.info[c].revoker.None?
    case Begin(c) => t !in s.actors && c in s.info
    case Show(shown) => Knows(s, t) && s.actors[t].Acting? && !shown.Revoked?
    case LockRevoke => Knows(s, t) && s.actors[t].Acting? && s.info[s.actors[t].c].revoker.None?
    case Mark(_) => Knows(s, t) && s.actors[t].Checked?
    case ShowRevoked => Knows(s, t) && s.actors[t].Answered?
    case End => Knows(s, t) && s.actors[t].Acting?
  }

  predicate ManageEnabled(s: State, manage: Manage) {
    match manage
    case MakeConn(node, c, revoked) => node !in s.conns && c !in s.info && (revoked ==> node in s.marked)
    case AddLink(p, node) => !Stored(s, node) && p !in s.pending
    case LookUp(p) => p in s.pending && s.pending[p].conn.None? && s.pending[p].node in s.conns && s.conns[s.pending[p].node] in s.info
    case StartLoop(p) => p in s.pending && s.pending[p].conn.Some? && s.pending[p].conn.value in s.info
    case LoopReturns(c) => c in s.info && s.info[c].loop.Running? && !Stored(s, s.info[c].node)
    case BeginRemoval(r, node) => r !in s.removals && Stored(s, node) && node in s.conns
    case DeleteLink(r) => r in s.removals && !s.removals[r].deleted
    case DropConn(r) => r in s.removals && s.removals[r].deleted && s.removals[r].conn in s.info
  }

  predicate Enabled(s: State, step: Step) {
    match step
    case Acts(t, act) => ActEnabled(s, t, act)
    case Manages(manage) => ManageEnabled(s, manage)
  }

  /** applyStatus: nothing changes under an older generation. */
  function Applied(link: Link, generation: nat, shown: Shown): Link {
    if generation == link.generation then link.(shown := shown) else link
  }

  function NextAct(s: State, t: nat, act: Act): State
    requires ActEnabled(s, t, act)
  {
    match act
    case Interrupt(c) =>
      var generation := s.info[c].generation + 1;
      s.(info := s.info[c := s.info[c].(generation := generation)], actors := s.actors[t := Acting(c, generation)])
    case Begin(c) => s.(actors := s.actors[t := Acting(c, s.info[c].generation)])
    case Show(shown) =>
      var a := s.actors[t];
      s.(info := s.info[a.c := Applied(s.info[a.c], a.generation, shown)])
    case LockRevoke =>
      var a := s.actors[t];
      if a.generation != s.info[a.c].generation then s
      else s.(info := s.info[a.c := s.info[a.c].(revoker := Some(t))], actors := s.actors[t := Checked(a.c, a.generation)])
    case Mark(ok) =>
      var a := s.actors[t];
      s.(actors := s.actors[t := Answered(a.c, a.generation, ok)],
         marked := if ok then s.marked + {s.info[a.c].node} else s.marked)
    case ShowRevoked =>
      var a := s.actors[t];
      var link := Applied(s.info[a.c], a.generation, if a.ok then Revoked else Unreachable);
      s.(info := s.info[a.c := link.(revoker := None)], actors := s.actors[t := Acting(a.c, a.generation)])
    case End => s.(actors := s.actors - {t})
  }

  /** A removal has deleted a link and is going to drop the connection. */
  predicate BeingDropped(s: State, c: Conn) {
    exists r | r in s.removals :: s.removals[r].deleted && s.removals[r].conn == c
  }

  function DoLookUp(s: State, p: nat): State
    requires ManageEnabled(s, LookUp(p))
  {
    var node := s.pending[p].node;
    var c := s.conns[node];
    s.(pending := s.pending[p := Pending(node, Some(c))],
       fate := if !Stored(s, node) then s.fate
               else s.fate[node := if BeingDropped(s, c) || s.info[c].loop.Returned? then Doomed else Sound(p)])
  }

  function DoStartLoop(s: State, p: nat): State
    requires ManageEnabled(s, StartLoop(p))
  {
    var c := s.pending[p].conn.value;
    var link := s.info[c];
    var t := s.(pending := s.pending - {p});
    if !link.loop.NoLoop? || link.node !in s.conns || s.conns[link.node] != c then t
    else t.(info := s.info[c := link.(loop := Running, started := link.started + 1)])
  }

  /** Without a link to delete the removal is over. */
  function DoDeleteLink(s: State, r: nat): State
    requires ManageEnabled(s, DeleteLink(r))
  {
    var node := s.removals[r].node;
    if Stored(s, node) then s.(fate := s.fate - {node}, removals := s.removals[r := s.removals[r].(deleted := true)])
    else s.(removals := s.removals - {r})
  }

  function DoDropConn(s: State, r: nat): State
    requires ManageEnabled(s, DropConn(r))
  {
    var c := s.removals[r].conn;
    var link := s.info[c];
    s.(info := s.info[c := link.(loop := NoLoop)], removals := s.removals - {r},
       conns := if link.node in s.conns && s.conns[link.node] == c then s.conns - {link.node} else s.conns)
  }

  function NextManage(s: State, manage: Manage): State
    requires ManageEnabled(s, manage)
  {
    match manage
    case MakeConn(node, c, revoked) =>
      s.(conns := s.conns[node := c],
         info := s.info[c := Link(node, 0, if revoked then Revoked else Unreachable, None, NoLoop, 0)])
    case AddLink(p, node) => s.(fate := s.fate[node := Fresh(p)], pending := s.pending[p := Pending(node, None)])
    case LookUp(p) => DoLookUp(s, p)
    case StartLoop(p) => DoStartLoop(s, p)
    case LoopReturns(c) => s.(info := s.info[c := s.info[c].(loop := Returned)])
    case BeginRemoval(r, node) => s.(removals := s.removals[r := Removal(node, s.conns[node], false)])
    case DeleteLink(r) => DoDeleteLink(s, r)
    case DropConn(r) => DoDropConn(s, r)
  }

  function Next(s: State, step: Step): State
    requires Enabled(s, step)
  {
    match step
    case Acts(t, act) => NextAct(s, t, act)
    case Manages(manage) => NextManage(s, manage)
  }

  // ---------------------------------------------------------------- what every step keeps

  /** An actor never runs ahead of its connection, and the revoker is up to date. */
  ghost predicate ActorOk(a: Actor, t: nat, info: map<Conn, Link>, marked: set<Node>) {
    && a.c in info && a.generation <= info[a.c].generation
    && (!a.Acting? ==> info[a.c].revoker == Some(t) && a.generation == info[a.c].generation)
    && (a.Answered? && a.ok ==> info[a.c].node in marked)
  }

  ghost predicate ActorsOk(actors: map<nat, Actor>, info: map<Conn, Link>, marked: set<Node>) {
    forall t | t in actors :: ActorOk(actors[t], t, info, marked)
  }

  /** A loop that was not ended belongs to a known connection; a forgotten one has had its only loop. */
  ghost predicate LinkOk(c: Conn, link: Link, conns: map<Node, Conn>, marked: set<Node>) {
    && (link.shown.Revoked? ==> link.node in marked)
    && (!link.loop.NoLoop? ==> link.node in conns && conns[link.node] == c)
    && link.started <= 1
    && (link.node in conns && conns[link.node] == c ==> link.started == if link.loop.NoLoop? then 0 else 1)
  }

  ghost predicate LinksOk(info: map<Conn, Link>, conns: map<Node, Conn>, marked: set<Node>) {
    forall c: Conn | c in info :: LinkOk(c, info[c], conns, marked)
  }

  ghost predicate ConnsOk(conns: map<Node, Conn>, info: map<Conn, Link>) {
    forall n: Node | n in conns :: conns[n] in info && info[conns[n]].node == n
  }

  ghost predicate RemovalsOk(s: State) {
    && (forall r | r in s.removals :: s.removals[r].conn in s.info && s.info[s.removals[r].conn].node == s.removals[r].node)
    && (forall p | p in s.pending && s.pending[p].conn.Some? ::
          s.pending[p].conn.value in s.info && s.info[s.pending[p].conn.value].node == s.pending[p].node)
  }

  predicate HasLoop(s: State, node: Node) {
    node in s.conns && s.conns[node] in s.info && s.info[s.conns[node]].loop.Running?
  }

  /** What the fate of a stored link says of its connection. */
  ghost predicate FateOk(s: State, node: Node)
    requires Stored(s, node)
  {
    match s.fate[node]
    case Fresh(p) => p in s.pending && s.pending[p] == Pending(node, None)
    case Sound(p) =>
      && node in s.conns && !BeingDropped(s, s.conns[node])
      && (HasLoop(s, node) ||
          (s.conns[node] in s.info && s.info[s.conns[node]].loop.NoLoop? &&
           p in s.pending && s.pending[p] == Pending(node, Some(s.conns[node]))))
    case Doomed =>
      node in s.conns ==>
        BeingDropped(s, s.conns[node]) ||
        (s.conns[node] in s.info && s.info[s.conns[node]].loop.Returned?) ||
        (!HasLoop(s, node) && forall p | p in s.pending :: s.pending[p].conn != Some(s.conns[node]))
  }

  ghost predicate Fated(s: State) {
    forall node: Node | node in s.fate :: FateOk(s, node)
  }

  ghost predicate Inv(s: State) {
    && ActorsOk(s.actors, s.info, s.marked) && LinksOk(s.info, s.conns, s.marked) && ConnsOk(s.conns, s.info)
    && RemovalsOk(s) && Fated(s)
  }

  lemma ActActors(s: State, t: nat, act: Act)
    requires ActorsOk(s.actors, s.info, s.marked) && ActEnabled(s, t, act)
    ensures var n := NextAct(s, t, act); ActorsOk(n.actors, n.info, n.marked)
  {
    var n := NextAct(s, t, act);
    forall u | u in n.actors ensures ActorOk(n.actors[u], u, n.info, n.marked) {
      assert u in s.actors ==> ActorOk(s.actors[u], u, s.info, s.marked);
      assert t in s.actors ==> ActorOk(s.actors[t], t, s.info, s.marked);
    }
  }

  lemma ActLinks(s: State, t: nat, act: Act)
    requires ActorsOk(s.actors, s.info, s.marked) && LinksOk(s.info, s.conns, s.marked) && ActEnabled(s, t, act)
    ensures var n := NextAct(s, t, act); LinksOk(n.info, n.conns, n.marked)
  {
    var n := NextAct(s, t, act);
    assert t in s.actors ==> ActorOk(s.actors[t], t, s.info, s.marked);
    forall c: Conn | c in n.info ensures LinkOk(c, n.info[c], n.conns, n.marked) {
      assert LinkOk(c, s.info[c], s.conns, s.marked);
    }
  }

  lemma ActKeeps(s: State, t: nat, act: Act)
    requires Inv(s) && ActEnabled(s, t, act)
    ensures Inv(NextAct(s, t, act))
  {
    ActActors(s, t, act);
    ActLinks(s, t, act);
    ActFates(s, t, act);
    ActFrame(s, t, act);
  }

  /** Actors do not touch loops. */
  lemma ActFrame(s: State, t: nat, act: Act)
    requires ActEnabled(s, t, act)
    ensures var n := NextAct(s, t, act);
            && n.conns == s.conns && n.fate == s.fate && n.pending == s.pending && n.removals == s.removals
            && forall c: Conn | c in s.info :: c in n.info && n.info[c].loop == s.info[c].loop && n.info[c].node == s.info[c].node
  {
  }

  lemma ActFates(s: State, t: nat, act: Act)
    requires Fated(s) && RemovalsOk(s) && ConnsOk(s.conns, s.info) && ActEnabled(s, t, act)
    ensures Fated(NextAct(s, t, act)) && RemovalsOk(NextAct(s, t, act))
  {
    ActFrame(s, t, act);
    FatesStay(s, NextAct(s, t, act));
  }

  lemma FatesStay(s: State, n: State)
    requires Fated(s) && RemovalsOk(s) && ConnsOk(s.conns, s.info)
    requires n.conns == s.conns && n.fate == s.fate && n.pending == s.pending && n.removals == s.removals
    requires forall c: Conn | c in s.info :: c in n.info && n.info[c].loop == s.info[c].loop && n.info[c].node == s.info[c].node
    ensures Fated(n) && RemovalsOk(n)
  {
    SameDrops(s, n);
    forall node: Node | node in n.fate ensures FateOk(n, node) {
      assert FateOk(s, node);
    }
  }

  lemma SameDrops(s: State, t: State)
    requires t.removals == s.removals
    ensures forall c: Conn :: BeingDropped(t, c) <==> BeingDropped(s, c)
  {
  }

  lemma ManageActors(s: State, manage: Manage)
    requires ActorsOk(s.actors, s.info, s.marked) && ConnsOk(s.conns, s.info) && ManageEnabled(s, manage)
    ensures var n := NextManage(s, manage); ActorsOk(n.actors, n.info, n.marked) && ConnsOk(n.conns, n.info)
  {
    var n := NextManage(s, manage);
    forall u | u in n.actors ensures ActorOk(n.actors[u], u, n.info, n.marked) {
      assert ActorOk(s.actors[u], u, s.info, s.marked);
    }
  }

  lemma ManageLinks(s: State, manage: Manage)
    requires LinksOk(s.info, s.conns, s.marked) && ConnsOk(s.conns, s.info) && RemovalsOk(s) && ManageEnabled(s, manage)
    ensures var n := NextManage(s, manage); LinksOk(n.info, n.conns, n.marked)
  {
    var n := NextManage(s, manage);
    forall c: Conn | c in n.info ensures LinkOk(c, n.info[c], n.conns, n.marked) {
      assert c in s.info ==> LinkOk(c, s.info[c], s.conns, s.marked);
    }
  }

  /** Nothing is forgotten of a connection but its loop. */
  lemma ManageInfo(s: State, manage: Manage, c: Conn)
    requires ManageEnabled(s, manage) && c in s.info
    ensures var n := NextManage(s, manage); c in n.info && n.info[c].node == s.info[c].node
  {
  }

  lemma ManageStarts(s: State, manage: Manage, p: nat)
    requires RemovalsOk(s) && ConnsOk(s.conns, s.info) && ManageEnabled(s, manage)
    requires p in NextManage(s, manage).pending && NextManage(s, manage).pending[p].conn.Some?
    ensures var start := NextManage(s, manage).pending[p];
            start.conn.value in s.info && s.info[start.conn.value].node == start.node
  {
    assert p in s.pending && s.pending[p].conn.Some? ==> s.pending[p].conn.value in s.info;
  }

  lemma ManageDrops(s: State, manage: Manage, r: nat)
    requires RemovalsOk(s) && ConnsOk(s.conns, s.info) && ManageEnabled(s, manage)
    requires r in NextManage(s, manage).removals
    ensures var removal := NextManage(s, manage).removals[r]; removal.conn in s.info && s.info[removal.conn].node == removal.node
  {
    assert r in s.removals ==> s.removals[r].conn in s.info;
  }

  lemma ManageRemovals(s: State, manage: Manage)
    requires RemovalsOk(s) && ConnsOk(s.conns, s.info) && ManageEnabled(s, manage)
    ensures RemovalsOk(NextManage(s, manage))
  {
    var n := NextManage(s, manage);
    forall r | r in n.removals ensures n.removals[r].conn in n.info && n.info[n.removals[r].conn].node == n.removals[r].node {
      ManageDrops(s, manage, r);
      ManageInfo(s, manage, n.removals[r].conn);
    }
    forall p | p in n.pending && n.pending[p].conn.Some?
      ensures n.pending[p].conn.value in n.info && n.info[n.pending[p].conn.value].node == n.pending[p].node
    {
      ManageStarts(s, manage, p);
      ManageInfo(s, manage, n.pending[p].conn.value);
    }
  }

  lemma MakeFates(s: State, node: Node, c: Conn, revoked: bool)
    requires Inv(s) && ManageEnabled(s, MakeConn(node, c, revoked))
    ensures Fated(NextManage(s, MakeConn(node, c, revoked)))
  {
    var n := NextManage(s, MakeConn(node, c, revoked));
    SameDrops(s, n);
    forall m: Node | m in n.fate ensures FateOk(n, m) {
      assert FateOk(s, m);
    }
  }

  lemma AddFates(s: State, p: nat, node: Node)
    requires Inv(s) && ManageEnabled(s, AddLink(p, node))
    ensures Fated(NextManage(s, AddLink(p, node)))
  {
    var n := NextManage(s, AddLink(p, node));
    SameDrops(s, n);
    forall m: Node | m in n.fate ensures FateOk(n, m) {
      assert m != node ==> FateOk(s, m);
    }
  }

  lemma LookUpFates(s: State, p: nat)
    requires Inv(s) && ManageEnabled(s, LookUp(p))
    ensures Fated(NextManage(s, LookUp(p)))
  {
    var n := NextManage(s, LookUp(p));
    SameDrops(s, n);
    forall m: Node | m in n.fate ensures FateOk(n, m) {
      assert FateOk(s, m);
    }
  }

  lemma StartFates(s: State, p: nat)
    requires Inv(s) && ManageEnabled(s, StartLoop(p))
    ensures Fated(NextManage(s, StartLoop(p)))
  {
    var n := NextManage(s, StartLoop(p));
    SameDrops(s, n);
    forall m: Node | m in n.fate ensures FateOk(n, m) {
      assert FateOk(s, m);
    }
  }

  lemma ReturnFates(s: State, c: Conn)
    requires Inv(s) && ManageEnabled(s, LoopReturns(c))
    ensures Fated(NextManage(s, LoopReturns(c)))
  {
    var n := NextManage(s, LoopReturns(c));
    SameDrops(s, n);
    forall m: Node | m in n.fate ensures FateOk(n, m) {
      assert FateOk(s, m);
    }
  }

  lemma BeginFates(s: State, r: nat, node: Node)
    requires Inv(s) && ManageEnabled(s, BeginRemoval(r, node))
    ensures Fated(NextManage(s, BeginRemoval(r, node)))
  {
    var n := NextManage(s, BeginRemoval(r, node));
    forall c: Conn ensures BeingDropped(n, c) <==> BeingDropped(s, c) {
      BeginDrops(s, r, node, c);
    }
    forall m: Node | m in n.fate ensures FateOk(n, m) {
      assert FateOk(s, m);
    }
  }

  lemma BeginDrops(s: State, r: nat, node: Node, c: Conn)
    requires ManageEnabled(s, BeginRemoval(r, node))
    ensures BeingDropped(NextManage(s, BeginRemoval(r, node)), c) <==> BeingDropped(s, c)
  {
    var n := NextManage(s, BeginRemoval(r, node));
    if BeingDropped(s, c) {
      var q :| q in s.removals && s.removals[q].deleted && s.removals[q].conn == c;
      assert n.removals[q].deleted;
    }
  }

  lemma DeleteFates(s: State, r: nat)
    requires Inv(s) && ManageEnabled(s, DeleteLink(r))
    ensures Fated(NextManage(s, DeleteLink(r)))
  {
    var n := NextManage(s, DeleteLink(r));
    forall m: Node | m in n.fate ensures FateOk(n, m) {
      assert FateOk(s, m);
      if m in s.conns {
        DeleteDrops(s, r, s.conns[m]);
      }
    }
  }

  lemma DeleteDrops(s: State, r: nat, c: Conn)
    requires ManageEnabled(s, DeleteLink(r))
    ensures var n := NextManage(s, DeleteLink(r));
            && (BeingDropped(s, c) ==> BeingDropped(n, c))
            && (BeingDropped(n, c) ==> BeingDropped(s, c) || (c == s.removals[r].conn && s.removals[r].node !in n.fate))
  {
    var n := NextManage(s, DeleteLink(r));
    if BeingDropped(s, c) {
      var q :| q in s.removals && s.removals[q].deleted && s.removals[q].conn == c;
      assert n.removals[q].deleted;
    }
    if BeingDropped(n, c) {
      var q :| q in n.removals && n.removals[q].deleted && n.removals[q].conn == c;
      assert q != r ==> s.removals[q].deleted;
    }
  }

  lemma DropFates(s: State, r: nat)
    requires Inv(s) && ManageEnabled(s, DropConn(r))
    ensures Fated(NextManage(s, DropConn(r)))
  {
    var n := NextManage(s, DropConn(r));
    assert BeingDropped(s, s.removals[r].conn);
    forall m: Node | m in n.fate ensures FateOk(n, m) {
      assert FateOk(s, m);
      if m in n.conns {
        DropDrops(s, r, s.conns[m]);
      }
    }
  }

  lemma DropDrops(s: State, r: nat, c: Conn)
    requires ManageEnabled(s, DropConn(r))
    ensures var n := NextManage(s, DropConn(r));
            && (BeingDropped(n, c) ==> BeingDropped(s, c))
            && (BeingDropped(s, c) && c != s.removals[r].conn ==> BeingDropped(n, c))
  {
    var n := NextManage(s, DropConn(r));
    if BeingDropped(s, c) && c != s.removals[r].conn {
      var q :| q in s.removals && s.removals[q].deleted && s.removals[q].conn == c;
      assert n.removals[q].deleted;
    }
    if BeingDropped(n, c) {
      var q :| q in n.removals && n.removals[q].deleted && n.removals[q].conn == c;
      assert s.removals[q].deleted;
    }
  }

  lemma ManageKeeps(s: State, manage: Manage)
    requires Inv(s) && ManageEnabled(s, manage)
    ensures Inv(NextManage(s, manage))
  {
    ManageActors(s, manage);
    ManageLinks(s, manage);
    ManageRemovals(s, manage);
    match manage
    case MakeConn(node, c, revoked) => MakeFates(s, node, c, revoked);
    case AddLink(p, node) => AddFates(s, p, node);
    case LookUp(p) => LookUpFates(s, p);
    case StartLoop(p) => StartFates(s, p);
    case LoopReturns(c) => ReturnFates(s, c);
    case BeginRemoval(r, node) => BeginFates(s, r, node);
    case DeleteLink(r) => DeleteFates(s, r);
    case DropConn(r) => DropFates(s, r);
  }

  lemma StepKeeps(s: State, step: Step)
    requires Inv(s) && Enabled(s, step)
    ensures Inv(Next(s, step))
  {
    match step
    case Acts(t, act) => ActKeeps(s, t, act);
    case Manages(manage) => ManageKeeps(s, manage);
  }

  lemma InitialInv(s: State)
    requires Initial(s)
    ensures Inv(s)
  {
  }

  ghost predicate Run(states: seq<State>, steps: seq<Step>) {
    |states| == |steps| + 1 && Initial(states[0]) &&
    forall k | 0 <= k < |steps| :: Enabled(states[k], steps[k]) && states[k + 1] == Next(states[k], steps[k])
  }

  lemma {:induction false} RunKeeps(states: seq<State>, steps: seq<Step>, k: nat)
    requires Run(states, steps) && k < |states|
    ensures Inv(states[k])
  {
    if k > 0 {
      RunKeeps(states, steps, k - 1);
      StepKeeps(states[k - 1], steps[k - 1]);
    } else {
      InitialInv(states[0]);
    }
  }

  // ---------------------------------------------------------------- the theorems

  /** Generations grow, and a forgotten connection stays forgotten and without a loop. */
  ghost predicate Grows(s: State, n: State, c: Conn)
    requires c in s.info
  {
    && c in n.info && s.info[c].generation <= n.info[c].generation && s.info[c].node == n.info[c].node
    && (s.info[c].node !in s.conns || s.conns[s.info[c].node] != c ==>
          n.info[c].loop.NoLoop? && n.info[c].started == s.info[c].started &&
          (s.info[c].node in n.conns ==> n.conns[s.info[c].node] != c))
  }

  lemma ActGrows(s: State, t: nat, act: Act, c: Conn)
    requires LinksOk(s.info, s.conns, s.marked) && ActEnabled(s, t, act) && c in s.info
    ensures Grows(s, NextAct(s, t, act), c)
  {
    assert LinkOk(c, s.info[c], s.conns, s.marked);
  }

  lemma ManageGrows(s: State, manage: Manage, c: Conn)
    requires LinksOk(s.info, s.conns, s.marked) && ManageEnabled(s, manage) && c in s.info
    ensures Grows(s, NextManage(s, manage), c)
  {
    assert LinkOk(c, s.info[c], s.conns, s.marked);
  }

  lemma StepGrows(s: State, step: Step, c: Conn)
    requires Inv(s) && Enabled(s, step) && c in s.info
    ensures Grows(s, Next(s, step), c)
  {
    match step
    case Acts(t, act) => ActGrows(s, t, act, c);
    case Manages(manage) => ManageGrows(s, manage, c);
  }

  lemma {:induction false} GenerationsGrow(states: seq<State>, steps: seq<Step>, i: nat, k: nat, c: Conn)
    requires Run(states, steps) && i <= k < |states| && c in states[i].info
    ensures c in states[k].info && states[i].info[c].generation <= states[k].info[c].generation
    decreases k - i
  {
    if i < k {
      GenerationsGrow(states, steps, i, k - 1, c);
      RunKeeps(states, steps, k - 1);
      StepGrows(states[k - 1], steps[k - 1], c);
    }
  }

  /** After an interruption, whoever acts under an older generation neither changes the state shown nor revokes. */
  lemma OldGenerationsChangeNothing(states: seq<State>, steps: seq<Step>, i: nat, k: nat, c: Conn)
    requires Run(states, steps) && i < k < |steps|
    requires steps[i].Acts? && steps[i].act == Interrupt(c)
    requires steps[k].Acts? && steps[k].t in states[k].actors && states[k].actors[steps[k].t].c == c
    requires states[k].actors[steps[k].t].generation <= states[i].info[c].generation
    ensures !steps[k].act.Mark? && states[k + 1].marked == states[k].marked
    ensures c in states[k].info && c in states[k + 1].info && states[k + 1].info[c].shown == states[k].info[c].shown
  {
    assert states[i + 1] == Next(states[i], steps[i]);
    GenerationsGrow(states, steps, i + 1, k, c);
    RunKeeps(states, steps, k);
    assert ActorOk(states[k].actors[steps[k].t], steps[k].t, states[k].info, states[k].marked);
  }

  /** A link is shown revoked only after its node was marked so in the store. */
  lemma RevokedIsMarked(states: seq<State>, steps: seq<Step>, k: nat, c: Conn)
    requires Run(states, steps) && k < |states| && c in states[k].info && states[k].info[c].shown.Revoked?
    ensures states[k].info[c].node in states[k].marked
  {
    RunKeeps(states, steps, k);
    assert LinkOk(c, states[k].info[c], states[k].conns, states[k].marked);
  }

  /** A connection has at most one loop in its life, and a node at most one that was not ended. */
  lemma OneLoop(states: seq<State>, steps: seq<Step>, k: nat, c: Conn, d: Conn)
    requires Run(states, steps) && k < |states| && c in states[k].info && d in states[k].info
    ensures states[k].info[c].started <= 1
    ensures !states[k].info[c].loop.NoLoop? && !states[k].info[d].loop.NoLoop? && states[k].info[c].node == states[k].info[d].node ==>
              c == d
  {
    RunKeeps(states, steps, k);
    assert LinkOk(c, states[k].info[c], states[k].conns, states[k].marked);
    assert LinkOk(d, states[k].info[d], states[k].conns, states[k].marked);
  }

  /** A dropped connection is never looped again. */
  lemma {:induction false} DroppedStays(states: seq<State>, steps: seq<Step>, i: nat, k: nat, r: nat, c: Conn)
    requires Run(states, steps) && i < k < |states| && steps[i] == Manages(DropConn(r))
    requires r in states[i].removals && states[i].removals[r].conn == c
    ensures c in states[k].info && states[k].info[c].loop.NoLoop?
    ensures states[k].info[c].node in states[k].conns ==> states[k].conns[states[k].info[c].node] != c
    decreases k - i
  {
    RunKeeps(states, steps, k - 1);
    if k > i + 1 {
      DroppedStays(states, steps, i, k - 1, r, c);
      StepGrows(states[k - 1], steps[k - 1], c);
    } else {
      DropForgets(states[i], r);
    }
  }

  lemma DropForgets(s: State, r: nat)
    requires ManageEnabled(s, DropConn(r))
    ensures var (c, n) := (s.removals[r].conn, NextManage(s, DropConn(r)));
            c in n.info && n.info[c].loop.NoLoop? && (n.info[c].node in n.conns ==> n.conns[n.info[c].node] != c)
  {
  }

  // ---------------------------------------------------------------- a stored link has a loop

  /** A loop of the node is still to be started. */
  predicate StartComes(s: State, node: Node) {
    exists p | p in s.pending :: s.pending[p].node == node
  }

  /**
   A stored link with no start to come and no drop of its connection under way has no loop exactly when its start looked
   up a connection that was being dropped, between the deletion and the drop of one removal, or whose loop had returned
   for want of a link.
   */
  lemma NoLoopExactly(states: seq<State>, steps: seq<Step>, k: nat, node: Node)
    requires Run(states, steps) && k < |states| && Stored(states[k], node) && !StartComes(states[k], node)
    requires node in states[k].conns ==> !BeingDropped(states[k], states[k].conns[node])
    ensures !HasLoop(states[k], node) <==> states[k].fate[node].Doomed?
  {
    RunKeeps(states, steps, k);
    assert FateOk(states[k], node);
  }

  /** A look-up for the node that finds its connection being dropped, or its loop returned. */
  predicate FindsDoomed(s: State, step: Step, node: Node) {
    && step.Manages? && step.manage.LookUp? && step.manage.p in s.pending && s.pending[step.manage.p].node == node
    && Stored(s, node) && node in s.conns && s.conns[node] in s.info
    && (BeingDropped(s, s.conns[node]) || s.info[s.conns[node]].loop.Returned?)
  }

  predicate IsDoomed(s: State, node: Node) {
    Stored(s, node) && s.fate[node].Doomed?
  }

  /** Only a look-up dooms a link. */
  lemma DoomedManage(s: State, manage: Manage, node: Node)
    requires ManageEnabled(s, manage) && !manage.LookUp? && IsDoomed(NextManage(s, manage), node)
    ensures IsDoomed(s, node)
  {
  }

  lemma DoomedLookUp(s: State, p: nat, node: Node)
    requires ManageEnabled(s, LookUp(p)) && IsDoomed(DoLookUp(s, p), node)
    ensures IsDoomed(s, node) || FindsDoomed(s, Manages(LookUp(p)), node)
  {
  }

  lemma DoomedStep(s: State, step: Step, node: Node)
    requires Enabled(s, step) && IsDoomed(Next(s, step), node)
    ensures IsDoomed(s, node) || FindsDoomed(s, step, node)
  {
    match step
    case Acts(t, act) => ActFrame(s, t, act);
    case Manages(LookUp(p)) => DoomedLookUp(s, p, node);
    case Manages(manage) => DoomedManage(s, manage, node);
  }

  lemma DoomedBefore(states: seq<State>, steps: seq<Step>, k: nat, node: Node)
    requires Run(states, steps) && k < |states| && IsDoomed(states[k], node)
    ensures k > 0 && (IsDoomed(states[k - 1], node) || FindsDoomed(states[k - 1], steps[k - 1], node))
  {
    assert k > 0;
    DoomedStep(states[k - 1], steps[k - 1], node);
  }

  lemma {:induction false} LastDoom(states: seq<State>, steps: seq<Step>, k: nat, node: Node) returns (i: nat)
    requires |states| == |steps| + 1 && k < |states| && IsDoomed(states[k], node) && !IsDoomed(states[0], node)
    requires forall j: nat | j <= k && IsDoomed(states[j], node) ::
               j > 0 && (IsDoomed(states[j - 1], node) || FindsDoomed(states[j - 1], steps[j - 1], node))
    ensures i < k && FindsDoomed(states[i], steps[i], node) && forall j | i < j <= k :: IsDoomed(states[j], node)
  {
    if IsDoomed(states[k - 1], node) {
      i := LastDoom(states, steps, k - 1, node);
    } else {
      i := k - 1;
    }
  }

  /** And that is what a look-up found that no later one put right. */
  lemma DoomedMeans(states: seq<State>, steps: seq<Step>, k: nat, node: Node) returns (i: nat)
    requires Run(states, steps) && k < |states| && IsDoomed(states[k], node)
    ensures i < k && FindsDoomed(states[i], steps[i], node) && forall j | i < j <= k :: IsDoomed(states[j], node)
  {
    forall j: nat | j <= k && IsDoomed(states[j], node)
      ensures j > 0 && (IsDoomed(states[j - 1], node) || FindsDoomed(states[j - 1], steps[j - 1], node))
    {
      DoomedBefore(states, steps, j, node);
    }
    i := LastDoom(states, steps, k, node);
  }

  lemma Then(states: seq<State>, steps: seq<Step>, step: Step) returns (more: seq<State>, taken: seq<Step>)
    requires Run(states, steps) && Enabled(states[|steps|], step)
    ensures Run(more, taken) && more[|taken|] == Next(states[|steps|], step) && more[0] == states[0]
  {
    more, taken := states + [Next(states[|steps|], step)], steps + [step];
    forall k | 0 <= k < |taken| ensures Enabled(more[k], taken[k]) && more[k + 1] == Next(more[k], taken[k]) {
      assert k < |steps| ==> more[k] == states[k] && more[k + 1] == states[k + 1] && taken[k] == steps[k];
    }
  }

  /** A first start, with nothing stored. */
  const Blank := State(map[], map[], map[], map[], {}, map[], map[])

  const Idle := Link(5, 0, Unreachable, None, NoLoop, 0)
  const Looped := Link(5, 0, Unreachable, None, Running, 1)

  lemma ReachPaired() returns (states: seq<State>, steps: seq<Step>)
    ensures Run(states, steps) && states[0] == Blank
    ensures states[|steps|] == State(map[5 := 0], map[0 := Idle], map[], map[5 := Fresh(1)], {}, map[1 := Pending(5, None)], map[])
  {
    states, steps := [Blank], [];
    states, steps := Then(states, steps, Manages(AddLink(1, 5)));
    states, steps := Then(states, steps, Manages(MakeConn(5, 0, false)));
  }

  /** Node 5 is paired and its loop runs. */
  lemma ReachLooped() returns (states: seq<State>, steps: seq<Step>)
    ensures Run(states, steps) && states[0] == Blank
    ensures states[|steps|] == State(map[5 := 0], map[0 := Looped], map[], map[5 := Sound(1)], {}, map[], map[])
  {
    states, steps := ReachPaired();
    states, steps := Then(states, steps, Manages(LookUp(1)));
    assert states[|steps|] == State(map[5 := 0], map[0 := Idle], map[], map[5 := Sound(1)], {}, map[1 := Pending(5, Some(0))], map[]);
    states, steps := Then(states, steps, Manages(StartLoop(1)));
  }

  /**
   Removing a link drops its connection after deleting the link.  A node paired again in between takes over that
   connection and loses it to the drop: its link is stored, and no loop runs or will be started.
   */
  lemma PairedAgainMayHaveNoLoop() returns (states: seq<State>, steps: seq<Step>)
    ensures Run(states, steps) && states[0] == Blank
    ensures Stored(states[|steps|], 5) && !HasLoop(states[|steps|], 5)
    ensures states[|steps|].pending == map[] && states[|steps|].removals == map[]
  {
    states, steps := ReachPairedAgain();
    states, steps := Then(states, steps, Manages(StartLoop(2)));
    states, steps := Then(states, steps, Manages(DropConn(7)));
  }

  lemma ReachDeleted() returns (states: seq<State>, steps: seq<Step>)
    ensures Run(states, steps) && states[0] == Blank
    ensures states[|steps|] == State(map[5 := 0], map[0 := Looped], map[], map[], {}, map[], map[7 := Removal(5, 0, true)])
  {
    states, steps := ReachLooped();
    states, steps := Then(states, steps, Manages(BeginRemoval(7, 5)));
    assert states[|steps|] == State(map[5 := 0], map[0 := Looped], map[], map[5 := Sound(1)], {}, map[], map[7 := Removal(5, 0, false)]);
    states, steps := Then(states, steps, Manages(DeleteLink(7)));
  }

  /** Node 5 is paired again before the drop, and its start has found the connection. */
  lemma ReachPairedAgain() returns (states: seq<State>, steps: seq<Step>)
    ensures Run(states, steps) && states[0] == Blank
    ensures states[|steps|] == State(
      map[5 := 0], map[0 := Looped], map[], map[5 := Doomed], {}, map[2 := Pending(5, Some(0))], map[7 := Removal(5, 0, true)])
  {
    states, steps := ReachDeleted();
    states, steps := Then(states, steps, Manages(AddLink(2, 5)));
    assert 7 in states[|steps|].removals && states[|steps|].removals[7].deleted && BeingDropped(states[|steps|], 0);
    states, steps := Then(states, steps, Manages(LookUp(2)));
  }

  /** Two removals of one node overlap: the link paired between them is deleted by the second, its connection kept. */
  lemma RemovedTwiceMayHaveNoLoop() returns (states: seq<State>, steps: seq<Step>)
    ensures Run(states, steps) && states[0] == Blank
    ensures Stored(states[|steps|], 5) && !HasLoop(states[|steps|], 5)
    ensures states[|steps|].pending == map[] && states[|steps|].removals == map[]
  {
    states, steps := ReachReturned();
    states, steps := Then(states, steps, Manages(AddLink(3, 5)));
    states, steps := Then(states, steps, Manages(LookUp(3)));
    states, steps := Then(states, steps, Manages(StartLoop(3)));
  }

  /** The second removal deleted the new link, so that its loop returned, and dropped the old connection. */
  lemma ReachReturned() returns (states: seq<State>, steps: seq<Step>)
    ensures Run(states, steps) && states[0] == Blank
    ensures states[|steps|] == State(
      map[5 := 1], map[0 := Looped.(loop := NoLoop), 1 := Looped.(loop := Returned)], map[], map[], {}, map[], map[])
  {
    states, steps := ReachRemovedOnce();
    states, steps := Then(states, steps, Manages(DeleteLink(8)));
    states, steps := Then(states, steps, Manages(LoopReturns(1)));
    states, steps := Then(states, steps, Manages(DropConn(8)));
  }

  lemma ReachRemovedOnce() returns (states: seq<State>, steps: seq<Step>)
    ensures Run(states, steps) && states[0] == Blank
    ensures states[|steps|] == State(
      map[5 := 1], map[0 := Looped.(loop := NoLoop), 1 := Looped], map[], map[5 := Sound(2)], {}, map[], map[8 := Removal(5, 0, false)])
  {
    states, steps := ReachStoredAgain();
    states, steps := Then(states, steps, Manages(LookUp(2)));
    states, steps := Then(states, steps, Manages(StartLoop(2)));
  }

  lemma ReachStoredAgain() returns (states: seq<State>, steps: seq<Step>)
    ensures Run(states, steps) && states[0] == Blank
    ensures states[|steps|] == State(
      map[5 := 1], map[0 := Looped.(loop := NoLoop), 1 := Idle], map[], map[5 := Fresh(2)], {}, map[2 := Pending(5, None)],
      map[8 := Removal(5, 0, false)])
  {
    states, steps := ReachRemoved();
    states, steps := Then(states, steps, Manages(AddLink(2, 5)));
    states, steps := Then(states, steps, Manages(MakeConn(5, 1, false)));
  }

  lemma ReachRemoved() returns (states: seq<State>, steps: seq<Step>)
    ensures Run(states, steps) && states[0] == Blank
    ensures states[|steps|] == State(map[], map[0 := Looped.(loop := NoLoop)], map[], map[], {}, map[], map[8 := Removal(5, 0, false)])
  {
    states, steps := ReachLooped();
    states, steps := Then(states, steps, Manages(BeginRemoval(7, 5)));
    states, steps := Then(states, steps, Manages(BeginRemoval(8, 5)));
    states, steps := Then(states, steps, Manages(DeleteLink(7)));
    states, steps := Then(states, steps, Manages(DropConn(7)));
  }

  // ---------------------------------------------------------------- in place

  /** What an actor can rely on while others act. */
  ghost predicate Around(s: State, n: State, me: nat) {
    && Inv(n) && (me in n.actors <==> me in s.actors) && (me in n.actors ==> n.actors[me] == s.actors[me])
    && s.marked <= n.marked && s.info.Keys <= n.info.Keys
  }

  lemma OtherActs(s: State, t: nat, act: Act, me: nat)
    requires Inv(s) && ActEnabled(s, t, act) && t != me
    ensures Around(s, NextAct(s, t, act), me)
  {
    ActKeeps(s, t, act);
    ActFrame(s, t, act);
  }

  lemma OtherManages(s: State, manage: Manage, me: nat)
    requires Inv(s) && ManageEnabled(s, manage)
    ensures Around(s, NextManage(s, manage), me)
  {
    ManageKeeps(s, manage);
    forall c: Conn | c in s.info ensures c in NextManage(s, manage).info {
      ManageInfo(s, manage, c);
    }
  }

  lemma OtherSteps(s: State, step: Step, me: nat)
    requires Inv(s) && Enabled(s, step) && (step.Acts? ==> step.t != me)
    ensures Around(s, Next(s, step), me)
  {
    match step
    case Acts(t, act) => OtherActs(s, t, act, me);
    case Manages(manage) => OtherManages(s, manage, me);
  }

  class Pairing {
    var s: State
    const me: nat

    constructor (s: State, me: nat)
      requires Inv(s)
      ensures this.s == s && this.me == me
    {
      this.s, this.me := s, me;
    }

    /** Any steps of others. */
    method Others()
      requires Inv(s)
      modifies this`s
      ensures Around(old(s), s, me)
    {
      var n: nat := *;
      while n > 0
        invariant Around(old(s), s, me)
      {
        var step: Step := *;
        if (step.Acts? ==> step.t != me) && Enabled(s, step) {
          OtherSteps(s, step, me);
          s := Next(s, step);
        }
        n := n - 1;
      }
    }

    method Call(act: Act)
      requires Inv(s) && ActEnabled(s, me, act)
      modifies this`s
      ensures Inv(s) && s == NextAct(old(s), me, act)
    {
      ActKeeps(s, me, act);
      s := NextAct(s, me, act);
    }

    /**
     revoke, from when its lock is free: an interrupted attempt does nothing; another one marks the link in the
     store before it shows it revoked, and no interruption comes between.
     */
    method Revoke(marks: bool)
      requires Inv(s) && ActEnabled(s, me, LockRevoke)
      modifies this`s
      ensures Inv(s)
      ensures var a := old(s).actors[me];
              if a.generation != old(s).info[a.c].generation then s == old(s)
              else a.c in s.info && s.info[a.c].generation == a.generation && s.info[a.c].revoker.None? &&
                   s.info[a.c].shown == (if marks then Revoked else Unreachable) &&
                   (marks ==> s.info[a.c].node in s.marked)
    {
      Call(LockRevoke);
      if s.actors[me].Checked? {
        Others();
        assert ActorOk(s.actors[me], me, s.info, s.marked);
        Call(Mark(marks));
        Others();
        assert ActorOk(s.actors[me], me, s.info, s.marked);
        Call(ShowRevoked);
      }
    }
  }
}
