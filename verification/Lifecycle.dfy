/** Agent connections coming and going: registration, write handles, teardown and kick
    (internal/relay/wss.go, internal/relay/registry.go, internal/relay/server.go). */
module Lifecycle {
  import opened Basics
  import opened Nodes

  /** connRegistry: the write handle of each node, identified by the node object it serves. */
  class ConnRegistry {
    var m: map<string, Node>

    constructor ()
      ensures m == map[]
    {
      m := map[];
    }

    method Put(id: string, node: Node)
      modifies this
      ensures m == old(m)[id := node]
    {
      m := m[id := node];
    }

    method Del(id: string)
      modifies this
      ensures m == old(m) - {id}
    {
      m := m - {id};
    }

    method DelIf(id: string, node: Node)
      modifies this
      ensures m == RemoveIf(old(m), id, node).0
    {
      if id in m && m[id] == node {
        m := m - {id};
      }
    }
  }

  /** teardown, undisturbed: nothing happens unless the registry still points to this very node. */
  method Teardown(reg: Registry, conns: ConnRegistry, node: Node) returns (offline: bool)
    requires reg.Valid()
    modifies reg, conns, node`state
    ensures reg.Valid() && (reg.nodes, offline) == RemoveIf(old(reg.nodes), node.id, node)
    ensures conns.m == if offline then RemoveIf(old(conns.m), node.id, node).0 else old(conns.m)
    ensures node.state == if offline then Offline else old(node.state)
  {
    offline := reg.RemoveIfSame(node.id, node);
    if !offline {
      return;
    }
    conns.DelIf(node.id, node);
    node.SetState(Offline);
  }

  method KickNode(reg: Registry, conns: ConnRegistry, id: string) returns (found: bool)
    requires reg.Valid()
    modifies reg, conns, reg.nodes.Values
    ensures reg.Valid() && found == (id in old(reg.nodes))
    ensures reg.nodes == old(reg.nodes) - {id}
    ensures conns.m == if found then old(conns.m) - {id} else old(conns.m)
    ensures found ==> old(reg.nodes)[id].state == Offline
  {
    found := id in reg.nodes;
    if found {
      var n := reg.nodes[id];
      reg.Remove(id);
      conns.Del(id);
      n.SetState(Offline);
    }
  }

  // -------------------------------------------------- every interleaving

  /** How far a connection is. Each stage ends with one atomic step of its handler. */
  datatype Stage =
    | Greeting     // hello read, before TryRegister
    | Registered   // TryRegister succeeded, before put
    | Acking       // put done, before the hello_ack was written
    | Serving
    | Closing      // teardown about to call RemoveIfSame
    | Removing     // RemoveIfSame succeeded, before delIf
    | Dropping     // delIf done, before the node is set offline
    | Gone

  /** Whether a kick removed the registry entry of a connection, and whether that kick had looked up this
      connection or another one. */
  datatype Eviction = Kept | Kicked | Mistaken

  datatype Conn = Conn(id: string, stage: Stage, offline: bool, evicted: Eviction, wentOnline: bool, wentOffline: bool)

  /** How far a run of KickNode is: it looks up the node, looks up the handle and sends it a bye, removes
      the registry entry by id, removes the handle by id unless it found none, and sets the node offline. */
  datatype KickStage = Found | Sent(handled: bool) | Evicting | Finishing | Over

  datatype Kicking = Kicking(id: string, target: nat, stage: KickStage)

  /** Connections are numbered in order of arrival; a number stands for the identity of a node object. */
  datatype State = State(conns: seq<Conn>, reg: map<string, nat>, handles: map<string, nat>, kicks: seq<Kicking>,
                         nodesOnline: nat, nodesOffline: nat)

  /** A step of the handler of one connection. */
  datatype Action = Register | PutHandle | Ack(written: bool) | Disconnect | DropEntry | DropHandle | SetOffline

  datatype Event =
    | Arrive(id: string)
    | Handler(c: nat, a: Action)
    | Kick(id: string)          // KickNode finds the node
    | KickLookup(k: nat)        // ... looks for its handle, and sends the bye
    | KickRemove(k: nat)        // ... removes the registry entry of the id
    | KickDelete(k: nat)        // ... removes the handle of the id
    | KickOffline(k: nat)       // ... sets the node offline

  const Start := State([], map[], map[], [], 0, 0)

  function Newcomer(id: string): Conn {
    Conn(id, Greeting, false, Kept, false, false)
  }

  function Move(s: State, c: nat, to: Stage): State
    requires c < |s.conns|
  {
    s.(conns := s.conns[c := s.conns[c].(stage := to)])
  }

  /** The stage an action starts from. */
  function Before(a: Action): Stage {
    match a
    case Register => Greeting
    case PutHandle => Registered
    case Ack(_) => Acking
    case Disconnect => Serving
    case DropEntry => Closing
    case DropHandle => Removing
    case SetOffline => Dropping
  }

  function Act(s: State, c: nat, a: Action): State
    requires c < |s.conns|
  {
    var id := s.conns[c].id;
    match a
    case Register =>
      var oldOffline := id in s.reg && s.reg[id] < |s.conns| && s.conns[s.reg[id]].offline;
      var (reg, ok) := Nodes.Register(s.reg, id, c, oldOffline);
      Move(s, c, if ok then Registered else Gone).(reg := reg)
    case PutHandle => Move(s, c, Acking).(handles := s.handles[id := c])
    case Ack(written) =>
      if !written then Move(s, c, Closing)
      else s.(conns := s.conns[c := s.conns[c].(stage := Serving, wentOnline := true)],
              nodesOnline := s.nodesOnline + 1)
    case Disconnect => Move(s, c, Closing)
    case DropEntry =>
      var (reg, removed) := RemoveIf(s.reg, id, c);
      Move(s, c, if removed then Removing else Gone).(reg := reg)
    case DropHandle => Move(s, c, Dropping).(handles := RemoveIf(s.handles, id, c).0)
    case SetOffline =>
      s.(conns := s.conns[c := s.conns[c].(stage := Gone, offline := true, wentOffline := true)],
         nodesOffline := s.nodesOffline + 1)
  }

  function MoveKick(s: State, k: nat, to: KickStage): State
    requires k < |s.kicks|
  {
    s.(kicks := s.kicks[k := s.kicks[k].(stage := to)])
  }

  /** The entry of id is removed by a kick that had looked up connection target. */
  function Evict(s: State, id: string, target: nat): State {
    if id !in s.reg then s else
    var v := s.reg[id];
    var t := s.(reg := s.reg - {id});
    if v < |s.conns|
    then t.(conns := s.conns[v := s.conns[v].(evicted := if v == target then Kicked else Mistaken)])
    else t
  }

  predicate KickAt(s: State, k: nat, stage: KickStage) {
    k < |s.kicks| && s.kicks[k].stage == stage
  }

  predicate KickSent(s: State, k: nat) {
    k < |s.kicks| && s.kicks[k].stage.Sent?
  }

  function Step(s: State, e: Event): State {
    match e
    case Arrive(id) => s.(conns := s.conns + [Newcomer(id)])
    case Handler(c, a) => if c < |s.conns| && s.conns[c].stage == Before(a) then Act(s, c, a) else s
    case Kick(id) => if id in s.reg then s.(kicks := s.kicks + [Kicking(id, s.reg[id], Found)]) else s
    case KickLookup(k) => if KickAt(s, k, Found) then MoveKick(s, k, Sent(s.kicks[k].id in s.handles)) else s
    case KickRemove(k) =>
      if !KickSent(s, k) then s else
      var to := if s.kicks[k].stage.handled then Evicting else Finishing;
      Evict(MoveKick(s, k, to), s.kicks[k].id, s.kicks[k].target)
    case KickDelete(k) =>
      if KickAt(s, k, Evicting) then MoveKick(s, k, Finishing).(handles := s.handles - {s.kicks[k].id}) else s
    case KickOffline(k) =>
      if KickAt(s, k, Finishing) && s.kicks[k].target < |s.conns|
      then MoveKick(s, k, Over).(conns := s.conns[s.kicks[k].target := s.conns[s.kicks[k].target].(offline := true)])
      else s
  }

  function Run(s: State, es: seq<Event>): State {
    if es == [] then s else Step(Run(s, es[..|es| - 1]), es[|es| - 1])
  }

  predicate Live(stage: Stage) {
    stage.Registered? || stage.Acking? || stage.Serving? || stage.Closing?
  }

  /** Connection c is in the registry. */
  predicate Holds(c: Conn) {
    Live(c.stage) && c.evicted.Kept?
  }

  /** Connection c should be in the registry: nobody meant to kick it. */
  predicate Owns(c: Conn) {
    Live(c.stage) && !c.evicted.Kicked?
  }

  /** ... and has put its handle. */
  predicate Reachable(c: Conn) {
    (c.stage.Acking? || c.stage.Serving? || c.stage.Closing?) && !c.evicted.Kicked?
  }

  /** The stages in which a connection that was never evicted may have its handle in the map. */
  predicate HasPut(stage: Stage) {
    stage.Acking? || stage.Serving? || stage.Closing? || stage.Removing?
  }

  // ------------------------------------------------------- what holds in every run

  /** What an eviction or an end leaves behind on a connection. */
  predicate Consistent(c: Conn) {
    && (c.offline ==> !Holds(c) && !c.stage.Greeting?)
    && (!c.evicted.Kept? ==> !c.stage.Greeting? && !c.stage.Removing? && !c.stage.Dropping?)
  }

  /** The registry lists exactly the holders. */
  ghost predicate EntriesInv(conns: seq<Conn>, reg: map<string, nat>) {
    && (forall c | 0 <= c < |conns| && Holds(conns[c]) :: conns[c].id in reg && reg[conns[c].id] == c)
    && (forall id | id in reg :: reg[id] < |conns| && conns[reg[id]].id == id && Holds(conns[reg[id]]))
  }

  /** A kick has looked up a registered connection of its id; past its removal that one is no longer listed. */
  ghost predicate KicksInv(conns: seq<Conn>, kicks: seq<Kicking>) {
    forall k | 0 <= k < |kicks| :: KickInv(conns, kicks[k])
  }

  ghost predicate KickInv(conns: seq<Conn>, k: Kicking) {
    && k.target < |conns| && conns[k.target].id == k.id && !conns[k.target].stage.Greeting?
    && (k.stage.Evicting? || k.stage.Finishing? || k.stage.Over? ==> !Holds(conns[k.target]))
  }

  ghost predicate Base(s: State) {
    && (forall c | 0 <= c < |s.conns| :: Consistent(s.conns[c]))
    && EntriesInv(s.conns, s.reg)
    && KicksInv(s.conns, s.kicks)
  }

  lemma DropEntryBase(s: State, c: nat)
    requires Base(s) && c < |s.conns| && s.conns[c].stage == Closing
    ensures Base(Act(s, c, DropEntry))
  {
    assert Holds(s.conns[c]) <==> s.conns[c].id in s.reg && s.reg[s.conns[c].id] == c;
    assert Consistent(s.conns[c]);
  }

  lemma RegisterBase(s: State, c: nat)
    requires Base(s) && c < |s.conns| && s.conns[c].stage == Greeting
    ensures Base(Act(s, c, Register))
  {
    assert Consistent(s.conns[c]) && !Holds(s.conns[c]);
  }

  /** A connection may move without changing its claim on the registry. */
  lemma ClaimKept(s: State, t: State, c: nat)
    requires Base(s) && c < |s.conns| && |t.conns| == |s.conns| && t.kicks == s.kicks
    requires t.reg == s.reg && t.conns == s.conns[c := t.conns[c]] && t.conns[c].id == s.conns[c].id
    requires Holds(t.conns[c]) == Holds(s.conns[c]) && Consistent(t.conns[c]) && !t.conns[c].stage.Greeting?
    ensures Base(t)
  {
  }

  lemma ActBase(s: State, c: nat, a: Action)
    requires Base(s) && c < |s.conns| && s.conns[c].stage == Before(a)
    ensures Base(Act(s, c, a))
  {
    assert Consistent(s.conns[c]);
    hide Base;
    match a
    case Register => RegisterBase(s, c);
    case DropEntry => DropEntryBase(s, c);
    case _ => ClaimKept(s, Act(s, c, a), c);
  }

  lemma ArrivalBase(s: State, id: string)
    requires Base(s)
    ensures Base(Step(s, Arrive(id)))
  {
  }

  lemma EvictBase(s: State, k: nat)
    requires Base(s)
    ensures Base(Step(s, KickRemove(k)))
  {
    if KickSent(s, k) {
      assert KickInv(s.conns, s.kicks[k]);
    }
  }

  /** The other sections of a kick leave the registry alone. */
  lemma KickBase(s: State, e: Event)
    requires Base(s) && (e.Kick? || e.KickLookup? || e.KickDelete? || e.KickOffline?)
    ensures Base(Step(s, e))
  {
    if (e.KickLookup? || e.KickDelete? || e.KickOffline?) && e.k < |s.kicks| {
      assert KickInv(s.conns, s.kicks[e.k]);
      assert Consistent(s.conns[s.kicks[e.k].target]);
    }
  }

  lemma StepBase(s: State, e: Event)
    requires Base(s)
    ensures Base(Step(s, e))
  {
    hide Base, Act;
    match e
    case Arrive(id) => ArrivalBase(s, id);
    case KickRemove(k) => EvictBase(s, k);
    case Handler(c, a) =>
      if c < |s.conns| && s.conns[c].stage == Before(a) {
        ActBase(s, c, a);
      }
    case _ => KickBase(s, e);
  }

  /** After any interleaving of connects, disconnects and kicks. */
  lemma {:induction false} BaseReachable(es: seq<Event>)
    ensures Base(Run(Start, es))
  {
    hide Step;
    if es != [] {
      BaseReachable(es[..|es| - 1]);
      hide Base;
      StepBase(Run(Start, es[..|es| - 1]), es[|es| - 1]);
    }
  }

  // ------------------------------------------------------- the registry is right

  /** A removal by a kick finds no entry, or that of the connection it looked up. */
  predicate OnTarget(s: State, e: Event) {
    e.KickRemove? && KickSent(s, e.k) && s.kicks[e.k].id in s.reg ==> s.reg[s.kicks[e.k].id] == s.kicks[e.k].target
  }

  predicate OnTargetRun(es: seq<Event>) {
    es == [] || (OnTargetRun(es[..|es| - 1]) && OnTarget(Run(Start, es[..|es| - 1]), es[|es| - 1]))
  }

  /** The registry lists exactly the connections that nobody meant to kick. */
  ghost predicate RegistryRight(s: State) {
    && (forall c | 0 <= c < |s.conns| && Owns(s.conns[c]) :: s.conns[c].id in s.reg && s.reg[s.conns[c].id] == c)
    && (forall id | id in s.reg ::
          s.reg[id] < |s.conns| && s.conns[s.reg[id]].id == id && Owns(s.conns[s.reg[id]]))
  }

  ghost predicate NoMistake(s: State) {
    forall c | 0 <= c < |s.conns| && Live(s.conns[c].stage) :: !s.conns[c].evicted.Mistaken?
  }

  lemma NobodyMistaken(s: State)
    requires Base(s)
    ensures RegistryRight(s) <==> NoMistake(s)
  {
    assert forall c | 0 <= c < |s.conns| && Owns(s.conns[c]) && s.conns[c].evicted.Kept? :: Holds(s.conns[c]);
    assert forall c | 0 <= c < |s.conns| && Live(s.conns[c].stage) && s.conns[c].evicted.Mistaken? :: Owns(s.conns[c]);
  }

  /** The registry is right exactly as long as no live connection was evicted by mistake, and the next
      mistake is the next removal that is off target. */
  lemma RightStep(s: State, e: Event)
    requires Base(s) && RegistryRight(s)
    ensures RegistryRight(Step(s, e)) <==> OnTarget(s, e)
  {
    StepBase(s, e);
    NobodyMistaken(s);
    NobodyMistaken(Step(s, e));
    hide RegistryRight;
    if e.KickRemove? {
      EvictionNoted(s, e.k);
    } else {
      NoNewMistake(s, e);
    }
  }

  lemma EvictionNoted(s: State, k: nat)
    requires Base(s) && NoMistake(s)
    ensures NoMistake(Step(s, KickRemove(k))) <==> OnTarget(s, KickRemove(k))
  {
    var t := Step(s, KickRemove(k));
    if KickSent(s, k) && s.kicks[k].id in s.reg {
      var v := s.reg[s.kicks[k].id];
      assert Holds(s.conns[v]);
      assert t.conns == s.conns[v := s.conns[v].(evicted := if v == s.kicks[k].target then Kicked else Mistaken)];
      assert Live(t.conns[v].stage);
    }
  }

  lemma NoNewMistake(s: State, e: Event)
    requires Base(s) && NoMistake(s) && !e.KickRemove?
    ensures NoMistake(Step(s, e))
  {
    hide EntriesInv, KicksInv;
    if e.Handler? && e.c < |s.conns| {
      assert Consistent(s.conns[e.c]);
    }
  }

  /** Whole runs, kicks interleaved section by section: the registry is right all along exactly when every
      removal by a kick was on target. */
  lemma {:induction false} RegistryHolds(es: seq<Event>)
    ensures OnTargetRun(es) <==> RightThroughout(es)
  {
    if es != [] {
      var init := es[..|es| - 1];
      RegistryHolds(init);
      BaseReachable(init);
      hide Step, Base, OnTarget, RegistryRight;
      if RightThroughout(init) {
        RightNow(init);
        RightStep(Run(Start, init), es[|es| - 1]);
      }
    }
  }

  ghost predicate RightThroughout(es: seq<Event>) {
    RegistryRight(Run(Start, es)) && (es != [] ==> RightThroughout(es[..|es| - 1]))
  }

  lemma RightNow(es: seq<Event>)
    requires RightThroughout(es)
    ensures RegistryRight(Run(Start, es))
  {
  }

  // ------------------------------------------------------- both maps are right

  /** A kick that removed, or found removed, the entry of connection c has yet to remove the handle. */
  ghost predicate Pending(kicks: seq<Kicking>, c: nat) {
    exists k :: 0 <= k < |kicks| && kicks[k].target == c && kicks[k].stage.Evicting?
  }

  /** A connection whose handle may be in the map: it put it and has not taken it back, or the kick that
      evicted it is about to. */
  ghost predicate MayHaveHandle(conn: Conn, pending: bool) {
    || (conn.evicted.Kept? && HasPut(conn.stage))
    || (conn.evicted.Kicked? && !conn.stage.Greeting? && !conn.stage.Registered? && pending)
  }

  ghost predicate HandlesInv(conns: seq<Conn>, handles: map<string, nat>, kicks: seq<Kicking>) {
    && (forall c | 0 <= c < |conns| && Reachable(conns[c]) :: conns[c].id in handles && handles[conns[c].id] == c)
    && (forall id | id in handles ::
          handles[id] < |conns| && conns[handles[id]].id == id
          && MayHaveHandle(conns[handles[id]], Pending(kicks, handles[id])))
    && (forall c | 0 <= c < |conns| && conns[c].stage == Registered :: conns[c].evicted.Kept?)
  }

  ghost predicate Inv(s: State) {
    Base(s) && NoMistake(s) && HandlesInv(s.conns, s.handles, s.kicks)
  }

  /** A removal by a kick finds no entry, or that of the connection it looked up, together with its handle,
      and after its put; a deletion does not find the handle of a connection in use. */
  predicate Aimed(s: State, e: Event) {
    && (e.KickRemove? && KickSent(s, e.k) && s.kicks[e.k].id in s.reg ==>
          var k := s.kicks[e.k];
          s.reg[k.id] == k.target < |s.conns| && k.stage.handled && s.conns[k.target].stage != Registered)
    && (e.KickDelete? && KickAt(s, e.k, Evicting) && s.kicks[e.k].id in s.handles ==>
          var h := s.handles[s.kicks[e.k].id];
          h < |s.conns| && !Reachable(s.conns[h]))
  }

  predicate AimedFrom(s: State, es: seq<Event>) {
    es == [] || (AimedFrom(s, es[..|es| - 1]) && Aimed(Run(s, es[..|es| - 1]), es[|es| - 1]))
  }

  predicate AimedRun(es: seq<Event>) {
    AimedFrom(Start, es)
  }

  lemma PutKept(s: State, c: nat)
    requires Inv(s) && c < |s.conns| && s.conns[c].stage == Registered
    ensures var t := Act(s, c, PutHandle); HandlesInv(t.conns, t.handles, t.kicks)
  {
    hide Pending, KicksInv;
    assert Holds(s.conns[c]);
    assert forall d | 0 <= d < |s.conns| && Reachable(s.conns[d]) :: Holds(s.conns[d]);
  }

  lemma DropHandleKept(s: State, c: nat)
    requires Inv(s) && c < |s.conns| && s.conns[c].stage == Removing
    ensures var t := Act(s, c, DropHandle); HandlesInv(t.conns, t.handles, t.kicks)
  {
    hide Pending, KicksInv, EntriesInv;
    assert Consistent(s.conns[c]);
  }

  /** A connection may move without changing its claim on the handles. */
  lemma HandleKept(s: State, t: State, c: nat)
    requires HandlesInv(s.conns, s.handles, s.kicks) && c < |s.conns| && |t.conns| == |s.conns|
    requires t.handles == s.handles && t.conns == s.conns[c := t.conns[c]] && t.conns[c].id == s.conns[c].id
    requires forall d: nat :: Pending(s.kicks, d) ==> Pending(t.kicks, d)
    requires Reachable(t.conns[c]) ==> Reachable(s.conns[c])
    requires t.conns[c].stage == Registered ==> t.conns[c].evicted.Kept?
    requires forall pending :: MayHaveHandle(s.conns[c], pending) ==> MayHaveHandle(t.conns[c], pending)
    ensures HandlesInv(t.conns, t.handles, t.kicks)
  {
    hide Pending;
  }

  lemma ActKept(s: State, c: nat, a: Action)
    requires Inv(s) && c < |s.conns| && s.conns[c].stage == Before(a)
    ensures Inv(Act(s, c, a))
  {
    ActBase(s, c, a);
    NoNewMistake(s, Handler(c, a));
    assert Consistent(s.conns[c]);
    if a.DropEntry? && s.conns[c].evicted.Kept? {
      assert Holds(s.conns[c]);
      assert s.conns[c].id in s.reg && s.reg[s.conns[c].id] == c;
    }
    hide Base, NoMistake, HandlesInv, Pending;
    match a
    case PutHandle => PutKept(s, c);
    case DropHandle => DropHandleKept(s, c);
    case _ => HandleKept(s, Act(s, c, a), c);
  }

  lemma PendingMoves(kicks: seq<Kicking>, k: nat, to: KickStage, d: nat)
    requires k < |kicks| && (kicks[k].stage.Evicting? ==> to.Evicting? || kicks[k].target != d)
    ensures Pending(kicks, d) ==> Pending(kicks[k := kicks[k].(stage := to)], d)
  {
    if i :| 0 <= i < |kicks| && kicks[i].target == d && kicks[i].stage.Evicting? {
      var moved := kicks[k := kicks[k].(stage := to)];
      assert moved[i].target == d && moved[i].stage.Evicting?;
    }
  }

  lemma EvictKept(s: State, k: nat)
    requires Inv(s) && KickSent(s, k) && Aimed(s, KickRemove(k))
    ensures var t := Step(s, KickRemove(k)); HandlesInv(t.conns, t.handles, t.kicks)
  {
    var t := Step(s, KickRemove(k));
    var to := if s.kicks[k].stage.handled then Evicting else Finishing;
    var id, c := s.kicks[k].id, s.kicks[k].target;
    forall d: nat
      ensures Pending(s.kicks, d) ==> Pending(t.kicks, d)
    {
      PendingMoves(s.kicks, k, to, d);
    }
    assert KickInv(s.conns, s.kicks[k]);
    if id in s.reg {
      assert Holds(s.conns[c]) && Reachable(s.conns[c]);
      assert t.kicks[k].target == c && t.kicks[k].stage.Evicting?;
      assert Pending(t.kicks, c);
      hide Base, Pending;
    } else {
      hide Base, Pending;
    }
  }

  lemma DeleteKept(s: State, k: nat)
    requires Inv(s) && KickAt(s, k, Evicting) && Aimed(s, KickDelete(k))
    ensures var t := Step(s, KickDelete(k)); HandlesInv(t.conns, t.handles, t.kicks)
  {
    var t := Step(s, KickDelete(k));
    assert KickInv(s.conns, s.kicks[k]);
    forall d: nat | d != s.kicks[k].target
      ensures Pending(s.kicks, d) ==> Pending(t.kicks, d)
    {
      PendingMoves(s.kicks, k, Finishing, d);
    }
    hide Base, Pending;
  }

  lemma OtherKickKept(s: State, e: Event)
    requires Inv(s) && (e.Kick? || e.KickLookup? || e.KickOffline?)
    ensures var t := Step(s, e); HandlesInv(t.conns, t.handles, t.kicks)
  {
    var t := Step(s, e);
    forall d: nat
      ensures Pending(s.kicks, d) ==> Pending(t.kicks, d)
    {
      if e.Kick? {
        if i :| 0 <= i < |s.kicks| && s.kicks[i].target == d && s.kicks[i].stage.Evicting? {
          assert t.kicks[i] == s.kicks[i];
        }
      } else if e.k < |s.kicks| && !s.kicks[e.k].stage.Evicting? {
        PendingMoves(s.kicks, e.k, t.kicks[e.k].stage, d);
      }
    }
    hide Base, Pending;
  }

  lemma ArrivalKept(s: State, id: string)
    requires Inv(s)
    ensures var t := Step(s, Arrive(id)); HandlesInv(t.conns, t.handles, t.kicks)
  {
    hide Base, Pending;
  }

  lemma StepKept(s: State, e: Event)
    requires Inv(s) && Aimed(s, e)
    ensures Inv(Step(s, e))
  {
    StepBase(s, e);
    if e.KickRemove? {
      EvictionNoted(s, e.k);
    } else {
      NoNewMistake(s, e);
    }
    hide Base, NoMistake, HandlesInv, Act, Aimed;
    match e
    case Arrive(id) => ArrivalKept(s, id);
    case Handler(c, a) =>
      if c < |s.conns| && s.conns[c].stage == Before(a) {
        ActKept(s, c, a);
      }
    case KickRemove(k) =>
      if KickSent(s, k) {
        EvictKept(s, k);
      }
    case KickDelete(k) =>
      if KickAt(s, k, Evicting) {
        DeleteKept(s, k);
      }
    case _ => OtherKickKept(s, e);
  }

  lemma {:induction false} OwnershipFrom(s: State, es: seq<Event>)
    requires Inv(s) && AimedFrom(s, es)
    ensures Inv(Run(s, es))
  {
    hide Inv, Aimed, Step;
    if es != [] {
      OwnershipFrom(s, es[..|es| - 1]);
      StepKept(Run(s, es[..|es| - 1]), es[|es| - 1]);
    }
  }

  lemma StartIsGood()
    ensures Inv(Start)
  {
  }

  /** After any interleaving of connects, disconnects and well-aimed kicks, of one or many node ids. */
  lemma {:induction false} OwnershipHolds(es: seq<Event>)
    requires AimedRun(es)
    ensures Inv(Run(Start, es))
  {
    StartIsGood();
    hide Inv;
    OwnershipFrom(Start, es);
  }

  // ------------------------------------------------------- which kicks are safe

  /** What the relay relies on: a connection in use is found through both maps, and neither map leads to one
      that is gone, unless a kick is about to remove that handle. */
  ghost predicate Sound(s: State) {
    && (forall c | 0 <= c < |s.conns| && Reachable(s.conns[c]) ::
          var id := s.conns[c].id;
          id in s.reg && s.reg[id] == c && id in s.handles && s.handles[id] == c)
    && (forall id | id in s.reg :: s.reg[id] < |s.conns| && s.conns[s.reg[id]].stage != Gone)
    && (forall id | id in s.handles ::
          s.handles[id] < |s.conns| && (s.conns[s.handles[id]].stage != Gone || Pending(s.kicks, s.handles[id])))
  }

  lemma InvIsSound(s: State)
    requires Inv(s)
    ensures Sound(s)
  {
    hide KicksInv, Pending;
    assert forall c | 0 <= c < |s.conns| && Reachable(s.conns[c]) :: Holds(s.conns[c]);
  }

  /** Sound now and after any further steps in which kicks are well aimed. */
  ghost predicate StaysSound(s: State) {
    forall es :: AimedFrom(s, es) ==> Sound(Run(s, es))
  }

  /** Only handlers and newcomers. */
  predicate KickFree(es: seq<Event>) {
    forall i | 0 <= i < |es| :: es[i].Handler? || es[i].Arrive?
  }

  lemma {:induction false} KickFreeIsAimed(s: State, es: seq<Event>)
    requires KickFree(es)
    ensures AimedFrom(s, es)
  {
    if es != [] {
      KickFreeIsAimed(s, es[..|es| - 1]);
    }
  }

  lemma RunAppend(s: State, es: seq<Event>, e: Event)
    ensures Run(s, es + [e]) == Step(Run(s, es), e)
  {
    assert (es + [e])[..|es|] == es;
  }

  lemma RunFew(s: State, a: Event, b: Event, c: Event, d: Event)
    ensures Run(s, [a]) == Step(s, a)
    ensures Run(s, [a, b]) == Step(Step(s, a), b)
    ensures Run(s, [a, b, c]) == Step(Step(Step(s, a), b), c)
    ensures Run(s, [a, b, c, d]) == Step(Step(Step(Step(s, a), b), c), d)
  {
    hide Step;
    assert Run(s, []) == s;
    RunAppend(s, [], a);
    RunAppend(s, [a], b);
    RunAppend(s, [a, b], c);
    RunAppend(s, [a, b, c], d);
    assert [] + [a] == [a] && [a] + [b] == [a, b] && [a, b] + [c] == [a, b, c] && [a, b, c] + [d] == [a, b, c, d];
    hide Run;
  }

  lemma ThreeTo(s0: State, a: Event, s1: State, b: Event, s2: State, c: Event, s3: State)
    requires Step(s0, a) == s1 && Step(s1, b) == s2 && Step(s2, c) == s3
    ensures Run(s0, [a, b, c]) == s3 && Run(s0, [a, b]) == s2
  {
    hide Step;
    RunFew(s0, a, b, c, c);
    hide Run;
  }

  lemma FourTo(s0: State, a: Event, s1: State, b: Event, s2: State, c: Event, s3: State, d: Event, s4: State)
    requires Step(s0, a) == s1 && Step(s1, b) == s2 && Step(s2, c) == s3 && Step(s3, d) == s4
    ensures Run(s0, [a, b, c, d]) == s4
  {
    hide Step;
    RunFew(s0, a, b, c, d);
    hide Run;
  }

  /** A newcomer with the id of c registers and puts its handle; then c, kicked before its put, puts its own. */
  function Overtaken(id: string, n: nat, c: nat): seq<Event> {
    [Arrive(id), Handler(n, Register), Handler(n, PutHandle), Handler(c, PutHandle)]
  }

  /** Connection c in use is not found, through the registry or through the handles. */
  ghost predicate Unfound(s: State, c: nat) {
    && c < |s.conns| && Reachable(s.conns[c])
    && !(s.conns[c].id in s.reg && s.reg[s.conns[c].id] == c
         && s.conns[c].id in s.handles && s.handles[s.conns[c].id] == c)
  }

  /** Connection c is gone, its handle is still in the map, and no kick is about to remove it. */
  ghost predicate Stranded(s: State, c: nat) {
    && c < |s.conns| && s.conns[c].stage == Gone && !Pending(s.kicks, c)
    && s.conns[c].id in s.handles && s.handles[s.conns[c].id] == c
  }

  /** A removal that takes the entry of a connection nobody meant to kick. */
  lemma WrongEntryRemoved(s: State, k: nat) returns (es: seq<Event>)
    requires Inv(s) && KickSent(s, k) && s.kicks[k].id in s.reg && s.reg[s.kicks[k].id] != s.kicks[k].target
    ensures var v := s.reg[s.kicks[k].id];
      KickFree(es) && Unfound(Run(Step(s, KickRemove(k)), es), v)
  {
    var v := s.reg[s.kicks[k].id];
    var t := Step(s, KickRemove(k));
    assert v < |s.conns| && Holds(s.conns[v]) && s.conns[v].id == s.kicks[k].id;
    hide Base, HandlesInv, NoMistake;
    es := if s.conns[v].stage == Registered then [Handler(v, PutHandle)] else [];
    RunFew(t, Handler(v, PutHandle), Arrive(""), Arrive(""), Arrive(""));
    assert Run(t, []) == t;
    hide Run;
  }

  lemma NewcomerOvertaken(t: State, id: string, c: nat)
    requires c < |t.conns| && t.conns[c].stage == Registered && t.conns[c].id == id && id !in t.reg
    ensures Unfound(Run(t, Overtaken(id, |t.conns|, c)), |t.conns|)
  {
    var n := |t.conns|;
    var puts := [Arrive(id), Handler(n, Register), Handler(n, PutHandle)];
    NewcomerPuts(t, id);
    OldHandlePut(t, id, c);
    RunAppend(t, puts, Handler(c, PutHandle));
    assert puts + [Handler(c, PutHandle)] == Overtaken(id, n, c);
    hide *;
  }

  lemma OldHandlePut(t: State, id: string, c: nat)
    requires c < |t.conns| && t.conns[c].stage == Registered && t.conns[c].id == id
    ensures var n := |t.conns|;
      var u := t.(conns := t.conns + [Newcomer(id).(stage := Acking)], reg := t.reg[id := n],
                  handles := t.handles[id := n]);
      Unfound(Step(u, Handler(c, PutHandle)), n)
  {
  }

  lemma NewcomerPuts(t: State, id: string)
    requires id !in t.reg
    ensures var n := |t.conns|;
      Run(t, [Arrive(id), Handler(n, Register), Handler(n, PutHandle)]) ==
      t.(conns := t.conns + [Newcomer(id).(stage := Acking)], reg := t.reg[id := n], handles := t.handles[id := n])
  {
    var n := |t.conns|;
    NewcomerMoves(t, id, Greeting, Registered);
    NewcomerMoves(t, id, Registered, Acking);
    ThreeTo(t, Arrive(id), t.(conns := t.conns + [Newcomer(id)]),
            Handler(n, Register), t.(conns := t.conns + [Newcomer(id).(stage := Registered)], reg := t.reg[id := n]),
            Handler(n, PutHandle),
            t.(conns := t.conns + [Newcomer(id).(stage := Acking)], reg := t.reg[id := n],
               handles := t.handles[id := n]));
  }

  lemma NewcomerMoves(t: State, id: string, was: Stage, to: Stage)
    ensures (t.conns + [Newcomer(id).(stage := was)])[|t.conns| := Newcomer(id).(stage := to)]
         == t.conns + [Newcomer(id).(stage := to)]
  {
  }

  /** A removal before the put of the connection it kicks. */
  lemma RemovedBeforePut(s: State, k: nat) returns (es: seq<Event>)
    requires Inv(s) && KickSent(s, k) && s.kicks[k].id in s.reg && s.reg[s.kicks[k].id] == s.kicks[k].target
    requires s.kicks[k].target < |s.conns| && s.conns[s.kicks[k].target].stage == Registered
    ensures KickFree(es) && Unfound(Run(Step(s, KickRemove(k)), es), |s.conns|)
  {
    var id, c := s.kicks[k].id, s.kicks[k].target;
    assert Holds(s.conns[c]) && s.conns[c].id == id;
    hide Run, Base, HandlesInv, NoMistake, Unfound;
    es := Overtaken(id, |s.conns|, c);
    NewcomerOvertaken(Step(s, KickRemove(k)), id, c);
  }

  /** From the put to the end. */
  function ToTheEnd(c: nat, stage: Stage): seq<Event> {
    if stage.Acking? then [Handler(c, Ack(false)), Handler(c, DropEntry)]
    else if stage.Serving? then [Handler(c, Disconnect), Handler(c, DropEntry)]
    else [Handler(c, DropEntry)]
  }

  lemma LeftUnlisted(t: State, c: nat)
    requires c < |t.conns| && t.conns[c].id !in t.reg
    requires t.conns[c].stage.Acking? || t.conns[c].stage.Serving? || t.conns[c].stage.Closing?
    ensures Run(t, ToTheEnd(c, t.conns[c].stage)) == Move(t, c, Gone)
  {
    var drop := Handler(c, DropEntry);
    var first := if t.conns[c].stage.Acking? then Handler(c, Ack(false)) else Handler(c, Disconnect);
    RunFew(t, first, drop, drop, drop);
    RunFew(t, drop, drop, drop, drop);
    if t.conns[c].stage.Closing? {
      UnlistedEnds(t, c);
    } else {
      Closes(t, c);
      UnlistedEnds(Move(t, c, Closing), c);
      MovedTwice(t, c, Closing, Gone);
    }
    hide Run, Step;
  }

  lemma Closes(t: State, c: nat)
    requires c < |t.conns|
    ensures t.conns[c].stage.Acking? ==> Step(t, Handler(c, Ack(false))) == Move(t, c, Closing)
    ensures t.conns[c].stage.Serving? ==> Step(t, Handler(c, Disconnect)) == Move(t, c, Closing)
  {
    hide Move;
  }

  lemma UnlistedEnds(t: State, c: nat)
    requires c < |t.conns| && t.conns[c].id !in t.reg && t.conns[c].stage.Closing?
    ensures Step(t, Handler(c, DropEntry)) == Move(t, c, Gone)
  {
    assert Move(t, c, Gone).(reg := t.reg) == Move(t, c, Gone);
  }

  lemma MovedTwice(t: State, c: nat, a: Stage, b: Stage)
    requires c < |t.conns|
    ensures Move(Move(t, c, a), c, b) == Move(t, c, b)
  {
    assert t.conns[c := t.conns[c].(stage := a)][c := t.conns[c].(stage := b)] == t.conns[c := t.conns[c].(stage := b)];
  }

  /** A removal by a kick that looked for the handle before the connection put it: nobody takes it back. */
  lemma HandleNeverSeen(s: State, k: nat) returns (es: seq<Event>)
    requires Inv(s) && KickSent(s, k) && !s.kicks[k].stage.handled
    requires s.kicks[k].id in s.reg && s.reg[s.kicks[k].id] == s.kicks[k].target
    requires s.kicks[k].target < |s.conns| && s.conns[s.kicks[k].target].stage != Registered
    ensures KickFree(es) && Stranded(Run(Step(s, KickRemove(k)), es), s.kicks[k].target)
  {
    var t, c := Step(s, KickRemove(k)), s.kicks[k].target;
    assert Holds(s.conns[c]) && Reachable(s.conns[c]) && s.conns[c].id == s.kicks[k].id;
    NotPending(s, k);
    assert s.handles[s.kicks[k].id] == c;
    hide Run, Base, HandlesInv, NoMistake, Pending;
    es := ToTheEnd(c, s.conns[c].stage);
    LeftUnlisted(t, c);
  }

  lemma NotPending(s: State, k: nat)
    requires Base(s) && k < |s.kicks| && s.kicks[k].target < |s.conns| && Holds(s.conns[s.kicks[k].target])
    ensures var c := s.kicks[k].target;
      !Pending(s.kicks, c) && !Pending(s.kicks[k := s.kicks[k].(stage := Finishing)], c)
  {
    var c := s.kicks[k].target;
    assert forall i | 0 <= i < |s.kicks| :: KickInv(s.conns, s.kicks[i]);
  }

  lemma Unsound(s: State, c: nat)
    requires Unfound(s, c) || Stranded(s, c)
    ensures !Sound(s)
  {
  }

  /** A section of a kick that is not well aimed has a way to go wrong. */
  lemma UnaimedBreaks(s: State, e: Event) returns (es: seq<Event>)
    requires Inv(s) && !Aimed(s, e)
    ensures KickFree(es) && !Sound(Run(Step(s, e), es))
  {
    var k := e.k;
    var id, target := s.kicks[k].id, s.kicks[k].target;
    assert KickInv(s.conns, s.kicks[k]);
    if e.KickDelete? {
      es := [];
      assert Run(Step(s, e), []) == Step(s, e);
      Unsound(Step(s, e), s.handles[id]);
    } else if s.reg[id] != target {
      es := WrongEntryRemoved(s, k);
      Unsound(Run(Step(s, e), es), s.reg[id]);
    } else if s.conns[target].stage == Registered {
      es := RemovedBeforePut(s, k);
      Unsound(Run(Step(s, e), es), |s.conns|);
    } else {
      es := HandleNeverSeen(s, k);
      Unsound(Run(Step(s, e), es), target);
    }
  }

  /** In every state reached by well-aimed kicks, and for every next step: what follows stays sound exactly
      when that step is well aimed too. */
  lemma {:induction false} KickKeepsExactly(before: seq<Event>, e: Event)
    requires AimedRun(before)
    ensures Aimed(Run(Start, before), e) <==> StaysSound(Step(Run(Start, before), e))
  {
    var s := Run(Start, before);
    var t := Step(s, e);
    OwnershipHolds(before);
    hide Run, AimedFrom, Inv, Step, Sound, Aimed, KickFree;
    if Aimed(s, e) {
      StepKept(s, e);
      forall es | AimedFrom(t, es)
        ensures Sound(Run(t, es))
      {
        OwnershipFrom(t, es);
        InvIsSound(Run(t, es));
      }
    } else {
      var es := UnaimedBreaks(s, e);
      KickFreeIsAimed(t, es);
    }
  }

  /** Sound at every moment, and whatever well-aimed steps come next. */
  ghost predicate SoundThroughout(es: seq<Event>) {
    StaysSound(Run(Start, es)) && (es != [] ==> SoundThroughout(es[..|es| - 1]))
  }

  /** Whole runs, kicks interleaved section by section: the maps stay sound all along exactly when every
      section of every kick is well aimed. */
  lemma {:induction false} SoundExactly(es: seq<Event>)
    ensures AimedRun(es) <==> SoundThroughout(es)
  {
    if es == [] {
      StartStaysSound();
    } else {
      var init := es[..|es| - 1];
      SoundExactly(init);
      hide Step, StaysSound, Aimed;
      if AimedRun(init) {
        KickKeepsExactly(init, es[|es| - 1]);
      }
    }
  }

  lemma StartStaysSound()
    ensures StaysSound(Start)
  {
    StartIsGood();
    hide Inv, Sound, Aimed;
    forall es | AimedFrom(Start, es)
      ensures Sound(Run(Start, es))
    {
      OwnershipFrom(Start, es);
      InvIsSound(Run(Start, es));
    }
  }

  // ------------------------------------------------------- the methods are runs of the machine

  /** objects is numbers with each number read as the node object it stands for. */
  ghost predicate Stands(objs: seq<Node>, objects: map<string, Node>, numbers: map<string, nat>) {
    && objects.Keys == numbers.Keys
    && (forall id | id in numbers :: numbers[id] < |objs| && objects[id] == objs[numbers[id]])
  }

  ghost predicate Numbered(objs: seq<Node>, s: State) {
    && |objs| == |s.conns|
    && (forall i, j | 0 <= i < j < |objs| :: objs[i] != objs[j])
  }

  lemma RemovalAgrees(objs: seq<Node>, objects: map<string, Node>, numbers: map<string, nat>, id: string, c: nat)
    requires Stands(objs, objects, numbers) && c < |objs|
    requires forall i, j | 0 <= i < j < |objs| :: objs[i] != objs[j]
    ensures RemoveIf(objects, id, objs[c]).1 == RemoveIf(numbers, id, c).1
    ensures Stands(objs, RemoveIf(objects, id, objs[c]).0, RemoveIf(numbers, id, c).0)
  {
    if id in numbers && numbers[id] != c {
      assert objs[numbers[id]] != objs[c];
    }
  }

  /** What TryRegister promises is the Register step. */
  lemma RegisterIsOneStep(objs: seq<Node>, nodes: map<string, Node>, s: State, c: nat, oldOffline: bool)
    requires Numbered(objs, s) && Stands(objs, nodes, s.reg)
    requires c < |s.conns| && s.conns[c].stage == Greeting
    requires oldOffline == (s.conns[c].id in s.reg && s.conns[s.reg[s.conns[c].id]].offline)
    ensures var t := Step(s, Handler(c, Register));
      var (nodes', ok) := Nodes.Register(nodes, s.conns[c].id, objs[c], oldOffline);
      Stands(objs, nodes', t.reg) && t.conns[c].stage == if ok then Registered else Gone
  {
  }

  /** What Teardown promises is DropEntry, DropHandle and SetOffline, one after the other. */
  lemma TeardownIsThreeSteps(objs: seq<Node>, nodes: map<string, Node>, handles: map<string, Node>, s: State, c: nat)
    requires Numbered(objs, s) && Stands(objs, nodes, s.reg) && Stands(objs, handles, s.handles)
    requires c < |s.conns| && s.conns[c].stage == Closing
    ensures var id := s.conns[c].id;
      var t := Run(s, [Handler(c, DropEntry), Handler(c, DropHandle), Handler(c, SetOffline)]);
      var (nodes', offline) := RemoveIf(nodes, id, objs[c]);
      && Stands(objs, nodes', t.reg)
      && Stands(objs, if offline then RemoveIf(handles, id, objs[c]).0 else handles, t.handles)
      && |t.conns| == |s.conns| && t.conns == s.conns[c := t.conns[c]] && t.conns[c].stage == Gone
      && t.conns[c].offline == (offline || s.conns[c].offline)
      && t.nodesOffline == s.nodesOffline + if offline then 1 else 0
  {
    var id := s.conns[c].id;
    RemovalAgrees(objs, nodes, s.reg, id, c);
    RemovalAgrees(objs, handles, s.handles, id, c);
    TornDown(s, c);
    hide Run, Stands;
  }

  lemma TornDown(s: State, c: nat)
    requires c < |s.conns| && s.conns[c].stage == Closing
    ensures var conn := s.conns[c];
      Run(s, [Handler(c, DropEntry), Handler(c, DropHandle), Handler(c, SetOffline)]) ==
      if RemoveIf(s.reg, conn.id, c).1
      then State(s.conns[c := conn.(stage := Gone, offline := true, wentOffline := true)],
                 s.reg - {conn.id}, RemoveIf(s.handles, conn.id, c).0, s.kicks, s.nodesOnline, s.nodesOffline + 1)
      else Move(s, c, Gone)
  {
    RunFew(s, Handler(c, DropEntry), Handler(c, DropHandle), Handler(c, SetOffline), Arrive(""));
    hide Run;
  }

  /** What KickNode promises is its five sections in a row. */
  lemma KickIsFiveSteps(objs: seq<Node>, nodes: map<string, Node>, handles: map<string, Node>, s: State, id: string)
    requires Numbered(objs, s) && Stands(objs, nodes, s.reg) && Stands(objs, handles, s.handles)
    ensures var t := Run(s, WholeKick(id, |s.kicks|) + [KickOffline(|s.kicks|)]);
      && Stands(objs, nodes - {id}, t.reg)
      && Stands(objs, if id in nodes then handles - {id} else handles, t.handles)
      && (id in nodes ==> |t.conns| == |s.conns| && t.conns[s.reg[id]].offline && t.conns[s.reg[id]].evicted.Kicked?)
  {
    KickedAlone(s, id);
    hide Run;
  }

  function WholeKick(id: string, k: nat): seq<Event> {
    [Kick(id), KickLookup(k), KickRemove(k), KickDelete(k)]
  }

  lemma KickedAlone(s: State, id: string)
    ensures var k := |s.kicks|;
      var t := Run(s, WholeKick(id, k) + [KickOffline(k)]);
      if id !in s.reg then t == s
      else s.reg[id] < |s.conns| ==>
        t == State(s.conns[s.reg[id] := s.conns[s.reg[id]].(evicted := Kicked, offline := true)],
                   s.reg - {id}, s.handles - {id}, s.kicks + [Kicking(id, s.reg[id], Over)],
                   s.nodesOnline, s.nodesOffline)
  {
    var k := |s.kicks|;
    RunAppend(s, WholeKick(id, k), KickOffline(k));
    if id !in s.reg {
      FourTo(s, Kick(id), s, KickLookup(k), s, KickRemove(k), s, KickDelete(k), s);
      hide Run;
    } else if s.reg[id] < |s.conns| {
      var c := s.reg[id];
      var evicted := s.conns[c := s.conns[c].(evicted := Kicked)];
      var s1 := KickIs(s, id, c, Found);
      var s2 := KickIs(s, id, c, Sent(id in s.handles));
      var s3 := KickIs(s.(conns := evicted, reg := s.reg - {id}), id, c,
                       if id in s.handles then Evicting else Finishing);
      var s4 := KickIs(s.(conns := evicted, reg := s.reg - {id}, handles := s.handles - {id}), id, c, Finishing);
      FirstSections(s, id, c);
      LastSections(s, id, c);
      hide Run, Step, KickIs;
      FourTo(s, Kick(id), s1, KickLookup(k), s2, KickRemove(k), s3, KickDelete(k), s4);
    }
  }

  /** s with one more kick. */
  function KickIs(s: State, id: string, c: nat, stage: KickStage): State {
    s.(kicks := s.kicks + [Kicking(id, c, stage)])
  }

  lemma KickMoves(s: State, id: string, c: nat, was: KickStage, to: KickStage)
    ensures MoveKick(KickIs(s, id, c, was), |s.kicks|, to) == KickIs(s, id, c, to)
  {
    assert (s.kicks + [Kicking(id, c, was)])[|s.kicks| := Kicking(id, c, to)] == s.kicks + [Kicking(id, c, to)];
  }

  lemma FirstSections(s: State, id: string, c: nat)
    requires id in s.reg && s.reg[id] == c < |s.conns|
    ensures var k, seen := |s.kicks|, Sent(id in s.handles);
      var t := s.(conns := s.conns[c := s.conns[c].(evicted := Kicked)], reg := s.reg - {id});
      && Step(s, Kick(id)) == KickIs(s, id, c, Found)
      && Step(KickIs(s, id, c, Found), KickLookup(k)) == KickIs(s, id, c, seen)
      && Step(KickIs(s, id, c, seen), KickRemove(k)) == KickIs(t, id, c, if id in s.handles then Evicting else Finishing)
  {
    var seen := Sent(id in s.handles);
    KickMoves(s, id, c, Found, seen);
    KickMoves(s, id, c, seen, if id in s.handles then Evicting else Finishing);
    hide MoveKick;
  }

  lemma LastSections(s: State, id: string, c: nat)
    requires c < |s.conns|
    ensures var k := |s.kicks|;
      var t := s.(conns := s.conns[c := s.conns[c].(evicted := Kicked)], reg := s.reg - {id});
      var u := t.(handles := s.handles - {id});
      && Step(KickIs(t, id, c, if id in s.handles then Evicting else Finishing), KickDelete(k))
         == KickIs(u, id, c, Finishing)
      && Step(KickIs(u, id, c, Finishing), KickOffline(k))
         == KickIs(u.(conns := s.conns[c := s.conns[c].(evicted := Kicked, offline := true)]), id, c, Over)
  {
    var t := s.(conns := s.conns[c := s.conns[c].(evicted := Kicked)], reg := s.reg - {id});
    var u := t.(handles := s.handles - {id});
    KickMoves(t, id, c, Evicting, Finishing);
    KickMoves(u, id, c, Finishing, Over);
    assert id !in s.handles ==> s.handles - {id} == s.handles;
    assert u.conns[c := u.conns[c].(offline := true)] == s.conns[c := s.conns[c].(evicted := Kicked, offline := true)];
    hide MoveKick;
  }

  // ------------------------------------------------------- consequences

  /** From its put until its own teardown or a kick meant for it, a connection is reachable through
      both maps, whatever all the others do meanwhile. */
  lemma {:induction false} OwnerUndisturbed(es: seq<Event>, c: nat)
    requires AimedRun(es)
    requires c < |Run(Start, es).conns| && Reachable(Run(Start, es).conns[c])
    ensures var s := Run(Start, es);
      var id := s.conns[c].id;
      && id in s.reg && s.reg[id] == c
      && id in s.handles && s.handles[id] == c
      && forall d | 0 <= d < |s.conns| && d != c && s.conns[d].id == id :: !Owns(s.conns[d])
  {
    OwnershipHolds(es);
    hide Run, Pending, KicksInv;
    var s := Run(Start, es);
    assert forall d | 0 <= d < |s.conns| && Owns(s.conns[d]) :: Holds(s.conns[d]);
  }

  /** When every connection is gone and every kick is over, so is every entry and every handle. */
  lemma {:induction false} NothingLeftBehind(es: seq<Event>)
    requires AimedRun(es)
    requires forall c | 0 <= c < |Run(Start, es).conns| :: Run(Start, es).conns[c].stage == Gone
    requires forall k | 0 <= k < |Run(Start, es).kicks| :: Run(Start, es).kicks[k].stage == Over
    ensures Run(Start, es).reg == map[] && Run(Start, es).handles == map[]
  {
    OwnershipHolds(es);
    var s := Run(Start, es);
    hide Run, KicksInv;
    assert forall id :: id !in s.reg && id !in s.handles;
  }

  // ------------------------------------------------------- kicks that go wrong

  lemma {:induction false} RunConcat(s: State, a: seq<Event>, b: seq<Event>)
    ensures Run(s, a + b) == Run(Run(s, a), b)
  {
    if b == [] {
      assert a + b == a;
    } else {
      assert (a + b)[..|a + b| - 1] == a + b[..|b| - 1];
      RunConcat(s, a, b[..|b| - 1]);
      hide Step;
    }
  }

  function GoOnline(id: string, c: nat): seq<Event> {
    [Arrive(id), Handler(c, Register), Handler(c, PutHandle), Handler(c, Ack(true))]
  }

  lemma FirstOnline(id: string)
    ensures Run(Start, GoOnline(id, 0)) == Predecessor(id, [])
  {
    RunFew(Start, Arrive(id), Handler(0, Register), Handler(0, PutHandle), Handler(0, Ack(true)));
    hide Run;
  }

  lemma OnlineKicked(id: string)
    ensures Run(Predecessor(id, []), WholeKick(id, 0)) ==
      State([Conn(id, Serving, false, Kicked, true, false)], map[], map[], [Kicking(id, 0, Finishing)], 1, 0)
  {
    var s := Predecessor(id, []);
    assert map[id := 0] - {id} == map[];
    var kicked := [Conn(id, Serving, false, Kicked, true, false)];
    FourTo(s, Kick(id), s.(kicks := [Kicking(id, 0, Found)]),
           KickLookup(0), s.(kicks := [Kicking(id, 0, Sent(true))]),
           KickRemove(0), State(kicked, map[], map[id := 0], [Kicking(id, 0, Evicting)], 1, 0),
           KickDelete(0), State(kicked, map[], map[], [Kicking(id, 0, Finishing)], 1, 0));
  }

  lemma Joined(s: State, a: seq<Event>, t: State, b: seq<Event>, u: State)
    requires Run(s, a) == t && Run(t, b) == u
    ensures Run(s, a + b) == u
  {
    hide Step;
    RunConcat(s, a, b);
    hide Run;
  }

  const BeingKicked := Sent(true)

  function LeavesWhileKicked(id: string): seq<Event> {
    [Kick(id), KickLookup(0)]
    + [Handler(0, Disconnect), Handler(0, DropEntry), Handler(0, DropHandle), Handler(0, SetOffline)]
  }

  /** Connection 0 is gone while a kick of it sends the bye; connection 1, of the same node, serves. */
  function Successor(id: string): State {
    State([Conn(id, Gone, true, Kept, true, true), Conn(id, Serving, false, Kept, true, false)],
          map[id := 1], map[id := 1], [Kicking(id, 0, BeingKicked)], 2, 1)
  }

  function Predecessor(id: string, kicks: seq<Kicking>): State {
    State([Conn(id, Serving, false, Kept, true, false)], map[id := 0], map[id := 0], kicks, 1, 0)
  }

  function Departed(id: string): State {
    State([Conn(id, Gone, true, Kept, true, true)], map[], map[], [Kicking(id, 0, BeingKicked)], 1, 1)
  }

  lemma LookedUp(id: string)
    ensures Run(Predecessor(id, []), [Kick(id), KickLookup(0)]) == Predecessor(id, [Kicking(id, 0, BeingKicked)])
  {
    var t := Predecessor(id, [Kicking(id, 0, BeingKicked)]);
    ThreeTo(Predecessor(id, []), Kick(id), Predecessor(id, [Kicking(id, 0, Found)]), KickLookup(0), t, KickLookup(0), t);
  }

  lemma Leaves(id: string)
    ensures Run(Predecessor(id, [Kicking(id, 0, BeingKicked)]),
                [Handler(0, Disconnect), Handler(0, DropEntry), Handler(0, DropHandle), Handler(0, SetOffline)])
         == Departed(id)
  {
    var s := Predecessor(id, [Kicking(id, 0, BeingKicked)]);
    var closing := s.conns[0].(stage := Closing);
    assert map[id := 0] - {id} == map[];
    FourTo(s, Handler(0, Disconnect), s.(conns := [closing]),
           Handler(0, DropEntry), s.(conns := [closing.(stage := Removing)], reg := map[]),
           Handler(0, DropHandle), s.(conns := [closing.(stage := Dropping)], reg := map[], handles := map[]),
           Handler(0, SetOffline), Departed(id));
  }

  lemma ComesBack(id: string)
    ensures Run(Departed(id), GoOnline(id, 1)) == Successor(id)
  {
    var s := Departed(id);
    var gone, c := s.conns[0], Newcomer(id);
    FourTo(s, Arrive(id), s.(conns := [gone, c]),
           Handler(1, Register), s.(conns := [gone, c.(stage := Registered)], reg := map[id := 1]),
           Handler(1, PutHandle), s.(conns := [gone, c.(stage := Acking)], reg := map[id := 1], handles := map[id := 1]),
           Handler(1, Ack(true)), Successor(id));
  }

  lemma SuccessorEvicted(id: string)
    ensures var s := Successor(id);
      Run(s, [KickRemove(0), KickDelete(0)]) ==
      State([s.conns[0], s.conns[1].(evicted := Mistaken)], map[], map[], [Kicking(id, 0, Finishing)], 2, 1)
  {
    var s := Successor(id);
    assert map[id := 1] - {id} == map[];
    var t := s.(conns := [s.conns[0], s.conns[1].(evicted := Mistaken)], reg := map[],
                kicks := [Kicking(id, 0, Evicting)]);
    var u := t.(handles := map[], kicks := [Kicking(id, 0, Finishing)]);
    ThreeTo(s, KickRemove(0), t, KickDelete(0), u, KickDelete(0), u);
  }

  /** A node is looked up by a kick, disconnects while the bye is sent, and comes back before the kick removes
      by id: the new connection serves, in neither map. Up to then all was sound. */
  lemma KickHitsSuccessor(id: string)
    ensures var before := GoOnline(id, 0) + LeavesWhileKicked(id) + GoOnline(id, 1);
      var s := Run(Start, before + [KickRemove(0), KickDelete(0)]);
      && Sound(Run(Start, before))
      && |s.conns| == 2 && s.conns[1].stage == Serving && Reachable(s.conns[1]) && s.conns[1].id == id
      && s.reg == map[] && s.handles == map[]
  {
    FirstOnline(id);
    LookedUp(id);
    Leaves(id);
    ComesBack(id);
    SuccessorEvicted(id);
    SuccessorSound(id);
    hide Run, Step, GoOnline, Predecessor, Departed;
    var leaves := [Handler(0, Disconnect), Handler(0, DropEntry), Handler(0, DropHandle), Handler(0, SetOffline)];
    Joined(Predecessor(id, []), [Kick(id), KickLookup(0)], Predecessor(id, [Kicking(id, 0, BeingKicked)]),
           leaves, Departed(id));
    Joined(Start, GoOnline(id, 0), Predecessor(id, []), LeavesWhileKicked(id), Departed(id));
    Joined(Start, GoOnline(id, 0) + LeavesWhileKicked(id), Departed(id), GoOnline(id, 1), Successor(id));
    var s := Successor(id);
    var t := State([s.conns[0], s.conns[1].(evicted := Mistaken)], map[], map[], [Kicking(id, 0, Finishing)], 2, 1);
    Joined(Start, GoOnline(id, 0) + LeavesWhileKicked(id) + GoOnline(id, 1), s, [KickRemove(0), KickDelete(0)], t);
  }

  lemma SuccessorSound(id: string)
    ensures Sound(Successor(id))
  {
  }

  /** A kick that looks for the handle before it is put, in both orders of put and removal: the connection
      lives on unregistered, and when it is gone its handle stays behind for ever. */
  lemma UnsafeKickLeaks(id: string, removedFirst: bool)
    ensures var s := Run(Start, LookedUpEarly(id) + Between(removedFirst)
                                + [Handler(0, Disconnect), Handler(0, DropEntry)]);
      && |s.conns| == 1 && s.conns[0].stage == Gone && s.reg == map[] && s.handles == map[id := 0]
      && s.kicks == [Kicking(id, 0, Over)]
  {
    var s2 := State([Conn(id, Serving, true, Kicked, true, false)], map[], map[id := 0], [Kicking(id, 0, Over)], 1, 0);
    SeenEarly(id);
    EvictedAround(id, removedFirst);
    EndsUnlisted(s2);
    hide Run, Step, LookedUpEarly, Between;
    Joined(Start, LookedUpEarly(id), JustRegistered(id), Between(removedFirst), s2);
    Joined(Start, LookedUpEarly(id) + Between(removedFirst), s2, [Handler(0, Disconnect), Handler(0, DropEntry)],
           s2.(conns := [s2.conns[0].(stage := Gone)]));
  }

  lemma EndsUnlisted(s: State)
    requires |s.conns| == 1 && s.conns[0].stage == Serving && s.reg == map[]
    ensures Run(s, [Handler(0, Disconnect), Handler(0, DropEntry)]) == s.(conns := [s.conns[0].(stage := Gone)])
  {
    LeftUnlisted(s, 0);
    assert s.conns[0 := s.conns[0].(stage := Gone)] == [s.conns[0].(stage := Gone)];
    hide Run;
  }

  function JustRegistered(id: string): State {
    State([Conn(id, Registered, false, Kept, false, false)], map[id := 0], map[], [Kicking(id, 0, Sent(false))], 0, 0)
  }

  lemma SeenEarly(id: string)
    ensures Run(Start, LookedUpEarly(id)) == JustRegistered(id)
  {
    var t := JustRegistered(id);
    FourTo(Start, Arrive(id), Start.(conns := [Newcomer(id)]), Handler(0, Register), t.(kicks := []),
           Kick(id), t.(kicks := [Kicking(id, 0, Found)]), KickLookup(0), t);
  }

  function LookedUpEarly(id: string): seq<Event> {
    [Arrive(id), Handler(0, Register), Kick(id), KickLookup(0)]
  }

  function Between(removedFirst: bool): seq<Event> {
    if removedFirst then [KickRemove(0), KickOffline(0), Handler(0, PutHandle), Handler(0, Ack(true))]
    else [Handler(0, PutHandle), Handler(0, Ack(true)), KickRemove(0), KickOffline(0)]
  }

  lemma EvictedAround(id: string, removedFirst: bool)
    ensures Run(JustRegistered(id), Between(removedFirst)) ==
      State([Conn(id, Serving, true, Kicked, true, false)], map[], map[id := 0], [Kicking(id, 0, Over)], 1, 0)
  {
    var s := JustRegistered(id);
    assert map[id := 0] - {id} == map[];
    var t := State([Conn(id, Serving, true, Kicked, true, false)], map[], map[id := 0], [Kicking(id, 0, Over)], 1, 0);
    if removedFirst {
      FourTo(s, KickRemove(0),
             State([Conn(id, Registered, false, Kicked, false, false)], map[], map[], [Kicking(id, 0, Finishing)], 0, 0),
             KickOffline(0),
             State([Conn(id, Registered, true, Kicked, false, false)], map[], map[], [Kicking(id, 0, Over)], 0, 0),
             Handler(0, PutHandle),
             State([Conn(id, Acking, true, Kicked, false, false)], map[], map[id := 0], [Kicking(id, 0, Over)], 0, 0),
             Handler(0, Ack(true)), t);
    } else {
      FourTo(s, Handler(0, PutHandle),
             s.(conns := [Conn(id, Acking, false, Kept, false, false)], handles := map[id := 0]),
             Handler(0, Ack(true)),
             s.(conns := [Conn(id, Serving, false, Kept, true, false)], handles := map[id := 0], nodesOnline := 1),
             KickRemove(0),
             State([Conn(id, Serving, false, Kicked, true, false)], map[], map[id := 0],
                   [Kicking(id, 0, Finishing)], 1, 0),
             KickOffline(0), t);
    }
  }

  // --------------------------------------------------- the online and offline counters

  predicate WentOnline(c: Conn) {
    c.wentOnline
  }

  predicate WentOffline(c: Conn) {
    c.wentOffline
  }

  predicate OfflineOnly(c: Conn) {
    c.wentOffline && !c.wentOnline
  }

  predicate EvictedOnline(c: Conn) {
    c.wentOnline && !c.evicted.Kept?
  }

  ghost predicate CountersInv(s: State) {
    && s.nodesOnline == Count(s.conns, WentOnline)
    && s.nodesOffline == Count(s.conns, WentOffline)
    && forall c | 0 <= c < |s.conns| :: Accounted(s.conns[c])
  }

  predicate Accounted(c: Conn) {
    && (c.wentOffline ==> c.stage == Gone && c.evicted.Kept?)
    && (c.stage == Gone && c.wentOnline ==> c.wentOffline || !c.evicted.Kept?)
    && (c.wentOnline ==> !c.stage.Greeting? && !c.stage.Registered? && !c.stage.Acking?)
  }

  lemma CountersAfter(s: State, t: State, c: nat)
    requires CountersInv(s) && c < |s.conns| && |t.conns| == |s.conns|
    requires t.conns == s.conns[c := t.conns[c]] && Accounted(t.conns[c])
    requires t.nodesOnline - s.nodesOnline ==
             (if t.conns[c].wentOnline then 1 else 0) - (if s.conns[c].wentOnline then 1 else 0)
    requires t.nodesOffline - s.nodesOffline ==
             (if t.conns[c].wentOffline then 1 else 0) - (if s.conns[c].wentOffline then 1 else 0)
    ensures CountersInv(t)
  {
    CountUpdate(s.conns, c, t.conns[c], WentOnline);
    CountUpdate(s.conns, c, t.conns[c], WentOffline);
    hide Count;
  }

  lemma ArrivalCounters(s: State, id: string)
    requires CountersInv(s)
    ensures CountersInv(Step(s, Arrive(id)))
  {
    var newcomer := Newcomer(id);
    CountAppend(s.conns, newcomer, WentOnline);
    CountAppend(s.conns, newcomer, WentOffline);
    hide Count;
  }

  lemma KickCounters(s: State, e: Event)
    requires Base(s) && CountersInv(s) && !e.Arrive? && !e.Handler?
    ensures CountersInv(Step(s, e))
  {
    var t := Step(s, e);
    if t.conns == s.conns {
    } else if e.KickRemove? {
      var v := s.reg[s.kicks[e.k].id];
      assert Accounted(s.conns[v]) && Holds(s.conns[v]);
      CountersAfter(s, t, v);
    } else {
      assert KickInv(s.conns, s.kicks[e.k]);
      assert Accounted(s.conns[s.kicks[e.k].target]);
      CountersAfter(s, t, s.kicks[e.k].target);
    }
    hide Base, Count;
  }

  lemma ActCounters(s: State, c: nat, a: Action)
    requires Base(s) && CountersInv(s)
    requires c < |s.conns| && s.conns[c].stage == Before(a)
    ensures CountersInv(Act(s, c, a))
  {
    var t := Act(s, c, a);
    assert Accounted(s.conns[c]) && Consistent(s.conns[c]);
    if a.DropEntry? && s.conns[c].evicted.Kept? {
      assert Holds(s.conns[c]);
    }
    hide Base, CountersInv;
    assert t.conns == s.conns[c := t.conns[c]];
    CountersAfter(s, t, c);
  }

  /** In every run, whenever the sections of kicks come. */
  lemma {:induction false} CountersReachable(es: seq<Event>)
    ensures CountersInv(Run(Start, es))
  {
    if es != [] {
      var s, e := Run(Start, es[..|es| - 1]), es[|es| - 1];
      CountersReachable(es[..|es| - 1]);
      BaseReachable(es[..|es| - 1]);
      hide Base, CountersInv, Act;
      match e
      case Arrive(id) => ArrivalCounters(s, id);
      case Handler(c, a) =>
        if c < |s.conns| && s.conns[c].stage == Before(a) {
          ActCounters(s, c, a);
        }
      case _ => KickCounters(s, e);
    }
  }

  /** When all connections are gone the two counters differ by the acknowledged connections whose
      entry a kick removed, which no teardown counts, minus the connections lost before their acknowledgement, which
      only the teardown counts. */
  lemma {:induction false} CountersBalance(es: seq<Event>)
    requires forall c | 0 <= c < |Run(Start, es).conns| :: Run(Start, es).conns[c].stage == Gone
    ensures var s := Run(Start, es);
      s.nodesOnline + Count(s.conns, OfflineOnly)
      == s.nodesOffline + Count(s.conns, EvictedOnline)
  {
    CountersReachable(es);
    var s := Run(Start, es);
    hide Run;
    BalanceOf(s.conns);
  }

  /** One connection, acknowledged and then kicked: one node went online, none ever offline. */
  lemma CountersUnbalanced(id: string)
    ensures var s := Run(Start, GoOnline(id, 0) + WholeKick(id, 0)
                                + [KickOffline(0), Handler(0, Disconnect), Handler(0, DropEntry)]);
      |s.conns| == 1 && s.conns[0].stage == Gone && s.nodesOnline == 1 && s.nodesOffline == 0
  {
    var s2 := State([Conn(id, Serving, false, Kicked, true, false)], map[], map[], [Kicking(id, 0, Finishing)], 1, 0);
    FirstOnline(id);
    OnlineKicked(id);
    KickedEnds(id);
    hide Run, Step, GoOnline, WholeKick, Predecessor;
    Joined(Start, GoOnline(id, 0), Predecessor(id, []), WholeKick(id, 0), s2);
    Joined(Start, GoOnline(id, 0) + WholeKick(id, 0), s2,
           [KickOffline(0), Handler(0, Disconnect), Handler(0, DropEntry)],
           State([Conn(id, Gone, true, Kicked, true, false)], map[], map[], [Kicking(id, 0, Over)], 1, 0));
  }

  lemma KickedEnds(id: string)
    ensures Run(State([Conn(id, Serving, false, Kicked, true, false)], map[], map[], [Kicking(id, 0, Finishing)], 1, 0),
                [KickOffline(0), Handler(0, Disconnect), Handler(0, DropEntry)])
         == State([Conn(id, Gone, true, Kicked, true, false)], map[], map[], [Kicking(id, 0, Over)], 1, 0)
  {
    var s2 := State([Conn(id, Serving, false, Kicked, true, false)], map[], map[], [Kicking(id, 0, Finishing)], 1, 0);
    var over := [Kicking(id, 0, Over)];
    ThreeTo(s2, KickOffline(0), State([Conn(id, Serving, true, Kicked, true, false)], map[], map[], over, 1, 0),
            Handler(0, Disconnect), State([Conn(id, Closing, true, Kicked, true, false)], map[], map[], over, 1, 0),
            Handler(0, DropEntry), State([Conn(id, Gone, true, Kicked, true, false)], map[], map[], over, 1, 0));
  }

  lemma {:induction false} BalanceOf(conns: seq<Conn>)
    requires forall c | 0 <= c < |conns| :: conns[c].stage == Gone && Accounted(conns[c])
    ensures Count(conns, WentOnline) + Count(conns, OfflineOnly)
         == Count(conns, WentOffline) + Count(conns, EvictedOnline)
  {
    if conns != [] {
      BalanceOf(conns[..|conns| - 1]);
    }
  }
}
