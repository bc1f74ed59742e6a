/** Byte-wise string order and sorting, as sort.Strings and sort.Slice use them. */
module Order {

  predicate Less(a: string, b: string) {
    b != [] && (a == [] || a[0] < b[0] || (a[0] == b[0] && Less(a[1..], b[1..])))
  }

  predicate Sorted(ids: seq<string>) {
    forall i, j | 0 <= i < j < |ids| :: Less(ids[i], ids[j])
  }

  /** The first difference decides; a proper prefix comes first. */
  lemma {:induction false} LessIsLexicographic(a: string, b: string)
    ensures Less(a, b) <==>
      exists k: nat :: k <= |a| && k < |b| && a[..k] == b[..k] && (k == |a| || (k < |a| && a[k] < b[k]))
  {
    if a != [] && b != [] && a[0] == b[0] {
      LessIsLexicographic(a[1..], b[1..]);
      if Less(a[1..], b[1..]) {
        var k: nat :| k <= |a| - 1 && k < |b| - 1 && a[1..][..k] == b[1..][..k]
                      && (k == |a| - 1 || (k < |a| - 1 && a[1..][k] < b[1..][k]));
        assert a[..k + 1] == [a[0]] + a[1..][..k] && b[..k + 1] == [b[0]] + b[1..][..k];
      }
      if k: nat :| k <= |a| && k < |b| && a[..k] == b[..k] && (k == |a| || (k < |a| && a[k] < b[k])) {
        assert k > 0;
        assert a[1..][..k - 1] == a[..k][1..] && b[1..][..k - 1] == b[..k][1..];
      }
    } else if b != [] {
      assert a[..0] == b[..0];
      assert forall k: nat | 0 < k <= |a| && k < |b| :: a[..k][0] == a[0] && b[..k][0] == b[0];
    }
  }

  lemma {:induction false} LessTotal(a: string, b: string)
    ensures Less(a, b) || Less(b, a) || a == b
    ensures !(Less(a, b) && Less(b, a)) && !(Less(a, b) && a == b)
  {
    if a != [] && b != [] {
      LessTotal(a[1..], b[1..]);
      assert a == [a[0]] + a[1..] && b == [b[0]] + b[1..];
    }
  }

  lemma {:induction false} LessTrans(a: string, b: string, c: string)
    requires Less(a, b) && Less(b, c)
    ensures Less(a, c)
  {
    if a != [] && a[0] == b[0] == c[0] {
      LessTrans(a[1..], b[1..], c[1..]);
    }
  }

  function Insert(ids: seq<string>, x: string): seq<string> {
    if ids == [] || Less(x, ids[0]) then [x] + ids
    else [ids[0]] + Insert(ids[1..], x)
  }

  lemma {:induction false} InsertSorts(ids: seq<string>, x: string)
    requires Sorted(ids) && x !in ids
    ensures Sorted(Insert(ids, x))
    ensures forall y :: y in Insert(ids, x) <==> y == x || y in ids
  {
    if ids == [] {
    } else if Less(x, ids[0]) {
      forall j | 0 <= j < |ids|
        ensures Less(x, ids[j])
      {
        if j > 0 {
          LessTrans(x, ids[0], ids[j]);
        }
      }
    } else {
      var rest := Insert(ids[1..], x);
      InsertSorts(ids[1..], x);
      LessTotal(x, ids[0]);
      assert forall y | y in rest :: Less(ids[0], y);
      assert ids == [ids[0]] + ids[1..];
    }
  }

  /** Collect the elements of s in whatever order they come, then sort. */
  method SortSet(s: set<string>) returns (ids: seq<string>)
    ensures Sorted(ids)
    ensures forall x :: x in ids <==> x in s
  {
    ids := [];
    var rest := s;
    while rest != {}
      invariant rest <= s && Sorted(ids)
      invariant forall x :: x in ids <==> x in s && x !in rest
      decreases |rest|
    {
      var x :| x in rest;
      InsertSorts(ids, x);
      ids := Insert(ids, x);
      rest := rest - {x};
    }
  }
}

/** A node as the relay knows it, and the registry of nodes (internal/relay/registry.go). */
module Nodes {
  datatype NodeState = Connecting | Online | Suspect | Degraded | Draining | Offline

  datatype ModelCap = ModelCap(capabilities: seq<string>, complete: bool)

  /** The concurrency slots of a node. */
  datatype Slots = Slots(active: nat, limit: int)

  function ReserveSlot(s: Slots): (Slots, bool) {
    if s.active >= s.limit then (s, false) else (s.(active := s.active + 1), true)
  }

  function ReleaseSlot(s: Slots): Slots {
    if s.active > 0 then s.(active := s.active - 1) else s
  }

  function ChangeLimit(s: Slots, v: int): Slots {
    if v > 0 then s.(limit := v) else s
  }

  /** The effect of a heartbeat that reports the local model healthy or not. */
  function Beat(state: NodeState, healthy: bool): NodeState {
    if !healthy && state == Online then Degraded
    else if healthy && (state == Degraded || state == Suspect) then Online
    else state
  }

  datatype NodeView = NodeView(
    id: string,
    state: NodeState,
    slots: Slots,
    models: map<string, ModelCap>,
    heartbeat: int)

  predicate Serving(v: NodeView) {
    v.state == Online || v.state == Degraded
  }

  predicate HasRoom(v: NodeView) {
    v.slots.active < v.slots.limit
  }

  predicate Supports(v: NodeView, model: string, capability: string) {
    && model in v.models
    && (capability == "" || !v.models[model].complete || capability in v.models[model].capabilities)
  }

  class Node {
    const id: string
    var state: NodeState
    var active: nat
    var limit: int
    var models: map<string, ModelCap>
    var heartbeat: int

    /** As handleConnect builds it: a missing limit becomes 8. */
    constructor (id: string, limit: int, models: map<string, ModelCap>, now: int)
      ensures View() == NodeView(id, Online, Slots(0, if limit <= 0 then 8 else limit), models, now)
    {
      this.id, this.state, this.active, this.models, this.heartbeat := id, Online, 0, models, now;
      this.limit := if limit <= 0 then 8 else limit;
    }

    ghost function View(): NodeView
      reads this
    {
      NodeView(id, state, Slots(active, limit), models, heartbeat)
    }

    method Reserve() returns (ok: bool)
      modifies this`active
      ensures (View().slots, ok) == ReserveSlot(old(View().slots))
      ensures ok == (old(active) < limit) && active == old(active) + if ok then 1 else 0
    {
      if active >= limit {
        return false;
      }
      active := active + 1;
      ok := true;
    }

    method Release()
      modifies this`active
      ensures View().slots == ReleaseSlot(old(View().slots))
      ensures active == if old(active) > 0 then old(active) - 1 else 0
    {
      if active > 0 {
        active := active - 1;
      }
    }

    method SetMaxConcurrency(v: int)
      modifies this`limit
      ensures View().slots == ChangeLimit(old(View().slots), v)
      ensures limit == if v > 0 then v else old(limit)
    {
      if v > 0 {
        limit := v;
      }
    }

    method SetModels(ms: map<string, ModelCap>)
      modifies this`models
      ensures models == ms
    {
      models := ms;
    }

    method MarkHeartbeat(now: int, healthy: bool)
      modifies this`state, this`heartbeat
      ensures heartbeat == now && state == Beat(old(state), healthy)
      ensures state == match old(state)
                       case Online => if healthy then Online else Degraded
                       case Degraded => if healthy then Online else Degraded
                       case Suspect => if healthy then Online else Suspect
                       case other => other
    {
      heartbeat := now;
      if !healthy && state == Online {
        state := Degraded;
      }
      if healthy && (state == Degraded || state == Suspect) {
        state := Online;
      }
    }

    method SetState(s: NodeState)
      modifies this`state
      ensures state == s
    {
      state := s;
    }

    method SupportsModel(model: string, capability: string) returns (ok: bool)
      ensures ok == Supports(View(), model, capability)
      ensures ok == (model in models && (capability == "" || !models[model].complete
                                         || exists i :: 0 <= i < |models[model].capabilities|
                                                        && models[model].capabilities[i] == capability))
    {
      if model !in models {
        return false;
      }
      if capability == "" {
        return true;
      }
      var mc := models[model];
      if !mc.complete {
        return true;
      }
      for i := 0 to |mc.capabilities|
        invariant capability !in mc.capabilities[..i]
      {
        if mc.capabilities[i] == capability {
          return true;
        }
      }
      ok := false;
    }
  }

  // ------------------------------------------- the maps, as pure functions of their key

  /** TryRegister: an entry that is not offline is never replaced. */
  function Register<K, N>(m: map<K, N>, k: K, n: N, oldOffline: bool): (map<K, N>, bool) {
    if k in m && !oldOffline then (m, false) else (m[k := n], true)
  }

  /** RemoveIfSame and delIf: only the expected owner is removed. */
  function RemoveIf<K, N(==)>(m: map<K, N>, k: K, expected: N): (map<K, N>, bool) {
    if k in m && m[k] == expected then (m - {k}, true) else (m, false)
  }

  class Registry {
    var nodes: map<string, Node>

    constructor ()
      ensures nodes == map[] && Valid()
    {
      nodes := map[];
    }

    ghost predicate Valid()
      reads this
    {
      forall id | id in nodes :: nodes[id].id == id
    }

    ghost function View(): map<string, NodeView>
      reads this, nodes.Values
    {
      map id | id in nodes :: nodes[id].View()
    }

    method TryRegister(n: Node) returns (ok: bool)
      requires Valid()
      modifies this
      ensures Valid()
      ensures (nodes, ok) == Register(old(nodes), n.id, n, n.id in old(nodes) && old(nodes[n.id].state) == Offline)
      ensures ok == (n.id in old(nodes) ==> old(nodes[n.id].state) == Offline)
      ensures nodes == if ok then old(nodes)[n.id := n] else old(nodes)
    {
      if n.id in nodes && nodes[n.id].state != Offline {
        return false;
      }
      nodes := nodes[n.id := n];
      ok := true;
    }

    method RemoveIfSame(id: string, expected: Node) returns (removed: bool)
      requires Valid()
      modifies this
      ensures Valid()
      ensures (nodes, removed) == RemoveIf(old(nodes), id, expected)
      ensures removed == (id in old(nodes) && old(nodes)[id] == expected)
      ensures nodes == if removed then old(nodes) - {id} else old(nodes)
    {
      removed := id in nodes && nodes[id] == expected;
      if removed {
        nodes := nodes - {id};
      }
    }

    method Remove(id: string)
      requires Valid()
      modifies this
      ensures Valid() && nodes == old(nodes) - {id}
    {
      nodes := nodes - {id};
    }
  }
}
