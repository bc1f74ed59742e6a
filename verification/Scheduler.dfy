/** Choosing a node, explaining why there is none, and waiting for one (internal/relay/scheduler.go). */
module Scheduler {
  import opened Basics
  import opened Errors
  import opened Nodes
  import opened Order

  datatype SelectError = NoNodeOnline | ModelMissing | CapabilityMissing | AllNodesBusy

  datatype Selection = Chosen(id: string) | NoNode(why: SelectError)

  /** The load of a node, over the reals. */
  function Load(v: NodeView): real {
    if v.slots.limit <= 0 then 1.0 else v.slots.active as real / v.slots.limit as real
  }

  predicate Candidate(v: NodeView, model: string, capability: string) {
    Serving(v) && HasRoom(v) && Supports(v, model, capability)
  }

  /** The test classifyNoNode applies where Select applies Supports. */
  predicate Claims(v: NodeView, model: string, capability: string) {
    && model in v.models
    && (!v.models[model].complete || capability in v.models[model].capabilities)
  }

  /** id is the least loaded candidate, the smallest id among equals. */
  ghost predicate Best(nodes: map<string, NodeView>, model: string, capability: string, id: string) {
    && id in nodes
    && Candidate(nodes[id], model, capability)
    && forall o | o in nodes && o != id && Candidate(nodes[o], model, capability) ::
         Load(nodes[id]) < Load(nodes[o]) || (Load(nodes[id]) == Load(nodes[o]) && Less(id, o))
  }

  ghost predicate NoCandidate(nodes: map<string, NodeView>, model: string, capability: string) {
    forall o | o in nodes :: !Candidate(nodes[o], model, capability)
  }

  ghost predicate SomeServing(nodes: map<string, NodeView>) {
    exists o :: o in nodes && Serving(nodes[o])
  }

  ghost predicate SomeHas(nodes: map<string, NodeView>, model: string) {
    exists o :: o in nodes && model in nodes[o].models
  }

  ghost predicate SomeClaims(nodes: map<string, NodeView>, model: string, capability: string) {
    exists o :: o in nodes && Claims(nodes[o], model, capability)
  }

  /** When each of the four errors is given. */
  ghost predicate Explains(nodes: map<string, NodeView>, model: string, capability: string, why: SelectError) {
    && (why == NoNodeOnline <==> !SomeServing(nodes))
    && (why == ModelMissing <==> SomeServing(nodes) && !SomeHas(nodes, model))
    && (why == CapabilityMissing <==>
          SomeServing(nodes) && SomeHas(nodes, model) && !SomeClaims(nodes, model, capability))
    && (why == AllNodesBusy <==> SomeServing(nodes) && SomeClaims(nodes, model, capability))
  }

  ghost predicate SelectionCorrect(nodes: map<string, NodeView>, model: string, capability: string, r: Selection) {
    match r
    case Chosen(id) => Best(nodes, model, capability, id)
    case NoNode(why) => NoCandidate(nodes, model, capability) && Explains(nodes, model, capability, why)
  }

  method IsCandidate(n: Node, model: string, capability: string) returns (ok: bool)
    ensures ok == Candidate(n.View(), model, capability)
  {
    if n.state != Online && n.state != Degraded {
      return false;
    }
    if n.active >= n.limit {
      return false;
    }
    ok := n.SupportsModel(model, capability);
  }

  /** The candidates in the order of their ids. */
  method Candidates(reg: Registry, model: string, capability: string) returns (cs: seq<Node>)
    requires reg.Valid()
    ensures forall k | 0 <= k < |cs| ::
              cs[k].id in reg.nodes && reg.nodes[cs[k].id] == cs[k] && Candidate(cs[k].View(), model, capability)
    ensures forall i, j | 0 <= i < j < |cs| :: Less(cs[i].id, cs[j].id)
    ensures forall id | id in reg.nodes && Candidate(reg.nodes[id].View(), model, capability) :: reg.nodes[id] in cs
  {
    hide Less, Candidate;
    var ids := SortSet(reg.nodes.Keys);
    cs := [];
    for i := 0 to |ids|
      invariant forall k | 0 <= k < |cs| ::
                  cs[k].id in reg.nodes && reg.nodes[cs[k].id] == cs[k] && Candidate(cs[k].View(), model, capability)
      invariant forall k | 0 <= k < |cs| :: exists j :: 0 <= j < i && ids[j] == cs[k].id
      invariant forall k, l | 0 <= k < l < |cs| :: Less(cs[k].id, cs[l].id)
      invariant forall k | 0 <= k < i && Candidate(reg.nodes[ids[k]].View(), model, capability) ::
                  reg.nodes[ids[k]] in cs
    {
      var n := reg.nodes[ids[i]];
      var usable := IsCandidate(n, model, capability);
      if usable {
        cs := cs + [n];
      }
    }
  }

  /** The first of the least loaded nodes. */
  method LeastLoaded(cs: seq<Node>) returns (b: nat)
    requires cs != []
    ensures b < |cs|
    ensures forall j | 0 <= j < |cs| :: Load(cs[b].View()) <= Load(cs[j].View())
    ensures forall j | 0 <= j < b :: Load(cs[b].View()) < Load(cs[j].View())
  {
    b := 0;
    for k := 1 to |cs|
      invariant b < k
      invariant forall j | 0 <= j < k :: Load(cs[b].View()) <= Load(cs[j].View())
      invariant forall j | 0 <= j < b :: Load(cs[b].View()) < Load(cs[j].View())
    {
      if LoadOf(cs[k]) < LoadOf(cs[b]) {
        b := k;
      }
      hide Load, LoadOf;
    }
  }

  // ------------------------------------------- the choice in plain terms

  lemma Cross(x: real, y: real, b: real, d: real)
    requires b > 0.0 && d > 0.0
    ensures x < y <==> (x * b) * d < (y * d) * b
    ensures x == y <==> (x * b) * d == (y * d) * b
  {
    var bd := b * d;
    assert bd > 0.0;
    assert (x * b) * d == x * bd && (y * d) * b == y * bd;
    assert (y - x) * bd == y * bd - x * bd;
    assert y - x > 0.0 ==> (y - x) * bd > 0.0;
    assert y - x < 0.0 ==> (x - y) * bd > 0.0;
  }

  /** Loads compare as the cross products of slots in use and limits. */
  lemma LoadsInIntegers(v: NodeView, w: NodeView)
    requires v.slots.limit > 0 && w.slots.limit > 0
    ensures Load(v) < Load(w) <==> v.slots.active * w.slots.limit < w.slots.active * v.slots.limit
    ensures Load(v) == Load(w) <==> v.slots.active * w.slots.limit == w.slots.active * v.slots.limit
  {
    var a, b := v.slots.active as real, v.slots.limit as real;
    var c, d := w.slots.active as real, w.slots.limit as real;
    var x, y := Load(v), Load(w);
    assert x * b == a && y * d == c;
    Cross(x, y, b, d);
    assert a * d == (v.slots.active * w.slots.limit) as real;
    assert c * b == (w.slots.active * v.slots.limit) as real;
  }

  /** A node that may be picked: Online or Degraded, a slot free, the model listed, and the capability not
      asked for, listed, or not known to be missing. */
  ghost predicate Eligible(v: NodeView, model: string, capability: string) {
    && (v.state == Online || v.state == Degraded)
    && v.slots.active < v.slots.limit
    && model in v.models
    && (capability == "" || capability in v.models[model].capabilities || !v.models[model].complete)
  }

  /** The answer, with loads compared in integers. */
  ghost predicate InPlainTerms(nodes: map<string, NodeView>, model: string, capability: string, r: Selection) {
    match r
    case Chosen(id) =>
      && id in nodes && Eligible(nodes[id], model, capability)
      && forall o | o in nodes && o != id && Eligible(nodes[o], model, capability) ::
           var a, b := nodes[id].slots, nodes[o].slots;
           a.active * b.limit < b.active * a.limit || (a.active * b.limit == b.active * a.limit && Less(id, o))
    case NoNode(why) =>
      && (forall o | o in nodes :: !Eligible(nodes[o], model, capability))
      && why ==
         if !exists o :: o in nodes && (nodes[o].state == Online || nodes[o].state == Degraded) then NoNodeOnline
         else if !exists o :: o in nodes && model in nodes[o].models then ModelMissing
         else if !exists o :: o in nodes && model in nodes[o].models
                              && (!nodes[o].models[model].complete || capability in nodes[o].models[model].capabilities)
         then CapabilityMissing
         else AllNodesBusy
  }

  lemma PlainChoice(nodes: map<string, NodeView>, model: string, capability: string, id: string)
    requires Best(nodes, model, capability, id)
    ensures InPlainTerms(nodes, model, capability, Chosen(id))
  {
    forall o | o in nodes && o != id && Eligible(nodes[o], model, capability)
      ensures var a, b := nodes[id].slots, nodes[o].slots;
        a.active * b.limit < b.active * a.limit || (a.active * b.limit == b.active * a.limit && Less(id, o))
    {
      LoadsInIntegers(nodes[id], nodes[o]);
      assert Candidate(nodes[o], model, capability);
    }
  }

  lemma PlainError(nodes: map<string, NodeView>, model: string, capability: string, why: SelectError)
    requires NoCandidate(nodes, model, capability) && Explains(nodes, model, capability, why)
    ensures InPlainTerms(nodes, model, capability, NoNode(why))
  {
    assert forall o | o in nodes :: Eligible(nodes[o], model, capability) ==> Candidate(nodes[o], model, capability);
    assert SomeServing(nodes) <==>
      exists o :: o in nodes && (nodes[o].state == Online || nodes[o].state == Degraded) by {
      assert forall o | o in nodes :: Serving(nodes[o]) <==> (nodes[o].state == Online || nodes[o].state == Degraded);
    }
    assert SomeClaims(nodes, model, capability) <==>
      exists o :: o in nodes && model in nodes[o].models
                  && (!nodes[o].models[model].complete || capability in nodes[o].models[model].capabilities) by {
      assert forall o | o in nodes :: Claims(nodes[o], model, capability) <==>
        model in nodes[o].models
        && (!nodes[o].models[model].complete || capability in nodes[o].models[model].capabilities);
    }
  }

  lemma PlainSelection(nodes: map<string, NodeView>, model: string, capability: string, r: Selection)
    requires SelectionCorrect(nodes, model, capability, r)
    ensures InPlainTerms(nodes, model, capability, r)
  {
    hide Best, NoCandidate, Explains, InPlainTerms;
    match r
    case Chosen(id) => PlainChoice(nodes, model, capability, id);
    case NoNode(why) => PlainError(nodes, model, capability, why);
  }

  /** Two slots of ten are less than one of two: the larger node is picked, though more of it is in use. */
  lemma SharesNotCounts(r: Selection)
    requires SelectionCorrect(map["a" := NodeView("a", Online, Slots(2, 10), map["m" := ModelCap([], true)], 0),
                                  "b" := NodeView("b", Online, Slots(1, 2), map["m" := ModelCap([], true)], 0)],
                              "m", "", r)
    ensures r == Chosen("a")
  {
    var nodes := map["a" := NodeView("a", Online, Slots(2, 10), map["m" := ModelCap([], true)], 0),
                     "b" := NodeView("b", Online, Slots(1, 2), map["m" := ModelCap([], true)], 0)];
    assert "a" in nodes && Eligible(nodes["a"], "m", "") && Candidate(nodes["a"], "m", "");
    assert "b" in nodes && Eligible(nodes["b"], "m", "") && Candidate(nodes["b"], "m", "");
    PlainSelection(nodes, "m", "", r);
    hide Candidate;
  }

  method Select(reg: Registry, model: string, capability: string) returns (r: Selection)
    requires reg.Valid()
    ensures SelectionCorrect(reg.View(), model, capability, r)
    ensures InPlainTerms(reg.View(), model, capability, r)
  {
    hide Less, Load, Candidate, Eligible;
    var cs := Candidates(reg, model, capability);
    if |cs| == 0 {
      var why := ClassifyNoNode(reg, model, capability);
      PlainError(reg.View(), model, capability, why);
      return NoNode(why);
    }
    var b := LeastLoaded(cs);
    ghost var view := reg.View();
    forall o | o in view && o != cs[b].id && Candidate(view[o], model, capability)
      ensures Load(view[cs[b].id]) < Load(view[o]) || (Load(view[cs[b].id]) == Load(view[o]) && Less(cs[b].id, o))
    {
      assert reg.nodes[o] in cs;
      var j :| 0 <= j < |cs| && cs[j] == reg.nodes[o];
    }
    PlainChoice(view, model, capability, cs[b].id);
    r := Chosen(cs[b].id);
  }

  function LoadOf(n: Node): (l: real)
    reads n
    ensures l == Load(n.View())
  {
    if n.limit <= 0 then 1.0 else n.active as real / n.limit as real
  }

  method ClassifyNoNode(reg: Registry, model: string, capability: string) returns (why: SelectError)
    requires reg.Valid()
    ensures Explains(reg.View(), model, capability, why)
  {
    ghost var view := reg.View();
    var ids := SortSet(reg.nodes.Keys);
    assert forall o :: o in view <==> o in ids;
    var online := 0;
    var hasModel, capOK := false, false;
    for i := 0 to |ids|
      invariant online >= 0
      invariant online > 0 <==> exists o :: o in ids[..i] && Serving(view[o])
      invariant hasModel <==> exists o :: o in ids[..i] && model in view[o].models
      invariant capOK <==> exists o :: o in ids[..i] && Claims(view[o], model, capability)
    {
      var n := reg.nodes[ids[i]];
      assert n.View() == view[ids[i]];
      assert forall o :: o in ids[..i + 1] <==> o in ids[..i] || o == ids[i];
      if n.state == Online || n.state == Degraded {
        online := online + 1;
      }
      if model in n.models {
        hasModel := true;
        var mc := n.models[model];
        if !mc.complete || capability in mc.capabilities {
          capOK := true;
        }
      }
    }
    assert ids[..|ids|] == ids;
    why := if online == 0 then NoNodeOnline
           else if !hasModel then ModelMissing
           else if !capOK then CapabilityMissing
           else AllNodesBusy;
    assert SomeClaims(view, model, capability) ==> SomeHas(view, model);
  }

  // -------------------------------------------------------------- properties

  /** The contract leaves Select no choice. */
  lemma SelectionUnique(nodes: map<string, NodeView>, model: string, capability: string, r: Selection, q: Selection)
    requires SelectionCorrect(nodes, model, capability, r) && SelectionCorrect(nodes, model, capability, q)
    ensures r == q
  {
    if r.Chosen? && q.Chosen? && r != q {
      LessTotal(r.id, q.id);
    }
  }

  /** Two idle nodes: it is always the same one, that with the smaller id. */
  lemma TieGoesToSmallest(r: Selection)
    requires SelectionCorrect(TwoIdle(), "m", "", r)
    ensures r == Chosen("a")
  {
    var nodes := TwoIdle();
    assert "a" in nodes && Candidate(nodes["a"], "m", "");
    assert "b" in nodes && Candidate(nodes["b"], "m", "");
    assert Less("a", "b") && !Less("b", "a");
    assert Load(nodes["a"]) == Load(nodes["b"]);
  }

  function TwoIdle(): map<string, NodeView> {
    map["a" := NodeView("a", Online, Slots(0, 1), map["m" := ModelCap([], true)], 0),
        "b" := NodeView("b", Online, Slots(0, 1), map["m" := ModelCap([], true)], 0)]
  }

  // Corollaries of Explains, the condition of each error.

  /** A named capability: busy is reported exactly when waiting can help, that is when some node
      serves and some node, serving or not, supports the request, but none is free. */
  lemma BusyMeansWaitable(nodes: map<string, NodeView>, model: string, capability: string, r: Selection)
    requires SelectionCorrect(nodes, model, capability, r) && capability != ""
    ensures r == NoNode(AllNodesBusy) <==>
      && NoCandidate(nodes, model, capability)
      && SomeServing(nodes)
      && exists o :: o in nodes && Supports(nodes[o], model, capability)
  {
  }

  /** Without a capability the two tests part: busy nodes whose list for the model is complete and
      lacks "" are reported as lacking the capability instead. */
  lemma BusyWithoutCapability(nodes: map<string, NodeView>, model: string, r: Selection)
    requires SelectionCorrect(nodes, model, "", r)
    requires NoCandidate(nodes, model, "") && SomeServing(nodes) && SomeHas(nodes, model)
    ensures r == NoNode(AllNodesBusy) <==>
      exists o :: o in nodes && model in nodes[o].models
                  && (!nodes[o].models[model].complete || "" in nodes[o].models[model].capabilities)
    ensures r == NoNode(AllNodesBusy) || r == NoNode(CapabilityMissing)
  {
  }

  /** One full node with a complete capability list: the request that names no capability could be
      served by waiting, yet it is refused as unsupported. */
  lemma BusyMisreported(r: Selection)
    requires var nodes := map["a" := NodeView("a", Online, Slots(1, 1), map["m" := ModelCap(["chat"], true)], 0)];
      SelectionCorrect(nodes, "m", "", r)
    ensures r == NoNode(CapabilityMissing)
    ensures Supports(NodeView("a", Online, Slots(0, 1), map["m" := ModelCap(["chat"], true)], 0), "m", "")
  {
    var nodes := map["a" := NodeView("a", Online, Slots(1, 1), map["m" := ModelCap(["chat"], true)], 0)];
    assert "a" in nodes && Serving(nodes["a"]);
    assert "m" in nodes["a"].models;
    assert "" !in ["chat"];
  }

  datatype ContextError = ContextCanceled | ContextDeadline

  datatype WaitError = Scheduling(why: SelectError) | Context(e: ContextError)

  /** classifySelectorErr on the scheduler's errors and on the two context errors. */
  function ClassifySelectorErr(e: WaitError): Code {
    match e
    case Scheduling(ModelMissing) => ModelNotFound
    case Scheduling(CapabilityMissing) => CapabilityNotSupported
    case Scheduling(_) => NoAvailableNode
    case Context(ContextDeadline) => QueueTimeout
    case Context(ContextCanceled) => NoAvailableNode
  }

  /** Corollary of Explains. A model no serving node has: the caller gets 404 exactly when some node serves and the model
      is gone from every registered node; a suspect or draining node that still has it makes the
      answer 422 or 503 instead. */
  lemma OfflineModelStatus(nodes: map<string, NodeView>, model: string, capability: string, r: Selection)
    requires SelectionCorrect(nodes, model, capability, r)
    requires forall o | o in nodes && Serving(nodes[o]) :: model !in nodes[o].models
    ensures r.NoNode?
    ensures var status := HTTPStatus(ClassifySelectorErr(Scheduling(r.why)));
      && (status == 404 <==> SomeServing(nodes) && !SomeHas(nodes, model))
      && (status == 422 <==> SomeServing(nodes) && SomeHas(nodes, model) && !SomeClaims(nodes, model, capability))
      && (status in {404, 422} || status == 503)
  {
  }

  /** The model is on a suspect node only, beside an online node without it: 503, or 422 when that
      node's complete list lacks the capability; with no node at all, 503. Never 404. */
  lemma OfflineModelElsewhere(r: Selection, q: Selection, none: Selection)
    requires SelectionCorrect(OneSuspect(false), "m", "chat", r)
    requires SelectionCorrect(OneSuspect(true), "m", "chat", q)
    requires SelectionCorrect(map[], "m", "chat", none)
    ensures r.NoNode? && HTTPStatus(ClassifySelectorErr(Scheduling(r.why))) == 503
    ensures q.NoNode? && HTTPStatus(ClassifySelectorErr(Scheduling(q.why))) == 422
    ensures none.NoNode? && HTTPStatus(ClassifySelectorErr(Scheduling(none.why))) == 503
  {
    OneSuspectFacts(false);
    OneSuspectFacts(true);
    assert HTTPStatus(NoAvailableNode) == 503 && HTTPStatus(CapabilityNotSupported) == 422;
    hide Claims, Candidate, OneSuspect, HTTPStatus;
  }

  lemma OneSuspectFacts(complete: bool)
    ensures var nodes := OneSuspect(complete);
      && NoCandidate(nodes, "m", "chat")
      && SomeServing(nodes) && SomeHas(nodes, "m") && (SomeClaims(nodes, "m", "chat") <==> !complete)
  {
    var nodes := OneSuspect(complete);
    assert "a" in nodes && "m" in nodes["a"].models;
    assert "b" in nodes && Serving(nodes["b"]);
    assert !complete ==> Claims(nodes["a"], "m", "chat");
  }

  function OneSuspect(complete: bool): map<string, NodeView> {
    map["a" := NodeView("a", Suspect, Slots(0, 1), map["m" := ModelCap([], complete)], 0),
        "b" := NodeView("b", Online, Slots(0, 1), map[], 0)]
  }

  // ----------------------------------------------------------- bounded waiting

  /** 50 ms in nanoseconds. */
  const POLL := 50_000_000

  /** What the outside world answers to the k-th poll: the scheduler's result, how long the poll
      itself took, whether the context ended during the pause, and how late the pause returned. */
  datatype Poll = Poll(result: Selection, took: nat, ended: Option<ContextError>, late: nat)

  datatype Waited = Found(id: string) | GaveUp(e: WaitError)

  function Ceil(a: nat, b: nat): nat
    requires b > 0
  {
    (a + b - 1) / b
  }

  /** The polling loop. start is the clock on entry; the result comes with the clock and the number
      of polls, and clocks says when each began. Whatever the world answers, the loop ends within the number
      of polls stated, each poll but the last was busy, the next follows after 50 ms or at the deadline if
      that is sooner, and the answer is that of the last poll, or of the context. */
  method WaitForNode(world: nat -> Poll, start: int, queueTimeout: int)
    returns (r: Waited, now: int, polls: nat, ghost clocks: seq<int>)
    ensures 1 <= polls
    ensures polls <= if queueTimeout <= 0 then 1 else Ceil(queueTimeout, POLL) + 1
    ensures forall k: nat | k < polls - 1 :: world(k).result == NoNode(AllNodesBusy) && world(k).ended.None?
    ensures var last := world(polls - 1);
      match last.result
      case Chosen(id) => r == Found(id)
      case NoNode(why) =>
        if why != AllNodesBusy then r == GaveUp(Scheduling(why))
        else if now >= start + queueTimeout && r == GaveUp(Scheduling(AllNodesBusy)) then true
        else last.ended.Some? && r == GaveUp(Context(last.ended.value))
    ensures start <= now
    ensures |clocks| == polls && clocks[0] == start && now == clocks[polls - 1] + world(polls - 1).took
    ensures forall k: nat | k < polls - 1 :: NextPoll(start + queueTimeout, world(k), clocks[k], clocks[k + 1])
  {
    var deadline := start + queueTimeout;
    now, polls, clocks := start, 0, [start];
    while true
      invariant start <= now
      invariant polls == 0 || start + polls * POLL <= now || (deadline <= now && start + (polls - 1) * POLL < deadline)
      invariant forall k: nat | k < polls :: world(k).result == NoNode(AllNodesBusy) && world(k).ended.None?
      invariant polls > 0 ==> start + (polls - 1) * POLL < deadline
      invariant |clocks| == polls + 1 && clocks[0] == start && clocks[polls] == now
      invariant forall k: nat | k < polls :: NextPoll(deadline, world(k), clocks[k], clocks[k + 1])
      decreases deadline - now, if polls == 0 then 1 else 0
    {
      var w := world(polls);
      polls := polls + 1;
      now := now + w.took;
      if w.result.Chosen? {
        r := Found(w.result.id);
        break;
      }
      if w.result.why != AllNodesBusy {
        r := GaveUp(Scheduling(w.result.why));
        break;
      }
      var pause := POLL;
      if deadline - now < pause {
        pause := deadline - now;
      }
      if pause <= 0 {
        r := GaveUp(Scheduling(AllNodesBusy));
        break;
      }
      if w.ended.Some? {
        r := GaveUp(Context(w.ended.value));
        break;
      }
      now := now + pause + w.late;
      clocks := clocks + [now];
    }
  }

  /** After a busy poll that began at t the next begins at u: after a pause of 50 ms, or of what is left if
      that is less, and as late as the pause returned. */
  ghost predicate NextPoll(deadline: int, w: Poll, t: int, u: int) {
    var left := deadline - (t + w.took);
    left > 0 && u == t + w.took + (if left < 50_000_000 then left else 50_000_000) + w.late
  }
}
