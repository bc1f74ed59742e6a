/** The agent's table of running requests and its concurrency limit (internal/agent/agent.go,
    internal/agent/connector.go). */
module Agent {
  import opened Basics
  import opened Frames
  import opened RequestIds
  import opened Transport

  datatype Reply = Accepted | InvalidRequest | BodyTooLarge | NodeDraining | LocalBusy

  /** Why a request message is turned away, or that it is not. */
  function Answer(allowed: bool, bodyLen: int, maxBody: int, draining: bool, tokens: int, limit: int): Reply {
    if !allowed then InvalidRequest
    else if bodyLen < 0 || bodyLen > maxBody then BodyTooLarge
    else if draining then NodeDraining
    else if tokens >= limit then LocalBusy
    else Accepted
  }

  class Agent {
    var active: map<Id16, ActiveRequest>
    var draining: bool
    var tokens: int
    const limit: int
    const maxBody: int

    /** New: missing limits become 8 requests and 16 MiB. */
    constructor (limit: int, maxBody: int)
      ensures Valid() && active == map[] && !draining && tokens == 0
      ensures this.limit == (if limit <= 0 then 8 else limit)
      ensures this.maxBody == (if maxBody <= 0 then 16 * 1024 * 1024 else maxBody)
    {
      active, draining, tokens := map[], false, 0;
      this.limit := if limit <= 0 then 8 else limit;
      this.maxBody := if maxBody <= 0 then 16 * 1024 * 1024 else maxBody;
    }

    ghost predicate Valid()
      reads this
    {
      forall id | id in active :: active[id].id == id
    }

    method HandleRequest(sha: Hash, rid: seq<byte>, allowed: bool, bodyLen: int) returns (r: Reply)
      requires Valid()
      modifies this
      ensures Valid()
      ensures r == Answer(allowed, bodyLen, maxBody, draining, old(tokens), limit)
      ensures r == Accepted <==> allowed && 0 <= bodyLen <= maxBody && !draining && old(tokens) < limit
      ensures r == InvalidRequest <==> !allowed
      ensures r == BodyTooLarge <==> allowed && !(0 <= bodyLen <= maxBody)
      ensures r == NodeDraining <==> allowed && 0 <= bodyLen <= maxBody && draining
      ensures r == LocalBusy <==> allowed && 0 <= bodyLen <= maxBody && !draining && old(tokens) >= limit
      ensures draining == old(draining)
      ensures r != Accepted ==> active == old(active) && tokens == old(tokens)
      ensures r == Accepted ==>
                var id := RequestIDBytes(sha, rid);
                && tokens == old(tokens) + 1
                && id in active && fresh(active[id]) && active == old(active)[id := active[id]]
                && active[id].bodyLen == bodyLen && active[id].View(Collecting([])) == FreshInbound
    {
      if !allowed {
        return InvalidRequest;
      }
      if bodyLen < 0 || bodyLen > maxBody {
        return BodyTooLarge;
      }
      if draining {
        return NodeDraining;
      }
      if tokens >= limit {
        return LocalBusy;
      }
      tokens := tokens + 1;
      var id := RequestIDBytes(sha, rid);
      var ar := new ActiveRequest(id, bodyLen);
      active := active[id := ar];
      r := Accepted;
    }

    /** A frame goes to the entry of its id, and to no other. */
    method RouteFrame(f: Frame, pickQueue: bool) returns (known: bool)
      requires Valid()
      modifies active.Values
      ensures Valid() && known == (f.id in active)
      ensures known ==> (forall asm :: active[f.id].View(asm) ==
                           InboundStep(old(active[f.id].View(asm)), active[f.id].bodyLen, Arrive(f, pickQueue)))
      ensures forall id | id in active && id != f.id :: unchanged(active[id])
    {
      known := f.id in active;
      if known {
        active[f.id].RouteBodyFrame(f, pickQueue);
      }
    }

    /** The deferred end of serveRequest. */
    method FinishRequest(id: Id16)
      requires Valid() && id in active
      modifies this, active[id]
      ensures Valid() && active == old(active) - {id} && tokens == old(tokens) - 1
      ensures old(active)[id].done
    {
      var ar := active[id];
      active := active - {id};
      ar.done := true;
      tokens := tokens - 1;
    }

    method CancelRequest(sha: Hash, rid: seq<byte>)
      requires Valid()
      modifies active.Values
      ensures forall id | id in active ::
                active[id].canceled == (old(active[id].canceled) || RequestIDBytes(sha, rid) == id)
    {
      var id := RequestIDBytes(sha, rid);
      if id in active {
        active[id].CancelRequest();
      }
    }

    /** Cancels through the map's raw 16-byte keys, as if they were id strings. */
    method CancelAll(sha: Hash)
      requires Valid()
      modifies active.Values
      ensures forall id | id in active ::
                active[id].canceled == (old(active[id].canceled) || id in Reached(sha, active.Keys))
    {
      var rest := active.Keys;
      while rest != {}
        invariant rest <= active.Keys
        invariant forall id | id in active ::
                    active[id].canceled == (old(active[id].canceled) || id in Reached(sha, active.Keys - rest))
        decreases |rest|
      {
        var raw :| raw in rest;
        RawIdIsHashed(sha, raw);
        CancelRequest(sha, raw);
        assert active.Keys - (rest - {raw}) == (active.Keys - rest) + {raw};
        rest := rest - {raw};
      }
      assert active.Keys - rest == active.Keys;
    }
  }

  // ------------------------------------------------------------- cancelAll

  /** The ids cancelAll looks up: the truncated hashes of the active ids. */
  function Reached(sha: Hash, ids: set<Id16>): set<Id16> {
    set id | id in ids :: sha(id)[..16]
  }

  /** A cancel message naming a UUID reaches exactly the request of that UUID. */
  lemma CancelByNameReaches(sha: Hash, id: Id16, other: Id16)
    ensures RequestIDBytes(sha, UuidString(id)) == other <==> id == other
  {
    UuidRoundTrip(sha, id);
  }

  /** cancelAll reaches every active request exactly when truncated SHA-256 maps the set of active
      ids onto itself; of a single request, exactly when its id is a fixed point. */
  lemma CancelAllReaches(sha: Hash, ids: set<Id16>, id: Id16)
    ensures ids <= Reached(sha, ids) <==> Reached(sha, ids) == ids
    ensures {id} <= Reached(sha, {id}) <==> sha(id)[..16] == id
  {
    if ids <= Reached(sha, ids) {
      ReachedSmaller(sha, ids);
      SubsetOfNoLarger(ids, Reached(sha, ids));
    }
    assert Reached(sha, {id}) == {sha(id)[..16]};
    assert id in {id};
  }

  lemma {:induction false} ReachedSmaller(sha: Hash, ids: set<Id16>)
    ensures |Reached(sha, ids)| <= |ids|
    decreases |ids|
  {
    if ids != {} {
      var x :| x in ids;
      ReachedSmaller(sha, ids - {x});
      assert Reached(sha, ids) == Reached(sha, ids - {x}) + {sha(x)[..16]};
    }
  }

  lemma SubsetOfNoLarger<T>(a: set<T>, b: set<T>)
    requires a <= b && |b| <= |a|
    ensures a == b
  {
    assert b == a + (b - a);
  }

  /** Under a hash that never meets an active id, cancelAll cancels nothing. */
  lemma CancelAllMisses()
    ensures exists sha: Hash, ids: set<Id16> :: ids != {} && Reached(sha, ids) * ids == {}
  {
    var zeros: Digest := seq(32, _ => 0);
    var sha: Hash := (s: seq<byte>) => zeros;
    var id: Id16 := seq(16, _ => 1);
    assert Reached(sha, {id}) == {zeros[..16]};
    assert zeros[..16][0] != id[0];
    assert {id} != {} && Reached(sha, {id}) * {id} == {};
  }

  // ------------------------------------------------- every interleaving

  /** How far a request message is. The read loop handles one message at a time; a request between
      its token and its table entry keeps the loop busy. */
  datatype Stage = Refused | HasToken | Serving | Unlisted | Finished

  datatype Request = Request(id: Id16, stage: Stage)

  datatype State = State(requests: seq<Request>, active: map<Id16, nat>, tokens: int, draining: bool, busy: Option<nat>)

  datatype Event =
    | Message(id: Id16, allowed: bool, bodyLen: int)   // handleRequest up to the semaphore
    | List(r: nat)                                     // the table entry; the server goroutine starts
    | Unlist(r: nat)                                   // the deferred delete
    | GiveBack(r: nat)                                 // the deferred semaphore release
    | EnterDrain

  datatype Config = Config(limit: int, maxBody: int)

  const Start := State([], map[], 0, false, None)

  predicate Known(s: State, id: Id16) {
    exists r :: 0 <= r < |s.requests| && s.requests[r].id == id
  }

  function Go(s: State, r: nat, to: Stage): State
    requires r < |s.requests|
  {
    s.(requests := s.requests[r := s.requests[r].(stage := to)])
  }

  predicate At(s: State, r: nat, stage: Stage) {
    r < |s.requests| && s.requests[r].stage == stage
  }

  /** Request ids are UUIDs: a message with an id seen before does not occur. */
  function Step(cfg: Config, s: State, e: Event): State {
    match e
    case Message(id, allowed, bodyLen) =>
      if s.busy.Some? || Known(s, id) then s
      else if Answer(allowed, bodyLen, cfg.maxBody, s.draining, s.tokens, cfg.limit) == Accepted
      then s.(requests := s.requests + [Request(id, HasToken)], tokens := s.tokens + 1,
                 busy := Some(|s.requests|))
      else s.(requests := s.requests + [Request(id, Refused)])
    case List(r) =>
      if At(s, r, HasToken) then Go(s, r, Serving).(active := s.active[s.requests[r].id := r], busy := None) else s
    case Unlist(r) =>
      if At(s, r, Serving) then Go(s, r, Unlisted).(active := s.active - {s.requests[r].id}) else s
    case GiveBack(r) =>
      if At(s, r, Unlisted) then Go(s, r, Finished).(tokens := s.tokens - 1) else s
    case EnterDrain => s.(draining := true)
  }

  function Run(cfg: Config, es: seq<Event>): State {
    if es == [] then Start else Step(cfg, Run(cfg, es[..|es| - 1]), es[|es| - 1])
  }

  /** The machine's table lists the ids of the agent's table, and holds as many tokens. */
  ghost predicate Mirrors(keys: set<Id16>, tokens: int, draining: bool, s: State) {
    s.active.Keys == keys && s.tokens == tokens && s.draining == draining
  }

  /** What HandleRequest promises is a message step and, after acceptance, a listing step. */
  lemma HandleRequestIsTwoSteps(cfg: Config, s: State, keys: set<Id16>, tokens: int, draining: bool,
                                id: Id16, allowed: bool, bodyLen: int)
    requires Mirrors(keys, tokens, draining, s) && s.busy.None? && !Known(s, id)
    ensures var r := Answer(allowed, bodyLen, cfg.maxBody, draining, tokens, cfg.limit);
      var t := Step(cfg, Step(cfg, s, Message(id, allowed, bodyLen)), List(|s.requests|));
      && t.requests == s.requests + [Request(id, if r == Accepted then Serving else Refused)]
      && t.busy.None?
      && (if r == Accepted then Mirrors(keys + {id}, tokens + 1, draining, t)
          else Mirrors(keys, tokens, draining, t))
  {
    var t := Step(cfg, s, Message(id, allowed, bodyLen));
    hide Known, Answer;
    assert |t.requests| == |s.requests| + 1;
    var q := t.requests[|s.requests|].(stage := Serving);
    assert t.requests[|s.requests| := q] == s.requests + [q];
  }

  /** What FinishRequest promises is the two deferred steps. */
  lemma FinishIsTwoSteps(cfg: Config, s: State, keys: set<Id16>, tokens: int, draining: bool, r: nat)
    requires Mirrors(keys, tokens, draining, s) && At(s, r, Serving)
    ensures var t := Step(cfg, Step(cfg, s, Unlist(r)), GiveBack(r));
      && Mirrors(keys - {s.requests[r].id}, tokens - 1, draining, t)
      && t.requests == s.requests[r := s.requests[r].(stage := Finished)]
  {
    hide Known, Answer;
  }

  predicate Holding(q: Request) {
    q.stage.HasToken? || q.stage.Serving? || q.stage.Unlisted?
  }

  predicate IsOver(q: Request) {
    q.stage.Refused? || q.stage.Finished?
  }

  predicate Listed(q: Request) {
    q.stage == Serving
  }

  ghost predicate CountsInv(cfg: Config, s: State) {
    && s.tokens == Count(s.requests, Holding) <= cfg.limit
    && |s.active| == Count(s.requests, Listed)
  }

  /** The table lists exactly the requests being served, each under its own id. */
  ghost predicate TableInv(s: State) {
    && (forall i, j | 0 <= i < j < |s.requests| :: s.requests[i].id != s.requests[j].id)
    && (forall r | 0 <= r < |s.requests| && Listed(s.requests[r]) ::
          s.requests[r].id in s.active && s.active[s.requests[r].id] == r)
    && (forall id | id in s.active ::
          s.active[id] < |s.requests| && s.requests[s.active[id]].id == id && Listed(s.requests[s.active[id]]))
  }

  /** The read loop is busy with the one request that has a token and no entry yet. */
  ghost predicate BusyInv(s: State) {
    && (s.busy.Some? ==> At(s, s.busy.value, HasToken))
    && (forall r | 0 <= r < |s.requests| && s.requests[r].stage == HasToken :: s.busy == Some(r))
  }

  lemma BusyKept(cfg: Config, s: State, e: Event)
    requires BusyInv(s)
    ensures BusyInv(Step(cfg, s, e))
  {
    hide Known, Answer;
  }

  lemma TableAfter(s: State, t: State, r: nat)
    requires TableInv(s) && r < |s.requests|
    requires |t.requests| == |s.requests| && t.requests == s.requests[r := t.requests[r]]
    requires t.requests[r].id == s.requests[r].id
    requires t.active == if Listed(t.requests[r]) then s.active[s.requests[r].id := r] else s.active - {s.requests[r].id}
    ensures TableInv(t)
  {
  }

  lemma NewcomerUnlisted(s: State, q: Request)
    requires TableInv(s) && !Listed(q) && !Known(s, q.id)
    ensures TableInv(s.(requests := s.requests + [q]))
  {
  }

  lemma TableFrame(s: State, t: State)
    requires TableInv(s) && t.requests == s.requests && t.active == s.active
    ensures TableInv(t)
  {
  }

  lemma TableKept(cfg: Config, s: State, e: Event)
    requires TableInv(s)
    ensures TableInv(Step(cfg, s, e))
  {
    var t := Step(cfg, s, e);
    match e
    case Message(id, allowed, bodyLen) =>
      if t != s {
        var q := t.requests[|s.requests|];
        hide TableInv, Known, Answer;
        NewcomerUnlisted(s, q);
        TableFrame(s.(requests := s.requests + [q]), t);
      }
    case List(r) =>
      if At(s, r, HasToken) {
        TableAfter(s, t, r);
      }
    case Unlist(r) =>
      if At(s, r, Serving) {
        TableAfter(s, t, r);
      }
    case GiveBack(r) =>
      if At(s, r, Unlisted) {
        var id := s.requests[r].id;
        assert id !in s.active;
        assert s.active == s.active - {id};
        TableAfter(s, t, r);
      }
    case EnterDrain => TableFrame(s, t);
  }

  lemma MessageCounts(cfg: Config, s: State, q: Request)
    requires CountsInv(cfg, s) && (q.stage.Refused? || q.stage.HasToken?)
    requires q.stage == HasToken ==> s.tokens < cfg.limit
    ensures CountsInv(cfg, s.(requests := s.requests + [q],
                              tokens := s.tokens + if q.stage == HasToken then 1 else 0))
  {
    CountAppend(s.requests, q, Holding);
    CountAppend(s.requests, q, Listed);
    hide Count;
  }

  lemma NotYetListed(s: State, r: nat)
    requires TableInv(s) && At(s, r, HasToken)
    ensures s.requests[r].id !in s.active
  {
  }

  lemma ListCounts(cfg: Config, s: State, r: nat)
    requires CountsInv(cfg, s) && TableInv(s)
    ensures CountsInv(cfg, Step(cfg, s, List(r)))
  {
    MoveCounts(s, r, Serving);
    if At(s, r, HasToken) {
      NotYetListed(s, r);
      MapPutSize(s.active, s.requests[r].id, r);
    }
    hide Count, TableInv;
  }

  lemma UnlistCounts(cfg: Config, s: State, r: nat)
    requires CountsInv(cfg, s) && TableInv(s)
    ensures CountsInv(cfg, Step(cfg, s, Unlist(r)))
  {
    MoveCounts(s, r, Unlisted);
    if At(s, r, Serving) {
      var id := s.requests[r].id;
      assert Listed(s.requests[r]) && id in s.active;
      MapDropSize(s.active, id);
    }
    hide Count, TableInv;
  }

  lemma CountsKept(cfg: Config, s: State, e: Event)
    requires CountsInv(cfg, s) && TableInv(s)
    ensures CountsInv(cfg, Step(cfg, s, e))
  {
    match e
    case Message(id, allowed, bodyLen) =>
      var ok := Answer(allowed, bodyLen, cfg.maxBody, s.draining, s.tokens, cfg.limit) == Accepted;
      var q := Request(id, if ok then HasToken else Refused);
      MessageCounts(cfg, s, q);
      hide Count, Known, TableInv;
    case List(r) => ListCounts(cfg, s, r);
    case Unlist(r) => UnlistCounts(cfg, s, r);
    case GiveBack(r) =>
      MoveCounts(s, r, Finished);
      hide Count, TableInv;
    case EnterDrain => hide Count, TableInv;
  }

  lemma MoveCounts(s: State, r: nat, to: Stage)
    ensures r < |s.requests| ==>
      var q := s.requests[r].(stage := to);
      && Count(s.requests[r := q], Holding) ==
           Count(s.requests, Holding) - (if Holding(s.requests[r]) then 1 else 0) + (if Holding(q) then 1 else 0)
      && Count(s.requests[r := q], Listed) ==
           Count(s.requests, Listed) - (if Listed(s.requests[r]) then 1 else 0) + (if Listed(q) then 1 else 0)
  {
    if r < |s.requests| {
      CountUpdate(s.requests, r, s.requests[r].(stage := to), Holding);
      CountUpdate(s.requests, r, s.requests[r].(stage := to), Listed);
    }
  }

  lemma {:induction false} ReachableAgent(cfg: Config, es: seq<Event>)
    requires cfg.limit >= 0
    ensures var s := Run(cfg, es); CountsInv(cfg, s) && TableInv(s) && BusyInv(s)
  {
    if es != [] {
      ReachableAgent(cfg, es[..|es| - 1]);
      hide CountsInv, TableInv, BusyInv, Step;
      CountsKept(cfg, Run(cfg, es[..|es| - 1]), es[|es| - 1]);
      TableKept(cfg, Run(cfg, es[..|es| - 1]), es[|es| - 1]);
      BusyKept(cfg, Run(cfg, es[..|es| - 1]), es[|es| - 1]);
    }
  }

  lemma RunAppend(cfg: Config, es: seq<Event>, e: Event)
    ensures Run(cfg, es + [e]) == Step(cfg, Run(cfg, es), e)
  {
    assert (es + [e])[..|es|] == es;
  }

  /** A machine that drains admits nobody: the requests after s are all refused, and tokens only fall. */
  ghost predicate OnlyDrains(s: State, t: State) {
    && t.draining && t.tokens <= s.tokens && |t.requests| >= |s.requests|
    && (forall r | |s.requests| <= r < |t.requests| :: t.requests[r].stage == Refused)
    && (forall r | 0 <= r < |s.requests| && IsOver(s.requests[r]) :: IsOver(t.requests[r]))
  }

  lemma DrainingStep(cfg: Config, s: State, t: State, e: Event)
    requires OnlyDrains(s, t)
    ensures OnlyDrains(s, Step(cfg, t, e))
  {
    hide Known;
  }

  /** Over every run: once EnterDrain has come, no further request gets a token, tokens only fall, and when
      the requests that were running then are over, no token and no entry is left. */
  lemma {:induction false} DrainAdmitsNobody(cfg: Config, before: seq<Event>, after: seq<Event>)
    requires cfg.limit >= 0 && EnterDrain in before
    ensures var s, t := Run(cfg, before), Run(cfg, before + after);
      && OnlyDrains(s, t)
      && ((forall r | 0 <= r < |s.requests| :: IsOver(t.requests[r])) ==> t.tokens == 0 && t.active == map[])
  {
    var s, t := Run(cfg, before), Run(cfg, before + after);
    if after == [] {
      assert before + after == before;
      DrainingSince(cfg, before);
    } else {
      var init, e := after[..|after| - 1], after[|after| - 1];
      DrainAdmitsNobody(cfg, before, init);
      assert before + after == before + init + [e];
      RunAppend(cfg, before + init, e);
      DrainingStep(cfg, s, Run(cfg, before + init), e);
    }
    AgentNests(cfg, before + after);
    hide Run, Step;
  }

  lemma {:induction false} DrainingSince(cfg: Config, es: seq<Event>)
    requires EnterDrain in es
    ensures Run(cfg, es).draining
  {
    var init, e := es[..|es| - 1], es[|es| - 1];
    if e != EnterDrain {
      assert EnterDrain in init;
      DrainingSince(cfg, init);
    }
    hide Known, Answer;
  }

  /** Entries, tokens and the limit nest at every step, and all are given back in the end. */
  lemma AgentNests(cfg: Config, es: seq<Event>)
    requires cfg.limit >= 0
    ensures var s := Run(cfg, es);
      && |s.active| <= s.tokens <= cfg.limit
      && ((forall r | 0 <= r < |s.requests| :: IsOver(s.requests[r]))
            ==> s.active == map[] && s.tokens == 0)
  {
    ReachableAgent(cfg, es);
    var s := Run(cfg, es);
    CountImplies(s.requests, Listed, Holding);
    if forall r | 0 <= r < |s.requests| :: IsOver(s.requests[r]) {
      CountNone(s.requests, Holding);
    }
  }

  /** Whenever the read loop is ready for the next message, a body frame finds an entry exactly when
      its request was accepted and its server has not yet finished; and it finds its own. */
  lemma FrameFindsItsEntry(cfg: Config, es: seq<Event>, r: nat)
    requires cfg.limit >= 0 && r < |Run(cfg, es).requests| && Run(cfg, es).busy.None?
    ensures FindsItsOwn(Run(cfg, es), r)
  {
    ReachableAgent(cfg, es);
    hide Run;
    FindsOwn(Run(cfg, es), r);
  }

  lemma FindsOwn(s: State, r: nat)
    requires TableInv(s) && BusyInv(s) && s.busy.None? && r < |s.requests|
    ensures FindsItsOwn(s, r)
  {
  }

  predicate FindsItsOwn(s: State, r: nat)
    requires r < |s.requests|
  {
    var q := s.requests[r];
    && (q.id in s.active <==> q.stage.HasToken? || q.stage.Serving?)
    && (q.id in s.active ==> s.active[q.id] == r)
  }
}
