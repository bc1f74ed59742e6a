/** Many requests on one agent: every frame and every cancel reaches the one entry it is for
    (internal/agent/agent.go, internal/agent/connector.go). */
module AgentDemux {
  import opened Basics
  import opened Frames
  import opened RequestIds
  import opened Transport

  /** One accepted request: its declared body length, whether the table still lists it, its body. */
  datatype Entry = Entry(declared: int, listed: bool, body: Inbound)

  type Entries = map<Id16, Entry>

  datatype AgentEvent =
    | Accept(id: Id16, declared: int)  // handleRequest lists a new request
    | Frame(f: Frames.Frame, pickQueue: bool, found: bool)
      // the read loop offers a data frame; found: it had looked the entry up before the table lost it
    | CancelNamed(rid: seq<byte>)      // ... handles a cancel or error message
    | Own(id: Id16, e: InboundEvent)   // assembleBody's own steps, a response timeout, close(done)
    | Unlist(id: Id16)                 // serveRequest takes the request off the table

  /** What happens to an entry other than by a frame. */
  predicate Local(e: InboundEvent) {
    !e.Arrive?
  }

  /** What an event does to the entry of id, given whether the table still lists it. */
  function Concerning(sha: Hash, id: Id16, listed: bool, e: AgentEvent): seq<InboundEvent> {
    match e
    case Frame(f, pick, found) =>
      if f.typ == FRAME_REQUEST_BODY && f.id == id && (listed || found) then [Arrive(f, pick)] else []
    case CancelNamed(rid) => if RequestIDBytes(sha, rid) == id && listed then [Cancel] else []
    case Own(i, own) => if i == id && Local(own) then [own] else []
    case _ => []
  }

  function Touch(m: Entries, id: Id16, e: InboundEvent): Entries {
    if id in m then m[id := m[id].(body := InboundStep(m[id].body, m[id].declared, e))] else m
  }

  /** Request ids are UUIDs: one that was accepted before does not come again. */
  function Step(sha: Hash, m: Entries, e: AgentEvent): Entries {
    match e
    case Accept(id, declared) => if id in m then m else m[id := Entry(declared, true, FreshInbound)]
    case Frame(f, pick, found) =>
      if f.typ == FRAME_REQUEST_BODY && f.id in m && (m[f.id].listed || found)
      then Touch(m, f.id, Arrive(f, pick))
      else m
    case CancelNamed(rid) =>
      var id := RequestIDBytes(sha, rid);
      if id in m && m[id].listed then Touch(m, id, Cancel) else m
    case Own(id, own) => if Local(own) then Touch(m, id, own) else m
    case Unlist(id) => if id in m then m[id := m[id].(listed := false)] else m
  }

  function Run(sha: Hash, m: Entries, es: seq<AgentEvent>): Entries {
    if es == [] then m else Step(sha, Run(sha, m, es[..|es| - 1]), es[|es| - 1])
  }

  predicate StillListed(id: Id16, es: seq<AgentEvent>) {
    es == [] || (StillListed(id, es[..|es| - 1]) && es[|es| - 1] != Unlist(id))
  }

  /** The events of one listed request, picked out of everybody's. */
  function Projection(sha: Hash, id: Id16, es: seq<AgentEvent>): seq<InboundEvent> {
    if es == [] then [] else
    var init := es[..|es| - 1];
    Projection(sha, id, init) + Concerning(sha, id, StillListed(id, init), es[|es| - 1])
  }

  lemma InboundAppend(s: Inbound, declared: int, es: seq<InboundEvent>, e: InboundEvent)
    ensures InboundRun(s, declared, es + [e]) == InboundStep(InboundRun(s, declared, es), declared, e)
  {
    assert (es + [e])[..|es|] == es;
  }

  lemma OneStep(sha: Hash, m: Entries, e: AgentEvent, id: Id16)
    requires id in m
    ensures var r, c := Step(sha, m, e), Concerning(sha, id, m[id].listed, e);
      && id in r && r[id].declared == m[id].declared && |c| <= 1
      && r[id].listed == (m[id].listed && e != Unlist(id))
      && r[id].body == if c == [] then m[id].body else InboundStep(m[id].body, m[id].declared, c[0])
  {
    hide InboundStep, RequestIDBytes;
  }

  /** Non-interference: in any run of the whole agent, each request's body is where its own events alone
      would have taken it. */
  lemma {:induction false} NonInterference(sha: Hash, m: Entries, es: seq<AgentEvent>, id: Id16)
    requires id in m && m[id].listed
    ensures var r := Run(sha, m, es);
      && id in r && r[id].declared == m[id].declared && r[id].listed == StillListed(id, es)
      && r[id].body == InboundRun(m[id].body, m[id].declared, Projection(sha, id, es))
  {
    if es != [] {
      var before, e := es[..|es| - 1], es[|es| - 1];
      NonInterference(sha, m, before, id);
      OneStep(sha, Run(sha, m, before), e, id);
      var seen := Projection(sha, id, before);
      var c := Concerning(sha, id, StillListed(id, before), e);
      hide Step, InboundStep, Concerning;
      if c == [] {
        assert seen + [] == seen;
      } else {
        InboundAppend(m[id].body, m[id].declared, seen, c[0]);
        assert c == [c[0]];
      }
    }
  }

  /** What reaches an entry: a body frame with its id (type 1) and a cancel naming it, as long as it is listed;
      nothing else does, and no other entry changes. */
  lemma FrameReachesEntry(sha: Hash, m: Entries, f: Frames.Frame, pick: bool, rid: seq<byte>, id: Id16)
    requires id in m
    ensures var t := Step(sha, m, AgentEvent.Frame(f, pick, false));
      && t.Keys == m.Keys && t[id].listed == m[id].listed
      && t[id].body.arrived == m[id].body.arrived + (if f.typ == 1 && f.id == id && m[id].listed then [f] else [])
      && (f.typ != 1 || f.id != id || !m[id].listed ==> t[id] == m[id])
    ensures var t := Step(sha, m, CancelNamed(rid));
      && t.Keys == m.Keys && t[id].body.queue == m[id].body.queue
      && (t[id].body.canceled <==> m[id].body.canceled || (RequestIDBytes(sha, rid) == id && m[id].listed))
  {
    assert m[id].body.arrived + [] == m[id].body.arrived;
    hide RequestIDBytes;
  }

  /** The body frames with this id that the read loop handles. */
  function FramesFor(id: Id16, es: seq<AgentEvent>): seq<Frames.Frame> {
    if es == [] then [] else
    FramesFor(id, es[..|es| - 1]) + FrameIn(id, es[|es| - 1])
  }

  function FrameIn(id: Id16, e: AgentEvent): seq<Frames.Frame> {
    if e.Frame? && e.f.typ == FRAME_REQUEST_BODY && e.f.id == id then [e.f] else []
  }

  lemma {:induction false} ArrivalsAreFrames(sha: Hash, id: Id16, es: seq<AgentEvent>)
    ensures Subseq(Arrivals(Projection(sha, id, es)), FramesFor(id, es))
  {
    if es == [] {
      assert Arrivals(Projection(sha, id, es)) == [];
    } else {
      var init, e := es[..|es| - 1], es[|es| - 1];
      ArrivalsAreFrames(sha, id, init);
      var seen, c := Projection(sha, id, init), Concerning(sha, id, StillListed(id, init), e);
      assert Projection(sha, id, es) == seen + c;
      assert FramesFor(id, es) == FramesFor(id, init) + FrameIn(id, e);
      ArrivalsAppend(seen, c);
      OneArrival(sha, id, StillListed(id, init), e);
      hide *;
      OneMore(Arrivals(seen), FramesFor(id, init), Arrivals(c), FrameIn(id, e));
    }
  }

  /** What is at most a new last element of the longer list, and perhaps of the shorter. */
  lemma OneMore(a: seq<Frames.Frame>, b: seq<Frames.Frame>, x: seq<Frames.Frame>, y: seq<Frames.Frame>)
    requires Subseq(a, b) && |y| <= 1 && (x == [] || x == y)
    ensures Subseq(a + x, b + y)
  {
    if y == [] {
      assert a + x == a && b + y == b;
    } else {
      SubseqExtend(a, b, y[0]);
      assert y == [y[0]] && a + [] == a;
    }
    hide Subseq;
  }

  lemma OneArrival(sha: Hash, id: Id16, listed: bool, e: AgentEvent)
    ensures var c := Concerning(sha, id, listed, e);
      |c| <= 1 && |FrameIn(id, e)| <= 1 && (Arrivals(c) == [] || Arrivals(c) == FrameIn(id, e))
  {
    hide RequestIDBytes;
    var c := Concerning(sha, id, listed, e);
    assert |c| == 1 ==> c[..0] == [];
  }

  lemma ArrivalsAppend(es: seq<InboundEvent>, c: seq<InboundEvent>)
    requires |c| <= 1
    ensures Arrivals(es + c) == Arrivals(es) + Arrivals(c)
  {
    if c == [] {
      assert es + c == es;
    } else {
      assert (es + c)[..|es|] == es && c == [c[0]] && c[..0] == [];
    }
  }

  /** Every body at once: whatever the interleaving of all requests on the agent, if the frames that come for
      a request are some of those its relay sent for it, in order, then a body that is handed on is the
      body sent, and every one of them came, found the entry and was taken. */
  lemma {:induction false} EveryBodyIsItsOwn(sha: Hash, m: Entries, es: seq<AgentEvent>, id: Id16, body: seq<byte>)
    requires id in m && m[id] == Entry(|body|, true, FreshInbound)
    requires Subseq(FramesFor(id, es), Chunks(id, body))
    ensures id in Run(sha, m, es)
    ensures var s := Run(sha, m, es)[id].body;
      s.asm.Assembled? ==> s.asm.body == body && s.taken == FramesFor(id, es) == Chunks(id, body) && s.lost == 0
  {
    var p := Projection(sha, id, es);
    NonInterference(sha, m, es, id);
    ArrivalsAreFrames(sha, id, es);
    hide Run, Projection, FramesFor, Chunks, InboundRun, Subseq;
    SubseqTrans(Arrivals(p), FramesFor(id, es), Chunks(id, body));
    BodyNeverCorrupted(id, body, p);
    if InboundRun(FreshInbound, |body|, p).asm.Assembled? {
      SubseqLength(FramesFor(id, es), Chunks(id, body));
      SubseqLength(Arrivals(p), FramesFor(id, es));
    }
  }
}
