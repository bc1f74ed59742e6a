/** Many requests on many connections: the pending table, and the dispatch of every agent message
    to the one entry it is for (internal/relay/wss.go, internal/relay/server.go). */
module Demux {
  import opened Basics
  import opened Errors
  import opened Frames
  import opened RequestIds
  import opened Response
  import opened Upstream
  import Transport

  /** A message from an agent. Control messages name the request by its string id, frames by its
      16 bytes; Unrelated is any that concerns no request (heartbeat, models update, drain ack, or
      one that does not parse). */
  datatype Wire =
    | HeadersMsg(rid: seq<byte>, status: int)
    | DoneMsg(rid: seq<byte>)
    | ErrorMsg(rid: seq<byte>, code: Code)
    | FrameMsg(f: Frame)
    | Unrelated
    | Bye

  function Target(sha: Hash, m: Wire): Option<Id16> {
    match m
    case HeadersMsg(rid, _) => Some(RequestIDBytes(sha, rid))
    case DoneMsg(rid) => Some(RequestIDBytes(sha, rid))
    case ErrorMsg(rid, _) => Some(RequestIDBytes(sha, rid))
    case FrameMsg(f) => Some(f.id)
    case _ => None
  }

  /** What a message with a target does to its entry. */
  function EntryEvent(m: Wire): Event
    requires !m.Unrelated? && !m.Bye?
  {
    match m
    case HeadersMsg(_, status) => WireHeaders(status)
    case DoneMsg(_) => WireDone
    case ErrorMsg(_, code) => WireError(code)
    case FrameMsg(f) => WireFrame(f, false)
  }

  // ------------------------------------------------------------ the operations

  /** pendingRegistry: the entries of the requests in progress, by 16-byte id. */
  class PendingRegistry {
    var m: map<Id16, PendingRequest>

    constructor ()
      ensures m == map[]
    {
      m := map[];
    }

    ghost predicate Valid()
      reads this
    {
      && (forall id | id in m :: m[id].id == id)
    }

    /** The channels of every entry. */
    ghost function View(): map<Id16, Channels>
      reads this, m.Values
    {
      map id | id in m :: m[id].View()
    }

    method Add(p: PendingRequest)
      requires Valid()
      modifies this
      ensures Valid() && m == old(m)[p.id := p]
    {
      m := m[p.id := p];
    }

    method Remove(id: Id16)
      requires Valid()
      modifies this, if id in m then {m[id]} else {}
      ensures Valid() && m == old(m) - {id}
      ensures View() == old(View()) - {id}
      ensures id in old(m) ==> old(m)[id].View() == old(m[id].View()).(closed := true)
    {
      if id in m {
        m[id].RemoveEntry();
      }
      m := m - {id};
    }

    method OwnedBy(nodeID: string, id: Id16) returns (p: PendingRequest?)
      requires Valid()
      ensures p != null <==> id in m && m[id].nodeID == nodeID
      ensures p != null ==> p == m[id]
    {
      p := null;
      if id in m && m[id].nodeID == nodeID {
        p := m[id];
      }
    }

    /** dispatchControl and dispatchFrame on one message of the connection of nodeID: only the entry
        with the message's id changes, and only if that node owns it. Never blocks. */
    method Dispatch(sha: Hash, nodeID: string, msg: Wire) returns (keepReading: bool)
      requires Valid()
      modifies m.Values
      ensures Valid() && m == old(m)
      ensures keepReading == !msg.Bye?
      ensures var t := Target(sha, msg);
        if t.Some? && t.value in m && m[t.value].nodeID == nodeID
        then View() == old(View())[t.value := Dispatched(old(View())[t.value], msg)]
        else View() == old(View())
    {
      keepReading := !msg.Bye?;
      var t := Target(sha, msg);
      hide RequestIDBytes, Dispatched;
      if t.None? {
        return;
      }
      var p := OwnedBy(nodeID, t.value);
      if p == null {
        return;
      }
      ghost var before := View();
      ApplyTo(p, msg);
      assert forall id | id in m && id != t.value :: m[id] != p && m[id].View() == before[id];
      assert View() == before[t.value := Dispatched(before[t.value], msg)];
    }
  }

  method ApplyTo(p: PendingRequest, msg: Wire)
    requires !msg.Unrelated? && !msg.Bye?
    modifies p
    ensures p.View() == Dispatched(old(p.View()), msg)
  {
    match msg {
      case HeadersMsg(_, status) => p.PutHeaders(status);
      case DoneMsg(_) => p.PutDone();
      case ErrorMsg(_, code) => p.PutError(code);
      case FrameMsg(f) => p.DispatchFrame(f, false);
    }
  }

  /** The channels of an entry after one message for it was handled to the end. */
  function Dispatched(c: Channels, msg: Wire): Channels
    requires !msg.Unrelated? && !msg.Bye?
  {
    match msg
    case HeadersMsg(_, status) => if c.headers.None? then c.(headers := Some(status)) else c
    case DoneMsg(_) => c.(done := true)
    case ErrorMsg(_, code) => if c.err.None? then c.(err := Some(code)) else c
    case FrameMsg(f) =>
      var d := OfferFrame(c, f, false);
      if d.overflow > c.overflow then Report(d) else d
  }

  /** The message is about request id. */
  ghost predicate Names(sha: Hash, msg: Wire, id: Id16) {
    match msg
    case HeadersMsg(rid, _) => RequestIDBytes(sha, rid) == id
    case DoneMsg(rid) => RequestIDBytes(sha, rid) == id
    case ErrorMsg(rid, _) => RequestIDBytes(sha, rid) == id
    case FrameMsg(f) => f.id == id
    case Unrelated => false
    case Bye => false
  }

  /** What a message leaves in the channels of its entry: a first status, a done, a first error, a frame if
      fewer than sixteen are queued; a frame too many leaves a cancel for the agent and an error. */
  ghost predicate Delivered(c: Channels, d: Channels, msg: Wire) {
    match msg
    case HeadersMsg(_, status) => d == c.(headers := Some(if c.headers.Some? then c.headers.value else status))
    case DoneMsg(_) => d == c.(done := true)
    case ErrorMsg(_, code) => d == c.(err := Some(if c.err.Some? then c.err.value else code))
    case FrameMsg(f) =>
      && d.dispatched == c.dispatched + [f]
      && d.headers == c.headers && d.done == c.done && d.closed == c.closed && d.reporting == c.reporting
      && d.frames == c.frames + (if |c.frames| < 16 && !c.closed then [f] else [])
      && d.discarded == c.discarded + (if c.closed then 1 else 0)
      && d.overflow == c.overflow + (if |c.frames| >= 16 && !c.closed then 1 else 0)
      && d.told == c.told + (if |c.frames| >= 16 && !c.closed then [QueueOverflow] else [])
      && d.err == (if |c.frames| >= 16 && !c.closed && c.err.None? then Some(Internal) else c.err)
    case _ => false
  }

  lemma DeliveredPlainly(c: Channels, msg: Wire)
    requires !msg.Unrelated? && !msg.Bye?
    ensures Delivered(c, Dispatched(c, msg), msg)
  {
  }

  // -------------------------------------------------- every interleaving at once

  datatype Entry = Entry(node: string, s: Stream)

  type System = map<Id16, Entry>

  datatype SystemEvent =
    | FromNode(node: string, msg: Wire)   // a read loop handles a message
    | OfRequest(id: Id16, e: Event)       // a step of the request's own handler, or a pending report

  /** Events a handler can take on its own. */
  predicate Local(e: Event) {
    MsgOf(e) == []
  }

  function Touch(m: System, id: Id16, e: Event): System {
    if id in m then m[id := m[id].(s := Step(m[id].s, e))] else m
  }

  /** A closed entry has left the pending table: messages no longer find it. */
  function SystemStep(sha: Hash, m: System, e: SystemEvent): System {
    match e
    case FromNode(node, msg) =>
      var t := Target(sha, msg);
      if t.Some? && t.value in m && m[t.value].node == node && !m[t.value].s.ch.closed
      then Touch(m, t.value, EntryEvent(msg))
      else m
    case OfRequest(id, e) => if Local(e) then Touch(m, id, e) else m
  }

  function SystemRun(sha: Hash, m: System, es: seq<SystemEvent>): System {
    if es == [] then m else SystemStep(sha, SystemRun(sha, m, es[..|es| - 1]), es[|es| - 1])
  }

  // ------------------------------------------- Dispatch is a run of the system

  /** The pending table that a system stands for: its open entries. */
  ghost predicate Shows(m: System, view: map<Id16, Channels>, owner: map<Id16, string>) {
    && view.Keys == owner.Keys
    && (forall id :: id in view <==> id in m && !m[id].s.ch.closed)
    && (forall id | id in view :: view[id] == m[id].s.ch && owner[id] == m[id].node)
  }

  /** The table after Dispatch, as its contract states it. */
  function AfterDispatch(sha: Hash, view: map<Id16, Channels>, owner: map<Id16, string>, node: string, msg: Wire)
    : map<Id16, Channels>
    requires view.Keys == owner.Keys
  {
    var t := Target(sha, msg);
    if t.Some? && t.value in view && owner[t.value] == node
    then view[t.value := Dispatched(view[t.value], msg)]
    else view
  }

  /** What Dispatch promises, in plain terms: each entry that the message names and the sender's node owns gets
      it, and every other entry is as before. */
  lemma DispatchInPlainTerms(sha: Hash, view: map<Id16, Channels>, owner: map<Id16, string>, node: string, msg: Wire)
    requires view.Keys == owner.Keys
    ensures var after := AfterDispatch(sha, view, owner, node, msg);
      && after.Keys == view.Keys
      && forall id | id in view ::
           if owner[id] == node && Names(sha, msg, id) then Delivered(view[id], after[id], msg)
           else after[id] == view[id]
  {
    assert forall id: Id16 :: Names(sha, msg, id) <==> Target(sha, msg) == Some(id);
    hide RequestIDBytes, Dispatched, Delivered, Names;
    forall id | id in view && Names(sha, msg, id)
      ensures Delivered(view[id], Dispatched(view[id], msg), msg)
    {
      DeliveredPlainly(view[id], msg);
    }
  }

  /** The message meets a full queue. */
  predicate Overflows(sha: Hash, m: System, node: string, msg: Wire) {
    msg.FrameMsg? && msg.f.id in m && m[msg.f.id].node == node && !m[msg.f.id].s.ch.closed
    && |m[msg.f.id].s.ch.frames| >= FRAME_QUEUE
  }

  /** The steps of a dispatch: the message and, after an overflow, the report. */
  function DispatchSteps(sha: Hash, m: System, node: string, msg: Wire): seq<SystemEvent> {
    if Overflows(sha, m, node, msg) then [FromNode(node, msg), OfRequest(msg.f.id, ReportOverflow)]
    else [FromNode(node, msg)]
  }

  /** One open entry, one message: the entry's steps end with the channels that Dispatched says. */
  lemma EntryDispatched(s: Stream, msg: Wire)
    requires !msg.Unrelated? && !msg.Bye? && !s.ch.closed
    ensures var t := Step(s, EntryEvent(msg));
      s.(ch := Dispatched(s.ch, msg)) ==
      if msg.FrameMsg? && |s.ch.frames| >= FRAME_QUEUE then Step(t, ReportOverflow) else t
  {
  }

  lemma SystemDispatched(sha: Hash, m: System, node: string, msg: Wire)
    ensures var t := Target(sha, msg);
      SystemRun(sha, m, DispatchSteps(sha, m, node, msg)) ==
      if t.Some? && t.value in m && m[t.value].node == node && !m[t.value].s.ch.closed
      then m[t.value := m[t.value].(s := m[t.value].s.(ch := Dispatched(m[t.value].s.ch, msg)))]
      else m
  {
    var e := FromNode(node, msg);
    var t := Target(sha, msg);
    assert [e][..0] == [];
    assert SystemRun(sha, m, [e]) == SystemStep(sha, SystemRun(sha, m, []), e);
    if t.Some? && t.value in m && m[t.value].node == node && !m[t.value].s.ch.closed {
      EntryDispatched(m[t.value].s, msg);
    }
    if Overflows(sha, m, node, msg) {
      var o := OfRequest(msg.f.id, ReportOverflow);
      assert [e, o][..1] == [e];
      assert SystemRun(sha, m, [e, o]) == SystemStep(sha, SystemRun(sha, m, [e]), o);
    }
    hide RequestIDBytes, SystemRun, Step, Dispatched;
  }

  /** What Dispatch promises of the table is what the system's steps do; clients, handlers and closed
      entries are left alone. */
  lemma DispatchIsARun(sha: Hash, m: System, view: map<Id16, Channels>, owner: map<Id16, string>,
                       node: string, msg: Wire)
    requires Shows(m, view, owner)
    ensures var r := SystemRun(sha, m, DispatchSteps(sha, m, node, msg));
      && Shows(r, AfterDispatch(sha, view, owner, node, msg), owner)
      && r.Keys == m.Keys
      && (forall id | id in m :: r[id].node == m[id].node && r[id].s.cl == m[id].s.cl && r[id].s.fw == m[id].s.fw)
      && (forall id | id in m && m[id].s.ch.closed :: r[id] == m[id])
  {
    SystemDispatched(sha, m, node, msg);
    var t := Target(sha, msg);
    if t.Some? && t.value in view && owner[t.value] == node {
      NeverCloses(view[t.value], msg);
      ShowsAfter(m, view, owner, t.value, Dispatched(view[t.value], msg));
    }
    hide SystemRun, DispatchSteps, Dispatched, Target;
  }

  lemma ShowsAfter(m: System, view: map<Id16, Channels>, owner: map<Id16, string>, id: Id16, c: Channels)
    requires Shows(m, view, owner) && id in view && !c.closed
    ensures Shows(m[id := m[id].(s := m[id].s.(ch := c))], view[id := c], owner)
  {
    assert view[id := c].Keys == view.Keys;
  }

  lemma NeverCloses(c: Channels, msg: Wire)
    requires !msg.Unrelated? && !msg.Bye?
    ensures Dispatched(c, msg).closed == c.closed
  {
  }

  /** The events that concern request id, owned by node: its own, and the messages with its id that
      come from that node. Nothing about the rest of the system enters. */
  function Concerning(sha: Hash, id: Id16, node: string, e: SystemEvent): seq<Event> {
    match e
    case FromNode(n, msg) => if Target(sha, msg) == Some(id) && n == node then [EntryEvent(msg)] else []
    case OfRequest(i, e) => if i == id && Local(e) then [e] else []
  }

  function Projection(sha: Hash, id: Id16, node: string, es: seq<SystemEvent>): seq<Event> {
    if es == [] then []
    else Projection(sha, id, node, es[..|es| - 1]) + Concerning(sha, id, node, es[|es| - 1])
  }

  /** One request alone, its entry unreachable for messages once closed. */
  function SoloStep(s: Stream, e: Event): Stream {
    if !Local(e) && s.ch.closed then s else Step(s, e)
  }

  function Solo(s: Stream, es: seq<Event>): Stream {
    if es == [] then s else SoloStep(Solo(s, es[..|es| - 1]), es[|es| - 1])
  }

  lemma SoloAppend(s: Stream, es: seq<Event>, e: Event)
    ensures Solo(s, es + [e]) == SoloStep(Solo(s, es), e)
  {
    assert (es + [e])[..|es|] == es;
  }

  /** Non-interference: in any run of the whole system, each request's state is the one it would
      reach alone on the events that concern it. */
  lemma {:induction false} NonInterference(sha: Hash, m: System, es: seq<SystemEvent>, id: Id16)
    requires id in m
    ensures var r := SystemRun(sha, m, es);
      && id in r
      && r[id].node == m[id].node
      && r[id].s == Solo(m[id].s, Projection(sha, id, m[id].node, es))
  {
    if es != [] {
      var before, e := es[..|es| - 1], es[|es| - 1];
      NonInterference(sha, m, before, id);
      var seen := Projection(sha, id, m[id].node, before);
      var c := Concerning(sha, id, m[id].node, e);
      OneStep(sha, SystemRun(sha, m, before), e, id);
      hide SystemStep, SoloStep, Concerning;
      if c == [] {
        assert seen + [] == seen;
      } else {
        SoloAppend(m[id].s, seen, c[0]);
        assert c == [c[0]];
      }
    }
  }

  lemma OneStep(sha: Hash, m: System, e: SystemEvent, id: Id16)
    requires id in m
    ensures var r, c := SystemStep(sha, m, e), Concerning(sha, id, m[id].node, e);
      && id in r && r[id].node == m[id].node && |c| <= 1
      && r[id].s == if c == [] then m[id].s else SoloStep(m[id].s, c[0])
  {
    hide Step, RequestIDBytes;
  }

  /** Two systems and two runs that agree on one request's events agree on its outcome. */
  lemma OthersDoNotMatter(sha: Hash, m1: System, es1: seq<SystemEvent>, m2: System, es2: seq<SystemEvent>, id: Id16)
    requires id in m1 && id in m2 && m1[id] == m2[id]
    requires Projection(sha, id, m1[id].node, es1) == Projection(sha, id, m2[id].node, es2)
    ensures id in SystemRun(sha, m1, es1) && id in SystemRun(sha, m2, es2)
    ensures SystemRun(sha, m1, es1)[id] == SystemRun(sha, m2, es2)[id]
  {
    NonInterference(sha, m1, es1, id);
    NonInterference(sha, m2, es2, id);
  }

  // ------------------------------------------------------- end to end, all requests

  /** The events of a solo run that reach the entry: messages after its removal do not. */
  function Reaching(s: Stream, es: seq<Event>): seq<Event> {
    if es == [] then [] else
    var init, e := es[..|es| - 1], es[|es| - 1];
    if !Local(e) && Solo(s, init).ch.closed then Reaching(s, init) else Reaching(s, init) + [e]
  }

  lemma ClosedStays(s: Stream, e: Event)
    ensures s.ch.closed ==> Step(s, e).ch.closed
  {
  }

  lemma {:induction false} SoloIsRun(s: Stream, es: seq<Event>)
    requires !s.ch.closed
    ensures Run(s, Reaching(s, es)) == Solo(s, es)
    ensures Received(Reaching(s, es)) <= Received(es)
    ensures !Solo(s, es).ch.closed ==> Received(Reaching(s, es)) == Received(es)
  {
    if es != [] {
      var init, e := es[..|es| - 1], es[|es| - 1];
      SoloIsRun(s, init);
      RunAppend(s, Reaching(s, init), e);
      ClosedStays(Solo(s, init), e);
      assert (Reaching(s, init) + [e])[..|Reaching(s, init)|] == Reaching(s, init);
      hide Step, Run;
    }
  }

  /** The whole path, for every request in every interleaving of every other, when its agent read the
      upstream response to the end. If the request is counted a success and no more frames came for it
      than were sent, the client has exactly the frames sent if, and only if, they came before the
      end, in order, and all found room. If what arrives is any part of what was sent, in order, as
      when the agent reconnects midway, that is: if no frame was lost on the way and none met a full
      queue. And the frames sent are the upstream bytes. */
  lemma {:induction false} EndToEnd(sha: Hash, m: System, es: seq<SystemEvent>, id: Id16, ttft: bool, idle: bool,
                                    status: int, rs: seq<Read>)
    requires id in m && m[id].s == Fresh(ttft, idle)
    requires Readable(rs) && rs != [] && rs[|rs| - 1].end.Eof?
    ensures id in SystemRun(sha, m, es)
    ensures var s := SystemRun(sha, m, es)[id].s;
      var p, sent := Projection(sha, id, m[id].node, es), FramesFor(id, rs);
      var f := Fresh(ttft, idle);
      var seen := Reaching(f, p);
      s.fw.phase == Ended(Succeeded) ==>
        && (|InTime(f, seen)| <= |sent| ==>
              (s.cl.written == sent <==> RefusedInTime(f, seen) == 0 && InTime(f, seen) == sent))
        && (Subseq(Received(p), Transcript(id, status, rs)) ==>
              && s.cl.errBody.None?
              && Subseq(s.cl.written, sent)
              && (s.cl.written == sent <==> s.ch.overflow == 0 && FramesOf(Received(p)) == sent)
              && (Body(s.cl.written) == Bytes(rs) <==> s.cl.written == sent))
        && (s.cl.written == sent ==> Body(s.cl.written) == Bytes(rs))
  {
    var p := Projection(sha, id, m[id].node, es);
    var t := Transcript(id, status, rs);
    var f := Fresh(ttft, idle);
    NonInterference(sha, m, es, id);
    SoloIsRun(f, p);
    TranscriptShape(id, status, rs);
    FramesCarryBytes(id, rs);
    DeliveryInAnyOrder(ttft, idle, Reaching(f, p), FramesFor(id, rs));
    hide Run, Solo, Projection, Reaching, Transcript, FramesFor, Received, FramesOf, InTime, RefusedInTime, Subseq,
         SystemRun, Body, Bytes;
    if Subseq(Received(p), t) && Run(f, Reaching(f, p)).fw.phase == Ended(Succeeded) {
      AllSeen(Received(Reaching(f, p)), Received(p), t);
      ExactDelivery(ttft, idle, Reaching(f, p), t);
      FramesAreNotEmpty(id, rs);
      Transport.BodyOfSubseq(Run(f, Reaching(f, p)).cl.written, FramesFor(id, rs));
    }
  }

  lemma {:induction false} FramesAreNotEmpty(id: Id16, rs: seq<Read>)
    ensures Transport.AllCarry(FramesFor(id, rs))
  {
    if rs != [] {
      FramesAreNotEmpty(id, rs[..|rs| - 1]);
    }
  }

  /** An initial part of what arrived that ends with Done is all of it. */
  lemma {:induction false} AllSeen(seen: seq<AgentMsg>, got: seq<AgentMsg>, t: seq<AgentMsg>)
    requires EndsWithDone(t) && Subseq(got, t) && seen <= got
    ensures Subseq(seen, t)
    ensures LastIsDone(seen) ==> seen == got
  {
    NothingAfterDone(got, t);
    SubseqPrefix(seen, got);
    SubseqTrans(seen, got, t);
  }
}
