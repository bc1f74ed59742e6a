/** One proxied request from start to end, on the real objects: admission, node slot, pending entry,
    body, response, and the deferred clean-ups of every exit (internal/relay/proxy.go). */
module Proxy {
  import opened Basics
  import opened Errors
  import opened Nodes
  import R = Response
  import Demux
  import Scheduler
  import Transport

  /** Which case of acquire's select is taken. */
  datatype AcquireCase = GetsToken | TimerFires | ContextEnds

  /** Bounded queue and global semaphore. */
  class Gate {
    const queueLength: int
    const maxConcurrency: int
    var waiting: int
    var tokens: int

    constructor (queueLength: int, maxConcurrency: int)
      ensures this.queueLength == queueLength && this.maxConcurrency == maxConcurrency
      ensures waiting == 0 && tokens == 0
    {
      this.queueLength, this.maxConcurrency, waiting, tokens := queueLength, maxConcurrency, 0, 0;
    }

    /** A token is taken exactly on success; whoever leaves is no longer waiting. */
    method Acquire(stats: R.Stats, pick: AcquireCase) returns (refused: Option<Code>)
      requires pick.GetsToken? ==> tokens < maxConcurrency
      modifies this`waiting, this`tokens, stats`queueFull
      ensures waiting == old(waiting)
      ensures tokens == old(tokens) + if refused.None? then 1 else 0
      ensures refused == Refusal(old(waiting) >= queueLength, pick)
      ensures stats.queueFull == old(stats.queueFull) + if refused == Some(QueueFull) then 1 else 0
    {
      if waiting >= queueLength {
        stats.queueFull := stats.queueFull + 1;
        return Some(QueueFull);
      }
      waiting := waiting + 1;
      match pick {
        case GetsToken =>
          tokens := tokens + 1;
          refused := None;
        case TimerFires => refused := Some(QueueTimeout);
        case ContextEnds => refused := Some(Canceled);
      }
      waiting := waiting - 1;
    }

    method ReturnToken()
      modifies this`tokens
      ensures tokens == old(tokens) - 1
    {
      tokens := tokens - 1;
    }
  }

  /** The refusal of acquire, if any: a full queue is noticed before anything else. */
  function Refusal(full: bool, pick: AcquireCase): Option<Code> {
    if full then Some(QueueFull) else
    match pick
    case GetsToken => None
    case TimerFires => Some(QueueTimeout)
    case ContextEnds => Some(Canceled)
  }

  /** The outcome counters: successful, failed, canceled. */
  ghost function Buckets(stats: R.Stats): (nat, nat, nat)
    reads stats
  {
    (stats.success, stats.failed, stats.canceled)
  }

  /** Where a request is counted; a failed client write is counted nowhere. */
  datatype Bucket = AsSuccess | AsFailed | AsCanceled | Uncounted

  ghost predicate Counted(before: (nat, nat, nat), after: (nat, nat, nat), b: Bucket) {
    after == match b
    case AsSuccess => (before.0 + 1, before.1, before.2)
    case AsFailed => (before.0, before.1 + 1, before.2)
    case AsCanceled => (before.0, before.1, before.2 + 1)
    case Uncounted => before
  }

  function BucketOf(o: R.Outcome): Bucket {
    match o
    case Succeeded => AsSuccess
    case FailedWith(_) => AsFailed
    case CanceledByClient => AsCanceled
    case WriteFailed => Uncounted
  }

  /** The request message and the whole body got out; the send error of an empty body is ignored. */
  predicate Reached(requestSent: bool, body: seq<byte>, room: nat) {
    requestSent && (body == [] || room >= Transport.ChunkCount(|body|))
  }

  datatype Record = Record(status: int, code: Option<Code>)

  /** How a request leaves: its record, its bucket, and what its client has seen. */
  datatype Exit = Exit(rec: Record, bucket: Bucket, client: R.Client)

  /** Refused for the obstacle, or, without one, as the response ended. */
  function ExitOf(obstacle: Option<Code>, response: R.Stream): Exit
    requires response.fw.phase.Ended?
  {
    match obstacle
    case Some(code) => Exit(Record(HTTPStatus(code), Some(code)), AsFailed, R.RelayError(R.FreshClient, code))
    case None =>
      Exit(Record(response.fw.recStatus, response.fw.recCode), BucketOf(response.fw.phase.outcome), response.cl)
  }

  ghost predicate Leaves(before: (nat, nat, nat), after: (nat, nat, nat), client: R.Client, rec: Record, x: Exit) {
    rec == x.rec && client == x.client && Counted(before, after, x.bucket)
  }

  /** A failure handleProxy decides itself, with the status it puts in the record. */
  method Refuse(stats: R.Stats, w: R.ResponseWriter, status: int, code: Code) returns (rec: Record)
    modifies stats`failed, w
    ensures rec == Record(status, Some(code))
    ensures stats.failed == old(stats.failed) + 1
    ensures w.View() == R.RelayError(old(w.View()), code)
  {
    stats.failed := stats.failed + 1;
    w.WriteRelayError(code);
    rec := Record(status, Some(code));
  }

  method RefuseNode(stats: R.Stats, w: R.ResponseWriter) returns (rec: Record)
    modifies stats`failed, w
    ensures rec == Record(HTTPStatus(NoAvailableNode), Some(NoAvailableNode))
    ensures stats.failed == old(stats.failed) + 1
    ensures w.View() == R.RelayError(old(w.View()), NoAvailableNode)
  {
    rec := Refuse(stats, w, 503, NoAvailableNode);
  }

  /** A response that ends is counted by its outcome, and recorded the same, whatever the counters were. */
  lemma ResponseCounted(ttft: bool, idle: bool, a: nat, b: nat, c: nat, schedule: seq<R.Event>)
    requires R.Run(R.Fresh(ttft, idle), schedule).fw.phase.Ended?
    ensures var r, t := R.Run(R.Fresh(ttft, idle), schedule), R.Run(R.Shifted(R.Fresh(ttft, idle), a, b, c), schedule);
      Leaves((a, b, c), (t.fw.successes, t.fw.failures, t.fw.cancels), t.cl, Record(t.fw.recStatus, t.fw.recCode),
             ExitOf(None, r))
  {
    R.RunFromCounters(ttft, idle, a, b, c, schedule);
    R.ReachableStream(ttft, idle, schedule);
    hide R.Run, R.DeliveryInv, R.NoSilentLoss, HTTPStatus;
  }

  /** No exit records a code with a status that is not the code's. */
  lemma ExitIsHonest(obstacle: Option<Code>, ttft: bool, idle: bool, schedule: seq<R.Event>)
    requires R.Run(R.Fresh(ttft, idle), schedule).fw.phase.Ended?
    ensures var rec := ExitOf(obstacle, R.Run(R.Fresh(ttft, idle), schedule)).rec;
      rec.code.Some? ==> rec.status == HTTPStatus(rec.code.value)
  {
    R.ReachableStream(ttft, idle, schedule);
    hide R.Run, R.DeliveryInv, R.NoSilentLoss, HTTPStatus;
  }

  method Respond(p: R.PendingRequest, stats: R.Stats, w: R.ResponseWriter, ttft: bool, idle: bool,
                 schedule: seq<R.Event>)
    returns (rec: Record)
    requires p.View() == R.FreshChannels && w.View() == R.FreshClient
    requires R.Run(R.Fresh(ttft, idle), schedule).fw.phase.Ended?
    modifies p, stats`success, stats`failed, stats`canceled, w
    ensures Leaves(old(Buckets(stats)), Buckets(stats), w.View(), rec,
                   ExitOf(None, R.Run(R.Fresh(ttft, idle), schedule)))
  {
    var f := new R.Forwarder(p, w, stats, ttft, idle);
    ghost var (a, b, c) := Buckets(stats);
    assert f.View() == R.Shifted(R.Fresh(ttft, idle), a, b, c);
    f.ForwardResponse(schedule);
    ResponseCounted(ttft, idle, a, b, c, schedule);
    hide R.Run, R.Shifted, Leaves, ExitOf;
    rec := Record(f.recStatus, f.recCode);
  }

  /** Request message, body, response, on a pending entry that exists. The schedule is one under
      which forwardResponse ends. */
  method Converse(p: R.PendingRequest, stats: R.Stats, w: R.ResponseWriter, link: Transport.Link,
                  body: seq<byte>, requestSent: bool, ttft: bool, idle: bool, schedule: seq<R.Event>)
    returns (rec: Record)
    requires p.View() == R.FreshChannels && w.View() == R.FreshClient
    requires R.Run(R.Fresh(ttft, idle), schedule).fw.phase.Ended?
    modifies p, stats`success, stats`failed, stats`canceled, w, link
    ensures link.sent == old(link.sent) + if !requestSent then [] else
              Transport.Chunks(p.id, body)[..Transport.Min(old(link.room), Transport.ChunkCount(|body|))]
    ensures Leaves(old(Buckets(stats)), Buckets(stats), w.View(), rec,
                   ExitOf(if Reached(requestSent, body, old(link.room)) then None else Some(NoAvailableNode),
                          R.Run(R.Fresh(ttft, idle), schedule)))
  {
    hide R.Run, Transport.ChunkCount, Transport.Chunks, HTTPStatus, R.RelayError;
    var sent := requestSent;
    if requestSent {
      sent := Transport.SendBody(link, p.id, body);
    }
    if sent {
      rec := Respond(p, stats, w, ttft, idle, schedule);
    } else {
      rec := RefuseNode(stats, w);
    }
  }

  /** The part of handleProxy that holds a node slot: the pending entry around the conversation. */
  method WithSlot(pend: Demux.PendingRegistry, stats: R.Stats, w: R.ResponseWriter, link: Transport.Link,
                  node: Node, id: Id16, body: seq<byte>, requestSent: bool,
                  ttft: bool, idle: bool, schedule: seq<R.Event>)
    returns (rec: Record)
    requires pend.Valid() && id !in pend.m && w.View() == R.FreshClient
    requires R.Run(R.Fresh(ttft, idle), schedule).fw.phase.Ended?
    modifies pend, stats`success, stats`failed, stats`canceled, w, link
    ensures pend.Valid() && pend.m == old(pend.m)
    ensures link.sent == old(link.sent) + if !requestSent then [] else
              Transport.Chunks(id, body)[..Transport.Min(old(link.room), Transport.ChunkCount(|body|))]
    ensures Leaves(old(Buckets(stats)), Buckets(stats), w.View(), rec,
                   ExitOf(if Reached(requestSent, body, old(link.room)) then None else Some(NoAvailableNode),
                          R.Run(R.Fresh(ttft, idle), schedule)))
  {
    hide R.Run, Transport.ChunkCount, Transport.Chunks, HTTPStatus, Leaves, ExitOf;
    ghost var before := pend.m;
    var p := new R.PendingRequest(id, node.id);
    pend.Add(p);
    rec := Converse(p, stats, w, link, body, requestSent, ttft, idle, schedule);
    assert before[id := p] - {id} == before;
    pend.Remove(id);
  }

  /** The refusals of acquire, with the statuses of handleProxy. */
  method RefuseAdmission(stats: R.Stats, w: R.ResponseWriter, why: Code) returns (rec: Record)
    requires why == QueueFull || why == QueueTimeout || why == Canceled
    requires w.View() == R.FreshClient
    modifies stats`failed, w
    ensures rec == Record(HTTPStatus(why), Some(why))
    ensures rec == Record(if why == QueueFull then 429 else if why == QueueTimeout then 503 else 499, Some(why))
    ensures w.status == Some(if why == QueueFull then 429 else if why == QueueTimeout then 503 else 408)
    ensures stats.failed == old(stats.failed) + 1
    ensures w.View() == R.RelayError(old(w.View()), why)
  {
    if why == QueueFull {
      rec := Refuse(stats, w, 429, why);
    } else if why == QueueTimeout {
      rec := Refuse(stats, w, 503, why);
    } else {
      rec := Refuse(stats, w, 499, why);
    }
  }

  /** Why a request gets no response from an agent: the first obstacle on its way, if any. */
  function Obstacle(node: Option<NodeView>, why: Scheduler.WaitError, reached: bool): Option<Code> {
    match node
    case None => Some(Scheduler.ClassifySelectorErr(why))
    case Some(v) => if HasRoom(v) && reached then None else Some(NoAvailableNode)
  }

  /** The same from the start: the queue first. */
  function FirstObstacle(refusal: Option<Code>, node: Option<NodeView>, why: Scheduler.WaitError, reached: bool)
    : Option<Code>
  {
    if refusal.Some? then refusal else Obstacle(node, why, reached)
  }

  /** A refusal: its code with its number in the record, its number (408 for 499) at the client, and one
      more failure. */
  ghost predicate Refused(rec: Record, client: R.Client, before: (nat, nat, nat), after: (nat, nat, nat),
                          number: int, code: Code)
  {
    && rec.status == number && rec.code == Some(code)
    && client.status == Some(if number == 499 then 408 else number)
    && client.errBody == Some(code) && client.written == []
    && after == (before.0, before.1 + 1, before.2)
  }

  /** The exits of handleProxy one by one, in numbers. */
  ghost predicate ExitInNumbers(rec: Record, client: R.Client, before: (nat, nat, nat), after: (nat, nat, nat),
                                full: bool, pick: AcquireCase, node: Option<NodeView>, why: Scheduler.WaitError,
                                sent: bool, response: R.Stream)
  {
    if full then Refused(rec, client, before, after, 429, QueueFull)
    else if pick == TimerFires then Refused(rec, client, before, after, 503, QueueTimeout)
    else if pick == ContextEnds then Refused(rec, client, before, after, 499, Canceled)
    else if node == None then
      match why
      case Scheduling(ModelMissing) => Refused(rec, client, before, after, 404, ModelNotFound)
      case Scheduling(CapabilityMissing) => Refused(rec, client, before, after, 422, CapabilityNotSupported)
      case Scheduling(NoNodeOnline) => Refused(rec, client, before, after, 503, NoAvailableNode)
      case Scheduling(AllNodesBusy) => Refused(rec, client, before, after, 503, NoAvailableNode)
      case Context(ContextDeadline) => Refused(rec, client, before, after, 503, QueueTimeout)
      case Context(ContextCanceled) => Refused(rec, client, before, after, 503, NoAvailableNode)
    else if node.value.slots.active >= node.value.slots.limit || !sent then
      Refused(rec, client, before, after, 503, NoAvailableNode)
    else
      && rec.status == response.fw.recStatus && rec.code == response.fw.recCode && client == response.cl
      && after == if response.fw.phase == R.Ended(R.Succeeded) then (before.0 + 1, before.1, before.2)
                  else if response.fw.phase == R.Ended(R.CanceledByClient) then (before.0, before.1, before.2 + 1)
                  else if response.fw.phase == R.Ended(R.WriteFailed) then before
                  else (before.0, before.1 + 1, before.2)
  }

  lemma LeavesInNumbers(rec: Record, client: R.Client, before: (nat, nat, nat), after: (nat, nat, nat),
                        full: bool, pick: AcquireCase, node: Option<NodeView>, why: Scheduler.WaitError,
                        sent: bool, response: R.Stream)
    requires response.fw.phase.Ended?
    requires Leaves(before, after, client, rec,
                    ExitOf(FirstObstacle(Refusal(full, pick), node, why, sent), response))
    ensures ExitInNumbers(rec, client, before, after, full, pick, node, why, sent, response)
  {
  }

  /** Two exits at an input: a request that waits in vain for a busy node, and one canceled in the queue. */
  lemma BusyAndCanceled(reached: bool, response: R.Stream)
    requires response.fw.phase.Ended?
    ensures var busy := FirstObstacle(None, None, Scheduler.Scheduling(Scheduler.AllNodesBusy), reached);
      ExitOf(busy, response).rec == Record(503, Some(NoAvailableNode))
    ensures var canceled := FirstObstacle(Refusal(false, ContextEnds), None,
                                          Scheduler.Context(Scheduler.ContextCanceled), reached);
      && ExitOf(canceled, response).rec == Record(499, Some(Canceled))
      && ExitOf(canceled, response).client.status == Some(408)
  {
  }

  /** The part of handleProxy that holds a token: node, slot, and what the slot is for. */
  method WithToken(pend: Demux.PendingRegistry, stats: R.Stats, w: R.ResponseWriter, link: Transport.Link,
                   node: Node?, why: Scheduler.WaitError, id: Id16, body: seq<byte>, requestSent: bool,
                   ttft: bool, idle: bool, schedule: seq<R.Event>)
    returns (rec: Record)
    requires pend.Valid() && id !in pend.m && w.View() == R.FreshClient
    requires R.Run(R.Fresh(ttft, idle), schedule).fw.phase.Ended?
    modifies pend, stats`success, stats`failed, stats`canceled, w, link, if node == null then {} else {node}
    ensures node != null ==> node.View() == old(node.View())
    ensures pend.Valid() && pend.m == old(pend.m)
    ensures var o := Obstacle(if node == null then None else Some(old(node.View())), why,
                              Reached(requestSent, body, old(link.room)));
      Leaves(old(Buckets(stats)), Buckets(stats), w.View(), rec, ExitOf(o, R.Run(R.Fresh(ttft, idle), schedule)))
  {
    hide R.Run, R.RelayError, HTTPStatus, Reached;
    if node == null {
      var code := Scheduler.ClassifySelectorErr(why);
      rec := Refuse(stats, w, HTTPStatus(code), code);
      return;
    }
    var reserved := node.Reserve();
    if !reserved {
      rec := RefuseNode(stats, w);
      return;
    }
    rec := WithSlot(pend, stats, w, link, node, id, body, requestSent, ttft, idle, schedule);
    hide ExitOf, Leaves;
    node.Release();
  }

  /** handleProxy for a request with a fresh id, undisturbed: by whatever exit it returns, the gate, the
      node's slots and the pending table are as before, and record, counters and client are those of
      a refusal for the first obstacle on the way, or, without one, those of the response. */
  method HandleProxy(g: Gate, pend: Demux.PendingRegistry, stats: R.Stats, w: R.ResponseWriter,
                     link: Transport.Link, id: Id16, body: seq<byte>,
                     admit: AcquireCase, node: Node?, why: Scheduler.WaitError, requestSent: bool,
                     ttft: bool, idle: bool, schedule: seq<R.Event>)
    returns (rec: Record)
    requires pend.Valid() && id !in pend.m && w.View() == R.FreshClient
    requires admit.GetsToken? ==> g.tokens < g.maxConcurrency
    requires R.Run(R.Fresh(ttft, idle), schedule).fw.phase.Ended?
    modifies g, pend, stats, w, link, if node == null then {} else {node}
    ensures g.waiting == old(g.waiting) && g.tokens == old(g.tokens)
    ensures node != null ==> node.View() == old(node.View())
    ensures pend.Valid() && pend.m == old(pend.m)
    ensures stats.total == old(stats.total) + 1
    ensures rec.code.Some? ==> rec.status == HTTPStatus(rec.code.value)
    ensures ExitInNumbers(rec, w.View(), old(Buckets(stats)), Buckets(stats), old(g.waiting) >= g.queueLength, admit,
                          if node == null then None else Some(old(node.View())), why,
                          Reached(requestSent, body, old(link.room)), R.Run(R.Fresh(ttft, idle), schedule))
    ensures var o := FirstObstacle(Refusal(old(g.waiting) >= g.queueLength, admit),
                                   if node == null then None else Some(old(node.View())), why,
                                   Reached(requestSent, body, old(link.room)));
      Leaves(old(Buckets(stats)), Buckets(stats), w.View(), rec, ExitOf(o, R.Run(R.Fresh(ttft, idle), schedule)))
  {
    hide R.Run, R.RelayError, HTTPStatus, Obstacle, Reached, Leaves, ExitOf, ExitInNumbers, Refusal;
    ghost var response := R.Run(R.Fresh(ttft, idle), schedule);
    ghost var view := if node == null then None else Some(node.View());
    ghost var full := g.waiting >= g.queueLength;
    ghost var sent := Reached(requestSent, body, link.room);
    ghost var before := Buckets(stats);
    stats.total := stats.total + 1;
    var refused := g.Acquire(stats, admit);
    if refused.Some? {
      RefusalIsOneOfThree(full, admit);
      rec := RefuseAdmission(stats, w, refused.value);
      RefusalLeaves(before, Buckets(stats), w.View(), rec, refused.value, response);
    } else {
      rec := WithToken(pend, stats, w, link, node, why, id, body, requestSent, ttft, idle, schedule);
      g.ReturnToken();
    }
    ghost var o := FirstObstacle(refused, view, why, sent);
    LeavesHonest(before, Buckets(stats), w.View(), rec, o, ttft, idle, schedule);
    LeavesInNumbers(rec, w.View(), before, Buckets(stats), full, admit, view, why, sent, response);
  }

  lemma RefusalIsOneOfThree(full: bool, pick: AcquireCase)
    ensures var c := Refusal(full, pick);
      c.Some? ==> c.value == QueueFull || c.value == QueueTimeout || c.value == Canceled
  {
  }

  lemma RefusalLeaves(before: (nat, nat, nat), after: (nat, nat, nat), client: R.Client, rec: Record, code: Code,
                      response: R.Stream)
    requires response.fw.phase.Ended? && rec == Record(HTTPStatus(code), Some(code))
    requires client == R.RelayError(R.FreshClient, code) && after == (before.0, before.1 + 1, before.2)
    ensures Leaves(before, after, client, rec, ExitOf(Some(code), response))
  {
  }

  lemma LeavesHonest(before: (nat, nat, nat), after: (nat, nat, nat), client: R.Client, rec: Record, o: Option<Code>,
                     ttft: bool, idle: bool, schedule: seq<R.Event>)
    requires R.Run(R.Fresh(ttft, idle), schedule).fw.phase.Ended?
    requires Leaves(before, after, client, rec, ExitOf(o, R.Run(R.Fresh(ttft, idle), schedule)))
    ensures rec.code.Some? ==> rec.status == HTTPStatus(rec.code.value)
  {
    ExitIsHonest(o, ttft, idle, schedule);
    hide R.Run, HTTPStatus, ExitOf;
  }
}
