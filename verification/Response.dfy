/** One response on its way back: the pending entry's bounded channels, filled by connection
    read loops (internal/relay/wss.go), and the select loop that empties them towards the
    client (internal/relay/proxy.go). Every atomic step of either side is an event; a run is
    a list of events, so a statement about all lists is one about all interleavings. */
module Response {
  import opened Basics
  import opened Errors
  import opened Frames

  const FRAME_QUEUE := 16

  datatype CancelReason = QueueOverflow | ClientClosed | TtftExpired | IdleExpired

  /** The pending entry. dispatched, overflow, discarded and reporting are history:
      frames offered to the queue, offers refused because it was full, offers dropped because the
      entry was closed, and read loops between a refused offer and the error they post for it. */
  datatype Channels = Channels(
    frames: seq<Frame>,
    headers: Option<int>,
    done: bool,
    err: Option<Code>,
    closed: bool,
    told: seq<CancelReason>,
    dispatched: seq<Frame>,
    overflow: nat,
    discarded: nat,
    reporting: nat)

  datatype Outcome = Succeeded | FailedWith(code: Code) | CanceledByClient | WriteFailed

  datatype Phase = Running | DrainDone | DrainErr(code: Code) | Ended(outcome: Outcome)

  /** What has reached the client. status is the first one written, explicitly or by a first byte. */
  datatype Client = Client(status: Option<int>, written: seq<Frame>, errBody: Option<Code>)

  /** forwardResponse's own variables, its request record and its share of the counters. */
  datatype Forward = Forward(
    phase: Phase,
    wroteHeader: bool,
    ttftArmed: bool,
    idleArmed: bool,
    recStatus: int,
    recCode: Option<Code>,
    successes: nat,
    failures: nat,
    cancels: nat)

  datatype Stream = Stream(ch: Channels, cl: Client, fw: Forward)

  datatype Event =
    // read loops
    | WireHeaders(status: int)
    | WireDone
    | WireError(code: Code)
    | WireFrame(f: Frame, pickQueue: bool)  // pickQueue settles a tie between the queue and closed
    | ReportOverflow
    // the select loop of forwardResponse
    | CtxDone
    | TakeHeaders
    | TtftFires
    | IdleFires
    | TakeFrame(writeOk: bool)
    | TakeDone
    | TakeErr
    | Drain(writeOk: bool)
    // the deferred removal of the entry
    | Close

  const FreshChannels := Channels([], None, false, None, false, [], [], 0, 0, 0)
  const FreshClient := Client(None, [], None)

  function FreshForward(ttft: bool, idle: bool): Forward {
    Forward(Running, false, ttft, idle, 0, None, 0, 0, 0)
  }

  function Fresh(ttft: bool, idle: bool): Stream {
    Stream(FreshChannels, FreshClient, FreshForward(ttft, idle))
  }

  // ------------------------------------------------------------------- steps

  function OfferFrame(c: Channels, f: Frame, pickQueue: bool): Channels {
    var c := c.(dispatched := c.dispatched + [f]);
    if |c.frames| < FRAME_QUEUE && (!c.closed || pickQueue) then c.(frames := c.frames + [f])
    else if c.closed then c.(discarded := c.discarded + 1)
    else c.(overflow := c.overflow + 1, reporting := c.reporting + 1)
  }

  function Report(c: Channels): Channels {
    if c.reporting == 0 then c
    else c.(reporting := c.reporting - 1, told := c.told + [QueueOverflow],
            err := if c.err.None? then Some(Internal) else c.err)
  }

  function FirstStatus(cl: Client, status: int): Client {
    if cl.status.None? then cl.(status := Some(status)) else cl
  }

  function RelayError(cl: Client, code: Code): Client {
    FirstStatus(cl, ClientStatus(code)).(errBody := Some(code))
  }

  function ErrorUnlessStarted(cl: Client, wroteHeader: bool, code: Code): Client {
    if wroteHeader then cl else RelayError(cl, code)
  }

  function Tell(c: Channels, why: CancelReason): Channels {
    c.(told := c.told + [why])
  }

  function Fail(fw: Forward, code: Code): Forward {
    fw.(phase := Ended(FailedWith(code)), failures := fw.failures + 1,
        recStatus := HTTPStatus(code), recCode := Some(code))
  }

  /** Take the first queued frame and write it; a failed write loses it. */
  function WriteNext(s: Stream, writeOk: bool): Stream
    requires s.ch.frames != []
  {
    var f := s.ch.frames[0];
    var cl := FirstStatus(s.cl, 200);
    s.(ch := s.ch.(frames := s.ch.frames[1..]),
       cl := if writeOk then cl.(written := cl.written + [f]) else cl,
       fw := if writeOk then s.fw else s.fw.(phase := Ended(WriteFailed)))
  }

  /** One turn of a drain loop; an empty queue ends it. */
  function DrainStep(s: Stream, writeOk: bool): Stream
    requires s.fw.phase.DrainDone? || s.fw.phase.DrainErr?
  {
    if s.ch.frames != [] then WriteNext(s, writeOk)
    else if s.fw.phase.DrainDone? then
      s.(cl := FirstStatus(s.cl, 200),
         fw := s.fw.(phase := Ended(Succeeded), successes := s.fw.successes + 1,
                     recStatus := if s.fw.recStatus == 0 then 200 else s.fw.recStatus))
    else
      s.(cl := ErrorUnlessStarted(s.cl, s.fw.wroteHeader, s.fw.phase.code),
         fw := Fail(s.fw, s.fw.phase.code))
  }

  /** The effect of an event; one whose case is not ready changes nothing. */
  function Step(s: Stream, e: Event): Stream {
    var running := s.fw.phase.Running?;
    match e
    case WireHeaders(status) => if s.ch.headers.None? then s.(ch := s.ch.(headers := Some(status))) else s
    case WireDone => s.(ch := s.ch.(done := true))
    case WireError(code) => if s.ch.err.None? then s.(ch := s.ch.(err := Some(code))) else s
    case WireFrame(f, pickQueue) => s.(ch := OfferFrame(s.ch, f, pickQueue))
    case ReportOverflow => s.(ch := Report(s.ch))
    case CtxDone =>
      if !running then s else
      s.(ch := Tell(s.ch, ClientClosed),
         cl := ErrorUnlessStarted(s.cl, s.fw.wroteHeader, Canceled),
         fw := s.fw.(phase := Ended(CanceledByClient), cancels := s.fw.cancels + 1,
                     recStatus := if s.fw.wroteHeader then s.fw.recStatus else 499,
                     recCode := if s.fw.wroteHeader then s.fw.recCode else Some(Canceled)))
    case TakeHeaders =>
      if !running || s.ch.headers.None? then s else
      var status := s.ch.headers.value;
      s.(ch := s.ch.(headers := None),
         cl := FirstStatus(s.cl, status),
         fw := s.fw.(wroteHeader := true, ttftArmed := false, recStatus := status))
    case TtftFires =>
      if !running || !s.fw.ttftArmed then s else
      s.(ch := Tell(s.ch, TtftExpired),
         cl := ErrorUnlessStarted(s.cl, s.fw.wroteHeader, TtftTimeout),
         fw := Fail(s.fw, TtftTimeout))
    case IdleFires =>
      if !running || !s.fw.idleArmed then s else
      s.(ch := Tell(s.ch, IdleExpired),
         cl := ErrorUnlessStarted(s.cl, s.fw.wroteHeader, IdleTimeout),
         fw := Fail(s.fw, IdleTimeout))
    case TakeFrame(writeOk) =>
      if !running || s.ch.frames == [] then s else
      var t := WriteNext(s, writeOk);
      t.(fw := t.fw.(wroteHeader := true, ttftArmed := t.fw.ttftArmed && !writeOk))
    case TakeDone =>
      if !running || !s.ch.done then s else
      s.(ch := s.ch.(done := false), fw := s.fw.(phase := DrainDone))
    case TakeErr =>
      if !running || s.ch.err.None? then s else
      s.(ch := s.ch.(err := None), fw := s.fw.(phase := DrainErr(s.ch.err.value)))
    case Drain(writeOk) =>
      if s.fw.phase.DrainDone? || s.fw.phase.DrainErr? then DrainStep(s, writeOk) else s
    case Close => if s.fw.phase.Ended? then s.(ch := s.ch.(closed := true)) else s
  }

  function Run(s: Stream, es: seq<Event>): Stream {
    if es == [] then s else Step(Run(s, es[..|es| - 1]), es[|es| - 1])
  }

  lemma RunAppend(s: Stream, es: seq<Event>, e: Event)
    ensures Run(s, es + [e]) == Step(Run(s, es), e)
  {
    assert (es + [e])[..|es|] == es;
  }

  // ----------------------------------------------------------- the operations

  class PendingRequest {
    const id: Id16
    const nodeID: string
    var frames: seq<Frame>
    var headers: Option<int>
    var done: bool
    var err: Option<Code>
    var closed: bool
    ghost var told: seq<CancelReason>
    ghost var dispatched: seq<Frame>
    ghost var overflow: nat
    ghost var discarded: nat
    var reporting: nat

    constructor (id: Id16, nodeID: string)
      ensures this.id == id && this.nodeID == nodeID && View() == FreshChannels
    {
      this.id, this.nodeID := id, nodeID;
      frames, headers, done, err, closed := [], None, false, None, false;
      told, dispatched, overflow, discarded, reporting := [], [], 0, 0, 0;
    }

    ghost function View(): Channels
      reads this
    {
      Channels(frames, headers, done, err, closed, told, dispatched, overflow, discarded, reporting)
    }

    method PutHeaders(status: int)
      modifies this
      ensures View() == if old(headers).None? then old(View()).(headers := Some(status)) else old(View())
    {
      if headers.None? {
        headers := Some(status);
      }
    }

    method PutDone()
      modifies this
      ensures View() == old(View()).(done := true)
    {
      done := true;
    }

    method PutError(code: Code)
      modifies this
      ensures View() == if old(err).None? then old(View()).(err := Some(code)) else old(View())
    {
      if err.None? {
        err := Some(code);
      }
    }

    /** The first select of dispatchFrame; full says whether the default case was taken. */
    method Offer(f: Frame, pickQueue: bool) returns (full: bool)
      modifies this
      ensures View() == OfferFrame(old(View()), f, pickQueue)
      ensures full == (overflow > old(overflow)) == (|old(frames)| >= 16 && !closed)
      ensures frames == old(frames) + if |old(frames)| < 16 && (!closed || pickQueue) then [f] else []
    {
      dispatched := dispatched + [f];
      full := false;
      if |frames| < FRAME_QUEUE && (!closed || pickQueue) {
        frames := frames + [f];
      } else if closed {
        discarded := discarded + 1;
      } else {
        full := true;
        overflow, reporting := overflow + 1, reporting + 1;
      }
    }

    /** The default case of dispatchFrame: ask the agent to cancel, then post an error if there is room. */
    method PostOverflow()
      requires reporting > 0
      modifies this
      ensures View() == Report(old(View()))
    {
      told := told + [QueueOverflow];
      if err.None? {
        err := Some(Internal);
      }
      reporting := reporting - 1;
    }

    /** dispatchFrame as one read loop performs it, start to end. */
    method DispatchFrame(f: Frame, pickQueue: bool)
      modifies this
      ensures View() == if OfferFrame(old(View()), f, pickQueue).overflow > old(overflow)
                        then Report(OfferFrame(old(View()), f, pickQueue))
                        else OfferFrame(old(View()), f, pickQueue)
    {
      var full := Offer(f, pickQueue);
      if full {
        PostOverflow();
      }
    }

    method RemoveEntry()
      modifies this`closed
      ensures closed
    {
      closed := true;
    }
  }

  /** The client's side of the HTTP exchange. */
  class ResponseWriter {
    var status: Option<int>
    var written: seq<Frame>
    var errBody: Option<Code>

    constructor ()
      ensures View() == FreshClient
    {
      status, written, errBody := None, [], None;
    }

    ghost function View(): Client
      reads this
    {
      Client(status, written, errBody)
    }

    method WriteHeader(st: int)
      modifies this`status
      ensures View() == FirstStatus(old(View()), st)
    {
      if status.None? {
        status := Some(st);
      }
    }

    /** A write implies status 200 when none was written; ok is the outcome of the write. */
    method Write(f: Frame, ok: bool)
      modifies this
      ensures View() == var cl := FirstStatus(old(View()), 200); if ok then cl.(written := cl.written + [f]) else cl
    {
      WriteHeader(200);
      if ok {
        written := written + [f];
      }
    }

    method WriteRelayError(code: Code)
      modifies this
      ensures View() == RelayError(old(View()), code)
    {
      WriteHeader(ClientStatus(code));
      errBody := Some(code);
    }
  }

  class Stats {
    var total: nat
    var success: nat
    var failed: nat
    var canceled: nat
    var queueFull: nat

    constructor ()
      ensures total == success == failed == canceled == queueFull == 0
    {
      total, success, failed, canceled, queueFull := 0, 0, 0, 0, 0;
    }
  }

  /** One activation of forwardResponse: its variables, its entry, its client, the counters. */
  class Forwarder {
    const p: PendingRequest
    const w: ResponseWriter
    const stats: Stats
    var phase: Phase
    var wroteHeader: bool
    var ttftC: bool
    var idleC: bool
    var recStatus: int
    var recCode: Option<Code>

    constructor (p: PendingRequest, w: ResponseWriter, stats: Stats, ttft: bool, idle: bool)
      ensures this.p == p && this.w == w && this.stats == stats
      ensures View() == Stream(p.View(), w.View(), FreshForward(ttft, idle).(
                                 successes := stats.success, failures := stats.failed, cancels := stats.canceled))
    {
      this.p, this.w, this.stats := p, w, stats;
      phase, wroteHeader, ttftC, idleC, recStatus, recCode := Running, false, ttft, idle, 0, None;
    }

    ghost function View(): Stream
      reads this, p, w, stats
    {
      Stream(p.View(), w.View(),
             Forward(phase, wroteHeader, ttftC, idleC, recStatus, recCode,
                     stats.success, stats.failed, stats.canceled))
    }

    method OnCtxDone()
      modifies this, p, w, stats`failed, stats`success, stats`canceled
      ensures View() == Step(old(View()), CtxDone)
    {
      if phase.Running? {
        stats.canceled := stats.canceled + 1;
        p.told := p.told + [ClientClosed];
        if !wroteHeader {
          recStatus, recCode := 499, Some(Canceled);
          w.WriteRelayError(Canceled);
        }
        phase := Ended(CanceledByClient);
      }
    }

    method OnHeaders()
      modifies this, p, w
      ensures View() == Step(old(View()), TakeHeaders)
    {
      if phase.Running? && p.headers.Some? {
        recStatus := p.headers.value;
        p.headers := None;
        w.WriteHeader(recStatus);
        wroteHeader, ttftC := true, false;
      }
    }

    method OnTtft()
      modifies this, p, w, stats`failed, stats`success, stats`canceled
      ensures View() == Step(old(View()), TtftFires)
    {
      if phase.Running? && ttftC {
        stats.failed := stats.failed + 1;
        recStatus, recCode := 504, Some(TtftTimeout);
        p.told := p.told + [TtftExpired];
        if !wroteHeader {
          w.WriteRelayError(TtftTimeout);
        }
        phase := Ended(FailedWith(TtftTimeout));
      }
    }

    method OnIdle()
      modifies this, p, w, stats`failed, stats`success, stats`canceled
      ensures View() == Step(old(View()), IdleFires)
    {
      if phase.Running? && idleC {
        stats.failed := stats.failed + 1;
        recStatus, recCode := 504, Some(IdleTimeout);
        p.told := p.told + [IdleExpired];
        if !wroteHeader {
          w.WriteRelayError(IdleTimeout);
        }
        phase := Ended(FailedWith(IdleTimeout));
      }
    }

    method OnFrame(writeOk: bool)
      modifies this, p, w
      ensures View() == Step(old(View()), TakeFrame(writeOk))
    {
      if phase.Running? && p.frames != [] {
        var f := p.frames[0];
        p.frames := p.frames[1..];
        if !wroteHeader {
          w.WriteHeader(200);
          wroteHeader := true;
        }
        w.Write(f, writeOk);
        if writeOk {
          ttftC := false;
        } else {
          phase := Ended(WriteFailed);
        }
      }
    }

    method OnDone()
      modifies this, p
      ensures View() == Step(old(View()), TakeDone)
    {
      if phase.Running? && p.done {
        p.done := false;
        phase := DrainDone;
      }
    }

    method OnErr()
      modifies this, p
      ensures View() == Step(old(View()), TakeErr)
    {
      if phase.Running? && p.err.Some? {
        phase := DrainErr(p.err.value);
        p.err := None;
      }
    }

    method DrainTurn(writeOk: bool)
      requires phase.DrainDone? || phase.DrainErr?
      modifies this, p, w, stats`failed, stats`success, stats`canceled
      ensures View() == Step(old(View()), Drain(writeOk))
    {
      if p.frames != [] {
        var f := p.frames[0];
        p.frames := p.frames[1..];
        w.Write(f, writeOk);
        if !writeOk {
          phase := Ended(WriteFailed);
        }
      } else if phase.DrainDone? {
        stats.success := stats.success + 1;
        if recStatus == 0 {
          recStatus := 200;
        }
        w.WriteHeader(200);
        phase := Ended(Succeeded);
      } else {
        stats.failed := stats.failed + 1;
        recStatus, recCode := HTTPStatus(phase.code), Some(phase.code);
        if !wroteHeader {
          w.WriteRelayError(phase.code);
        }
        phase := Ended(FailedWith(phase.code));
      }
    }

    /** What happens to the entry outside the select loop. */
    method ReadLoopTurn(e: Event)
      requires e.WireHeaders? || e.WireDone? || e.WireError? || e.WireFrame? || e.ReportOverflow?
      modifies p
      ensures View() == Step(old(View()), e)
    {
      match e {
        case WireHeaders(status) => p.PutHeaders(status);
        case WireDone => p.PutDone();
        case WireError(code) => p.PutError(code);
        case WireFrame(f, pickQueue) => var _ := p.Offer(f, pickQueue);
        case ReportOverflow =>
          if p.reporting > 0 {
            p.PostOverflow();
          }
      }
    }

    /** The whole loop, driven by a schedule: it fixes what the read loops do between two turns and
        which ready case each select takes. The outcome is the run of that schedule. */
    method ForwardResponse(schedule: seq<Event>)
      modifies this, p, w, stats`success, stats`failed, stats`canceled
      ensures View() == Run(old(View()), schedule)
    {
      var i := 0;
      while i < |schedule|
        invariant i <= |schedule|
        invariant View() == Run(old(View()), schedule[..i])
      {
        var e := schedule[i];
        assert schedule[..i + 1] == schedule[..i] + [e];
        RunAppend(old(View()), schedule[..i], e);
        hide Run;
        i := i + 1;
        match e {
          case CtxDone => OnCtxDone();
          case TakeHeaders => OnHeaders();
          case TtftFires => OnTtft();
          case IdleFires => OnIdle();
          case TakeFrame(writeOk) => OnFrame(writeOk);
          case TakeDone => OnDone();
          case TakeErr => OnErr();
          case Drain(writeOk) =>
            if phase.DrainDone? || phase.DrainErr? {
              DrainTurn(writeOk);
            }
          case Close =>
            if phase.Ended? {
              p.RemoveEntry();
            }
          case WireHeaders(_) => ReadLoopTurn(e);
          case WireDone => ReadLoopTurn(e);
          case WireError(_) => ReadLoopTurn(e);
          case WireFrame(_, _) => ReadLoopTurn(e);
          case ReportOverflow => ReadLoopTurn(e);
        }
      }
      assert schedule[..i] == schedule;
    }
  }

  // --------------------------------------------------------------- invariants

  /** Frames that were dispatched and will never be written. */
  function Missing(s: Stream): nat {
    s.ch.overflow + s.ch.discarded + if s.fw.phase == Ended(WriteFailed) then 1 else 0
  }

  /** Order and loss. */
  ghost predicate DeliveryInv(s: Stream) {
    && |s.ch.frames| <= FRAME_QUEUE
    && InOrder(s.cl.written, s.ch.frames, s.ch.dispatched, Missing(s))
  }

  /** A frame refused for a full queue has left an error behind, or is about to. */
  ghost predicate NoSilentLoss(s: Stream) {
    && s.ch.reporting <= s.ch.overflow
    && (s.fw.phase.Running? || s.fw.phase.DrainDone? ==>
          s.ch.overflow > 0 ==> s.ch.err.Some? || s.ch.reporting > 0)
  }

  /** What the client has seen and what the record and the counters say. */
  ghost predicate OutcomeInv(s: Stream) {
    var cl, fw := s.cl, s.fw;
    && (fw.wroteHeader ==> cl.status.Some?)
    && (cl.written != [] ==> cl.status.Some?)
    && (fw.phase.Running? ==> (cl.status.Some? <==> fw.wroteHeader))
    && (fw.phase.Running? && fw.ttftArmed ==> !fw.wroteHeader)
    && (cl.errBody.Some? ==> fw.phase.Ended? && !fw.wroteHeader && fw.recCode == cl.errBody)
    && (cl.errBody.Some? ==> fw.phase.outcome.FailedWith?
                             || (fw.phase.outcome.CanceledByClient? && cl.written == []))
    && (fw.recCode.Some? ==> fw.phase.Ended? && fw.recStatus == HTTPStatus(fw.recCode.value))
    && (fw.recCode.Some? ==> fw.phase.outcome.FailedWith? || fw.phase.outcome.CanceledByClient?)
    && (fw.phase.Ended? && fw.phase.outcome.FailedWith? ==> fw.recCode == Some(fw.phase.outcome.code))
    && (s.ch.closed ==> fw.phase.Ended?)
    && fw.successes == (if fw.phase == Ended(Succeeded) then 1 else 0)
    && fw.failures == (if fw.phase.Ended? && fw.phase.outcome.FailedWith? then 1 else 0)
    && fw.cancels == (if fw.phase == Ended(CanceledByClient) then 1 else 0)
  }

  lemma OfferKept(s: Stream, f: Frame, pick: bool)
    requires DeliveryInv(s)
    ensures DeliveryInv(s.(ch := OfferFrame(s.ch, f, pick)))
  {
    hide InOrder;
    InOrderPush(s.cl.written, s.ch.frames, s.ch.dispatched, Missing(s), f);
    InOrderRefuse(s.cl.written, s.ch.frames, s.ch.dispatched, Missing(s), f);
  }

  lemma WriteKept(s: Stream, writeOk: bool)
    requires DeliveryInv(s) && s.ch.frames != [] && !s.fw.phase.Ended?
    ensures DeliveryInv(WriteNext(s, writeOk))
  {
    hide InOrder;
    InOrderTake(s.cl.written, s.ch.frames, s.ch.dispatched, Missing(s));
  }

  lemma DeliveryKept(s: Stream, e: Event)
    requires DeliveryInv(s)
    ensures DeliveryInv(Step(s, e))
  {
    hide InOrder;
    match e
    case WireFrame(f, pick) => OfferKept(s, f, pick);
    case TakeFrame(writeOk) =>
      if s.fw.phase.Running? && s.ch.frames != [] {
        WriteKept(s, writeOk);
      }
    case Drain(writeOk) =>
      if (s.fw.phase.DrainDone? || s.fw.phase.DrainErr?) && s.ch.frames != [] {
        WriteKept(s, writeOk);
      }
    case _ =>
  }

  lemma LossReportKept(s: Stream, e: Event)
    requires NoSilentLoss(s)
    ensures NoSilentLoss(Step(s, e))
  {
  }

  lemma OutcomeKept(s: Stream, e: Event)
    requires OutcomeInv(s)
    ensures OutcomeInv(Step(s, e))
  {
  }

  lemma FreshIsGood(ttft: bool, idle: bool)
    ensures DeliveryInv(Fresh(ttft, idle)) && NoSilentLoss(Fresh(ttft, idle)) && OutcomeInv(Fresh(ttft, idle))
  {
    assert FreshClient.written + FreshChannels.frames == [];
  }

  /** The three invariants hold after every interleaving. */
  lemma {:induction false} ReachableStream(ttft: bool, idle: bool, es: seq<Event>)
    ensures var s := Run(Fresh(ttft, idle), es); DeliveryInv(s) && NoSilentLoss(s) && OutcomeInv(s)
  {
    hide DeliveryInv, NoSilentLoss, OutcomeInv, Step;
    FreshIsGood(ttft, idle);
    if es != [] {
      var s := Run(Fresh(ttft, idle), es[..|es| - 1]);
      ReachableStream(ttft, idle, es[..|es| - 1]);
      DeliveryKept(s, es[|es| - 1]);
      LossReportKept(s, es[|es| - 1]);
      OutcomeKept(s, es[|es| - 1]);
    }
  }

  function Shifted(s: Stream, a: nat, b: nat, c: nat): Stream {
    s.(fw := s.fw.(successes := s.fw.successes + a, failures := s.fw.failures + b, cancels := s.fw.cancels + c))
  }

  /** A run does not depend on what the counters were before. */
  lemma {:induction false} RunFromCounters(ttft: bool, idle: bool, a: nat, b: nat, c: nat, es: seq<Event>)
    ensures Run(Shifted(Fresh(ttft, idle), a, b, c), es) == Shifted(Run(Fresh(ttft, idle), es), a, b, c)
  {
    if es != [] {
      var init, e := es[..|es| - 1], es[|es| - 1];
      RunFromCounters(ttft, idle, a, b, c, init);
      StepFromCounters(Run(Fresh(ttft, idle), init), a, b, c, e);
      hide Step;
    }
  }

  lemma StepFromCounters(s: Stream, a: nat, b: nat, c: nat, e: Event)
    ensures Step(Shifted(s, a, b, c), e) == Shifted(Step(s, e), a, b, c)
  {
  }

  /** A posted error is never overwritten or forgotten: it waits, or it was taken and decides the
      outcome (a client write can fail meanwhile), or another branch ended the request first. */
  lemma {:induction false} PostedErrorDecides(s: Stream, code: Code, es: seq<Event>)
    requires s.fw.phase.Running? && s.ch.err == Some(code)
    ensures var t := Run(s, es);
      || t.ch.err == Some(code)
      || t.fw.phase in {DrainErr(code), Ended(FailedWith(code)), Ended(WriteFailed)}
  {
    if es != [] {
      PostedErrorDecides(s, code, es[..|es| - 1]);
      var t := Run(s, es[..|es| - 1]);
      hide Run;
      PostedErrorStep(t, code, es[|es| - 1]);
    }
  }

  lemma PostedErrorStep(s: Stream, code: Code, e: Event)
    requires s.ch.err == Some(code) || s.fw.phase in {DrainErr(code), Ended(FailedWith(code)), Ended(WriteFailed)}
    ensures Step(s, e).ch.err == Some(code)
         || Step(s, e).fw.phase in {DrainErr(code), Ended(FailedWith(code)), Ended(WriteFailed)}
  {
  }

  // ------------------------------------------- what a run does, by its events

  /** The case of select, if any, that ended the loop: the first taken that does not lead back to it. */
  function EndingCase(s: Stream, es: seq<Event>): Option<Event> {
    if es == [] then None else
    var init, e := es[..|es| - 1], es[|es| - 1];
    NextEnding(Run(s, init), EndingCase(s, init), e)
  }

  function CountTold(told: seq<CancelReason>, why: CancelReason): nat {
    if told == [] then 0 else CountTold(told[..|told| - 1], why) + if told[|told| - 1] == why then 1 else 0
  }

  lemma CountToldAppend(told: seq<CancelReason>, c: seq<CancelReason>, why: CancelReason)
    requires |c| <= 1
    ensures CountTold(told + c, why) == CountTold(told, why) + if c == [why] then 1 else 0
  {
    if c == [] {
      assert told + c == told;
    } else {
      assert (told + c)[..|told|] == told && c == [c[0]];
    }
  }

  /** The phase and the outcome are those of the case that ended the loop. */
  ghost predicate EndedBy(phase: Phase, ending: Option<Event>) {
    match ending
    case None => phase == Running
    case Some(CtxDone) => phase == Ended(CanceledByClient)
    case Some(TtftFires) => phase == Ended(FailedWith(TtftTimeout))
    case Some(IdleFires) => phase == Ended(FailedWith(IdleTimeout))
    case Some(TakeFrame(_)) => phase == Ended(WriteFailed)
    case Some(TakeDone) => phase == DrainDone || phase == Ended(Succeeded) || phase == Ended(WriteFailed)
    case Some(TakeErr) =>
      phase.DrainErr? || (phase.Ended? && (phase.outcome.FailedWith? || phase.outcome == WriteFailed))
    case Some(_) => false
  }

  /** The agent is told to cancel once for a client that left, for a timer that ended the response, and
      for every frame that met a full queue, and for nothing else. */
  ghost predicate ToldBy(ch: Channels, ending: Option<Event>) {
    && CountTold(ch.told, ClientClosed) == (if ending == Some(CtxDone) then 1 else 0)
    && CountTold(ch.told, TtftExpired) == (if ending == Some(TtftFires) then 1 else 0)
    && CountTold(ch.told, IdleExpired) == (if ending == Some(IdleFires) then 1 else 0)
    && CountTold(ch.told, QueueOverflow) + ch.reporting == ch.overflow
  }

  /** The timers: the first is armed until something was taken, the second throughout; one that is not
      configured never ends a response. */
  ghost predicate TimersBy(fw: Forward, ending: Option<Event>, ttft: bool, idle: bool) {
    && (fw.phase.Running? ==> fw.ttftArmed == (ttft && !fw.wroteHeader) && fw.idleArmed == idle)
    && (ending == Some(TtftFires) ==> ttft && !fw.wroteHeader)
    && (ending == Some(IdleFires) ==> idle)
  }

  lemma EndingStep(s: Stream, ending: Option<Event>, e: Event, ttft: bool, idle: bool)
    requires EndedBy(s.fw.phase, ending) && TimersBy(s.fw, ending, ttft, idle)
    ensures var next := NextEnding(s, ending, e);
      EndedBy(Step(s, e).fw.phase, next) && TimersBy(Step(s, e).fw, next, ttft, idle)
  {
    hide HTTPStatus, ClientStatus;
  }

  /** What an event makes the relay tell the agent. */
  function Cause(s: Stream, e: Event): seq<CancelReason> {
    if e == CtxDone && Takes(s, e) then [ClientClosed]
    else if e == TtftFires && Takes(s, e) then [TtftExpired]
    else if e == IdleFires && Takes(s, e) then [IdleExpired]
    else if e == ReportOverflow && s.ch.reporting > 0 then [QueueOverflow]
    else []
  }

  lemma ToldShape(s: Stream, e: Event)
    ensures var t := Step(s, e);
      && t.ch.told == s.ch.told + Cause(s, e)
      && t.ch.reporting - s.ch.reporting ==
           t.ch.overflow - s.ch.overflow - (if Cause(s, e) == [QueueOverflow] then 1 else 0)
  {
    assert s.ch.told + [] == s.ch.told;
    hide HTTPStatus, ClientStatus;
  }

  function NextEnding(s: Stream, ending: Option<Event>, e: Event): Option<Event> {
    if ending.Some? then ending
    else if Takes(s, e) && !e.TakeHeaders? && e != TakeFrame(true) then Some(e) else None
  }

  /** c is told when the ending changes from one to the next. */
  ghost predicate ToldOnEnding(c: seq<CancelReason>, ending: Option<Event>, next: Option<Event>) {
    && (c == [ClientClosed] <==> ending != next == Some(CtxDone))
    && (c == [TtftExpired] <==> ending != next == Some(TtftFires))
    && (c == [IdleExpired] <==> ending != next == Some(IdleFires))
    && (ending.Some? ==> next == ending)
  }

  lemma CauseEnding(s: Stream, ending: Option<Event>, e: Event)
    requires EndedBy(s.fw.phase, ending)
    ensures |Cause(s, e)| <= 1 && ToldOnEnding(Cause(s, e), ending, NextEnding(s, ending, e))
  {
  }

  lemma ToldStep(s: Stream, ending: Option<Event>, e: Event)
    requires EndedBy(s.fw.phase, ending) && ToldBy(s.ch, ending)
    ensures ToldBy(Step(s, e).ch, NextEnding(s, ending, e))
  {
    ToldShape(s, e);
    CauseEnding(s, ending, e);
    hide CountTold, Step, EndedBy, Cause, NextEnding;
    var c := Cause(s, e);
    CountToldAppend(s.ch.told, c, ClientClosed);
    CountToldAppend(s.ch.told, c, TtftExpired);
    CountToldAppend(s.ch.told, c, IdleExpired);
    CountToldAppend(s.ch.told, c, QueueOverflow);
  }

  /** Over every run: how the response ended, which timers could still fire, and what the agent was told. */
  lemma {:induction false} CancelsByCause(ttft: bool, idle: bool, es: seq<Event>)
    ensures var s, ending := Run(Fresh(ttft, idle), es), EndingCase(Fresh(ttft, idle), es);
      EndedBy(s.fw.phase, ending) && TimersBy(s.fw, ending, ttft, idle) && ToldBy(s.ch, ending)
  {
    hide Step, EndedBy, ToldBy, TimersBy, NextEnding;
    if es == [] {
      NothingTold(ttft, idle);
    } else {
      var init, e := es[..|es| - 1], es[|es| - 1];
      CancelsByCause(ttft, idle, init);
      EndingStep(Run(Fresh(ttft, idle), init), EndingCase(Fresh(ttft, idle), init), e, ttft, idle);
      ToldStep(Run(Fresh(ttft, idle), init), EndingCase(Fresh(ttft, idle), init), e);
    }
  }

  lemma NothingTold(ttft: bool, idle: bool)
    ensures EndedBy(Fresh(ttft, idle).fw.phase, None) && ToldBy(FreshChannels, None)
    ensures TimersBy(Fresh(ttft, idle).fw, None, ttft, idle)
  {
  }

  /** Frames that met sixteen queued ones while the entry was open, and frames that came after it was closed
      and were not queued. */
  function MetFullQueue(s: Stream, es: seq<Event>): nat {
    if es == [] then 0 else
    var t, e := Run(s, es[..|es| - 1]), es[|es| - 1];
    MetFullQueue(s, es[..|es| - 1]) + if e.WireFrame? && |t.ch.frames| >= 16 && !t.ch.closed then 1 else 0
  }

  function MetClosed(s: Stream, es: seq<Event>): nat {
    if es == [] then 0 else
    var t, e := Run(s, es[..|es| - 1]), es[|es| - 1];
    MetClosed(s, es[..|es| - 1])
    + if e.WireFrame? && t.ch.closed && (|t.ch.frames| >= 16 || !e.pickQueue) then 1 else 0
  }

  /** A frame with room in the queue of an open entry is queued, and only such a one, or one that wins the
      tie with a closed entry. */
  lemma {:induction false} FramesFindRoom(s: Stream, es: seq<Event>)
    ensures var t := Run(s, es);
      && t.ch.overflow == s.ch.overflow + MetFullQueue(s, es)
      && t.ch.discarded == s.ch.discarded + MetClosed(s, es)
  {
    if es != [] {
      FramesFindRoom(s, es[..|es| - 1]);
      RoomStep(Run(s, es[..|es| - 1]), es[|es| - 1]);
      hide Step;
    }
  }

  lemma RoomStep(s: Stream, e: Event)
    ensures var t := Step(s, e);
      && t.ch.overflow == s.ch.overflow + (if e.WireFrame? && |s.ch.frames| >= 16 && !s.ch.closed then 1 else 0)
      && t.ch.discarded == s.ch.discarded
                           + (if e.WireFrame? && s.ch.closed && (|s.ch.frames| >= 16 || !e.pickQueue) then 1 else 0)
  {
    hide HTTPStatus, ClientStatus;
  }

  /** The one-place slots: a second message does not displace the first, and only select takes it out. */
  lemma {:induction false} SlotsKeepTheFirst(s: Stream, es: seq<Event>)
    ensures var t := Run(s, es);
      && (s.ch.headers.Some? && (forall e | e in es :: e != TakeHeaders) ==> t.ch.headers == s.ch.headers)
      && (s.ch.err.Some? && (forall e | e in es :: e != TakeErr) ==> t.ch.err == s.ch.err)
      && (s.ch.done && (forall e | e in es :: e != TakeDone) ==> t.ch.done)
  {
    if es != [] {
      var init, e := es[..|es| - 1], es[|es| - 1];
      SlotsKeepTheFirst(s, init);
      SlotsStep(Run(s, init), e);
      assert e in es && forall x | x in init :: x in es;
      hide Step;
    }
  }

  lemma SlotsStep(s: Stream, e: Event)
    ensures var t := Step(s, e);
      && (s.ch.headers.Some? && e != TakeHeaders ==> t.ch.headers == s.ch.headers)
      && (s.ch.err.Some? && e != TakeErr ==> t.ch.err == s.ch.err)
      && (s.ch.done && e != TakeDone ==> t.ch.done)
      && (s.ch.headers.None? && e.WireHeaders? ==> t.ch.headers == Some(e.status))
      && (s.ch.err.None? && e.WireError? ==> t.ch.err == Some(e.code))
      && (e.WireDone? ==> t.ch.done)
  {
    hide HTTPStatus, ClientStatus;
  }

  // ------------------------------------------------------- end-to-end delivery

  /** What an agent sends for one request, in order. */
  datatype AgentMsg = MHeaders(status: int) | MFrame(f: Frame) | MDone | MError(code: Code)

  /** The agent message, if any, that a read loop handles in this event. */
  function MsgOf(e: Event): seq<AgentMsg> {
    match e
    case WireHeaders(status) => [MHeaders(status)]
    case WireFrame(f, _) => [MFrame(f)]
    case WireDone => [MDone]
    case WireError(code) => [MError(code)]
    case _ => []
  }

  function Received(es: seq<Event>): seq<AgentMsg> {
    if es == [] then [] else Received(es[..|es| - 1]) + MsgOf(es[|es| - 1])
  }

  function FramesOf(ms: seq<AgentMsg>): seq<Frame> {
    if ms == [] then []
    else FramesOf(ms[..|ms| - 1]) + if ms[|ms| - 1].MFrame? then [ms[|ms| - 1].f] else []
  }

  lemma FramesOfAppend(ms: seq<AgentMsg>, e: Event)
    ensures FramesOf(ms + MsgOf(e)) == FramesOf(ms) + if e.WireFrame? then [e.f] else []
  {
    if MsgOf(e) == [] {
      assert ms + [] == ms;
    } else {
      assert (ms + MsgOf(e))[..|ms|] == ms;
    }
  }

  /** A transcript whose last message, and no other, is Done. */
  ghost predicate EndsWithDone(t: seq<AgentMsg>) {
    t != [] && t[|t| - 1].MDone? && forall i | 0 <= i < |t| - 1 :: !t[i].MDone?
  }

  lemma {:induction false} SubseqLacksDone(a: seq<AgentMsg>, t: seq<AgentMsg>)
    requires Subseq(a, t) && forall i | 0 <= i < |t| :: !t[i].MDone?
    ensures forall i | 0 <= i < |a| :: !a[i].MDone?
    decreases |t|
  {
    if a != [] {
      if a[|a| - 1] == t[|t| - 1] && Subseq(a[..|a| - 1], t[..|t| - 1]) {
        SubseqLacksDone(a[..|a| - 1], t[..|t| - 1]);
      } else {
        SubseqLacksDone(a, t[..|t| - 1]);
      }
    }
  }

  /** Whatever part of a transcript arrives in order, nothing comes after its Done. */
  lemma NothingAfterDone(got: seq<AgentMsg>, t: seq<AgentMsg>)
    requires EndsWithDone(t) && Subseq(got, t)
    ensures forall i | 0 <= i < |got| - 1 :: !got[i].MDone?
  {
    if got != [] {
      var init := t[..|t| - 1];
      if got[|got| - 1] == t[|t| - 1] && Subseq(got[..|got| - 1], init) {
        SubseqLacksDone(got[..|got| - 1], init);
      } else {
        SubseqLacksDone(got, init);
      }
    }
  }

  lemma {:induction false} FramesOfSubseq(a: seq<AgentMsg>, t: seq<AgentMsg>)
    requires Subseq(a, t)
    ensures Subseq(FramesOf(a), FramesOf(t))
    decreases |t|
  {
    if a == [] {
      assert FramesOf(a) == [];
    } else {
      var a', t', m := a[..|a| - 1], t[..|t| - 1], t[|t| - 1];
      assert forall fs: seq<Frame> :: fs + [] == fs;
      assert FramesOf(t) == FramesOf(t') + if m.MFrame? then [m.f] else [];
      if a[|a| - 1] == m && Subseq(a', t') {
        FramesOfSubseq(a', t');
        assert FramesOf(a) == FramesOf(a') + if m.MFrame? then [m.f] else [];
        if m.MFrame? {
          SubseqExtend(FramesOf(a'), FramesOf(t'), m.f);
        }
      } else {
        FramesOfSubseq(a, t');
        if m.MFrame? {
          SubseqExtend(FramesOf(a), FramesOf(t'), m.f);
        }
      }
    }
    hide Subseq, FramesOf;
  }

  ghost predicate LastIsDone(got: seq<AgentMsg>) {
    got != [] && got[|got| - 1].MDone?
  }

  ghost predicate DoneIsLast(s: Stream, got: seq<AgentMsg>) {
    && s.ch.dispatched == FramesOf(got)
    && (s.ch.done || s.fw.phase.DrainDone? || s.fw.phase == Ended(Succeeded) ==> LastIsDone(got))
    && (s.fw.phase == Ended(Succeeded) ==> s.ch.frames == [])
    && (s.ch.closed ==> s.fw.phase.Ended?)
    && (s.fw.phase == Ended(Succeeded) || !s.fw.phase.Ended? ==> s.ch.discarded == 0)
  }

  lemma DoneLastKept(s: Stream, got: seq<AgentMsg>, e: Event)
    requires DoneIsLast(s, got) && (MsgOf(e) != [] ==> !LastIsDone(got))
    ensures DoneIsLast(Step(s, e), got + MsgOf(e))
  {
    FramesOfAppend(got, e);
    hide FramesOf;
    assert got + [] == got;
  }

  lemma {:induction false} DoneComesLast(ttft: bool, idle: bool, es: seq<Event>, t: seq<AgentMsg>)
    requires EndsWithDone(t) && Subseq(Received(es), t)
    ensures DoneIsLast(Run(Fresh(ttft, idle), es), Received(es))
  {
    hide Step, FramesOf;
    if es == [] {
      FreshDoneIsLast(ttft, idle);
    } else {
      var before, e := es[..|es| - 1], es[|es| - 1];
      assert Received(es) == Received(before) + MsgOf(e);
      NothingAfterDone(Received(es), t);
      SubseqPrefix(Received(before), Received(es));
      SubseqTrans(Received(before), Received(es), t);
      hide Subseq;
      DoneComesLast(ttft, idle, before, t);
      if MsgOf(e) != [] && Received(before) != [] {
        assert Received(es)[|Received(before)| - 1] == Received(before)[|Received(before)| - 1];
      }
      hide EndsWithDone;
      DoneLastKept(Run(Fresh(ttft, idle), before), Received(before), e);
    }
  }

  lemma FreshDoneIsLast(ttft: bool, idle: bool)
    ensures DoneIsLast(Fresh(ttft, idle), [])
  {
  }

  /** Any part of the agent's messages may be lost on the way, as when the agent reconnects midway; the
      rest arrives in the order sent. Then of a request counted a success the client has exactly what
      the agent sent if, and only if, no frame was lost on the way and none met a full queue. */
  lemma {:induction false} ExactDelivery(ttft: bool, idle: bool, es: seq<Event>, t: seq<AgentMsg>)
    requires EndsWithDone(t) && Subseq(Received(es), t)
    ensures var s := Run(Fresh(ttft, idle), es);
      s.fw.phase == Ended(Succeeded) ==>
        && LastIsDone(Received(es)) && (Received(es) <= t ==> Received(es) == t)
        && s.cl.errBody.None?
        && Subseq(s.cl.written, FramesOf(t))
        && |s.cl.written| + s.ch.overflow == |FramesOf(Received(es))|
        && (s.cl.written == FramesOf(t) <==> s.ch.overflow == 0 && FramesOf(Received(es)) == FramesOf(t))
  {
    ReachableStream(ttft, idle, es);
    DoneComesLast(ttft, idle, es, t);
    FramesOfSubseq(Received(es), t);
    hide Run, Subseq;
    var s := Run(Fresh(ttft, idle), es);
    if s.fw.phase == Ended(Succeeded) {
      assert s.cl.written + s.ch.frames == s.cl.written;
      SubseqTrans(s.cl.written, FramesOf(Received(es)), FramesOf(t));
      SubseqLength(FramesOf(Received(es)), FramesOf(t));
    }
  }

  // ------------------------------------------- delivery without any order

  /** The frames that were dispatched before the response ended. */
  function InTime(s: Stream, es: seq<Event>): seq<Frame> {
    if es == [] then [] else
    var init, e := es[..|es| - 1], es[|es| - 1];
    InTime(s, init) + if e.WireFrame? && !Run(s, init).fw.phase.Ended? then [e.f] else []
  }

  /** How many of them met a full queue. */
  function RefusedInTime(s: Stream, es: seq<Event>): nat {
    if es == [] then 0 else
    var init, e := es[..|es| - 1], es[|es| - 1];
    var t := Run(s, init);
    RefusedInTime(s, init)
    + if e.WireFrame? && !t.fw.phase.Ended? && |t.ch.frames| >= FRAME_QUEUE then 1 else 0
  }

  ghost predicate TimelyInv(s: Stream, arrived: seq<Frame>, refused: nat) {
    && (s.ch.closed ==> s.fw.phase.Ended?)
    && (!s.fw.phase.Ended? ==> InOrder(s.cl.written, s.ch.frames, arrived, refused))
    && (s.fw.phase == Ended(Succeeded) ==> InOrder(s.cl.written, [], arrived, refused))
  }

  lemma TimelyKept(s: Stream, arrived: seq<Frame>, refused: nat, e: Event)
    requires TimelyInv(s, arrived, refused)
    ensures var late := s.fw.phase.Ended?;
      TimelyInv(Step(s, e), arrived + if e.WireFrame? && !late then [e.f] else [],
                refused + if e.WireFrame? && !late && |s.ch.frames| >= FRAME_QUEUE then 1 else 0)
  {
    hide InOrder;
    assert arrived + [] == arrived;
    if e.WireFrame? && !s.fw.phase.Ended? {
      InOrderPush(s.cl.written, s.ch.frames, arrived, refused, e.f);
      InOrderRefuse(s.cl.written, s.ch.frames, arrived, refused, e.f);
    } else if (e.TakeFrame? || e.Drain?) && !s.fw.phase.Ended? && s.ch.frames != [] {
      InOrderTake(s.cl.written, s.ch.frames, arrived, refused);
    }
  }

  lemma {:induction false} TimelyReached(ttft: bool, idle: bool, es: seq<Event>)
    ensures var f := Fresh(ttft, idle); TimelyInv(Run(f, es), InTime(f, es), RefusedInTime(f, es))
  {
    if es == [] {
      assert FreshClient.written + FreshChannels.frames == [];
    } else {
      var init, e := es[..|es| - 1], es[|es| - 1];
      TimelyReached(ttft, idle, init);
      hide Step, TimelyInv;
      var f := Fresh(ttft, idle);
      TimelyKept(Run(f, init), InTime(f, init), RefusedInTime(f, init), e);
    }
  }

  /** Nothing assumed of what arrives and when: the client of a success has, in order, the frames that came in
      time and found room; and if no more came than the agent sent, it has exactly those sent if,
      and only if, they came in time, in order, and all found room. */
  lemma {:induction false} DeliveryInAnyOrder(ttft: bool, idle: bool, es: seq<Event>, sent: seq<Frame>)
    ensures var s, f := Run(Fresh(ttft, idle), es), Fresh(ttft, idle);
      s.fw.phase == Ended(Succeeded) ==>
        && Subseq(s.cl.written, InTime(f, es))
        && |s.cl.written| + RefusedInTime(f, es) == |InTime(f, es)|
        && (|InTime(f, es)| <= |sent| ==>
              (s.cl.written == sent <==> RefusedInTime(f, es) == 0 && InTime(f, es) == sent))
  {
    TimelyReached(ttft, idle, es);
    hide Run, InTime, RefusedInTime, Subseq;
    var s := Run(Fresh(ttft, idle), es);
    assert s.cl.written + [] == s.cl.written;
  }

  lemma {:induction false} ReceivedConcat(a: seq<Event>, b: seq<Event>)
    ensures Received(a + b) == Received(a) + Received(b)
  {
    if b == [] {
      assert a + b == a && Received(a) + [] == Received(a);
    } else {
      var init, e := b[..|b| - 1], b[|b| - 1];
      assert (a + b)[..|a + b| - 1] == a + init;
      ReceivedConcat(a, init);
      assert Received(a + b) == Received(a + init) + MsgOf(e);
      assert Received(b) == Received(init) + MsgOf(e);
    }
    hide Received, MsgOf;
  }

  lemma {:induction false} ReceivedNothing(es: seq<Event>)
    requires forall i | 0 <= i < |es| :: MsgOf(es[i]) == []
    ensures Received(es) == []
  {
    if es != [] {
      ReceivedNothing(es[..|es| - 1]);
    }
  }

  function LossyArrivals(f1: Frame, f3: Frame): seq<Event> {
    [WireHeaders(200), WireFrame(f1, true), WireFrame(f3, true), WireDone]
  }

  const ServedByTurns := [TakeHeaders, TakeFrame(true), TakeFrame(true), TakeDone]

  lemma LossyMessages(f1: Frame, f2: Frame, f3: Frame)
    ensures Subseq(Received(LossyArrivals(f1, f3)), [MHeaders(200), MFrame(f1), MFrame(f2), MFrame(f3), MDone])
  {
    var es := LossyArrivals(f1, f3);
    assert es[..3][..2] == es[..2] && es[..2][..1] == es[..1] && es[..1][..0] == [];
    assert Received(es[..1]) == [] + [MHeaders(200)];
    assert Received(es[..2]) == Received(es[..1]) + [MFrame(f1)];
    assert Received(es[..3]) == Received(es[..2]) + [MFrame(f3)];
    assert Received(es) == Received(es[..3]) + [MDone];
    var head, tail := [MHeaders(200), MFrame(f1)], [MFrame(f3), MDone];
    SubseqRefl(head);
    SubseqExtend(head, head, MFrame(f2));
    SubseqAppendBoth(head, head + [MFrame(f2)], tail);
    hide Subseq, Received;
    assert Received(es) == head + tail;
    assert [MHeaders(200), MFrame(f1), MFrame(f2), MFrame(f3), MDone] == head + [MFrame(f2)] + tail;
  }

  lemma LossyStates(f1: Frame, f3: Frame)
    ensures var f := Fresh(false, false);
      var s := f.(ch := f.ch.(headers := Some(200), done := true, frames := [f1, f3], dispatched := [f1, f3]));
      Run(f, LossyArrivals(f1, f3)) == s
  {
    FourSteps(Fresh(false, false), WireHeaders(200), WireFrame(f1, true), WireFrame(f3, true), WireDone);
    hide Run;
    assert [] + [f1] + [f3] == [f1, f3];
  }

  lemma LossyTurns(s: Stream, f1: Frame, f3: Frame)
    requires s.fw == FreshForward(false, false) && s.cl == FreshClient
    requires s.ch == FreshChannels.(headers := Some(200), done := true, frames := [f1, f3], dispatched := [f1, f3])
    ensures var t := Run(s, ServedByTurns);
      && t.cl == Client(Some(200), [f1, f3], None) && t.ch == FreshChannels.(dispatched := [f1, f3])
      && t.fw.phase == DrainDone && t.fw.successes == 0
  {
    FourSteps(s, TakeHeaders, TakeFrame(true), TakeFrame(true), TakeDone);
    hide Run;
    assert [f1, f3][1..] == [f3] && [f3][1..] == [] && [] + [f1] + [f3] == [f1, f3];
  }

  /** Three frames sent, the second lost on the way: success, no overflow, and the client lacks it. */
  lemma LostInTransit(f1: Frame, f2: Frame, f3: Frame)
    ensures var es := LossyArrivals(f1, f3) + ServedByTurns + [Drain(true)];
      var s := Run(Fresh(false, false), es);
      && Subseq(Received(es), [MHeaders(200), MFrame(f1), MFrame(f2), MFrame(f3), MDone])
      && s.fw.phase == Ended(Succeeded) && s.fw.successes == 1 && s.ch.overflow == 0 && s.ch.discarded == 0
      && s.cl == Client(Some(200), [f1, f3], None)
  {
    var first := LossyArrivals(f1, f3);
    LossyEnd(f1, f3);
    LossyMessages(f1, f2, f3);
    LocalTurns(first, ServedByTurns);
    LocalTurns(first + ServedByTurns, [Drain(true)]);
    hide *;
  }

  lemma LocalTurns(es: seq<Event>, more: seq<Event>)
    requires forall i | 0 <= i < |more| :: MsgOf(more[i]) == []
    ensures Received(es + more) == Received(es)
  {
    ReceivedConcat(es, more);
    ReceivedNothing(more);
    assert Received(es) + [] == Received(es);
  }

  lemma LossyEnd(f1: Frame, f3: Frame)
    ensures var s := Run(Fresh(false, false), LossyArrivals(f1, f3) + ServedByTurns + [Drain(true)]);
      && s.fw.phase == Ended(Succeeded) && s.fw.successes == 1 && s.ch.overflow == 0 && s.ch.discarded == 0
      && s.cl == Client(Some(200), [f1, f3], None)
  {
    var s := Fresh(false, false);
    LossyStates(f1, f3);
    LossyTurns(Run(s, LossyArrivals(f1, f3)), f1, f3);
    RunConcat(s, LossyArrivals(f1, f3), ServedByTurns);
    RunAppend(s, LossyArrivals(f1, f3) + ServedByTurns, Drain(true));
    hide Run, LossyArrivals, WriteNext;
  }

  // --------------------------------------------- what does not hold, and when

  lemma {:induction false} RunConcat(s: Stream, a: seq<Event>, b: seq<Event>)
    ensures Run(s, a + b) == Run(Run(s, a), b)
  {
    if b == [] {
      assert a + b == a;
    } else {
      var init := b[..|b| - 1];
      assert (a + b)[..|a + b| - 1] == a + init;
      RunConcat(s, a, init);
    }
  }

  function Times(n: nat, e: Event): seq<Event> {
    if n == 0 then [] else Times(n - 1, e) + [e]
  }

  /** t is s after n frames of its queue were written out. */
  ghost predicate Drained(s: Stream, t: Stream, n: nat) {
    && n <= |s.ch.frames|
    && t.ch == s.ch.(frames := s.ch.frames[n..]) && t.fw == s.fw
    && t.cl.written == s.cl.written + s.ch.frames[..n] && t.cl.errBody == s.cl.errBody
  }

  lemma OneMoreDrained(s: Stream, t: Stream, n: nat)
    requires Drained(s, t, n) && n < |s.ch.frames| && (s.fw.phase.DrainDone? || s.fw.phase.DrainErr?)
    ensures Drained(s, Step(t, Drain(true)), n + 1)
  {
    assert t.ch.frames[1..] == s.ch.frames[n + 1..];
    assert s.ch.frames[..n + 1] == s.ch.frames[..n] + [t.ch.frames[0]];
  }

  /** A drain loop left alone writes out the whole queue. */
  lemma {:induction false} DrainWritesQueue(s: Stream, n: nat)
    requires (s.fw.phase.DrainDone? || s.fw.phase.DrainErr?) && n <= |s.ch.frames|
    ensures Drained(s, Run(s, Times(n, Drain(true))), n)
  {
    if n > 0 {
      var before := Times(n - 1, Drain(true));
      DrainWritesQueue(s, n - 1);
      RunAppend(s, before, Drain(true));
      assert Times(n, Drain(true)) == before + [Drain(true)];
      hide Run, Times, Step, Drained;
      OneMoreDrained(s, Run(s, before), n - 1);
    }
  }

  function DrainAll(s: Stream): seq<Event> {
    Times(|s.ch.frames|, Drain(true)) + [Drain(true)]
  }

  /** The frames that enter the queue of d while its drain loop runs. */
  function QueuedMeanwhile(d: Stream, es: seq<Event>): seq<Frame> {
    if es == [] then [] else
    var init, e := es[..|es| - 1], es[|es| - 1];
    var s := Run(d, init);
    QueuedMeanwhile(d, init)
    + if e.WireFrame? && s.fw.phase.DrainErr? && |s.ch.frames| < FRAME_QUEUE then [e.f] else []
  }

  /** The drain loop that began at d, after it queued `late` meanwhile, is at s. */
  ghost predicate Draining(d: Stream, late: seq<Frame>, s: Stream)
    requires d.fw.phase.DrainErr?
  {
    || s.fw.phase == Ended(WriteFailed)
    || (s.cl.written + s.ch.frames == d.cl.written + d.ch.frames + late
        && s.fw.phase == d.fw.phase && s.fw.wroteHeader == d.fw.wroteHeader
        && s.cl.errBody == d.cl.errBody && !s.ch.closed)
    || (s.cl.written == d.cl.written + d.ch.frames + late
        && s.fw.phase == Ended(FailedWith(d.fw.phase.code))
        && s.cl.errBody == if d.fw.wroteHeader then d.cl.errBody else Some(d.fw.phase.code))
  }

  lemma DrainingKept(d: Stream, late: seq<Frame>, s: Stream, e: Event)
    requires d.fw.phase.DrainErr? && Draining(d, late, s)
    ensures Draining(d, late + if e.WireFrame? && s.fw.phase.DrainErr? && |s.ch.frames| < FRAME_QUEUE then [e.f] else [],
                     Step(s, e))
  {
    assert late + [] == late;
    if e.WireFrame? && s.fw.phase.DrainErr? && |s.ch.frames| < FRAME_QUEUE {
      assert s.cl.written + (s.ch.frames + [e.f]) == (s.cl.written + s.ch.frames) + [e.f];
      assert d.cl.written + d.ch.frames + (late + [e.f]) == d.cl.written + d.ch.frames + late + [e.f];
    } else if e.Drain? && s.fw.phase.DrainErr? {
      if s.ch.frames != [] {
        assert s.cl.written + [s.ch.frames[0]] + s.ch.frames[1..] == s.cl.written + s.ch.frames;
      } else {
        assert s.cl.written + s.ch.frames == s.cl.written;
      }
    }
    hide HTTPStatus;
  }

  lemma {:induction false} DrainingReached(d: Stream, es: seq<Event>)
    requires d.fw.phase.DrainErr? && !d.ch.closed
    ensures Draining(d, QueuedMeanwhile(d, es), Run(d, es))
  {
    if es == [] {
      assert d.ch.frames + [] == d.ch.frames;
      assert d.cl.written + d.ch.frames + [] == d.cl.written + d.ch.frames;
    } else {
      var init, e := es[..|es| - 1], es[|es| - 1];
      DrainingReached(d, init);
      hide Draining, Step;
      DrainingKept(d, QueuedMeanwhile(d, init), Run(d, init), e);
    }
  }

  /** Once the error is taken, and whatever happens after: if the request ends with that error, the
      client has every frame queued then or while the queue was drained; and an error body stands
      behind data exactly when no header was written at that moment and there was such a frame. */
  lemma {:induction false} ErrorBodyAfterData(ttft: bool, idle: bool, before: seq<Event>, after: seq<Event>)
    ensures var s := Run(Fresh(ttft, idle), before);
      s.fw.phase.Running? && s.ch.err.Some? ==>
        var d := Step(s, TakeErr);
        var t := Run(d, after);
        var rest := s.ch.frames + QueuedMeanwhile(d, after);
        && (t.fw.phase.Ended? && t.fw.phase.outcome != WriteFailed ==>
              t.fw.phase == Ended(FailedWith(s.ch.err.value)))
        && (t.fw.phase == Ended(FailedWith(s.ch.err.value)) ==>
              && t.cl.written == s.cl.written + rest
              && (t.cl.errBody.Some? && t.cl.written != [] <==> !s.fw.wroteHeader && rest != []))
  {
    ReachableStream(ttft, idle, before);
    var s := Run(Fresh(ttft, idle), before);
    hide Run, QueuedMeanwhile, Subseq, DeliveryInv, NoSilentLoss, HTTPStatus;
    if s.fw.phase.Running? && s.ch.err.Some? {
      var d := Step(s, TakeErr);
      DrainingReached(d, after);
      var late := QueuedMeanwhile(d, after);
      assert s.cl.written + s.ch.frames + late == s.cl.written + (s.ch.frames + late);
    }
  }

  /** Left alone the drain loop does end so, with an error body behind data exactly when no header was
      written and frames were queued. */
  lemma ErrorDrainEnds(ttft: bool, idle: bool, es: seq<Event>)
    ensures var s := Run(Fresh(ttft, idle), es);
      s.fw.phase.Running? && s.ch.err.Some? ==>
        var t := Run(Step(s, TakeErr), DrainAll(s));
        && t.fw.phase == Ended(FailedWith(s.ch.err.value))
        && t.cl.written == s.cl.written + s.ch.frames
        && (t.cl.errBody.Some? && t.cl.written != [] <==> !s.fw.wroteHeader && s.ch.frames != [])
  {
    ReachableStream(ttft, idle, es);
    var s := Run(Fresh(ttft, idle), es);
    hide Run, Subseq, DeliveryInv, NoSilentLoss;
    if s.fw.phase.Running? && s.ch.err.Some? {
      ErrorThenDrain(s);
    }
  }

  lemma ErrorThenDrain(s: Stream)
    requires s.fw.phase.Running? && s.ch.err.Some? && OutcomeInv(s)
    ensures var t := Run(Step(s, TakeErr), DrainAll(s));
      && t.fw.phase == Ended(FailedWith(s.ch.err.value))
      && t.cl.written == s.cl.written + s.ch.frames
      && (t.cl.errBody.Some? && t.cl.written != [] <==> !s.fw.wroteHeader && s.ch.frames != [])
  {
    var d := Step(s, TakeErr);
    var n := |s.ch.frames|;
    assert s.ch.frames[..n] == s.ch.frames;
    DrainWritesQueue(d, n);
    RunAppend(d, Times(n, Drain(true)), Drain(true));
    hide Run, Times;
  }

  /** One frame, then an error, both waiting when select looks: the client gets the frame as a 200 and
      the error body behind it. */
  lemma ErrorBodyAppended(f: Frame, code: Code)
    ensures var t := Run(Fresh(false, false),
                         [WireFrame(f, true), WireError(code), TakeErr, Drain(true), Drain(true)]);
      t.cl == Client(Some(200), [f], Some(code)) && t.fw.phase == Ended(FailedWith(code))
  {
    var four := [WireFrame(f, true), WireError(code), TakeErr, Drain(true)];
    FourSteps(Fresh(false, false), WireFrame(f, true), WireError(code), TakeErr, Drain(true));
    RunAppend(Fresh(false, false), four, Drain(true));
    assert four + [Drain(true)] == [WireFrame(f, true), WireError(code), TakeErr, Drain(true), Drain(true)];
    hide Run, HTTPStatus;
    assert [f][1..] == [] && [] + [f] == [f];
  }

  /** The same with a queue that is empty when the error is taken: the frame comes during the drain. */
  lemma ErrorBodyAfterLateFrame(f: Frame, code: Code)
    ensures var t := Run(Fresh(false, false),
                         [WireError(code), TakeErr, WireFrame(f, true), Drain(true), Drain(true)]);
      t.cl == Client(Some(200), [f], Some(code)) && t.fw.phase == Ended(FailedWith(code))
  {
    var four := [WireError(code), TakeErr, WireFrame(f, true), Drain(true)];
    FourSteps(Fresh(false, false), WireError(code), TakeErr, WireFrame(f, true), Drain(true));
    RunAppend(Fresh(false, false), four, Drain(true));
    assert four + [Drain(true)] == [WireError(code), TakeErr, WireFrame(f, true), Drain(true), Drain(true)];
    hide Run, HTTPStatus;
    assert [f][1..] == [] && [] + [f] == [f];
  }

  /** The select loop takes a case in this event. */
  predicate Takes(s: Stream, e: Event) {
    s.fw.phase.Running? &&
    match e
    case CtxDone => true
    case TakeHeaders => s.ch.headers.Some?
    case TtftFires => s.fw.ttftArmed
    case IdleFires => s.fw.idleArmed
    case TakeFrame(_) => s.ch.frames != []
    case TakeDone => s.ch.done
    case TakeErr => s.ch.err.Some?
    case _ => false
  }

  /** The first case that the select loop took. */
  function FirstCase(s: Stream, es: seq<Event>): Option<Event> {
    if es == [] then None else
    var init, e := es[..|es| - 1], es[|es| - 1];
    var first := FirstCase(s, init);
    if first.Some? then first else if Takes(Run(s, init), e) then Some(e) else None
  }

  /** The headers case was taken at some time. */
  predicate TookHeaders(s: Stream, es: seq<Event>) {
    es != [] && (TookHeaders(s, es[..|es| - 1])
                 || (es[|es| - 1].TakeHeaders? && Takes(Run(s, es[..|es| - 1]), TakeHeaders)))
  }

  /** All headers the agent sent say `status`; it may have sent none. */
  ghost predicate AgentStatus(got: seq<AgentMsg>, status: int) {
    forall i | 0 <= i < |got| && got[i].MHeaders? :: got[i].status == status
  }

  /** What the client of an ended response sees when the first case taken is this one. */
  function StatusAfter(first: Event, agent: int, s: Stream): int {
    match first
    case TakeHeaders => agent
    case CtxDone => 408
    case TtftFires => 504
    case IdleFires => 504
    case TakeErr =>
      if s.cl.written == [] && s.fw.phase.Ended? && s.fw.phase.outcome.FailedWith?
      then ClientStatus(s.fw.phase.outcome.code) else 200
    case _ => 200
  }

  /** The client's status and the record's, by the first case taken and whether headers were taken. */
  ghost predicate StatusInv(s: Stream, agent: int, first: Option<Event>, took: bool) {
    var cl, fw := s.cl, s.fw;
    && (s.ch.headers.Some? ==> s.ch.headers.value == agent)
    && (fw.phase.Running? ==> (first.None? <==> !fw.wroteHeader))
    && (first.None? ==> fw.phase.Running? && cl == FreshClient && !took)
    && (first.Some? && !fw.phase.DrainDone? && !fw.phase.DrainErr? ==>
          cl.status == Some(StatusAfter(first.value, agent, s)))
    && (first.Some? && (fw.phase.DrainDone? || fw.phase.DrainErr?) ==>
          if first.value.TakeDone? || first.value.TakeErr?
          then !fw.wroteHeader && cl.status == if cl.written == [] then None else Some(200)
          else fw.wroteHeader && cl.status == Some(StatusAfter(first.value, agent, s)))
    && (first.Some? && fw.phase.Running? ==> first.value.TakeHeaders? || first.value.TakeFrame?)
    && (first == Some(TakeHeaders) ==> took)
    && (fw.phase.DrainDone? || fw.phase == Ended(Succeeded) ==>
          first.value.TakeHeaders? || first.value.TakeFrame? || first.value.TakeDone?)
    && (fw.phase.DrainErr? ==> !first.value.TakeDone?)
    && (first == Some(TakeErr) && fw.phase.Ended? ==> fw.phase.outcome.FailedWith? || fw.phase.outcome.WriteFailed?)
    && (fw.phase.Running? || fw.phase.DrainDone? ==> fw.recStatus == if took then agent else 0)
    && (fw.phase == Ended(Succeeded) ==> fw.recStatus == if took && agent != 0 then agent else 200)
  }

  lemma StatusDrained(s: Stream, agent: int, first: Option<Event>, took: bool, writeOk: bool)
    requires StatusInv(s, agent, first, took) && (s.fw.phase.DrainDone? || s.fw.phase.DrainErr?)
    ensures StatusInv(DrainStep(s, writeOk), agent, first, took)
  {
    hide HTTPStatus, ClientStatus;
  }

  lemma StatusKept(s: Stream, agent: int, first: Option<Event>, took: bool, e: Event)
    requires StatusInv(s, agent, first, took) && (e.WireHeaders? ==> e.status == agent)
    ensures StatusInv(Step(s, e), agent, if first.Some? then first else if Takes(s, e) then Some(e) else None,
                      took || (e.TakeHeaders? && Takes(s, TakeHeaders)))
  {
    if e.Drain? && (s.fw.phase.DrainDone? || s.fw.phase.DrainErr?) {
      StatusDrained(s, agent, first, took, e.writeOk);
      assert first.Some? && !Takes(s, e);
    } else {
      assert ClientStatus(Canceled) == 408 && ClientStatus(TtftTimeout) == 504 && ClientStatus(IdleTimeout) == 504;
    }
    hide HTTPStatus, ClientStatus, DrainStep;
  }

  lemma {:induction false} StatusReached(ttft: bool, idle: bool, es: seq<Event>, agent: int)
    requires AgentStatus(Received(es), agent)
    ensures var f := Fresh(ttft, idle); StatusInv(Run(f, es), agent, FirstCase(f, es), TookHeaders(f, es))
  {
    if es != [] {
      var init, e := es[..|es| - 1], es[|es| - 1];
      assert Received(es) == Received(init) + MsgOf(e);
      assert AgentStatus(Received(init), agent) by {
        forall i | 0 <= i < |Received(init)| && Received(init)[i].MHeaders?
          ensures Received(init)[i].status == agent
        {
          assert Received(es)[i] == Received(init)[i];
        }
      }
      if e.WireHeaders? {
        assert Received(es)[|Received(init)|] == MHeaders(e.status);
      }
      StatusReached(ttft, idle, init, agent);
      hide Step, StatusInv, Takes;
      StatusKept(Run(Fresh(ttft, idle), init), agent, FirstCase(Fresh(ttft, idle), init),
                 TookHeaders(Fresh(ttft, idle), init), e);
    }
  }

  /** Whole runs: the client of an ended response has the agent's status exactly when the headers were
      the first thing the select loop took, or when what was written instead is the same. */
  lemma {:induction false} StatusFollowsAgent(ttft: bool, idle: bool, es: seq<Event>, agent: int)
    requires AgentStatus(Received(es), agent)
    ensures var s, first := Run(Fresh(ttft, idle), es), FirstCase(Fresh(ttft, idle), es);
      s.fw.phase.Ended? ==>
        && first.Some?
        && s.cl.status == Some(StatusAfter(first.value, agent, s))
        && (s.cl.status == Some(agent) <==>
              first == Some(TakeHeaders) || StatusAfter(first.value, agent, s) == agent)
  {
    StatusReached(ttft, idle, es, agent);
    hide Run, FirstCase;
  }

  /** A response that an agent's error decides, in numbers: the code it sent goes into the record with its
      own status, and a client that has seen nothing gets that status, or 408 for a cancellation. */
  lemma {:induction false} AgentErrorInNumbers(ttft: bool, idle: bool, es: seq<Event>, code: Code)
    requires EndingCase(Fresh(ttft, idle), es) == Some(TakeErr)
    ensures var s := Run(Fresh(ttft, idle), es);
      s.fw.phase == Ended(FailedWith(code)) ==>
        && s.fw.recCode == Some(code)
        && (code == UpstreamConnectionFailed ==> s.fw.recStatus == 502)
        && (code == UpstreamTimeout ==> s.fw.recStatus == 504)
        && (code == LocalBusy || code == Code.Draining ==> s.fw.recStatus == 503)
        && (code == BodyTooLarge ==> s.fw.recStatus == 413)
        && (code == InvalidRequest ==> s.fw.recStatus == 400)
        && (code == Canceled ==> s.fw.recStatus == 499)
        && (code == Internal || code.Other? ==> s.fw.recStatus == 500)
        && (FirstCase(Fresh(ttft, idle), es) == Some(TakeErr) && s.cl.written == [] ==>
              s.cl.errBody == Some(code) && s.cl.status == Some(if code == Canceled then 408 else s.fw.recStatus))
  {
    var s := Run(Fresh(ttft, idle), es);
    ReachableStream(ttft, idle, es);
    ErrorStatusReached(ttft, idle, es);
    StatusNumbers(code);
    hide Run, EndingCase, FirstCase, DeliveryInv, NoSilentLoss;
  }

  /** The client of a response whose first case taken was the error case. */
  ghost predicate ErrorFirst(s: Stream, first: Option<Event>) {
    && (first.None? ==> s.fw.phase.Running? && !s.fw.wroteHeader && s.cl == FreshClient)
    && (first == Some(TakeErr) ==>
          && !s.fw.wroteHeader
          && (s.fw.phase.DrainErr? || s.fw.phase == Ended(WriteFailed)
              || (s.fw.phase.Ended? && s.fw.phase.outcome.FailedWith?
                  && s.cl.errBody == Some(s.fw.phase.outcome.code)))
          && (s.fw.phase.DrainErr? && s.cl.written == [] ==> s.cl.status.None?)
          && (s.fw.phase.Ended? && s.fw.phase.outcome.FailedWith? && s.cl.written == [] ==>
                s.cl.status == Some(ClientStatus(s.fw.phase.outcome.code))))
    && (s.fw.phase.Running? ==> (first.None? <==> !s.fw.wroteHeader))
  }

  lemma ErrorFirstKept(s: Stream, first: Option<Event>, e: Event)
    requires ErrorFirst(s, first)
    ensures ErrorFirst(Step(s, e), if first.Some? then first else if Takes(s, e) then Some(e) else None)
  {
    hide HTTPStatus, ClientStatus;
  }

  lemma {:induction false} ErrorStatusReached(ttft: bool, idle: bool, es: seq<Event>)
    ensures ErrorFirst(Run(Fresh(ttft, idle), es), FirstCase(Fresh(ttft, idle), es))
  {
    if es != [] {
      var init, e := es[..|es| - 1], es[|es| - 1];
      ErrorStatusReached(ttft, idle, init);
      hide Step, ErrorFirst, Takes;
      ErrorFirstKept(Run(Fresh(ttft, idle), init), FirstCase(Fresh(ttft, idle), init), e);
    }
  }

  /** The exits that the relay decides itself, in numbers. */
  lemma {:induction false} OwnExitsInNumbers(ttft: bool, idle: bool, es: seq<Event>)
    ensures var s, ending := Run(Fresh(ttft, idle), es), EndingCase(Fresh(ttft, idle), es);
      && (ending == Some(TtftFires) ==> s.fw.recStatus == 504 && s.fw.recCode == Some(TtftTimeout))
      && (ending == Some(IdleFires) ==> s.fw.recStatus == 504 && s.fw.recCode == Some(IdleTimeout))
      && (ending == Some(CtxDone) ==>
            if s.fw.wroteHeader then s.fw.recCode.None?
            else s.fw.recStatus == 499 && s.fw.recCode == Some(Canceled) && s.cl.status == Some(408))
  {
    CancelsByCause(ttft, idle, es);
    ReachableStream(ttft, idle, es);
    CanceledReached(ttft, idle, es);
    hide Run, EndingCase, DeliveryInv, NoSilentLoss, ToldBy, TimersBy;
  }

  ghost predicate CanceledRecord(s: Stream) {
    && (s.fw.phase.Running? ==> s.fw.recCode.None? && (!s.fw.wroteHeader ==> s.cl == FreshClient))
    && (s.fw.phase == Ended(CanceledByClient) ==>
          if s.fw.wroteHeader then s.fw.recCode.None?
          else s.fw.recStatus == 499 && s.fw.recCode == Some(Canceled) && s.cl.status == Some(408))
  }

  lemma CanceledKept(s: Stream, e: Event)
    requires CanceledRecord(s)
    ensures CanceledRecord(Step(s, e))
  {
    assert ClientStatus(Canceled) == 408;
    hide HTTPStatus, ClientStatus;
  }

  lemma {:induction false} CanceledReached(ttft: bool, idle: bool, es: seq<Event>)
    ensures CanceledRecord(Run(Fresh(ttft, idle), es))
  {
    if es != [] {
      CanceledReached(ttft, idle, es[..|es| - 1]);
      hide Step, CanceledRecord;
      CanceledKept(Run(Fresh(ttft, idle), es[..|es| - 1]), es[|es| - 1]);
    }
  }

  /** The record of a success agrees with the client exactly when the headers were taken first, or never,
      or said 200. */
  lemma {:induction false} RecordFollowsClient(ttft: bool, idle: bool, es: seq<Event>, agent: int)
    requires AgentStatus(Received(es), agent) && agent != 0
    ensures var s, f := Run(Fresh(ttft, idle), es), Fresh(ttft, idle);
      s.fw.phase == Ended(Succeeded) ==>
        (s.cl.status == Some(s.fw.recStatus) <==>
           FirstCase(f, es) == Some(TakeHeaders) || !TookHeaders(f, es) || agent == 200)
  {
    StatusReached(ttft, idle, es, agent);
    hide Run, FirstCase, TookHeaders;
  }

  /** A 404 without a body whose Done is picked before its headers: the client gets a 200, the record says
      200, and the request is counted a success, with the headers still waiting. */
  lemma EmptyErrorSucceeds()
    ensures var t := Run(Fresh(false, false), [WireHeaders(404), WireDone, TakeDone, Drain(true)]);
      && t.cl == Client(Some(200), [], None)
      && t.fw.phase == Ended(Succeeded) && t.fw.recStatus == 200 && t.fw.successes == 1
      && t.ch.headers == Some(404)
  {
    FourSteps(Fresh(false, false), WireHeaders(404), WireDone, TakeDone, Drain(true));
    hide Run;
  }

  /** A 404 whose body frame is picked before its headers reaches the client as a 200,
      while the record says 404. */
  lemma StatusLost(f: Frame)
    ensures var t := Run(Fresh(false, false),
                         [WireHeaders(404), WireFrame(f, true), TakeFrame(true), TakeHeaders]);
      t.cl.status == Some(200) && t.fw.recStatus == 404
  {
    FourSteps(Fresh(false, false), WireHeaders(404), WireFrame(f, true), TakeFrame(true), TakeHeaders);
  }

  /** Filling an idle queue. */
  lemma {:induction false} QueueFills(f: Frame, n: nat)
    requires n <= FRAME_QUEUE
    ensures var t := Run(Fresh(false, false), Times(n, WireFrame(f, true)));
      && |t.ch.frames| == n && t.fw == FreshForward(false, false) && t.cl == FreshClient
      && t.ch == FreshChannels.(frames := t.ch.frames, dispatched := t.ch.dispatched)
  {
    if n > 0 {
      QueueFills(f, n - 1);
      RunAppend(Fresh(false, false), Times(n - 1, WireFrame(f, true)), WireFrame(f, true));
    }
  }

  /** Seventeen frames and a done on an idle forwarder: the last frame is lost, an error is
      posted for it, and the request still succeeds when select prefers done to err. */
  lemma SuccessDespiteLoss(f: Frame)
    ensures exists es ::
      var t := Run(Fresh(false, false), es);
      t.fw.phase == Ended(Succeeded) && t.ch.overflow == 1 && t.ch.err == Some(Internal)
      && |t.cl.written| == 16 && |t.ch.dispatched| == 17
  {
    var s0 := Fresh(false, false);
    var fill := Times(16, WireFrame(f, true));
    QueueFills(f, 16);
    ReachableStream(false, false, fill);
    var s1 := Run(s0, fill);
    var rest := Late(f) + DrainAll(Run(s1, Late(f)));
    hide Run, Times, Subseq;
    assert |s1.ch.dispatched| == 16;
    LateFrameLost(s1, f);
    RunConcat(s0, fill, rest);
    assert Run(s0, fill + rest).fw.phase == Ended(Succeeded);
  }

  function Late(f: Frame): seq<Event> {
    [WireFrame(f, true), ReportOverflow, WireDone, TakeDone]
  }

  ghost predicate FullAndIdle(s: Stream) {
    && s.fw == FreshForward(false, false) && s.cl == FreshClient && |s.ch.frames| == FRAME_QUEUE
    && s.ch == FreshChannels.(frames := s.ch.frames, dispatched := s.ch.dispatched)
  }

  lemma LateSteps(s: Stream, f: Frame)
    requires FullAndIdle(s)
    ensures Run(s, Late(f)) == s.(fw := s.fw.(phase := DrainDone),
              ch := s.ch.(dispatched := s.ch.dispatched + [f], overflow := 1, err := Some(Internal),
                          told := [QueueOverflow]))
  {
    FourSteps(s, WireFrame(f, true), ReportOverflow, WireDone, TakeDone);
    hide Run;
  }

  lemma DrainSucceeds(d: Stream)
    requires d.fw.phase.DrainDone?
    ensures var t := Run(d, DrainAll(d));
      && t.fw.phase == Ended(Succeeded) && t.cl.written == d.cl.written + d.ch.frames
      && t.ch == d.ch.(frames := [])
  {
    var n := |d.ch.frames|;
    assert d.ch.frames[..n] == d.ch.frames;
    DrainWritesQueue(d, n);
    RunAppend(d, Times(n, Drain(true)), Drain(true));
    hide Run, Times;
  }

  lemma LateFrameLost(s: Stream, f: Frame)
    requires FullAndIdle(s)
    ensures var t := Run(s, Late(f) + DrainAll(Run(s, Late(f))));
      t.fw.phase == Ended(Succeeded) && t.ch.overflow == 1 && t.ch.err == Some(Internal)
      && |t.cl.written| == 16 && |t.ch.dispatched| == |s.ch.dispatched| + 1
  {
    hide Run, Times;
    var d := Run(s, Late(f));
    LateSteps(s, f);
    DrainSucceeds(d);
    RunConcat(s, Late(f), DrainAll(d));
  }

  lemma FourSteps(s: Stream, a: Event, b: Event, c: Event, d: Event)
    ensures Run(s, [a, b, c, d]) == Step(Step(Step(Step(s, a), b), c), d)
  {
    hide Step;
    assert [a, b, c, d][..3] == [a, b, c] && [a, b, c][..2] == [a, b] && [a, b][..1] == [a] && [a][..0] == [];
    assert Run(s, [a]) == Step(Run(s, []), a);
    assert Run(s, [a, b]) == Step(Run(s, [a]), b);
    assert Run(s, [a, b, c]) == Step(Run(s, [a, b]), c);
  }
}
