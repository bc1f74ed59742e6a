/** Request bodies on their way from relay to agent: the relay's chunker
    (internal/relay/proxy.go), the agent's bounded body queue and its reassembler
    (internal/agent/agent.go). */
module Transport {
  import opened Basics
  import opened Frames

  const CHUNK := 128 * 1024
  const BODY_QUEUE := 16

  // ------------------------------------------------------------- the chunker

  function ChunkCount(n: nat): nat {
    if n == 0 then 1 else (n + CHUNK - 1) / CHUNK
  }

  function ChunkEnd(n: nat, k: nat): nat {
    if (k + 1) * CHUNK < n then (k + 1) * CHUNK else n
  }

  function ChunkAt(id: Id16, body: seq<byte>, k: nat): Frame
    requires k < ChunkCount(|body|)
  {
    NewFrame(FRAME_REQUEST_BODY, id, (k + 1) % 0x1_0000_0000, body[k * CHUNK..ChunkEnd(|body|, k)])
      .(first := k == 0, last := ChunkEnd(|body|, k) == |body|)
  }

  function Chunks(id: Id16, body: seq<byte>): (fs: seq<Frame>)
    ensures |fs| == ChunkCount(|body|)
  {
    seq(ChunkCount(|body|), k requires 0 <= k < ChunkCount(|body|) => ChunkAt(id, body, k))
  }

  /** The relay's end of the connection to a node; it carries `room` more frames before it is lost. */
  class Link {
    var sent: seq<Frame>
    var room: nat

    constructor (room: nat)
      ensures sent == [] && this.room == room
    {
      sent, this.room := [], room;
    }

    method SendFrame(f: Frame) returns (ok: bool)
      modifies this
      ensures ok == (old(room) > 0)
      ensures sent == if ok then old(sent) + [f] else old(sent)
      ensures room == if ok then old(room) - 1 else 0
    {
      ok := room > 0;
      if ok {
        sent, room := sent + [f], room - 1;
      }
    }
  }

  function Min(a: nat, b: nat): nat {
    if a < b then a else b
  }

  lemma ChunkBounds(n: nat, k: nat)
    requires n > 0
    ensures k < ChunkCount(n) <==> k * CHUNK < n
    ensures k < ChunkCount(n) ==> k * CHUNK <= ChunkEnd(n, k) <= n
  {
  }

  /** One more chunk in front of the rest. */
  lemma NextChunk(id: Id16, body: seq<byte>, k: nat)
    requires k < ChunkCount(|body|)
    ensures |Chunks(id, body)| == ChunkCount(|body|) && Chunks(id, body)[k] == ChunkAt(id, body, k)
    ensures Chunks(id, body)[..k + 1] == Chunks(id, body)[..k] + [ChunkAt(id, body, k)]
  {
    hide ChunkAt, ChunkCount;
  }

  /** The k-th frame as the loop builds it. */
  lemma ChunkBuilt(id: Id16, body: seq<byte>, k: nat, seqno: uint32, off: nat, end: nat)
    requires off == k * CHUNK < |body| && seqno == k % 0x1_0000_0000
    requires end == if off + CHUNK > |body| then |body| else off + CHUNK
    ensures k < ChunkCount(|body|) && (seqno + 1) % 0x1_0000_0000 == (k + 1) % 0x1_0000_0000
    ensures NewFrame(FRAME_REQUEST_BODY, id, (seqno + 1) % 0x1_0000_0000, body[off..end])
              .(first := off == 0, last := end == |body|) == ChunkAt(id, body, k)
  {
    ChunkBounds(|body|, k);
  }

  lemma EmptyChunk(id: Id16)
    ensures ChunkCount(0) == 1
    ensures ChunkAt(id, [], 0) == NewFrame(FRAME_REQUEST_BODY, id, 1, []).(first := true, last := true)
  {
  }

  /** Sends the chunks in order until the link is lost. A lost link is reported, except
      for the single frame of an empty body, whose send error is ignored. */
  method SendBody(link: Link, id: Id16, body: seq<byte>) returns (ok: bool)
    modifies link
    ensures ok == (body == [] || old(link.room) >= ChunkCount(|body|))
    ensures link.sent == old(link.sent) + Chunks(id, body)[..Min(old(link.room), ChunkCount(|body|))]
  {
    hide Chunks, ChunkCount, ChunkAt;
    var seqno: uint32 := 0;
    var off := 0;
    ghost var k := 0;
    while off < |body|
      invariant off == k * CHUNK && k <= ChunkCount(|body|) && (body == [] ==> k == 0)
      invariant seqno == k % 0x1_0000_0000
      invariant link.sent == old(link.sent) + Chunks(id, body)[..k]
      invariant link.room + k == old(link.room)
    {
      ghost var was := seqno;
      seqno := (seqno + 1) % 0x1_0000_0000;
      var end := off + CHUNK;
      if end > |body| {
        end := |body|;
      }
      var f := NewFrame(FRAME_REQUEST_BODY, id, seqno, body[off..end]);
      f := f.(first := off == 0, last := end == |body|);
      ChunkBuilt(id, body, k, was, off, end);
      NextChunk(id, body, k);
      var sent := link.SendFrame(f);
      if !sent {
        return false;
      }
      off := off + CHUNK;
      k := k + 1;
    }
    if |body| == 0 {
      var f := NewFrame(FRAME_REQUEST_BODY, id, 1, []);
      f := f.(first := true, last := true);
      EmptyChunk(id);
      NextChunk(id, body, 0);
      var _ := link.SendFrame(f);
    } else {
      ChunkBounds(|body|, k);
    }
    ok := true;
  }

  lemma ChunkEdges(n: nat, k: nat)
    requires k < ChunkCount(n)
    ensures Min(k * CHUNK, n) == k * CHUNK <= ChunkEnd(n, k) == Min((k + 1) * CHUNK, n) <= n
  {
  }

  lemma {:induction false} ChunkPrefix(id: Id16, body: seq<byte>, k: nat)
    requires k <= ChunkCount(|body|)
    ensures Body(Chunks(id, body)[..k]) == body[..Min(k * CHUNK, |body|)]
  {
    if k == 0 {
      assert Chunks(id, body)[..0] == [];
    } else {
      ChunkPrefix(id, body, k - 1);
      NextChunk(id, body, k - 1);
      BodyAppend(Chunks(id, body)[..k - 1], ChunkAt(id, body, k - 1));
      ChunkEdges(|body|, k - 1);
      hide Body, Chunks, ChunkCount, ChunkEnd, Min;
      SliceJoin(body, (k - 1) * CHUNK, ChunkEnd(|body|, k - 1));
    }
  }

  lemma SliceJoin(s: seq<byte>, lo: nat, hi: nat)
    requires lo <= hi <= |s|
    ensures s[..lo] + s[lo..hi] == s[..hi]
  {
  }

  /** What the frames of a body look like: nothing lost, one First, one Last, each frame
      small enough to encode, and sequence numbers 1..n as long as n fits 32 bits. */
  lemma ChunkLaws(id: Id16, body: seq<byte>)
    ensures var fs := Chunks(id, body);
      && Body(fs) == body
      && AllValid(fs)
      && (forall k | 0 <= k < |fs| :: ChunkShape(id, body, fs[k], k))
      && ((forall k | 0 <= k < |fs| :: fs[k].seqno == k + 1) <==> |fs| < 0x1_0000_0000)
  {
    var fs := Chunks(id, body);
    ChunkPrefix(id, body, |fs|);
    assert fs[..|fs|] == fs;
    forall k | 0 <= k < |fs|
      ensures ChunkShape(id, body, fs[k], k)
    {
      ChunkShapeHolds(id, body, k);
    }
    if |fs| >= 0x1_0000_0000 {
      assert ChunkShape(id, body, fs[0xFFFF_FFFF], 0xFFFF_FFFF);
    }
  }

  ghost predicate ChunkShape(id: Id16, body: seq<byte>, f: Frame, k: nat) {
    && f.typ == 1 && f.id == id && f.encoding == 0 && !f.compressed
    && (f.first <==> k == 0)
    && (f.last <==> k == ChunkCount(|body|) - 1)
    && |f.payload| <= 131072
    && (k < ChunkCount(|body|) - 1 ==> |f.payload| == 131072)
    && (f.payload == [] <==> body == [])
    && f.seqno == (k + 1) % 0x1_0000_0000
  }

  lemma ChunkShapeHolds(id: Id16, body: seq<byte>, k: nat)
    requires k < ChunkCount(|body|)
    ensures ChunkShape(id, body, ChunkAt(id, body, k), k)
  {
    var n := |body|;
    assert |ChunkAt(id, body, k).payload| == ChunkEnd(n, k) - k * CHUNK;
  }

  // ---------------------------------------------------------- the reassembler

  datatype AbortReason = Canceled | EntryClosed | TimedOut | TooLong | LengthMismatch

  datatype Assembly = Collecting(buf: seq<byte>) | Assembled(body: seq<byte>) | Aborted(why: AbortReason)

  /** One received frame. */
  function Absorb(a: Assembly, declared: int, f: Frame): Assembly {
    if !a.Collecting? then a
    else if |a.buf| + |f.payload| > declared then Aborted(TooLong)
    else if !f.last then Collecting(a.buf + f.payload)
    else if |a.buf| + |f.payload| != declared then Aborted(LengthMismatch)
    else Assembled(a.buf + f.payload)
  }

  /** The verdict on a list of frames when nothing else intervenes. */
  function Verdict(declared: int, fs: seq<Frame>): Assembly {
    if fs == [] then Collecting([])
    else Absorb(Verdict(declared, fs[..|fs| - 1]), declared, fs[|fs| - 1])
  }

  /** The agent's view of one request body: its queue, its cancel flag, and, for the record,
      the frames that arrived, those taken off the queue, and how many arrivals were not queued. */
  datatype Inbound = Inbound(
    queue: seq<Frame>,
    canceled: bool,
    closed: bool,
    asm: Assembly,
    arrived: seq<Frame>,
    taken: seq<Frame>,
    lost: nat)

  datatype InboundEvent =
    | Arrive(f: Frame, pickQueue: bool)  // routeBodyFrame; pickQueue settles a tie between queue and done
    | Cancel                             // cancelRequest, or the response timeout
    | TakeFrame                          // assembleBody's select cases ...
    | SeeCancel
    | SeeClosed
    | SeeTimeout
    | Finish                             // serveRequest's deferred cleanup

  const FreshInbound := Inbound([], false, false, Collecting([]), [], [], 0)

  function InboundStep(s: Inbound, declared: int, e: InboundEvent): Inbound {
    match e
    case Arrive(f, pickQueue) =>
      var s := s.(arrived := s.arrived + [f]);
      if |s.queue| < BODY_QUEUE && (!s.closed || pickQueue) then s.(queue := s.queue + [f])
      else if s.closed then s.(lost := s.lost + 1)
      else s.(lost := s.lost + 1, canceled := true)
    case Cancel => s.(canceled := true)
    case TakeFrame =>
      if s.asm.Collecting? && s.queue != [] then
        s.(queue := s.queue[1..], taken := s.taken + [s.queue[0]], asm := Absorb(s.asm, declared, s.queue[0]))
      else s
    case SeeCancel => if s.asm.Collecting? && s.canceled then s.(asm := Aborted(Canceled)) else s
    case SeeClosed => if s.asm.Collecting? && s.closed then s.(asm := Aborted(EntryClosed)) else s
    case SeeTimeout => if s.asm.Collecting? then s.(asm := Aborted(TimedOut)) else s
    case Finish => if s.asm.Collecting? then s else s.(closed := true)
  }

  function InboundRun(s: Inbound, declared: int, es: seq<InboundEvent>): Inbound {
    if es == [] then s
    else InboundStep(InboundRun(s, declared, es[..|es| - 1]), declared, es[|es| - 1])
  }

  function Arrivals(es: seq<InboundEvent>): seq<Frame> {
    if es == [] then []
    else Arrivals(es[..|es| - 1]) + if es[|es| - 1].Arrive? then [es[|es| - 1].f] else []
  }

  /** The agent's entry for a running request. */
  class ActiveRequest {
    var bodyCh: seq<Frame>
    var canceled: bool
    var done: bool
    const id: Id16
    const bodyLen: int
    ghost var arrived: seq<Frame>
    ghost var taken: seq<Frame>
    ghost var lost: nat

    constructor (id: Id16, bodyLen: int)
      ensures this.id == id && this.bodyLen == bodyLen && View(Collecting([])) == FreshInbound
    {
      this.id, this.bodyLen := id, bodyLen;
      bodyCh, canceled, done := [], false, false;
      arrived, taken, lost := [], [], 0;
    }

    ghost function View(asm: Assembly): Inbound
      reads this
    {
      Inbound(bodyCh, canceled, done, asm, arrived, taken, lost)
    }

    /** Never blocks: a full queue cancels the request instead. */
    method RouteBodyFrame(f: Frame, pickQueue: bool)
      modifies this
      ensures forall asm :: View(asm) == InboundStep(old(View(asm)), bodyLen, Arrive(f, pickQueue))
      ensures bodyCh == old(bodyCh) + if |old(bodyCh)| < 16 && (!done || pickQueue) then [f] else []
      ensures canceled == (old(canceled) || (|old(bodyCh)| >= 16 && !done))
    {
      arrived := arrived + [f];
      if |bodyCh| < BODY_QUEUE && (!done || pickQueue) {
        bodyCh := bodyCh + [f];
      } else {
        lost := lost + 1;
        if !done {
          canceled := true;
        }
      }
    }

    method CancelRequest()
      modifies this`canceled
      ensures canceled
    {
      canceled := true;
    }

    /** The select loop, driven by a schedule that fixes what the other goroutines do between
        two turns and which ready case each turn takes. It runs to the end of the schedule. */
    method AssembleBody(schedule: seq<InboundEvent>) returns (asm: Assembly)
      modifies this
      ensures View(asm) == InboundRun(old(View(Collecting([]))), bodyLen, schedule)
    {
      var buf := [];
      asm := Collecting(buf);
      var i := 0;
      while i < |schedule|
        invariant i <= |schedule|
        invariant asm.Collecting? ==> asm.buf == buf
        invariant View(asm) == InboundRun(old(View(Collecting([]))), bodyLen, schedule[..i])
      {
        var e := schedule[i];
        assert schedule[..i + 1][..i] == schedule[..i];
        match e {
          case Arrive(f, pick) => RouteBodyFrame(f, pick);
          case Cancel => CancelRequest();
          case Finish =>
            if !asm.Collecting? {
              done := true;
            }
          case SeeCancel =>
            if asm.Collecting? && canceled {
              asm := Aborted(Canceled);
            }
          case SeeClosed =>
            if asm.Collecting? && done {
              asm := Aborted(EntryClosed);
            }
          case SeeTimeout =>
            if asm.Collecting? {
              asm := Aborted(TimedOut);
            }
          case TakeFrame =>
            if asm.Collecting? && bodyCh != [] {
              var f := bodyCh[0];
              bodyCh := bodyCh[1..];
              taken := taken + [f];
              if |buf| + |f.payload| > bodyLen {
                asm := Aborted(TooLong);
              } else {
                buf := buf + f.payload;
                asm := Collecting(buf);
                if f.last {
                  asm := if |buf| != bodyLen then Aborted(LengthMismatch) else Assembled(buf);
                }
              }
            }
        }
        i := i + 1;
      }
      assert schedule[..i] == schedule;
    }
  }

  // ------------------------------------------------ what assembly accepts at all

  predicate FirstLastAt(fs: seq<Frame>, k: nat) {
    k < |fs| && fs[k].last && forall j | 0 <= j < k :: !fs[j].last
  }

  lemma {:induction false} VerdictCollecting(declared: int, fs: seq<Frame>)
    requires declared >= 0
    ensures Verdict(declared, fs).Collecting? <==>
            |Body(fs)| <= declared && forall j | 0 <= j < |fs| :: !fs[j].last
    ensures Verdict(declared, fs).Collecting? ==> Verdict(declared, fs).buf == Body(fs)
  {
    if fs != [] {
      VerdictCollecting(declared, fs[..|fs| - 1]);
    }
  }

  ghost predicate CompleteAt(declared: int, fs: seq<Frame>, b: seq<byte>, k: nat) {
    FirstLastAt(fs, k) && |Body(fs[..k + 1])| == declared && Body(fs[..k + 1]) == b
  }

  /** Only the new last frame can complete more than the ones before did. */
  lemma CompletionGrows(declared: int, fs: seq<Frame>, b: seq<byte>, k: nat)
    requires fs != [] && k < |fs| - 1
    ensures CompleteAt(declared, fs, b, k) <==> CompleteAt(declared, fs[..|fs| - 1], b, k)
  {
    hide Body;
    assert fs[..|fs| - 1][..k + 1] == fs[..k + 1];
  }

  /** A list of frames is assembled exactly when the frames up to the first Last one
      have the declared total length; order numbers and ids play no part. */
  lemma {:induction false} AcceptedExactly(declared: int, fs: seq<Frame>, b: seq<byte>)
    requires declared >= 0
    ensures Verdict(declared, fs) == Assembled(b) <==>
            exists k: nat :: FirstLastAt(fs, k) && |Body(fs[..k + 1])| == declared && Body(fs[..k + 1]) == b
  {
    CompletedExactly(declared, fs, b);
    hide Verdict, Body;
    if k: nat :| CompleteAt(declared, fs, b, k) {
      assert FirstLastAt(fs, k) && |Body(fs[..k + 1])| == declared && Body(fs[..k + 1]) == b;
    }
    if k: nat :| FirstLastAt(fs, k) && |Body(fs[..k + 1])| == declared && Body(fs[..k + 1]) == b {
      assert CompleteAt(declared, fs, b, k);
    }
  }

  lemma {:induction false} CompletedExactly(declared: int, fs: seq<Frame>, b: seq<byte>)
    requires declared >= 0
    ensures Verdict(declared, fs) == Assembled(b) <==> exists k: nat :: CompleteAt(declared, fs, b, k)
  {
    if fs != [] {
      var m := |fs| - 1;
      var init := fs[..m];
      CompletedExactly(declared, init, b);
      VerdictCollecting(declared, init);
      forall k: nat | k < m
        ensures CompleteAt(declared, fs, b, k) <==> CompleteAt(declared, init, b, k)
      {
        CompletionGrows(declared, fs, b, k);
      }
      CompletesNow(declared, fs, b);
      hide Body, FirstLastAt, CompleteAt, Verdict;
      if k: nat :| CompleteAt(declared, init, b, k) {
        OnlyWithin(declared, init, b, k);
        assert CompleteAt(declared, fs, b, k);
      }
      if k: nat :| CompleteAt(declared, fs, b, k) {
        OnlyWithin(declared, fs, b, k);
      }
    }
  }

  lemma OnlyWithin(declared: int, fs: seq<Frame>, b: seq<byte>, k: nat)
    requires CompleteAt(declared, fs, b, k)
    ensures k < |fs|
  {
  }

  /** The last frame decides exactly when those before it are still being collected. */
  lemma CompletesNow(declared: int, fs: seq<Frame>, b: seq<byte>)
    requires declared >= 0 && fs != []
    ensures var m := |fs| - 1;
      && (CompleteAt(declared, fs, b, m) ==> Verdict(declared, fs) == Assembled(b))
      && (Verdict(declared, fs) == Assembled(b) ==>
            CompleteAt(declared, fs, b, m) || Verdict(declared, fs[..m]) == Assembled(b))
      && (Verdict(declared, fs[..m]) == Assembled(b) ==> Verdict(declared, fs) == Assembled(b))
  {
    var m := |fs| - 1;
    VerdictCollecting(declared, fs[..m]);
    assert fs[..m + 1] == fs && Body(fs) == Body(fs[..m]) + fs[m].payload;
  }

  /** The first frames to pass the declared length, none of them Last before. */
  predicate PassesAt(declared: int, fs: seq<Frame>, k: nat) {
    k < |fs| && |Body(fs[..k])| <= declared < |Body(fs[..k + 1])| && forall j | 0 <= j < k :: !fs[j].last
  }

  lemma {:induction false} LongerBody(fs: seq<Frame>, i: nat, j: nat)
    requires i <= j <= |fs|
    ensures |Body(fs[..i])| <= |Body(fs[..j])|
  {
    if i < j {
      LongerBody(fs, i, j - 1);
      assert fs[..j] == fs[..j - 1] + [fs[j - 1]];
      BodyAppend(fs[..j - 1], fs[j - 1]);
    }
  }

  ghost predicate TooLongBy(declared: int, fs: seq<Frame>) {
    exists k: nat :: PassesAt(declared, fs, k)
  }

  ghost predicate TooShortBy(declared: int, fs: seq<Frame>) {
    exists k: nat :: FirstLastAt(fs, k) && |Body(fs[..k + 1])| < declared
  }

  /** Only the new last frame can decide more than the ones before did. */
  lemma ReasonsGrow(declared: int, fs: seq<Frame>)
    requires fs != []
    ensures var init, m := fs[..|fs| - 1], |fs| - 1;
      && (TooLongBy(declared, fs) <==> TooLongBy(declared, init) || PassesAt(declared, fs, m))
      && (TooShortBy(declared, fs) <==>
            TooShortBy(declared, init) || (FirstLastAt(fs, m) && |Body(fs[..m + 1])| < declared))
  {
    hide Body;
    var init, m := fs[..|fs| - 1], |fs| - 1;
    forall k: nat | k < m
      ensures PassesAt(declared, fs, k) <==> PassesAt(declared, init, k)
      ensures FirstLastAt(fs, k) <==> FirstLastAt(init, k)
      ensures fs[..k + 1] == init[..k + 1]
    {
      assert fs[..k] == init[..k] && fs[..k + 1] == init[..k + 1];
    }
  }

  /** Why a list of frames is turned down: too much before the first Last one or with it, or too little
      with it. */
  lemma {:induction false} RejectedExactly(declared: int, fs: seq<Frame>)
    requires declared >= 0
    ensures Verdict(declared, fs) == Aborted(TooLong) <==> TooLongBy(declared, fs)
    ensures Verdict(declared, fs) == Aborted(LengthMismatch) <==> TooShortBy(declared, fs)
    ensures Verdict(declared, fs).Aborted? ==> Verdict(declared, fs).why in {TooLong, LengthMismatch}
  {
    if fs != [] {
      var init, m := fs[..|fs| - 1], |fs| - 1;
      RejectedExactly(declared, init);
      ReasonsGrow(declared, fs);
      VerdictCollecting(declared, init);
      assert fs[..m + 1] == fs && fs[..m] == init;
      if Verdict(declared, init).Assembled? {
        AssembledDecides(declared, fs);
      } else if Verdict(declared, init).Aborted? {
        RejectionDecides(declared, fs);
      } else {
        assert forall j | 0 <= j < m :: !fs[j].last;
      }
      hide Body, TooLongBy, TooShortBy;
    }
  }

  lemma AssembledDecides(declared: int, fs: seq<Frame>)
    requires declared >= 0 && fs != [] && Verdict(declared, fs[..|fs| - 1]).Assembled?
    ensures !PassesAt(declared, fs, |fs| - 1) && !FirstLastAt(fs, |fs| - 1)
  {
    var init := fs[..|fs| - 1];
    var b := Verdict(declared, init).body;
    AcceptedExactly(declared, init, b);
    hide Body, Verdict;
    var k: nat :| FirstLastAt(init, k) && |Body(init[..k + 1])| == declared && Body(init[..k + 1]) == b;
    assert fs[k].last;
  }

  lemma RejectionDecides(declared: int, fs: seq<Frame>)
    requires fs != [] && (TooLongBy(declared, fs[..|fs| - 1]) || TooShortBy(declared, fs[..|fs| - 1]))
    ensures var m := |fs| - 1;
      !PassesAt(declared, fs, m) && !(FirstLastAt(fs, m) && |Body(fs[..m + 1])| < declared)
  {
    hide Body;
    var init, m := fs[..|fs| - 1], |fs| - 1;
    if TooShortBy(declared, init) {
      var k: nat :| FirstLastAt(init, k) && |Body(init[..k + 1])| < declared;
      assert fs[k].last;
    } else {
      var k: nat :| PassesAt(declared, init, k);
      assert init[..k + 1] == fs[..k + 1];
      LongerBody(fs, k + 1, m);
      LongerBody(fs, m, m + 1);
    }
  }

  predicate AllCarry(fs: seq<Frame>) {
    forall i | 0 <= i < |fs| :: fs[i].payload != []
  }

  lemma {:induction false} BodyOfSubseq(a: seq<Frame>, b: seq<Frame>)
    requires Subseq(a, b)
    ensures |Body(a)| <= |Body(b)|
    ensures |Body(a)| == |Body(b)| && AllCarry(b) ==> a == b
    decreases |b|
  {
    if b != [] {
      var b', y := b[..|b| - 1], b[|b| - 1];
      assert AllCarry(b) ==> AllCarry(b') && y.payload != [];
      assert b == b' + [y];
      if a != [] && a[|a| - 1] == y && Subseq(a[..|a| - 1], b') {
        BodyOfSubseq(a[..|a| - 1], b');
        assert a == a[..|a| - 1] + [y];
      } else {
        BodyOfSubseq(a, b');
      }
      hide AllCarry;
    }
  }

  /** Of all ways to lose frames of a body, only "none" is assembled, and then it is the body. */
  lemma {:induction false} LossDetected(id: Id16, body: seq<byte>, fs: seq<Frame>)
    requires Subseq(fs, Chunks(id, body))
    ensures Verdict(|body|, fs).Assembled? <==> fs == Chunks(id, body)
    ensures fs == Chunks(id, body) ==> Verdict(|body|, fs) == Assembled(body)
  {
    if fs == Chunks(id, body) {
      AllChunksAccepted(id, body);
    }
    if Verdict(|body|, fs).Assembled? {
      var b := Verdict(|body|, fs).body;
      AcceptedExactly(|body|, fs, b);
      var k: nat :| FirstLastAt(fs, k) && |Body(fs[..k + 1])| == |body| && Body(fs[..k + 1]) == b;
      hide Verdict, Subseq;
      SubseqPrefix(fs[..k + 1], fs);
      SubseqTrans(fs[..k + 1], fs, Chunks(id, body));
      FullLengthIsAll(id, body, fs[..k + 1]);
      SubseqLength(fs, Chunks(id, body));
    }
  }

  lemma AllChunksAccepted(id: Id16, body: seq<byte>)
    ensures Verdict(|body|, Chunks(id, body)) == Assembled(body)
  {
    var all := Chunks(id, body);
    var m := |all| - 1;
    ChunkLaws(id, body);
    assert ChunkShape(id, body, all[m], m);
    assert forall k | 0 <= k < m :: !all[k].last by {
      assert forall k | 0 <= k < m :: ChunkShape(id, body, all[k], k);
    }
    hide Verdict, Body, ChunkShape, Chunks;
    assert FirstLastAt(all, m) && all[..m + 1] == all;
    AcceptedExactly(|body|, all, body);
  }

  /** Non-empty frames of a body with the total length of the body are all its frames. */
  lemma FullLengthIsAll(id: Id16, body: seq<byte>, got: seq<Frame>)
    requires got != [] && Subseq(got, Chunks(id, body)) && |Body(got)| == |body|
    ensures got == Chunks(id, body)
  {
    var all := Chunks(id, body);
    ChunkLaws(id, body);
    if body == [] {
      SubseqLength(got, all);
    } else {
      assert AllCarry(all) by {
        assert forall k | 0 <= k < |all| :: ChunkShape(id, body, all[k], k);
      }
      hide Subseq, Body;
      BodyOfSubseq(got, all);
    }
  }

  /** Chunk, encode, decode, assemble: the identity on every body. */
  lemma {:induction false} BodyRoundTrip(id: Id16, body: seq<byte>)
    ensures AllValid(Chunks(id, body))
    ensures ParseAll(EncodeAll(Chunks(id, body))).Success?
    ensures Verdict(|body|, ParseAll(EncodeAll(Chunks(id, body))).value) == Assembled(body)
  {
    ChunkLaws(id, body);
    StreamRoundTrip(Chunks(id, body));
    SubseqRefl(Chunks(id, body));
    LossDetected(id, body, Chunks(id, body));
  }

  // -------------------------------------------- every interleaving on the agent

  ghost predicate InboundInv(s: Inbound, declared: int, arrived: seq<Frame>) {
    && s.arrived == arrived
    && |s.queue| <= BODY_QUEUE
    && InOrder(s.taken, s.queue, s.arrived, s.lost)
    && (s.lost > 0 ==> s.canceled || s.closed)
    && (s.closed ==> !s.asm.Collecting?)
    && (s.asm == Verdict(declared, s.taken)
        || (s.asm.Aborted? && s.asm.why in {Canceled, TimedOut} && Verdict(declared, s.taken).Collecting?))
  }

  lemma ArrivalKept(s: Inbound, declared: int, f: Frame, pick: bool)
    requires InboundInv(s, declared, s.arrived)
    ensures InboundInv(InboundStep(s, declared, Arrive(f, pick)), declared, s.arrived + [f])
  {
    hide InOrder, Verdict;
    InOrderPush(s.taken, s.queue, s.arrived, s.lost, f);
    InOrderRefuse(s.taken, s.queue, s.arrived, s.lost, f);
  }

  lemma TakingKept(s: Inbound, declared: int)
    requires InboundInv(s, declared, s.arrived) && s.asm.Collecting? && s.queue != []
    ensures InboundInv(InboundStep(s, declared, TakeFrame), declared, s.arrived)
  {
    hide InOrder;
    InOrderTake(s.taken, s.queue, s.arrived, s.lost);
    var taken := s.taken + [s.queue[0]];
    assert taken[..|s.taken|] == s.taken;
  }

  lemma InboundKept(s: Inbound, declared: int, arrived: seq<Frame>, e: InboundEvent)
    requires InboundInv(s, declared, arrived)
    ensures InboundInv(InboundStep(s, declared, e), declared, arrived + if e.Arrive? then [e.f] else [])
  {
    hide InOrder, Verdict;
    if e.Arrive? {
      ArrivalKept(s, declared, e.f, e.pickQueue);
    } else if e.TakeFrame? && s.asm.Collecting? && s.queue != [] {
      TakingKept(s, declared);
    } else {
      assert arrived + [] == arrived;
    }
  }

  lemma {:induction false} InboundReachable(declared: int, es: seq<InboundEvent>)
    ensures InboundInv(InboundRun(FreshInbound, declared, es), declared, Arrivals(es))
  {
    if es != [] {
      var before := es[..|es| - 1];
      InboundReachable(declared, before);
      InboundKept(InboundRun(FreshInbound, declared, before), declared, Arrivals(before), es[|es| - 1]);
    }
  }

  /** Arrivals that met sixteen queued frames while the entry was open. */
  function MetFullQueue(s: Inbound, declared: int, es: seq<InboundEvent>): nat {
    if es == [] then 0 else
    var t, e := InboundRun(s, declared, es[..|es| - 1]), es[|es| - 1];
    MetFullQueue(s, declared, es[..|es| - 1]) + if e.Arrive? && |t.queue| >= 16 && !t.closed then 1 else 0
  }

  /** Arrivals that met a closed entry and were not settled for the queue, or for which it had no room. */
  function MetClosed(s: Inbound, declared: int, es: seq<InboundEvent>): nat {
    if es == [] then 0 else
    var t, e := InboundRun(s, declared, es[..|es| - 1]), es[|es| - 1];
    MetClosed(s, declared, es[..|es| - 1])
    + if e.Arrive? && t.closed && (|t.queue| >= 16 || !e.pickQueue) then 1 else 0
  }

  /** Assembly was over when a Finish came. */
  predicate Finished(s: Inbound, declared: int, es: seq<InboundEvent>) {
    es != [] && (Finished(s, declared, es[..|es| - 1])
                 || (es[|es| - 1].Finish? && !InboundRun(s, declared, es[..|es| - 1]).asm.Collecting?))
  }

  lemma ArrivalSettled(s: Inbound, declared: int, e: InboundEvent)
    ensures var t := InboundStep(s, declared, e);
      && t.lost == s.lost + (if e.Arrive? && |s.queue| >= 16 && !s.closed then 1 else 0)
                          + (if e.Arrive? && s.closed && (|s.queue| >= 16 || !e.pickQueue) then 1 else 0)
      && (t.canceled <==> s.canceled || e.Cancel? || (e.Arrive? && |s.queue| >= 16 && !s.closed))
      && (t.closed <==> s.closed || (e.Finish? && !s.asm.Collecting?))
      && (t.asm == Aborted(Canceled) && s.asm != t.asm ==> e.SeeCancel? && s.canceled)
      && (t.asm == Aborted(TimedOut) && s.asm != t.asm ==> e.SeeTimeout?)
  {
  }

  /** Over every run: frames are lost exactly when they meet sixteen queued ones or a closed entry, the
      request is canceled exactly by a Cancel or by a frame that meets a full queue while it is open,
      and its entry closes exactly when it finishes after assembly. A cancellation is seen only after one. */
  lemma {:induction false} LossesByCause(declared: int, es: seq<InboundEvent>)
    ensures var s := InboundRun(FreshInbound, declared, es);
      && s.lost == MetFullQueue(FreshInbound, declared, es) + MetClosed(FreshInbound, declared, es)
      && (s.canceled <==> Cancel in es || MetFullQueue(FreshInbound, declared, es) > 0)
      && (s.closed <==> Finished(FreshInbound, declared, es))
      && (s.asm == Aborted(Canceled) ==> s.canceled && SeeCancel in es)
      && (s.asm == Aborted(TimedOut) ==> SeeTimeout in es)
  {
    if es != [] {
      var init, e := es[..|es| - 1], es[|es| - 1];
      LossesByCause(declared, init);
      ArrivalSettled(InboundRun(FreshInbound, declared, init), declared, e);
      assert forall x :: x in es <==> x in init || x == e;
      hide InboundStep;
    }
  }

  function Repeated(n: nat, e: InboundEvent): seq<InboundEvent> {
    if n == 0 then [] else Repeated(n - 1, e) + [e]
  }

  /** n frames f have come to a fresh entry: sixteen are queued, one more is lost and cancels the request. */
  ghost predicate FilledWith(s: Inbound, f: Frame, n: nat) {
    && |s.queue| == (if n <= 16 then n else 16) && (forall q | q in s.queue :: q == f)
    && s.lost == (if n <= 16 then 0 else 1) && (s.canceled <==> n == 17)
    && !s.closed && s.asm == Collecting([])
  }

  lemma FilledStep(s: Inbound, declared: int, f: Frame, pick: bool, n: nat)
    requires n < 17 && FilledWith(s, f, n)
    ensures FilledWith(InboundStep(s, declared, Arrive(f, pick)), f, n + 1)
  {
  }

  /** On a fresh entry sixteen frames are queued; the seventeenth is lost and cancels the request. */
  lemma {:induction false} SeventeenthCancels(declared: int, f: Frame, pick: bool, n: nat)
    requires n <= 17
    ensures FilledWith(InboundRun(FreshInbound, declared, Repeated(n, Arrive(f, pick))), f, n)
  {
    if n > 0 {
      var es := Repeated(n - 1, Arrive(f, pick));
      assert Repeated(n, Arrive(f, pick))[..|es|] == es;
      SeventeenthCancels(declared, f, pick, n - 1);
      FilledStep(InboundRun(FreshInbound, declared, es), declared, f, pick, n - 1);
      hide InboundStep, FilledWith;
    }
  }

  /** Whatever the interleaving of arrivals, cancellation, timeouts and queue overflow, and
      whichever of the relay's frames reach the agent: a body that is handed on is the body sent. */
  lemma {:induction false} BodyNeverCorrupted(id: Id16, body: seq<byte>, es: seq<InboundEvent>)
    requires Subseq(Arrivals(es), Chunks(id, body))
    ensures var s := InboundRun(FreshInbound, |body|, es);
      s.asm.Assembled? ==> s.asm.body == body && s.taken == Arrivals(es) == Chunks(id, body) && s.lost == 0
  {
    var s := InboundRun(FreshInbound, |body|, es);
    InboundReachable(|body|, es);
    if s.asm.Assembled? {
      hide Subseq, Verdict, InboundRun;
      SubseqPrefix(s.taken, s.taken + s.queue);
      SubseqTrans(s.taken, s.taken + s.queue, s.arrived);
      SubseqTrans(s.taken, s.arrived, Chunks(id, body));
      LossDetected(id, body, s.taken);
      SubseqLength(s.arrived, Chunks(id, body));
      SubseqLength(s.taken, s.arrived);
    }
  }

  /** Conversely, when all frames have arrived and been taken, and neither a cancel nor a
      timeout was seen, the body has been assembled. */
  lemma {:induction false} CompleteBodyAssembled(id: Id16, body: seq<byte>, es: seq<InboundEvent>)
    requires Arrivals(es) == Chunks(id, body)
    ensures var s := InboundRun(FreshInbound, |body|, es);
      s.lost == 0 && s.queue == [] && s.asm !in {Aborted(Canceled), Aborted(TimedOut)}
      ==> s.asm == Assembled(body)
  {
    InboundReachable(|body|, es);
    SubseqRefl(Chunks(id, body));
    LossDetected(id, body, Chunks(id, body));
    var s := InboundRun(FreshInbound, |body|, es);
    assert s.queue == [] ==> s.taken + s.queue == s.taken;
  }

  // -------------------------------------------------------- order is not checked

  lemma {:induction false} BodySlice(fs: seq<Frame>, k: nat)
    requires k < |fs| && forall j | 0 <= j < |fs| - 1 :: |fs[j].payload| == CHUNK
    ensures (|fs| - 1) * CHUNK + |fs[|fs| - 1].payload| == |Body(fs)|
    ensures k < |fs| - 1 ==> Body(fs)[k * CHUNK..(k + 1) * CHUNK] == fs[k].payload
  {
    var m := |fs| - 1;
    if m > 0 {
      BodySlice(fs[..m], if k < m then k else 0);
      assert |Body(fs[..m])| == m * CHUNK;
      if k == m - 1 {
        assert Body(fs[..m]) == Body(fs[..m][..m - 1]) + fs[k].payload;
        if m > 1 {
          BodySlice(fs[..m - 1], 0);
        }
        assert fs[..m][..m - 1] == fs[..m - 1];
        assert |Body(fs[..m - 1])| == k * CHUNK;
      }
    }
  }

  /** p lists each index below n once. */
  ghost predicate Permutation(p: seq<nat>, n: nat) {
    && |p| == n
    && (forall i | 0 <= i < n :: p[i] < n)
    && (forall i, j | 0 <= i < j < n :: p[i] != p[j])
    && (forall k | 0 <= k < n :: k in p)
  }

  /** The frames in the order given by p. */
  function Arranged(fs: seq<Frame>, p: seq<nat>): (gs: seq<Frame>)
    requires forall i | 0 <= i < |p| :: p[i] < |fs|
    ensures |gs| == |p|
  {
    seq(|p|, i requires 0 <= i < |p| => fs[p[i]])
  }

  lemma {:induction false} SameLengthBodies(fs: seq<Frame>, gs: seq<Frame>)
    requires |fs| == |gs| && forall k | 0 <= k < |fs| :: |fs[k].payload| == |gs[k].payload|
    ensures |Body(fs)| == |Body(gs)|
    ensures (forall k | 0 <= k < |fs| :: fs[k].payload == gs[k].payload) ==> Body(fs) == Body(gs)
  {
    if fs != [] {
      SameLengthBodies(fs[..|fs| - 1], gs[..|gs| - 1]);
    }
  }

  /** All frames but the last carry a whole chunk, and exactly the last is marked Last. */
  ghost predicate Chunked(fs: seq<Frame>) {
    && fs != []
    && (forall k | 0 <= k < |fs| - 1 :: |fs[k].payload| == CHUNK && !fs[k].last)
    && fs[|fs| - 1].last && |fs[|fs| - 1].payload| <= CHUNK
  }

  lemma ChunksAreChunked(id: Id16, body: seq<byte>)
    ensures Chunked(Chunks(id, body)) && Body(Chunks(id, body)) == body
  {
    var fs := Chunks(id, body);
    ChunkLaws(id, body);
    assert forall k | 0 <= k < |fs| :: ChunkShape(id, body, fs[k], k);
    hide Body;
  }

  /** The body's frames, delivered in any order p whatever. With the last frame still last they are
      assembled, and to the body exactly when every place holds a frame with the bytes that belong there;
      otherwise assembly stops with a length mismatch. */
  lemma {:induction false} ReorderingUndetected(id: Id16, body: seq<byte>, p: seq<nat>)
    requires Permutation(p, ChunkCount(|body|))
    ensures var fs := Chunks(id, body); var gs := Arranged(fs, p); var v := Verdict(|body|, gs);
      if p[|p| - 1] == |p| - 1
      then v.Assembled? && (v.body == body <==> forall k | 0 <= k < |p| :: gs[k].payload == fs[k].payload)
      else v == Aborted(LengthMismatch)
  {
    var fs := Chunks(id, body);
    ChunksAreChunked(id, body);
    hide Chunks, Verdict;
    if p[|p| - 1] == |p| - 1 {
      LastStays(fs, p);
    } else {
      LastMoves(fs, p);
    }
  }

  /** Two bodies cut alike are equal exactly when they agree piece by piece. */
  lemma {:induction false} BodiesAgree(fs: seq<Frame>, gs: seq<Frame>)
    requires |fs| == |gs| > 0 && gs[|fs| - 1] == fs[|fs| - 1]
    requires forall k | 0 <= k < |fs| - 1 :: |fs[k].payload| == CHUNK == |gs[k].payload|
    ensures |Body(gs)| == |Body(fs)|
    ensures Body(gs) == Body(fs) <==> forall k | 0 <= k < |fs| :: gs[k].payload == fs[k].payload
  {
    SameLengthBodies(fs, gs);
    if Body(gs) == Body(fs) {
      forall k | 0 <= k < |fs| - 1
        ensures gs[k].payload == fs[k].payload
      {
        BodySlice(fs, k);
        BodySlice(gs, k);
      }
    }
    hide Body;
  }

  lemma {:induction false} LastStays(fs: seq<Frame>, p: seq<nat>)
    requires Chunked(fs) && Permutation(p, |fs|) && p[|p| - 1] == |p| - 1
    ensures var gs := Arranged(fs, p); var v := Verdict(|Body(fs)|, gs);
      v.Assembled? && (v.body == Body(fs) <==> forall k | 0 <= k < |fs| :: gs[k].payload == fs[k].payload)
  {
    var gs := Arranged(fs, p);
    var m := |fs| - 1;
    assert forall k | 0 <= k < m :: p[k] != m && |gs[k].payload| == CHUNK && !gs[k].last;
    assert gs[m] == fs[m] && gs[..m + 1] == gs;
    assert FirstLastAt(gs, m);
    hide Body, Verdict, Arranged, Permutation;
    BodiesAgree(fs, gs);
    AcceptedExactly(|Body(fs)|, gs, Body(gs));
  }

  lemma {:induction false} LastMoves(fs: seq<Frame>, p: seq<nat>)
    requires Chunked(fs) && Permutation(p, |fs|) && p[|p| - 1] != |p| - 1
    ensures Verdict(|Body(fs)|, Arranged(fs, p)) == Aborted(LengthMismatch)
  {
    var gs := Arranged(fs, p);
    var m := |fs| - 1;
    assert m in p;
    var j :| 0 <= j < |p| && p[j] == m;
    assert forall k | 0 <= k < j :: p[k] != m && |gs[k].payload| == CHUNK && !gs[k].last;
    assert gs[j] == fs[m] && j < m;
    hide Arranged, Permutation, Verdict, Body;
    CutShort(fs, gs[..j + 1]);
    StopsShort(|Body(fs)|, gs, j);
  }

  lemma CutShort(fs: seq<Frame>, got: seq<Frame>)
    requires 0 < |got| < |fs| && got[|got| - 1] == fs[|fs| - 1]
    requires forall k | 0 <= k < |fs| - 1 :: |fs[k].payload| == CHUNK
    requires forall k | 0 <= k < |got| - 1 :: |got[k].payload| == CHUNK
    ensures |Body(got)| < |Body(fs)|
  {
    BodySlice(fs, 0);
    BodySlice(got, 0);
    hide Body;
  }

  /** A Last frame that comes before the declared length is reached ends assembly. */
  lemma {:induction false} StopsShort(declared: int, fs: seq<Frame>, j: nat)
    requires FirstLastAt(fs, j) && |Body(fs[..j + 1])| < declared
    ensures Verdict(declared, fs) == Aborted(LengthMismatch)
  {
    var m := |fs| - 1;
    if j < m {
      assert fs[..m][..j + 1] == fs[..j + 1];
      StopsShort(declared, fs[..m], j);
    } else {
      assert fs[..m + 1] == fs;
      VerdictCollecting(declared, fs[..m]);
    }
  }

  /** A body of three chunks whose first two differ is one the agent can be made to corrupt
      by exchanging two frames. */
  lemma ReorderingCorrupts(id: Id16)
    ensures var body := seq(2 * CHUNK + 1, k => if k < CHUNK then 0 else 1);
      && ChunkCount(|body|) == 3
      && Verdict(|body|, Arranged(Chunks(id, body), [1, 0, 2])).Assembled?
      && Verdict(|body|, Arranged(Chunks(id, body), [1, 0, 2])).body != body
  {
    var body: seq<byte> := seq(2 * CHUNK + 1, k => if k < CHUNK then 0 else 1);
    var p: seq<nat> := [1, 0, 2];
    assert p[0] == 1 && p[1] == 0 && p[2] == 2;
    ReorderingUndetected(id, body, p);
    hide Verdict;
    assert Chunks(id, body)[0].payload[0] == body[0] == 0;
    assert Chunks(id, body)[1].payload[0] == body[CHUNK] == 1;
    assert Arranged(Chunks(id, body), p)[0].payload != Chunks(id, body)[0].payload;
  }
}
