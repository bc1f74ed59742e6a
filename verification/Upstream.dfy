/** The agent's half of a response: reading the local model's answer and sending it to the
    relay as one headers message, data frames and one closing message (internal/agent/agent.go). */
module Upstream {
  import opened Basics
  import opened Errors
  import opened Frames
  import opened Response

  datatype ReadEnd = More | Eof | Broken(code: Code)

  /** One return of resp.Body.Read: some bytes, and how it ended. code is the one the agent derives
      from its context when the read failed. */
  datatype Read = Read(data: seq<byte>, end: ReadEnd)

  /** The reads of one response: each fits the agent's 256 KiB buffer, and only the last may end it. */
  predicate Readable(rs: seq<Read>) {
    && (forall i | 0 <= i < |rs| :: |rs[i].data| <= MAX_FRAME_PAYLOAD)
    && (forall i | 0 <= i < |rs| - 1 :: rs[i].end.More?)
  }

  function Bytes(rs: seq<Read>): seq<byte> {
    if rs == [] then [] else Bytes(rs[..|rs| - 1]) + rs[|rs| - 1].data
  }

  /** The k-th data frame of a response, counted from 0. */
  function FrameFor(id: Id16, k: nat, r: Read): Frame {
    NewFrame(FRAME_RESPONSE_BODY, id, (k + 1) % 0x1_0000_0000, r.data).(first := k == 0, last := r.end.Eof?)
  }

  /** The data frames sent for the reads; an empty read sends none. */
  function FramesFor(id: Id16, rs: seq<Read>): seq<Frame> {
    if rs == [] then [] else
    var sent, r := FramesFor(id, rs[..|rs| - 1]), rs[|rs| - 1];
    if r.data == [] then sent
    else sent + [FrameFor(id, |sent|, r)]
  }

  function Closing(rs: seq<Read>): seq<AgentMsg> {
    if rs == [] then [] else
    match rs[|rs| - 1].end
    case More => []
    case Eof => [MDone]
    case Broken(code) => [MError(code)]
  }

  function Messages(fs: seq<Frame>): (ms: seq<AgentMsg>)
    ensures |ms| == |fs|
  {
    seq(|fs|, i requires 0 <= i < |fs| => MFrame(fs[i]))
  }

  function Transcript(id: Id16, status: int, rs: seq<Read>): seq<AgentMsg> {
    [MHeaders(status)] + Messages(FramesFor(id, rs)) + Closing(rs)
  }

  /** The agent's end of the connection; it carries `room` more messages before it is lost. */
  class AgentLink {
    var sent: seq<AgentMsg>
    var room: nat

    constructor (room: nat)
      ensures sent == [] && this.room == room
    {
      sent, this.room := [], room;
    }

    method Send(m: AgentMsg) returns (ok: bool)
      modifies this
      ensures ok == (old(room) > 0)
      ensures sent == if ok then old(sent) + [m] else old(sent)
      ensures room == if ok then old(room) - 1 else 0
    {
      ok := room > 0;
      if ok {
        sent, room := sent + [m], room - 1;
      }
    }
  }

  /** Send the k-th message of t after the ones before it. */
  method SendNext(link: AgentLink, ghost base: seq<AgentMsg>, ghost t: seq<AgentMsg>, ghost k: nat, m: AgentMsg)
    returns (ok: bool)
    requires k < |t| && t[k] == m && link.sent == base + t[..k]
    modifies link
    ensures ok == (old(link.room) > 0)
    ensures ok ==> link.sent == base + t[..k + 1] && link.room == old(link.room) - 1
    ensures !ok ==> link.sent == base + t[..k]
  {
    ok := link.Send(m);
    assert t[..k + 1] == t[..k] + [m];
  }

  method DataFrame(id: Id16, ghost k: nat, seqno: uint32, first: bool, r: Read) returns (f: Frame)
    requires seqno == Wrapped(k + 1) && first == (k == 0)
    ensures f == FrameFor(id, k, r)
  {
    f := NewFrame(FRAME_RESPONSE_BODY, id, seqno, r.data);
    f := f.(first := first);
    if r.end.Eof? {
      f := f.(last := true);
    }
  }

  /** A 32-bit counter that has been incremented k times. */
  function Wrapped(k: nat): uint32 {
    k % 0x1_0000_0000
  }

  lemma NextSeqno(k: nat)
    ensures (Wrapped(k) + 1) % 0x1_0000_0000 == Wrapped(k + 1)
  {
  }

  lemma TranscriptLayout(id: Id16, status: int, rs: seq<Read>)
    ensures var t, fs := Transcript(id, status, rs), FramesFor(id, rs);
      && |t| == 1 + |fs| + |Closing(rs)|
      && t[0] == MHeaders(status)
      && (forall k | 0 <= k < |fs| :: t[k + 1] == MFrame(fs[k]))
      && t[1 + |fs|..] == Closing(rs)
  {
  }

  /** The state of the read loop before read i. */
  ghost predicate ReadingAt(id: Id16, status: int, rs: seq<Read>, i: nat, k: nat, sent: seq<AgentMsg>,
                            base: seq<AgentMsg>)
  {
    && i <= |rs| && k == |FramesFor(id, rs[..i])| && k + 1 <= |Transcript(id, status, rs)|
    && sent == base + Transcript(id, status, rs)[..k + 1]
  }

  /** Read i sends its frame, or none. */
  lemma ReadSends(id: Id16, status: int, rs: seq<Read>, i: nat, k: nat)
    requires i < |rs| && k == |FramesFor(id, rs[..i])|
    ensures var t := Transcript(id, status, rs);
      if rs[i].data == [] then |FramesFor(id, rs[..i + 1])| == k <= |FramesFor(id, rs)|
      else |FramesFor(id, rs[..i + 1])| == k + 1 <= |FramesFor(id, rs)|
           && k + 1 < |t| && t[k + 1] == MFrame(FrameFor(id, k, rs[i]))
  {
    NextFrame(id, rs, i);
    TranscriptLayout(id, status, rs);
    hide Transcript, FramesFor, FrameFor;
  }

  /** One turn of the read loop after Read returned r: its frame is sent, or there is none. */
  method ForwardRead(link: AgentLink, ghost base: seq<AgentMsg>, id: Id16, ghost status: int, ghost rs: seq<Read>,
                     ghost i: nat, ghost k: nat, r: Read, seqno: uint32, first: bool)
    returns (sent: bool, next: uint32)
    requires i < |rs| && rs[i] == r && ReadingAt(id, status, rs, i, k, link.sent, base)
    requires seqno == Wrapped(k) && first == (k == 0)
    modifies link
    ensures var n := if r.data == [] then 0 else 1;
      && sent == (old(link.room) >= n) && k + n <= |FramesFor(id, rs)|
      && (sent ==> ReadingAt(id, status, rs, i + 1, k + n, link.sent, base)
                   && link.room == old(link.room) - n && next == Wrapped(k + n))
      && (!sent ==> link.sent == old(link.sent) && old(link.room) == 0)
  {
    ReadSends(id, status, rs, i, k);
    NextSeqno(k);
    hide Transcript, FramesFor, FrameFor, Wrapped;
    sent, next := true, seqno;
    if |r.data| > 0 {
      next := (seqno + 1) % 0x1_0000_0000;
      var f := DataFrame(id, k, next, first, r);
      sent := SendNext(link, base, Transcript(id, status, rs), k + 1, MFrame(f));
    }
  }

  /** The read loop of serveRequest: sends a frame for every non-empty read, up to the read that
      ends the body. */
  method ForwardBody(link: AgentLink, ghost base: seq<AgentMsg>, id: Id16, status: int, rs: seq<Read>)
    returns (sent: bool, end: ReadEnd)
    requires Readable(rs)
    requires link.sent == base + Transcript(id, status, rs)[..1]
    modifies link
    ensures var n := |FramesFor(id, rs)|;
      && sent == (old(link.room) >= n)
      && link.sent == base + Transcript(id, status, rs)[..1 + if sent then n else old(link.room)]
      && (sent ==> link.room == old(link.room) - n && end == if rs == [] then More else rs[|rs| - 1].end)
  {
    TranscriptLayout(id, status, rs);
    assert rs[..0] == [] && rs[..|rs|] == rs;
    assert FramesFor(id, rs[..0]) == [] && Wrapped(0) == 0;
    assert forall j | 0 <= j < |rs| - 1 :: rs[j].end.More?;
    hide Transcript, FramesFor, FrameFor, Readable, Wrapped;
    sent, end := true, More;
    var first := true;
    var seqno: uint32 := 0;
    var i := 0;
    ghost var k := 0;
    while i < |rs| && end.More?
      invariant ReadingAt(id, status, rs, i, k, link.sent, base) && k <= |FramesFor(id, rs)|
      invariant first == (k == 0) && seqno == Wrapped(k)
      invariant link.room + k == old(link.room)
      invariant end == if i == 0 then More else rs[i - 1].end
      invariant sent
    {
      var r := rs[i];
      sent, seqno := ForwardRead(link, base, id, status, rs, i, k, r, seqno, first);
      if !sent {
        return;
      }
      if |r.data| > 0 {
        first := false;
        k := k + 1;
      }
      end := r.end;
      i := i + 1;
    }
    assert i == |rs|;
  }

  /** serveRequest from the response headers on. ok says whether the request is counted as served. */
  method ServeResponse(link: AgentLink, id: Id16, status: int, rs: seq<Read>) returns (ok: bool)
    requires Readable(rs)
    modifies link
    ensures var t := Transcript(id, status, rs); var n := old(link.room);
      && link.sent == old(link.sent) + (if n < |t| then t[..n] else t)
      && (ok <==> n >= |t| && rs != [] && rs[|rs| - 1].end.Eof?)
  {
    ghost var base := link.sent;
    ghost var t := Transcript(id, status, rs);
    TranscriptLayout(id, status, rs);
    hide Transcript;
    assert t[..0] == [] && t[..|t|] == t;
    ok := SendNext(link, base, t, 0, MHeaders(status));
    if !ok {
      return;
    }
    var end;
    ok, end := ForwardBody(link, base, id, status, rs);
    if !ok {
      return;
    }
    ghost var k := 1 + |FramesFor(id, rs)|;
    assert !end.More? ==> t[k] == Closing(rs)[0];
    match end {
      case More => ok := false;
      case Broken(code) =>
        var _ := SendNext(link, base, t, k, MError(code));
        ok := false;
      case Eof => ok := SendNext(link, base, t, k, MDone);
    }
  }

  lemma {:induction false} FramesForPrefix(id: Id16, rs: seq<Read>, i: nat)
    requires i <= |rs|
    ensures FramesFor(id, rs[..i]) <= FramesFor(id, rs)
  {
    if i == |rs| {
      assert rs[..i] == rs;
    } else {
      FramesForPrefix(id, rs[..|rs| - 1], i);
      assert rs[..|rs| - 1][..i] == rs[..i];
    }
  }

  lemma NextFrame(id: Id16, rs: seq<Read>, i: nat)
    requires i < |rs|
    ensures var all, k := FramesFor(id, rs), |FramesFor(id, rs[..i])|;
      if rs[i].data == [] then
        k <= |all| && |FramesFor(id, rs[..i + 1])| == k
      else
        k < |all| && |FramesFor(id, rs[..i + 1])| == k + 1 && all[k] == FrameFor(id, k, rs[i])
  {
    FramesForPrefix(id, rs, i + 1);
    FramesForPrefix(id, rs, i);
    assert rs[..i + 1][..i] == rs[..i];
  }

  /** The frames of a response carry exactly the bytes read, and every one of them passes
      Encode and DecodeFrame unchanged. */
  lemma {:induction false} FramesCarryBytes(id: Id16, rs: seq<Read>)
    requires Readable(rs)
    ensures Body(FramesFor(id, rs)) == Bytes(rs)
    ensures AllValid(FramesFor(id, rs))
    ensures forall f | f in FramesFor(id, rs) :: f.id == id && DecodeBytes(EncodeBytes(f)) == (Success(f), [])
  {
    if rs != [] {
      var init, r := rs[..|rs| - 1], rs[|rs| - 1];
      FramesCarryBytes(id, init);
      if r.data != [] {
        var f := FramesFor(id, rs)[|FramesFor(id, init)|];
        BodyAppend(FramesFor(id, init), f);
        DecodeEncode(f, []);
        assert EncodeBytes(f) + [] == EncodeBytes(f);
      }
    }
  }

  lemma {:induction false} FramesOfMessages(fs: seq<Frame>)
    ensures FramesOf(Messages(fs)) == fs
  {
    if fs != [] {
      var init := fs[..|fs| - 1];
      FramesOfMessages(init);
      assert Messages(fs)[..|fs| - 1] == Messages(init);
      assert fs == init + [fs[|fs| - 1]];
    }
  }

  lemma FramesOfConcat(a: seq<AgentMsg>, b: seq<AgentMsg>)
    ensures FramesOf(a + b) == FramesOf(a) + FramesOf(b)
    decreases |b|
  {
    if b == [] {
      assert a + b == a;
    } else {
      assert (a + b)[..|a + b| - 1] == a + b[..|b| - 1];
      FramesOfConcat(a, b[..|b| - 1]);
    }
  }

  /** A transcript ends with Done exactly when the upstream body was read to its end, and its
      frames are those of the reads. */
  lemma TranscriptShape(id: Id16, status: int, rs: seq<Read>)
    requires Readable(rs) && rs != []
    ensures EndsWithDone(Transcript(id, status, rs)) <==> rs[|rs| - 1].end.Eof?
    ensures FramesOf(Transcript(id, status, rs)) == FramesFor(id, rs)
  {
    var fs := FramesFor(id, rs);
    FramesOfMessages(fs);
    FramesOfConcat([MHeaders(status)], Messages(fs));
    FramesOfConcat([MHeaders(status)] + Messages(fs), Closing(rs));
    assert FramesOf([MHeaders(status)]) == FramesOf([]) + [];
    assert |Closing(rs)| <= 1;
    assert Closing(rs) != [] ==> FramesOf(Closing(rs)) == FramesOf(Closing(rs)[..0]) + [];
  }

  /** The data of the reads that returned any. */
  function NonEmpty(rs: seq<Read>): seq<seq<byte>> {
    if rs == [] then []
    else NonEmpty(rs[..|rs| - 1]) + if rs[|rs| - 1].data == [] then [] else [rs[|rs| - 1].data]
  }

  /** One frame for each read that returned data: a response frame (type 2) with this id, raw, numbered from 1,
      the first marked First, and Last only a read that came together with the end. */
  lemma {:induction false} FramesInDetail(id: Id16, rs: seq<Read>)
    ensures var fs := FramesFor(id, rs);
      && |fs| == |NonEmpty(rs)|
      && (forall k | 0 <= k < |fs| ::
            && fs[k].payload == NonEmpty(rs)[k] && fs[k].typ == 2 && fs[k].id == id
            && fs[k].encoding == 0 && !fs[k].compressed
            && fs[k].seqno == (k + 1) % 0x1_0000_0000 && (fs[k].first <==> k == 0))
      && (Readable(rs) ==> forall k | 0 <= k < |fs| ::
            fs[k].last <==> k == |fs| - 1 && rs[|rs| - 1].end.Eof? && rs[|rs| - 1].data != [])
  {
    if rs != [] {
      var init, r := rs[..|rs| - 1], rs[|rs| - 1];
      FramesInDetail(id, init);
      assert Readable(rs) ==> Readable(init) && (init != [] ==> init[|init| - 1].end.More?);
    }
  }

  /** The whole transcript: headers, the frames, and at the end of the body Done, after a failed read the
      error with its code. */
  lemma TranscriptInDetail(id: Id16, status: int, rs: seq<Read>)
    ensures var t, n := Transcript(id, status, rs), |NonEmpty(rs)|;
      && |t| >= n + 1 && t[0] == MHeaders(status)
      && (forall k | 0 <= k < n :: t[k + 1].MFrame? && t[k + 1].f.payload == NonEmpty(rs)[k])
      && (if rs == [] || rs[|rs| - 1].end.More? then |t| == n + 1
          else |t| == n + 2 && t[n + 1] == match rs[|rs| - 1].end
                                           case Eof => MDone
                                           case Broken(code) => MError(code))
  {
    FramesInDetail(id, rs);
    TranscriptLayout(id, status, rs);
    var t, n, fs := Transcript(id, status, rs), |NonEmpty(rs)|, FramesFor(id, rs);
    assert |fs| == n && forall k | 0 <= k < n :: fs[k].payload == NonEmpty(rs)[k];
    hide FramesFor, Transcript, NonEmpty;
    assert Closing(rs) != [] ==> t[n + 1] == t[1 + n..][0];
    assert forall k | 0 <= k < n :: t[k + 1] == MFrame(fs[k]);
  }
}
