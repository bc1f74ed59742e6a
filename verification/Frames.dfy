/** The binary data frame of internal/protocol/frame.go: a 31-byte header and a payload. */
module Frames {
  import opened Basics

  const FRAME_REQUEST_BODY: byte := 1
  const FRAME_RESPONSE_BODY: byte := 2
  const PROTOCOL_VERSION: byte := 1
  const HEADER_SIZE := 31
  const MAX_FRAME_PAYLOAD := 256 * 1024

  datatype Frame = Frame(
    typ: byte,
    first: bool,
    last: bool,
    compressed: bool,
    id: Id16,
    seqno: uint32,
    encoding: byte,
    payload: seq<byte>)

  datatype FrameError =
    | Eof            // nothing was left to read
    | UnexpectedEof  // some, but not enough, was left
    | BadMagic
    | BadVersion
    | BadType
    | BadLength

  function NewFrame(typ: byte, id: Id16, seqno: uint32, payload: seq<byte>): Frame {
    Frame(typ, false, false, false, id, seqno, 0, payload)
  }

  predicate KnownType(typ: byte) {
    typ == FRAME_REQUEST_BODY || typ == FRAME_RESPONSE_BODY
  }

  predicate Fits(f: Frame) {
    |f.payload| <= MAX_FRAME_PAYLOAD
  }

  /** The payloads of fs, one after another. */
  function Body(fs: seq<Frame>): seq<byte> {
    if fs == [] then [] else Body(fs[..|fs| - 1]) + fs[|fs| - 1].payload
  }

  lemma BodyAppend(fs: seq<Frame>, f: Frame)
    ensures Body(fs + [f]) == Body(fs) + f.payload
  {
    assert (fs + [f])[..|fs|] == fs;
  }

  // ---------------------------------------------------------------- layout

  function Le32(x: uint32): seq<byte> {
    [x % 256, x / 256 % 256, x / 0x1_0000 % 256, x / 0x100_0000]
  }

  function FromLe32(s: seq<byte>): uint32
    requires |s| == 4
  {
    (s[0] as int) + 256 * (s[1] as int) + 0x1_0000 * (s[2] as int) + 0x100_0000 * (s[3] as int)
  }

  function Flags(f: Frame): byte {
    (if f.first then 1 else 0) + (if f.last then 2 else 0) + (if f.compressed then 4 else 0)
  }

  /** Bit test `b & mask != 0` for a one-bit mask. */
  predicate HasFlag(b: byte, mask: byte)
    requires mask == 1 || mask == 2 || mask == 4
  {
    b / mask % 2 == 1
  }

  function Header(f: Frame): (h: seq<byte>)
    requires Fits(f)
    ensures |h| == HEADER_SIZE
  {
    [77, 82, PROTOCOL_VERSION, f.typ, Flags(f)] + f.id + Le32(f.seqno) + [f.encoding] + Le32(|f.payload|) + [0]
  }

  function EncodeBytes(f: Frame): seq<byte>
    requires Fits(f)
  {
    Header(f) + f.payload
  }

  function FrameOf(h: seq<byte>, payload: seq<byte>): Frame
    requires |h| == HEADER_SIZE
  {
    Frame(h[3], HasFlag(h[4], 1), HasFlag(h[4], 2), HasFlag(h[4], 4),
          h[5..21], FromLe32(h[21..25]), h[25], payload)
  }

  /** io.ReadFull: n bytes, or everything there is and an error that says whether that was nothing. */
  function ReadFull(s: seq<byte>, n: nat): (Result<seq<byte>, FrameError>, seq<byte>) {
    if n <= |s| then (Success(s[..n]), s[n..])
    else (Failure(if s == [] then Eof else UnexpectedEof), [])
  }

  /** What DecodeFrame answers on a reader holding s, and what it leaves unread. */
  function DecodeBytes(s: seq<byte>): (Result<Frame, FrameError>, seq<byte>) {
    var (r, rest) := ReadFull(s, HEADER_SIZE);
    if r.Failure? then (Failure(r.error), rest) else
    var h := r.value;
    if h[0] != 77 || h[1] != 82 then (Failure(BadMagic), rest)
    else if h[2] != PROTOCOL_VERSION then (Failure(BadVersion), rest)
    else if !KnownType(h[3]) then (Failure(BadType), rest)
    else
      var length := FromLe32(h[26..30]);
      if length > MAX_FRAME_PAYLOAD then (Failure(BadLength), rest)
      else if length == 0 then (Success(FrameOf(h, [])), rest)
      else
        var (p, rest') := ReadFull(rest, length);
        if p.Failure? then (Failure(p.error), rest')
        else (Success(FrameOf(h, p.value)), rest')
  }

  // --------------------------------------------------------- the operations

  method Encode(f: Frame) returns (r: Result<array<byte>, FrameError>)
    ensures |f.payload| > 262144 ==> r == Failure(BadLength)
    ensures |f.payload| <= 262144 ==> r.Success? && fresh(r.value) && r.value[..] == EncodeBytes(f)
  {
    if |f.payload| > MAX_FRAME_PAYLOAD {
      return Failure(BadLength);
    }
    var out := new byte[HEADER_SIZE + |f.payload|](_ => 0);
    WriteHeader(out, f);
    assert out[..HEADER_SIZE] == Header(f);
    forall j | HEADER_SIZE <= j < out.Length {
      out[j] := f.payload[j - HEADER_SIZE];
    }
    assert out[..HEADER_SIZE] == Header(f);
    assert out[..] == out[..HEADER_SIZE] + out[HEADER_SIZE..];
    r := Success(out);
  }

  method WriteHeader(out: array<byte>, f: Frame)
    requires Fits(f) && out.Length >= HEADER_SIZE
    modifies out
    ensures out[..HEADER_SIZE] == Header(f)
  {
    out[0], out[1], out[2], out[3] := 77, 82, PROTOCOL_VERSION, f.typ;
    var flags := 0;
    if f.first {
      flags := flags + 1;
    }
    if f.last {
      flags := flags + 2;
    }
    if f.compressed {
      flags := flags + 4;
    }
    out[4] := flags;
    forall j | 5 <= j < 21 {
      out[j] := f.id[j - 5];
    }
    PutUint32(out, 21, f.seqno);
    out[25] := f.encoding;
    PutUint32(out, 26, |f.payload|);
    out[30] := 0;
    ghost var s := out[..HEADER_SIZE];
    assert flags == Flags(f);
    assert forall j | 5 <= j < 21 :: s[j] == f.id[j - 5];
    hide Flags, Le32, Header;
    assert s[..5] == [77, 82, PROTOCOL_VERSION, f.typ, Flags(f)];
    assert s[5..21] == f.id;
    assert s[21..25] == out[21..25] && s[26..30] == out[26..30];
    HeaderLayout(f, s);
  }

  lemma HeaderLayout(f: Frame, s: seq<byte>)
    requires Fits(f) && |s| == HEADER_SIZE
    requires s[..5] == [77, 82, PROTOCOL_VERSION, f.typ, Flags(f)]
    requires s[5..21] == f.id && s[21..25] == Le32(f.seqno) && s[25] == f.encoding
    requires s[26..30] == Le32(|f.payload|) && s[30] == 0
    ensures s == Header(f)
  {
    assert s == s[..5] + s[5..21] + s[21..25] + [s[25]] + s[26..30] + [s[30]];
  }

  method PutUint32(out: array<byte>, at: nat, x: uint32)
    requires at + 4 <= out.Length
    modifies out
    ensures out[at..at + 4] == Le32(x)
    ensures forall i | 0 <= i < out.Length && !(at <= i < at + 4) :: out[i] == old(out[i])
  {
    var b := Le32(x);
    out[at], out[at + 1], out[at + 2], out[at + 3] := b[0], b[1], b[2], b[3];
  }

  /** The unread part of a byte stream. */
  class Reader {
    var data: seq<byte>

    constructor (data: seq<byte>)
      ensures this.data == data
    {
      this.data := data;
    }

    method Full(n: nat) returns (r: Result<seq<byte>, FrameError>)
      modifies this
      ensures (r, data) == ReadFull(old(data), n)
    {
      if n <= |data| {
        r, data := Success(data[..n]), data[n..];
      } else {
        r, data := Failure(if data == [] then Eof else UnexpectedEof), [];
      }
    }
  }

  method DecodeFrame(reader: Reader) returns (r: Result<Frame, FrameError>)
    modifies reader
    ensures (r, reader.data) == DecodeBytes(old(reader.data))
  {
    var hr := reader.Full(HEADER_SIZE);
    if hr.Failure? {
      return Failure(hr.error);
    }
    var header := hr.value;
    if header[0] != 77 || header[1] != 82 {
      return Failure(BadMagic);
    }
    if header[2] != PROTOCOL_VERSION {
      return Failure(BadVersion);
    }
    if header[3] != FRAME_REQUEST_BODY && header[3] != FRAME_RESPONSE_BODY {
      return Failure(BadType);
    }
    var length := FromLe32(header[26..30]);
    if length > MAX_FRAME_PAYLOAD {
      return Failure(BadLength);
    }
    var f := FrameOf(header, []);
    if length > 0 {
      var pr := reader.Full(length);
      if pr.Failure? {
        return Failure(pr.error);
      }
      f := f.(payload := pr.value);
    }
    r := Success(f);
  }

  // -------------------------------------------------------------- properties

  lemma Le32RoundTrip(x: uint32)
    ensures FromLe32(Le32(x)) == x
  {
    assert x == x % 256 + 256 * (x / 256);
    assert x / 256 == x / 256 % 256 + 256 * (x / 0x1_0000);
    assert x / 0x1_0000 == x / 0x1_0000 % 256 + 256 * (x / 0x100_0000);
  }

  lemma Le32Inverse(s: seq<byte>)
    requires |s| == 4
    ensures Le32(FromLe32(s)) == s
  {
    var x := FromLe32(s);
    var s1: int, s2: int, s3: int := s[1], s[2], s[3];
    assert x / 256 == s1 + 256 * s2 + 0x1_0000 * s3;
    assert x / 0x1_0000 == s2 + 256 * s3;
    assert x / 0x100_0000 == s[3];
  }

  lemma HeaderFields(f: Frame, h: seq<byte>)
    requires Fits(f) && h == Header(f)
    ensures h[0] == 77 && h[1] == 82 && h[2] == PROTOCOL_VERSION && h[3] == f.typ && h[30] == 0
    ensures FromLe32(h[26..30]) == |f.payload|
    ensures FrameOf(h, f.payload) == f
  {
    assert h[5..21] == f.id;
    assert h[21..25] == Le32(f.seqno);
    assert h[26..30] == Le32(|f.payload|);
    Le32RoundTrip(f.seqno);
    Le32RoundTrip(|f.payload|);
  }

  /** Where everything stands in an encoded frame: 'M', 'R', version 1, type, flags, id, sequence number,
      encoding, length, a zero, and the payload. */
  lemma EncodedBytes(f: Frame)
    requires |f.payload| <= 262144
    ensures var e := EncodeBytes(f);
      && |e| == 31 + |f.payload|
      && e[0] == 77 && e[1] == 82 && e[2] == 1 && e[3] == f.typ
      && (e[4] % 2 == 1 <==> f.first) && (e[4] / 2 % 2 == 1 <==> f.last) && (e[4] / 4 == 1 <==> f.compressed)
      && e[4] < 8
      && e[5..21] == f.id
      && e[21] as int + 256 * e[22] as int + 65536 * e[23] as int + 16777216 * e[24] as int == f.seqno
      && e[25] == f.encoding
      && e[26] as int + 256 * e[27] as int + 65536 * e[28] as int + 16777216 * e[29] as int == |f.payload|
      && e[30] == 0 && e[31..] == f.payload
  {
    var e := EncodeBytes(f);
    var h := Header(f);
    assert e[..31] == h && e[31..] == f.payload;
    HeaderFields(f, h);
    Le32RoundTrip(f.seqno);
    assert h[5..21] == f.id && h[21..25] == Le32(f.seqno) && h[26..30] == Le32(|f.payload|);
    assert e[5..21] == h[5..21] && e[21..25] == h[21..25] && e[26..30] == h[26..30];
    assert e[21..25][0] == e[21] && e[21..25][1] == e[22] && e[21..25][2] == e[23] && e[21..25][3] == e[24];
    assert e[26..30][0] == e[26] && e[26..30][1] == e[27] && e[26..30][2] == e[28] && e[26..30][3] == e[29];
    hide Header, Le32;
  }

  /** Every answer of the decoder, in the order of its tests. */
  lemma DecodeAnswers(s: seq<byte>)
    ensures var (r, rest) := DecodeBytes(s);
      if |s| < 31 then r == Failure(if s == [] then Eof else UnexpectedEof)
      else if s[0] != 77 || s[1] != 82 then r == Failure(BadMagic)
      else if s[2] != 1 then r == Failure(BadVersion)
      else if s[3] != 1 && s[3] != 2 then r == Failure(BadType)
      else
        var n := s[26] as int + 256 * s[27] as int + 65536 * s[28] as int + 16777216 * s[29] as int;
        if n > 262144 then r == Failure(BadLength)
        else if |s| < 31 + n then r == Failure(if |s| == 31 then Eof else UnexpectedEof)
        else
          && r.Success? && rest == s[31 + n..]
          && var f := r.value;
            && f.typ == s[3] && f.id == s[5..21] && f.encoding == s[25] && f.payload == s[31..31 + n]
            && (f.first <==> s[4] % 2 == 1) && (f.last <==> s[4] / 2 % 2 == 1) && (f.compressed <==> s[4] / 4 % 2 == 1)
            && f.seqno == s[21] as int + 256 * s[22] as int + 65536 * s[23] as int + 16777216 * s[24] as int
  {
    if |s| >= 31 {
      var h := s[..31];
      assert h[26..30] == s[26..30] && h[21..25] == s[21..25] && h[5..21] == s[5..21];
      assert s[21..25][0] == s[21] && s[21..25][1] == s[22] && s[21..25][2] == s[23] && s[21..25][3] == s[24];
      assert s[26..30][0] == s[26] && s[26..30][1] == s[27] && s[26..30][2] == s[28] && s[26..30][3] == s[29];
    }
  }

  /** An encoded frame followed by anything decodes to that frame and leaves the rest,
      exactly when its type is one the decoder knows. */
  lemma DecodeEncode(f: Frame, rest: seq<byte>)
    requires Fits(f)
    ensures KnownType(f.typ) <==> DecodeBytes(EncodeBytes(f) + rest) == (Success(f), rest)
    ensures !KnownType(f.typ) ==> DecodeBytes(EncodeBytes(f) + rest).0 == Failure(BadType)
  {
    var s := EncodeBytes(f) + rest;
    assert s[..HEADER_SIZE] == Header(f);
    assert s[HEADER_SIZE..] == f.payload + rest;
    assert (f.payload + rest)[..|f.payload|] == f.payload;
    assert (f.payload + rest)[|f.payload|..] == rest;
    HeaderFields(f, Header(f));
  }

  /** Every strict prefix of an encoded frame is rejected as truncated; the plain end-of-file
      answer comes only at the two cuts where a read begins. */
  lemma StrictPrefixRejected(f: Frame, k: nat)
    requires Fits(f) && KnownType(f.typ) && k < |EncodeBytes(f)|
    ensures DecodeBytes(EncodeBytes(f)[..k]).0
         == Failure(if k == 0 || k == HEADER_SIZE then Eof else UnexpectedEof)
  {
    var s := EncodeBytes(f)[..k];
    if k >= HEADER_SIZE {
      assert s[..HEADER_SIZE] == Header(f);
      HeaderFields(f, Header(f));
      assert |s[HEADER_SIZE..]| == k - HEADER_SIZE < |f.payload|;
    }
  }

  /** Everything the decoder accepts is a frame Encode would take, and encoding it again gives
      back the very bytes read exactly when the reserved flag bits and the reserved byte are zero. */
  lemma AcceptedBytes(s: seq<byte>)
    requires DecodeBytes(s).0.Success?
    ensures var f := DecodeBytes(s).0.value;
      && Fits(f) && KnownType(f.typ)
      && HEADER_SIZE + |f.payload| <= |s|
      && DecodeBytes(s).1 == s[HEADER_SIZE + |f.payload|..]
      && (EncodeBytes(f) == s[..HEADER_SIZE + |f.payload|] <==> s[4] < 8 && s[30] == 0)
  {
    var f := DecodeBytes(s).0.value;
    var h := s[..HEADER_SIZE];
    var n := HEADER_SIZE + |f.payload|;
    assert s[..n] == h + f.payload;
    HeaderOfDecoded(h, f.payload);
    var e := Header(f);
    assert e[4] == h[4] % 8 && e[30] == 0;
    assert EncodeBytes(f)[..HEADER_SIZE] == e;
    if h[4] < 8 && h[30] == 0 {
      assert e == h;
    }
  }

  lemma FlagsDecoded(f: Frame, b: byte)
    requires f.first == HasFlag(b, 1) && f.last == HasFlag(b, 2) && f.compressed == HasFlag(b, 4)
    ensures Flags(f) == b % 8
  {
  }

  lemma HeaderOfDecoded(h: seq<byte>, p: seq<byte>)
    requires |h| == HEADER_SIZE && h[0] == 77 && h[1] == 82 && h[2] == PROTOCOL_VERSION
    requires FromLe32(h[26..30]) == |p| <= MAX_FRAME_PAYLOAD
    ensures Header(FrameOf(h, p)) == h[4 := h[4] % 8][30 := 0]
  {
    var f := FrameOf(h, p);
    Le32Inverse(h[21..25]);
    Le32Inverse(h[26..30]);
    FlagsDecoded(f, h[4]);
    hide FromLe32, Le32, Flags, HasFlag;
    var t := h[4 := h[4] % 8][30 := 0];
    assert t == t[..5] + t[5..21] + t[21..25] + [t[25]] + t[26..30] + [t[30]];
    assert t[..5] == [77, 82, PROTOCOL_VERSION, f.typ, Flags(f)];
    assert t[5..21] == h[5..21] && t[21..25] == h[21..25] && t[26..30] == h[26..30];
  }

  // ------------------------------------------------------------ whole streams

  predicate AllValid(fs: seq<Frame>) {
    forall i | 0 <= i < |fs| :: Fits(fs[i]) && KnownType(fs[i].typ)
  }

  function EncodeAll(fs: seq<Frame>): seq<byte>
    requires AllValid(fs)
  {
    if fs == [] then [] else EncodeBytes(fs[0]) + EncodeAll(fs[1..])
  }

  /** Decode frame after frame until the stream is empty or a frame is bad. */
  function ParseAll(s: seq<byte>): Result<seq<Frame>, FrameError>
    decreases |s|
  {
    if s == [] then Success([]) else
    var (r, rest) := DecodeBytes(s);
    if r.Failure? then Failure(r.error) else
    if |rest| >= |s| then Success([r.value]) else
    var tail := ParseAll(rest);
    if tail.Failure? then tail else Success([r.value] + tail.value)
  }

  /** A stream of encoded frames, cut nowhere, parses back to the same list. */
  lemma {:induction false} StreamRoundTrip(fs: seq<Frame>)
    requires AllValid(fs)
    ensures ParseAll(EncodeAll(fs)) == Success(fs)
  {
    if fs != [] {
      StreamRoundTrip(fs[1..]);
      DecodeEncode(fs[0], EncodeAll(fs[1..]));
      assert fs == [fs[0]] + fs[1..];
    }
  }

  /** A stream cut inside any frame is rejected, wherever the cut falls. */
  lemma {:induction false} CutStreamRejected(fs: seq<Frame>, f: Frame, k: nat)
    requires AllValid(fs) && Fits(f) && KnownType(f.typ) && 0 < k < |EncodeBytes(f)|
    ensures ParseAll(EncodeAll(fs) + EncodeBytes(f)[..k])
         == Failure(if k == HEADER_SIZE then Eof else UnexpectedEof)
  {
    var cut := EncodeBytes(f)[..k];
    if fs == [] {
      assert EncodeAll(fs) + cut == cut;
      StrictPrefixRejected(f, k);
    } else {
      CutStreamRejected(fs[1..], f, k);
      var rest := EncodeAll(fs[1..]) + cut;
      assert EncodeAll(fs) + cut == EncodeBytes(fs[0]) + rest;
      DecodeEncode(fs[0], rest);
      assert |EncodeBytes(fs[0])| > 0;
      hide DecodeBytes, EncodeBytes, EncodeAll;
    }
  }

  /** The encoding is unambiguous: two different frame lists never share a byte stream. */
  lemma EncodeAllInjective(fs: seq<Frame>, gs: seq<Frame>)
    requires AllValid(fs) && AllValid(gs) && EncodeAll(fs) == EncodeAll(gs)
    ensures fs == gs
  {
    StreamRoundTrip(fs);
    StreamRoundTrip(gs);
  }
}
