/** The string form and the 16-byte form of a request id (internal/protocol/frame.go).
    Strings are byte sequences, as in the source. SHA-256 is a parameter: nothing is assumed of it. */
module RequestIds {
  import opened Basics

  type Digest = s: seq<byte> | |s| == 32 witness seq(32, _ => 0)
  type Hash = seq<byte> -> Digest

  const DASH: byte := 45

  /** strings.ReplaceAll(id, "-", "") */
  function Compact(id: seq<byte>): seq<byte> {
    if id == [] then []
    else (if id[0] == DASH then [] else [id[0]]) + Compact(id[1..])
  }

  type nibble = x: int | 0 <= x < 16

  function HexValue(c: byte): Option<nibble> {
    if 48 <= c <= 57 then Some(c - 48)
    else if 97 <= c <= 102 then Some(c - 87)
    else if 65 <= c <= 70 then Some(c - 55)
    else None
  }

  /** hex.DecodeString: None for an odd length or a character that is not a hex digit. */
  function HexDecode(s: seq<byte>): Option<seq<byte>> {
    if s == [] then Some([])
    else if |s| == 1 then None
    else
      var hi, lo := HexValue(s[0]), HexValue(s[1]);
      var tail := HexDecode(s[2..]);
      if hi.None? || lo.None? || tail.None? then None
      else Some([16 * (hi.value as int) + lo.value] + tail.value)
  }

  function RequestIDBytes(sha: Hash, id: seq<byte>): Id16 {
    var b := HexDecode(Compact(id));
    if b.Some? && |b.value| == 16 then b.value else sha(id)[..16]
  }

  // ------------------------------------------------- the canonical UUID string

  function HexDigit(v: nibble): byte {
    if v < 10 then 48 + v else 87 + v
  }

  function HexOf(b: seq<byte>): seq<byte> {
    if b == [] then [] else [HexDigit(b[0] / 16), HexDigit(b[0] % 16)] + HexOf(b[1..])
  }

  /** The 8-4-4-4-12 form produced by uuid.NewString. */
  function UuidString(id: Id16): seq<byte> {
    HexOf(id[..4]) + [DASH] + HexOf(id[4..6]) + [DASH] + HexOf(id[6..8]) + [DASH]
    + HexOf(id[8..10]) + [DASH] + HexOf(id[10..])
  }

  lemma {:induction false} CompactConcat(a: seq<byte>, b: seq<byte>)
    ensures Compact(a + b) == Compact(a) + Compact(b)
  {
    if a == [] {
      assert a + b == b;
    } else {
      assert (a + b)[1..] == a[1..] + b;
      CompactConcat(a[1..], b);
    }
  }

  lemma {:induction false} CompactShorter(a: seq<byte>)
    ensures |Compact(a)| <= |a|
  {
    if a != [] {
      CompactShorter(a[1..]);
    }
  }

  lemma {:induction false} CompactHex(b: seq<byte>)
    ensures Compact(HexOf(b)) == HexOf(b)
  {
    if b != [] {
      var h := HexOf(b);
      CompactHex(b[1..]);
      assert h[1..][1..] == HexOf(b[1..]);
      assert Compact(h[1..]) == [h[1]] + Compact(h[1..][1..]);
    }
  }

  lemma {:induction false} HexConcat(a: seq<byte>, b: seq<byte>)
    ensures HexOf(a + b) == HexOf(a) + HexOf(b)
  {
    if a == [] {
      assert a + b == b;
    } else {
      assert (a + b)[1..] == a[1..] + b;
      HexConcat(a[1..], b);
    }
  }

  lemma {:induction false} HexRoundTrip(b: seq<byte>)
    ensures HexDecode(HexOf(b)) == Some(b)
  {
    if b != [] {
      HexRoundTrip(b[1..]);
      assert HexOf(b)[2..] == HexOf(b[1..]);
      assert b == [b[0]] + b[1..];
    }
  }

  lemma {:induction false} HexDecodeLength(s: seq<byte>)
    ensures HexDecode(s).Some? ==> 2 * |HexDecode(s).value| == |s|
  {
    if |s| >= 2 {
      HexDecodeLength(s[2..]);
    }
  }

  lemma DropDash(a: seq<byte>, b: seq<byte>)
    ensures Compact(a + [DASH] + b) == Compact(a) + Compact(b)
  {
    var d := [DASH] + b;
    assert d[1..] == b;
    assert a + [DASH] + b == a + d;
    CompactConcat(a, d);
  }

  /** a, a dash, and t. */
  function Dashed(a: seq<byte>, t: seq<byte>): seq<byte> {
    HexOf(a) + [DASH] + t
  }

  lemma UuidGroups(id: Id16)
    ensures UuidString(id) ==
      Dashed(id[..4], Dashed(id[4..6], Dashed(id[6..8], Tail(id[8..10], id[10..]))))
  {
    hide HexOf;
  }

  /** Without its dashes a UUID string is the hex form of its bytes. */
  lemma UuidCompacts(id: Id16)
    ensures Compact(UuidString(id)) == HexOf(id)
  {
    var p1, p2, p3, p4, p5 := id[..4], id[4..6], id[6..8], id[8..10], id[10..];
    var t4 := Tail(p4, p5);
    var t3 := Dashed(p3, t4);
    var t2 := Dashed(p2, t3);
    UuidGroups(id);
    DashedTail(p4, p5, t4, p4 + p5);
    DashedHead(p3, t4, p4 + p5);
    DashedHead(p2, t3, p3 + (p4 + p5));
    DashedHead(p1, t2, p2 + (p3 + (p4 + p5)));
    hide Compact, HexOf, Tail, UuidString;
    assert p1 + (p2 + (p3 + (p4 + p5))) == id;
  }

  /** The 16 bytes of a UUID survive its string form, whatever the hash. */
  lemma UuidRoundTrip(sha: Hash, id: Id16)
    ensures RequestIDBytes(sha, UuidString(id)) == id
  {
    UuidCompacts(id);
    HexRoundTrip(id);
    hide Compact, HexOf, HexDecode, UuidString;
  }

  function Tail(a: seq<byte>, b: seq<byte>): seq<byte> {
    HexOf(a) + [DASH] + HexOf(b)
  }

  lemma DashedTail(a: seq<byte>, b: seq<byte>, t: seq<byte>, ab: seq<byte>)
    requires t == HexOf(a) + [DASH] + HexOf(b) && ab == a + b
    ensures Compact(t) == HexOf(ab)
  {
    DropDash(HexOf(a), HexOf(b));
    CompactHex(a);
    CompactHex(b);
    HexConcat(a, b);
  }

  /** One more dashed group in front. */
  lemma DashedHead(a: seq<byte>, t: seq<byte>, b: seq<byte>)
    requires Compact(t) == HexOf(b)
    ensures Compact(Dashed(a, t)) == HexOf(a + b)
  {
    DropDash(HexOf(a), t);
    CompactHex(a);
    HexConcat(a, b);
  }

  /** Two different UUIDs never collide as frame ids. */
  lemma UuidsStayDistinct(sha: Hash, a: Id16, b: Id16)
    requires RequestIDBytes(sha, UuidString(a)) == RequestIDBytes(sha, UuidString(b))
    ensures a == b
  {
    UuidRoundTrip(sha, a);
    UuidRoundTrip(sha, b);
  }

  /** Sixteen raw bytes are too short to be a hex UUID: they are always hashed. */
  lemma RawIdIsHashed(sha: Hash, raw: Id16)
    ensures RequestIDBytes(sha, raw) == sha(raw)[..16]
  {
    CompactShorter(raw);
    HexDecodeLength(Compact(raw));
  }

  predicate HexDigitCode(c: byte) {
    48 <= c <= 57 || 65 <= c <= 70 || 97 <= c <= 102
  }

  /** Exactly the strings of an even number of hex digits, of either case, are decoded. */
  lemma {:induction false} DecodedExactly(s: seq<byte>)
    ensures HexDecode(s).Some? <==> |s| % 2 == 0 && forall i | 0 <= i < |s| :: HexDigitCode(s[i])
  {
    if |s| >= 2 {
      DecodedExactly(s[2..]);
      assert forall i | 2 <= i < |s| :: s[i] == s[2..][i - 2];
    }
  }

  /** An id string is read as a UUID exactly when it is 32 hex digits after its dashes are dropped; any other
      string is hashed. */
  lemma UuidOrHash(sha: Hash, id: seq<byte>)
    ensures var c := Compact(id);
      if |c| == 32 && forall i | 0 <= i < |c| :: HexDigitCode(c[i])
      then HexDecode(c) == Some(RequestIDBytes(sha, id))
      else RequestIDBytes(sha, id) == sha(id)[..16]
  {
    DecodedExactly(Compact(id));
    HexDecodeLength(Compact(id));
  }

  /** An upper-case copy. */
  function Upper(s: seq<byte>): seq<byte> {
    if s == [] then [] else [if 97 <= s[0] <= 102 then s[0] - 32 else s[0]] + Upper(s[1..])
  }

  lemma {:induction false} UpperCompact(s: seq<byte>)
    ensures Compact(Upper(s)) == Upper(Compact(s))
  {
    if s != [] {
      UpperCompact(s[1..]);
      assert Upper(s)[1..] == Upper(s[1..]);
      var h := if s[0] == DASH then [] else [s[0]];
      assert h == [s[0]] ==> (h + Compact(s[1..]))[1..] == Compact(s[1..]);
      assert [] + Compact(s[1..]) == Compact(s[1..]) && [] + Compact(Upper(s[1..])) == Compact(Upper(s[1..]));
    }
  }

  lemma {:induction false} UpperDecodes(s: seq<byte>)
    ensures HexDecode(Upper(s)) == HexDecode(s)
  {
    if |s| >= 2 {
      UpperDecodes(s[2..]);
      assert Upper(s)[1..] == Upper(s[1..]) && Upper(s[1..])[1..] == Upper(s[1..][1..]);
      assert Upper(s)[2..] == Upper(s[2..]) by {
        assert s[1..][1..] == s[2..] && Upper(s)[1..][1..] == Upper(s)[2..];
      }
    } else if |s| == 1 {
      assert Upper(s[1..]) == [];
    }
  }

  /** A UUID in upper case names the same request. */
  lemma UppercaseUuid(sha: Hash, id: Id16)
    ensures RequestIDBytes(sha, Upper(UuidString(id))) == id
  {
    UuidRoundTrip(sha, id);
    UpperCompact(UuidString(id));
    UpperDecodes(Compact(UuidString(id)));
    UuidIsDecoded(id);
  }

  /** The string form of a UUID is decoded, not hashed. */
  lemma UuidIsDecoded(id: Id16)
    ensures HexDecode(Compact(UuidString(id))) == Some(id)
  {
    UuidCompacts(id);
    HexRoundTrip(id);
  }
}
