/** Variable-length integers: section 16 of RFC 9000. */
module Varints {
  import opened StreamIds
  import opened SendLimits

  type Byte = b: int | 0 <= b < 256

  /** 256^n */
  function Pow(n: nat): (p: nat)
    ensures p > 0
  {
    if n == 0 then 1 else 256 * Pow(n - 1)
  }

  /** The `n` low-order bytes of `v`, most significant first. */
  function BigEndian(v: nat, n: nat): (s: seq<Byte>)
    requires v < Pow(n)
    ensures |s| == n
  {
    if n == 0 then []
    else
      DivBound(v, Pow(n - 1), 256);
      [v / Pow(n - 1)] + BigEndian(v % Pow(n - 1), n - 1)
  }

  function FromBigEndian(s: seq<Byte>): nat {
    if s == [] then 0 else s[0] * Pow(|s| - 1) + FromBigEndian(s[1..])
  }

  lemma MulMono(a: nat, b: nat, p: nat)
    ensures a <= b ==> a * p <= b * p
  {
  }

  /** Dividing what is below k * p by p. */
  lemma DivBound(v: nat, p: nat, k: nat)
    requires p > 0 && v < k * p
    ensures 0 <= v / p < k && 0 <= v % p < p && v == (v / p) * p + v % p
  {
    MulMono(k, v / p, p);
  }

  lemma {:induction false} BigEndianInverse(v: nat, n: nat)
    requires v < Pow(n)
    ensures FromBigEndian(BigEndian(v, n)) == v
  {
    if n > 0 {
      DivBound(v, Pow(n - 1), 256);
      BigEndianInverse(v % Pow(n - 1), n - 1);
      assert BigEndian(v, n)[1..] == BigEndian(v % Pow(n - 1), n - 1);
    }
  }

  /** The two length bits; the encoding takes 2^bits bytes. */
  function LengthBits(v: nat): (bits: nat)
    requires v < TWO_62
    ensures bits < 4
  {
    if v < 0x40 then 0 else if v < 0x4000 then 1 else if v < 0x4000_0000 then 2 else 3
  }

  function Size(bits: nat): (n: nat)
    requires bits < 4
    ensures 1 <= n <= 8
  {
    [1, 2, 4, 8][bits]
  }

  lemma Powers()
    ensures Pow(0) == 1 && Pow(1) == 0x100 && Pow(3) == 0x100_0000 && Pow(7) == 0x100_0000_0000_0000
  {
    assert Pow(2) == 256 * Pow(1);
    assert Pow(4) == 256 * Pow(3) && Pow(5) == 256 * Pow(4) && Pow(6) == 256 * Pow(5);
  }

  lemma LeadingBits(v: nat)
    requires v < TWO_62
    ensures var p := Pow(Size(LengthBits(v)) - 1); 0 <= v / p < 64 && 0 <= v % p < p && v == (v / p) * p + v % p
  {
    Powers();
    var p := Pow(Size(LengthBits(v)) - 1);
    DivBound(v, p, 64);
  }

  /** `quicvarint.Append(nil, v)` */
  function Encode(v: nat): (s: seq<Byte>)
    requires v < TWO_62
    ensures |s| == Size(LengthBits(v))
  {
    var bits := LengthBits(v);
    var p := Pow(Size(bits) - 1);
    LeadingBits(v);
    [64 * bits + v / p] + BigEndian(v % p, Size(bits) - 1)
  }

  /** `quicvarint.Parse(s)`: the value and the number of bytes it took. */
  function Decode(s: seq<Byte>): (r: Option<(nat, nat)>)
    ensures r.Some? ==> 1 <= r.value.1 <= |s| && r.value.1 <= 8 && r.value.0 < TWO_62
  {
    if s == [] then None
    else
      var n := Size(s[0] / 64);
      if |s| < n then None
      else
        DecodedFits(s[..n]);
        Some(((s[0] % 64) * Pow(n - 1) + FromBigEndian(s[1..n]), n))
  }

  lemma {:induction false} FromBigEndianBound(s: seq<Byte>)
    ensures FromBigEndian(s) < Pow(|s|)
  {
    if s != [] {
      FromBigEndianBound(s[1..]);
      MulMono(s[0], 255, Pow(|s| - 1));
    }
  }

  lemma DecodedFits(s: seq<Byte>)
    requires |s| > 0 && |s| == Size(s[0] / 64)
    ensures (s[0] % 64) * Pow(|s| - 1) + FromBigEndian(s[1..]) < TWO_62
  {
    Powers();
    FromBigEndianBound(s[1..]);
    var p := Pow(|s| - 1);
    MulMono(s[0] % 64, 63, p);
    assert p <= 0x100_0000_0000_0000;
  }

  /** Four bytes, most significant first. */
  function Four(a: int, b: int, c: int, d: int): int {
    a * 0x100_0000 + b * 0x1_0000 + c * 0x100 + d
  }

  lemma {:induction false} ShortForms(s: seq<Byte>)
    ensures |s| == 1 ==> FromBigEndian(s) == s[0]
    ensures |s| == 3 ==> FromBigEndian(s) == Four(0, s[0], s[1], s[2])
    ensures |s| == 4 ==> FromBigEndian(s) == Four(s[0], s[1], s[2], s[3])
    decreases |s|
  {
    Powers();
    if |s| == 3 {
      assert s[1..][1..] == s[2..];
      ShortForms(s[2..]);
    } else if |s| == 4 {
      ShortForms(s[1..]);
    }
  }

  lemma HighPowers()
    ensures Pow(4) == 0x1_0000_0000 && Pow(5) == 0x100_0000_0000 && Pow(6) == 0x1_0000_0000_0000
  {
    Powers();
    assert Pow(4) == 256 * Pow(3);
    assert Pow(5) == 256 * Pow(4);
    assert Pow(6) == 256 * Pow(5);
  }

  /** One more byte in front. */
  lemma FirstByte(s: seq<Byte>, p: nat, rest: int)
    requires s != [] && Pow(|s| - 1) == p && FromBigEndian(s[1..]) == rest
    ensures FromBigEndian(s) == s[0] * p + rest
  {
  }

  lemma LongForm(s: seq<Byte>)
    requires |s| == 7
    ensures FromBigEndian(s) == Four(0, s[0], s[1], s[2]) * 0x1_0000_0000 + Four(s[3], s[4], s[5], s[6])
  {
    HighPowers();
    var a, b, c := s[1..], s[2..], s[3..];
    var x: int, y: int, z: int := s[0], s[1], s[2];
    ShortForms(c);
    assert b[1..] == c;
    FirstByte(b, 0x1_0000_0000, Four(s[3], s[4], s[5], s[6]));
    var vb: int := z * 0x1_0000_0000 + Four(s[3], s[4], s[5], s[6]);
    assert a[1..] == b;
    FirstByte(a, 0x100_0000_0000, vb);
    var va: int := y * 0x100_0000_0000 + vb;
    FirstByte(s, 0x1_0000_0000_0000, va);
    assert Four(0, x, y, z) * 0x1_0000_0000 == x * 0x1_0000_0000_0000 + y * 0x100_0000_0000 + z * 0x1_0000_0000;
  }

  /** The format, byte by byte (section 16 of RFC 9000): the two high bits of the
      first byte say whether the value is the rest of 1, 2, 4 or 8 bytes, most
      significant first; fewer bytes are no varint. */
  lemma {:induction false} VarintFormat(s: seq<Byte>)
    ensures s == [] ==> Decode(s) == None
    ensures s != [] && s[0] < 0x40 ==> Decode(s) == Some((s[0], 1))
    ensures s != [] && 0x40 <= s[0] < 0x80 ==>
              Decode(s) == if |s| < 2 then None else Some((Four(0, 0, s[0] - 0x40, s[1]), 2))
    ensures s != [] && 0x80 <= s[0] < 0xC0 ==>
              Decode(s) == if |s| < 4 then None else Some((Four(s[0] - 0x80, s[1], s[2], s[3]), 4))
    ensures s != [] && 0xC0 <= s[0] ==>
              Decode(s) == if |s| < 8 then None
                           else Some((Four(s[0] - 0xC0, s[1], s[2], s[3]) * 0x1_0000_0000
                                      + Four(s[4], s[5], s[6], s[7]), 8))
  {
    if s != [] {
      LeadingByte(s[0]);
      var n := Size(s[0] / 64);
      if |s| >= n {
        Tail(s[..n]);
        assert s[..n][1..] == s[1..n];
      }
    }
  }

  lemma LeadingByte(b: Byte)
    ensures b < 0x40 ==> b / 64 == 0 && b % 64 == b
    ensures 0x40 <= b < 0x80 ==> b / 64 == 1 && b % 64 == b - 0x40
    ensures 0x80 <= b < 0xC0 ==> b / 64 == 2 && b % 64 == b - 0x80
    ensures 0xC0 <= b ==> b / 64 == 3 && b % 64 == b - 0xC0
  {
  }

  /** The value of a varint of exactly the length that its first byte says. */
  lemma Tail(s: seq<Byte>)
    requires s != [] && |s| == Size(s[0] / 64)
    ensures var v := (s[0] % 64) * Pow(|s| - 1) + FromBigEndian(s[1..]);
            && (|s| == 1 ==> v == s[0] % 64)
            && (|s| == 2 ==> v == Four(0, 0, s[0] % 64, s[1]))
            && (|s| == 4 ==> v == Four(s[0] % 64, s[1], s[2], s[3]))
            && (|s| == 8 ==> v == Four(s[0] % 64, s[1], s[2], s[3]) * 0x1_0000_0000 + Four(s[4], s[5], s[6], s[7]))
  {
    Powers();
    if |s| == 8 {
      LongForm(s[1..]);
    } else {
      ShortForms(s[1..]);
    }
  }

  /** A value is written in the shortest of the four lengths. */
  lemma {:induction false} ShortestVarint(v: nat)
    requires v < TWO_62
    ensures |Encode(v)| == if v < 64 then 1 else if v < 16384 then 2 else if v < 1073741824 then 4 else 8
  {
  }

  /** Decoding undoes encoding, whatever follows on the wire. */
  lemma {:induction false} DecodeEncode(v: nat, rest: seq<Byte>)
    requires v < TWO_62
    ensures Decode(Encode(v) + rest) == Some((v, |Encode(v)|))
  {
    var bits := LengthBits(v);
    var p := Pow(Size(bits) - 1);
    var tail := BigEndian(v % p, Size(bits) - 1);
    LeadingBits(v);
    BigEndianInverse(v % p, Size(bits) - 1);
    var s := Encode(v) + rest;
    assert s[0] == 64 * bits + v / p;
    assert s[0] / 64 == bits && s[0] % 64 == v / p;
    assert s[1..Size(bits)] == tail;
  }

  /** A decoded prefix is unaffected by further input. */
  lemma DecodePrefix(a: seq<Byte>, b: seq<Byte>)
    requires Decode(a).Some?
    ensures Decode(a + b) == Decode(a)
  {
    var n := Size(a[0] / 64);
    assert (a + b)[1..n] == a[1..n];
    assert (a + b)[..n] == a[..n];
  }

  /** A proper prefix of an encoding does not decode. */
  lemma {:induction false} DecodeTruncated(v: nat, k: nat)
    requires v < TWO_62 && k < |Encode(v)|
    ensures Decode(Encode(v)[..k]) == None
  {
    DecodeEncode(v, []);
    assert Encode(v) + [] == Encode(v);
    if k > 0 {
      assert Encode(v)[..k][0] == Encode(v)[0];
    }
  }

  /** The first `n` varints of a capsule body; what follows them is ignored. */
  function Fields(body: seq<Byte>, n: nat): (r: Option<seq<nat>>)
    ensures r.Some? ==> |r.value| == n
    decreases n
  {
    if n == 0 then Some([])
    else
      match Decode(body)
      case None => None
      case Some((v, used)) =>
        match Fields(body[used..], n - 1)
        case None => None
        case Some(rest) => Some([v] + rest)
  }

  function EncodeFields(vs: seq<nat>): seq<Byte>
    requires forall i :: 0 <= i < |vs| ==> vs[i] < TWO_62
  {
    if vs == [] then [] else Encode(vs[0]) + EncodeFields(vs[1..])
  }

  /** Any number of varints is read back, whatever trails them in the body. */
  lemma {:induction false} FieldsRoundTrip(vs: seq<nat>, extra: seq<Byte>)
    requires forall i :: 0 <= i < |vs| ==> vs[i] < TWO_62
    ensures Fields(EncodeFields(vs) + extra, |vs|) == Some(vs)
    decreases |vs|
  {
    if vs != [] {
      var tail := EncodeFields(vs[1..]);
      assert EncodeFields(vs) + extra == Encode(vs[0]) + (tail + extra);
      DecodeEncode(vs[0], tail + extra);
      FieldsRoundTrip(vs[1..], extra);
      assert (Encode(vs[0]) + (tail + extra))[|Encode(vs[0])|..] == tail + extra;
      assert [vs[0]] + vs[1..] == vs;
    }
  }

  /** A body cut short anywhere inside them is refused. */
  lemma {:induction false} FieldsTruncated(vs: seq<nat>, k: nat)
    requires forall i :: 0 <= i < |vs| ==> vs[i] < TWO_62
    requires k < |EncodeFields(vs)|
    ensures Fields(EncodeFields(vs)[..k], |vs|) == None
    decreases |vs|
  {
    var head, tail := Encode(vs[0]), EncodeFields(vs[1..]);
    if k < |head| {
      assert EncodeFields(vs)[..k] == head[..k];
      DecodeTruncated(vs[0], k);
    } else {
      assert EncodeFields(vs)[..k] == head + tail[..k - |head|];
      DecodeEncode(vs[0], tail[..k - |head|]);
      FieldsTruncated(vs[1..], k - |head|);
    }
  }

  /** What the loop will return, having read `read` and with `n` to go. */
  ghost function Continued(read: seq<nat>, rest: seq<Byte>, n: nat): Option<seq<nat>> {
    match Fields(rest, n)
    case None => None
    case Some(tail) => Some(read + tail)
  }

  lemma ContinuedStep(read: seq<nat>, rest: seq<Byte>, n: nat)
    requires n > 0
    ensures Continued(read, rest, n) ==
            match Decode(rest) {
              case None => None
              case Some((v, used)) => Continued(read + [v], rest[used..], n - 1)
            }
  {
    if Decode(rest).Some? {
      var (v, used) := Decode(rest).value;
      var tail := Fields(rest[used..], n - 1);
      if tail.Some? {
        assert read + ([v] + tail.value) == read + [v] + tail.value;
      }
    }
  }

  /** `readCapsuleVarints` */
  method ReadCapsuleVarints(content: seq<Byte>, n: nat) returns (out: Option<seq<nat>>)
    ensures out == Fields(content, n)
  {
    var read: seq<nat>, rest := [], content;
    var i := 0;
    assert Fields(content, n).Some? ==> [] + Fields(content, n).value == Fields(content, n).value;
    while i < n
      invariant 0 <= i <= n
      invariant Fields(content, n) == Continued(read, rest, n - i)
    {
      ContinuedStep(read, rest, n - i);
      var v := Decode(rest);
      if v.None? {
        return None;
      }
      read, rest := read + [v.value.0], rest[v.value.1..];
      i := i + 1;
    }
    assert read + [] == read;
    return Some(read);
  }
}

/** Capsule framing (section 3.2 of RFC 9297) and the capsule bodies that
    session.go, stream.go and flow.go write and read. */
module Capsules {
  import opened StreamIds
  import opened SendLimits
  import opened Varints

  const PADDING: nat := 0x190B4D38
  const WT_STREAM_FIN: nat := 0x190B4D3B
  const WT_STREAM: nat := 0x190B4D3C
  const WT_MAX_DATA: nat := 0x190B4D3D
  const WT_MAX_STREAM_DATA: nat := 0x190B4D3E
  const WT_MAX_STREAMS_BIDI: nat := 0x190B4D3F
  const WT_MAX_STREAMS_UNI: nat := 0x190B4D40
  const DATAGRAM: nat := 0x00
  const WT_CLOSE_SESSION: nat := 0x2843
  const WT_DRAIN_SESSION: nat := 0x78ae

  const MAX_CLOSE_MESSAGE: nat := 1024

  /** Which part of a capsule body could not be read. */
  datatype Fault = BadStreamId | BadLimit | BadClose

  /** A capsule as the read loop sees it. */
  datatype Capsule =
    | Stream(id: nat, payload: seq<Byte>, fin: bool)
    | Limit(grant: Grant)
    | CloseSession(code: nat, message: seq<Byte>)
    | Drain
    | Datagram(payload: seq<Byte>)
    | Padding(payload: seq<Byte>)
    | Other(typ: nat, payload: seq<Byte>)
    | Malformed(fault: Fault)

  predicate KnownType(typ: nat) {
    typ in {PADDING, WT_STREAM_FIN, WT_STREAM, WT_MAX_DATA, WT_MAX_STREAM_DATA, WT_MAX_STREAMS_BIDI,
            WT_MAX_STREAMS_UNI, DATAGRAM, WT_CLOSE_SESSION, WT_DRAIN_SESSION}
  }

  /** The payload that `CloseWithError` builds. */
  function ClosePayload(code: nat, message: seq<Byte>): seq<Byte>
    requires code < 0x1_0000_0000
  {
    assert Pow(4) == 0x1_0000_0000 by { assert Pow(2) == 256 * Pow(1); assert Pow(3) == 256 * Pow(2); }
    BigEndian(code, 4) + message
  }

  /** `parseWTCloseSession` */
  function ParseClose(payload: seq<Byte>): Option<(nat, seq<Byte>)> {
    if |payload| < 4 || |payload| - 4 > MAX_CLOSE_MESSAGE then None
    else Some((FromBigEndian(payload[..4]), payload[4..]))
  }

  /** Exactly the messages of at most 1024 bytes survive the trip. */
  lemma {:induction false} CloseRoundTrip(code: nat, message: seq<Byte>)
    requires code < 0x1_0000_0000
    ensures ParseClose(ClosePayload(code, message)) ==
            if |message| <= MAX_CLOSE_MESSAGE then Some((code, message)) else None
  {
    assert Pow(4) == 0x1_0000_0000 by { assert Pow(2) == 256 * Pow(1); assert Pow(3) == 256 * Pow(2); }
    BigEndianInverse(code, 4);
    var p := ClosePayload(code, message);
    assert p[..4] == BigEndian(code, 4) && p[4..] == message;
  }

  /** Capsules that an endpoint can write. */
  predicate Encodable(c: Capsule) {
    match c
    case Stream(id, payload, _) => id < TWO_62 && |payload| + 8 < TWO_62
    case Limit(g) => g.max < TWO_62 && (g.MaxStreamData? ==> g.id < TWO_62)
    case CloseSession(code, message) => code < 0x1_0000_0000 && |message| <= MAX_CLOSE_MESSAGE
    case Drain => true
    case Datagram(p) => |p| < TWO_62
    case Padding(p) => |p| < TWO_62
    case Other(typ, p) => typ < TWO_62 && !KnownType(typ) && |p| < TWO_62
    case Malformed(_) => false
  }

  function TypeOf(c: Capsule): (typ: nat)
    requires Encodable(c)
    ensures typ < TWO_62
  {
    match c
    case Stream(_, _, fin) => if fin then WT_STREAM_FIN else WT_STREAM
    case Limit(g) =>
      (match g
       case MaxData(_) => WT_MAX_DATA
       case MaxStreamData(_, _) => WT_MAX_STREAM_DATA
       case MaxStreams(bidi, _) => if bidi then WT_MAX_STREAMS_BIDI else WT_MAX_STREAMS_UNI)
    case CloseSession(_, _) => WT_CLOSE_SESSION
    case Drain => WT_DRAIN_SESSION
    case Datagram(_) => DATAGRAM
    case Padding(_) => PADDING
    case Other(typ, _) => typ
  }

  function BodyOf(c: Capsule): (body: seq<Byte>)
    requires Encodable(c)
    ensures |body| < TWO_62
  {
    match c
    case Stream(id, payload, _) => Varints.Encode(id) + payload
    case Limit(g) =>
      if g.MaxStreamData? then Varints.Encode(g.id) + Varints.Encode(g.max) else Varints.Encode(g.max)
    case CloseSession(code, message) => ClosePayload(code, message)
    case Drain => []
    case Datagram(p) => p
    case Padding(p) => p
    case Other(_, p) => p
  }

  /** `http3.WriteCapsule` */
  function Frame(typ: nat, body: seq<Byte>): seq<Byte>
    requires typ < TWO_62 && |body| < TWO_62
  {
    Varints.Encode(typ) + (Varints.Encode(|body|) + body)
  }

  function Encode(c: Capsule): seq<Byte>
    requires Encodable(c)
  {
    Frame(TypeOf(c), BodyOf(c))
  }

  /** What the read loop makes of a complete capsule. */
  function Interpret(typ: nat, body: seq<Byte>): Capsule {
    if typ == PADDING then Padding(body)
    else if typ == WT_STREAM || typ == WT_STREAM_FIN then
      match Decode(body)
      case None => Malformed(BadStreamId)
      case Some((id, n)) => Stream(id, body[n..], typ == WT_STREAM_FIN)
    else if typ == DATAGRAM then Datagram(body)
    else if typ == WT_CLOSE_SESSION then
      match ParseClose(body)
      case None => Malformed(BadClose)
      case Some((code, message)) => CloseSession(code, message)
    else if typ == WT_DRAIN_SESSION then Drain
    else if typ == WT_MAX_STREAM_DATA then
      match Fields(body, 2)
      case None => Malformed(BadLimit)
      case Some(f) => Limit(MaxStreamData(f[0], f[1]))
    else if typ == WT_MAX_DATA || typ == WT_MAX_STREAMS_BIDI || typ == WT_MAX_STREAMS_UNI then
      match Fields(body, 1)
      case None => Malformed(BadLimit)
      case Some(f) => Limit(if typ == WT_MAX_DATA then MaxData(f[0]) else MaxStreams(typ == WT_MAX_STREAMS_BIDI, f[0]))
    else Other(typ, body)
  }

  /** The capsule types, as registered and as the peer sends them. */
  lemma {:induction false} TypeCodes(c: Capsule)
    requires Encodable(c)
    ensures TypeOf(c) ==
            match c
            case Stream(_, _, fin) => if fin then 0x190B4D3B else 0x190B4D3C
            case Limit(MaxData(_)) => 0x190B4D3D
            case Limit(MaxStreamData(_, _)) => 0x190B4D3E
            case Limit(MaxStreams(bidi, _)) => if bidi then 0x190B4D3F else 0x190B4D40
            case CloseSession(_, _) => 0x2843
            case Drain => 0x78ae
            case Datagram(_) => 0
            case Padding(_) => 0x190B4D38
            case Other(typ, _) => typ
  {
  }

  /** The fields of the bodies, in the order in which they are sent. */
  lemma {:induction false} BodyFields(c: Capsule)
    requires Encodable(c)
    ensures match c
            case Stream(id, payload, _) =>
              && Decode(BodyOf(c)) == Some((id, |BodyOf(c)| - |payload|))
              && BodyOf(c)[|BodyOf(c)| - |payload|..] == payload
            case Limit(MaxStreamData(id, max)) => Fields(BodyOf(c), 2) == Some([id, max])
            case Limit(MaxData(max)) => Fields(BodyOf(c), 1) == Some([max])
            case Limit(MaxStreams(_, max)) => Fields(BodyOf(c), 1) == Some([max])
            case CloseSession(code, message) => |BodyOf(c)| == 4 + |message| && BodyOf(c)[4..] == message
            case Drain => BodyOf(c) == []
            case Datagram(p) => BodyOf(c) == p
            case Padding(p) => BodyOf(c) == p
            case Other(_, p) => BodyOf(c) == p
  {
    match c
    case Stream(id, payload, _) => DecodeEncode(id, payload);
    case Limit(MaxStreamData(id, max)) => TwoFields(id, max);
    case Limit(g) =>
      FieldsRoundTrip([g.max], []);
      assert EncodeFields([g.max]) + [] == Varints.Encode(g.max);
    case _ =>
  }

  /** The close payload, byte by byte. */
  lemma {:induction false} CloseFormat(code: nat, message: seq<Byte>)
    requires code < 0x1_0000_0000
    ensures var p := ClosePayload(code, message);
            && |p| == 4 + |message| && p[4..] == message
            && code == Four(p[0], p[1], p[2], p[3])
  {
    assert Pow(4) == 0x1_0000_0000 by { assert Pow(2) == 256 * Pow(1); assert Pow(3) == 256 * Pow(2); }
    BigEndianInverse(code, 4);
    ShortForms(BigEndian(code, 4));
  }

  /** Which bodies the read loop cannot use: stream data without a stream ID, a
      close without a code or with a message of more than 1024 bytes, a limit with
      too few varints. Every other capsule is read, and one of a type that the
      loop does not know is set aside whole. */
  lemma {:induction false} MalformedExactlyWhen(typ: nat, body: seq<Byte>)
    ensures var c := Interpret(typ, body);
            && (c == Malformed(BadStreamId) <==> typ in {0x190B4D3B, 0x190B4D3C} && Decode(body).None?)
            && (c == Malformed(BadClose) <==> typ == 0x2843 && (|body| < 4 || |body| > 1028))
            && (c == Malformed(BadLimit) <==>
                  || (typ in {0x190B4D3D, 0x190B4D3F, 0x190B4D40} && Decode(body).None?)
                  || (typ == 0x190B4D3E && Fields(body, 2).None?))
            && (c.Other? <==> typ !in {0x190B4D38, 0x190B4D3B, 0x190B4D3C, 0x190B4D3D, 0x190B4D3E, 0x190B4D3F,
                                       0x190B4D40, 0, 0x2843, 0x78ae})
            && (c.Other? ==> c == Other(typ, body))
  {
    if Decode(body).Some? {
      assert Fields(body[Decode(body).value.1..], 0) == Some([]);
      assert Fields(body, 1).Some?;
    } else {
      assert Fields(body, 1).None?;
    }
  }

  lemma {:induction false} InterpretEncoded(c: Capsule)
    requires Encodable(c)
    ensures Interpret(TypeOf(c), BodyOf(c)) == c
  {
    match c
    case Stream(id, payload, fin) =>
      DecodeEncode(id, payload);
      assert BodyOf(c)[|Varints.Encode(id)|..] == payload;
    case Limit(g) =>
      if g.MaxStreamData? {
        TwoFields(g.id, g.max);
      } else {
        DecodeEncode(g.max, []);
        assert BodyOf(c) + [] == BodyOf(c);
        assert Fields(BodyOf(c), 1) == Some([g.max] + []);
      }
    case CloseSession(code, message) => CloseRoundTrip(code, message);
    case _ =>
  }

  lemma TwoFields(a: nat, b: nat)
    requires a < TWO_62 && b < TWO_62
    ensures Fields(Varints.Encode(a) + Varints.Encode(b), 2) == Some([a, b])
  {
    var first, second := Varints.Encode(a), Varints.Encode(b);
    assert EncodeFields([b]) == second + [] == second;
    assert EncodeFields([a, b]) + [] == first + second;
    FieldsRoundTrip([a, b], []);
  }

  /** `http3.ParseCapsule` on a complete capsule: its meaning and its length. */
  function ParseOne(s: seq<Byte>): (r: Option<(Capsule, nat)>)
    ensures r.Some? ==> 0 < r.value.1 <= |s|
  {
    match Decode(s)
    case None => None
    case Some((typ, n)) =>
      match Decode(s[n..])
      case None => None
      case Some((len, m)) =>
        if |s| - n - m < len then None
        else Some((Interpret(typ, s[n + m..n + m + len]), n + m + len))
  }

  datatype Parsed = Parsed(capsules: seq<Capsule>, rest: seq<Byte>)

  /** The read loop's view of the CONNECT stream's bytes. */
  function ParseAll(s: seq<Byte>): (r: Parsed)
    ensures |r.rest| <= |s|
    decreases |s|
  {
    match ParseOne(s)
    case None => Parsed([], s)
    case Some((c, n)) => var tail := ParseAll(s[n..]); Parsed([c] + tail.capsules, tail.rest)
  }

  function EncodeAll(cs: seq<Capsule>): seq<Byte>
    requires forall i :: 0 <= i < |cs| ==> Encodable(cs[i])
  {
    if cs == [] then [] else Encode(cs[0]) + EncodeAll(cs[1..])
  }

  /** The sequence facts behind a frame: type, length, body, rest. */
  lemma FrameParts(t: seq<Byte>, len: seq<Byte>, body: seq<Byte>, rest: seq<Byte>)
    ensures var s := t + (len + body) + rest;
            && s == t + (len + body + rest) && s[|t|..] == len + (body + rest)
            && s[|t| + |len|..|t| + |len| + |body|] == body && |s| == |t| + |len| + |body| + |rest|
  {
  }

  lemma ParseFramed(typ: nat, body: seq<Byte>, rest: seq<Byte>)
    requires typ < TWO_62 && |body| < TWO_62
    ensures ParseOne(Frame(typ, body) + rest) == Some((Interpret(typ, body), |Frame(typ, body)|))
  {
    var t, len := Varints.Encode(typ), Varints.Encode(|body|);
    FrameParts(t, len, body, rest);
    DecodeEncode(typ, len + body + rest);
    DecodeEncode(|body|, body + rest);
  }

  lemma ParseEncoded(c: Capsule, rest: seq<Byte>)
    requires Encodable(c)
    ensures ParseOne(Encode(c) + rest) == Some((c, |Encode(c)|))
  {
    ParseFramed(TypeOf(c), BodyOf(c), rest);
    InterpretEncoded(c);
  }

  /** Any sequence of capsules survives encoding, concatenation and parsing. */
  lemma {:induction false} WireRoundTrip(cs: seq<Capsule>)
    requires forall i :: 0 <= i < |cs| ==> Encodable(cs[i])
    ensures ParseAll(EncodeAll(cs)) == Parsed(cs, [])
  {
    if cs != [] {
      var c, tail := cs[0], EncodeAll(cs[1..]);
      ParseEncoded(c, tail);
      assert (Encode(c) + tail)[|Encode(c)|..] == tail;
      WireRoundTrip(cs[1..]);
      assert [c] + cs[1..] == cs;
    }
  }

  lemma ParseOnePrefix(a: seq<Byte>, b: seq<Byte>)
    requires ParseOne(a).Some?
    ensures ParseOne(a + b) == ParseOne(a)
  {
    DecodePrefix(a, b);
    var (typ, n) := Decode(a).value;
    DecodePrefix(a[n..], b);
    assert (a + b)[n..] == a[n..] + b;
    var (len, m) := Decode(a[n..]).value;
    assert (a + b)[n + m..n + m + len] == a[n + m..n + m + len];
  }

  lemma PrependParsed(c: Capsule, first: Parsed, second: Parsed)
    ensures [c] + (first.capsules + second.capsules) == ([c] + first.capsules) + second.capsules
  {
  }

  /** Parsing may stop at any byte and go on later: for arbitrary bytes, cut
      anywhere, the capsules found are the same. */
  lemma {:induction false} ParseIncrementally(a: seq<Byte>, b: seq<Byte>)
    ensures var first := ParseAll(a);
            var second := ParseAll(first.rest + b);
            ParseAll(a + b) == Parsed(first.capsules + second.capsules, second.rest)
    decreases |a|
  {
    if ParseOne(a).Some? {
      var (c, n) := ParseOne(a).value;
      ParseOnePrefix(a, b);
      assert (a + b)[n..] == a[n..] + b;
      ParseIncrementally(a[n..], b);
      PrependParsed(c, ParseAll(a[n..]), ParseAll(ParseAll(a[n..]).rest + b));
    } else {
      assert ParseAll(a) == Parsed([], a);
    }
  }

  lemma {:induction false} PartialParse(a: seq<Byte>, b: seq<Byte>)
    ensures ParseAll(a).capsules <= ParseAll(a + b).capsules
  {
    ParseIncrementally(a, b);
  }

  /** A connection cut at any byte yields a prefix of what was sent. */
  lemma {:induction false} TruncationYieldsPrefix(cs: seq<Capsule>, got: seq<Byte>, lost: seq<Byte>)
    requires forall i :: 0 <= i < |cs| ==> Encodable(cs[i])
    requires got + lost == EncodeAll(cs)
    ensures ParseAll(got).capsules <= cs
  {
    WireRoundTrip(cs);
    PartialParse(got, lost);
  }
}
