/** The packets of src/mc_pakets.hpp and their frames: a VarInt length, a VarInt id, the
    fields. Field formats follow the Minecraft Java Edition protocol ("Packet format,
    without compression"): strings are VarInt-prefixed bytes, numbers are big-endian. */
module Pakets {
  import opened VarInts

  type uint16 = x: int | 0 <= x < 0x1_0000
  type int64 = x: int | -0x8000_0000_0000_0000 <= x < 0x8000_0000_0000_0000

  datatype Packet =
    | Handshake(version: int32, address: bytes, port: uint16, state: int32)
    | Request
    | Response(message: bytes)
    | Ping(payload: int64)
    | Disconnect(message: bytes)
    | Login(name: bytes)

  /** Which packet type a caller reads: ids alone do not tell them apart. */
  datatype Kind = AHandshake | ARequest | AResponse | APing | ADisconnect | ALogin

  function KindOf(p: Packet): Kind {
    match p
    case Handshake(_, _, _, _) => AHandshake
    case Request => ARequest
    case Response(_) => AResponse
    case Ping(_) => APing
    case Disconnect(_) => ADisconnect
    case Login(_) => ALogin
  }

  function IdOf(k: Kind): int32 {
    if k.APing? then 1 else 0
  }

  // ---------- fields ----------

  function BigEndian(u: nat, width: nat): (b: bytes)
    ensures |b| == width
  {
    if width == 0 then [] else BigEndian(u / 256, width - 1) + [Byte(u % 256)]
  }

  function FromBigEndian(b: bytes): nat {
    if b == [] then 0 else 256 * FromBigEndian(b[..|b| - 1]) + b[|b| - 1] as int
  }

  function String(s: bytes): bytes {
    VarInt(|s|) + s
  }

  datatype Parsed<T> = Bad | Good(value: T, rest: bytes)

  function ReadNumber(b: bytes): (r: Parsed<int32>) {
    match ReadVarInt(b)
    case Number(v, n) => Good(v, b[n..])
    case _ => Bad
  }

  function ReadString(b: bytes): (r: Parsed<bytes>) {
    match ReadNumber(b)
    case Good(len, rest) => if 0 <= len <= |rest| then Good(rest[..len], rest[len..]) else Bad
    case Bad => Bad
  }

  function ReadBigEndian(b: bytes, width: nat): (r: Parsed<nat>) {
    if width <= |b| then Good(FromBigEndian(b[..width]), b[width..]) else Bad
  }

  // ---------- frames ----------

  function Fields(p: Packet): bytes {
    match p
    case Handshake(v, a, port, s) => VarInt(v) + (String(a) + (BigEndian(port, 2) + VarInt(s)))
    case Request => []
    case Response(m) => String(m)
    case Ping(x) => BigEndian(x % 0x1_0000_0000_0000_0000, 8)
    case Disconnect(m) => String(m)
    case Login(n) => String(n)
  }

  function Body(p: Packet): bytes {
    VarInt(IdOf(KindOf(p))) + Fields(p)
  }

  /** packet.write: the whole frame. */
  function Encode(p: Packet): bytes {
    VarInt(|Body(p)|) + Body(p)
  }

  /** What an int32 length field can announce. */
  predicate Encodable(p: Packet) {
    |Body(p)| < TWO_31
  }

  function ReadFields(k: Kind, b: bytes): (r: Parsed<Packet>)
    ensures r.Good? ==> KindOf(r.value) == k
  {
    match k
    case ARequest => Good(Request, b)
    case AResponse => (match ReadString(b) case Good(m, rest) => Good(Response(m), rest) case Bad => Bad)
    case ADisconnect => (match ReadString(b) case Good(m, rest) => Good(Disconnect(m), rest) case Bad => Bad)
    case ALogin => (match ReadString(b) case Good(m, rest) => Good(Login(m), rest) case Bad => Bad)
    case APing =>
      (match ReadBigEndian(b, 8)
       case Good(u, rest) => Good(Ping(SignedPayload(u)), rest)
       case Bad => Bad)
    case AHandshake => ReadHandshake(b)
  }

  function ReadPort(b: bytes): (r: Parsed<uint16>) {
    match ReadBigEndian(b, 2)
    case Bad => Bad
    case Good(u, rest) => Good(u % 0x1_0000, rest)
  }

  function ReadHandshake(b: bytes): (r: Parsed<Packet>)
    ensures r.Good? ==> r.value.Handshake?
  {
    match ReadNumber(b)
    case Bad => Bad
    case Good(version, b1) =>
      match ReadString(b1)
      case Bad => Bad
      case Good(address, b2) =>
        match ReadPort(b2)
        case Bad => Bad
        case Good(port, b3) =>
          match ReadNumber(b3)
          case Bad => Bad
          case Good(state, rest) => Good(Handshake(version, address, port, state), rest)
  }

  function SignedPayload(u: nat): int64 {
    var r := u % 0x1_0000_0000_0000_0000;
    if r < 0x8000_0000_0000_0000 then r else r - 0x1_0000_0000_0000_0000
  }

  datatype Decoded = Rejected | Accepted(packet: Packet)

  /** packet.read on the bytes of one frame, and the caller's check that it used all of them
      (src/client.cpp:20-22, src/sclient.hpp:39-40). A foreign id is rejected. */
  function Decode(k: Kind, frame: bytes): (d: Decoded)
    ensures d.Accepted? ==> KindOf(d.packet) == k
  {
    match ReadNumber(frame)
    case Bad => Rejected
    case Good(size, body) =>
      match ReadNumber(body)
      case Bad => Rejected
      case Good(id, fields) =>
        if id != IdOf(k) then Rejected
        else
          match ReadFields(k, fields)
          case Bad => Rejected
          case Good(p, rest) => if rest == [] then Accepted(p) else Rejected
  }

  // ---------- head ----------

  datatype Head = Partial | Broken | Frame(id: int32, total: nat)

  const NO_LIMIT: int := -1

  /** gate::head: Frame when the whole frame is buffered, Partial for `false`, Broken for an
      exception. `size += s` is int arithmetic and the comparison is on std::size_t, so a
      total past the int range never fits (src/client.cpp:40-52). */
  function HeadOf(b: bytes, maxSize: int): (h: Head)
    ensures h.Frame? ==> 1 <= h.total <= |b|
  {
    match ReadVarInt(b)
    case Unfinished => Partial
    case Malformed => Broken
    case Number(size, n) =>
      match ReadVarInt(b[n..])
      case Unfinished => Partial
      case Malformed => Broken
      case Number(id, _) =>
        if size < 0 then Broken
        else if maxSize != NO_LIMIT && size > maxSize then Broken
        else if n + size < TWO_31 && n + size <= |b| then Frame(id, n + size)
        else Partial
  }

  /** f is one whole frame that carries its own id. */
  predicate IsFrame(f: bytes, maxSize: int) {
    HeadOf(f, maxSize).Frame? && HeadOf(f, maxSize).total == |f|
  }

  /** A frame that the reader of packets of kind k takes, giving p. */
  predicate Carries(f: bytes, maxSize: int, p: Packet) {
    IsFrame(f, maxSize) && Decode(KindOf(p), f) == Accepted(p)
  }

  // ---------- codec round trips ----------

  function Pow256(k: nat): nat {
    if k == 0 then 1 else 256 * Pow256(k - 1)
  }

  lemma {:induction false} BigEndianRoundTrip(u: nat, width: nat)
    requires u < Pow256(width)
    ensures FromBigEndian(BigEndian(u, width)) == u
  {
    if width > 0 {
      var high, low := u / 256, Byte(u % 256);
      var front := BigEndian(high, width - 1);
      var b := front + [low];
      BigEndianRoundTrip(high, width - 1);
      assert b[..|b| - 1] == front;
      assert FromBigEndian(b) == 256 * FromBigEndian(front) + low as int;
    }
  }

  lemma NumberRoundTrip(x: int32, rest: bytes)
    ensures ReadNumber(VarInt(x) + rest) == Good(x, rest)
  {
    VarIntRoundTrip(x, rest);
    assert (VarInt(x) + rest)[|VarInt(x)|..] == rest;
  }

  lemma StringRoundTrip(s: bytes, rest: bytes)
    requires |s| < TWO_31
    ensures ReadString(String(s) + rest) == Good(s, rest)
  {
    assert String(s) + rest == VarInt(|s|) + (s + rest);
    NumberRoundTrip(|s|, s + rest);
    assert (s + rest)[..|s|] == s && (s + rest)[|s|..] == rest;
  }

  lemma FixedRoundTrip(u: nat, width: nat, rest: bytes)
    requires u < Pow256(width)
    ensures ReadBigEndian(BigEndian(u, width) + rest, width) == Good(u, rest)
  {
    BigEndianRoundTrip(u, width);
    var b := BigEndian(u, width) + rest;
    assert b[..width] == BigEndian(u, width) && b[width..] == rest;
  }

  lemma PortRoundTrip(port: uint16, rest: bytes)
    ensures ReadPort(BigEndian(port, 2) + rest) == Good(port, rest)
  {
    assert Pow256(2) == 256 * Pow256(1) == 0x1_0000;
    FixedRoundTrip(port, 2, rest);
  }

  lemma HandshakeRoundTrip(v: int32, a: bytes, port: uint16, s: int32)
    requires |a| < TWO_31
    ensures ReadHandshake(VarInt(v) + (String(a) + (BigEndian(port, 2) + VarInt(s))))
         == Good(Handshake(v, a, port, s), [])
  {
    var b3 := VarInt(s);
    var p2 := BigEndian(port, 2);
    var b2 := p2 + b3;
    var s1 := String(a);
    var b1 := s1 + b2;
    NumberRoundTrip(v, b1);
    StringRoundTrip(a, b2);
    PortRoundTrip(port, b3);
    NumberRoundTrip(s, []);
    assert b3 + [] == b3;
  }

  lemma PayloadBack(x: int64)
    ensures SignedPayload(x % 0x1_0000_0000_0000_0000) == x
  {
  }

  lemma PingRoundTrip(x: int64)
    ensures ReadFields(APing, Fields(Ping(x))) == Good(Ping(x), [])
  {
    hide Pow256, SignedPayload, BigEndian, ReadBigEndian;
    var u := x % 0x1_0000_0000_0000_0000;
    var f := BigEndian(u, 8);
    PayloadRange();
    FixedRoundTrip(u, 8, []);
    assert f + [] == f;
    PayloadBack(x);
  }

  lemma FieldsRoundTrip(p: Packet)
    requires Encodable(p)
    ensures ReadFields(KindOf(p), Fields(p)) == Good(p, [])
  {
    var f := Fields(p);
    assert f + [] == f;
    match p
    case Handshake(v, a, port, s) => HandshakeRoundTrip(v, a, port, s);
    case Request =>
    case Response(m) => StringRoundTrip(m, []);
    case Disconnect(m) => StringRoundTrip(m, []);
    case Login(n) => StringRoundTrip(n, []);
    case Ping(x) => PingRoundTrip(x);
  }

  lemma PayloadRange()
    ensures Pow256(8) == 0x1_0000_0000_0000_0000
  {
    assert Pow256(2) == 0x1_0000;
    assert Pow256(4) == 256 * (256 * Pow256(2));
    assert Pow256(6) == 256 * (256 * Pow256(4));
    assert Pow256(8) == 256 * (256 * Pow256(6));
  }

  /** decode(encode(p)) == p, for every packet an int32 length can announce. */
  lemma CodecRoundTrip(p: Packet)
    requires Encodable(p)
    ensures Decode(KindOf(p), Encode(p)) == Accepted(p)
  {
    NumberRoundTrip(|Body(p)|, Body(p));
    NumberRoundTrip(IdOf(KindOf(p)), Fields(p));
    FieldsRoundTrip(p);
  }

  // ---------- framing ----------

  lemma HeadOfEncoded(p: Packet, maxSize: int)
    requires |Encode(p)| < TWO_31
    requires maxSize == NO_LIMIT || |Body(p)| <= maxSize
    ensures HeadOf(Encode(p), maxSize) == Frame(IdOf(KindOf(p)), |Encode(p)|)
  {
    var body := Body(p);
    var fields := Fields(p);
    VarIntRoundTrip(|body|, body);
    VarIntRoundTrip(IdOf(KindOf(p)), fields);
    assert Encode(p)[|VarInt(|body|)|..] == body;
  }

  /** What a writer of this library sends is a frame the matching reader takes. */
  lemma EncodedCarries(p: Packet, maxSize: int)
    requires |Encode(p)| < TWO_31
    requires maxSize == NO_LIMIT || |Body(p)| <= maxSize
    ensures Carries(Encode(p), maxSize, p)
  {
    HeadOfEncoded(p, maxSize);
    CodecRoundTrip(p);
  }

  /** An accepted frame has its length and its id inside it. */
  lemma DecodeNumbers(k: Kind, f: bytes)
    requires Decode(k, f).Accepted?
    ensures ReadVarInt(f).Number? && ReadVarInt(f[ReadVarInt(f).length..]).Number?
  {
  }

  /** gate::head over a stream that starts with the frame f, when only its first k bytes
      have arrived: it answers true exactly when the whole frame is there, and never throws. */
  lemma HeadOnStream(f: bytes, rest: bytes, k: nat, maxSize: int)
    requires IsFrame(f, maxSize)
    requires k <= |f + rest|
    ensures HeadOf((f + rest)[..k], maxSize)
         == if k < |f| then Partial else HeadOf(f, maxSize)
  {
    var n := ReadVarInt(f).length;
    var m := ReadVarInt(f[n..]).length;
    if k >= |f| {
      assert (f + rest)[..k] == f + rest[..k - |f|];
      HeadExtends(f, rest[..k - |f|], maxSize);
    } else {
      assert (f + rest)[..k] == f[..k];
      if k < n {
        ReadCut(f, k);
      } else {
        var b := f[..k];
        ReadPrefix(f, k);
        assert b[n..] == f[n..][..k - n];
        if k < n + m {
          ReadCut(f[n..], k - n);
        } else {
          ReadPrefix(f[n..], k - n);
        }
      }
    }
  }

  lemma HeadExtends(f: bytes, more: bytes, maxSize: int)
    requires IsFrame(f, maxSize)
    ensures HeadOf(f + more, maxSize) == HeadOf(f, maxSize)
  {
    var n := ReadVarInt(f).length;
    ReadExtends(f, more);
    assert (f + more)[n..] == f[n..] + more;
    ReadExtends(f[n..], more);
  }

  lemma ReadPrefix(b: bytes, k: nat)
    requires ReadVarInt(b).Number? && ReadVarInt(b).length <= k <= |b|
    ensures ReadVarInt(b[..k]) == ReadVarInt(b)
  {
    assert b == b[..k] + b[k..];
    ReadExtends(b[..k], b[k..]);
    if ReadVarInt(b[..k]).Unfinished? {
      PrefixFinishes(b, k, 5);
    }
  }

  lemma {:induction false} PrefixFinishes(b: bytes, k: nat, left: nat)
    requires ScanGroups(b, left).Got? && ScanGroups(b, left).length <= k <= |b|
    ensures ScanGroups(b[..k], left).Got?
    decreases left
  {
    if b[0] as int >= 128 {
      assert b[..k][1..] == b[1..][..k - 1];
      PrefixFinishes(b[1..], k - 1, left - 1);
    }
  }

  /** No frame is a proper prefix of another, so a stream splits into frames in one way. */
  lemma PrefixFree(f: bytes, g: bytes, maxSize: int)
    requires IsFrame(f, maxSize) && IsFrame(g, maxSize) && f <= g
    ensures f == g
  {
    assert g == f + g[|f|..];
    HeadOnStream(f, g[|f|..], |g|, maxSize);
    assert (f + g[|f|..])[..|g|] == g;
  }

  /** The id is inside the frame that head() announces. */
  predicate IdInside(b: bytes, maxSize: int)
    requires HeadOf(b, maxSize).Frame?
  {
    var n := ReadVarInt(b).length;
    n + ReadVarInt(b[n..]).length <= HeadOf(b, maxSize).total
  }

  /** head() answers true with the id inside if and only if a whole frame of allowed size is
      buffered, and then its length is the frame's. */
  lemma HeadExactly(b: bytes, maxSize: int)
    ensures HeadOf(b, maxSize).Frame? && IdInside(b, maxSize)
       <==> exists k :: 0 <= k <= |b| && IsFrame(b[..k], maxSize)
    ensures forall k :: 0 <= k <= |b| && IsFrame(b[..k], maxSize) ==> k == HeadOf(b, maxSize).total
  {
    forall k | 0 <= k <= |b| && IsFrame(b[..k], maxSize)
      ensures HeadOf(b, maxSize).Frame? && IdInside(b, maxSize) && k == HeadOf(b, maxSize).total
    {
      assert b == b[..k] + b[k..];
      HeadExtends(b[..k], b[k..], maxSize);
      IdStays(b[..k], b[k..], maxSize);
    }
    if HeadOf(b, maxSize).Frame? && IdInside(b, maxSize) {
      FrameCut(b, maxSize);
    }
  }

  lemma IdStays(f: bytes, more: bytes, maxSize: int)
    requires IsFrame(f, maxSize)
    ensures HeadOf(f + more, maxSize).Frame? && IdInside(f + more, maxSize)
  {
    var n := ReadVarInt(f).length;
    ReadExtends(f, more);
    assert (f + more)[n..] == f[n..] + more;
    ReadExtends(f[n..], more);
  }

  lemma FrameCut(b: bytes, maxSize: int)
    requires HeadOf(b, maxSize).Frame? && IdInside(b, maxSize)
    ensures IsFrame(b[..HeadOf(b, maxSize).total], maxSize)
  {
    var k, n := HeadOf(b, maxSize).total, ReadVarInt(b).length;
    ReadPrefix(b, k);
    assert b[..k][n..] == b[n..][..k - n];
    ReadPrefix(b[n..], k - n);
  }

  /** A length of zero is such a case: head() takes the id from behind the frame. */
  lemma IdBehind()
    ensures var b: bytes := [Byte(0), Byte(1)];
            HeadOf(b, NO_LIMIT) == Frame(1, 1) && forall k :: 0 <= k <= 2 ==> !IsFrame(b[..k], NO_LIMIT)
  {
    var b: bytes := [Byte(0), Byte(1)];
    assert ReadVarInt(b) == Number(0, 1) && b[1..] == [Byte(1)] && ReadVarInt([Byte(1)]) == Number(1, 1);
    HeadExactly(b, NO_LIMIT);
  }

  /** When it throws, no further byte would have helped. */
  lemma BrokenStays(b: bytes, more: bytes, maxSize: int)
    requires HeadOf(b, maxSize).Broken?
    ensures HeadOf(b + more, maxSize).Broken?
  {
    ReadExtends(b, more);
    if ReadVarInt(b).Number? {
      var n := ReadVarInt(b).length;
      assert (b + more)[n..] == b[n..] + more;
      ReadExtends(b[n..], more);
    }
  }

  // ---------- every byte counts ----------

  lemma NumberExtends(b: bytes, more: bytes)
    requires ReadNumber(b).Good?
    ensures ReadNumber(b + more) == Good(ReadNumber(b).value, ReadNumber(b).rest + more)
  {
    ReadExtends(b, more);
    var n := ReadVarInt(b).length;
    assert (b + more)[n..] == b[n..] + more;
  }

  lemma StringExtends(b: bytes, more: bytes)
    requires ReadString(b).Good?
    ensures ReadString(b + more) == Good(ReadString(b).value, ReadString(b).rest + more)
  {
    NumberExtends(b, more);
    var n, rest := ReadNumber(b).value, ReadNumber(b).rest;
    assert (rest + more)[..n] == rest[..n] && (rest + more)[n..] == rest[n..] + more;
  }

  lemma BigEndianExtends(b: bytes, width: nat, more: bytes)
    requires width <= |b|
    ensures ReadBigEndian(b + more, width) == Good(ReadBigEndian(b, width).value, ReadBigEndian(b, width).rest + more)
  {
    assert (b + more)[..width] == b[..width] && (b + more)[width..] == b[width..] + more;
  }

  lemma HandshakeExtends(b: bytes, more: bytes)
    requires ReadHandshake(b).Good?
    ensures ReadHandshake(b + more) == Good(ReadHandshake(b).value, ReadHandshake(b).rest + more)
  {
    hide ReadNumber, ReadString, ReadBigEndian;
    var b1 := ReadNumber(b).rest;
    NumberExtends(b, more);
    var b2 := ReadString(b1).rest;
    StringExtends(b1, more);
    assert ReadPort(b2).Good?;
    var b3 := ReadPort(b2).rest;
    PortExtends(b2, more);
    NumberExtends(b3, more);
  }

  lemma PortExtends(b: bytes, more: bytes)
    requires ReadPort(b).Good?
    ensures ReadPort(b + more) == Good(ReadPort(b).value, ReadPort(b).rest + more)
  {
    BigEndianExtends(b, 2, more);
  }

  lemma FieldsExtend(k: Kind, b: bytes, more: bytes)
    requires ReadFields(k, b).Good?
    ensures ReadFields(k, b + more) == Good(ReadFields(k, b).value, ReadFields(k, b).rest + more)
  {
    hide ReadString, ReadHandshake, FromBigEndian, SignedPayload;
    match k
    case AHandshake => HandshakeExtends(b, more);
    case ARequest =>
    case APing => BigEndianExtends(b, 8, more);
    case _ => StringExtends(b, more);
  }

  /** The reader uses every byte of the frame: with anything behind it, it is refused. */
  lemma NoSlack(k: Kind, f: bytes, more: bytes)
    requires Decode(k, f).Accepted? && more != []
    ensures Decode(k, f + more).Rejected?
  {
    hide ReadNumber, ReadFields;
    NumberExtends(f, more);
    var body := ReadNumber(f).rest;
    NumberExtends(body, more);
    FieldsExtend(k, ReadNumber(body).rest, more);
    assert [] + more == more;
  }

  // ---------- sizes ----------

  /** The ten bytes of slack in paket_write and kostilA/B always hold both VarInts
      (src/client.cpp:28, 56, 66). */
  lemma SlackSuffices(p: Packet)
    ensures |Encode(p)| <= 10 + |Fields(p)|
    ensures |Encode(p)| == SizeVarInt(|Body(p)|) + SizeVarInt(IdOf(KindOf(p))) + |Fields(p)|
  {
    VarIntSize(|Body(p)|);
    VarIntSize(IdOf(KindOf(p)));
  }

  /** sclient::write_paket measures the length prefix from the field size alone, without the
      id (src/sclient.hpp:47-48). */
  function ClientSize(p: Packet): nat {
    |Fields(p)| + SizeVarInt(IdOf(KindOf(p))) + SizeVarInt(|Fields(p)|)
  }

  /** That size is right for exactly the field sizes at which one more byte does not
      lengthen the prefix. */
  lemma ClientSizeExact(p: Packet)
    requires Encodable(p)
    ensures ClientSize(p) == |Encode(p)| <==> |Fields(p)| !in {0x7F, 0x3FFF, 0x1F_FFFF, 0xFFF_FFFF}
    ensures ClientSize(p) <= |Encode(p)|
  {
    hide SizeVarInt, Fields;
    SlackSuffices(p);
    VarIntSize(IdOf(KindOf(p)));
    PrefixGrows(|Fields(p)|);
  }

  lemma PrefixGrows(n: nat)
    requires n + 1 < TWO_31
    ensures SizeVarInt(n) <= SizeVarInt(n + 1)
    ensures SizeVarInt(n) == SizeVarInt(n + 1) <==> n !in {0x7F, 0x3FFF, 0x1F_FFFF, 0xFFF_FFFF}
  {
    assert ToUnsigned(n) == n && ToUnsigned(n + 1) == n + 1;
  }
}
