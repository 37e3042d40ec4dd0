/** What the packets look like on the wire, byte by byte: the ids of src/mc_pakets.hpp and the
    field formats of the Minecraft Java Edition protocol ("VarInt and VarLong", "Packet format,
    without compression"), said without the functions that write and read them. */
module Wire {
  import opened VarInts
  import opened Pakets

  function Power(base: nat, k: nat): (p: nat)
    ensures base > 0 ==> p > 0
  {
    if k == 0 then 1 else base * Power(base, k - 1)
  }

  /** The i-th byte of a number holds its i-th group of seven bits, and its top bit says whether
      another byte follows. */
  lemma {:induction false} GroupsSpelled(u: nat, i: nat)
    requires i < |Groups(u)|
    ensures Groups(u)[i] as int % 128 == u / Power(128, i) % 128
    ensures Groups(u)[i] as int >= 128 <==> i < |Groups(u)| - 1
  {
    if i > 0 {
      assert Groups(u)[i] == Groups(u / 128)[i - 1];
      GroupsSpelled(u / 128, i - 1);
      DivideTwice(u, 128, Power(128, i - 1));
    }
  }

  lemma DivideTwice(u: nat, a: nat, b: nat)
    requires a > 0 && b > 0
    ensures a * b > 0 && u / a / b == u / (a * b)
  {
    var q, r := u / a, u % a;
    var p, t := q / b, q % b;
    Regroup(a, b, p, t, r);
    assert u == a * q + r && q == b * p + t;
    QuotientIs(u, a * b, p, a * t + r);
  }

  lemma Regroup(a: nat, b: nat, p: nat, t: nat, r: nat)
    requires t < b && r < a
    ensures a * (b * p + t) + r == a * b * p + (a * t + r)
    ensures 0 <= a * t + r < a * b
  {
    assert a * (b * p + t) == a * (b * p) + a * t;
    assert a * (b * p) == a * b * p;
    TimesLess(a, t, b - 1);
    assert a * (b - 1) == a * b - a;
  }

  lemma TimesLess(a: nat, t: int, s: int)
    requires t <= s
    ensures a * t <= a * s
  {
  }

  lemma QuotientIs(u: nat, n: nat, p: nat, r: nat)
    requires n > 0 && u == n * p + r && r < n
    ensures u / n == p
  {
    var d := u / n - p;
    assert u == n * (u / n) + u % n;
    assert n * d == n * (u / n) - n * p == r - u % n;
    Multiples(n, d);
  }

  lemma Multiples(n: nat, d: int)
    ensures d >= 1 ==> n * d >= n
    ensures d <= -1 ==> n * d + n <= 0
  {
    if d >= 1 {
      TimesLess(n, 1, d);
    } else if d <= -1 {
      var e: int := -d;
      TimesLess(n, 1, e);
      assert n * d + n * e == n * (d + e) == 0;
    }
  }

  /** A negative number is written as the unsigned number with the same 32 bits. */
  lemma NegativeSpelled(x: int32)
    requires x < 0
    ensures VarInt(x) == Groups(x + 0x1_0000_0000) && |VarInt(x)| == 5
  {
    VarIntSize(x);
  }

  /** Big-endian: the first byte is the most significant. */
  lemma {:induction false} BigEndianSpelled(u: nat, width: nat, i: nat)
    requires i < width
    ensures BigEndian(u, width)[i] as int == u / Power(256, width - 1 - i) % 256
  {
    if i < width - 1 {
      assert BigEndian(u, width)[i] == BigEndian(u / 256, width - 1)[i];
      BigEndianSpelled(u / 256, width - 1, i);
      DivideTwice(u, 256, Power(256, width - 2 - i));
    }
  }

  /** Only a ping has the id 1; all the others have 0. */
  lemma IdsOnWire(p: Packet)
    requires |Encode(p)| < TWO_31
    ensures HeadOf(Encode(p), NO_LIMIT) == Frame(if p.Ping? then 1 else 0, |Encode(p)|)
  {
    HeadOfEncoded(p, NO_LIMIT);
  }

  /** A frame, spelled out: the length of what follows, the id, the fields. */
  lemma FrameSpelled(p: Packet)
    ensures Encode(p) == VarInt(|Fields(p)| + 1) + ([Byte(if p.Ping? then 1 else 0)] + Fields(p))
  {
    hide Fields;
    Small(0);
    Small(1);
  }

  /** The fields: a VarInt each for version, state and lengths, a string behind its length, a port
      in two bytes. */
  lemma FieldsSpelled(p: Packet)
    ensures match p
            case Handshake(v, a, port, s) =>
              Fields(p) == VarInt(v) + (VarInt(|a|) + a + ([Byte(port / 256), Byte(port % 256)] + VarInt(s)))
            case Request => Fields(p) == []
            case Response(m) => Fields(p) == VarInt(|m|) + m
            case Ping(x) => |Fields(p)| == 8
            case Disconnect(m) => Fields(p) == VarInt(|m|) + m
            case Login(n) => Fields(p) == VarInt(|n|) + n
  {
    if p.Handshake? {
      PortSpelled(p.port);
    }
  }

  /** A payload is its 64 bits, the most significant byte first. */
  lemma PingSpelled(x: int64, i: nat)
    requires i < 8
    ensures var u: nat := if x < 0 then x + 0x1_0000_0000_0000_0000 else x;
            Fields(Ping(x))[i] as int == u / Power(256, 7 - i) % 256
  {
    hide BigEndian, Power;
    BigEndianSpelled(x % 0x1_0000_0000_0000_0000, 8, i);
  }

  lemma PortSpelled(port: uint16)
    ensures BigEndian(port, 2) == [Byte(port / 256), Byte(port % 256)]
  {
    assert BigEndian(port / 256, 1) == [] + [Byte(port / 256 % 256)];
  }

  /** head() on any two numbers and what follows them: exactly which lengths it refuses, and for
      which it answers true. */
  lemma HeadSpelled(size: int32, id: int32, rest: bytes, maxSize: int)
    ensures var b := VarInt(size) + (VarInt(id) + rest); var total := |VarInt(size)| + size;
            HeadOf(b, maxSize) == if size < 0 || (maxSize != -1 && size > maxSize) then Broken
                                  else if total < TWO_31 && total <= |b| then Frame(id, total)
                                  else Partial
  {
    var b := VarInt(size) + (VarInt(id) + rest);
    VarIntRoundTrip(size, VarInt(id) + rest);
    assert b[|VarInt(size)|..] == VarInt(id) + rest;
    VarIntRoundTrip(id, rest);
  }

  // ---------- frames of the protocol ----------

  lemma SampleNumbers()
    ensures VarInt(0) == [Byte(0x00)] && VarInt(127) == [Byte(0x7F)]
    ensures VarInt(128) == [Byte(0x80), Byte(0x01)] && VarInt(255) == [Byte(0xFF), Byte(0x01)]
    ensures VarInt(25565) == [Byte(0xDD), Byte(0xC7), Byte(0x01)]
  {
    Three(25565);
  }

  lemma SampleWideNumbers()
    ensures VarInt(0x7FFF_FFFF) == [Byte(0xFF), Byte(0xFF), Byte(0xFF), Byte(0xFF), Byte(0x07)]
    ensures VarInt(-1) == [Byte(0xFF), Byte(0xFF), Byte(0xFF), Byte(0xFF), Byte(0x0F)]
    ensures VarInt(-0x8000_0000) == [Byte(0x80), Byte(0x80), Byte(0x80), Byte(0x80), Byte(0x08)]
  {
    hide Groups;
    Five(0x7FFF_FFFF);
    Five(0xFFFF_FFFF);
    Five(0x8000_0000);
  }

  lemma Three(u: nat)
    requires 0x4000 <= u < 0x20_0000
    ensures Groups(u) == [Byte(u % 128 + 128), Byte(u / 128 % 128 + 128), Byte(u / 128 / 128)]
  {
    assert Groups(u / 128 / 128) == [Byte(u / 128 / 128)];
    assert Groups(u / 128) == [Byte(u / 128 % 128 + 128)] + Groups(u / 128 / 128);
  }

  lemma Five(u: nat)
    requires 0x1000_0000 <= u < TWO_32
    ensures Groups(u) == [Byte(u % 128 + 128), Byte(u / 128 % 128 + 128), Byte(u / 128 / 128 % 128 + 128),
                          Byte(u / 128 / 128 / 128 % 128 + 128), Byte(u / 128 / 128 / 128 / 128)]
  {
    Three(u / 128 / 128);
    assert Groups(u / 128) == [Byte(u / 128 % 128 + 128)] + Groups(u / 128 / 128);
    assert Groups(u) == [Byte(u % 128 + 128)] + Groups(u / 128);
  }

  lemma Small(n: nat)
    requires n < 128
    ensures VarInt(n) == [Byte(n)]
  {
  }

  /** A short frame, from the bytes of its fields. */
  lemma ShortFrame(p: Packet, f: bytes)
    requires Fields(p) == f && |f| < 127
    ensures Encode(p) == [Byte(|f| + 1), Byte(if p.Ping? then 1 else 0)] + f
    ensures Decode(KindOf(p), Encode(p)) == Accepted(p)
  {
    hide Encode, Decode, Fields, VarInt;
    FrameSpelled(p);
    Small(|f| + 1);
    ShortBody(p);
    CodecRoundTrip(p);
  }

  lemma ShortBody(p: Packet)
    requires |Fields(p)| < 127
    ensures Encodable(p)
  {
    hide Fields;
    VarIntSize(IdOf(KindOf(p)));
  }

  /** One frame of each packet, written and read. */
  lemma SampleHandshake()
    ensures var p := Handshake(47, "a", 25565, 1);
            var f := [Byte(0x07), Byte(0x00), Byte(0x2F), Byte(0x01), Byte(0x61), Byte(0x63), Byte(0xDD), Byte(0x01)];
            Encode(p) == f && Decode(AHandshake, f) == Accepted(p)
  {
    hide Encode, Decode, Fields, VarInt;
    var p := Handshake(47, "a", 25565, 1);
    FieldsSpelled(p);
    Small(47);
    Small(1);
    ShortFrame(p, [Byte(0x2F), Byte(0x01), Byte(0x61), Byte(0x63), Byte(0xDD), Byte(0x01)]);
  }

  lemma SampleRequest()
    ensures var f := [Byte(0x01), Byte(0x00)];
            Encode(Request) == f && Decode(ARequest, f) == Accepted(Request)
  {
    hide Encode, Decode, VarInt;
    ShortFrame(Request, []);
  }

  lemma SampleResponse()
    ensures var p, f := Response("{}"), [Byte(0x04), Byte(0x00), Byte(0x02), Byte(0x7B), Byte(0x7D)];
            Encode(p) == f && Decode(AResponse, f) == Accepted(p)
  {
    hide Encode, Decode, Fields, VarInt;
    FieldsSpelled(Response("{}"));
    Small(2);
    ShortFrame(Response("{}"), [Byte(0x02), Byte(0x7B), Byte(0x7D)]);
  }

  lemma SampleLogin()
    ensures var p, f := Login("Me"), [Byte(0x04), Byte(0x00), Byte(0x02), Byte(0x4D), Byte(0x65)];
            Encode(p) == f && Decode(ALogin, f) == Accepted(p)
  {
    hide Encode, Decode, Fields, VarInt;
    FieldsSpelled(Login("Me"));
    Small(2);
    ShortFrame(Login("Me"), [Byte(0x02), Byte(0x4D), Byte(0x65)]);
  }

  lemma SampleDisconnect()
    ensures var p, f := Disconnect("{}"), [Byte(0x04), Byte(0x00), Byte(0x02), Byte(0x7B), Byte(0x7D)];
            Encode(p) == f && Decode(ADisconnect, f) == Accepted(p)
  {
    hide Encode, Decode, Fields, VarInt;
    FieldsSpelled(Disconnect("{}"));
    Small(2);
    ShortFrame(Disconnect("{}"), [Byte(0x02), Byte(0x7B), Byte(0x7D)]);
  }

  /** Pings of 258 and -2: eight bytes, the most significant first, negative numbers in two's
      complement. */
  lemma SamplePing()
    ensures var p := Ping(258);
            var f := [Byte(9), Byte(1), Byte(0), Byte(0), Byte(0), Byte(0), Byte(0), Byte(0), Byte(1), Byte(2)];
            Encode(p) == f && Decode(APing, f) == Accepted(p)
  {
    hide Encode, Decode, VarInt, BigEndian;
    Payload258();
    ShortFrame(Ping(258), BigEndian(258, 8));
  }

  lemma Payload258()
    ensures BigEndian(258, 8) == [Byte(0), Byte(0), Byte(0), Byte(0), Byte(0), Byte(0), Byte(1), Byte(2)]
  {
    Zeros(6);
    assert BigEndian(258, 8) == BigEndian(1, 7) + [Byte(2)] && BigEndian(1, 7) == BigEndian(0, 6) + [Byte(1)];
  }

  lemma {:induction false} Zeros(width: nat)
    ensures BigEndian(0, width) == seq(width, _ => Byte(0))
  {
    if width > 0 {
      Zeros(width - 1);
    }
  }

  lemma SampleNegativePing()
    ensures var p, ff := Ping(-2), Byte(0xFF);
            var f := [Byte(9), Byte(1), ff, ff, ff, ff, ff, ff, ff, Byte(0xFE)];
            Encode(p) == f && Decode(APing, f) == Accepted(p)
  {
    hide Encode, Decode, VarInt, BigEndian;
    AllOnes();
    ShortFrame(Ping(-2), BigEndian(0xFFFF_FFFF_FFFF_FFFE, 8));
  }

  lemma AllOnes()
    ensures var ff := Byte(0xFF);
            BigEndian(0xFFFF_FFFF_FFFF_FFFE, 8) == [ff, ff, ff, ff, ff, ff, ff, Byte(0xFE)]
  {
    var ff := Byte(0xFF);
    assert BigEndian(0xFF, 1) == [] + [ff];
    assert BigEndian(0xFFFF, 2) == BigEndian(0xFF, 1) + [ff];
    assert BigEndian(0xFF_FFFF, 3) == BigEndian(0xFFFF, 2) + [ff];
    assert BigEndian(0xFFFF_FFFF, 4) == BigEndian(0xFF_FFFF, 3) + [ff];
    assert BigEndian(0xFF_FFFF_FFFF, 5) == BigEndian(0xFFFF_FFFF, 4) + [ff];
    assert BigEndian(0xFFFF_FFFF_FFFF, 6) == BigEndian(0xFF_FFFF_FFFF, 5) + [ff];
    assert BigEndian(0xFF_FFFF_FFFF_FFFF, 7) == BigEndian(0xFFFF_FFFF_FFFF, 6) + [ff];
    assert BigEndian(0xFFFF_FFFF_FFFF_FFFE, 8) == BigEndian(0xFF_FFFF_FFFF_FFFF, 7) + [Byte(0xFE)];
  }
}
