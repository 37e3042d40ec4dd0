/** Bytes and the variable-length integers of the Minecraft Java Edition protocol
    ("VarInt and VarLong"): little-endian groups of seven bits, the top bit of a byte saying
    that another group follows, five bytes at most, the value a signed 32-bit integer. */
module VarInts {

  /** A byte of a buffer is also a character of a std::string. */
  type byte = c: char | c as int < 256 witness '.'
  type bytes = seq<byte>

  const TWO_32: int := 0x1_0000_0000
  const TWO_31: int := 0x8000_0000

  type int32 = x: int | -TWO_31 <= x < TWO_31

  function Byte(n: nat): (b: byte)
    requires n < 256
    ensures b as int == n
  {
    n as char
  }

  function ToUnsigned(x: int): (u: nat)
    ensures u < TWO_32
  {
    x % TWO_32
  }

  function ToSigned(u: nat): (x: int32) {
    var r := u % TWO_32;
    if r < TWO_31 then r else r - TWO_32
  }

  // ---------- writing ----------

  function Groups(u: nat): (b: bytes)
    ensures |b| >= 1
  {
    if u < 128 then [Byte(u)] else [Byte(u % 128 + 128)] + Groups(u / 128)
  }

  /** The encoding of any integer, truncated to 32 bits as a cast to std::int32_t does. */
  function VarInt(x: int): (b: bytes)
    ensures |b| >= 1
  {
    Groups(ToUnsigned(x))
  }

  /** How many bytes size_varint answers. */
  function SizeVarInt(x: int): nat {
    var u := ToUnsigned(x);
    if u < 0x80 then 1
    else if u < 0x4000 then 2
    else if u < 0x20_0000 then 3
    else if u < 0x1000_0000 then 4
    else 5
  }

  lemma VarIntSize(x: int)
    ensures |VarInt(x)| == SizeVarInt(x) <= 5
  {
    var u := ToUnsigned(x);
    if u >= 0x80 {
      var v := u / 128;
      assert |Groups(u)| == 1 + |Groups(v)|;
      if v >= 0x80 {
        assert |Groups(v)| == 1 + |Groups(v / 128)|;
        assert |Groups(v / 128)| == if v / 128 < 0x80 then 1 else 1 + |Groups(v / 128 / 128)|;
        if v / 128 >= 0x80 {
          var w := v / 128 / 128;
          assert |Groups(w)| == if w < 0x80 then 1 else 1 + |Groups(w / 128)|;
        }
      }
    }
  }

  // ---------- reading ----------

  datatype Scan = NeedMore | TooLong | Got(value: nat, length: nat)

  /** Reads groups from the front of b; `left` more bytes may belong to the number. */
  function ScanGroups(b: bytes, left: nat): (s: Scan)
    ensures s.Got? ==> 1 <= s.length <= |b| && s.length <= left
    decreases b
  {
    if left == 0 then TooLong
    else if b == [] then NeedMore
    else if b[0] as int < 128 then Got(b[0] as int, 1)
    else
      match ScanGroups(b[1..], left - 1)
      case Got(v, n) => Got(b[0] as int - 128 + 128 * v, n + 1)
      case bad => bad
  }

  datatype Reading = Unfinished | Malformed | Number(value: int32, length: nat)

  function ReadVarInt(b: bytes): (r: Reading)
    ensures r.Number? ==> 1 <= r.length <= |b| && r.length <= 5
  {
    match ScanGroups(b, 5)
    case NeedMore => Unfinished
    case TooLong => Malformed
    case Got(v, n) => Number(ToSigned(v), n)
  }

  // ---------- the two agree ----------

  lemma {:induction false} ScanReadsGroups(u: nat, rest: bytes, left: nat)
    requires |Groups(u)| <= left
    ensures ScanGroups(Groups(u) + rest, left) == Got(u, |Groups(u)|)
    decreases left
  {
    var b := Groups(u) + rest;
    if u < 128 {
      assert b[0] == Byte(u);
    } else {
      assert b[0] == Byte(u % 128 + 128);
      assert b[1..] == Groups(u / 128) + rest;
      ScanReadsGroups(u / 128, rest, left - 1);
    }
  }

  lemma SignRoundTrip(x: int32)
    ensures ToSigned(ToUnsigned(x)) == x
  {
  }

  /** Every 32-bit integer, negative ones included, is read back from its own encoding
      whatever follows it on the stream. */
  lemma VarIntRoundTrip(x: int32, rest: bytes)
    ensures ReadVarInt(VarInt(x) + rest) == Number(x, |VarInt(x)|)
  {
    var u := ToUnsigned(x);
    SignRoundTrip(x);
    VarIntSize(x);
    ScanReadsGroups(u, rest, 5);
  }

  /** A number that was read is read the same when more bytes arrive behind it. */
  lemma {:induction false} ScanExtends(b: bytes, more: bytes, left: nat)
    ensures ScanGroups(b, left).Got? ==> ScanGroups(b + more, left) == ScanGroups(b, left)
    ensures ScanGroups(b, left).TooLong? ==> ScanGroups(b + more, left).TooLong?
    decreases left
  {
    if left != 0 && b != [] && b[0] as int >= 128 {
      assert (b + more)[1..] == b[1..] + more;
      ScanExtends(b[1..], more, left - 1);
    }
  }

  /** Any strict part of a number from its front is unfinished, never malformed. */
  lemma {:induction false} ScanCut(b: bytes, left: nat, m: nat)
    requires ScanGroups(b, left).Got? && m < ScanGroups(b, left).length
    ensures ScanGroups(b[..m], left).NeedMore?
    decreases left
  {
    if m > 0 {
      assert b[..m][1..] == b[1..][..m - 1];
      ScanCut(b[1..], left - 1, m - 1);
    }
  }

  lemma ReadExtends(b: bytes, more: bytes)
    ensures ReadVarInt(b).Number? ==> ReadVarInt(b + more) == ReadVarInt(b)
    ensures ReadVarInt(b).Malformed? ==> ReadVarInt(b + more).Malformed?
  {
    ScanExtends(b, more, 5);
  }

  lemma ReadCut(b: bytes, m: nat)
    requires ReadVarInt(b).Number? && m < ReadVarInt(b).length
    ensures ReadVarInt(b[..m]).Unfinished?
  {
    ScanCut(b, 5, m);
  }
}
