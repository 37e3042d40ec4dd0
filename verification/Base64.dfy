/** The base64 data URI of src/response_props.cpp:30-89. */
module Base64 {
  import opened Records

  const NOTHING: string := "{ NULL }"
  const PREFIX: string := "data:image/png;base64,"

  /** Table 1 of RFC 4648. */
  const ALPHABET: string := UPPER + LOWER + DIGITS + "+/"

  function Code2Char(c: bv8): (r: char)
    requires c < 64
  {
    if c <= 25 then (c as int + 'A' as int) as char
    else if c <= 51 then (c as int - 26 + 'a' as int) as char
    else if c <= 61 then (c as int - 52 + '0' as int) as char
    else if c == 62 then '+'
    else '/'
  }

  /** The code a character stands for. */
  function Char2Code(c: char): (r: Option<bv8>)
    ensures r.Some? ==> r.value < 64
  {
    if 'A' <= c <= 'Z' then Some((c as int - 'A' as int) as bv8)
    else if 'a' <= c <= 'z' then Some((c as int - 'a' as int + 26) as bv8)
    else if '0' <= c <= '9' then Some((c as int - '0' as int + 52) as bv8)
    else if c == '+' then Some(62)
    else if c == '/' then Some(63)
    else None
  }

  lemma LetterRoundTrip(c: bv8)
    requires c < 52
    ensures Char2Code(Code2Char(c)) == Some(c) && Code2Char(c) != '='
  {
  }

  lemma OtherRoundTrip(c: bv8)
    requires 52 <= c < 64
    ensures Char2Code(Code2Char(c)) == Some(c) && Code2Char(c) != '='
  {
  }

  lemma CodeRoundTrip(c: bv8)
    requires c < 64
    ensures Char2Code(Code2Char(c)) == Some(c) && Code2Char(c) != '='
  {
    hide Code2Char, Char2Code;
    if c < 52 {
      LetterRoundTrip(c);
    } else {
      OtherRoundTrip(c);
    }
  }

  /** The arithmetic of code2char is the table. */
  lemma CodeIsTable(c: bv8)
    requires c < 64
    ensures |ALPHABET| == 64 && Code2Char(c) == ALPHABET[c as int]
  {
    var n := c as int;
    if n < 26 {
      Letters(n);
      assert ALPHABET[n] == UPPER[n];
    } else if n < 52 {
      Letters(n - 26);
      assert ALPHABET[n] == LOWER[n - 26];
    } else if n < 62 {
      Letters(n - 52);
      assert ALPHABET[n] == DIGITS[n - 52];
    }
  }

  // ---------- the encoding of RFC 4648, section 4 ----------

  function Sextets(group: bv24): (r: seq<bv8>)
    ensures |r| == 4 && r[0] < 64 && r[1] < 64 && r[2] < 64 && r[3] < 64
  {
    [((group >> 18) & 63) as bv8, ((group >> 12) & 63) as bv8, ((group >> 6) & 63) as bv8, (group & 63) as bv8]
  }

  function Group(b0: bv8, b1: bv8, b2: bv8): bv24 {
    ((b0 as bv24) << 16) | ((b1 as bv24) << 8) | (b2 as bv24)
  }

  function Quad(b0: bv8, b1: bv8, b2: bv8): (r: string)
    ensures |r| == 4
  {
    var x := Sextets(Group(b0, b1, b2));
    [Code2Char(x[0]), Code2Char(x[1]), Code2Char(x[2]), Code2Char(x[3])]
  }

  /** Groups of three bytes; a last group is filled up with zero bits and `=`. */
  function Encoded(data: seq<bv8>): (r: string)
    ensures |r| == (|data| + 2) / 3 * 4
  {
    if data == [] then ""
    else if |data| == 1 then Quad(data[0], 0, 0)[..2] + "=="
    else if |data| == 2 then Quad(data[0], data[1], 0)[..3] + "="
    else Quad(data[0], data[1], data[2]) + Encoded(data[3..])
  }

  function Triple(c0: bv8, c1: bv8, c2: bv8, c3: bv8): (r: seq<bv8>)
    ensures |r| == 3
  {
    [(c0 << 2) | (c1 >> 4), (c1 << 4) | (c2 >> 2), (c2 << 6) | c3]
  }

  /** None for a character outside the table, a misplaced `=` or an incomplete group. */
  function Decoded(s: string): Option<seq<bv8>>
  {
    if s == "" then Some([])
    else if |s| < 4 then None
    else
      var c0, c1, c2, c3 := Char2Code(s[0]), Char2Code(s[1]), Char2Code(s[2]), Char2Code(s[3]);
      if c0.None? || c1.None? then None
      else if |s| == 4 && s[2] == '=' && s[3] == '=' then Some(Triple(c0.value, c1.value, 0, 0)[..1])
      else if c2.None? then None
      else if |s| == 4 && s[3] == '=' then Some(Triple(c0.value, c1.value, c2.value, 0)[..2])
      else if c3.None? then None
      else
        match Decoded(s[4..])
        case Some(rest) => Some(Triple(c0.value, c1.value, c2.value, c3.value) + rest)
        case None => None
  }

  lemma FirstByte(b0: bv8, b1: bv8, b2: bv8)
    ensures var g := Group(b0, b1, b2);
            ((((g >> 18) & 63) as bv8) << 2) | ((((g >> 12) & 63) as bv8) >> 4) == b0
  {
  }

  lemma SecondByte(b0: bv8, b1: bv8, b2: bv8)
    ensures var g := Group(b0, b1, b2);
            ((((g >> 12) & 63) as bv8) << 4) | ((((g >> 6) & 63) as bv8) >> 2) == b1
  {
  }

  lemma ThirdByte(b0: bv8, b1: bv8, b2: bv8)
    ensures var g := Group(b0, b1, b2);
            ((((g >> 6) & 63) as bv8) << 6) | ((g & 63) as bv8) == b2
  {
  }

  lemma TripleOfSextets(b0: bv8, b1: bv8, b2: bv8)
    ensures var x := Sextets(Group(b0, b1, b2)); Triple(x[0], x[1], x[2], x[3]) == [b0, b1, b2]
  {
    FirstByte(b0, b1, b2);
    SecondByte(b0, b1, b2);
    ThirdByte(b0, b1, b2);
    hide Group;
  }

  /** The bits filled in behind a short last group are the ones `=` stands for. */
  lemma FillBits(b0: bv8, b1: bv8)
    ensures (Group(b0, b1, 0) & 63) as bv8 == 0
    ensures ((Group(b0, 0, 0) >> 6) & 63) as bv8 == 0
  {
  }

  lemma ShortTriples(b0: bv8, b1: bv8)
    ensures var x := Sextets(Group(b0, b1, 0)); Triple(x[0], x[1], x[2], 0)[..2] == [b0, b1]
    ensures var x := Sextets(Group(b0, 0, 0)); Triple(x[0], x[1], 0, 0)[..1] == [b0]
  {
    FillBits(b0, b1);
    TripleOfSextets(b0, b1, 0);
    TripleOfSextets(b0, 0, 0);
    hide Group;
  }

  lemma QuadCodes(b0: bv8, b1: bv8, b2: bv8)
    ensures var q, x := Quad(b0, b1, b2), Sextets(Group(b0, b1, b2));
            forall k :: 0 <= k < 4 ==> Char2Code(q[k]) == Some(x[k]) && q[k] != '='
  {
    hide Sextets, Group;
    var x := Sextets(Group(b0, b1, b2));
    CodeRoundTrip(x[0]);
    CodeRoundTrip(x[1]);
    CodeRoundTrip(x[2]);
    CodeRoundTrip(x[3]);
  }

  lemma DecodeGroup(b0: bv8, b1: bv8, b2: bv8, tail: string)
    requires Decoded(tail).Some?
    ensures Decoded(Quad(b0, b1, b2) + tail) == Some([b0, b1, b2] + Decoded(tail).value)
  {
    QuadCodes(b0, b1, b2);
    TripleOfSextets(b0, b1, b2);
    var q := Quad(b0, b1, b2);
    hide Char2Code, Sextets, Group, Triple, Quad;
    var s := q + tail;
    assert s[0] == q[0] && s[1] == q[1] && s[2] == q[2] && s[3] == q[3] && s[4..] == tail;
  }

  lemma DecodeTwo(b0: bv8, b1: bv8)
    ensures Decoded(Quad(b0, b1, 0)[..3] + "=") == Some([b0, b1])
  {
    QuadCodes(b0, b1, 0);
    ShortTriples(b0, b1);
    assert Char2Code('=').None?;
    hide Char2Code, Sextets, Group, Triple, Quad;
    var q := Quad(b0, b1, 0);
    var s := q[..3] + "=";
    assert |s| == 4 && s[0] == q[0] && s[1] == q[1] && s[2] == q[2] && s[3] == '=';
  }

  lemma DecodeOne(b0: bv8)
    ensures Decoded(Quad(b0, 0, 0)[..2] + "==") == Some([b0])
  {
    QuadCodes(b0, 0, 0);
    ShortTriples(b0, 0);
    hide Char2Code, Sextets, Group, Triple, Quad;
    var q := Quad(b0, 0, 0);
    var s := q[..2] + "==";
    assert |s| == 4 && s[0] == q[0] && s[1] == q[1] && s[2] == '=' && s[3] == '=';
  }

  /** Every byte sequence comes back. */
  lemma {:induction false} RoundTrip(data: seq<bv8>)
    ensures Decoded(Encoded(data)) == Some(data)
  {
    hide Quad, Decoded;
    if data == [] {
      assert Decoded("") == Some([]) by { DecodeNothing(); }
    } else if |data| == 1 {
      DecodeOne(data[0]);
      assert data == [data[0]];
    } else if |data| == 2 {
      DecodeTwo(data[0], data[1]);
      assert data == [data[0], data[1]];
    } else {
      RoundTrip(data[3..]);
      DecodeGroup(data[0], data[1], data[2], Encoded(data[3..]));
      assert data == [data[0], data[1], data[2]] + data[3..];
    }
  }

  lemma DecodeNothing()
    ensures Decoded("") == Some([])
  {
  }

  /** Test vectors of section 10 of RFC 4648, and the image of a file that holds "text". */
  lemma Vectors()
    ensures Encoded([0x66]) == "Zg==" && Encoded([0x66, 0x6F]) == "Zm8=" && Encoded([0x66, 0x6F, 0x6F]) == "Zm9v"
    ensures Encoded([0x74, 0x65, 0x78, 0x74]) == "dGV4dA=="
  {
    var text: seq<bv8> := [0x74, 0x65, 0x78, 0x74];
    assert text[3..] == [0x74];
    var foo: seq<bv8> := [0x66, 0x6F, 0x6F];
    assert foo[3..] == [];
    VectorSextets();
    hide Sextets, Group;
  }

  lemma VectorSextets()
    ensures Sextets(Group(0x66, 0, 0))[..2] == [25, 32]
    ensures Sextets(Group(0x66, 0x6F, 0))[..3] == [25, 38, 60]
    ensures Sextets(Group(0x66, 0x6F, 0x6F)) == [25, 38, 61, 47]
    ensures Sextets(Group(0x74, 0x65, 0x78)) == [29, 6, 21, 56]
    ensures Sextets(Group(0x74, 0, 0))[..2] == [29, 0]
  {
  }

  // ---------- the loop ----------

  /** A byte as the operand of `>>` and `&`: promoted to int, from a char that may be signed. */
  function Promoted(b: bv8, signed: bool): bv32 {
    if signed && b >= 0x80 then 0xFFFF_FF00 | (b as bv32) else b as bv32
  }

  /** `>>` on an int: arithmetic. */
  function ShiftRight(x: bv32, n: nat): bv32
    requires n < 32
  {
    if x >= 0x8000_0000 then !((!x) >> n) else x >> n
  }

  function Low6(x: bv32): (r: bv8)
    ensures r < 64
  {
    (x & 63) as bv8
  }

  function Code0(b0: bv32): (r: bv8)
    ensures r < 64
  {
    Low6(ShiftRight(b0, 2) & 0x3F)
  }

  function Code1(b0: bv32, b1: bv32): (r: bv8)
    ensures r < 64
  {
    Low6(((b0 & 3) << 4) | (ShiftRight(b1, 4) & 0xF))
  }

  function Code2(b1: bv32, b2: bv32): (r: bv8)
    ensures r < 64
  {
    Low6(((b1 & 0xF) << 2) | (ShiftRight(b2, 6) & 3))
  }

  function Code3(b2: bv32): (r: bv8)
    ensures r < 64
  {
    Low6(b2 & 0x3F)
  }

  /** The shifts and masks of the code are the four sextets, also for bytes read into a signed
      char. */
  lemma CodesAreSextets(b0: bv8, b1: bv8, b2: bv8, signed: bool)
    ensures var p0, p1, p2 := Promoted(b0, signed), Promoted(b1, signed), Promoted(b2, signed);
            var x := Sextets(Group(b0, b1, b2));
            Code0(p0) == x[0] && Code1(p0, p1) == x[1] && Code2(p1, p2) == x[2] && Code3(p2) == x[3]
  {
  }

  lemma CharsAreQuad(b0: bv8, b1: bv8, b2: bv8, signed: bool)
    ensures var p0, p1, p2 := Promoted(b0, signed), Promoted(b1, signed), Promoted(b2, signed);
            [Code2Char(Code0(p0)), Code2Char(Code1(p0, p1)), Code2Char(Code2(p1, p2)), Code2Char(Code3(p2))]
              == Quad(b0, b1, b2)
  {
    CodesAreSextets(b0, b1, b2, signed);
    hide Sextets, Group, Promoted, Code0, Code1, Code2, Code3, Code2Char;
  }

  lemma EncodedStep(data: seq<bv8>, pos: nat)
    requires pos + 3 <= |data|
    ensures Encoded(data[pos..]) == Quad(data[pos], data[pos + 1], data[pos + 2]) + Encoded(data[pos + 3..])
  {
    hide Quad;
    assert data[pos..][3..] == data[pos + 3..];
  }

  lemma EncodedTail(data: seq<bv8>, pos: nat)
    requires pos <= |data| < pos + 3
    ensures Encoded(data[pos..])
         == if |data| == pos then ""
            else if |data| == pos + 1 then Quad(data[pos], 0, 0)[..2] + "=="
            else Quad(data[pos], data[pos + 1], 0)[..3] + "="
  {
    hide Quad;
  }

  /** img_vars[...] on the bytes of the file, None when it cannot be opened. */
  method Image(file: Option<seq<bv8>>, signedChar: bool) returns (result: string)
    ensures result == match file
                      case None => "{ NULL }"
                      case Some(data) => "data:image/png;base64," + Encoded(data)
  {
    hide Quad, Encoded, Promoted, Code0, Code1, Code2, Code3, Code2Char;
    if file.None? {
      return NOTHING;
    }
    var data := file.value;
    result := PREFIX;
    var size := |data|;
    var pos := 0;
    var count := size / 3;
    assert data[0..] == data;
    while count > 0
      invariant 0 <= count && pos == size - size % 3 - 3 * count && 0 <= pos <= size
      invariant result + Encoded(data[pos..]) == PREFIX + Encoded(data)
    {
      var t0, t1, t2 := data[pos], data[pos + 1], data[pos + 2];
      var p0, p1, p2 := Promoted(t0, false), Promoted(t1, false), Promoted(t2, false);
      var encoded := [Code2Char(Code0(p0)), Code2Char(Code1(p0, p1)), Code2Char(Code2(p1, p2)), Code2Char(Code3(p2))];
      CharsAreQuad(t0, t1, t2, false);
      EncodedStep(data, pos);
      assert result + (encoded + Encoded(data[pos + 3..])) == result + encoded + Encoded(data[pos + 3..]);
      result := result + encoded;
      pos := pos + 3;
      count := count - 1;
    }
    EncodedTail(data, pos);
    assert Promoted(0, signedChar) == 0 by { PromotedZero(signedChar); }
    var read := size % 3;
    if read == 2 {
      var t0, t1 := data[pos], data[pos + 1];
      CharsAreQuad(t0, t1, 0, signedChar);
      var p0, p1 := Promoted(t0, signedChar), Promoted(t1, signedChar);
      result := result + [Code2Char(Code0(p0)), Code2Char(Code1(p0, p1)), Code2Char(Code2(p1, 0)), '='];
    } else if read == 1 {
      var t0 := data[pos];
      CharsAreQuad(t0, 0, 0, signedChar);
      var p0 := Promoted(t0, signedChar);
      result := result + [Code2Char(Code0(p0)), Code2Char(Code1(p0, 0)), '=', '='];
    }
  }

  lemma PromotedZero(signed: bool)
    ensures Promoted(0, signed) == 0
  {
  }

  // ---------- the reserved size ----------

  function Reserved(size: nat): nat {
    var b := size * 4;
    b / 3 + if b % 3 != 0 then 4 else 0
  }

  /** What is reserved is never too little, and too much by the bytes missing in the last group. */
  lemma ReservedSize(data: seq<bv8>)
    ensures Reserved(|data|) == |Encoded(data)| + |data| % 3
  {
    hide Encoded;
    var n := |data|;
    assert |Encoded(data)| == (n + 2) / 3 * 4;
    var q, r := n / 3, n % 3;
    assert (n + 2) / 3 == if r == 0 then q else q + 1;
    assert n * 4 == 3 * (4 * q + r) + r;
    assert (n * 4) / 3 == 4 * q + r && (n * 4) % 3 == r;
  }
}
