/** The blocking client of src/sclient.hpp and src/sclient.cpp: packets over a socket whose
    reads and writes are short. */
module Clients {
  import opened VarInts
  import opened Pakets
  import opened Gates
  import opened Records
  import opened PortalSpec
  import opened PortalHistory
  import opened PortalChunks

  /** head() on what has been read so far: both numbers are there, and the frame's length. */
  datatype Peek = More | Bogus | Whole(size: nat)

  function PeekOf(b: bytes): Peek {
    match ReadVarInt(b)
    case Unfinished => More
    case Malformed => Bogus
    case Number(size, n) =>
      match ReadVarInt(b[n..])
      case Unfinished => More
      case Malformed => Bogus
      case Number(_, _) => if size < 0 then Bogus else Whole(n + size)
  }

  /** How many bytes the two numbers at the front of a frame take. */
  function HeadLength(f: bytes): (n: nat)
    requires IsFrame(f, NO_LIMIT)
    ensures n <= |f|
  {
    var n := ReadVarInt(f).length;
    n + ReadVarInt(f[n..]).length
  }

  /** Reading byte by byte, head() answers with the last byte of the two numbers, inside the
      frame, and with the frame's length. */
  lemma PeekOnPrefix(f: bytes, k: nat)
    requires IsFrame(f, NO_LIMIT) && k <= HeadLength(f)
    ensures PeekOf(f[..k]) == if k < HeadLength(f) then More else Whole(|f|)
  {
    var n := ReadVarInt(f).length;
    var b := f[..k];
    if k < n {
      ReadCut(f, k);
    } else {
      ReadPrefix(f, k);
      assert b[n..] == f[n..][..k - n];
      if k < HeadLength(f) {
        ReadCut(f[n..], k - n);
      } else {
        ReadPrefix(f[n..], k - n);
      }
    }
  }

  // ---------- streams of packets ----------

  function Stream(ps: seq<Packet>): bytes {
    if ps == [] then [] else Encode(ps[0]) + Stream(ps[1..])
  }

  function Kinds(ps: seq<Packet>): (ks: seq<Kind>)
    ensures |ks| == |ps|
  {
    if ps == [] then [] else [KindOf(ps[0])] + Kinds(ps[1..])
  }

  lemma {:induction false} StreamAppend(ps: seq<Packet>, p: Packet)
    ensures Stream(ps + [p]) == Stream(ps) + Encode(p)
  {
    hide Encode;
    if ps == [] {
      assert Stream([p]) == Encode(p) + [] == Encode(p) == [] + Encode(p);
      assert ps + [p] == [p];
    } else {
      assert (ps + [p])[1..] == ps[1..] + [p];
      StreamAppend(ps[1..], p);
      assert Encode(ps[0]) + (Stream(ps[1..]) + Encode(p)) == Encode(ps[0]) + Stream(ps[1..]) + Encode(p);
    }
  }

  lemma StreamStart(ps: seq<Packet>)
    ensures Stream(ps[..0]) == []
  {
  }

  lemma {:induction false} KindsAt(ps: seq<Packet>, i: nat)
    requires i < |ps|
    ensures Kinds(ps)[i] == KindOf(ps[i])
  {
    if i > 0 {
      KindsAt(ps[1..], i - 1);
    }
  }

  lemma StreamStep(ps: seq<Packet>, i: nat, rest: bytes)
    requires i < |ps|
    ensures Stream(ps[i..]) + rest == Encode(ps[i]) + (Stream(ps[i + 1..]) + rest)
  {
    hide Encode;
    assert ps[i..][1..] == ps[i + 1..];
    assert Encode(ps[i]) + Stream(ps[i + 1..]) + rest == Encode(ps[i]) + (Stream(ps[i + 1..]) + rest);
  }

  // ---------- the client ----------

  class Client {
    var inBuff: bytes
    /** What the peer has sent or will send, and what it has been sent. */
    var inbound: bytes
    var outbound: bytes

    constructor (inbound: bytes)
      ensures this.inBuff == [] && this.inbound == inbound && this.outbound == []
    {
      this.inBuff, this.inbound, this.outbound := [], inbound, [];
    }

    /** sock.read: between one byte and as many as asked for. */
    method SockRead(length: nat) returns (data: bytes)
      requires 1 <= length <= |inbound|
      modifies this`inbound
      ensures 1 <= |data| <= length && old(inbound) == data + inbound
    {
      var k :| 1 <= k <= length;
      data := inbound[..k];
      inbound := inbound[k..];
    }

    method SockWrite(data: bytes) returns (written: nat)
      requires data != []
      modifies this`outbound
      ensures 1 <= written <= |data| && outbound == old(outbound) + data[..written]
    {
      written :| 1 <= written <= |data|;
      outbound := outbound + data[..written];
    }

    /** Grow the buffer and fill the new room, however the bytes come. */
    method Read(length: nat)
      requires length <= |inbound|
      modifies this`inbound, this`inBuff
      ensures inBuff == old(inBuff) + old(inbound)[..length]
      ensures inbound == old(inbound)[length..]
    {
      ghost var all, before := inbound, inBuff;
      inBuff := inBuff + seq(length, _ => Byte(0));
      var at := |inBuff| - length;
      var received := 0;
      while received < length
        invariant received <= length && |inBuff| == at + length
        invariant inBuff[..at + received] == before + all[..received]
        invariant inbound == all[received..]
      {
        var data := SockRead(length - received);
        assert all[received..] == data + inbound;
        assert all[..received + |data|] == all[..received] + data;
        inBuff := inBuff[..at + received] + data + inBuff[at + received + |data|..];
        received := received + |data|;
      }
      assert inBuff[..at + length] == inBuff;
    }

    method Write(data: bytes)
      modifies this`outbound
      ensures outbound == old(outbound) + data
    {
      var received := 0;
      while received < |data|
        invariant received <= |data|
        invariant outbound == old(outbound) + data[..received]
      {
        var written := SockWrite(data[received..]);
        assert data[..received + written] == data[..received] + data[received..][..written];
        received := received + written;
      }
      assert data[..received] == data;
    }

    method PeekHead(ghost f: bytes, ghost rest: bytes) returns (size: nat)
      requires IsFrame(f, NO_LIMIT) && inBuff == [] && inbound == f + rest
      modifies this`inbound, this`inBuff
      ensures size == |f| && |inBuff| <= size
      ensures inBuff == f[..|inBuff|] && inbound == f[|inBuff|..] + rest
    {
      hide IsFrame, HeadOf, PeekOf;
      PeekOnPrefix(f, 0);
      assert f[..0] == [];
      assert f[0..] == f;
      while PeekOf(inBuff).More?
        invariant |inBuff| <= HeadLength(f)
        invariant inBuff == f[..|inBuff|] && inbound == f[|inBuff|..] + rest
        invariant PeekOf(inBuff) == if |inBuff| < HeadLength(f) then More else Whole(|f|)
        decreases HeadLength(f) - |inBuff|
      {
        ghost var k := |inBuff|;
        Read(1);
        assert inBuff == f[..k + 1] && inbound == f[k + 1..] + rest;
        PeekOnPrefix(f, k + 1);
      }
      size := PeekOf(inBuff).size;
    }

    /** read_paket, from an empty buffer and with a frame to come: `size - in_buff.size()` is
        not negative, the frame is decoded, and exactly its bytes are gone. */
    method ReadPaket(k: Kind, ghost f: bytes, ghost rest: bytes) returns (d: Decoded)
      requires IsFrame(f, NO_LIMIT) && inBuff == [] && inbound == f + rest
      modifies this`inbound, this`inBuff
      ensures d == Decode(k, f) && inbound == rest
      ensures inBuff == if d.Accepted? then [] else f
    {
      hide IsFrame, Decode;
      var size := PeekHead(f, rest);
      ghost var got := |inBuff|;
      Read(size - |inBuff|);
      assert inBuff == f[..got] + f[got..] == f;
      assert inBuff[..size] == f;
      d := Decode(k, inBuff[..size]);
      if d.Accepted? {
        inBuff := inBuff[size..];
      }
    }

    /** write_paket: the array is as long as the size computed for it, and the write fails when
        the frame is longer. */
    method WritePaket(p: Packet) returns (ok: bool)
      requires Encodable(p)
      modifies this`outbound
      ensures ok == Fits(p)
      ensures outbound == old(outbound) + if ok then Encode(p) else []
    {
      ClientSizeExact(p);
      var size := ClientSize(p);
      var written := if |Encode(p)| <= size then |Encode(p)| else -1;
      if written != size {
        return false;
      }
      Write(Encode(p));
      return true;
    }

    /** write_paket for each packet, up to the first that trips the size check. */
    method WritePakets(ps: seq<Packet>) returns (n: nat)
      requires forall p <- ps :: Encodable(p)
      modifies this`outbound
      ensures n <= |ps| && outbound == old(outbound) + Stream(ps[..n])
      ensures (forall p <- ps[..n] :: Fits(p)) && (n < |ps| ==> !Fits(ps[n]))
    {
      hide Encode, Fits, Encodable, Stream;
      n := 0;
      StreamStart(ps);
      while n < |ps|
        invariant n <= |ps| && outbound == old(outbound) + Stream(ps[..n])
        invariant forall p <- ps[..n] :: Fits(p)
      {
        var ok := WritePaket(ps[n]);
        if !ok {
          return;
        }
        StreamAppend(ps[..n], ps[n]);
        assert ps[..n + 1] == ps[..n] + [ps[n]];
        Assoc(old(outbound), Stream(ps[..n]), Encode(ps[n]));
        n := n + 1;
      }
    }

    /** read_paket again and again: whatever the reads return, the packets on the stream come out
        one by one, and after each the buffer is empty. */
    method ReadPakets(kinds: seq<Kind>, ghost ps: seq<Packet>, ghost rest: bytes) returns (got: seq<Packet>)
      requires kinds == Kinds(ps) && forall p <- ps :: |Encode(p)| < TWO_31
      requires inBuff == [] && inbound == Stream(ps) + rest
      modifies this`inbound, this`inBuff
      ensures got == ps && inbound == rest && inBuff == []
    {
      hide Encode, Decode, IsFrame;
      got := [];
      var i := 0;
      assert ps[0..] == ps;
      while i < |kinds|
        invariant i <= |ps| && got == ps[..i]
        invariant inBuff == [] && inbound == Stream(ps[i..]) + rest
      {
        StreamStep(ps, i, rest);
        KindsAt(ps, i);
        FrameOf(ps[i]);
        var d := ReadPaket(kinds[i], Encode(ps[i]), Stream(ps[i + 1..]) + rest);
        got := got + [d.packet];
        i := i + 1;
      }
      assert ps[i..] == [] && [] + rest == rest;
    }

    /** status: a handshake and a request out, one response in. */
    method Status(name: bytes, port: uint16, ghost f: bytes, ghost rest: bytes) returns (ok: bool, d: Decoded)
      requires IsFrame(f, NO_LIMIT) && inBuff == [] && inbound == f + rest
      requires Encodable(Asking(name, port, 1))
      modifies this
      ensures ok == Fits(Asking(name, port, 1))
      ensures ok ==> outbound == old(outbound) + Encode(Handshake(-1, name, port, 1)) + Encode(Request)
      ensures ok ==> d == Decode(AResponse, f) && inbound == rest
    {
      hide Encode, IsFrame, Decode;
      d := Rejected;
      ok := WritePaket(Asking(name, port, 1));
      if ok {
        FitsRequest();
        ok := WritePaket(Request);
        d := ReadPaket(AResponse, f, rest);
      }
    }

    /** ping: the payload out, whose size always fits, and a pingpong in. */
    method SendPing(payload: int64, ghost f: bytes, ghost rest: bytes) returns (ok: bool, d: Decoded)
      requires IsFrame(f, NO_LIMIT) && inBuff == [] && inbound == f + rest
      modifies this
      ensures ok && outbound == old(outbound) + Encode(Ping(payload))
      ensures d == Decode(APing, f) && inbound == rest
    {
      hide Encode, IsFrame, Decode;
      FitsPing(payload);
      ok := WritePaket(Ping(payload));
      d := ReadPaket(APing, f, rest);
    }

    /** login: a handshake and a login out, one disconnect in. */
    method LogIn(name: bytes, port: uint16, login: bytes, ghost f: bytes, ghost rest: bytes)
      returns (ok: bool, d: Decoded)
      requires IsFrame(f, NO_LIMIT) && inBuff == [] && inbound == f + rest
      requires Encodable(Asking(name, port, 2)) && Encodable(Login(login))
      modifies this
      ensures ok == (Fits(Asking(name, port, 2)) && Fits(Login(login)))
      ensures ok ==> outbound == old(outbound) + Encode(Handshake(-1, name, port, 2)) + Encode(Login(login))
      ensures ok ==> d == Decode(ADisconnect, f) && inbound == rest
    {
      hide Encode, IsFrame, Decode;
      d := Rejected;
      ok := WritePaket(Asking(name, port, 2));
      if ok {
        ok := WritePaket(Login(login));
        if ok {
          d := ReadPaket(ADisconnect, f, rest);
        }
      }
    }
  }

  /** What one client writes, another reads, however the bytes go over in either direction. */
  method Converse(writer: Client, reader: Client, ps: seq<Packet>) returns (got: seq<Packet>)
    requires writer != reader && writer.outbound == [] && reader.inbound == [] && reader.inBuff == []
    requires forall p <- ps :: Fits(p) && |Encode(p)| < TWO_31
    modifies writer, reader
    ensures got == ps && reader.inbound == [] && reader.inBuff == []
  {
    hide Encode;
    forall p <- ps ensures Encodable(p) {
      ShortEnough(p);
    }
    var n := writer.WritePakets(ps);
    assert ps[..n] == ps;
    reader.inbound := writer.outbound;
    assert reader.inbound == [] + Stream(ps) == Stream(ps) + [];
    got := reader.ReadPakets(Kinds(ps), ps, []);
  }

  lemma ShortEnough(p: Packet)
    requires |Encode(p)| < TWO_31
    ensures Encodable(p)
  {
  }

  lemma FrameOf(p: Packet)
    requires |Encode(p)| < TWO_31
    ensures IsFrame(Encode(p), NO_LIMIT) && Decode(KindOf(p), Encode(p)) == Accepted(p)
  {
    hide Encode, Decode, HeadOf;
    EncodedCarries(p, NO_LIMIT);
  }

  function Asking(name: bytes, port: uint16, state: int32): Hello {
    Handshake(-1, name, port, state)
  }

  /** write_paket's size is right for it. */
  predicate Fits(p: Packet) {
    |Fields(p)| !in {0x7F, 0x3FFF, 0x1F_FFFF, 0xFFF_FFFF}
  }

  lemma FitsRequest()
    ensures Fits(Request) && Encodable(Request)
  {
  }

  lemma FitsPing(payload: int64)
    ensures Fits(Ping(payload)) && Encodable(Ping(payload))
  {
    VarIntSize(1);
  }

  /** A host name of 118 bytes is one for which status trips over its own size check. */
  lemma LongNameDoesNotFit(name: bytes, port: uint16, state: int32)
    requires |name| == 118 && 0 <= state < 128
    ensures !Fits(Asking(name, port, state))
  {
    VarIntSize(-1);
    VarIntSize(118);
    VarIntSize(state);
  }

  /** The two ends together: what status writes, cut up in any way, makes a hub without a
      backend for that name write a frame that status reads back as the resolved status text. */
  lemma StatusSeesText(conf: Conf, events: seq<Event>, name: bytes, port: uint16, maxSize: int,
                       texts: Texts)
    requires var h := Asking(name, port, 1);
             && |Encode(h)| < TWO_31
             && (maxSize == NO_LIMIT || (1 <= maxSize && |Body(h)| <= maxSize))
             && Chunks(events) == Encode(h) + Encode(Request)
    requires |Encode(Response(texts.status))| < TWO_31
    requires forall e <- events :: Feeds(e, maxSize, texts) && NoBackend(conf, Asking(name, port, 1), e.env)
    ensures var g := Run(Init(conf), conf, events).from;
            IsFrame(g.sent + g.output, NO_LIMIT)
            && Decode(AResponse, g.sent + g.output) == Accepted(Response(texts.status))
  {
    hide Run, Encode, Decode, Carries, Feeds, NoBackend;
    var h := Asking(name, port, 1);
    EncodedCarries(h, maxSize);
    ShortRequest(maxSize);
    OneReply(conf, events, h, Encode(h), Request, Encode(Request), maxSize, texts);
    EncodedCarries(Response(texts.status), NO_LIMIT);
    CarriesFrame(Encode(Response(texts.status)), NO_LIMIT, Response(texts.status));
    CarriesDecode(Encode(Response(texts.status)), Response(texts.status));
  }

  /** And what `login` writes makes it write a frame that `login` reads back as the login text. */
  lemma LoginSeesText(conf: Conf, events: seq<Event>, name: bytes, port: uint16, login: bytes, maxSize: int,
                      texts: Texts)
    requires var h, q := Asking(name, port, 2), Login(login);
             && |Encode(h)| < TWO_31 && |Encode(q)| < TWO_31
             && (maxSize == NO_LIMIT || (|Body(h)| <= maxSize && |Body(q)| <= maxSize))
             && Chunks(events) == Encode(Handshake(-1, name, port, 2)) + Encode(q)
    requires |Encode(Disconnect(texts.login))| < TWO_31
    requires forall e <- events :: Feeds(e, maxSize, texts) && NoBackend(conf, Asking(name, port, 2), e.env)
    ensures var g := Run(Init(conf), conf, events).from;
            IsFrame(g.sent + g.output, NO_LIMIT)
            && Decode(ADisconnect, g.sent + g.output) == Accepted(Disconnect(texts.login))
  {
    hide Run, Encode, Decode, Carries, Feeds, NoBackend;
    var h, q := Asking(name, port, 2), Login(login);
    EncodedCarries(h, maxSize);
    EncodedCarries(q, maxSize);
    OneReply(conf, events, h, Encode(h), q, Encode(q), maxSize, texts);
    EncodedCarries(Disconnect(texts.login), NO_LIMIT);
    CarriesFrame(Encode(Disconnect(texts.login)), NO_LIMIT, Disconnect(texts.login));
    CarriesDecode(Encode(Disconnect(texts.login)), Disconnect(texts.login));
  }

  lemma ShortRequest(maxSize: int)
    requires maxSize == NO_LIMIT || 1 <= maxSize
    ensures Carries(Encode(Request), maxSize, Request)
  {
    VarIntSize(0);
    SlackSuffices(Request);
    EncodedCarries(Request, maxSize);
  }

  lemma CarriesDecode(f: bytes, p: Packet)
    requires Carries(f, NO_LIMIT, p)
    ensures Decode(KindOf(p), f) == Accepted(p)
  {
  }
}
