/** One side of a client (`gate`, src/client.cpp:15-98): an input and an output queue around
    a non-blocking socket. GateState is the value the specification functions work on; the
    class Gate does the same in place. */
module Gates {
  import opened VarInts
  import opened Pakets

  // ---------- the socket, as the environment decides it ----------

  /** One sock.write: some bytes taken, nothing for now (-1), or an exception. */
  datatype Answer = Wrote(count: nat) | Again | Fault

  /** What sock.avail and sock.read find: the bytes that arrived, or an exception. */
  datatype Arrival = Arrived(data: bytes) | Dead

  datatype Socket = Socket(arrival: Arrival, answers: seq<Answer>)

  /** Either way of leaving a step, with the state it leaves behind. */
  datatype Step<T> = Ok(value: T) | Throw(value: T) {
    predicate IsFailure() { Throw? }
    function PropagateFailure(): Step<T> requires Throw? { this }
    function Extract(): T requires Ok? { value }
  }

  /** The last five fields are history: the bytes already taken out of `input`, which of all
      the bytes ever in it came from the socket, what the socket delivered, what the hub put in
      itself, and what the socket took. */
  datatype GateState = GateState(
    input: bytes, output: bytes, sock: Socket,
    used: bytes, origin: seq<bool>, received: bytes, added: bytes, sent: bytes)
  {
    /** All that was ever put into `input`. */
    function Fed(): bytes { used + input }

    /** All that was ever queued for the socket. */
    function Written(): bytes { sent + output }

    /** What was put into `input` is the peer's stream, with the hub's own frames between. */
    ghost predicate Valid() {
      |origin| == |Fed()| && received == Kept(Fed(), origin, true) && added == Kept(Fed(), origin, false)
    }
  }

  const EMPTY_GATE: GateState := GateState([], [], Socket(Arrived([]), []), [], [], [], [], [])

  /** The bytes marked so, in order. */
  function Kept(b: bytes, marks: seq<bool>, which: bool): (r: bytes)
    requires |marks| == |b|
    ensures |r| <= |b|
  {
    if b == [] then []
    else Kept(b[..|b| - 1], marks[..|b| - 1], which) + (if marks[|b| - 1] == which then [b[|b| - 1]] else [])
  }

  lemma {:induction false} KeptAppend(b: bytes, marks: seq<bool>, more: bytes, mark: bool, which: bool)
    requires |marks| == |b|
    ensures Kept(b + more, marks + seq(|more|, _ => mark), which)
         == Kept(b, marks, which) + (if mark == which then more else [])
  {
    var bb, mm := b + more, marks + seq(|more|, _ => mark);
    if more == [] {
      assert bb == b && mm == marks;
    } else {
      var last := |more| - 1;
      assert bb[..|bb| - 1] == b + more[..last];
      assert mm[..|bb| - 1] == marks + seq(last, _ => mark);
      KeptAppend(b, marks, more[..last], mark, which);
      assert more == more[..last] + [more[last]];
      if mark == which {
        assert Kept(bb, mm, which) == Kept(b, marks, which) + more[..last] + [more[last]];
      }
    }
  }

  /** Every byte is the peer's or the hub's own. */
  lemma {:induction false} KeptCounts(b: bytes, marks: seq<bool>)
    requires |marks| == |b|
    ensures |Kept(b, marks, true)| + |Kept(b, marks, false)| == |b|
  {
    if b != [] {
      KeptCounts(b[..|b| - 1], marks[..|b| - 1]);
    }
  }

  lemma Assoc(a: bytes, b: bytes, c: bytes)
    ensures (a + b) + c == a + (b + c)
  {
  }

  // ---------- specification ----------

  function Feed(g: GateState, data: bytes, fromPeer: bool): (r: GateState) {
    g.(input := g.input + data,
       origin := g.origin + seq(|data|, _ => fromPeer),
       received := g.received + (if fromPeer then data else []),
       added := g.added + (if fromPeer then [] else data))
  }

  lemma FeedValid(g: GateState, data: bytes, fromPeer: bool)
    requires g.Valid()
    ensures var r := Feed(g, data, fromPeer); r.Valid() && r.Fed() == g.Fed() + data
  {
    KeptAppend(g.Fed(), g.origin, data, fromPeer, true);
    KeptAppend(g.Fed(), g.origin, data, fromPeer, false);
    assert g.used + (g.input + data) == g.used + g.input + data;
  }

  function Received(g: GateState): (r: Step<GateState>) {
    match g.sock.arrival
    case Dead => Throw(g)
    case Arrived(data) => Ok(Feed(g.(sock := g.sock.(arrival := Arrived([]))), data, true))
  }

  function Sent(g: GateState): (r: Step<GateState>) {
    if g.output == [] || g.sock.answers == [] then Ok(g)
    else
      var g1 := g.(sock := g.sock.(answers := g.sock.answers[1..]));
      match g.sock.answers[0]
      case Fault => Throw(g1)
      case Again => Ok(g1)
      case Wrote(n) =>
        var k := if n <= |g.output| then n else |g.output|;
        Ok(g1.(output := g.output[k..], sent := g.sent + g.output[..k]))
  }

  function Queue(g: GateState, data: bytes): GateState {
    g.(output := g.output + data)
  }

  function Drop(g: GateState, n: nat): GateState
    requires n <= |g.input|
  {
    g.(input := g.input[n..], used := g.used + g.input[..n])
  }

  lemma DropKeeps(g: GateState, n: nat)
    requires n <= |g.input|
    ensures Drop(g, n).Fed() == g.Fed()
    ensures g.Valid() ==> Drop(g, n).Valid()
  {
    assert g.input[..n] + g.input[n..] == g.input;
    assert Drop(g, n).Fed() == g.used + (g.input[..n] + g.input[n..]);
  }

  function Drain(g: GateState): GateState {
    g.(input := [], used := g.used + g.input)
  }

  /** Sending moves bytes from the queue to the wire and touches nothing else. */
  lemma SentKeeps(g: GateState)
    ensures var r := Sent(g).value;
            && r.Written() == g.Written() && r.input == g.input && r.used == g.used
            && r.origin == g.origin && r.received == g.received && r.added == g.added
            && g.sent <= r.sent
            && (Sent(g).Throw? ==> r.sent == g.sent && r.output == g.output)
  {
    if g.output != [] && g.sock.answers != [] && g.sock.answers[0].Wrote? {
      var n := g.sock.answers[0].count;
      var k := if n <= |g.output| then n else |g.output|;
      assert g.output[..k] + g.output[k..] == g.output;
    }
  }

  datatype Taken = Nothing | Took(packet: Packet, length: nat) | Refused

  function Take(input: bytes, k: Kind, maxSize: int): (t: Taken)
    ensures t.Took? ==> 1 <= t.length <= |input| && KindOf(t.packet) == k
  {
    match HeadOf(input, maxSize)
    case Partial => Nothing
    case Broken => Refused
    case Frame(_, total) =>
      match Decode(k, input[..total])
      case Rejected => Refused
      case Accepted(p) => Took(p, total)
  }

  lemma HeadOfCut(input: bytes, maxSize: int)
    requires HeadOf(input, maxSize).Frame?
    requires var f := input[..HeadOf(input, maxSize).total];
             ReadVarInt(f).Number? && ReadVarInt(f[ReadVarInt(f).length..]).Number?
    ensures IsFrame(input[..HeadOf(input, maxSize).total], NO_LIMIT)
  {
    var total := HeadOf(input, maxSize).total;
    var f, rest := input[..total], input[total..];
    assert input == f + rest;
    ReadExtends(f, rest);
    var n := ReadVarInt(f).length;
    assert input[n..] == f[n..] + rest;
    ReadExtends(f[n..], rest);
  }

  /** What paket_read takes off the queue is one whole frame of the packet it returns. */
  lemma TookFrame(input: bytes, k: Kind, maxSize: int)
    requires Take(input, k, maxSize).Took?
    ensures var t := Take(input, k, maxSize);
            Carries(input[..t.length], NO_LIMIT, t.packet)
  {
    var f := input[..Take(input, k, maxSize).length];
    DecodeNumbers(k, f);
    HeadOfCut(input, maxSize);
  }

  /** A frame waiting at the front of the queue is taken exactly. */
  lemma TakesFrame(f: bytes, rest: bytes, maxSize: int, p: Packet)
    requires Carries(f, maxSize, p)
    ensures Take(f + rest, KindOf(p), maxSize) == Took(p, |f|)
  {
    HeadExtends(f, rest, maxSize);
    assert (f + rest)[..|f|] == f;
  }

  // ---------- the class ----------

  datatype Outcome = Fine | Thrown {
    predicate IsFailure() { Thrown? }
    function PropagateFailure(): Outcome requires Thrown? { Thrown }
  }

  function OutcomeOf<T>(r: Step<T>): Outcome {
    if r.Ok? then Fine else Thrown
  }

  /** asize, packet.write and ssize as paket_write, kostilA and kostilB do them: grow by ten
      bytes more than the fields, write into the new room, give back what was not used. */
  method AppendPaket(buffer: bytes, p: Packet) returns (grown: bytes)
    ensures grown == buffer + Encode(p)
  {
    SlackSuffices(p);
    var size := 10 + |Fields(p)|;
    grown := buffer + seq(size, _ => Byte(0));
    var at := |grown| - size;
    var frame := Encode(p);
    var s := if |frame| <= size then |frame| else -1;
    if s != -1 {
      grown := grown[..at] + frame + grown[at + s..];
    }
    grown := grown[..|grown| - (size - s)];
  }

  class Gate {
    var input: bytes
    var output: bytes
    var sock: Socket
    ghost var used: bytes
    ghost var origin: seq<bool>
    ghost var received: bytes
    ghost var added: bytes
    ghost var sent: bytes

    ghost function View(): GateState
      reads this
    {
      GateState(input, output, sock, used, origin, received, added, sent)
    }

    constructor ()
      ensures View() == EMPTY_GATE
    {
      input, output, sock := [], [], Socket(Arrived([]), []);
      used, origin, received, added, sent := [], [], [], [], [];
    }

    method Receive() returns (r: Outcome)
      modifies this
      ensures r == OutcomeOf(Received(old(View()))) && View() == Received(old(View())).value
    {
      if sock.arrival.Dead? {
        return Thrown;
      }
      var avail := sock.arrival.data;
      input := input + avail;
      sock := sock.(arrival := Arrived([]));
      origin, received := origin + seq(|avail|, _ => true), received + avail;
      assert added + [] == added;
      return Fine;
    }

    method Send() returns (r: Outcome)
      modifies this
      ensures r == OutcomeOf(Sent(old(View()))) && View() == Sent(old(View())).value
    {
      if |output| == 0 || sock.answers == [] {
        return Fine;
      }
      var answer := sock.answers[0];
      sock := sock.(answers := sock.answers[1..]);
      match answer {
        case Fault => return Thrown;
        case Again => return Fine;
        case Wrote(n) =>
          var written := if n <= |output| then n else |output|;
          sent := sent + output[..written];
          output := output[written..];
          return Fine;
      }
    }

    method PaketWrite(p: Packet) returns (r: Outcome)
      modifies this
      ensures r == OutcomeOf(Sent(Queue(old(View()), Encode(p))))
      ensures View() == Sent(Queue(old(View()), Encode(p))).value
    {
      output := AppendPaket(output, p);
      r := Send();
    }

    method PaketRead(k: Kind, maxSize: int) returns (t: Taken)
      modifies this
      ensures t == Take(old(input), k, maxSize)
      ensures View() == if t.Took? then Drop(old(View()), t.length) else old(View())
    {
      match HeadOf(input, maxSize) {
        case Partial => return Nothing;
        case Broken => return Refused;
        case Frame(_, size) =>
          match Decode(k, input[..size]) {
            case Rejected => return Refused;
            case Accepted(p) =>
              used := used + input[..size];
              input := input[size..];
              return Took(p, size);
          }
      }
    }

    /** kostilA and kostilB: a packet the client never sent, put before what it sends next. */
    method Inject(p: Packet)
      modifies this
      ensures View() == Feed(old(View()), Encode(p), false)
    {
      input := AppendPaket(input, p);
      var frame := Encode(p);
      origin, added := origin + seq(|frame|, _ => false), added + frame;
      assert received + [] == received;
    }

    method Tunnel(other: Gate) returns (r: Outcome)
      requires other != this
      modifies this, other
      ensures View() == Drain(old(View()))
      ensures r == OutcomeOf(Sent(Queue(old(other.View()), old(input))))
      ensures other.View() == Sent(Queue(old(other.View()), old(input))).value
    {
      other.output := other.output + input;
      used := used + input;
      input := [];
      r := other.Send();
    }
  }
}
