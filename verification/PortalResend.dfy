/** Runs in which the hub is not transparent, and some beside them in which it is. An exception
    while it is joining or proxying, on a backend socket that claims to be connected, sends the
    handshake again; and if it had taken the client over before, its own packet may go with it. */
module PortalResend {
  import opened VarInts
  import opened Pakets
  import opened Gates
  import opened Records
  import opened Routing
  import opened PortalSpec
  import opened PortalInv
  import opened PortalTheorems
  import opened PortalFallback

  const QUIET: Socket := Socket(Arrived([]), [])
  const ONLY_READ: Mask := Mask(false, false, false, true, false)
  const ONLY_WRITE: Mask := Mask(false, false, false, false, true)

  function EnvOf(fromSock: Socket): Env {
    Env(NO_LIMIT, [], [], Started, fromSock, QUIET, false, false)
  }

  /** The client sends its handshake and one more frame; then the backend connects. */
  function Arrives(data: bytes): Event {
    FromEvent(ONLY_READ, EnvOf(Socket(Arrived(data), [])))
  }

  const CONNECTED: Event := ToEvent(ONLY_WRITE, EnvOf(QUIET))

  lemma FirstEvent(conf: Conf, h: Hello, frame: bytes)
    requires |Encode(h)| < TWO_31
    requires var r := Record(conf, h.address); r.address != "" && r.port != 0 && !r.drop
    ensures var s := Handle(Init(conf), conf, Arrives(Encode(h) + frame));
            && s.fromS.Waiting? && s.toS.Connecting? && s.listening && !s.erased && s.hs == h
            && s.from.input == frame && s.from.output == [] && s.from.sent == [] && s.to == EMPTY_GATE
            && !s.past.fellBack && s.past.loginFrame == [] && s.past.hellos == 0 && s.nickname == []
            && s.past.Replied() == [] && s.past.injected == [] && s.from.added == []
            && s.past.hsFrame == Encode(h) && s.from.received == Encode(h) + frame
  {
    hide Record, RouteName, Take, Encode, Carries;
    var data := Encode(h) + frame;
    EncodedCarries(h, NO_LIMIT);
    TakesFrame(Encode(h), frame, NO_LIMIT, h);
    var e := Arrives(data);
    var p := Plug(Init(conf), e.env);
    var s1 := OnFrom(p, Received(p.from)).value;
    assert s1.from.input == [] + data == data == s1.from.received;
    assert data[..|Encode(h)|] == Encode(h);
    assert s1.from.input == data;
    var s2 := Start(Admit(s1, h, |Encode(h)|, conf), Record(conf, h.address), conf, e.env);
    assert FromHandshake(s1, conf, e.env) == s2;
    assert s2.Ok? && s2.value.from.input == data[|Encode(h)|..] == frame;
    assert ProcessFrom(s1, conf, e.env) == s2;
    assert TryFrom(p, conf, e.mask, e.env) == s2;
  }

  predicate Untouched(s: State, r: State) {
    && r.past.fellBack == s.past.fellBack && r.past.loginFrame == s.past.loginFrame
    && r.past.hsFrame == s.past.hsFrame && r.from.received == s.from.received
  }

  /** to_send_new_hs for a client whose next frame is not a login: the handshake is queued, and
      then reading the login throws. */
  lemma HelloThenRefusal(s: State, conf: Conf, env: Env)
    requires s.hs.state != 1 && s.to.input == [] && s.from.output == []
    requires s.to.sock.answers == []
    requires Take(s.from.input, ALogin, env.maxSize).Refused?
    ensures var r := SendHello(s, conf, env);
            && r.Throw? && r.value.toS.Proxying? && r.value.fromS.LoggingIn?
            && r.value.to.output == s.to.output + Encode(s.hs) && r.value.to.sent == s.to.sent
            && r.value.to.input == [] && r.value.to.sock == s.to.sock
            && r.value.from.input == s.from.input && r.value.from.output == []
            && r.value.hs == s.hs && Untouched(s, r.value) && r.value.past.hellos == s.past.hellos + 1
  {
    hide Take, Encode;
    var q := QueueHello(s, Encode(s.hs));
    assert q.Ok?;
    var j := Join(q.value);
    var t := ProcessTo(j);
    assert t.Ok? && t.value.from.output == [] + [] == [];
    assert FromLogin(t.value, env).Throw?;
  }

  /** Whatever the handshake with a state other than 1, if the client's next frame is refused as
      a login when the backend comes up, the backend is queued the handshake twice, and the run
      is not transparent. */
  lemma HelloTwice(conf: Conf, h: Hello, frame: bytes)
    requires |Encode(h)| < TWO_31 && h.state != 1
    requires var r := Record(conf, h.address); r.address != "" && r.port != 0 && !r.drop
    requires Take(frame, ALogin, NO_LIMIT).Refused?
    ensures var events := [Arrives(Encode(h) + frame), CONNECTED];
            var s := Run(Init(conf), conf, events);
            && s.to.Written() == Encode(h) + Encode(h) && TotalGreetings(conf, events) == 2
            && Proxied(s.fromS) && !s.past.fellBack && !Forwards(s)
  {
    hide Take, Encode, Handle, Record, Forwards, Inv;
    var e1 := Arrives(Encode(h) + frame);
    var events := [e1, CONNECTED];
    FirstEvent(conf, h, frame);
    var s1 := Handle(Init(conf), conf, e1);
    assert events[..1] == [e1] && [e1][..0] == [];
    assert Run(Init(conf), conf, [e1]) == s1;
    assert Run(Init(conf), conf, events) == Handle(s1, conf, CONNECTED);
    SecondEvent(s1, conf);
    RunRests(conf, events);
    var s := Handle(s1, conf, CONNECTED);
    NotForwarded(s, frame);
  }

  lemma NotForwarded(s: State, frame: bytes)
    requires s.to.Written() == Encode(s.hs) + Encode(s.hs) && s.from.input == frame
    requires s.past.loginFrame == [] && s.from.received == s.past.hsFrame + frame
    ensures !Forwards(s)
  {
    hide Encode, Carries;
    assert (s.past.hsFrame + frame)[|s.past.hsFrame|..] == frame;
    SlackSuffices(s.hs);
  }

  lemma SecondEvent(s: State, conf: Conf)
    requires s.toS.Connecting? && s.listening && !s.erased && s.hs.state != 1
    requires s.to == EMPTY_GATE && s.from.output == [] && !s.past.fellBack
    requires Take(s.from.input, ALogin, NO_LIMIT).Refused?
    ensures var r := Handle(s, conf, CONNECTED);
            && r.hs == s.hs && r.fromS.LoggingIn? && Untouched(s, r) && r.from.input == s.from.input
            && r.to.Written() == Encode(s.hs) + Encode(s.hs) && r.past.hellos == s.past.hellos + 2
  {
    hide Take, Encode, SendHello;
    var p := Plug(s, CONNECTED.env);
    HelloThenRefusal(p, conf, CONNECTED.env);
    var t := TryTo(p, conf, CONNECTED.mask, CONNECTED.env);
    assert t == SendHello(p, conf, CONNECTED.env);
    HelloThenRefusal(t.value, conf, CONNECTED.env);
    assert [] + Encode(s.hs) == Encode(s.hs);
  }

  /** The inputs of HelloTwice exist: a login handshake for "a" to a backend, then a frame with
      id 1. */
  lemma HelloTwiceWitness()
    ensures var conf := Conf(false, "", ServerRecord(BasicRecord("b", 1, "", "", false, false, map[]), None), map[]);
            var events := [Arrives(Encode(Handshake(0, "a", 0, 2)) + [Byte(1), Byte(1)]), CONNECTED];
            var s := Run(Init(conf), conf, events);
            TotalGreetings(conf, events) == 2 && Proxied(s.fromS) && !s.past.fellBack && !Forwards(s)
  {
    hide Handle, Forwards, Run, TotalGreetings, RouteName, Encode;
    var conf := Conf(false, "", ServerRecord(BasicRecord("b", 1, "", "", false, false, map[]), None), map[]);
    var frame: bytes := [Byte(1), Byte(1)];
    var h: Hello := Handshake(0, "a", 0, 2);
    assert ReadVarInt(frame) == Number(1, 1) && frame[1..] == [Byte(1)] && ReadVarInt(frame[1..]) == Number(1, 1);
    assert HeadOf(frame, NO_LIMIT) == Frame(1, 2) && frame[..2] == frame;
    assert Decode(ALogin, frame) == Rejected;
    assert |Encode(h)| < TWO_31 by { ShortHello(h); }
    HelloTwice(conf, h, frame);
  }

  lemma ShortHello(h: Hello)
    requires |h.address| < 100
    ensures |Encode(h)| < TWO_31
  {
    SlackSuffices(h);
    VarIntSize(h.version);
    VarIntSize(h.state);
    VarIntSize(|h.address|);
  }

  // ---------- once ----------

  /** The handshake alone, and the backend comes up: it is greeted once, and the run is
      transparent. */
  lemma HelloOnce(conf: Conf, h: Hello)
    requires |Encode(h)| < TWO_31
    requires var r := Record(conf, h.address); r.address != "" && r.port != 0 && !r.drop
    ensures var events := [Arrives(Encode(h)), CONNECTED];
            var s := Run(Init(conf), conf, events);
            && s.to.Written() == Encode(h) && TotalGreetings(conf, events) == 1
            && Proxied(s.fromS) && !s.past.fellBack && Forwards(s)
  {
    hide Encode, Handle, Record, Forwards, Inv, ClientStream;
    var e1 := Arrives(Encode(h));
    var events := [e1, CONNECTED];
    assert Encode(h) + [] == Encode(h);
    FirstEvent(conf, h, []);
    var s1 := Handle(Init(conf), conf, e1);
    assert events[..1] == [e1] && [e1][..0] == [];
    assert Run(Init(conf), conf, [e1]) == s1;
    assert Run(Init(conf), conf, events) == Handle(s1, conf, CONNECTED);
    Accepted(s1, conf);
    RunRests(conf, events);
    Transparent(conf, events);
  }

  lemma Accepted(s: State, conf: Conf)
    requires s.toS.Connecting? && s.listening && !s.erased && s.to == EMPTY_GATE
    requires s.from.output == [] && s.from.input == [] && !s.past.fellBack && s.past.hellos == 0
    ensures var r := Handle(s, conf, CONNECTED);
            && r.hs == s.hs && Proxied(r.fromS) && !r.past.fellBack && r.past.hellos == 1
            && r.to.Written() == Encode(s.hs)
  {
    hide Encode, SendHello;
    var p := Plug(s, CONNECTED.env);
    assert Take([], ALogin, NO_LIMIT).Nothing?;
    HelloAlone(p, conf, CONNECTED.env);
    assert TryTo(p, conf, CONNECTED.mask, CONNECTED.env) == SendHello(p, conf, CONNECTED.env);
    assert [] + Encode(s.hs) == Encode(s.hs);
  }

  lemma HelloAlone(s: State, conf: Conf, env: Env)
    requires s.to.input == [] && s.from.output == [] && s.from.input == []
    requires s.to.sock.answers == [] && Take([], ALogin, env.maxSize).Nothing?
    ensures var r := SendHello(s, conf, env);
            && r.Ok? && r.value.hs == s.hs && Proxied(r.value.fromS) && r.value.past.fellBack == s.past.fellBack
            && r.value.past.hellos == s.past.hellos + 1
            && r.value.to.output == s.to.output + Encode(s.hs) && r.value.to.sent == s.to.sent
  {
    hide Encode, Take;
    var q := QueueHello(s, Encode(s.hs));
    var t := ProcessTo(Join(q.value));
    assert t.Ok? && t.value.from.output == [] + [] == [] && t.value.from.input == [];
    assert t.value.to.output + [] == t.value.to.output;
    assert t.value.to == q.value.to.(used := t.value.to.used);
  }

  // ---------- after an error ----------

  const ONLY_ERROR: Mask := Mask(false, false, true, false, false)

  /** The backend's connection fails, and then the socket may report no error after all. */
  function Fails(fromSock: Socket, toSock: Socket, recoverError: bool): Event {
    ToEvent(ONLY_ERROR, Env(NO_LIMIT, [], [], Started, fromSock, toSock, false, recoverError))
  }

  lemma ErrorInjects(s: State, conf: Conf, env: Env)
    requires s.toS.Connecting? && s.hs.state == 1 && |s.from.input| < 2
    ensures var r, f := TryTo(s, conf, ONLY_ERROR, env), FakeStatus(Injected(s), env);
            r == if f.Throw? then f else Ok(f.value.(listening := false))
  {
    hide Encode, FakeStatus;
    assert ProcessFrom(Injected(s), conf, env) == FakeStatus(Injected(s), env);
  }

  /** A greeting after the client was taken over, with data waiting: it goes to the backend. */
  lemma HelloAndData(s: State, conf: Conf, env: Env)
    requires s.hs.state == 1 && s.to.input == [] && s.to.output == [] && s.to.sent == []
    requires s.from.sock.answers == []
    requires s.to.sock.answers == [Wrote(|Encode(s.hs)|), Wrote(|s.from.input|)]
    ensures var r := SendHello(s, conf, env);
            && r.Ok? && r.value.toS.Proxying? && r.value.fromS.Proxying?
            && r.value.to.sent == Encode(s.hs) + s.from.input && r.value.hs == s.hs
            && r.value.from.received == s.from.received && r.value.past.hellos == s.past.hellos + 1
            && r.value.past.hsFrame == s.past.hsFrame && r.value.past.waiting == s.from.input
            && r.value.past.got == s.from.received
  {
    hide Encode, ProcessTo, ProcessFrom;
    var hello, data := Encode(s.hs), s.from.input;
    var q := QueueHello(s, hello);
    assert [] + hello == hello == hello[..|hello|] && hello[|hello|..] == [];
    SlackSuffices(s.hs);
    assert q.Ok? && q.value.to.sent == hello && q.value.to.output == [];
    var j := Join(q.value);
    BackendSilent(j);
    var t := ProcessTo(j).value;
    DataSent(t, conf, env);
  }

  lemma BackendSilent(s: State)
    requires s.toS.Proxying? && s.to.input == [] && s.from.sock.answers == []
    ensures var r := ProcessTo(s);
            r.Ok? && r.value == s.(to := s.to.(used := r.value.to.used), from := s.from)
  {
    assert s.from.output + [] == s.from.output;
    assert Queue(s.from, []) == s.from;
  }

  lemma DataSent(s: State, conf: Conf, env: Env)
    requires s.fromS.Proxying? && s.to.output == [] && s.to.sock.answers == [Wrote(|s.from.input|)]
    ensures var r := ProcessFrom(s, conf, env);
            && r.Ok? && r.value.to.sent == s.to.sent + s.from.input
            && r.value.fromS == s.fromS && r.value.toS == s.toS && r.value.hs == s.hs
            && r.value.from.received == s.from.received
            && r.value.past == s.past.(raw := r.value.past.raw, relayed := r.value.past.relayed)
  {
    var data := s.from.input;
    assert [] + data == data == data[..|data|];
    assert s.to.sent + [] == s.to.sent;
  }

  lemma SpoiltHead(x: byte)
    requires x as int <= 2
    ensures var b := [x] + Encode(Request);
            b == [x, Byte(1), Byte(0)] && HeadOf(b, NO_LIMIT).Frame?
  {
    var b := [x] + Encode(Request);
    assert Encode(Request) == [Byte(1), Byte(0)];
    assert b == [x, Byte(1), Byte(0)] && b[1..] == [Byte(1), Byte(0)];
    assert ReadVarInt(b) == Number(x as int, 1) && ReadVarInt(b[1..]) == Number(1, 1);
  }

  lemma SpoiltThrows(s: State, env: Env, x: byte)
    requires s.from.input == [x] && x as int <= 2 && s.hs.state == 1 && env.maxSize == NO_LIMIT
    ensures FakeStatus(Injected(s), env) == Throw(Injected(s))
    ensures Injected(s).from.input == [x, Byte(1), Byte(0)]
  {
    hide HeadOf, Decode, Encode;
    RequestSpoilt(x, NO_LIMIT);
    SpoiltHead(x);
  }

  /** Greeted exactly once, and still the backend is sent what the client never sent: a status
      client has sent one more byte when the connection fails, the hub puts its own request
      behind that, cannot make sense of the two, and then finds the socket connected. */
  lemma OwnBytesSent(conf: Conf, h: Hello, x: byte)
    requires |Encode(h)| < TWO_31 && h.state == 1 && x as int <= 2
    requires var r := Record(conf, h.address); r.address != "" && r.port != 0 && !r.drop
    ensures var events := [Arrives(Encode(h) + [x]),
                           Fails(QUIET, Socket(Arrived([]), [Wrote(|Encode(h)|), Wrote(3)]), false)];
            var s := Run(Init(conf), conf, events);
            && TotalGreetings(conf, events) == 1 && Joined(s.toS) && Proxied(s.fromS)
            && s.from.received == Encode(h) + [x]
            && s.to.sent == Encode(h) + [x, Byte(1), Byte(0)]
            && !Clean(s.past) && !Forwards(s)
  {
    hide Encode, Handle, Record, Forwards, Inv, ClientStream, Clean;
    var e1 := Arrives(Encode(h) + [x]);
    var e2 := Fails(QUIET, Socket(Arrived([]), [Wrote(|Encode(h)|), Wrote(3)]), false);
    var events := [e1, e2];
    FirstEvent(conf, h, [x]);
    var s1 := Handle(Init(conf), conf, e1);
    assert events[..1] == [e1] && [e1][..0] == [];
    assert Run(Init(conf), conf, [e1]) == s1;
    assert Run(Init(conf), conf, events) == Handle(s1, conf, e2);
    FailsSpoilt(s1, conf, x, e2);
    RunRests(conf, events);
    NotClean(Run(Init(conf), conf, events).past, h, x);
    OneGreetingExactly(conf, events);
  }

  lemma NotClean(p: Past, h: Hello, x: byte)
    requires p.hsFrame == Encode(h) && p.got == Encode(h) + [x] && p.waiting == [x, Byte(1), Byte(0)]
    ensures !Clean(p)
  {
    hide Encode;
    assert p.got[|p.hsFrame|..] == [x];
  }

  lemma FailsSpoilt(s: State, conf: Conf, x: byte, e: Event)
    requires s.toS.Connecting? && s.listening && !s.erased && s.hs.state == 1 && x as int <= 2
    requires s.to == EMPTY_GATE && s.from.input == [x] && s.past.hellos == 0
    requires s.past.hsFrame == Encode(s.hs) && s.from.received == Encode(s.hs) + [x]
    requires e == Fails(QUIET, Socket(Arrived([]), [Wrote(|Encode(s.hs)|), Wrote(3)]), false)
    ensures var r := Handle(s, conf, e);
            && r.toS.Proxying? && r.fromS.Proxying? && r.past.hellos == 1
            && r.from.received == s.from.received && r.past.hsFrame == s.past.hsFrame
            && r.to.sent == Encode(s.hs) + [x, Byte(1), Byte(0)]
            && r.past.got == s.from.received && r.past.waiting == [x, Byte(1), Byte(0)]
  {
    hide Encode, SendHello, FakeStatus, TryTo;
    var p := Plug(s, e.env);
    ErrorInjects(p, conf, e.env);
    SpoiltThrows(p, e.env, x);
    var b := Injected(p);
    assert b.from.received + [] == b.from.received;
    HelloAndData(b, conf, e.env);
  }

  /** With that byte waiting the client is not answered, in a run that ends with the hub having
      taken it over. */
  lemma LeftoverUnanswered(conf: Conf, h: Hello, x: byte)
    requires |Encode(h)| < TWO_31 && h.state == 1
    requires var r := Record(conf, h.address); r.address != "" && r.port != 0 && !r.drop
    ensures var s := Run(Init(conf), conf, [Arrives(Encode(h) + [x]), Fails(QUIET, QUIET, true)]);
            s.fromS.StatusFake? && s.from.Written() == []
  {
    hide Encode, Handle, Record;
    var e1, e2 := Arrives(Encode(h) + [x]), Fails(QUIET, QUIET, true);
    var events := [e1, e2];
    FirstEvent(conf, h, [x]);
    var s1 := Handle(Init(conf), conf, e1);
    assert events[..1] == [e1] && [e1][..0] == [];
    assert Run(Init(conf), conf, [e1]) == s1;
    assert Run(Init(conf), conf, events) == Handle(s1, conf, e2);
    FailsUnanswered(s1, conf, x, e2);
  }

  lemma FailsUnanswered(s: State, conf: Conf, x: byte, e: Event)
    requires s.toS.Connecting? && s.listening && !s.erased && s.hs.state == 1 && s.nickname == []
    requires s.from.input == [x] && s.from.sent == [] && s.from.output == [] && e == Fails(QUIET, QUIET, true)
    ensures var r := Handle(s, conf, e); r.fromS.StatusFake? && r.from.Written() == []
  {
    hide Encode, FakeStatus, TryTo;
    var p := Plug(s, e.env);
    ErrorInjects(p, conf, e.env);
    RequestSpoilt(x, NO_LIMIT);
    Spoilt(p, e.env, x);
    var b := Injected(p);
    assert |b.from.input| >= 2;
  }

  lemma Spoilt(s: State, env: Env, x: byte)
    requires s.from.input == [x] && s.hs.state == 1 && env.maxSize == NO_LIMIT
    ensures FakeStatus(Injected(s), env).value == Injected(s) && |Injected(s).from.input| >= 2
  {
    hide HeadOf, Take;
    RequestSpoilt(x, NO_LIMIT);
    assert |Encode(Request)| == 2;
    assert !HeadOf([x] + Encode(Request), NO_LIMIT).Partial? || FakeStatus(Injected(s), env) == Ok(Injected(s));
  }

  // ---------- failures that answer nobody ----------

  /** The backend's socket raises an event, reading it fails, and it reports an error. */
  const BREAKS: Event :=
    ToEvent(ONLY_READ, Env(NO_LIMIT, [], [], Started, QUIET, Socket(Dead, []), false, true))

  /** An exception while connecting: the request is injected with nothing waiting, and left there. */
  lemma CaughtUnanswered(conf: Conf, h: Hello)
    requires |Encode(h)| < TWO_31 && h.state == 1
    requires var r := Record(conf, h.address); r.address != "" && r.port != 0 && !r.drop
    ensures var s := Run(Init(conf), conf, [Arrives(Encode(h)), BREAKS]);
            && s.fromS.StatusFake? && s.past.injected == [Request]
            && s.from.input == Encode(Request) && s.from.Written() == []
  {
    hide Encode, Handle, Record;
    var e1 := Arrives(Encode(h));
    var events := [e1, BREAKS];
    assert Encode(h) + [] == Encode(h);
    FirstEvent(conf, h, []);
    var s1 := Handle(Init(conf), conf, e1);
    assert events[..1] == [e1] && [e1][..0] == [];
    assert Run(Init(conf), conf, [e1]) == s1;
    assert Run(Init(conf), conf, events) == Handle(s1, conf, BREAKS);
    BreaksQuietly(s1, conf);
  }

  lemma BreaksQuietly(s: State, conf: Conf)
    requires s.toS.Connecting? && s.listening && !s.erased && s.hs.state == 1
    requires s.from.input == [] && s.from.sent == [] && s.from.output == [] && s.past.injected == []
    ensures var r := Handle(s, conf, BREAKS);
            && r.fromS.StatusFake? && r.past.injected == [Request]
            && r.from.input == Encode(Request) && r.from.Written() == []
  {
    hide Encode, SendHello, ToWritable;
    var p := Plug(s, BREAKS.env);
    assert TryTo(p, conf, ONLY_READ, BREAKS.env) == Throw(p);
    assert [] + Encode(Request) == Encode(Request);
  }

  const HANGS_UP: Event := ToEvent(Mask(true, true, true, true, true), EnvOf(QUIET))

  /** A hang-up while connecting: the whole request waits, and is left there. */
  lemma HungUpUnanswered(conf: Conf, h: Hello)
    requires |Encode(h)| < TWO_31 && h.state == 1
    requires var r := Record(conf, h.address); r.address != "" && r.port != 0 && !r.drop
    ensures var s := Run(Init(conf), conf, [Arrives(Encode(h) + Encode(Request)), HANGS_UP]);
            && s.fromS.StatusFake? && s.from.input == Encode(Request) && s.from.Written() == []
            && s.disconnected
  {
    hide Encode, Handle, Record;
    var e1 := Arrives(Encode(h) + Encode(Request));
    var events := [e1, HANGS_UP];
    FirstEvent(conf, h, Encode(Request));
    var s1 := Handle(Init(conf), conf, e1);
    assert events[..1] == [e1] && [e1][..0] == [];
    assert Run(Init(conf), conf, [e1]) == s1;
    assert Run(Init(conf), conf, events) == Handle(s1, conf, HANGS_UP);
    HangsQuietly(s1, conf);
  }

  lemma HangsQuietly(s: State, conf: Conf)
    requires s.toS.Connecting? && s.listening && !s.erased && s.hs.state == 1
    ensures var r := Handle(s, conf, HANGS_UP);
            && r.fromS.StatusFake? && r.from.input == s.from.input && r.from.Written() == s.from.Written()
            && r.disconnected
  {
    hide Encode, ToActions, Recover;
  }

  /** That the hub has answered before the greeting need not matter: here it has answered its own
      request alone, and the run is transparent all the same. */
  lemma OwnRequestOnly(conf: Conf, h: Hello)
    requires |Encode(h)| < TWO_31 && h.state == 1
    requires var r := Record(conf, h.address); r.address != "" && r.port != 0 && !r.drop
    ensures var events := [Arrives(Encode(h)),
                           Fails(Socket(Arrived([]), [Fault]),
                                 Socket(Arrived([]), [Wrote(|Encode(h)|), Wrote(0)]), false)];
            var s := Run(Init(conf), conf, events);
            && TotalGreetings(conf, events) == 1 && Proxied(s.fromS)
            && |s.past.earlier| == 1 && Forwards(s)
  {
    hide Encode, Handle, Record, Forwards, Inv, ClientStream, Clean;
    var e1 := Arrives(Encode(h));
    var e2 := Fails(Socket(Arrived([]), [Fault]), Socket(Arrived([]), [Wrote(|Encode(h)|), Wrote(0)]), false);
    var events := [e1, e2];
    assert Encode(h) + [] == Encode(h);
    FirstEvent(conf, h, []);
    var s1 := Handle(Init(conf), conf, e1);
    assert events[..1] == [e1] && [e1][..0] == [];
    assert Run(Init(conf), conf, [e1]) == s1;
    assert Run(Init(conf), conf, events) == Handle(s1, conf, e2);
    FailsAnswered(s1, conf, e2);
    RunRests(conf, events);
    NowClean(Run(Init(conf), conf, events).past);
    OneGreetingExactly(conf, events);
  }

  lemma NowClean(p: Past)
    requires p.got == p.hsFrame && p.waiting == []
    ensures Clean(p)
  {
  }

  lemma FailsAnswered(s: State, conf: Conf, e: Event)
    requires s.toS.Connecting? && s.listening && !s.erased && s.hs.state == 1
    requires s.to == EMPTY_GATE && s.from.input == [] && s.past.hellos == 0 && s.past.Replied() == []
    requires s.past.hsFrame == Encode(s.hs) == s.from.received
    requires e == Fails(Socket(Arrived([]), [Fault]),
                        Socket(Arrived([]), [Wrote(|Encode(s.hs)|), Wrote(0)]), false)
    ensures var r := Handle(s, conf, e);
            && r.fromS.Proxying? && r.past.hellos == 1
            && r.past.hsFrame == s.past.hsFrame == r.past.got && r.past.waiting == [] && |r.past.earlier| == 1
  {
    hide Encode, SendHello, FakeStatus, TryTo;
    var p := Plug(s, e.env);
    ErrorInjects(p, conf, e.env);
    AnsweredThrows(p, e.env);
    HelloAndData(FakeStatus(Injected(p), e.env).value, conf, e.env);
    SendHelloEarlier(FakeStatus(Injected(p), e.env).value, conf, e.env);
  }

  lemma SendHelloEarlier(s: State, conf: Conf, env: Env)
    requires s.hs.state == 1
    ensures SendHello(s, conf, env).value.past.earlier == s.past.Replied()
  {
    hide Encode, Sent;
  }

  lemma AnsweredThrows(s: State, env: Env)
    requires s.from.input == [] && s.hs.state == 1 && env.maxSize == NO_LIMIT
    requires s.from.sock.answers == [Fault] && s.past.Replied() == []
    ensures var r := FakeStatus(Injected(s), env);
            && r.Throw? && r.value.from.input == [] && |r.value.past.Replied()| == 1
            && r.value.from.sock.answers == [] && r.value.from.received == s.from.received
            && r.value == s.(from := r.value.from, fromS := StatusFake, past := r.value.past)
            && r.value.past.hellos == s.past.hellos && r.value.past.hsFrame == s.past.hsFrame
  {
    hide Encode, Decode, HeadOf, Carries;
    var f := Encode(Request);
    ShortFrame();
    EncodedCarries(Request, NO_LIMIT);
    HeadOfEncoded(Request, NO_LIMIT);
    TakesFrame(f, [], NO_LIMIT, Request);
    assert [] + f == f + [] == f;
    assert s.from.received + [] == s.from.received;
    var reply := Encode(Response(env.status));
    SlackSuffices(Response(env.status));
    assert |s.from.output + reply| > 0;
  }

  lemma ShortFrame()
    ensures |Encode(Request)| == 2 && |Body(Request)| == 1
  {
    SlackSuffices(Request);
  }
}
