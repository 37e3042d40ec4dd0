/** What single events do to a client, read off the state before them: which bytes leave, which
    are queued, which state follows and who is dropped. */
module PortalEvents {
  import opened VarInts
  import opened Pakets
  import opened Gates
  import opened Records
  import opened PortalSpec
  import opened PortalInv
  import opened PortalHistory
  import opened PortalCalm
  import PortalChunks
  import opened PortalAdmit

  /** How much of b a write takes that has room for n bytes. */
  function Part(n: nat, b: bytes): (k: nat)
    ensures k <= |b|
  {
    if n <= |b| then n else |b|
  }

  // ---------- the client's out event ----------

  /** The client's socket can be written, and nothing else has happened on it. */
  predicate OutOnly(e: Event) {
    && e.FromEvent? && e.mask.writable && !e.mask.err && !e.mask.readable
    && e.env.fromSock.answers != []
  }

  /** The write takes the front of what is queued, the rest stays queued, and nothing else
      changes. With nothing queued there is no write. */
  lemma ClientOut(s: State, conf: Conf, e: Event)
    requires OutOnly(e) && !s.erased
    ensures var r, g := Handle(s, conf, e), s.from;
            var a := e.env.fromSock.answers[0];
            var k := if a.Wrote? then Part(a.count, g.output) else 0;
            && r.from.sent == g.sent + g.output[..k] && r.from.output == g.output[k..]
            && r.from == g.(sent := r.from.sent, output := r.from.output, sock := r.from.sock)
            && r.erased == (s.disconnected || e.mask.rdhup || (a.Fault? && g.output != []))
            && r == s.(from := r.from, to := s.to.(sock := e.env.toSock),
                       disconnected := r.erased, erased := r.erased)
  {
    assert s.from.sent + [] == s.from.sent;
  }

  /** In every run, an out event whose write takes everything leaves nothing queued. */
  lemma OutEmpties(conf: Conf, events: seq<Event>, e: Event)
    requires OutOnly(e) && e.env.fromSock.answers[0].Wrote?
    requires var s := Run(Init(conf), conf, events);
             !s.erased && e.env.fromSock.answers[0].count >= |s.from.output|
    ensures var s, r := Run(Init(conf), conf, events), Run(Init(conf), conf, events + [e]);
            r.from.output == [] && r.from.sent == s.from.sent + s.from.output
  {
    hide Handle;
    RunOne(Init(conf), conf, events, e);
    ClientOut(Run(Init(conf), conf, events), conf, e);
  }

  lemma RunOne(s: State, conf: Conf, events: seq<Event>, e: Event)
    ensures Run(s, conf, events + [e]) == Handle(Run(s, conf, events), conf, e)
  {
    hide Handle;
    assert (events + [e])[..|events|] == events;
  }

  /** The bytes that the writes of these events have room for. */
  function Room(events: seq<Event>): nat
    requires forall e <- events :: OutOnly(e) && e.env.fromSock.answers[0].Wrote?
  {
    if events == [] then 0
    else var e := events[|events| - 1];
         assert OutOnly(e);
         Room(events[..|events| - 1]) + e.env.fromSock.answers[0].count
  }

  /** Out events send what was queued in order, each as much as its write takes, until all is
      sent. */
  lemma {:induction false} OutsDrain(s: State, conf: Conf, events: seq<Event>)
    requires forall e <- events :: OutOnly(e) && e.env.fromSock.answers[0].Wrote? && !e.mask.rdhup
    requires !s.erased && !s.disconnected
    ensures var r, k := Run(s, conf, events), Part(Room(events), s.from.output);
            && !r.erased && !r.disconnected
            && r.from.sent == s.from.sent + s.from.output[..k] && r.from.output == s.from.output[k..]
  {
    hide Handle;
    if events == [] {
      assert s.from.sent + [] == s.from.sent;
    } else {
      var before, e := events[..|events| - 1], events[|events| - 1];
      OutsDrain(s, conf, before);
      ClientOut(Run(s, conf, before), conf, e);
      assert OutOnly(e);
      var b, n := s.from.output, e.env.fromSock.answers[0].count;
      PartTwice(b, Room(before), n);
      var k := Part(Room(before), b);
      Assoc(s.from.sent, b[..k], b[k..][..Part(n, b[k..])]);
    }
  }

  lemma PartTwice(b: bytes, n: nat, m: nat)
    ensures var k, j := Part(n, b), Part(n + m, b);
            var i := Part(m, b[k..]);
            k + i == j && b[..k] + b[k..][..i] == b[..j] && b[k..][i..] == b[j..]
  {
  }

  /** The client's data and its room in one event: as in two. */
  lemma InThenOut(s: State, conf: Conf, mask: Mask, env: Env)
    requires mask.readable && mask.writable && !mask.err && !s.erased
    requires var r := Handle(s, conf, FromEvent(mask.(writable := false), env)); !r.erased
    ensures var r := Handle(s, conf, FromEvent(mask.(writable := false), env));
            Handle(s, conf, FromEvent(mask, env))
            == Handle(r, conf, FromEvent(mask.(readable := false),
                                         env.(fromSock := r.from.sock, toSock := r.to.sock)))
  {
    hide FromReadable, Sent;
    var p := Plug(s, env);
    var t := FromReadable(if mask.rdhup then p.(disconnected := true) else p, conf, env);
    var r := Handle(s, conf, FromEvent(mask.(writable := false), env));
    assert t.Ok? && r == t.value.(erased := false) && !r.disconnected;
    var env' := env.(fromSock := r.from.sock, toSock := r.to.sock);
    assert Plug(r, env') == r;
    if mask.rdhup {
      ReadableLeaves(s, conf, mask, env);
      assert false;
    }
    assert OnFrom(r, Sent(r.from)).value == OnFrom(t.value, Sent(t.value.from)).value.(erased := false);
  }

  lemma ReadableLeaves(s: State, conf: Conf, mask: Mask, env: Env)
    requires mask.readable && !mask.err && !s.erased && mask.rdhup
    ensures Handle(s, conf, FromEvent(mask.(writable := false), env)).erased
  {
    hide FromReadable, Later;
    var p := Plug(s, env).(disconnected := true);
    FromReadableLater(p, conf, env, Request);
    StaysDisconnected(p, FromReadable(p, conf, env).value, env, Request);
  }

  lemma StaysDisconnected(s: State, r: State, env: Env, q: Packet)
    requires Later(s, r, env, q)
    ensures s.disconnected ==> r.disconnected
  {
  }

  // ---------- the backend's out event ----------

  /** The joined backend's socket can be written, and has neither failed nor sent anything. */
  predicate BackendOutOnly(s: State, e: Event) {
    && !s.erased && s.listening && Joined(s.toS)
    && e.ToEvent? && e.mask.writable && !e.mask.err && !e.mask.readable
  }

  lemma StableTurn(s: State, conf: Conf, env: Env)
    requires s.fromS.Stable?
    ensures var t, q := ProcessFrom(s, conf, env), Queue(s.to, s.from.input);
            t.value.to == Sent(q).value && (t.Ok? <==> Sent(q).Ok?)
            && t.value.from == Drain(s.from) && t.value.toS == s.toS && t.value.fromS == s.fromS
            && t.value.disconnected == s.disconnected && t.value.listening == s.listening
            && t.value.erased == s.erased
  {
    hide Sent;
  }

  /** The state the backend's event starts from. */
  function Heard(s: State, e: Event): State
    requires e.ToEvent?
  {
    Plug(s, e.env).(disconnected := s.disconnected || e.mask.rdhup || e.mask.hup)
  }

  lemma BackendOutStep(s: State, conf: Conf, e: Event)
    requires BackendOutOnly(s, e) && Fault !in e.env.toSock.answers
    ensures var h := Heard(s, e);
            var t := ProcessFrom(h.(to := Sent(h.to).value, toS := Stable, fromS := Stable), conf, e.env);
            t.Ok? ==> Handle(s, conf, e) == t.value
  {
    hide ProcessFrom, Sent;
    QuietSend(Heard(s, e).to);
  }

  lemma BackendOutTurn(s: State, conf: Conf, e: Event)
    requires BackendOutOnly(s, e) && Fault !in e.env.toSock.answers
    ensures var r, g := Handle(s, conf, e), Heard(s, e).to;
            && r.to == Sent(Queue(Sent(g).value, s.from.input)).value
            && r.from.input == [] && r.from.Written() == s.from.Written()
            && r.toS.Stable? && r.fromS.Stable? && r.listening && !r.erased
            && r.disconnected == (s.disconnected || e.mask.rdhup || e.mask.hup)
  {
    hide ProcessFrom, Sent, Handle;
    BackendOutStep(s, conf, e);
    var h := Heard(s, e);
    QuietSend(h.to);
    StableTurn(h.(to := Sent(h.to).value, toS := Stable, fromS := Stable), conf, e.env);
    QuietSend(Queue(Sent(h.to).value, s.from.input));
  }

  /** The write takes the front of what is queued for the backend; then what the client has
      waiting is queued behind the rest, and a second write is tried. Both sides are stable from
      then on. */
  lemma BackendOut(s: State, conf: Conf, e: Event)
    requires BackendOutOnly(s, e) && Fault !in e.env.toSock.answers && s.to.output != []
    requires e.env.toSock.answers != []
    ensures var r, a := Handle(s, conf, e), e.env.toSock.answers;
            var k := if a[0].Wrote? then Part(a[0].count, s.to.output) else 0;
            var rest := s.to.output[k..] + s.from.input;
            var j := if |a| > 1 && a[1].Wrote? then Part(a[1].count, rest) else 0;
            && r.to.sent == s.to.sent + s.to.output[..k] + rest[..j] && r.to.output == rest[j..]
            && r.from.input == [] && r.from.Written() == s.from.Written()
            && r.toS.Stable? && r.fromS.Stable? && r.listening && !r.erased
            && r.disconnected == (s.disconnected || e.mask.rdhup || e.mask.hup)
  {
    hide Handle, Sent;
    BackendOutTurn(s, conf, e);
    TwoWrites(Heard(s, e).to, s.from.input);
  }

  lemma TwoWrites(g: GateState, data: bytes)
    requires g.output != [] && g.sock.answers != [] && Fault !in g.sock.answers
    ensures var a := g.sock.answers;
            var k := if a[0].Wrote? then Part(a[0].count, g.output) else 0;
            var rest := g.output[k..] + data;
            var j := if |a| > 1 && a[1].Wrote? then Part(a[1].count, rest) else 0;
            var r := Sent(Queue(Sent(g).value, data)).value;
            r.sent == g.sent + g.output[..k] + rest[..j] && r.output == rest[j..]
  {
    var a := g.sock.answers;
    var k := if a[0].Wrote? then Part(a[0].count, g.output) else 0;
    var rest := g.output[k..] + data;
    assert g.sent + g.output[..0] == g.sent;
    assert g.sent + g.output[..k] + rest[..0] == g.sent + g.output[..k];
    assert |a| > 1 ==> a[1..][0] == a[1];
  }

  /** With nothing queued, what the client has waiting is queued and the one write is for it. */
  lemma BackendOutIdle(s: State, conf: Conf, e: Event)
    requires BackendOutOnly(s, e) && Fault !in e.env.toSock.answers && s.to.output == []
    ensures var r, a := Handle(s, conf, e), e.env.toSock.answers;
            var j := if a != [] && a[0].Wrote? then Part(a[0].count, s.from.input) else 0;
            && r.to.sent == s.to.sent + s.from.input[..j] && r.to.output == s.from.input[j..]
            && r.from.input == [] && r.from.Written() == s.from.Written()
            && r.toS.Stable? && r.fromS.Stable? && r.listening && !r.erased
            && r.disconnected == (s.disconnected || e.mask.rdhup || e.mask.hup)
  {
    hide Handle;
    BackendOutTurn(s, conf, e);
    assert [] + s.from.input == s.from.input && s.to.sent + [] == s.to.sent;
  }

  /** In every run, an out event of the backend whose writes take everything leaves nothing queued
      for it and nothing of the client's unread. */
  lemma BackendOutEmpties(conf: Conf, events: seq<Event>, e: Event, n: nat)
    requires var s := Run(Init(conf), conf, events);
             BackendOutOnly(s, e) && n >= |s.to.output| + |s.from.input|
    requires var a := e.env.toSock.answers; |a| >= 2 && Fault !in a && a[0] == a[1] == Wrote(n)
    ensures var s, r := Run(Init(conf), conf, events), Run(Init(conf), conf, events + [e]);
            && r.to.output == [] && r.to.sent == s.to.sent + s.to.output + s.from.input
            && r.from.input == []
  {
    hide Handle;
    RunOne(Init(conf), conf, events, e);
    var s := Run(Init(conf), conf, events);
    if s.to.output == [] {
      BackendOutIdle(s, conf, e);
      assert s.to.sent + [] == s.to.sent;
    } else {
      BackendOut(s, conf, e);
      assert [] + s.from.input == s.from.input;
    }
  }

  // ---------- the backend's other events ----------

  /** What a joined backend sends is queued for the client behind what it sent before. */
  lemma BackendIn(s: State, conf: Conf, e: Event, data: bytes)
    requires !s.erased && s.listening && Joined(s.toS)
    requires e.ToEvent? && e.mask.readable && !e.mask.writable && !e.mask.err && e.env.toSock.arrival == Arrived(data)
    requires Fault !in e.env.fromSock.answers
    ensures var r := Handle(s, conf, e);
            && r.from.Written() == s.from.Written() + (s.to.input + data) && s.from.sent <= r.from.sent
            && r.to.input == [] && r.to.Written() == s.to.Written() && r.from.input == s.from.input
            && r.toS == s.toS && r.fromS == s.fromS && r.listening && !r.erased
            && r.disconnected == (s.disconnected || e.mask.rdhup || e.mask.hup)
  {
    hide ProcessTo, Sent, ToActions;
    var h := Heard(s, e);
    var a := OnTo(h, Received(h.to)).value;
    ToProxyTurn(a);
    assert ToActions(h, conf, e.mask, e.env) == ProcessTo(a) by { ReadOnly(h, conf, e.mask, e.env, data); }
    Assoc(s.from.sent, s.from.output, s.to.input + data);
  }

  lemma ReadOnly(s: State, conf: Conf, mask: Mask, env: Env, data: bytes)
    requires mask.readable && !mask.writable && !mask.err && s.to.sock.arrival == Arrived(data)
    ensures ToActions(s, conf, mask, env) == ProcessTo(OnTo(s, Received(s.to)).value)
  {
    hide ProcessTo;
  }

  lemma ToProxyTurn(s: State)
    requires Joined(s.toS) && Fault !in s.from.sock.answers
    ensures var t := ProcessTo(s);
            && t.Ok? && t.value == s.(from := t.value.from, to := Drain(s.to))
            && t.value.from.Written() == s.from.sent + (s.from.output + s.to.input)
            && t.value.from.input == s.from.input && s.from.sent <= t.value.from.sent
            && Fault !in t.value.from.sock.answers
  {
    hide Sent;
    var q := Queue(s.from, s.to.input);
    QuietSend(q);
    SentKeeps(q);
  }

  /** What one sends before it is joined waits. */
  lemma BackendEarly(s: State, conf: Conf, e: Event, data: bytes)
    requires !s.erased && s.listening && s.toS.Connecting?
    requires e.ToEvent? && e.mask == Mask(e.mask.rdhup, false, false, true, false)
    requires e.env.toSock.arrival == Arrived(data)
    ensures var r := Handle(s, conf, e);
            && r.to.input == s.to.input + data && r.from.Written() == s.from.Written()
            && r.to.Written() == s.to.Written() && r.from.input == s.from.input
            && r.toS == s.toS && r.fromS == s.fromS && r.listening && !r.erased
            && r.disconnected == (s.disconnected || e.mask.rdhup)
  {
    var p := Plug(s, e.env);
    assert ToActions(if e.mask.rdhup then p.(disconnected := true) else p, conf, e.mask, e.env).Ok?;
  }

  /** A stable backend whose socket fails: the client is to be disconnected, and nothing else. */
  lemma StableFails(s: State, conf: Conf, e: Event)
    requires !s.erased && s.listening && s.toS.Stable? && e.ToEvent?
    requires e.mask.err || (e.mask.readable && e.env.toSock.arrival.Dead?)
          || (e.mask.writable && !e.mask.readable && s.to.output != []
              && e.env.toSock.answers != [] && e.env.toSock.answers[0].Fault?)
    ensures var r := Handle(s, conf, e);
            r == Plug(s, e.env).(disconnected := true, to := s.to.(sock := r.to.sock))
  {
    hide ProcessFrom, ProcessTo;
  }

  /** A backend that has closed its end, or hung up after it was joined: whatever else the event
      brings, the client is to be disconnected. */
  lemma BackendLeaves(s: State, conf: Conf, e: Event)
    requires !s.erased && s.listening && !s.fromS.Handshaking? && e.ToEvent?
    requires e.mask.rdhup || (e.mask.hup && !s.toS.Connecting?)
    ensures Handle(s, conf, e).disconnected
  {
    hide ToActions, Recover, SetFromByHs, Later;
    var p := Plug(s, e.env);
    var s1 := if e.mask.rdhup then p.(disconnected := true) else p;
    var s2 := if e.mask.hup then s1.(disconnected := true) else s1;
    TakesOverStays(s1, e.env);
    ToActionsLater(s2, conf, e.mask, e.env);
    var t := TryTo(p, conf, e.mask, e.env);
    StaysDisconnected(s2, ToActions(s2, conf, e.mask, e.env).value, e.env, Asked(s2));
    assert t.value.disconnected;
    RecoverLater(t.value, conf, e.env);
    StaysDisconnected(t.value, Recover(t.value, conf, e.env).value, e.env, Asked(t.value));
  }

  lemma TakesOverStays(s: State, env: Env)
    ensures SetFromByHs(s).value.disconnected == s.disconnected
  {
  }

  /** Such a client is dropped with the next event on its own socket, and no other event undoes
      that. */
  lemma DisconnectedGoes(s: State, conf: Conf, e: Event)
    requires s.disconnected && (s.fromS.Handshaking? ==> !s.listening)
    ensures Handle(s, conf, e).disconnected
    ensures e.FromEvent? ==> Handle(s, conf, e).erased || s.erased
  {
    hide Later, TryFrom;
    HandleLater(s, conf, e);
    StaysDisconnected(s, Handle(s, conf, e), e.env, Asked(s));
  }

  /** Events that concern nobody: of a backend socket that was removed or closed, and of the timer
      once the connection has come up or was given up. */
  lemma NobodysEvent(s: State, conf: Conf, e: Event)
    requires (e.ToEvent? && !s.listening) || (e.Timeout? && !s.toS.Connecting?)
    ensures var r := Handle(s, conf, e); r == s || r == Plug(s, e.env)
  {
  }

  // ---------- a backend that does not come up ----------

  predicate Answerable(h: Hello) {
    h.state == 1 || h.state == 2
  }

  /** The socket has hung up, or reports an error when it can be written: the hub takes the client
      over, leaves unread what waits, and no longer listens to the backend. */
  lemma NotConnected(s: State, conf: Conf, e: Event)
    requires !s.erased && s.listening && s.toS.Connecting? && Answerable(s.hs) && e.ToEvent?
    requires e.mask.hup || (e.mask.writable && !e.mask.err && !e.mask.readable && e.env.connectError)
    ensures Handle(s, conf, e)
         == Plug(s, e.env).(fromS := if s.hs.state == 1 then StatusFake else LoginFake,
                            past := s.past.(fellBack := true), listening := false,
                            disconnected := s.disconnected || e.mask.rdhup)
  {
    hide SendHello, ToReadable;
  }

  /** The timer: the same, and what waits is looked at. */
  lemma TimedOut(s: State, conf: Conf, env: Env)
    requires !s.erased && s.toS.Connecting? && Answerable(s.hs)
    ensures var a := Plug(s, env).(fromS := if s.hs.state == 1 then StatusFake else LoginFake,
                                   past := s.past.(fellBack := true), listening := false);
            Handle(s, conf, Timeout(env)) == ProcessFrom(a, conf, env).value
    ensures s.from.input == [] ==> Handle(s, conf, Timeout(env)).from.Written() == s.from.Written()
    ensures !Handle(s, conf, Timeout(env)).listening
  {
    hide FakeStatus, FakeLogin;
    var a := Plug(s, env).(fromS := if s.hs.state == 1 then StatusFake else LoginFake,
                           past := s.past.(fellBack := true), listening := false);
    FakeLeavesRest(a, conf, env);
    if s.from.input == [] {
      NothingToAnswer(a, conf, env);
    }
  }

  lemma FakeLeavesRest(s: State, conf: Conf, env: Env)
    requires Fake(s.fromS)
    ensures var r := ProcessFrom(s, conf, env).value;
            && r.listening == s.listening && r.toS == s.toS
            && r.past.injected == s.past.injected && r.past.fellBack == s.past.fellBack
  {
    hide Take, HeadOf, Sent, ReplyTo;
  }

  /** A joining backend whose socket fails while nothing waits: the client gets the one reply to
      what it has not asked for yet, and the backend is no longer listened to. */
  lemma FailsUnasked(s: State, conf: Conf, e: Event, q: Packet)
    requires !s.erased && !s.disconnected && s.listening && (s.toS.Connecting? || s.toS.Proxying?)
    requires Answerable(s.hs) && s.from.input == [] && e.ToEvent? && e.mask == Mask(false, false, true, false, false)
    requires q == if s.hs.state == 1 then Request else Login(s.nickname)
    requires |Encode(q)| < TWO_31 && (e.env.maxSize == NO_LIMIT || |Body(q)| <= e.env.maxSize)
    requires Fault !in e.env.fromSock.answers
    ensures var r := Handle(s, conf, e);
            && r.from.Written() == s.from.Written()
                 + (if s.hs.state == 1 then Encode(Response(e.env.status)) else Encode(Disconnect(e.env.login)))
            && r.past.injected == s.past.injected + [q] && r.from.input == []
            && r.fromS == (if s.hs.state == 1 then StatusFake else LoginFake) && r.toS == s.toS
            && !r.listening && r.disconnected == (s.hs.state == 2) && r.past.fellBack
  {
    hide Encode, ProcessFrom, Carries;
    var a := SetFromByHs(Plug(s, e.env)).value;
    var b := InjectIfShort(a);
    EncodedCarries(q, e.env.maxSize);
    assert [] + Encode(q) == Encode(q) == Encode(q)[..|Encode(q)|];
    assert PortalChunks.Awaits(b, s.hs, Encode(q), s.from.Written());
    PortalChunks.FakeTurn(b, conf, e.env, s.hs, q, Encode(q), |Encode(q)|, s.from.Written(), TextsOf(e.env));
    FakeLeavesRest(b, conf, e.env);
    assert Handle(s, conf, e) == ProcessFrom(b, conf, e.env).value.(listening := false);
  }

  /** One whose socket cannot be read and reports an error when asked: the hub takes the client
      over, and puts into its input what it has not asked for yet, but looks at none of it. */
  lemma CannotBeRead(s: State, conf: Conf, e: Event)
    requires !s.erased && s.listening && (s.toS.Connecting? || s.toS.Proxying?) && Answerable(s.hs)
    requires e.ToEvent? && e.mask == Mask(false, false, false, true, e.mask.writable)
    requires e.env.toSock.arrival.Dead? && e.env.recoverError
    ensures var r := Handle(s, conf, e);
            var q := if s.hs.state == 1 then Request else Login(s.nickname);
            && r.fromS == (if s.hs.state == 1 then StatusFake else LoginFake) && r.toS == s.toS
            && !r.listening && r.past.fellBack && r.disconnected == s.disconnected
            && r.from.input == s.from.input + (if |s.from.input| < 2 then Encode(q) else [])
            && r.from.Written() == s.from.Written() && r.to.Written() == s.to.Written()
  {
    hide Encode, SendHello, ToWritable, ProcessTo;
    var p := Plug(s, e.env);
    assert TryTo(p, conf, e.mask, e.env) == Throw(p);
    assert s.from.input + [] == s.from.input;
  }

  // ---------- a backend that comes up ----------

  /** The connection has come up, and nothing else has happened on the socket. */
  predicate ComesUp(s: State, e: Event) {
    && !s.erased && s.listening && s.toS.Connecting?
    && e == ToEvent(Mask(false, false, false, false, true), e.env) && !e.env.connectError
    && Fault !in e.env.fromSock.answers && Fault !in e.env.toSock.answers
  }

  /** The state in which the client's input is looked at then: greeted, with what the backend has
      sent already passed on. */
  lemma JoinTurn(s: State, conf: Conf, e: Event) returns (b: State)
    requires ComesUp(s, e)
    ensures ProcessFrom(b, conf, e.env).Ok? ==> Handle(s, conf, e) == ProcessFrom(b, conf, e.env).value
    ensures b.toS.Proxying? && b.fromS == (if s.hs.state == 1 then Proxying else LoggingIn) && b.hs == s.hs
    ensures b.from.Written() == s.from.Written() + s.to.input && b.from.input == s.from.input
    ensures b.to.Written() == s.to.Written() + Encode(s.hs) && b.to.input == [] && Quiet(b)
    ensures b.listening && b.nickname == s.nickname && b.disconnected == s.disconnected && b.erased == s.erased
  {
    hide Encode, Sent, ProcessFrom, Recover, ProcessTo;
    var p := Plug(s, e.env);
    var g := Greet(p, Encode(s.hs));
    QuietSend(g.to);
    SentKeeps(g.to);
    Assoc(s.to.sent, s.to.output, Encode(s.hs));
    var j := Join(QueueHello(p, Encode(s.hs)).value);
    ToProxyTurn(j);
    Assoc(s.from.sent, s.from.output, s.to.input);
    b := ProcessTo(j).value;
  }

  /** A status client: the backend is queued the handshake and what waits, and the client what the
      backend has sent. */
  lemma StatusJoins(s: State, conf: Conf, e: Event)
    requires ComesUp(s, e) && s.hs.state == 1
    ensures var r := Handle(s, conf, e);
            && r.toS.Proxying? && r.fromS.Proxying? && r.from.input == [] && r.to.input == []
            && r.to.Written() == s.to.Written() + Encode(s.hs) + s.from.input
            && r.from.Written() == s.from.Written() + s.to.input
            && r.listening && r.disconnected == s.disconnected && r.nickname == s.nickname
  {
    hide Encode, ProcessFrom, Handle;
    var b := JoinTurn(s, conf, e);
    ProxyTurn(b, conf, e.env);
    Assoc(b.to.sent, b.to.output, b.from.input);
  }

  lemma ProxyTurn(s: State, conf: Conf, env: Env)
    requires s.fromS.Proxying? && Quiet(s)
    ensures var t := ProcessFrom(s, conf, env);
            && t.Ok? && t.value == s.(from := Drain(s.from), to := t.value.to, past := t.value.past)
            && t.value.to.Written() == s.to.sent + (s.to.output + s.from.input) && t.value.to.input == s.to.input
  {
    hide Sent;
    QuietSend(Queue(s.to, s.from.input));
    SentKeeps(Queue(s.to, s.from.input));
  }

  lemma LoginTurn(s: State, conf: Conf, env: Env, q: Packet, f: bytes, rest: bytes)
    requires s.fromS.LoggingIn? && Quiet(s) && q.Login?
    requires Carries(f, env.maxSize, q) && s.from.input == f + rest
    ensures var t := ProcessFrom(s, conf, env);
            && t.Ok? && t.value == s.(from := t.value.from, to := t.value.to, past := t.value.past,
                                      fromS := Proxying, nickname := q.name)
            && t.value.from.input == rest && t.value.from.Written() == s.from.Written()
            && t.value.from.sock == s.from.sock && t.value.to.input == s.to.input
            && t.value.to.Written() == s.to.sent + (s.to.output + Encode(q))
  {
    hide Sent, Take, Encode, Carries;
    TakesFrame(f, rest, env.maxSize, q);
    assert (f + rest)[|f|..] == rest;
    QuietSend(Queue(s.to, Encode(q)));
    SentKeeps(Queue(s.to, Encode(q)));
  }

  /** A login client whose login waits, with or without more behind it: the backend is queued the
      handshake and the login, the name is kept, and the rest is left for later. */
  lemma LoginJoins(s: State, conf: Conf, e: Event, q: Packet, f: bytes, rest: bytes)
    requires ComesUp(s, e) && s.hs.state != 1 && q.Login?
    requires Carries(f, e.env.maxSize, q) && s.from.input == f + rest
    ensures var r := Handle(s, conf, e);
            && r.toS.Proxying? && r.fromS.Proxying? && r.from.input == rest && r.to.input == []
            && r.to.Written() == s.to.Written() + Encode(s.hs) + Encode(q)
            && r.from.Written() == s.from.Written() + s.to.input
            && r.listening && r.disconnected == s.disconnected && r.nickname == q.name
  {
    hide Encode, ProcessFrom, Handle, Carries;
    var b := JoinTurn(s, conf, e);
    LoginTurn(b, conf, e.env, q, f, rest);
    Assoc(b.to.sent, b.to.output, Encode(q));
  }

  /** One whose login has not all come: only the handshake is queued. */
  lemma LoginAwaited(s: State, conf: Conf, e: Event)
    requires ComesUp(s, e) && s.hs.state != 1 && Take(s.from.input, ALogin, e.env.maxSize).Nothing?
    ensures var r := Handle(s, conf, e);
            && r.toS.Proxying? && r.fromS.LoggingIn? && r.from.input == s.from.input && r.to.input == []
            && r.to.Written() == s.to.Written() + Encode(s.hs)
            && r.from.Written() == s.from.Written() + s.to.input
            && r.listening && r.disconnected == s.disconnected && r.nickname == s.nickname
  {
    hide Encode, Handle, Take;
    var b := JoinTurn(s, conf, e);
  }

  // ---------- the client's data ----------

  /** What the client sends while its backend is awaited only waits. */
  lemma WaitingReads(s: State, conf: Conf, e: Event, data: bytes)
    requires !s.erased && s.fromS.Waiting? && e.FromEvent? && e.mask.readable && !e.mask.err
    requires e.env.fromSock.arrival == Arrived(data) && Fault !in e.env.fromSock.answers
    ensures var r := Handle(s, conf, e);
            && r.from.input == s.from.input + data && r.from.Written() == s.from.Written()
            && r.to.Written() == s.to.Written() && r.fromS.Waiting? && r.toS == s.toS
            && r.erased == (s.disconnected || e.mask.rdhup)
  {
    hide Handle;
    ReadTurn(s, conf, e, data, WhenRead(s, e, data));
  }

  /** The login of a client whose backend is joined: as when it had waited. */
  lemma LoginReads(s: State, conf: Conf, e: Event, data: bytes, q: Packet, f: bytes, rest: bytes)
    requires !s.erased && s.fromS.LoggingIn? && e.FromEvent? && e.mask.readable && !e.mask.err
    requires e.env.fromSock.arrival == Arrived(data)
    requires Fault !in e.env.fromSock.answers && Fault !in e.env.toSock.answers
    requires q.Login? && Carries(f, e.env.maxSize, q) && s.from.input + data == f + rest
    ensures var r := Handle(s, conf, e);
            && r.fromS.Proxying? && r.toS == s.toS && r.from.input == rest && r.nickname == q.name
            && r.to.Written() == s.to.Written() + Encode(q) && r.from.Written() == s.from.Written()
            && r.erased == (s.disconnected || e.mask.rdhup)
  {
    hide Handle, ProcessFrom, Encode, Carries;
    var a := WhenRead(s, e, data);
    LoginTurn(a, conf, e.env, q, f, rest);
    ReadTurn(s, conf, e, data, ProcessFrom(a, conf, e.env).value);
    Assoc(s.to.sent, s.to.output, Encode(q));
  }

  lemma FakeRefuses(s: State, conf: Conf, env: Env)
    requires Fake(s.fromS)
    requires var h := HeadOf(s.from.input, env.maxSize);
             h.Broken? || (s.fromS.StatusFake? && h.Frame? && h.id != 0 && h.id != 1)
    ensures ProcessFrom(s, conf, env) == Throw(s)
  {
    hide HeadOf, Decode;
  }

  /** A client the hub answers itself is dropped with a head that is no head, and one that asked for
      status with a packet of another id; it is told nothing. */
  lemma ForeignPacket(s: State, conf: Conf, e: Event, data: bytes)
    requires !s.erased && Fake(s.fromS) && e.FromEvent? && e.mask.readable && !e.mask.err
    requires e.env.fromSock.arrival == Arrived(data)
    requires var h := HeadOf(s.from.input + data, e.env.maxSize);
             h.Broken? || (s.fromS.StatusFake? && h.Frame? && h.id != 0 && h.id != 1)
    ensures var r := Handle(s, conf, e);
            r.erased && r.from.Written() == s.from.Written() && r.to.Written() == s.to.Written()
  {
    hide HeadOf, ProcessFrom;
    FakeRefuses(WhenRead(s, e, data), conf, e.env);
  }
}
