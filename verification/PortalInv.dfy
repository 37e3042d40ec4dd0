/** What every reachable client state satisfies, and that each handler keeps it. */
module PortalInv {
  import opened VarInts
  import opened Pakets
  import opened Gates
  import opened Records
  import opened Routing
  import opened PortalSpec

  predicate Fake(x: Side) { x.StatusFake? || x.LoginFake? }
  predicate Proxied(x: Side) { x.LoggingIn? || x.Proxying? || x.Stable? }
  predicate Joined(x: Side) { x.Proxying? || x.Stable? }

  function Frames(served: seq<Exchange>): bytes {
    if served == [] then []
    else Frames(served[..|served| - 1]) + served[|served| - 1].frame
  }

  function Replies(served: seq<Exchange>): bytes {
    if served == [] then []
    else Replies(served[..|served| - 1]) + served[|served| - 1].reply
  }

  function Asks(packets: seq<Packet>): bytes {
    if packets == [] then []
    else Asks(packets[..|packets| - 1]) + Encode(packets[|packets| - 1])
  }

  /** The reachable pairs of from_s and to_s. */
  predicate Paired(f: Side, t: Side) {
    match t
    case Unset => f.Handshaking? || Fake(f)
    case Connecting => f.Waiting? || Fake(f)
    case Proxying => f.LoggingIn? || f.Proxying? || Fake(f)
    case Stable => f.Stable?
    case _ => false
  }

  ghost predicate Basics(s: State) {
    && s.from.Valid() && s.to.Valid() && s.to.Fed() == s.to.received
    && Paired(s.fromS, s.toS) && !s.past.illegal
    && (s.listening ==> !s.toS.Unset?)
    && (s.fromS.Handshaking? ==> !s.past.fellBack)
    && (!s.fromS.Handshaking? ==> s.past.hsFrame != [])
    && s.past.hsFrame <= s.from.received
    && s.from.added == Asks(s.past.injected)
  }

  /** Nothing has reached the backend: the client's input was used up by the hub's own replies,
      and all it was sent are those replies. */
  predicate Idle(s: State) {
    && s.from.used == s.past.hsFrame + Frames(s.past.earlier) + Frames(s.past.served)
    && s.from.Written() == Replies(s.past.earlier) + Replies(s.past.served)
    && s.to.sent == [] && s.to.used == []
    && s.past.relayed == [] && s.past.raw == [] && s.past.loginFrame == [] && s.past.loginOut == []
    && (s.toS.Unset? ==> s.past.hellos == 0)
  }

  /** The handshakes queued for the backend, counted in bytes and, when there is one, exactly. */
  predicate Greeted(s: State) {
    && |s.to.Written()| == s.past.greeting + |s.past.relayed|
    && (s.past.hellos == 1 ==> s.to.Written() == s.past.hello + s.past.relayed)
    && (s.past.hellos == 0 ==> s.past.greeting == 0)
    && (Joined(s.toS) ==> s.past.hellos >= 1)
  }

  /** When the backend was greeted, what waited was all the client had sent after its handshake:
      nothing of it had been used up, and the hub had left nothing of its own there. */
  predicate Clean(p: Past) {
    p.hsFrame <= p.got && p.waiting == p.got[|p.hsFrame|..]
  }

  /** After one handshake the backend is queued what waited then and what came since. */
  predicate Relayed(s: State) {
    var p := s.past;
    && p.relayed == p.loginOut + p.raw
    && (s.hs.state == 1 || s.fromS.LoggingIn? ==> p.loginFrame == [] && p.loginOut == [])
    && (s.fromS.LoggingIn? ==> p.raw == [])
    && p.hsFrame <= p.got && p.got <= s.from.received
    && p.loginFrame + p.raw <= p.waiting + s.from.received[|p.got|..]
    && (Proxied(s.fromS) ==> p.loginFrame + p.raw + s.from.input == p.waiting + s.from.received[|p.got|..])
    && (!p.fellBack ==> p.earlier == [] && p.own == [])
    && (p.earlier == [] ==> |p.hsFrame + p.waiting| == |p.got| + |p.own|)
    && (p.earlier == [] && p.own == [] ==> Clean(p))
  }

  /** After one handshake, the client was sent the hub's replies from before it, then what the
      backend sent, then replies again. */
  predicate Told(s: State) {
    var p := s.past;
    && (Proxied(s.fromS) ==> p.served == [])
    && s.from.Written() == Replies(p.earlier) + s.to.used + Replies(p.served)
    && s.from.used == p.hsFrame + Frames(p.earlier) + (p.loginFrame + p.raw) + Frames(p.served)
  }

  /** Until the hub takes a client over, it adds nothing of its own in either direction. */
  predicate Unmixed(s: State) {
    !s.past.fellBack ==>
      && s.from.Fed() == s.from.received
      && s.from.Written() == s.to.used
      && !Fake(s.fromS) && s.past.Replied() == [] && s.past.injected == []
      && (s.past.plain && Joined(s.toS) ==>
            && s.past.loginFrame == s.past.loginOut && s.past.hsFrame <= s.from.used
            && |s.from.used| == |s.past.hsFrame| + |s.past.relayed|)
  }

  /** Where every byte is. */
  ghost predicate Flow(s: State) {
    && Basics(s)
    && (!Joined(s.toS) ==> Idle(s))
    && Greeted(s)
    && (Joined(s.toS) && s.past.hellos == 1 ==> Relayed(s) && Told(s))
    && Unmixed(s)
  }

  predicate Answered(x: Exchange) {
    && (x.request.Request? || x.request.Ping? || x.request.Login?)
    && Carries(x.frame, NO_LIMIT, x.request)
    && x.reply == ReplyTo(x.request, x.text)
  }

  /** What the bytes mean. */
  ghost predicate Meant(f: Side, hs: Hello, p: Past) {
    && (f.StatusFake? ==> hs.state == 1)
    && (f.LoginFake? ==> hs.state == 2)
    && (f.LoggingIn? ==> hs.state != 1)
    && (p.hsFrame != [] ==> Carries(p.hsFrame, NO_LIMIT, hs))
    && (p.hellos > 0 ==> p.hello == Encode(hs))
    && p.greeting == p.hellos * |Encode(hs)|
    && (p.loginFrame == [] ==> p.loginOut == [])
    && (p.loginFrame != [] ==>
          p.login.Login? && Carries(p.loginFrame, NO_LIMIT, p.login) && p.loginOut == Encode(p.login))
    && (forall x <- p.Replied() :: Answered(x))
  }

  ghost predicate Meaning(s: State) {
    Meant(s.fromS, s.hs, s.past)
  }

  // ---------- sockets ----------

  lemma PlugKeeps(s: State, env: Env)
    requires Flow(s)
    ensures Flow(Plug(s, env))
  {
  }

  lemma ReceiveFromKeeps(s: State)
    requires Flow(s)
    ensures Flow(OnFrom(s, Received(s.from)).value)
  {
    hide Flow, Feed;
    if s.from.sock.arrival.Arrived? {
      var g := s.from.(sock := s.from.sock.(arrival := Arrived([])));
      SocketKeeps(s, g);
      FeedKeeps(s.(from := g), s.from.sock.arrival.data);
    }
  }

  lemma SocketKeeps(s: State, g: GateState)
    requires Flow(s) && g == s.from.(sock := g.sock)
    ensures Flow(s.(from := g))
  {
    hide Kept, Frames, Replies, Asks;
  }

  lemma FeedRelayed(s: State, data: bytes)
    requires Relayed(s) && Told(s)
    ensures Relayed(s.(from := Feed(s.from, data, true))) && Told(s.(from := Feed(s.from, data, true)))
  {
    hide Frames, Replies;
    var p := s.past;
    assert (s.from.received + data)[|p.got|..] == s.from.received[|p.got|..] + data;
    Assoc(p.waiting, s.from.received[|p.got|..], data);
    Assoc(p.loginFrame + p.raw, s.from.input, data);
  }

  lemma FeedKeeps(s: State, data: bytes)
    requires Flow(s)
    ensures Flow(s.(from := Feed(s.from, data, true)))
  {
    hide Kept, Frames, Replies, Asks, Relayed, Told;
    FeedValid(s.from, data, true);
    assert s.from.added + [] == s.from.added;
    if Joined(s.toS) && s.past.hellos == 1 {
      FeedRelayed(s, data);
    }
  }

  lemma AsksAppend(packets: seq<Packet>, q: Packet)
    ensures Asks(packets + [q]) == Asks(packets) + Encode(q)
  {
    hide Encode;
    assert (packets + [q])[..|packets|] == packets;
  }

  /** The hub's own packet goes into the input of a client that it has taken over. */
  lemma InjectFlow(s: State, q: Packet)
    requires Flow(s) && Fake(s.fromS) && s.past.fellBack
    ensures Flow(s.(from := Feed(s.from, Encode(q), false), past := s.past.(injected := s.past.injected + [q])))
  {
    hide Kept, Frames, Replies, Asks, Encode, Relayed, Told, Feed;
    AsksAppend(s.past.injected, q);
    var data := Encode(q);
    FeedValid(s.from, data, false);
    FeedOwn(s.from, data);
    if Joined(s.toS) && s.past.hellos == 1 {
      InjectRelayed(s, q);
    }
  }

  lemma FeedOwn(g: GateState, data: bytes)
    ensures var r := Feed(g, data, false);
            && r.used == g.used && r.sent == g.sent && r.output == g.output
            && r.received == g.received && r.added == g.added + data
  {
    assert g.received + [] == g.received;
  }

  lemma InjectRelayed(s: State, q: Packet)
    requires Relayed(s) && Told(s) && !Proxied(s.fromS)
    ensures var t := s.(from := Feed(s.from, Encode(q), false), past := s.past.(injected := s.past.injected + [q]));
            Relayed(t) && Told(t)
  {
    hide Frames, Replies, Encode;
    assert s.from.received + [] == s.from.received;
  }

  lemma SendFromKeeps(s: State)
    requires Flow(s)
    ensures Flow(OnFrom(s, Sent(s.from)).value)
  {
    SentKeeps(s.from);
  }

  lemma SendToKeeps(s: State)
    requires Flow(s) && Joined(s.toS)
    ensures Flow(OnTo(s, Sent(s.to)).value)
  {
    SentKeeps(s.to);
  }

  lemma ReceiveToKeeps(s: State)
    requires Flow(s) && !s.toS.Unset?
    ensures Flow(OnTo(s, Received(s.to)).value)
  {
    if s.to.sock.arrival.Arrived? {
      FeedValid(s.to, s.to.sock.arrival.data, true);
    }
  }

  // ---------- single moves ----------

  lemma SetFromFlow(s: State)
    requires Flow(s) && !s.fromS.Handshaking? && !s.toS.Stable?
    ensures Flow(SetFromByHs(s).value)
  {
    hide Kept, Frames, Replies, Relayed, Told;
    if Joined(s.toS) && s.past.hellos == 1 {
      TakenOver(s);
    }
  }

  lemma TakenOver(s: State)
    requires Relayed(s) && Told(s) && !s.fromS.Handshaking?
    ensures Relayed(SetFromByHs(s).value) && Told(SetFromByHs(s).value)
  {
    hide Frames, Replies;
  }

  lemma ServedAppend(served: seq<Exchange>, x: Exchange)
    ensures Frames(served + [x]) == Frames(served) + x.frame
    ensures Replies(served + [x]) == Replies(served) + x.reply
  {
    assert (served + [x])[..|served|] == served;
  }

  lemma {:induction false} ServedConcat(earlier: seq<Exchange>, served: seq<Exchange>)
    ensures Frames(earlier + served) == Frames(earlier) + Frames(served)
    ensures Replies(earlier + served) == Replies(earlier) + Replies(served)
    decreases |served|
  {
    hide Frames, Replies;
    if served == [] {
      NothingServed();
      assert earlier + served == earlier;
    } else {
      var rest, x := served[..|served| - 1], served[|served| - 1];
      ServedConcat(earlier, rest);
      ServedAppend(earlier + rest, x);
      ServedAppend(rest, x);
      assert rest + [x] == served && earlier + rest + [x] == earlier + served;
      Assoc(Frames(earlier), Frames(rest), x.frame);
      Assoc(Replies(earlier), Replies(rest), x.reply);
    }
  }

  lemma ServeFlow(s: State, request: Packet, length: nat, text: bytes)
    requires Flow(s) && Fake(s.fromS) && length <= |s.from.input|
    ensures Flow(Serve(s, request, length, text).value)
  {
    hide Flow;
    var reply := ReplyTo(request, text);
    var x := Exchange(request, s.from.input[..length], text, reply);
    AnswerFlow(s, x);
    var s1 := s.(past := s.past.(served := s.past.served + [x]),
                 from := Queue(Drop(s.from, |x.frame|), x.reply));
    SendFromKeeps(s1);
  }

  lemma AnswerFlow(s: State, x: Exchange)
    requires Flow(s) && Fake(s.fromS) && x.frame <= s.from.input
    ensures Flow(s.(past := s.past.(served := s.past.served + [x]),
                    from := Queue(Drop(s.from, |x.frame|), x.reply)))
  {
    hide Kept, Frames, Replies, Asks, Relayed, Told;
    ServedAppend(s.past.served, x);
    DropKeeps(s.from, |x.frame|);
    assert s.from.input[..|x.frame|] == x.frame;
    Assoc(s.from.sent, s.from.output, x.reply);
    Assoc(s.past.hsFrame + Frames(s.past.earlier), Frames(s.past.served), x.frame);
    Assoc(Replies(s.past.earlier), Replies(s.past.served), x.reply);
    var g := Queue(Drop(s.from, |x.frame|), x.reply);
    assert g.Fed() == s.from.Fed() && g.used == s.from.used + x.frame;
    assert g.Written() == s.from.Written() + x.reply;
    if Joined(s.toS) && s.past.hellos == 1 {
      AnswerTold(s, s.(past := s.past.(served := s.past.served + [x]), from := g), x);
    }
  }

  lemma AnswerTold(s: State, t: State, x: Exchange)
    requires Relayed(s) && Told(s) && !Proxied(s.fromS)
    requires t == s.(from := t.from, past := s.past.(served := s.past.served + [x]))
    requires t.from.received == s.from.received
    requires t.from.used == s.from.used + x.frame && t.from.Written() == s.from.Written() + x.reply
    ensures Relayed(t) && Told(t)
  {
    hide Frames, Replies;
    var p := s.past;
    ServedAppend(p.served, x);
    Assoc(p.hsFrame + Frames(p.earlier) + (p.loginFrame + p.raw), Frames(p.served), x.frame);
    Assoc(Replies(p.earlier) + s.to.used, Replies(p.served), x.reply);
  }

  lemma RelayLoginRelayed(s: State, t: State, frame: bytes, out: bytes)
    requires Relayed(s) && s.fromS.LoggingIn? && s.hs.state != 1 && frame <= s.from.input
    requires t.hs == s.hs && t.fromS.Proxying? && t.from == Drop(s.from, |frame|)
    requires t.past == s.past.(loginFrame := frame, login := t.past.login, loginOut := out,
                               plain := t.past.plain, relayed := s.past.relayed + out)
    ensures Relayed(t)
  {
    var p := s.past;
    assert s.from.input == frame + t.from.input;
    assert [] + [] + s.from.input == s.from.input;
    assert frame + [] == frame && [] + out == out == out + [];
  }

  lemma RelayLoginTold(s: State, t: State, frame: bytes, out: bytes)
    requires Relayed(s) && Told(s) && s.fromS.LoggingIn? && frame <= s.from.input
    requires t.fromS.Proxying? && t.from == Drop(s.from, |frame|) && t.to.used == s.to.used
    requires t.past == s.past.(loginFrame := frame, login := t.past.login, loginOut := out,
                               plain := t.past.plain, relayed := s.past.relayed + out)
    ensures Told(t)
  {
    hide Frames, Replies, Clean;
    NothingServed();
    var p := s.past;
    assert s.from.input[..|frame|] == frame;
    var before := p.hsFrame + Frames(p.earlier);
    assert before + ([] + []) + [] + frame == before + (frame + []) + [];
  }

  lemma RelayLoginFlow(s: State, p: Packet, length: nat, out: bytes)
    requires Flow(s) && s.fromS.LoggingIn? && length <= |s.from.input|
    requires s.past.hellos == 1 ==> s.hs.state != 1
    ensures Flow(RelayLogin(s, p, length, out).value)
  {
    hide Flow;
    var frame := s.from.input[..length];
    var s1 := s.(from := Drop(s.from, length), fromS := Proxying,
                 past := s.past.(loginFrame := frame, login := p, loginOut := out,
                                 plain := s.past.plain && frame == out, relayed := s.past.relayed + out));
    RelayLoginQueued(s, s1, frame, out);
    SendToKeeps(s1.(to := Queue(s.to, out)));
  }

  lemma RelayLoginQueued(s: State, t: State, frame: bytes, out: bytes)
    requires Flow(s) && s.fromS.LoggingIn? && frame <= s.from.input
    requires s.past.hellos == 1 ==> s.hs.state != 1
    requires t == s.(from := Drop(s.from, |frame|), fromS := Proxying,
                     past := s.past.(loginFrame := frame, login := t.past.login, loginOut := out,
                                     plain := s.past.plain && frame == out, relayed := s.past.relayed + out))
    ensures Flow(t.(to := Queue(s.to, out))) && Joined(t.toS)
  {
    hide Kept, Frames, Replies, Asks, Relayed, Told, Idle;
    DropKeeps(s.from, |frame|);
    Assoc(s.to.sent, s.to.output, out);
    Assoc(s.past.hello, s.past.relayed, out);
    var u := t.(to := Queue(s.to, out));
    if s.past.hellos == 1 {
      RelayLoginRelayed(s, u, frame, out);
      RelayLoginTold(s, u, frame, out);
    }
    assert u.past.plain ==> u.past.loginFrame == u.past.loginOut;
    assert |u.from.used| == |s.from.used| + |frame|;
  }

  lemma FromProxyRelayed(s: State, t: State)
    requires Relayed(s) && Told(s) && (s.fromS.Proxying? || s.fromS.Stable?)
    requires t == s.(from := Drain(s.from), to := t.to,
                     past := s.past.(raw := s.past.raw + s.from.input, relayed := s.past.relayed + s.from.input))
    requires t.to.used == s.to.used
    ensures Relayed(t) && Told(t)
  {
    hide Frames, Replies;
    NothingServed();
    var p, data := s.past, s.from.input;
    Assoc(p.loginOut, p.raw, data);
    Assoc(p.loginFrame, p.raw, data);
    assert p.loginFrame + (p.raw + data) + [] == p.loginFrame + (p.raw + data);
    var before := p.hsFrame + Frames(p.earlier);
    assert before + (p.loginFrame + p.raw) + Frames([]) + data
        == before + (p.loginFrame + (p.raw + data)) + Frames([]);
  }

  lemma FromProxyFlow(s: State)
    requires Flow(s) && Joined(s.toS) && (s.fromS.Proxying? || s.fromS.Stable?)
    ensures Flow(FromProxy(s).value)
  {
    var data := s.from.input;
    hide Kept, Frames, Replies, Asks, Relayed, Told;
    assert Drain(s.from).Fed() == s.from.Fed();
    var s1 := s.(from := Drain(s.from), to := Queue(s.to, data),
                 past := s.past.(raw := s.past.raw + data, relayed := s.past.relayed + data));
    Assoc(s.to.sent, s.to.output, data);
    Assoc(s.past.hello, s.past.relayed, data);
    if s.past.hellos == 1 {
      FromProxyRelayed(s, s1);
    }
    SendToKeeps(s1);
  }

  lemma ToProxyTold(s: State, t: State)
    requires Relayed(s) && Told(s) && Proxied(s.fromS)
    requires t == s.(to := Drain(s.to), from := Queue(s.from, s.to.input))
    ensures Relayed(t) && Told(t)
  {
    hide Frames, Replies;
    NothingServed();
    var data := s.to.input;
    Assoc(s.from.sent, s.from.output, data);
    assert Replies(s.past.earlier) + s.to.used + [] + data == Replies(s.past.earlier) + (s.to.used + data) + [];
  }

  lemma ToProxyFlow(s: State)
    requires Flow(s) && Joined(s.toS) && (s.past.hellos == 1 ==> Proxied(s.fromS))
    ensures Flow(ToProxy(s).value)
  {
    var data := s.to.input;
    hide Kept, Frames, Replies, Asks, Relayed, Told;
    assert Drain(s.to).Fed() == s.to.Fed();
    var s1 := s.(to := Drain(s.to), from := Queue(s.from, data));
    Assoc(s.from.sent, s.from.output, data);
    if s.past.hellos == 1 {
      ToProxyTold(s, s1);
    }
    SendFromKeeps(s1);
  }

  lemma GreetFlow(s: State, hello: bytes)
    requires Flow(s) && (s.toS.Connecting? || s.toS.Proxying?)
    ensures Flow(Greet(s, hello))
  {
    hide Kept, Frames, Replies, Asks, Relayed, Told;
    Assoc(s.to.sent, s.to.output, hello);
    if s.past.hellos == 0 {
      assert s.to.Written() == [];
      assert [] + hello == hello == hello + [];
    }
    ServedConcat(s.past.earlier, s.past.served);
    NothingServed();
    Assoc(s.past.hsFrame, Frames(s.past.earlier), Frames(s.past.served));
    assert Greet(s, hello).past.Replied() == s.past.Replied() + [] == s.past.Replied();
    var f, r := Frames(s.past.Replied()), Replies(s.past.Replied());
    assert f + [] == f && r + [] == r;
    assert s.past.hsFrame + f + [] == s.past.hsFrame + f;
  }

  lemma NothingServed()
    ensures Frames([]) == [] && Replies([]) == [] && Asks([]) == []
  {
  }

  /** Where the first handshake finds the client. */
  predicate AtGreeting(s: State) {
    var p := s.past;
    && p.waiting == s.from.input && p.got == s.from.received && p.own == s.from.added
    && p.served == []
  }

  lemma {:induction false} KeptAll(b: bytes, marks: seq<bool>)
    requires |marks| == |b| && Kept(b, marks, false) == []
    ensures Kept(b, marks, true) == b
    decreases |b|
  {
    if b != [] {
      var last := |b| - 1;
      assert b == b[..last] + [b[last]];
      KeptAll(b[..last], marks[..last]);
    }
  }

  lemma JoinRelayed(s: State)
    requires Flow(s) && s.toS.Connecting? && s.past.hellos == 1 && AtGreeting(s)
    ensures Relayed(Join(s)) && Told(Join(s))
  {
    hide Kept, Frames, Replies, Asks, Greeted;
    var p := s.past;
    NothingServed();
    assert p.waiting + s.from.received[|p.got|..] == p.waiting;
    assert [] + [] + s.from.input == s.from.input;
    KeptCounts(s.from.Fed(), s.from.origin);
    if p.earlier == [] {
      assert p.Replied() == [];
      assert s.from.used == p.hsFrame + [] + [] == p.hsFrame;
      assert s.from.Fed() == p.hsFrame + p.waiting;
      if p.own == [] {
        KeptAll(s.from.Fed(), s.from.origin);
        assert (p.hsFrame + p.waiting)[|p.hsFrame|..] == p.waiting;
      }
    }
    assert p.hsFrame + Frames(p.earlier) + ([] + []) + [] == p.hsFrame + Frames(p.earlier) + [];
    assert Replies(p.earlier) + [] + [] == Replies(p.earlier) + [];
  }

  lemma JoinFlow(s: State)
    requires Flow(s) && (s.toS.Connecting? || (s.toS.Proxying? && s.past.hellos >= 2))
    requires s.past.hellos >= 1 && AtGreeting(s)
    ensures Flow(Join(s))
  {
    hide Kept, Frames, Replies, Asks, Relayed, Told;
    NothingServed();
    if s.past.hellos == 1 {
      JoinRelayed(s);
    }
    if s.toS.Connecting? && !s.past.fellBack {
      assert s.past.earlier == [];
      assert s.past.hsFrame + [] + [] == s.past.hsFrame;
    }
  }

  /** Queueing a handshake while still connecting, or again once joined. */
  lemma QueueHelloFlow(s: State, hello: bytes)
    requires Flow(s) && (s.toS.Connecting? || s.toS.Proxying?)
    ensures var r := QueueHello(s, hello); Flow(if r.Ok? then Join(r.value) else r.value)
  {
    hide Kept, Frames, Replies, Asks, Relayed, Told;
    var q := Greet(s, hello);
    GreetFlow(s, hello);
    if QueueHello(s, hello).Throw? {
      SentKeeps(q.to);
    } else {
      JoinFlow(q);
      SendToKeeps(Join(q));
    }
  }

  // ---------- handlers of the client's side ----------

  ghost predicate Inv(s: State) {
    Flow(s) && Meaning(s)
  }

  lemma InvSides(s: State)
    requires Inv(s)
    ensures Paired(s.fromS, s.toS)
    ensures s.listening ==> !s.toS.Unset?
    ensures s.toS.Unset? ==> s.past.hellos == 0
    ensures Joined(s.toS) ==> s.past.hellos >= 1
    ensures Fake(s.fromS) ==> s.past.fellBack && (s.hs.state == 1 || s.hs.state == 2)
  {
    hide Carries, Answered, Kept;
  }

  /** A client whose handshake is still to be read has had nothing read. */
  predicate Fresh(s: State) {
    s.fromS.Handshaking? ==> s.past.hsFrame == []
  }

  /** What process_from_request leaves alone. */
  predicate SameBackend(s: State, r: State) {
    && r.past.hellos == s.past.hellos && (s.disconnected ==> r.disconnected) && r.erased == s.erased
    && (!s.fromS.Handshaking? ==>
          && r.toS == s.toS && r.listening == s.listening && r.hs == s.hs
          && Fake(r.fromS) == Fake(s.fromS) && !r.fromS.Handshaking?)
    && (s.fromS.Handshaking? ==> !Joined(r.toS))
  }

  lemma ServeKeeps(s: State, request: Packet, length: nat, text: bytes)
    requires Inv(s) && Fake(s.fromS) && length <= |s.from.input|
    requires request.Request? || request.Ping? || request.Login?
    requires Carries(s.from.input[..length], NO_LIMIT, request)
    ensures Inv(Serve(s, request, length, text).value)
    ensures SameBackend(s, Serve(s, request, length, text).value)
  {
    hide Flow, Carries, ReplyTo;
    ServeFlow(s, request, length, text);
    var x := Exchange(request, s.from.input[..length], text, ReplyTo(request, text));
    assert Answered(x);
  }

  /** Fields no invariant speaks about, and a backend socket that is given up. */
  lemma OthersKeep(s: State, t: State)
    requires Inv(s) && (t.listening ==> s.listening)
    requires t == s.(nickname := t.nickname, route := t.route, disconnected := t.disconnected,
                     erased := t.erased, listening := t.listening)
    ensures Inv(t)
  {
  }

  lemma FakeStatusKeeps(s: State, env: Env)
    requires Inv(s) && s.fromS.StatusFake?
    ensures Inv(FakeStatus(s, env).value) && SameBackend(s, FakeStatus(s, env).value)
  {
    hide Flow, Meant, Carries, Serve, Decode;
    match HeadOf(s.from.input, env.maxSize)
    case Partial =>
    case Broken =>
    case Frame(id, _) =>
      if id == 0 || id == 1 {
        var k := if id == 0 then ARequest else APing;
        var t := Take(s.from.input, k, env.maxSize);
        if t.Took? {
          TookFrame(s.from.input, k, env.maxSize);
          ServeKeeps(s, t.packet, t.length, env.status);
        }
      }
  }

  lemma FakeLoginKeeps(s: State, env: Env)
    requires Inv(s) && s.fromS.LoginFake?
    ensures Inv(FakeLogin(s, env).value) && SameBackend(s, FakeLogin(s, env).value)
  {
    hide Flow, Meant, Carries, Decode;
    var t := Take(s.from.input, ALogin, env.maxSize);
    if t.Took? {
      TookFrame(s.from.input, ALogin, env.maxSize);
      ServeKeeps(s, t.packet, t.length, env.login);
      var s1 := Serve(s, t.packet, t.length, env.login).value;
      OthersKeep(s1, s1.(disconnected := true));
    }
  }

  lemma FromLoginKeeps(s: State, env: Env)
    requires Inv(s) && s.fromS.LoggingIn?
    ensures Inv(FromLogin(s, env).value) && SameBackend(s, FromLogin(s, env).value)
  {
    hide Flow, Carries, Encode, Decode;
    var t := Take(s.from.input, ALogin, env.maxSize);
    if t.Took? {
      TookFrame(s.from.input, ALogin, env.maxSize);
      RelayLoginFlow(s, t.packet, t.length, Encode(t.packet));
      var s1 := RelayLogin(s, t.packet, t.length, Encode(t.packet)).value;
      OthersKeep(s1, s1.(nickname := t.packet.name));
    }
  }

  lemma FromProxyKeeps(s: State)
    requires Inv(s) && (s.fromS.Proxying? || s.fromS.Stable?)
    ensures Inv(FromProxy(s).value) && SameBackend(s, FromProxy(s).value)
  {
    hide Flow, Carries, Answered, Encode, Sent;
    InvSides(s);
    FromProxyFlow(s);
    assert FromProxy(s).value.past.Replied() == s.past.Replied();
  }

  lemma AdmitKeeps(s: State, p: Hello, length: nat, conf: Conf)
    requires Inv(s) && s.fromS.Handshaking? && Fresh(s) && 0 < length <= |s.from.input|
    requires Carries(s.from.input[..length], NO_LIMIT, p)
    ensures Inv(Admit(s, p, length, conf))
  {
    DropKeeps(s.from, length);
    assert [] + s.from.input[..length] == s.from.input[..length] + Frames([]);
  }

  /** From a handshake without a backend to the hub's own replies. */
  lemma FakeFromStart(s: State)
    requires Inv(s) && s.fromS.Handshaking? && s.past.hsFrame != []
    ensures Inv(SetFromByHs(s).value)
  {
    hide Kept, Frames, Replies, Asks, Relayed, Told, Carries, Answered, Encode;
  }

  lemma StartWaiting(s: State)
    requires Inv(s) && s.fromS.Handshaking? && s.past.hsFrame != []
    ensures Inv(s.(toS := Connecting, fromS := Waiting, listening := true))
  {
    hide Kept, Frames, Replies, Asks, Relayed, Told, Carries, Answered, Encode;
  }

  lemma StartKeeps(s: State, r: BasicRecord, conf: Conf, env: Env)
    requires Inv(s) && s.fromS.Handshaking? && s.past.hsFrame != []
    ensures var t := Start(s, r, conf, env);
            Inv(t.value) && (t.Ok? ==> Fresh(t.value)) && SameBackend(s, t.value)
    decreases true, 0
  {
    hide Flow, Meant, ProcessFrom;
    InvSides(s);
    var s1 := s.(route := s.route.(record := r));
    OthersKeep(s, s1);
    StartWaiting(s1);
    FakeFromStart(s1);
    if !r.drop && Dial(s1, env).DnsError? {
      var s2 := SetFromByHs(s1);
      if s2.Ok? {
        ProcessFromKeeps(s2.value, conf, env);
      }
    }
  }

  lemma FromHandshakeKeeps(s: State, conf: Conf, env: Env)
    requires Inv(s) && s.fromS.Handshaking? && Fresh(s)
    ensures var r := FromHandshake(s, conf, env);
            Inv(r.value) && (r.Ok? ==> Fresh(r.value)) && SameBackend(s, r.value)
    decreases true, 1
  {
    hide Flow, Meant, Carries, Decode, Start, Record, RouteName;
    InvSides(s);
    var t := Take(s.from.input, AHandshake, env.maxSize);
    if t.Took? {
      TookFrame(s.from.input, AHandshake, env.maxSize);
      AdmitKeeps(s, t.packet, t.length, conf);
      StartKeeps(Admit(s, t.packet, t.length, conf), Record(conf, t.packet.address), conf, env);
    }
  }

  lemma ProcessFromKeeps(s: State, conf: Conf, env: Env)
    requires Inv(s) && Fresh(s)
    ensures var r := ProcessFrom(s, conf, env);
            Inv(r.value) && (r.Ok? ==> Fresh(r.value)) && SameBackend(s, r.value)
    decreases s.fromS.Handshaking?, 2
  {
    hide Flow, Meant, FromHandshake, FromLogin, FakeStatus, FakeLogin, FromProxy;
    match s.fromS
    case Handshaking => FromHandshakeKeeps(s, conf, env);
    case LoggingIn => FromLoginKeeps(s, env);
    case StatusFake => FakeStatusKeeps(s, env);
    case LoginFake => FakeLoginKeeps(s, env);
    case Proxying => FromProxyKeeps(s);
    case Stable => FromProxyKeeps(s);
    case _ => InvSides(s);
  }

  // ---------- handlers of the backend's side ----------

  /** A backend that can still be heard is not left to a client the hub has taken over, unless
      a second handshake is on its way to it. */
  predicate Settled(s: State) {
    s.listening && Fake(s.fromS) && s.toS.Proxying? ==> s.past.hellos >= 2
  }

  lemma GreetMeaning(s: State)
    requires Meaning(s)
    ensures Meaning(Greet(s, Encode(s.hs))) && Meaning(Join(Greet(s, Encode(s.hs))))
  {
    hide Carries, Encode, Answered;
    var n := |Encode(s.hs)|;
    assert (s.past.hellos + 1) * n == s.past.hellos * n + n;
  }

  lemma ProcessToKeeps(s: State)
    requires Inv(s) && !s.toS.Unset? && (s.past.hellos == 1 && Joined(s.toS) ==> Proxied(s.fromS))
    ensures var r := ProcessTo(s);
            Inv(r.value) && SameBackend(s, r.value) && r.value.fromS == s.fromS
  {
    hide Meant, Flow, Sent;
    InvSides(s);
    if Joined(s.toS) {
      ToProxyFlow(s);
    }
  }

  lemma SendHelloKeeps(s: State, conf: Conf, env: Env)
    requires Inv(s) && (s.toS.Connecting? || s.toS.Proxying?)
    ensures var r := SendHello(s, conf, env).value;
            && Inv(r) && Settled(r) && !r.fromS.Handshaking? && !r.toS.Unset?
            && r.past.hellos == s.past.hellos + 1
  {
    hide Encode, Flow, Meant, ProcessFrom, ProcessTo;
    var hello := Encode(s.hs);
    QueueHelloFlow(s, hello);
    GreetMeaning(s);
    InvSides(s);
    var q := QueueHello(s, hello);
    if q.Ok? {
      var j := Join(q.value);
      assert Inv(j);
      InvSides(j);
      ProcessToKeeps(j);
      var t := ProcessTo(j);
      if t.Ok? {
        ProcessFromKeeps(t.value, conf, env);
      }
    }
  }

  lemma InjectKeeps(s: State)
    requires Inv(s) && Fake(s.fromS)
    ensures Inv(InjectIfShort(s)) && SameBackend(s, InjectIfShort(s)) && InjectIfShort(s).fromS == s.fromS
  {
    hide Encode, Meant, Flow;
    InvSides(s);
    InjectFlow(s, Asked(s));
    InjectMeaning(s, Asked(s));
  }

  lemma InjectMeaning(s: State, q: Packet)
    requires Meaning(s)
    ensures Meant(s.fromS, s.hs, s.past.(injected := s.past.injected + [q]))
  {
    hide Carries, Encode, Answered;
    assert s.past.(injected := s.past.injected + [q]).Replied() == s.past.Replied();
  }

  lemma SetFromMeaning(s: State)
    requires Meaning(s)
    ensures Meaning(SetFromByHs(s).value)
  {
    hide Carries, Encode, Answered;
  }

  lemma SetFromKeeps(s: State)
    requires Inv(s) && (s.toS.Connecting? || s.toS.Proxying?)
    ensures var r := SetFromByHs(s);
            && Inv(r.value) && r.value.past.hellos == s.past.hellos
            && r.value.toS == s.toS && r.value.listening == s.listening
            && (r.Ok? ==> Fake(r.value.fromS) && r.value.past.fellBack)
            && (r.Throw? ==> r.value == s && !Fake(s.fromS))
  {
    hide Flow, Meant;
    InvSides(s);
    SetFromFlow(s);
    SetFromMeaning(s);
  }

  lemma ToErrorKeeps(s: State, conf: Conf, env: Env)
    requires Inv(s) && !s.toS.Unset?
    ensures var r := ToError(s, conf, env);
            && Inv(r.value) && r.value.past.hellos == s.past.hellos && r.value.toS == s.toS
            && (r.Ok? ==> Settled(r.value))
  {
    hide Flow, Meant, ProcessFrom, InjectIfShort, SetFromByHs;
    if s.toS.Connecting? || s.toS.Proxying? {
      SetFromKeeps(s);
      var s1 := SetFromByHs(s);
      if s1.Ok? {
        InjectKeeps(s1.value);
        var s2 := InjectIfShort(s1.value);
        ProcessFromKeeps(s2, conf, env);
        var r := ProcessFrom(s2, conf, env).value;
        OthersKeep(r, r.(listening := false));
      }
    }
  }

  lemma ToReadableKeeps(s: State)
    requires Inv(s) && s.listening && Settled(s)
    ensures var r := ToReadable(s).value;
            && Inv(r) && r.past.hellos == s.past.hellos && r.toS == s.toS && r.fromS == s.fromS
            && r.listening == s.listening
    ensures ToReadable(s).Throw? && s.toS.Connecting? ==> s.to.sock.arrival.Dead?
    ensures ToReadable(s).Ok? ==> s.to.sock.arrival.Arrived?
  {
    hide Flow, Meant, ProcessTo;
    InvSides(s);
    ReceiveToKeeps(s);
    var s1 := OnTo(s, Received(s.to));
    ProcessToKeeps(s1.value);
    if s.toS.Connecting? {
      assert ProcessTo(s1.value).Ok? by { ConnectingWaits(s1.value); }
    }
  }

  lemma ConnectingWaits(s: State)
    requires s.toS.Connecting?
    ensures ProcessTo(s) == Ok(s)
  {
  }

  lemma StableFlow(s: State)
    requires Inv(s) && Joined(s.toS) && Settled(s) && s.listening
    ensures Inv(s.(toS := Stable, fromS := Stable))
  {
    hide Carries, Encode, Answered, Kept;
  }

  /** The handshake of a connection that has come up. */
  predicate Connects(s: State, env: Env) {
    s.toS.Connecting? && !env.connectError
  }

  lemma ToWritableKeeps(s: State, conf: Conf, env: Env)
    requires Inv(s) && s.listening && Settled(s)
    ensures var r := ToWritable(s, conf, env);
            && Inv(r.value) && (r.Ok? ==> Settled(r.value)) && !r.value.toS.Unset?
            && r.value.past.hellos == s.past.hellos + if Connects(s, env) then 1 else 0
  {
    hide Flow, Meant, ProcessFrom, SendHello, SetFromByHs;
    InvSides(s);
    if s.toS.Connecting? {
      if env.connectError {
        SetFromKeeps(s);
        var r := SetFromByHs(s).value;
        OthersKeep(r, r.(listening := false));
      } else {
        SendHelloKeeps(s, conf, env);
      }
    } else {
      SendToKeeps(s);
      var s1 := OnTo(s, Sent(s.to));
      if s1.Ok? {
        StableFlow(s1.value);
        ProcessFromKeeps(s1.value.(toS := Stable, fromS := Stable), conf, env);
      }
    }
  }

  /** The connect branch of on_to_event is reached and the socket reports no error
      (src/client.cpp:392-399). */
  predicate ConnectBranch(s: State, mask: Mask, env: Env) {
    && Connects(s, env) && mask.writable && !mask.hup && !mask.err
    && (mask.readable ==> s.to.sock.arrival.Arrived?)
  }

  /** The catch block is reached while connecting or proxying, and the socket claims to be
      connected (src/client.cpp:418-428). */
  predicate RecoverBranch(s: State, conf: Conf, mask: Mask, env: Env) {
    var r := TryTo(s, conf, mask, env);
    r.Throw? && (r.value.toS.Connecting? || r.value.toS.Proxying?) && !env.recoverError
  }

  lemma ToActionsKeeps(s: State, conf: Conf, mask: Mask, env: Env)
    requires Inv(s) && s.listening && Settled(s)
    ensures var r := ToActions(s, conf, mask, env);
            && Inv(r.value) && (r.Ok? ==> Settled(r.value)) && !r.value.toS.Unset?
            && r.value.past.hellos == s.past.hellos
                 + if Connects(s, env) && mask.writable && !mask.err && (mask.readable ==> s.to.sock.arrival.Arrived?)
                   then 1 else 0
  {
    hide Inv, Flow, Meant, ToError, ToReadable, ToWritable;
    InvSides(s);
    if mask.err {
      ToErrorKeeps(s, conf, env);
    } else {
      if mask.readable {
        ToReadableKeeps(s);
      }
      var s1 := if mask.readable then ToReadable(s) else Ok(s);
      if s1.Ok? && mask.writable {
        ToWritableKeeps(s1.value, conf, env);
      }
    }
  }

  lemma TryToKeeps(s: State, conf: Conf, mask: Mask, env: Env)
    requires Inv(s) && s.listening && Settled(s)
    ensures var r := TryTo(s, conf, mask, env);
            && Inv(r.value) && (r.Ok? ==> Settled(r.value)) && !r.value.toS.Unset?
            && r.value.past.hellos == s.past.hellos + if ConnectBranch(s, mask, env) then 1 else 0
  {
    hide Inv, Flow, Meant, SetFromByHs, ToActions;
    InvSides(s);
    var s1 := if mask.rdhup then s.(disconnected := true) else s;
    OthersKeep(s, s1);
    if mask.hup && s.toS.Connecting? {
      SetFromKeeps(s1);
      var r := SetFromByHs(s1).value;
      OthersKeep(r, r.(listening := false));
    } else {
      var s2 := if mask.hup then s1.(disconnected := true) else s1;
      OthersKeep(s1, s2);
      ToActionsKeeps(s2, conf, mask, env);
    }
  }

  lemma RecoverKeeps(s: State, conf: Conf, env: Env)
    requires Inv(s) && !s.toS.Unset?
    ensures var r := Recover(s, conf, env).value;
            && Inv(r) && Settled(r) && !r.toS.Unset?
            && r.past.hellos == s.past.hellos
                 + if (s.toS.Connecting? || s.toS.Proxying?) && !env.recoverError then 1 else 0
  {
    hide Flow, Meant, SetFromByHs, SendHello, InjectIfShort;
    if s.toS.Connecting? || s.toS.Proxying? {
      if !env.recoverError {
        SendHelloKeeps(s, conf, env);
      } else {
        SetFromKeeps(s);
        var s1 := SetFromByHs(s);
        if s1.Ok? {
          InjectKeeps(s1.value);
          var r := InjectIfShort(s1.value);
          OthersKeep(r, r.(listening := false));
        }
      }
    } else {
      OthersKeep(s, s.(disconnected := true));
    }
  }

  // ---------- events and runs ----------

  /** A client between events. */
  ghost predicate Resting(s: State) {
    Inv(s) && Settled(s) && (s.erased || Fresh(s))
  }

  /** How many handshakes the event queues for the backend. */
  function Greetings(s: State, conf: Conf, e: Event): nat {
    if e.ToEvent? && s.listening && !s.erased then
      var p := Plug(s, e.env);
      (if ConnectBranch(p, e.mask, e.env) then 1 else 0)
      + (if RecoverBranch(p, conf, e.mask, e.env) then 1 else 0)
    else 0
  }

  function TotalGreetings(conf: Conf, events: seq<Event>): nat {
    if events == [] then 0
    else var before := events[..|events| - 1];
         TotalGreetings(conf, before)
         + Greetings(Run(Init(conf), conf, before), conf, events[|events| - 1])
  }

  lemma FromReadableKeeps(s: State, conf: Conf, env: Env)
    requires Inv(s) && Fresh(s)
    ensures var r := FromReadable(s, conf, env);
            Inv(r.value) && (r.Ok? ==> Fresh(r.value)) && SameBackend(s, r.value)
  {
    hide Flow, Meant, ProcessFrom;
    ReceiveFromKeeps(s);
    var s1 := OnFrom(s, Received(s.from));
    if s1.Ok? {
      ProcessFromKeeps(s1.value, conf, env);
    } else {
      InvSides(s);
    }
  }

  lemma StillSame(s: State, t: State)
    requires Inv(s) && (t == s || t == s.(disconnected := true))
    ensures SameBackend(s, t)
  {
    hide Flow, Meant;
    InvSides(s);
  }

  lemma SendLast(s: State)
    requires Inv(s)
    ensures var r := OnFrom(s, Sent(s.from));
            Inv(r.value) && SameBackend(s, r.value) && (Fresh(s) ==> Fresh(r.value))
  {
    hide Flow, Meant, Sent;
    InvSides(s);
    SendFromKeeps(s);
  }

  lemma SameTrans(a: State, b: State, c: State)
    requires SameBackend(a, b) && SameBackend(b, c)
    ensures SameBackend(a, c)
  {
  }

  lemma TryFromKeeps(s: State, conf: Conf, mask: Mask, env: Env)
    requires Inv(s) && Fresh(s)
    ensures var r := TryFrom(s, conf, mask, env);
            Inv(r.value) && (r.Ok? ==> Fresh(r.value)) && SameBackend(s, r.value)
  {
    hide Inv, FromReadable, Sent, SameBackend;
    var s1 := if mask.rdhup then s.(disconnected := true) else s;
    OthersKeep(s, s1);
    StillSame(s, s1);
    StillSame(s1, s1);
    if !mask.err {
      if mask.readable {
        FromReadableKeeps(s1, conf, env);
      }
      var s2 := if mask.readable then FromReadable(s1, conf, env) else Ok(s1);
      SameTrans(s, s1, s2.value);
      if s2.Ok? {
        SendLast(s2.value);
        SameTrans(s, s2.value, OnFrom(s2.value, Sent(s2.value.from)).value);
      }
    }
  }

  lemma FromEventKeeps(s: State, conf: Conf, mask: Mask, env: Env)
    requires Resting(s) && !s.erased
    ensures var r := FromEventStep(s, conf, mask, env); Resting(r) && r.past.hellos == s.past.hellos
  {
    hide Flow, Meant, TryFrom;
    InvSides(s);
    TryFromKeeps(s, conf, mask, env);
    OthersKeep(TryFrom(s, conf, mask, env).value, FromEventStep(s, conf, mask, env));
  }

  lemma TimeoutKeeps(s: State, conf: Conf, env: Env)
    requires Resting(s) && !s.erased
    ensures var r := TimeoutStep(s, conf, env).value; Resting(r) && r.past.hellos == s.past.hellos
  {
    hide Flow, Meant, ProcessFrom, SetFromByHs;
    InvSides(s);
    if s.toS.Connecting? {
      SetFromKeeps(s);
      var s1 := SetFromByHs(s);
      if s1.Ok? {
        var s2 := s1.value.(listening := false);
        OthersKeep(s1.value, s2);
        ProcessFromKeeps(s2, conf, env);
      }
    }
  }

  lemma HandleKeeps(s: State, conf: Conf, e: Event)
    requires Resting(s)
    ensures var r := Handle(s, conf, e);
            Resting(r) && r.past.hellos == s.past.hellos + Greetings(s, conf, e)
  {
    hide Flow, Meant, FromEventStep, TimeoutStep, TryTo, Recover;
    var p := Plug(s, e.env);
    PlugKeeps(s, e.env);
    if !s.erased {
      match e
      case FromEvent(mask, env) => FromEventKeeps(p, conf, mask, env);
      case Timeout(env) => TimeoutKeeps(p, conf, env);
      case ToEvent(mask, env) =>
        if s.listening {
          InvSides(p);
          TryToKeeps(p, conf, mask, env);
          var r := TryTo(p, conf, mask, env);
          if r.Throw? {
            RecoverKeeps(r.value, conf, env);
          }
          InvSides(ToEventStep(p, conf, mask, env).value);
        }
    }
  }

  lemma InitResting(conf: Conf)
    ensures Resting(Init(conf))
  {
  }

  /** Every run, whatever the environment does: the invariant holds, and the backend has been
      greeted once for each time a greeting branch was taken. */
  lemma {:induction false} RunRests(conf: Conf, events: seq<Event>)
    ensures var s := Run(Init(conf), conf, events);
            Resting(s) && s.past.hellos == TotalGreetings(conf, events)
  {
    if events == [] {
      InitResting(conf);
    } else {
      hide Resting, Handle, Greetings;
      var before := events[..|events| - 1];
      RunRests(conf, before);
      HandleKeeps(Run(Init(conf), conf, before), conf, events[|events| - 1]);
    }
  }
}
