/** Taking a client over when its backend fails: the packet that kostilA or kostilB puts into the
    input (src/client.cpp:54-71), which failures answer the client, and the end of a client. */
module PortalFallback {
  import opened VarInts
  import opened Pakets
  import opened Gates
  import opened Records
  import opened PortalSpec
  import opened PortalInv
  import opened PortalHistory
  import opened PortalChunks

  /** The hub answers on its own from here on, with the injected frame behind what waits. */
  function Injected(s: State): State {
    s.(fromS := if s.hs.state == 1 then StatusFake else LoginFake,
       past := s.past.(fellBack := true, injected := s.past.injected + [Asked(s)]),
       from := Feed(s.from, Encode(Asked(s)), false))
  }

  lemma ErrorServes(s: State, conf: Conf, env: Env)
    requires s.hs.state == 1 || s.hs.state == 2
    requires (s.toS.Connecting? || s.toS.Proxying?) && |s.from.input| < 2
    ensures ToError(s, conf, env).value.from
         == (if s.hs.state == 1 then FakeStatus(Injected(s), env) else FakeLogin(Injected(s), env)).value.from
  {
    hide Encode, FakeStatus, FakeLogin;
    assert ProcessFrom(Injected(s), conf, env)
        == if s.hs.state == 1 then FakeStatus(Injected(s), env) else FakeLogin(Injected(s), env);
  }

  lemma ServeSays(s: State, request: Packet, length: nat, text: bytes)
    requires length <= |s.from.input|
    ensures Serve(s, request, length, text).value.from.Written() == s.from.Written() + ReplyTo(request, text)
    ensures Serve(s, request, length, text).value.from.input == s.from.input[length..]
  {
    hide Sent, ReplyTo;
    var reply := ReplyTo(request, text);
    SentKeeps(Queue(Drop(s.from, length), reply));
    Assoc(s.from.sent, s.from.output, reply);
  }

  /** In the error branch, with nothing waiting, the client gets the reply to the packet it has not
      sent yet. */
  lemma InjectionAnswered(s: State, conf: Conf, env: Env)
    requires s.hs.state == 1 || s.hs.state == 2
    requires (s.toS.Connecting? || s.toS.Proxying?) && s.from.input == []
    requires |Encode(Asked(s))| < TWO_31 && (env.maxSize == NO_LIMIT || |Body(Asked(s))| <= env.maxSize)
    ensures var r := ToError(s, conf, env).value;
            && r.from.Written() == s.from.Written() + ReplyTo(Asked(s), TextFor(Asked(s), TextsOf(env)))
            && r.from.input == []
  {
    hide Encode, ReplyTo, Serve, Carries, HeadOf, Decode;
    var q := Asked(s);
    var f := Encode(q);
    ErrorServes(s, conf, env);
    HeadOfEncoded(q, env.maxSize);
    EncodedCarries(q, env.maxSize);
    TakesFrame(f, [], env.maxSize, q);
    assert [] + f == f + [] == f;
    ServeSays(Injected(s), q, |f|, TextFor(Asked(s), TextsOf(env)));
  }

  /** A byte in front of the injected request makes another frame of it, or none. */
  lemma RequestSpoilt(x: byte, maxSize: int)
    ensures var b := [x] + Encode(Request);
            HeadOf(b, maxSize).Frame? ==>
              HeadOf(b, maxSize).id == 1 && !Take(b, APing, maxSize).Took?
  {
    var b := [x] + Encode(Request);
    assert Encode(Request) == [Byte(1), Byte(0)];
    assert b == [x, Byte(1), Byte(0)];
    assert b[1..] == [Byte(1), Byte(0)] && b[2..] == [Byte(0)];
    if x as int >= 128 {
      assert ScanGroups(b[1..], 4) == Got(1, 1);
      assert ReadVarInt(b) == Number(x as int, 2);
    } else {
      assert ReadVarInt(b) == Number(x as int, 1);
      assert ReadVarInt(b[1..]) == Number(1, 1);
      if HeadOf(b, maxSize).Frame? {
        ShortPing(b[..1 + x as int]);
      }
    }
  }

  lemma ShortPing(f: bytes)
    requires |f| <= 3
    ensures Decode(APing, f).Rejected?
  {
  }

  /** A byte in front of the injected login does the same, for a name under 8 megabytes. */
  lemma LoginSpoilt(x: byte, name: bytes, maxSize: int)
    requires |name| < 0x80_0000
    ensures !Take([x] + Encode(Login(name)), ALogin, maxSize).Took?
  {
    hide Decode;
    var p := Login(name);
    var body, e := Body(p), Encode(p);
    var b := [x] + e;
    SlackSuffices(p);
    VarIntSize(|name|);
    VarIntRoundTrip(|body|, body);
    if x as int < 128 {
      ReadSmall(x, e);
      if HeadOf(b, maxSize).Frame? {
        ForeignId(x, e, |body|, HeadOf(b, maxSize).total);
      }
    } else {
      LongSize(x, |body|, body);
      assert b[0..] == b;
    }
  }

  lemma ReadSmall(x: byte, e: bytes)
    requires x as int < 128
    ensures ReadVarInt([x] + e) == Number(x as int, 1) && ([x] + e)[1..] == e
  {
  }

  lemma ForeignId(x: byte, e: bytes, id: int32, total: nat)
    requires x as int < 128 && ReadVarInt(e).Number? && ReadVarInt(e).value == id != 0
    requires 1 <= total <= |[x] + e|
    ensures Decode(ALogin, ([x] + e)[..total]).Rejected?
  {
    var f, rest := ([x] + e)[..total], e[..total - 1];
    assert f == [x] + rest && e == rest + e[total - 1..];
    ReadSmall(x, rest);
    ReadExtends(rest, e[total - 1..]);
  }

  /** The length that a continued first byte announces is more than is there. */
  lemma LongSize(x: byte, n: nat, body: bytes)
    requires x as int >= 128 && 0 < n < 0x80_0020 && |body| == n
    ensures var r := ReadVarInt([x] + (VarInt(n) + body));
            r.Number? && r.value == x as int - 128 + 128 * n > |[x] + (VarInt(n) + body)|
  {
    var b := [x] + (VarInt(n) + body);
    VarIntSize(n);
    assert b[1..] == VarInt(n) + body;
    ScanReadsGroups(n, body, 4);
    assert ScanGroups(b, 5) == Got(x as int - 128 + 128 * n, 1 + |VarInt(n)|);
  }

  /** So in the error branch, with less than two bytes waiting, the client is answered if and only
      if nothing waits. */
  lemma AnsweredExactly(s: State, conf: Conf, env: Env)
    requires s.hs.state == 1 || s.hs.state == 2
    requires (s.toS.Connecting? || s.toS.Proxying?) && |s.from.input| < 2 && |s.nickname| < 0x80_0000
    requires env.maxSize == NO_LIMIT || |Body(Asked(s))| <= env.maxSize
    ensures ToError(s, conf, env).value.from.Written() != s.from.Written() <==> s.from.input == []
  {
    hide ToError, Encode, HeadOf, Serve, ReplyTo;
    if s.from.input == [] {
      ShortAsked(s);
      InjectionAnswered(s, conf, env);
      ReplySays(Asked(s), TextFor(Asked(s), TextsOf(env)));
    } else {
      var x := s.from.input[0];
      assert s.from.input == [x];
      ErrorServes(s, conf, env);
      RequestSpoilt(x, env.maxSize);
      LoginSpoilt(x, s.nickname, env.maxSize);
    }
  }

  lemma ShortAsked(s: State)
    requires |s.nickname| < 0x80_0000
    ensures |Encode(Asked(s))| < TWO_31
  {
    SlackSuffices(Asked(s));
    VarIntSize(|s.nickname|);
  }

  lemma ReplySays(q: Packet, text: bytes)
    ensures ReplyTo(q, text) != []
  {
  }

  // ---------- which failures answer the client ----------

  /** What the hub finds at the front of the input b of a client it answers by itself. */
  function Demand(b: bytes, state: int32, maxSize: int): Taken {
    if state != 1 then Take(b, ALogin, maxSize)
    else
      match HeadOf(b, maxSize)
      case Partial => Nothing
      case Broken => Refused
      case Frame(id, _) => if id == 0 then Take(b, ARequest, maxSize)
                           else if id == 1 then Take(b, APing, maxSize)
                           else Refused
  }

  function ReplyOn(s: State, b: bytes, env: Env): seq<Exchange> {
    match Demand(b, s.hs.state, env.maxSize)
    case Took(q, n) =>
      var text := TextFor(q, TextsOf(env));
      [Exchange(q, b[..n], text, ReplyTo(q, text))]
    case _ => []
  }

  /** The event answers a client that waits for a backend: the timer does, from what waits, and an
      error that is no hang-up does, from what waits with the injected packet. */
  function AnswerOf(s: State, e: Event): seq<Exchange> {
    match e
    case FromEvent(_, _) => []
    case Timeout(env) => ReplyOn(s, s.from.input, env)
    case ToEvent(mask, env) =>
      if mask.err && !mask.hup then ReplyOn(s, InjectIfShort(s).from.input, env) else []
  }

  /** A client that waits for a backend, and an event that is not its own. */
  predicate Waits(s: State, e: Event) {
    && s.toS.Connecting? && !s.fromS.Handshaking? && !s.erased
    && (s.hs.state == 1 || s.hs.state == 2)
    && !e.FromEvent? && (e.ToEvent? ==> s.listening)
  }

  /** From s to r the hub has replied x and no more, and has not greeted the backend. */
  predicate Says(s: State, r: State, x: seq<Exchange>) {
    && r.past.Replied() == s.past.Replied() + x
    && r.from.Written() == s.from.Written() + Replies(x)
    && r.past.hellos == s.past.hellos
  }

  /** The same, unless it has greeted the backend, which may have brought the client other bytes. */
  predicate Speaks(s: State, r: State, x: seq<Exchange>) {
    && r.past.Replied() == s.past.Replied() + x
    && (Says(s, r, x) || r.past.hellos > s.past.hellos)
  }

  lemma SaysNothing(s: State, r: State)
    requires r.past.Replied() == s.past.Replied() && r.from.Written() == s.from.Written()
    requires r.past.hellos == s.past.hellos
    ensures Says(s, r, [])
  {
    NothingServed();
  }

  lemma SaysThen(a: State, b: State, c: State, x: seq<Exchange>)
    requires Says(a, b, []) && Says(b, c, x)
    ensures Says(a, c, x)
  {
    NothingServed();
    assert a.past.Replied() + [] == a.past.Replied() && a.from.Written() + [] == a.from.Written();
  }

  lemma ThenSays(a: State, b: State, c: State, x: seq<Exchange>)
    requires Says(a, b, x) && c.past.Replied() == b.past.Replied() && c.from.Written() == b.from.Written()
    requires c.past.hellos == b.past.hellos
    ensures Says(a, c, x)
  {
  }

  lemma SpeaksThen(a: State, b: State, c: State, x: seq<Exchange>)
    requires Speaks(a, b, x) && Speaks(b, c, [])
    ensures Speaks(a, c, x)
  {
    NothingServed();
    assert b.past.Replied() + [] == b.past.Replied() && b.from.Written() + [] == b.from.Written();
  }

  lemma ServeOne(s: State, q: Packet, n: nat, text: bytes)
    requires n <= |s.from.input|
    ensures Says(s, Serve(s, q, n, text).value, [Exchange(q, s.from.input[..n], text, ReplyTo(q, text))])
  {
    hide Sent, ReplyTo;
    var x := Exchange(q, s.from.input[..n], text, ReplyTo(q, text));
    ServeSays(s, q, n, text);
    ServedAppend([], x);
    NothingServed();
    assert [] + [x] == [x] && [] + x.reply == x.reply;
    var r := Serve(s, q, n, text).value;
    assert r.past.Replied() == s.past.Replied() + [x];
  }

  /** A client that the hub has taken over is answered what it demands. */
  lemma FakeAnswers(s: State, conf: Conf, env: Env)
    requires s.fromS == if s.hs.state == 1 then StatusFake else LoginFake
    ensures Says(s, ProcessFrom(s, conf, env).value, ReplyOn(s, s.from.input, env))
  {
    hide Take, HeadOf, Serve, ReplyTo, Says;
    SaysNothing(s, s);
    var d := Demand(s.from.input, s.hs.state, env.maxSize);
    if d.Took? {
      var text := TextFor(d.packet, TextsOf(env));
      ServeOne(s, d.packet, d.length, text);
      var r := Serve(s, d.packet, d.length, text).value;
      ThenSays(s, r, r.(disconnected := true), ReplyOn(s, s.from.input, env));
    }
  }

  lemma TakeoverSays(s: State)
    requires s.hs.state == 1 || s.hs.state == 2
    ensures var r := SetFromByHs(s);
            && r.Ok? && Says(s, r.value, []) && r.value.from == s.from && r.value.hs == s.hs
            && r.value.nickname == s.nickname && r.value.past.fellBack
            && r.value.fromS == (if s.hs.state == 1 then StatusFake else LoginFake)
  {
    SaysNothing(s, SetFromByHs(s).value);
  }

  lemma InjectSays(s: State)
    ensures Says(s, InjectIfShort(s), []) && InjectIfShort(s).hs == s.hs && InjectIfShort(s).fromS == s.fromS
  {
    hide Encode;
    SaysNothing(s, InjectIfShort(s));
  }

  lemma SameOffer(s: State, a: State)
    requires a.from.input == s.from.input && a.hs == s.hs && a.nickname == s.nickname
    ensures InjectIfShort(a).from.input == InjectIfShort(s).from.input
  {
    hide Encode;
  }

  lemma ErrorSays(s: State, conf: Conf, env: Env)
    requires s.toS.Connecting? && (s.hs.state == 1 || s.hs.state == 2)
    ensures Says(s, ToError(s, conf, env).value, ReplyOn(s, InjectIfShort(s).from.input, env))
  {
    hide Says, SetFromByHs, InjectIfShort, ProcessFrom, ReplyOn;
    TakeoverSays(s);
    var a := SetFromByHs(s).value;
    InjectSays(a);
    SameOffer(s, a);
    var b := InjectIfShort(a);
    var x := ReplyOn(s, b.from.input, env);
    FakeAnswers(b, conf, env);
    SameReply(b, s, b.from.input, env);
    SaysThen(s, a, b, []);
    SaysThen(s, b, ProcessFrom(b, conf, env).value, x);
    var c := ProcessFrom(b, conf, env).value;
    ThenSays(s, c, c.(listening := false), x);
  }

  lemma SameReply(s: State, t: State, b: bytes, env: Env)
    requires s.hs == t.hs
    ensures ReplyOn(s, b, env) == ReplyOn(t, b, env)
  {
    hide Demand;
  }

  lemma TimeoutSays(s: State, conf: Conf, env: Env)
    requires s.toS.Connecting? && (s.hs.state == 1 || s.hs.state == 2)
    ensures Says(s, TimeoutStep(s, conf, env).value, ReplyOn(s, s.from.input, env))
  {
    hide Says, SetFromByHs, ProcessFrom, ReplyOn;
    TakeoverSays(s);
    var a := SetFromByHs(s).value;
    var b := a.(listening := false);
    ThenSays(s, a, b, []);
    FakeAnswers(b, conf, env);
    SameReply(b, s, s.from.input, env);
    SaysThen(s, b, ProcessFrom(b, conf, env).value, ReplyOn(s, s.from.input, env));
  }

  predicate SamePast(s: State, r: State) {
    r.past.Replied() == s.past.Replied() && r.past.fellBack == s.past.fellBack && r.past.hellos == s.past.hellos
  }

  lemma LoginKeepsPast(s: State, env: Env)
    ensures SamePast(s, FromLogin(s, env).value)
  {
    hide Take, Sent, Encode, Drop;
  }

  lemma TunnelsKeepPast(s: State)
    ensures SamePast(s, FromProxy(s).value) && SamePast(s, ProcessTo(s).value)
  {
    hide Sent, Drain;
  }

  lemma RelaysKeepPast(s: State, env: Env)
    ensures SamePast(s, FromLogin(s, env).value) && SamePast(s, FromProxy(s).value) && SamePast(s, ProcessTo(s).value)
  {
    hide FromLogin, FromProxy, ProcessTo, SamePast;
    LoginKeepsPast(s, env);
    TunnelsKeepPast(s);
  }

  lemma RelayFrom(s: State, conf: Conf, env: Env)
    requires s.fromS.Proxying? || s.fromS.LoggingIn?
    ensures SamePast(s, ProcessFrom(s, conf, env).value)
  {
    hide FromProxy, FromLogin, SamePast;
    RelaysKeepPast(s, env);
  }

  /** Joining a backend greets it, replies nothing, and takes no client over. */
  lemma HelloReplied(s: State, conf: Conf, env: Env)
    ensures var r := SendHello(s, conf, env).value;
            && r.past.Replied() == s.past.Replied() && r.past.fellBack == s.past.fellBack
            && r.past.hellos == s.past.hellos + 1
  {
    hide Sent, Encode, ProcessTo, ProcessFrom;
    var q := QueueHello(s, Encode(s.hs));
    assert q.value.past.Replied() == s.past.Replied();
    if q.Ok? {
      var j := Join(q.value);
      RelaysKeepPast(j, env);
      ProcessToSides(j);
      if ProcessTo(j).Ok? {
        RelayFrom(ProcessTo(j).value, conf, env);
      }
    }
  }

  lemma HelloSpeaks(s: State, conf: Conf, env: Env)
    ensures Speaks(s, SendHello(s, conf, env).value, [])
  {
    hide SendHello;
    HelloReplied(s, conf, env);
    assert s.past.Replied() + [] == s.past.Replied();
  }

  /** Without an error, the backend's socket brings the client no reply. */
  lemma ActionsSpeak(s: State, conf: Conf, mask: Mask, env: Env)
    requires s.toS.Connecting? && (s.hs.state == 1 || s.hs.state == 2) && !mask.err
    ensures var r := ToActions(s, conf, mask, env);
            && Speaks(s, r.value, []) && (r.Throw? ==> r.value.past.fellBack == s.past.fellBack)
            && (r.value.past.hellos == s.past.hellos
                || (Connects(s, env) && mask.writable && (mask.readable ==> s.to.sock.arrival.Arrived?)))
  {
    hide ToWritable, ToReadable, Says;
    SaysNothing(s, s);
    ReadableWaits(s);
    var a := if mask.readable then ToReadable(s) else Ok(s);
    SaysNothing(s, a.value);
    if a.Ok? && mask.writable {
      WritableSpeaks(a.value, conf, env);
      SpeaksThen(s, a.value, ToWritable(a.value, conf, env).value, []);
    }
  }

  lemma ReadableWaits(s: State)
    requires s.toS.Connecting?
    ensures ToReadable(s).value == s.(to := ToReadable(s).value.to)
    ensures ToReadable(s).Ok? ==> s.to.sock.arrival.Arrived?
  {
  }

  lemma WritableSpeaks(s: State, conf: Conf, env: Env)
    requires s.toS.Connecting? && (s.hs.state == 1 || s.hs.state == 2)
    ensures var r := ToWritable(s, conf, env);
            && Speaks(s, r.value, []) && (r.Throw? ==> r.value.past.fellBack == s.past.fellBack)
            && (r.value.past.hellos == s.past.hellos || Connects(s, env))
  {
    hide SetFromByHs, SendHello, Says;
    TakeoverSays(s);
    var a := SetFromByHs(s).value;
    ThenSays(s, a, a.(listening := false), []);
    SaysHellos(s, a, []);
    HelloSpeaks(s, conf, env);
    HelloReplied(s, conf, env);
  }

  lemma SaysHellos(s: State, r: State, x: seq<Exchange>)
    requires Says(s, r, x)
    ensures r.past.hellos == s.past.hellos && Speaks(s, r, x)
  {
  }

  lemma RecoverSpeaks(s: State, conf: Conf, env: Env)
    requires s.hs.state == 1 || s.hs.state == 2
    ensures var r := Recover(s, conf, env).value;
            && Speaks(s, r, []) && (r.past.hellos == s.past.hellos || r.past.fellBack == s.past.fellBack)
  {
    hide SetFromByHs, SendHello, InjectIfShort, Says;
    TakeoverSays(s);
    var a := SetFromByHs(s).value;
    InjectSays(a);
    var b := InjectIfShort(a);
    SaysThen(s, a, b, []);
    ThenSays(s, b, b.(listening := false), []);
    SaysHellos(s, b, []);
    SaysNothing(s, s.(disconnected := true));
    HelloSpeaks(s, conf, env);
    HelloReplied(s, conf, env);
  }

  lemma TryToSpeaks(s: State, conf: Conf, mask: Mask, env: Env)
    requires s.toS.Connecting? && (s.hs.state == 1 || s.hs.state == 2)
    ensures Speaks(s, TryTo(s, conf, mask, env).value, AnswerOf(s, ToEvent(mask, env)))
  {
    hide SetFromByHs, ToError, Says, ReplyOn, InjectIfShort, Speaks;
    var s1 := if mask.rdhup then s.(disconnected := true) else s;
    SaysNothing(s, s1);
    if mask.hup {
      TakeoverSays(s1);
      var a := SetFromByHs(s1).value;
      SaysThen(s, s1, a, []);
      ThenSays(s, a, a.(listening := false), []);
      SaysHellos(s, a.(listening := false), []);
    } else if mask.err {
      ErrorSays(s1, conf, env);
      SameOffer(s, s1);
      var x := ReplyOn(s1, InjectIfShort(s1).from.input, env);
      SameReply(s, s1, InjectIfShort(s).from.input, env);
      SaysThen(s, s1, ToError(s1, conf, env).value, x);
      SaysHellos(s, ToError(s1, conf, env).value, x);
    } else {
      ActionsSpeak(s1, conf, mask, env);
      FirstSpeaks(s, s1, ToActions(s1, conf, mask, env).value);
    }
  }

  lemma FirstSpeaks(a: State, b: State, c: State)
    requires b.past == a.past && b.from == a.from && Speaks(b, c, [])
    ensures Speaks(a, c, [])
  {
  }

  /** Every failure of a backend that a client waits for, also after an earlier one: the replies it
      brings the client are exactly those of AnswerOf, and nothing else reaches it unless the
      backend is greeted. */
  lemma FailureAnswers(s: State, conf: Conf, e: Event)
    requires Waits(s, e)
    ensures Speaks(s, Handle(s, conf, e), AnswerOf(s, e))
  {
    hide Speaks, Says, TryTo, Recover, TimeoutStep, ReplyOn, InjectIfShort;
    var p := Plug(s, e.env);
    SaysNothing(s, p);
    SameOffer(s, p);
    match e
    case Timeout(env) =>
      TimeoutSays(p, conf, env);
      SameReply(s, p, s.from.input, env);
      var x := ReplyOn(s, s.from.input, env);
      SaysThen(s, p, TimeoutStep(p, conf, env).value, x);
      SaysHellos(s, TimeoutStep(p, conf, env).value, x);
    case ToEvent(mask, env) =>
      TryToSpeaks(p, conf, mask, env);
      SameReply(s, p, InjectIfShort(s).from.input, env);
      TryToAsked(p, conf, mask, env);
      var t := TryTo(p, conf, mask, env);
      if t.Throw? {
        RecoverSpeaks(t.value, conf, env);
        SpeaksThen(p, t.value, Recover(t.value, conf, env).value, AnswerOf(p, e));
      }
      PlugSpeaks(s, env, Handle(s, conf, e), AnswerOf(s, e));
  }

  lemma PlugSpeaks(s: State, env: Env, r: State, x: seq<Exchange>)
    requires Speaks(Plug(s, env), r, x)
    ensures Speaks(s, r, x)
  {
  }

  /** The event takes the client over, without any write to the client throwing and without the
      backend having come up in it. */
  predicate TakenOverBy(s: State, conf: Conf, e: Event) {
    && Waits(s, e) && !s.past.fellBack && Handle(s, conf, e).past.fellBack
    && Fault !in e.env.fromSock.answers
    && (e.ToEvent? ==> !ConnectBranch(Plug(s, e.env), e.mask, e.env))
  }

  lemma FakeOk(s: State, conf: Conf, env: Env)
    requires s.fromS == if s.hs.state == 1 then StatusFake else LoginFake
    requires Fault !in s.from.sock.answers && !Demand(s.from.input, s.hs.state, env.maxSize).Refused?
    ensures ProcessFrom(s, conf, env).Ok?
  {
    hide Take, HeadOf, ReplyTo, Sent, Drop;
    var d := Demand(s.from.input, s.hs.state, env.maxSize);
    if d.Took? {
      DropSocket(s.from, d.length);
      SendsQuietly(Queue(Drop(s.from, d.length), ReplyTo(d.packet, TextFor(d.packet, TextsOf(env)))));
    }
  }

  lemma DropSocket(g: GateState, n: nat)
    requires n <= |g.input|
    ensures Drop(g, n).sock == g.sock
  {
  }

  lemma ErrorOk(s: State, conf: Conf, env: Env)
    requires s.toS.Connecting? && (s.hs.state == 1 || s.hs.state == 2) && Fault !in s.from.sock.answers
    requires !Demand(InjectIfShort(s).from.input, s.hs.state, env.maxSize).Refused?
    ensures ToError(s, conf, env).Ok?
  {
    hide SetFromByHs, InjectIfShort, ProcessFrom, Demand;
    TakeoverSays(s);
    var a := SetFromByHs(s).value;
    InjectSays(a);
    InjectSocket(a);
    SameOffer(s, a);
    FakeOk(InjectIfShort(a), conf, env);
  }

  lemma InjectSocket(s: State)
    ensures InjectIfShort(s).from.sock == s.from.sock
  {
    hide Encode;
  }

  /** Where the hub makes sense of what it finds, the client is told exactly the replies of AnswerOf. */
  lemma FailureSays(s: State, conf: Conf, e: Event)
    requires TakenOverBy(s, conf, e)
    requires !Demand(InjectIfShort(s).from.input, s.hs.state, e.env.maxSize).Refused?
    ensures Says(s, Handle(s, conf, e), AnswerOf(s, e))
  {
    hide Speaks, Says, TryTo, Recover, TimeoutStep, InjectIfShort, Demand, ToError, ToActions, AnswerOf;
    FailureAnswers(s, conf, e);
    var p := Plug(s, e.env);
    if e.Timeout? {
      TimeoutSays(p, conf, e.env);
      SaysHellos(p, TimeoutStep(p, conf, e.env).value, ReplyOn(p, p.from.input, e.env));
    } else {
      NotGreeted(s, conf, e.mask, e.env);
    }
    SpeaksSays(s, Handle(s, conf, e), AnswerOf(s, e));
  }

  lemma SpeaksSays(s: State, r: State, x: seq<Exchange>)
    requires Speaks(s, r, x) && r.past.hellos == s.past.hellos
    ensures Says(s, r, x)
  {
  }

  lemma NotGreeted(s: State, conf: Conf, mask: Mask, env: Env)
    requires TakenOverBy(s, conf, ToEvent(mask, env))
    requires !Demand(InjectIfShort(s).from.input, s.hs.state, env.maxSize).Refused?
    ensures Handle(s, conf, ToEvent(mask, env)).past.hellos == s.past.hellos
  {
    hide SetFromByHs, Says, Recover, InjectIfShort, Demand, ToError, ToActions, Speaks, ReplyOn;
    var p := Plug(s, env);
    var s1 := if mask.rdhup then p.(disconnected := true) else p;
    TakeoverSays(s1);
    var a := SetFromByHs(s1).value;
    SaysHellos(s1, a, []);
    if !mask.hup {
      if mask.err {
        SameOffer(s, s1);
        ErrorOk(s1, conf, env);
        ErrorSays(s1, conf, env);
        SaysHellos(s1, ToError(s1, conf, env).value, ReplyOn(s1, InjectIfShort(s1).from.input, env));
        ActionsError(s1, conf, mask, env);
      } else {
        ActionsSpeak(s1, conf, mask, env);
        TryToAsked(p, conf, mask, env);
        if TryTo(p, conf, mask, env).Throw? {
          RecoverSpeaks(TryTo(p, conf, mask, env).value, conf, env);
        }
      }
    }
  }

  lemma ActionsError(s: State, conf: Conf, mask: Mask, env: Env)
    requires mask.err
    ensures ToActions(s, conf, mask, env) == ToError(s, conf, env)
  {
    hide ToError;
  }

  lemma DemandWhole(f: bytes, h: Hello, maxSize: int, q: Packet)
    requires Suits(h, q) && Carries(f, maxSize, q)
    ensures Demand(f, h.state, maxSize) == Took(q, |f|) && |f| >= 2
  {
    hide Decode, Carries;
    assert f + [] == f;
    TakesFrame(f, [], maxSize, q);
    CarriesId(f, maxSize, q);
    TwoNumbers(f, maxSize, q);
  }

  lemma TwoNumbers(f: bytes, maxSize: int, q: Packet)
    requires Carries(f, maxSize, q)
    ensures |f| >= 2
  {
    hide ReadFields;
  }

  lemma OneReplied(s: State, r: State, q: Packet, frame: bytes, text: bytes)
    requires Says(s, r, [Exchange(q, frame, text, ReplyTo(q, text))])
    ensures r.from.Written() == s.from.Written() + ReplyTo(q, text) != s.from.Written()
  {
    hide ReplyTo;
    ReplySays(q, text);
    var x := Exchange(q, frame, text, ReplyTo(q, text));
    assert [] + [x] == [x] && [] + x.reply == x.reply;
    ServedAppend([], x);
    NothingServed();
  }

  /** A client whose whole request waits when its backend fails is answered if and only if it is
      the timer that fires, or an error that is no hang-up. */
  lemma WholeRequestExactly(s: State, conf: Conf, e: Event, q: Packet)
    requires TakenOverBy(s, conf, e) && Suits(s.hs, q) && Carries(s.from.input, e.env.maxSize, q)
    ensures var r := Handle(s, conf, e); var answers := e.Timeout? || (e.mask.err && !e.mask.hup);
            && (r.from.Written() != s.from.Written() <==> answers)
            && (answers ==> r.from.Written() == s.from.Written() + ReplyTo(q, TextFor(q, TextsOf(e.env))))
  {
    hide Carries, Handle, Says, Demand, ReplyTo;
    var f := s.from.input;
    DemandWhole(f, s.hs, e.env.maxSize, q);
    assert InjectIfShort(s) == s;
    FailureSays(s, conf, e);
    var text := TextFor(q, TextsOf(e.env));
    assert f[..|f|] == f;
    SaysOneOrNothing(s, Handle(s, conf, e), AnswerOf(s, e), q, f, text);
  }

  lemma SaysOneOrNothing(s: State, r: State, x: seq<Exchange>, q: Packet, frame: bytes, text: bytes)
    requires Says(s, r, x) && (x == [] || x == [Exchange(q, frame, text, ReplyTo(q, text))])
    ensures r.from.Written() != s.from.Written() <==> x != []
    ensures x != [] ==> r.from.Written() == s.from.Written() + ReplyTo(q, text)
  {
    hide ReplyTo;
    NothingServed();
    assert s.from.Written() + [] == s.from.Written();
    if x != [] {
      OneReplied(s, r, q, frame, text);
    }
  }

  /** A client of whom nothing waits then is answered if and only if it is an error that is no
      hang-up, and what it is answered is the packet that the hub has injected. */
  lemma NothingWaitingExactly(s: State, conf: Conf, e: Event)
    requires TakenOverBy(s, conf, e) && s.from.input == []
    requires |Encode(Asked(s))| < TWO_31 && (e.env.maxSize == NO_LIMIT || |Body(Asked(s))| <= e.env.maxSize)
    ensures var r := Handle(s, conf, e); var answers := e.ToEvent? && e.mask.err && !e.mask.hup;
            && (r.from.Written() != s.from.Written() <==> answers)
            && (answers ==>
                  r.from.Written() == s.from.Written() + ReplyTo(Asked(s), TextFor(Asked(s), TextsOf(e.env))))
  {
    hide Carries, Handle, Says, Demand, ReplyTo, Encode;
    var q := Asked(s);
    var f := Encode(q);
    EncodedCarries(q, e.env.maxSize);
    DemandWhole(f, s.hs, e.env.maxSize, q);
    assert InjectIfShort(s).from.input == [] + f == f;
    DemandNothing(s.hs, e.env.maxSize);
    FailureSays(s, conf, e);
    var text := TextFor(q, TextsOf(e.env));
    assert f[..|f|] == f;
    SaysOneOrNothing(s, Handle(s, conf, e), AnswerOf(s, e), q, f, text);
  }

  lemma DemandNothing(h: Hello, maxSize: int)
    ensures Demand([], h.state, maxSize).Nothing?
  {
  }

  // ---------- the end of a client ----------

  /** A client that hangs up, or whose socket fails, is erased with that event. */
  lemma HangUpErases(s: State, conf: Conf, mask: Mask, env: Env)
    requires Resting(s) && (mask.rdhup || mask.err || (mask.readable && env.fromSock.arrival.Dead?))
    ensures Handle(s, conf, FromEvent(mask, env)).erased
  {
    hide Flow, Meant, FromReadable, Sent, SameBackend, ProcessFrom;
    if !s.erased {
      var p := Plug(s, env);
      PlugKeeps(s, env);
      if mask.rdhup && !mask.err {
        var q := p.(disconnected := true);
        OthersKeep(p, q);
        TryFromKeeps(q, conf, mask, env);
        KeepsDisconnected(q, TryFrom(q, conf, mask, env).value);
      }
      if mask.readable && env.fromSock.arrival.Dead? {
        DeadThrows(if mask.rdhup then p.(disconnected := true) else p, conf, env);
      }
    }
  }

  lemma KeepsDisconnected(s: State, r: State)
    requires SameBackend(s, r) && s.disconnected
    ensures r.disconnected
  {
  }

  lemma DeadThrows(s: State, conf: Conf, env: Env)
    requires s.from.sock.arrival.Dead?
    ensures FromReadable(s, conf, env).Throw?
  {
  }

  /** And nothing happens to it any more. */
  lemma {:induction false} ErasedStays(s: State, conf: Conf, events: seq<Event>)
    requires s.erased
    ensures Run(s, conf, events) == s
  {
    if events != [] {
      ErasedStays(s, conf, events[..|events| - 1]);
    }
  }
}
