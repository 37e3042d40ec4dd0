/** What an event adds to a client's history, and what it leaves unread. None of this needs the
    invariant: it holds of the handlers in any state. */
module PortalHistory {
  import opened VarInts
  import opened Pakets
  import opened Gates
  import opened Records
  import opened Routing
  import opened PortalSpec
  import opened PortalInv

  // ---------- replies and injected packets ----------

  /** From s to r: replies are only added, with texts of env; packets are only injected if they
      are q; and a client that was taken over, or is to be disconnected, stays so. */
  ghost predicate Later(s: State, r: State, env: Env, q: Packet) {
    && s.past.Replied() <= r.past.Replied()
    && (forall i :: |s.past.Replied()| <= i < |r.past.Replied()| ==>
          var x := r.past.Replied()[i]; x.text == TextFor(x.request, TextsOf(env)))
    && s.past.injected <= r.past.injected
    && (forall i :: |s.past.injected| <= i < |r.past.injected| ==> r.past.injected[i] == q)
    && (s.past.fellBack ==> r.past.fellBack)
    && (s.disconnected ==> r.disconnected)
  }

  lemma LaterTrans(a: State, b: State, c: State, env: Env, q: Packet)
    requires Later(a, b, env, q) && Later(b, c, env, q)
    ensures Later(a, c, env, q)
  {
    forall i | |a.past.Replied()| <= i < |c.past.Replied()|
      ensures var x := c.past.Replied()[i]; x.text == TextFor(x.request, TextsOf(env))
    {
      if i < |b.past.Replied()| {
        assert c.past.Replied()[i] == b.past.Replied()[i];
      }
    }
    forall i | |a.past.injected| <= i < |c.past.injected| ensures c.past.injected[i] == q {
      if i < |b.past.injected| {
        assert c.past.injected[i] == b.past.injected[i];
      }
    }
  }

  lemma LaterSame(s: State, r: State, env: Env, q: Packet)
    requires r.past.Replied() == s.past.Replied() && r.past.injected == s.past.injected
    requires (s.past.fellBack ==> r.past.fellBack) && (s.disconnected ==> r.disconnected)
    ensures Later(s, r, env, q)
  {
  }

  lemma ServeLater(s: State, request: Packet, length: nat, env: Env, q: Packet)
    requires length <= |s.from.input|
    ensures Later(s, Serve(s, request, length, TextFor(request, TextsOf(env))).value, env, q)
  {
    hide Sent, ReplyTo;
    var text := TextFor(request, TextsOf(env));
    var x := Exchange(request, s.from.input[..length], text, ReplyTo(request, text));
    var r := Serve(s, request, length, text).value;
    assert r.past.Replied() == s.past.Replied() + [x];
  }

  lemma FakeLater(s: State, env: Env, q: Packet)
    ensures Later(s, FakeStatus(s, env).value, env, q) && Later(s, FakeLogin(s, env).value, env, q)
  {
    hide Take, HeadOf, Serve;
    LaterSame(s, s, env, q);
    var t := Take(s.from.input, ALogin, env.maxSize);
    if t.Took? {
      ServeLater(s, t.packet, t.length, env, q);
      var r := Serve(s, t.packet, t.length, env.login).value;
      LaterSame(r, r.(disconnected := true), env, q);
      LaterTrans(s, r, r.(disconnected := true), env, q);
    }
    if HeadOf(s.from.input, env.maxSize).Frame? {
      var k := if HeadOf(s.from.input, env.maxSize).id == 0 then ARequest else APing;
      var u := Take(s.from.input, k, env.maxSize);
      if u.Took? {
        ServeLater(s, u.packet, u.length, env, q);
      }
    }
  }

  lemma SetFromLater(s: State, env: Env, q: Packet)
    ensures Later(s, SetFromByHs(s).value, env, q)
  {
    LaterSame(s, SetFromByHs(s).value, env, q);
  }

  lemma StartLater(s: State, r: BasicRecord, conf: Conf, env: Env, q: Packet)
    requires s.fromS.Handshaking?
    ensures Later(s, Start(s, r, conf, env).value, env, q)
    decreases true, 0
  {
    hide ProcessFrom, Later, SetFromByHs;
    var s1 := s.(route := s.route.(record := r));
    LaterSame(s, s, env, q);
    LaterSame(s, s1, env, q);
    LaterSame(s, s1.(toS := Connecting, fromS := Waiting, listening := true), env, q);
    SetFromLater(s1, env, q);
    var s2 := SetFromByHs(s1);
    LaterTrans(s, s1, s2.value, env, q);
    if s2.Ok? && !r.drop && Dial(s1, env).DnsError? {
      FakeSide(s1);
      ProcessFromLater(s2.value, conf, env, q);
      LaterTrans(s, s2.value, ProcessFrom(s2.value, conf, env).value, env, q);
    }
  }

  lemma FakeSide(s: State)
    requires SetFromByHs(s).Ok?
    ensures Fake(SetFromByHs(s).value.fromS)
  {
  }

  lemma RelaysLater(s: State, env: Env, q: Packet)
    ensures Later(s, FromLogin(s, env).value, env, q) && Later(s, FromProxy(s).value, env, q)
  {
    hide Take, Sent, Encode, Later, Drop;
    LaterSame(s, FromLogin(s, env).value, env, q);
    LaterSame(s, FromProxy(s).value, env, q);
  }

  lemma ProcessFromLater(s: State, conf: Conf, env: Env, q: Packet)
    ensures Later(s, ProcessFrom(s, conf, env).value, env, q)
    decreases s.fromS.Handshaking?, 2
  {
    hide Take, Later, Start, FakeStatus, FakeLogin, FromLogin, FromProxy, Record, RouteName;
    LaterSame(s, s, env, q);
    LaterSame(s, Illegal(s), env, q);
    FakeLater(s, env, q);
    RelaysLater(s, env, q);
    var t := Take(s.from.input, AHandshake, env.maxSize);
    if s.fromS.Handshaking? && t.Took? {
      var s1 := Admit(s, t.packet, t.length, conf);
      var r := Record(conf, t.packet.address);
      LaterSame(s, s1, env, q);
      StartLater(s1, r, conf, env, q);
      LaterTrans(s, s1, Start(s1, r, conf, env).value, env, q);
    }
  }

  lemma ProcessToLater(s: State, env: Env, q: Packet)
    ensures Later(s, ProcessTo(s).value, env, q)
  {
    hide Later, Sent;
    LaterSame(s, ProcessTo(s).value, env, q);
  }

  lemma SendHelloLater(s: State, conf: Conf, env: Env, q: Packet)
    ensures Later(s, SendHello(s, conf, env).value, env, q)
  {
    hide Later, Sent, Encode, ProcessTo, ProcessFrom;
    var a := QueueHello(s, Encode(s.hs));
    assert a.value.past.Replied() == s.past.Replied();
    LaterSame(s, a.value, env, q);
    var j := Join(a.value);
    LaterSame(s, j, env, q);
    if a.Ok? {
      ProcessToLater(j, env, q);
      var b := ProcessTo(j);
      LaterTrans(s, j, b.value, env, q);
      if b.Ok? {
        ProcessFromLater(b.value, conf, env, q);
        LaterTrans(s, b.value, ProcessFrom(b.value, conf, env).value, env, q);
      }
    }
  }

  lemma InjectLater(s: State, env: Env)
    ensures Later(s, InjectIfShort(s), env, Asked(s))
  {
    hide Feed, Encode;
  }

  /** What is injected depends on. */
  predicate SameAsked(s: State, r: State) {
    r.hs == s.hs && r.nickname == s.nickname
  }

  lemma SetFromAsked(s: State)
    ensures SameAsked(s, SetFromByHs(s).value)
  {
  }

  lemma ToErrorLater(s: State, conf: Conf, env: Env)
    ensures Later(s, ToError(s, conf, env).value, env, Asked(s))
  {
    hide Later, SetFromByHs, InjectIfShort, ProcessFrom;
    var q := Asked(s);
    LaterSame(s, s, env, q);
    SetFromLater(s, env, q);
    SetFromAsked(s);
    var a := SetFromByHs(s);
    if a.Ok? {
      InjectLater(a.value, env);
      var b := InjectIfShort(a.value);
      LaterTrans(s, a.value, b, env, q);
      ProcessFromLater(b, conf, env, q);
      var c := ProcessFrom(b, conf, env).value;
      LaterTrans(s, b, c, env, q);
      LaterSame(c, c.(listening := false), env, q);
      LaterTrans(s, c, c.(listening := false), env, q);
    }
  }

  lemma ToWritableLater(s: State, conf: Conf, env: Env, q: Packet)
    ensures Later(s, ToWritable(s, conf, env).value, env, q)
  {
    hide Later, SetFromByHs, SendHello, ProcessFrom, Sent;
    SetFromLater(s, env, q);
    var a := SetFromByHs(s).value;
    LaterSame(a, a.(listening := false), env, q);
    LaterTrans(s, a, a.(listening := false), env, q);
    SendHelloLater(s, conf, env, q);
    var b := OnTo(s, Sent(s.to)).value;
    LaterSame(s, b, env, q);
    var c := b.(toS := Stable, fromS := Stable);
    LaterSame(s, c, env, q);
    ProcessFromLater(c, conf, env, q);
    LaterTrans(s, c, ProcessFrom(c, conf, env).value, env, q);
  }

  lemma ToReadableLater(s: State, env: Env, q: Packet)
    ensures Later(s, ToReadable(s).value, env, q)
  {
    hide Later, ProcessTo, Received;
    var a := OnTo(s, Received(s.to));
    LaterSame(s, a.value, env, q);
    ProcessToLater(a.value, env, q);
    LaterTrans(s, a.value, ProcessTo(a.value).value, env, q);
  }

  lemma ToActionsLater(s: State, conf: Conf, mask: Mask, env: Env)
    ensures Later(s, ToActions(s, conf, mask, env).value, env, Asked(s))
  {
    hide Later, ToError, ToReadable, ToWritable;
    var q := Asked(s);
    ToErrorLater(s, conf, env);
    LaterSame(s, s, env, q);
    ToReadableLater(s, env, q);
    var a := if mask.readable then ToReadable(s) else Ok(s);
    ToWritableLater(a.value, conf, env, q);
    LaterTrans(s, a.value, ToWritable(a.value, conf, env).value, env, q);
  }

  lemma TryToLater(s: State, conf: Conf, mask: Mask, env: Env)
    ensures Later(s, TryTo(s, conf, mask, env).value, env, Asked(s))
  {
    hide Later, SetFromByHs, ToActions;
    var q := Asked(s);
    var s1 := if mask.rdhup then s.(disconnected := true) else s;
    LaterSame(s, s1, env, q);
    SetFromLater(s1, env, q);
    var a := SetFromByHs(s1).value;
    LaterSame(a, a.(listening := false), env, q);
    LaterTrans(s, s1, a, env, q);
    LaterTrans(s, a, a.(listening := false), env, q);
    var s2 := if mask.hup then s1.(disconnected := true) else s1;
    LaterSame(s, s2, env, q);
    ToActionsLater(s2, conf, mask, env);
    LaterTrans(s, s2, ToActions(s2, conf, mask, env).value, env, q);
  }

  // ---------- an exception leaves the handshake and the name alone ----------

  lemma ThrowsAsked(s: State, conf: Conf, env: Env)
    requires !s.fromS.Handshaking?
    ensures ProcessFrom(s, conf, env).Throw? ==> SameAsked(s, ProcessFrom(s, conf, env).value)
    ensures SameAsked(s, ProcessTo(s).value)
  {
    hide Take, Sent, HeadOf, Encode, ReplyTo;
  }

  lemma SendHelloAsked(s: State, conf: Conf, env: Env)
    ensures SendHello(s, conf, env).Throw? ==> SameAsked(s, SendHello(s, conf, env).value)
  {
    hide Sent, Encode, ProcessTo, ProcessFrom;
    var a := QueueHello(s, Encode(s.hs));
    if a.Ok? {
      var j := Join(a.value);
      ThrowsAsked(j, conf, env);
      ProcessToSides(j);
      ThrowsAsked(ProcessTo(j).value, conf, env);
    }
  }

  lemma ProcessToSides(s: State)
    ensures ProcessTo(s).value.fromS == s.fromS && ProcessTo(s).value.toS == s.toS
  {
    hide Sent;
  }

  lemma ToActionsAsked(s: State, conf: Conf, mask: Mask, env: Env)
    requires !s.fromS.Handshaking?
    ensures ToActions(s, conf, mask, env).Throw? ==> SameAsked(s, ToActions(s, conf, mask, env).value)
  {
    hide SetFromByHs, InjectIfShort, ProcessFrom, ProcessTo, SendHello, Sent, Received;
    SetFromAsked(s);
    if mask.err {
      var a := SetFromByHs(s);
      if a.Ok? {
        FakeSide(s);
        InjectSides(a.value);
        ThrowsAsked(InjectIfShort(a.value), conf, env);
      }
    } else {
      var a := OnTo(s, Received(s.to)).value;
      ThrowsAsked(a, conf, env);
      var b := if mask.readable then ToReadable(s).value else s;
      SetFromAsked(b);
      SendHelloAsked(b, conf, env);
      var c := OnTo(b, Sent(b.to)).value;
      ThrowsAsked(c.(toS := Stable, fromS := Stable), conf, env);
    }
  }

  lemma InjectSides(s: State)
    ensures InjectIfShort(s).fromS == s.fromS && InjectIfShort(s).toS == s.toS && SameAsked(s, InjectIfShort(s))
  {
  }

  lemma TryToAsked(s: State, conf: Conf, mask: Mask, env: Env)
    requires !s.fromS.Handshaking?
    ensures TryTo(s, conf, mask, env).Throw? ==> SameAsked(s, TryTo(s, conf, mask, env).value)
  {
    hide SetFromByHs, ToActions;
    var s1 := if mask.rdhup then s.(disconnected := true) else s;
    SetFromAsked(s1);
    ToActionsAsked(if mask.hup then s1.(disconnected := true) else s1, conf, mask, env);
  }

  lemma RecoverLater(s: State, conf: Conf, env: Env)
    ensures Later(s, Recover(s, conf, env).value, env, Asked(s))
  {
    hide Later, SetFromByHs, SendHello, InjectIfShort;
    var q := Asked(s);
    SendHelloLater(s, conf, env, q);
    SetFromLater(s, env, q);
    SetFromAsked(s);
    var a := SetFromByHs(s).value;
    InjectLater(a, env);
    var b := InjectIfShort(a);
    LaterTrans(s, a, b, env, q);
    LaterSame(b, b.(listening := false), env, q);
    LaterTrans(s, b, b.(listening := false), env, q);
    LaterSame(s, s.(disconnected := true), env, q);
  }

  lemma ToEventLater(s: State, conf: Conf, mask: Mask, env: Env)
    requires !s.fromS.Handshaking?
    ensures Later(s, ToEventStep(s, conf, mask, env).value, env, Asked(s))
  {
    hide Later, TryTo, Recover;
    TryToLater(s, conf, mask, env);
    TryToAsked(s, conf, mask, env);
    var a := TryTo(s, conf, mask, env).value;
    RecoverLater(a, conf, env);
    if TryTo(s, conf, mask, env).Throw? {
      LaterTrans(s, a, Recover(a, conf, env).value, env, Asked(s));
    }
  }

  lemma FromEventLater(s: State, conf: Conf, mask: Mask, env: Env, q: Packet)
    ensures Later(s, FromEventStep(s, conf, mask, env), env, q)
  {
    hide Later, ProcessFrom, Received, Sent;
    hide FromReadable;
    var s1 := if mask.rdhup then s.(disconnected := true) else s;
    LaterSame(s, s1, env, q);
    FromReadableLater(s1, conf, env, q);
    LaterTrans(s, s1, FromReadable(s1, conf, env).value, env, q);
    var t := TryFrom(s, conf, mask, env).value;
    var r := if mask.err || !mask.readable then Ok(s1) else FromReadable(s1, conf, env);
    LaterSame(r.value, t, env, q);
    LaterTrans(s, r.value, t, env, q);
    LaterSame(t, FromEventStep(s, conf, mask, env), env, q);
    LaterTrans(s, t, FromEventStep(s, conf, mask, env), env, q);
  }

  lemma FromReadableLater(s: State, conf: Conf, env: Env, q: Packet)
    ensures Later(s, FromReadable(s, conf, env).value, env, q)
  {
    hide Later, ProcessFrom, Received;
    var a := OnFrom(s, Received(s.from)).value;
    LaterSame(s, a, env, q);
    ProcessFromLater(a, conf, env, q);
    LaterTrans(s, a, ProcessFrom(a, conf, env).value, env, q);
  }

  lemma TimeoutLater(s: State, conf: Conf, env: Env, q: Packet)
    ensures Later(s, TimeoutStep(s, conf, env).value, env, q)
  {
    hide Later, SetFromByHs, ProcessFrom;
    LaterSame(s, s, env, q);
    SetFromLater(s, env, q);
    var a := SetFromByHs(s).value;
    var b := a.(listening := false);
    LaterSame(a, b, env, q);
    LaterTrans(s, a, b, env, q);
    ProcessFromLater(b, conf, env, q);
    LaterTrans(s, b, ProcessFrom(b, conf, env).value, env, q);
  }

  /** One event: replies are made from its own texts, and what is injected is what the client was
      to be asked when it came. */
  lemma HandleLater(s: State, conf: Conf, e: Event)
    requires s.fromS.Handshaking? ==> !s.listening
    ensures Later(s, Handle(s, conf, e), e.env, Asked(s))
  {
    hide Later, FromEventStep, ToEventStep, TimeoutStep;
    var p, q := Plug(s, e.env), Asked(s);
    LaterSame(s, s, e.env, q);
    LaterSame(s, p, e.env, q);
    match e
    case FromEvent(mask, env) =>
      FromEventLater(p, conf, mask, env, q);
      LaterTrans(s, p, FromEventStep(p, conf, mask, env), env, q);
    case Timeout(env) =>
      TimeoutLater(p, conf, env, q);
      LaterTrans(s, p, TimeoutStep(p, conf, env).value, env, q);
    case ToEvent(mask, env) =>
      if s.listening {
        ToEventLater(p, conf, mask, env);
        LaterTrans(s, p, ToEventStep(p, conf, mask, env).value, env, q);
      }
  }

  // ---------- what only reading the client changes ----------

  /** The client's bytes are the same, and so is the handshake once it was read. */
  predicate Constant(s: State, r: State) {
    && r.from.received == s.from.received
    && (!s.fromS.Handshaking? ==> r.hs == s.hs && !r.fromS.Handshaking?)
  }

  lemma SendsNothingReceived()
    ensures forall g: GateState :: Sent(g).value.received == g.received
  {
    forall g: GateState ensures Sent(g).value.received == g.received {
      SentKeeps(g);
    }
  }

  lemma FakeConstant(s: State, env: Env)
    ensures Constant(s, FakeStatus(s, env).value) && Constant(s, FakeLogin(s, env).value)
  {
    hide Take, HeadOf, Sent, ReplyTo;
    SendsNothingReceived();
  }

  lemma LoginConstant(s: State, env: Env)
    requires !s.fromS.Handshaking?
    ensures Constant(s, FromLogin(s, env).value)
  {
    hide Take, Encode, Sent, Drop;
    SendsNothingReceived();
    var t := Take(s.from.input, ALogin, env.maxSize);
    if t.Took? {
      DropKeepsReceived(s.from, t.length);
    }
  }

  lemma DropKeepsReceived(g: GateState, n: nat)
    requires n <= |g.input|
    ensures Drop(g, n).received == g.received
  {
  }

  lemma ProxyConstant(s: State)
    requires !s.fromS.Handshaking?
    ensures Constant(s, FromProxy(s).value)
  {
    SentKeeps(Queue(s.to, s.from.input));
    hide Sent;
  }

  lemma BackendConstant(s: State)
    requires !s.fromS.Handshaking?
    ensures Constant(s, ProcessTo(s).value)
  {
    SentKeeps(Queue(s.from, s.to.input));
    hide Sent;
  }

  lemma RelaysConstant(s: State, env: Env)
    requires !s.fromS.Handshaking?
    ensures Constant(s, FromLogin(s, env).value) && Constant(s, FromProxy(s).value)
    ensures Constant(s, ProcessTo(s).value)
  {
    hide FromLogin, FromProxy, ProcessTo, Constant;
    LoginConstant(s, env);
    ProxyConstant(s);
    BackendConstant(s);
  }

  lemma StartConstant(s: State, r: BasicRecord, conf: Conf, env: Env)
    requires s.fromS.Handshaking?
    ensures Constant(s, Start(s, r, conf, env).value)
    decreases true, 0
  {
    hide ProcessFrom;
    var s1 := s.(route := s.route.(record := r));
    if SetFromByHs(s1).Ok? {
      ProcessFromConstant(SetFromByHs(s1).value, conf, env);
    }
  }

  lemma ProcessFromConstant(s: State, conf: Conf, env: Env)
    ensures Constant(s, ProcessFrom(s, conf, env).value)
    decreases s.fromS.Handshaking?, 2
  {
    hide Take, Start, Record, RouteName, FakeStatus, FakeLogin, FromLogin, FromProxy, ProcessTo;
    FakeConstant(s, env);
    var t := Take(s.from.input, AHandshake, env.maxSize);
    if s.fromS.Handshaking? {
      if t.Took? {
        StartConstant(Admit(s, t.packet, t.length, conf), Record(conf, t.packet.address), conf, env);
      }
    } else {
      RelaysConstant(s, env);
    }
  }

  lemma SendHelloConstant(s: State, conf: Conf, env: Env)
    requires !s.fromS.Handshaking?
    ensures Constant(s, SendHello(s, conf, env).value)
  {
    hide Sent, Encode, ProcessTo, ProcessFrom, FromLogin, FromProxy;
    var a := QueueHello(s, Encode(s.hs));
    if a.Ok? {
      var j := Join(a.value);
      RelaysConstant(j, env);
      ProcessFromConstant(ProcessTo(j).value, conf, env);
    }
  }

  lemma ToErrorConstant(s: State, conf: Conf, env: Env)
    requires !s.fromS.Handshaking?
    ensures Constant(s, ToError(s, conf, env).value)
  {
    hide ProcessFrom, Encode;
    var a := SetFromByHs(s);
    if a.Ok? {
      InjectConstant(a.value);
      hide InjectIfShort;
      ProcessFromConstant(InjectIfShort(a.value), conf, env);
    }
  }

  lemma InjectConstant(s: State)
    ensures Constant(s, InjectIfShort(s))
  {
    hide Encode;
    assert s.from.received + [] == s.from.received;
  }

  lemma ToWritableConstant(s: State, conf: Conf, env: Env)
    requires !s.fromS.Handshaking?
    ensures Constant(s, ToWritable(s, conf, env).value)
  {
    hide ProcessFrom, SendHello, Sent;
    SendHelloConstant(s, conf, env);
    ProcessFromConstant(OnTo(s, Sent(s.to)).value.(toS := Stable, fromS := Stable), conf, env);
  }

  lemma ToReadableConstant(s: State, env: Env)
    requires !s.fromS.Handshaking?
    ensures Constant(s, ToReadable(s).value)
  {
    hide ProcessTo, Received, FromLogin, FromProxy;
    RelaysConstant(OnTo(s, Received(s.to)).value, env);
  }

  lemma ToActionsConstant(s: State, conf: Conf, mask: Mask, env: Env)
    requires !s.fromS.Handshaking?
    ensures Constant(s, ToActions(s, conf, mask, env).value)
  {
    hide ToError, ToReadable, ToWritable;
    ToErrorConstant(s, conf, env);
    ToReadableConstant(s, env);
    ToWritableConstant(s, conf, env);
    ToWritableConstant(ToReadable(s).value, conf, env);
  }

  lemma TryToConstant(s: State, conf: Conf, mask: Mask, env: Env)
    requires !s.fromS.Handshaking?
    ensures Constant(s, TryTo(s, conf, mask, env).value)
  {
    hide ToActions;
    var s1 := if mask.rdhup then s.(disconnected := true) else s;
    ToActionsConstant(if mask.hup then s1.(disconnected := true) else s1, conf, mask, env);
  }

  lemma RecoverConstant(s: State, conf: Conf, env: Env)
    requires !s.fromS.Handshaking?
    ensures Constant(s, Recover(s, conf, env).value)
  {
    hide SendHello, InjectIfShort;
    SendHelloConstant(s, conf, env);
    InjectConstant(SetFromByHs(s).value);
  }

  lemma FromReadableReads(s: State, conf: Conf, env: Env)
    ensures var r := FromReadable(s, conf, env).value;
            && (!s.fromS.Handshaking? ==> r.hs == s.hs && !r.fromS.Handshaking?)
            && r.from.received
               == s.from.received + if s.from.sock.arrival.Arrived? then s.from.sock.arrival.data else []
  {
    hide ProcessFrom;
    assert s.from.received + [] == s.from.received;
    ProcessFromConstant(OnFrom(s, Received(s.from)).value, conf, env);
  }

  /** The bytes of an event's arrival. */
  function Chunk(e: Event): bytes {
    if e.FromEvent? && e.mask.readable && e.env.fromSock.arrival.Arrived?
    then e.env.fromSock.arrival.data else []
  }

  function Chunks(events: seq<Event>): bytes {
    if events == [] then []
    else Chunks(events[..|events| - 1]) + Chunk(events[|events| - 1])
  }

  lemma FromEventReads(s: State, conf: Conf, mask: Mask, env: Env)
    ensures var r := FromEventStep(s, conf, mask, env);
            && (!s.fromS.Handshaking? ==> r.hs == s.hs && !r.fromS.Handshaking?)
            && (r.from.received == s.from.received + (if mask.readable && s.from.sock.arrival.Arrived?
                                                      then s.from.sock.arrival.data else [])
                || (r.erased && r.from.received == s.from.received))
  {
    hide FromReadable, Sent;
    SendsNothingReceived();
    assert s.from.received + [] == s.from.received;
    FromReadableReads(if mask.rdhup then s.(disconnected := true) else s, conf, env);
  }

  /** One event: its chunk is added to what was received, unless the client is gone with it. */
  lemma HandleReads(s: State, conf: Conf, e: Event)
    requires s.fromS.Handshaking? ==> !s.listening
    ensures var r := Handle(s, conf, e);
            && (!s.fromS.Handshaking? ==> r.hs == s.hs && !r.fromS.Handshaking?)
            && (r.from.received == s.from.received + Chunk(e)
                || (r.erased && r.from.received == s.from.received))
  {
    hide FromEventStep, TryTo, Recover, ProcessFrom;
    var p := Plug(s, e.env);
    assert s.from.received + [] == s.from.received;
    match e
    case FromEvent(mask, env) => FromEventReads(p, conf, mask, env);
    case Timeout(env) =>
      if SetFromByHs(p).Ok? {
        ProcessFromConstant(SetFromByHs(p).value.(listening := false), conf, env);
      }
    case ToEvent(mask, env) =>
      if s.listening {
        TryToConstant(p, conf, mask, env);
        RecoverConstant(TryTo(p, conf, mask, env).value, conf, env);
      }
  }

  // ---------- nothing is left unread ----------

  predicate ToDrained(s: State) {
    Joined(s.toS) ==> s.to.input == []
  }

  /** What a joined backend has sent is passed on at once, and so is what a stable client has. */
  predicate Drained(s: State) {
    ToDrained(s) && (s.fromS.Stable? ==> s.from.input == [])
  }

  lemma SendsNoInput()
    ensures forall g: GateState :: Sent(g).value.input == g.input
  {
    forall g: GateState ensures Sent(g).value.input == g.input {
      SentKeeps(g);
    }
  }

  lemma FakeLeaves(s: State, env: Env)
    ensures FakeStatus(s, env).value.fromS == s.fromS && FakeLogin(s, env).value.fromS == s.fromS
    ensures FakeStatus(s, env).value.toS == s.toS && FakeLogin(s, env).value.toS == s.toS
    ensures FakeStatus(s, env).value.to == s.to && FakeLogin(s, env).value.to == s.to
  {
    hide Take, HeadOf, Sent, ReplyTo;
  }

  lemma RelaysDrain(s: State, env: Env)
    requires ToDrained(s)
    ensures FromLogin(s, env).value.fromS.Proxying? || FromLogin(s, env).value.fromS == s.fromS
    ensures ToDrained(FromLogin(s, env).value)
    ensures FromProxy(s).value.from.input == [] && ToDrained(FromProxy(s).value)
  {
    hide Take, Encode, Sent;
    SendsNoInput();
  }

  lemma ProcessFromDrains(s: State, conf: Conf, env: Env)
    requires ToDrained(s)
    ensures Drained(ProcessFrom(s, conf, env).value)
    decreases s.fromS.Handshaking?, 2
  {
    hide Take, Start, Record, RouteName, FakeStatus, FakeLogin, FromLogin, FromProxy;
    FakeLeaves(s, env);
    RelaysDrain(s, env);
    var t := Take(s.from.input, AHandshake, env.maxSize);
    if s.fromS.Handshaking? && t.Took? {
      StartDrains(Admit(s, t.packet, t.length, conf), Record(conf, t.packet.address), conf, env);
    }
  }

  lemma StartDrains(s: State, r: BasicRecord, conf: Conf, env: Env)
    requires ToDrained(s) && s.fromS.Handshaking?
    ensures Drained(Start(s, r, conf, env).value)
    decreases true, 0
  {
    hide ProcessFrom;
    var s1 := s.(route := s.route.(record := r));
    if SetFromByHs(s1).Ok? {
      ProcessFromDrains(SetFromByHs(s1).value, conf, env);
    }
  }

  lemma ProcessToDrains(s: State)
    requires s.fromS.Stable? ==> s.from.input == []
    ensures Drained(ProcessTo(s).value)
  {
    SentKeeps(Queue(s.from, s.to.input));
    hide Sent;
  }

  lemma SendHelloDrains(s: State, conf: Conf, env: Env)
    requires Drained(s)
    ensures Drained(SendHello(s, conf, env).value)
  {
    hide Encode, ProcessTo, ProcessFrom;
    var a := QueueHello(s, Encode(s.hs));
    SentKeeps(Greet(s, Encode(s.hs)).to);
    hide Sent;
    if a.Ok? {
      var b := ProcessTo(Join(a.value));
      ProcessToDrains(Join(a.value));
      if b.Ok? {
        ProcessFromDrains(b.value, conf, env);
      }
    }
  }

  lemma ToActionsDrains(s: State, conf: Conf, mask: Mask, env: Env)
    requires Drained(s) && (s.toS.Connecting? || Joined(s.toS))
    ensures Drained(ToActions(s, conf, mask, env).value)
  {
    hide ProcessFrom, ProcessTo, SendHello, Encode, Feed, ToWritable;
    if mask.err {
      if SetFromByHs(s).Ok? {
        ProcessFromDrains(InjectIfShort(SetFromByHs(s).value), conf, env);
      }
    } else {
      var a := OnTo(s, Received(s.to));
      ProcessToDrains(a.value);
      ProcessToSides(a.value);
      var b := if mask.readable then ToReadable(s) else Ok(s);
      ToWritableDrains(b.value, conf, env);
    }
  }

  lemma ToWritableDrains(s: State, conf: Conf, env: Env)
    requires Drained(s) && (s.toS.Connecting? || Joined(s.toS))
    ensures Drained(ToWritable(s, conf, env).value)
  {
    hide ProcessFrom, SendHello, Sent;
    SendsNoInput();
    if s.toS.Connecting? {
      SendHelloDrains(s, conf, env);
    } else {
      var c := OnTo(s, Sent(s.to)).value;
      ProcessFromDrains(c.(toS := Stable, fromS := Stable), conf, env);
    }
  }

  lemma TryToDrains(s: State, conf: Conf, mask: Mask, env: Env)
    requires Drained(s) && (s.toS.Connecting? || Joined(s.toS))
    ensures Drained(TryTo(s, conf, mask, env).value)
  {
    hide ToActions;
    var s1 := if mask.rdhup then s.(disconnected := true) else s;
    ToActionsDrains(if mask.hup then s1.(disconnected := true) else s1, conf, mask, env);
  }

  lemma RecoverDrains(s: State, conf: Conf, env: Env)
    requires Drained(s)
    ensures Drained(Recover(s, conf, env).value)
  {
    hide SendHello, Encode, Feed;
    SendHelloDrains(s, conf, env);
  }

  lemma FromEventDrains(s: State, conf: Conf, mask: Mask, env: Env)
    requires Drained(s)
    ensures Drained(FromEventStep(s, conf, mask, env))
  {
    hide ProcessFrom, Sent, FromReadable;
    SendsNoInput();
    var s1 := if mask.rdhup then s.(disconnected := true) else s;
    ReadableDrains(s1, conf, env);
  }

  lemma ReadableDrains(s: State, conf: Conf, env: Env)
    requires Drained(s)
    ensures Drained(FromReadable(s, conf, env).value)
  {
    hide ProcessFrom;
    ProcessFromDrains(OnFrom(s, Received(s.from)).value, conf, env);
  }

  lemma TimeoutDrains(s: State, conf: Conf, env: Env)
    requires Drained(s)
    ensures Drained(TimeoutStep(s, conf, env).value)
  {
    hide ProcessFrom;
    if SetFromByHs(s).Ok? {
      ProcessFromDrains(SetFromByHs(s).value.(listening := false), conf, env);
    }
  }

  lemma HandleDrains(s: State, conf: Conf, e: Event)
    requires Drained(s) && (s.listening ==> s.toS.Connecting? || Joined(s.toS))
    ensures Drained(Handle(s, conf, e))
  {
    hide FromEventStep, TryTo, Recover, TimeoutStep;
    var p := Plug(s, e.env);
    match e
    case FromEvent(mask, env) => FromEventDrains(p, conf, mask, env);
    case Timeout(env) => TimeoutDrains(p, conf, env);
    case ToEvent(mask, env) =>
      if s.listening {
        TryToDrains(p, conf, mask, env);
        RecoverDrains(TryTo(p, conf, mask, env).value, conf, env);
      }
  }

  /** After an event that reads a client which is being proxied, nothing it has sent is left. */
  lemma ReadIsPassedOn(s: State, conf: Conf, mask: Mask, env: Env)
    requires !s.erased && (s.fromS.Proxying? || s.fromS.Stable?)
    requires mask.readable && !mask.err && env.fromSock.arrival.Arrived?
    ensures Handle(s, conf, FromEvent(mask, env)).from.input == []
    ensures Handle(s, conf, FromEvent(mask, env)).to.Written()
         == s.to.Written() + s.from.input + env.fromSock.arrival.data
  {
    var p := Plug(s, env);
    var s1 := if mask.rdhup then p.(disconnected := true) else p;
    var a := OnFrom(s1, Received(s1.from)).value;
    SentKeeps(Queue(a.to, a.from.input));
    Assoc(s.to.sent, s.to.output, a.from.input);
    var b := FromProxy(a).value;
    SentKeeps(b.from);
    hide Sent;
    assert s.to.Written() + (s.from.input + env.fromSock.arrival.data)
        == s.to.Written() + s.from.input + env.fromSock.arrival.data;
  }
}
