/** Runs whose events meet a condition that can be read off them before anything happens, and
    which are therefore transparent for as long as the hub does not take the client over. */
module PortalCalm {
  import opened VarInts
  import opened Pakets
  import opened Gates
  import opened Records
  import opened PortalSpec
  import opened PortalInv
  import opened PortalHistory
  import opened PortalTheorems

  /** When the backend's socket raises an event, reading it works and no write throws. */
  predicate Calm(e: Event) {
    e.ToEvent? ==>
      && e.env.toSock.arrival.Arrived?
      && Fault !in e.env.fromSock.answers && Fault !in e.env.toSock.answers
  }

  predicate Quiet(s: State) {
    Fault !in s.from.sock.answers && Fault !in s.to.sock.answers
  }

  lemma QuietSend(g: GateState)
    requires Fault !in g.sock.answers
    ensures Sent(g).Ok? && Fault !in Sent(g).value.sock.answers && Sent(g).value.input == g.input
  {
    SentKeeps(g);
  }

  lemma CalmFrom(s: State, conf: Conf, env: Env)
    requires Quiet(s) && (s.fromS.Proxying? || s.fromS.Stable? || s.fromS.LoggingIn?)
    requires s.fromS.LoggingIn? ==> !Take(s.from.input, ALogin, env.maxSize).Refused?
    ensures ProcessFrom(s, conf, env).Ok? && ProcessFrom(s, conf, env).value.toS == s.toS
  {
    hide Take, Sent, Encode;
    QuietSend(Queue(s.to, s.from.input));
    var t := Take(s.from.input, ALogin, env.maxSize);
    if t.Took? {
      QuietSend(Queue(s.to, Encode(t.packet)));
    }
  }

  lemma CalmTo(s: State)
    requires Quiet(s) && (s.toS.Connecting? || Joined(s.toS))
    ensures var r := ProcessTo(s);
            && r.Ok? && Quiet(r.value) && r.value.toS == s.toS && r.value.fromS == s.fromS
            && r.value.from.input == s.from.input && r.value.hs == s.hs
  {
    hide Sent;
    QuietSend(Queue(s.from, s.to.input));
  }

  lemma CalmHello(s: State, conf: Conf, env: Env)
    requires Quiet(s) && (s.hs.state != 1 ==> !Take(s.from.input, ALogin, env.maxSize).Refused?)
    ensures SendHello(s, conf, env).Ok? && SendHello(s, conf, env).value.toS.Proxying?
  {
    hide Take, Sent, Encode, ProcessTo, ProcessFrom;
    QuietSend(Greet(s, Encode(s.hs)).to);
    var j := Join(QueueHello(s, Encode(s.hs)).value);
    CalmTo(j);
    CalmFrom(ProcessTo(j).value, conf, env);
  }

  lemma TakesOver(s: State)
    requires s.hs.state == 1 || s.hs.state == 2
    ensures SetFromByHs(s).Ok? && SetFromByHs(s).value.past.fellBack
  {
  }

  lemma CalmWritable(s: State, conf: Conf, env: Env)
    requires Quiet(s) && Paired(s.fromS, s.toS) && !s.toS.Unset? && !Fake(s.fromS)
    requires s.hs.state == 1 || s.hs.state == 2
    requires s.toS.Connecting? && s.hs.state == 2 ==> !Take(s.from.input, ALogin, env.maxSize).Refused?
    ensures var r := ToWritable(s, conf, env);
            r.value.past.fellBack
            || (r.Ok? && (Joined(r.value.toS) <==> Joined(s.toS) || Connects(s, env)))
  {
    hide Take, Sent, SendHello, ProcessFrom, SetFromByHs;
    TakesOver(s);
    if s.toS.Connecting? {
      if Connects(s, env) {
        CalmHello(s, conf, env);
      }
    } else {
      QuietSend(s.to);
      var t := OnTo(s, Sent(s.to)).value;
      CalmFrom(t.(toS := Stable, fromS := Stable), conf, env);
    }
  }

  lemma CalmReadable(s: State)
    requires Quiet(s) && (s.toS.Connecting? || Joined(s.toS)) && s.to.sock.arrival.Arrived?
    ensures var r := ToReadable(s);
            && r.Ok? && Quiet(r.value) && r.value.toS == s.toS && r.value.fromS == s.fromS
            && r.value.from.input == s.from.input && r.value.hs == s.hs
  {
    hide ProcessTo;
    CalmTo(OnTo(s, Received(s.to)).value);
  }

  /** A calm event of the backend's socket does not throw, unless the hub has taken over or the
      socket of a stable backend fails. */
  lemma CalmActions(s: State, conf: Conf, mask: Mask, env: Env)
    requires Quiet(s) && s.to.sock.arrival.Arrived?
    requires Paired(s.fromS, s.toS) && !s.toS.Unset? && !Fake(s.fromS)
    requires s.hs.state == 1 || s.hs.state == 2
    requires s.toS.Connecting? && s.hs.state == 2 ==> !Take(s.from.input, ALogin, env.maxSize).Refused?
    ensures var r := ToActions(s, conf, mask, env);
            || r.value.past.fellBack
            || (r.Throw? && r.value.toS.Stable? && s.toS.Stable?)
            || (r.Ok? && (Joined(r.value.toS) <==>
                  Joined(s.toS) || (Connects(s, env) && mask.writable && !mask.err)))
  {
    hide Take, ToReadable, ToWritable, SetFromByHs, ProcessFrom, InjectIfShort;
    TakesOver(s);
    if mask.err {
      if !s.toS.Stable? {
        var a := SetFromByHs(s).value;
        TakenStays(a, conf, env);
      }
    } else {
      CalmReadable(s);
      var a := if mask.readable then ToReadable(s).value else s;
      CalmWritable(a, conf, env);
    }
  }

  lemma TakenStays(s: State, conf: Conf, env: Env)
    requires s.past.fellBack
    ensures ProcessFrom(InjectIfShort(s), conf, env).value.past.fellBack
  {
    hide ProcessFrom, InjectIfShort;
    InjectLater(s, env);
    ProcessFromLater(InjectIfShort(s), conf, env, Request);
  }

  /** Greeted at most once, and exactly when joined. */
  predicate OnceJoined(s: State) {
    !s.past.fellBack ==> s.past.hellos == if Joined(s.toS) then 1 else 0
  }

  lemma CalmTryTo(s: State, conf: Conf, mask: Mask, env: Env)
    requires Inv(s) && Quiet(s) && s.to.sock.arrival.Arrived? && s.listening && !s.past.fellBack
    requires s.hs.state == 1 || s.hs.state == 2
    requires s.toS.Connecting? && s.hs.state == 2 ==> !Take(s.from.input, ALogin, env.maxSize).Refused?
    ensures var r := TryTo(s, conf, mask, env);
            || r.value.past.fellBack
            || (!RecoverBranch(s, conf, mask, env)
                && (Joined(r.value.toS) <==> Joined(s.toS) || ConnectBranch(s, mask, env))
                && (r.Throw? ==> r.value.toS.Stable?))
  {
    hide Take, ToActions, SetFromByHs, Inv;
    InvSides(s);
    var s1 := if mask.rdhup then s.(disconnected := true) else s;
    TakesOver(s1);
    CalmActions(if mask.hup then s1.(disconnected := true) else s1, conf, mask, env);
  }

  /** What the client sends behind its handshake is not a frame that is refused as a login. */
  predicate LoginComes(s: State, env: Env) {
    s.toS.Connecting? && s.hs.state == 2 && !s.past.fellBack ==> !Take(s.from.input, ALogin, env.maxSize).Refused?
  }

  lemma CalmHandle(s: State, conf: Conf, e: Event)
    requires Resting(s) && OnceJoined(s) && Calm(e) && LoginComes(s, e.env)
    requires s.fromS.Handshaking? || s.hs.state == 1 || s.hs.state == 2
    ensures OnceJoined(Handle(s, conf, e))
  {
    hide Inv, FromEventStep, TryTo, Take, ProcessFrom, SetFromByHs, Later;
    RestingSides(s);
    HandleLater(s, conf, e);
    LaterFell(s, Handle(s, conf, e), e.env, Asked(s));
    HandleKeeps(s, conf, e);
    PlugInv(s, e.env);
    var p := Plug(s, e.env);
    if !s.erased && !s.past.fellBack {
      match e
      case FromEvent(mask, env) => FromJoins(p, conf, mask, env);
      case Timeout(env) =>
        InvSides(p);
        if p.toS.Connecting? {
          TakesOver(p);
          TakenFrom(SetFromByHs(p).value.(listening := false), conf, env);
        }
      case ToEvent(mask, env) =>
        if s.listening {
          CalmTryTo(p, conf, mask, env);
          RecoverJoins(TryTo(p, conf, mask, env).value, conf, env);
        }
    }
  }

  lemma TakenFrom(s: State, conf: Conf, env: Env)
    requires s.past.fellBack
    ensures ProcessFrom(s, conf, env).value.past.fellBack
  {
    hide ProcessFrom;
    ProcessFromLater(s, conf, env, Request);
  }

  lemma LaterFell(s: State, r: State, env: Env, q: Packet)
    requires Later(s, r, env, q)
    ensures s.past.fellBack ==> r.past.fellBack
  {
  }

  lemma PlugInv(s: State, env: Env)
    requires Inv(s)
    ensures Inv(Plug(s, env))
  {
    hide Flow, Meant;
    PlugKeeps(s, env);
  }

  lemma RecoverJoins(s: State, conf: Conf, env: Env)
    ensures s.past.fellBack ==> Recover(s, conf, env).value.past.fellBack
    ensures s.toS.Stable? ==> Recover(s, conf, env).value.toS.Stable?
  {
    hide SendHello, SetFromByHs, InjectIfShort;
    RecoverLater(s, conf, env);
  }

  lemma FromJoins(s: State, conf: Conf, mask: Mask, env: Env)
    requires Inv(s) && Fresh(s)
    ensures Joined(FromEventStep(s, conf, mask, env).toS) <==> Joined(s.toS)
  {
    hide Inv, TryFrom;
    InvSides(s);
    TryFromKeeps(s, conf, mask, env);
  }

  // ---------- status clients ----------

  lemma {:induction false} CalmRun(conf: Conf, events: seq<Event>)
    requires forall e <- events :: Calm(e)
    ensures var s := Run(Init(conf), conf, events);
            s.fromS.Handshaking? || s.hs.state == 1 ==> OnceJoined(s)
  {
    hide Calm, Handle, Resting, OnceJoined;
    if events == [] {
      InitOnce(conf);
    } else {
      var before, e := events[..|events| - 1], events[|events| - 1];
      CalmRun(conf, before);
      RunRests(conf, before);
      var s := Run(Init(conf), conf, before);
      RestingSides(s);
      HandleReads(s, conf, e);
      if s.fromS.Handshaking? || s.hs.state == 1 {
        HandshakingSide(s);
        CalmHandle(s, conf, e);
      }
    }
  }

  lemma HandshakingSide(s: State)
    requires Resting(s)
    ensures s.fromS.Handshaking? ==> s.toS.Unset?
  {
    hide Flow, Meant;
    InvSides(s);
  }

  lemma InitOnce(conf: Conf)
    ensures OnceJoined(Init(conf))
  {
  }

  lemma OnceTransparent(conf: Conf, events: seq<Event>)
    requires OnceJoined(Run(Init(conf), conf, events))
    ensures var s := Run(Init(conf), conf, events);
            Proxied(s.fromS) && !s.past.fellBack ==> TotalGreetings(conf, events) == 1 && Forwards(s)
  {
    hide Run, Forwards, ClientStream, Inv;
    RunRests(conf, events);
    var s := Run(Init(conf), conf, events);
    if Proxied(s.fromS) && !s.past.fellBack {
      InvSides(s);
      Transparent(conf, events);
    }
  }

  /** Status clients: a calm run greets the backend once and is transparent until the hub takes
      the client over, whatever the client sends. */
  lemma StatusTransparent(conf: Conf, events: seq<Event>)
    requires forall e <- events :: Calm(e)
    ensures var s := Run(Init(conf), conf, events);
            s.hs.state == 1 && Proxied(s.fromS) && !s.past.fellBack ==>
              TotalGreetings(conf, events) == 1 && Forwards(s)
  {
    hide Run, Forwards, Calm, OnceJoined;
    CalmRun(conf, events);
    if Run(Init(conf), conf, events).hs.state == 1 {
      OnceTransparent(conf, events);
    }
  }

  // ---------- login clients ----------

  predicate Comparable(a: bytes, b: bytes) {
    a <= b || b <= a
  }

  lemma NotRefused(input: bytes, f: bytes, maxSize: int, q: Packet)
    requires Carries(f, maxSize, q) && q.Login? && Comparable(input, f)
    ensures !Take(input, ALogin, maxSize).Refused?
  {
    hide Decode;
    if f <= input {
      TakesFrame(f, input[|f|..], maxSize, q);
      assert f + input[|f|..] == input;
    } else {
      assert f + [] == f && f[..|input|] == input;
      HeadOnStream(f, [], |input|, maxSize);
    }
  }

  lemma SameFrame(hf: bytes, g: bytes, r: bytes, f: bytes)
    requires IsFrame(hf, NO_LIMIT) && IsFrame(g, NO_LIMIT) && g <= r && Comparable(r, hf + f)
    ensures g == hf
  {
    hide IsFrame;
    if |g| <= |hf| {
      assert g <= hf;
      PrefixFree(g, hf, NO_LIMIT);
    } else {
      assert hf <= g;
      PrefixFree(hf, g, NO_LIMIT);
    }
  }

  lemma {:induction false} ReceivedInOrder(conf: Conf, events: seq<Event>)
    ensures var s := Run(Init(conf), conf, events);
            s.from.received <= Chunks(events) && (s.erased || s.from.received == Chunks(events))
  {
    hide Handle, Chunk, Resting;
    if events != [] {
      var before := events[..|events| - 1];
      ReceivedInOrder(conf, before);
      RunRests(conf, before);
      var s, e := Run(Init(conf), conf, before), events[|events| - 1];
      RestingSides(s);
      if s.erased {
        ErasedSame(s, conf, e);
      } else {
        HandleReads(s, conf, e);
      }
    }
  }

  lemma ErasedSame(s: State, conf: Conf, e: Event)
    requires s.erased
    ensures Handle(s, conf, e) == s
  {
  }

  /** While connecting, and not taken over, what waits is what came after the handshake. */
  lemma WaitingInput(s: State)
    requires Inv(s) && s.toS.Connecting? && !s.past.fellBack
    ensures s.from.received == s.past.hsFrame + s.from.input
    ensures IsFrame(s.past.hsFrame, NO_LIMIT) && Carries(s.past.hsFrame, NO_LIMIT, s.hs)
  {
    hide Kept, Relayed, Told, Greeted, Decode, Answered, Encode;
    NothingServed();
    assert s.past.hsFrame != [] by { InvSides(s); }
    assert s.past.earlier == [] && s.past.served == [];
    assert s.past.hsFrame + [] + [] == s.past.hsFrame;
  }

  lemma LoginWaits(s: State, env: Env, h: Hello, hf: bytes, f: bytes, q: Packet)
    requires Inv(s) && Carries(hf, NO_LIMIT, h) && Carries(f, env.maxSize, q) && q.Login?
    requires Comparable(s.from.received, hf + f)
    ensures LoginComes(s, env)
  {
    hide Inv, Carries, Take;
    if s.toS.Connecting? && !s.past.fellBack {
      WaitingInput(s);
      CarriesWhole(hf, h);
      SameFrame(hf, s.past.hsFrame, s.from.received, f);
      assert s.from.received == hf + s.from.input;
      TailComparable(hf, s.from.input, f);
      NotRefused(s.from.input, f, env.maxSize, q);
    }
  }

  lemma CarriesWhole(f: bytes, p: Packet)
    requires Carries(f, NO_LIMIT, p)
    ensures IsFrame(f, NO_LIMIT)
  {
  }

  lemma TailComparable(a: bytes, b: bytes, c: bytes)
    requires Comparable(a + b, a + c)
    ensures Comparable(b, c)
  {
    assert (a + b)[|a|..] == b && (a + c)[|a|..] == c;
  }

  lemma {:induction false} LoginRun(conf: Conf, events: seq<Event>, h: Hello, hf: bytes, f: bytes, q: Packet)
    requires forall e <- events :: Calm(e) && Carries(f, e.env.maxSize, q)
    requires q.Login? && Carries(hf, NO_LIMIT, h) && Comparable(Chunks(events), hf + f)
    ensures var s := Run(Init(conf), conf, events);
            s.fromS.Handshaking? || s.hs.state == 2 ==> OnceJoined(s)
  {
    hide Calm, Handle, Resting, OnceJoined, Carries, LoginComes, Chunk;
    if events == [] {
      InitOnce(conf);
    } else {
      var before, e := events[..|events| - 1], events[|events| - 1];
      assert Chunks(before) <= Chunks(events);
      LoginRun(conf, before, h, hf, f, q);
      RunRests(conf, before);
      ReceivedInOrder(conf, before);
      var s := Run(Init(conf), conf, before);
      RestingSides(s);
      HandleReads(s, conf, e);
      if s.fromS.Handshaking? || s.hs.state == 2 {
        RestingInv(s);
        LoginWaits(s, e.env, h, hf, f, q);
        CalmHandle(s, conf, e);
      }
    }
  }

  lemma RestingInv(s: State)
    requires Resting(s)
    ensures Inv(s)
  {
  }

  /** Login clients: the same, when what the client sends after its handshake hf starts with a
      login frame f that every event's packet limit allows. */
  lemma LoginTransparent(conf: Conf, events: seq<Event>, h: Hello, hf: bytes, f: bytes, q: Packet)
    requires forall e <- events :: Calm(e) && Carries(f, e.env.maxSize, q)
    requires q.Login? && Carries(hf, NO_LIMIT, h) && Comparable(Chunks(events), hf + f)
    ensures var s := Run(Init(conf), conf, events);
            s.hs.state == 2 && Proxied(s.fromS) && !s.past.fellBack ==>
              TotalGreetings(conf, events) == 1 && Forwards(s)
  {
    hide Run, Forwards, Calm, OnceJoined, Carries;
    LoginRun(conf, events, h, hf, f, q);
    if Run(Init(conf), conf, events).hs.state == 2 {
      OnceTransparent(conf, events);
    }
  }
}
