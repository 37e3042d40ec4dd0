/** Whatever is queued is sent at once if the socket takes it: when every write takes all it is
    given, nothing is left queued between events, on either side. */
module PortalFlush {
  import opened VarInts
  import opened Pakets
  import opened Gates
  import opened Records
  import opened Routing
  import opened PortalSpec

  /** The next writes, k of them and more, each take up to `limit` bytes. */
  predicate Ample(sock: Socket, limit: nat, k: nat) {
    |sock.answers| >= k && forall a <- sock.answers :: a.Wrote? && a.count >= limit
  }

  /** Nothing is queued, or more than `limit` bytes have been written in all. */
  predicate Flushed(g: GateState, limit: nat) {
    |g.Written()| <= limit ==> g.output == []
  }

  predicate Clear(s: State, limit: nat, k: nat) {
    Ample(s.from.sock, limit, k) && Ample(s.to.sock, limit, k) && Flushed(s.from, limit) && Flushed(s.to, limit)
  }

  lemma ClearLess(s: State, limit: nat, k: nat, j: nat)
    requires Clear(s, limit, k) && j <= k
    ensures Clear(s, limit, j)
  {
  }

  lemma SendClears(g: GateState, limit: nat, k: nat)
    requires Ample(g.sock, limit, k + 1)
    ensures Sent(g).Ok? && Ample(Sent(g).value.sock, limit, k) && Flushed(Sent(g).value, limit)
  {
    SentKeeps(g);
  }

  lemma SetFromClears(s: State, limit: nat, k: nat)
    requires Clear(s, limit, k)
    ensures Clear(SetFromByHs(s).value, limit, k)
  {
    hide Ample, Flushed;
  }

  lemma ServeClears(s: State, request: Packet, length: nat, text: bytes, limit: nat, k: nat)
    requires length <= |s.from.input| && Clear(s, limit, k + 1)
    ensures Clear(Serve(s, request, length, text).value, limit, k)
  {
    hide Sent, ReplyTo, Flushed;
    SendClears(Queue(Drop(s.from, length), ReplyTo(request, text)), limit, k);
  }

  lemma FakeClears(s: State, env: Env, limit: nat, k: nat)
    requires Clear(s, limit, k + 1)
    ensures Clear(FakeStatus(s, env).value, limit, k) && Clear(FakeLogin(s, env).value, limit, k)
  {
    hide Take, HeadOf, Serve, Ample, Flushed;
    ClearLess(s, limit, k + 1, k);
    var t := Take(s.from.input, ALogin, env.maxSize);
    if t.Took? {
      ServeClears(s, t.packet, t.length, env.login, limit, k);
    }
    var h := HeadOf(s.from.input, env.maxSize);
    if h.Frame? {
      var u := Take(s.from.input, if h.id == 0 then ARequest else APing, env.maxSize);
      if u.Took? {
        ServeClears(s, u.packet, u.length, env.status, limit, k);
      }
    }
  }

  lemma QueueClears(s: State, data: bytes, limit: nat, k: nat)
    requires Ample(s.to.sock, limit, k + 1) && Ample(s.from.sock, limit, k) && Flushed(s.from, limit)
    ensures Clear(OnTo(s, Sent(Queue(s.to, data))).value, limit, k)
    ensures OnTo(s, Sent(Queue(s.to, data))).Ok?
  {
    hide Sent, Flushed;
    SendClears(Queue(s.to, data), limit, k);
  }

  lemma RelaysClear(s: State, env: Env, limit: nat, k: nat)
    requires Clear(s, limit, k + 1)
    ensures Clear(FromLogin(s, env).value, limit, k) && Clear(FromProxy(s).value, limit, k)
  {
    hide Take, Sent, Encode, Ample;
    ClearLess(s, limit, k + 1, k);
    SendClears(Queue(s.to, s.from.input), limit, k);
    var t := Take(s.from.input, ALogin, env.maxSize);
    if t.Took? {
      SendClears(Queue(s.to, Encode(t.packet)), limit, k);
    }
    TakesClear(s, limit);
  }

  lemma TakesClear(s: State, limit: nat)
    requires Flushed(s.from, limit)
    ensures Flushed(Drain(s.from), limit)
    ensures forall n: nat :: n <= |s.from.input| ==> Flushed(Drop(s.from, n), limit)
  {
  }

  lemma StartClears(s: State, r: BasicRecord, conf: Conf, env: Env, limit: nat, k: nat)
    requires s.fromS.Handshaking? && Clear(s, limit, k + 1)
    ensures Clear(Start(s, r, conf, env).value, limit, k)
    decreases true, 0
  {
    hide ProcessFrom, SetFromByHs, Ample, Flushed;
    ClearLess(s, limit, k + 1, k);
    var s1 := s.(route := s.route.(record := r));
    SetFromClears(s1, limit, k);
    SetFromClears(s1, limit, k + 1);
    var s2 := SetFromByHs(s1);
    if s2.Ok? {
      LeavesHandshake(s1);
      ProcessFromClears(s2.value, conf, env, limit, k);
    }
  }

  lemma LeavesHandshake(s: State)
    ensures SetFromByHs(s).Ok? ==> !SetFromByHs(s).value.fromS.Handshaking?
  {
  }

  lemma ProcessFromClears(s: State, conf: Conf, env: Env, limit: nat, k: nat)
    requires Clear(s, limit, k + 1)
    ensures Clear(ProcessFrom(s, conf, env).value, limit, k)
    decreases s.fromS.Handshaking?, 2
  {
    hide Take, Start, FakeStatus, FakeLogin, FromLogin, FromProxy, Record, RouteName, Ample, Flushed;
    ClearLess(s, limit, k + 1, k);
    FakeClears(s, env, limit, k);
    RelaysClear(s, env, limit, k);
    var t := Take(s.from.input, AHandshake, env.maxSize);
    if s.fromS.Handshaking? && t.Took? {
      TakesClear(s, limit);
      StartClears(Admit(s, t.packet, t.length, conf), Record(conf, t.packet.address), conf, env, limit, k);
    }
  }

  lemma ProcessToClears(s: State, limit: nat, k: nat)
    requires Clear(s, limit, k + 1)
    ensures Clear(ProcessTo(s).value, limit, k)
  {
    hide Sent;
    SendClears(Queue(s.from, s.to.input), limit, k);
  }

  lemma SendHelloClears(s: State, conf: Conf, env: Env, limit: nat, k: nat)
    requires Clear(s, limit, k + 3)
    ensures Clear(SendHello(s, conf, env).value, limit, k)
  {
    hide Sent, Encode, ProcessTo, ProcessFrom, Ample, Flushed;
    var hello := Encode(s.hs);
    ClearLess(s, limit, k + 3, k + 2);
    SendClears(Queue(s.to, hello), limit, k + 2);
    var j := Join(QueueHello(s, hello).value);
    ProcessToClears(j, limit, k + 1);
    var b := ProcessTo(j);
    ClearLess(b.value, limit, k + 1, k);
    if b.Ok? {
      ProcessFromClears(b.value, conf, env, limit, k);
    }
  }

  lemma InjectClears(s: State, limit: nat, k: nat)
    requires Clear(s, limit, k)
    ensures Clear(InjectIfShort(s), limit, k)
  {
    hide Encode;
  }

  lemma ReceiveClears(s: State, limit: nat, k: nat)
    requires Clear(s, limit, k)
    ensures Clear(OnFrom(s, Received(s.from)).value, limit, k) && Clear(OnTo(s, Received(s.to)).value, limit, k)
  {
  }

  lemma SendLastClears(s: State, limit: nat, k: nat)
    requires Clear(s, limit, k + 1)
    ensures Clear(OnFrom(s, Sent(s.from)).value, limit, k) && Clear(OnTo(s, Sent(s.to)).value, limit, k)
  {
    hide Sent, Flushed;
    SendClears(s.from, limit, k);
    SendClears(s.to, limit, k);
  }

  lemma ToErrorClears(s: State, conf: Conf, env: Env, limit: nat, k: nat)
    requires Clear(s, limit, k + 1)
    ensures Clear(ToError(s, conf, env).value, limit, k)
  {
    hide SetFromByHs, InjectIfShort, ProcessFrom, Ample, Flushed;
    ClearLess(s, limit, k + 1, k);
    SetFromClears(s, limit, k + 1);
    var a := SetFromByHs(s).value;
    ClearLess(a, limit, k + 1, k);
    InjectClears(a, limit, k + 1);
    ProcessFromClears(InjectIfShort(a), conf, env, limit, k);
  }

  lemma ToWritableClears(s: State, conf: Conf, env: Env, limit: nat, k: nat)
    requires Clear(s, limit, k + 3)
    ensures Clear(ToWritable(s, conf, env).value, limit, k)
  {
    hide SetFromByHs, SendHello, ProcessFrom, Sent, Ample, Flushed;
    ClearLess(s, limit, k + 3, k);
    SetFromClears(s, limit, k);
    SendHelloClears(s, conf, env, limit, k);
    SendLastClears(s, limit, k + 2);
    var b := OnTo(s, Sent(s.to)).value;
    ClearLess(b, limit, k + 2, k + 1);
    ClearLess(b, limit, k + 1, k);
    ProcessFromClears(b.(toS := Stable, fromS := Stable), conf, env, limit, k);
  }

  lemma ToActionsClears(s: State, conf: Conf, mask: Mask, env: Env, limit: nat, k: nat)
    requires Clear(s, limit, k + 4)
    ensures Clear(ToActions(s, conf, mask, env).value, limit, k)
  {
    hide ToError, ToWritable, ProcessTo, Received, Ample, Flushed;
    ClearLess(s, limit, k + 4, k + 3);
    ClearLess(s, limit, k + 3, k + 1);
    ClearLess(s, limit, k + 1, k);
    ToErrorClears(s, conf, env, limit, k);
    ReceiveClears(s, limit, k + 4);
    var r := OnTo(s, Received(s.to)).value;
    ClearLess(r, limit, k + 4, k + 3);
    ProcessToClears(r, limit, k + 3);
    var a := if mask.readable then ToReadable(s) else Ok(s);
    assert Clear(a.value, limit, k + 3);
    ClearLess(a.value, limit, k + 3, k);
    ToWritableClears(a.value, conf, env, limit, k);
  }

  lemma TryToClears(s: State, conf: Conf, mask: Mask, env: Env, limit: nat, k: nat)
    requires Clear(s, limit, k + 4)
    ensures Clear(TryTo(s, conf, mask, env).value, limit, k)
  {
    hide SetFromByHs, ToActions, Ample, Flushed;
    var s1 := if mask.rdhup then s.(disconnected := true) else s;
    ClearLess(s1, limit, k + 4, k);
    SetFromClears(s1, limit, k);
    ToActionsClears(if mask.hup then s1.(disconnected := true) else s1, conf, mask, env, limit, k);
  }

  lemma RecoverClears(s: State, conf: Conf, env: Env, limit: nat, k: nat)
    requires Clear(s, limit, k + 3)
    ensures Clear(Recover(s, conf, env).value, limit, k)
  {
    hide SetFromByHs, SendHello, InjectIfShort, Ample, Flushed;
    ClearLess(s, limit, k + 3, k);
    SendHelloClears(s, conf, env, limit, k);
    SetFromClears(s, limit, k);
    InjectClears(SetFromByHs(s).value, limit, k);
  }

  lemma TryFromClears(s: State, conf: Conf, mask: Mask, env: Env, limit: nat, k: nat)
    requires Clear(s, limit, k + 2)
    ensures Clear(TryFrom(s, conf, mask, env).value, limit, k)
  {
    hide ProcessFrom, Received, Sent, Ample, Flushed;
    var s1 := if mask.rdhup then s.(disconnected := true) else s;
    ClearLess(s1, limit, k + 2, k + 1);
    ClearLess(s1, limit, k + 1, k);
    ReceiveClears(s1, limit, k + 2);
    var a := OnFrom(s1, Received(s1.from)).value;
    ClearLess(a, limit, k + 2, k + 1);
    ProcessFromClears(a, conf, env, limit, k + 1);
    var b := if mask.readable then FromReadable(s1, conf, env) else Ok(s1);
    assert Clear(b.value, limit, k + 1);
    ClearLess(b.value, limit, k + 1, k);
    SendLastClears(b.value, limit, k);
  }

  /** The sockets of an event take all they are given. */
  predicate Unhindered(e: Event, limit: nat) {
    Ample(e.env.fromSock, limit, 7) && Ample(e.env.toSock, limit, 7)
  }

  lemma HandleFlushes(s: State, conf: Conf, e: Event, limit: nat)
    requires Unhindered(e, limit) && Flushed(s.from, limit) && Flushed(s.to, limit)
    ensures var r := Handle(s, conf, e); Flushed(r.from, limit) && Flushed(r.to, limit)
  {
    hide TryFrom, TryTo, Recover, ProcessFrom, SetFromByHs, Flushed;
    var p := Plug(s, e.env);
    assert Clear(p, limit, 7) by { PlugClears(s, e, limit); }
    hide Ample;
    match e
    case FromEvent(mask, env) =>
      TryFromClears(p, conf, mask, env, limit, 5);
    case ToEvent(mask, env) =>
      TryToClears(p, conf, mask, env, limit, 3);
      RecoverClears(TryTo(p, conf, mask, env).value, conf, env, limit, 0);
    case Timeout(env) =>
      SetFromClears(p, limit, 7);
      ProcessFromClears(SetFromByHs(p).value.(listening := false), conf, env, limit, 6);
  }

  lemma PlugClears(s: State, e: Event, limit: nat)
    requires Unhindered(e, limit) && Flushed(s.from, limit) && Flushed(s.to, limit)
    ensures Clear(Plug(s, e.env), limit, 7)
  {
  }

  /** In every run on sockets that take all they are given, everything written so far has been sent
      by the end of each event, to the client and to the backend. */
  lemma {:induction false} RunFlushes(conf: Conf, events: seq<Event>, limit: nat)
    requires forall e <- events :: Unhindered(e, limit)
    ensures var s := Run(Init(conf), conf, events);
            && (|s.from.Written()| <= limit ==> s.from.output == [] && s.from.sent == s.from.Written())
            && (|s.to.Written()| <= limit ==> s.to.output == [] && s.to.sent == s.to.Written())
  {
    RunFlushed(conf, events, limit);
    hide Run;
    var s := Run(Init(conf), conf, events);
    assert s.from.sent + [] == s.from.sent && s.to.sent + [] == s.to.sent;
  }

  lemma {:induction false} RunFlushed(conf: Conf, events: seq<Event>, limit: nat)
    requires forall e <- events :: Unhindered(e, limit)
    ensures var s := Run(Init(conf), conf, events); Flushed(s.from, limit) && Flushed(s.to, limit)
  {
    hide Handle, Unhindered;
    if events != [] {
      var before := events[..|events| - 1];
      RunFlushed(conf, before, limit);
      HandleFlushes(Run(Init(conf), conf, before), conf, events[|events| - 1], limit);
    }
  }
}
