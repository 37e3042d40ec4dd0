/** Once the hub answers by itself, how the client's bytes are cut into arrivals does not show:
    one frame, one reply. */
module PortalChunks {
  import opened VarInts
  import opened Pakets
  import opened Gates
  import opened Records
  import opened Routing
  import opened PortalSpec
  import opened PortalHistory

  /** An event on the client's socket without an error, under one packet limit and with
      the same texts. */
  predicate Feeds(e: Event, maxSize: int, texts: Texts) {
    && e.FromEvent? && !e.mask.rdhup && !e.mask.err
    && (e.mask.readable ==> e.env.fromSock.arrival.Arrived?)
    && Fault !in e.env.fromSock.answers
    && e.env.maxSize == maxSize && TextsOf(e.env) == texts
  }

  /** The request the hub answers itself after the handshake h. */
  predicate Suits(h: Hello, q: Packet) {
    || (h.state == 1 && (q.Request? || q.Ping?))
    || (h.state == 2 && q.Login?)
  }

  function FakeSide(h: Hello): Side {
    if h.state == 1 then StatusFake else LoginFake
  }

  /** The hub is waiting for a frame of which u has come, having been asked nothing else since
      `said` was all it had said. */
  predicate Awaits(s: State, h: Hello, u: bytes, said: bytes) {
    && s.hs == h && s.fromS == FakeSide(h)
    && !s.disconnected && !s.erased
    && s.from.input == u && s.from.Written() == said
  }

  predicate Answers(s: State, h: Hello, q: Packet, said: bytes) {
    && s.hs == h && s.fromS == FakeSide(h)
    && s.disconnected == q.Login?
    && s.from.input == [] && s.from.Written() == said
  }

  lemma SendsQuietly(g: GateState)
    requires Fault !in g.sock.answers
    ensures Sent(g).Ok? && Fault !in Sent(g).value.sock.answers
    ensures Sent(g).value.Written() == g.Written() && Sent(g).value.input == g.input
  {
    SentKeeps(g);
  }

  lemma CarriesId(f: bytes, maxSize: int, p: Packet)
    requires Carries(f, maxSize, p)
    ensures HeadOf(f, maxSize) == Frame(IdOf(KindOf(p)), |f|)
  {
    hide ReadFields;
  }

  /** process_from_request of a hub that awaits the frame f and has k bytes of it. */
  lemma FakeTurn(s: State, conf: Conf, env: Env, h: Hello, q: Packet, f: bytes, k: nat, said: bytes, texts: Texts)
    requires Suits(h, q) && Carries(f, env.maxSize, q) && k <= |f|
    requires Awaits(s, h, f[..k], said) && Fault !in s.from.sock.answers
    requires TextsOf(env) == texts
    ensures var r := ProcessFrom(s, conf, env);
            && r.Ok? && Fault !in r.value.from.sock.answers && !r.value.erased
            && (k < |f| ==> r.value == s)
            && (k == |f| ==> Answers(r.value, h, q, said + ReplyTo(q, TextFor(q, texts))))
  {
    hide Decode, ReplyTo, Sent, Carries, HeadOf;
    assert f + [] == f && (f + [])[..k] == f[..k];
    assert IsFrame(f, env.maxSize) by { CarriesFrame(f, env.maxSize, q); }
    HeadOnStream(f, [], k, env.maxSize);
    CarriesId(f, env.maxSize, q);
    if k == |f| {
      assert f[..k] == f;
      TakesFrame(f, [], env.maxSize, q);
      var g := Queue(Drop(s.from, k), ReplyTo(q, TextFor(q, texts)));
      Assoc(s.from.sent, s.from.output, ReplyTo(q, TextFor(q, texts)));
      SendsQuietly(g);
    }
  }

  lemma CarriesFrame(f: bytes, maxSize: int, p: Packet)
    requires Carries(f, maxSize, p)
    ensures IsFrame(f, maxSize)
  {
  }

  /** After k bytes of the frame f, and after all of it. */
  predicate Stage(s: State, h: Hello, q: Packet, f: bytes, u: bytes, said: bytes, texts: Texts) {
    if |u| < |f| then Awaits(s, h, u, said)
    else Answers(s, h, q, said + ReplyTo(q, TextFor(q, texts))) && s.erased == q.Login?
  }

  /** The rest of on_from_event once process_from_request is done. */
  lemma AfterTurn(s: State, conf: Conf, e: Event, maxSize: int, texts: Texts, t: Step<State>)
    requires Feeds(e, maxSize, texts) && !s.erased
    requires t == (var p := Plug(s, e.env);
                   if e.mask.readable then FromReadable(p, conf, e.env) else Ok(p))
    requires t.Ok? && Fault !in t.value.from.sock.answers
    ensures var r := Handle(s, conf, e);
            && r.from.Written() == t.value.from.Written() && r.from.input == t.value.from.input
            && r.fromS == t.value.fromS && r.toS == t.value.toS && r.hs == t.value.hs
            && r.listening == t.value.listening && r.disconnected == t.value.disconnected
            && r.erased == t.value.disconnected
  {
    hide FromReadable, Sent;
    SendsQuietly(t.value.from);
  }

  lemma FakeEvent(s: State, conf: Conf, e: Event, h: Hello, q: Packet, f: bytes, u: bytes,
                  said: bytes, maxSize: int, texts: Texts)
    requires Suits(h, q) && Carries(f, maxSize, q) && Feeds(e, maxSize, texts)
    requires Awaits(s, h, u, said) && |u| < |f| && u + Chunk(e) <= f
    ensures Stage(Handle(s, conf, e), h, q, f, u + Chunk(e), said, texts)
  {
    hide Carries, ReplyTo, Handle, Sent, ProcessFrom, Take;
    var p := Plug(s, e.env);
    var c := Chunk(e);
    var s1 := if e.mask.readable then OnFrom(p, Received(p.from)).value else p;
    assert s1.from.input == u + c;
    assert u + c == f[..|u + c|];
    FakeTurn(s1, conf, e.env, h, q, f, |u + c|, said, texts);
    var t := ProcessFrom(s1, conf, e.env);
    if e.mask.readable {
      AfterTurn(s, conf, e, maxSize, texts, t);
    } else {
      AfterTurn(s, conf, e, maxSize, texts, Ok(p));
    }
  }

  /** An event after the frame is complete, with nothing more in it. */
  lemma IdleEvent(s: State, conf: Conf, e: Event, h: Hello, q: Packet, f: bytes, u: bytes,
                  said: bytes, maxSize: int, texts: Texts)
    requires Suits(h, q) && Carries(f, maxSize, q) && Feeds(e, maxSize, texts)
    requires |u| == |f| && Stage(s, h, q, f, u, said, texts) && Chunk(e) == []
    ensures Stage(Handle(s, conf, e), h, q, f, u, said, texts)
  {
    hide Carries, Decode, ReplyTo;
    if !q.Login? {
      CarriesFrame(f, maxSize, q);
      assert [] + Chunk(e) == [] <= f;
      FakeEvent(s, conf, e, h, q, f, [], said + ReplyTo(q, TextFor(q, texts)), maxSize, texts);
    }
  }

  lemma {:induction false} FakeRun(s: State, conf: Conf, events: seq<Event>, h: Hello, q: Packet, f: bytes,
                                   said: bytes, maxSize: int, texts: Texts)
    requires Suits(h, q) && Carries(f, maxSize, q)
    requires forall e <- events :: Feeds(e, maxSize, texts)
    requires Awaits(s, h, [], said) && Chunks(events) <= f
    ensures Stage(Run(s, conf, events), h, q, f, Chunks(events), said, texts)
  {
    hide Carries, Handle, Feeds, Awaits, Answers;
    CarriesFrame(f, maxSize, q);
    if events != [] {
      var before, e := events[..|events| - 1], events[|events| - 1];
      assert Feeds(e, maxSize, texts);
      var u := Chunks(before);
      assert Chunks(events) == u + Chunk(e);
      FakeRun(s, conf, before, h, q, f, said, maxSize, texts);
      var t := Run(s, conf, before);
      if |u| < |f| {
        FakeEvent(t, conf, e, h, q, f, u, said, maxSize, texts);
      } else {
        assert Chunk(e) == [];
        IdleEvent(t, conf, e, h, q, f, u, said, maxSize, texts);
        assert u + Chunk(e) == u;
      }
    }
  }

  // ---------- from the first byte ----------

  /** The hub keeps this client to itself: the record is not dropped, and names no backend or one
      whose name does not resolve in the event. */
  predicate NoBackend(conf: Conf, h: Hello, e: Env) {
    var r := Record(conf, h.address);
    !r.drop && (r.address == "" || r.port == 0 || e.connect.DnsError?)
  }

  predicate Greeting(s: State, u: bytes) {
    && s.fromS.Handshaking? && !s.disconnected && !s.erased
    && s.from.input == u && s.from.Written() == []
  }

  /** After the bytes w of a handshake frame hf and a request frame f. */
  predicate Progress(s: State, h: Hello, hf: bytes, q: Packet, f: bytes, w: bytes, texts: Texts) {
    if |w| < |hf| then Greeting(s, w)
    else Stage(s, h, q, f, w[|hf|..], [], texts)
  }

  /** process_from_request when k bytes of the handshake frame and the request have come. */
  lemma HelloTurn(s: State, conf: Conf, env: Env, h: Hello, hf: bytes, q: Packet, f: bytes, k: nat, texts: Texts)
    requires Suits(h, q) && Carries(hf, env.maxSize, h) && Carries(f, env.maxSize, q)
    requires NoBackend(conf, h, env) && k <= |hf + f|
    requires Greeting(s, (hf + f)[..k]) && Fault !in s.from.sock.answers
    requires TextsOf(env) == texts
    ensures var r := ProcessFrom(s, conf, env);
            && r.Ok? && Fault !in r.value.from.sock.answers && !r.value.erased
            && (k < |hf| ==> r.value == s)
            && (|hf| <= k < |hf + f| ==> Awaits(r.value, h, f[..k - |hf|], []))
            && (k == |hf + f| ==> Answers(r.value, h, q, ReplyTo(q, TextFor(q, texts))))
  {
    hide Decode, ReplyTo, Sent, Carries, HeadOf, Record, RouteName;
    CarriesFrame(hf, env.maxSize, h);
    HeadOnStream(hf, f, k, env.maxSize);
    if k >= |hf| {
      var u := f[..k - |hf|];
      assert (hf + f)[..k] == hf + u && (hf + u)[|hf|..] == u;
      TakesFrame(hf, u, env.maxSize, h);
      var s1 := Admit(s, h, |hf|, conf);
      var s2 := SetFromByHs(s1.(route := s1.route.(record := Record(conf, h.address))));
      assert s2.Ok?;
      assert Start(s1, Record(conf, h.address), conf, env) == ProcessFrom(s2.value, conf, env);
      assert FromHandshake(s, conf, env) == ProcessFrom(s2.value, conf, env);
      FakeTurn(s2.value, conf, env, h, q, f, k - |hf|, [], texts);
      assert [] + ReplyTo(q, TextFor(q, texts)) == ReplyTo(q, TextFor(q, texts));
    }
  }

  lemma HelloEvent(s: State, conf: Conf, e: Event, h: Hello, hf: bytes, q: Packet, f: bytes, w: bytes,
                   maxSize: int, texts: Texts)
    requires Suits(h, q) && Carries(hf, maxSize, h) && Carries(f, maxSize, q) && NoBackend(conf, h, e.env)
    requires Feeds(e, maxSize, texts)
    requires Greeting(s, w) && |w| < |hf| && w + Chunk(e) <= hf + f
    ensures Progress(Handle(s, conf, e), h, hf, q, f, w + Chunk(e), texts)
  {
    hide Carries, ReplyTo, Handle, Sent, ProcessFrom, Take, Record;
    var p := Plug(s, e.env);
    var w' := w + Chunk(e);
    var s1 := if e.mask.readable then OnFrom(p, Received(p.from)).value else p;
    assert s1.from.input == w';
    assert w' == (hf + f)[..|w'|];
    if e.mask.readable {
      HelloTurn(s1, conf, e.env, h, hf, q, f, |w'|, texts);
      var t := ProcessFrom(s1, conf, e.env);
      AfterTurn(s, conf, e, maxSize, texts, t);
      if |w'| >= |hf| {
        assert w'[|hf|..] == f[..|w'| - |hf|];
        assert [] + ReplyTo(q, TextFor(q, texts)) == ReplyTo(q, TextFor(q, texts));
      }
    } else {
      AfterTurn(s, conf, e, maxSize, texts, Ok(p));
    }
  }

  lemma HelloStep(s: State, conf: Conf, e: Event, h: Hello, hf: bytes, q: Packet, f: bytes, w: bytes,
                  maxSize: int, texts: Texts)
    requires Suits(h, q) && Carries(hf, maxSize, h) && Carries(f, maxSize, q) && NoBackend(conf, h, e.env)
    requires Feeds(e, maxSize, texts)
    requires Progress(s, h, hf, q, f, w, texts) && w <= hf + f && w + Chunk(e) <= hf + f
    ensures Progress(Handle(s, conf, e), h, hf, q, f, w + Chunk(e), texts)
  {
    hide Carries, Handle, Feeds, Awaits, Answers, NoBackend, ReplyTo, Chunk;
    CarriesFrame(f, maxSize, q);
    if |w| < |hf| {
      HelloEvent(s, conf, e, h, hf, q, f, w, maxSize, texts);
    } else {
      var u := w[|hf|..];
      assert (w + Chunk(e))[|hf|..] == u + Chunk(e);
      assert (hf + f)[|hf|..] == f;
      if |u| < |f| {
        FakeEvent(s, conf, e, h, q, f, u, [], maxSize, texts);
      } else {
        assert Chunk(e) == [];
        IdleEvent(s, conf, e, h, q, f, u, [], maxSize, texts);
        assert u + Chunk(e) == u;
      }
    }
  }

  /** However a handshake frame and a request frame are cut into arrivals, and however little
      each write takes: after the bytes w of them the hub has said nothing, and after all of
      them it has said its one reply. */
  lemma {:induction false} HelloRun(conf: Conf, events: seq<Event>, h: Hello, hf: bytes, q: Packet, f: bytes,
                                    maxSize: int, texts: Texts)
    requires Suits(h, q) && Carries(hf, maxSize, h) && Carries(f, maxSize, q)
    requires forall e <- events :: Feeds(e, maxSize, texts) && NoBackend(conf, h, e.env)
    requires Chunks(events) <= hf + f
    ensures Progress(Run(Init(conf), conf, events), h, hf, q, f, Chunks(events), texts)
  {
    hide Carries, Handle, Feeds, NoBackend, Progress, Chunk;
    if events == [] {
      StartProgress(conf, h, hf, q, f, maxSize, texts);
    } else {
      var before, e := events[..|events| - 1], events[|events| - 1];
      assert Feeds(e, maxSize, texts) && NoBackend(conf, h, e.env);
      assert Chunks(before) <= Chunks(events);
      HelloRun(conf, before, h, hf, q, f, maxSize, texts);
      HelloStep(Run(Init(conf), conf, before), conf, e, h, hf, q, f, Chunks(before), maxSize, texts);
    }
  }

  lemma StartProgress(conf: Conf, h: Hello, hf: bytes, q: Packet, f: bytes, maxSize: int, texts: Texts)
    requires Carries(hf, maxSize, h)
    ensures Progress(Init(conf), h, hf, q, f, [], texts)
  {
    CarriesFrame(hf, maxSize, h);
  }

  /** Once everything is delivered the client's view is the same for every cut. */
  lemma OneReply(conf: Conf, events: seq<Event>, h: Hello, hf: bytes, q: Packet, f: bytes,
                 maxSize: int, texts: Texts)
    requires Suits(h, q) && Carries(hf, maxSize, h) && Carries(f, maxSize, q)
    requires forall e <- events :: Feeds(e, maxSize, texts) && NoBackend(conf, h, e.env)
    requires Chunks(events) == hf + f
    ensures var s := Run(Init(conf), conf, events);
            && s.from.sent + s.from.output == ReplyTo(q, TextFor(q, texts)) && s.from.input == []
            && (!q.Login? ==> Awaits(s, h, [], ReplyTo(q, TextFor(q, texts))))
  {
    hide Carries, Feeds, Run, NoBackend;
    HelloRun(conf, events, h, hf, q, f, maxSize, texts);
    assert (hf + f)[|hf|..] == f;
    assert [] + ReplyTo(q, TextFor(q, texts)) == ReplyTo(q, TextFor(q, texts));
  }

  /** And each later ping, sent once the reply before it is queued, adds the same ping frame. This
      holds of any hub that answers by itself, also after a backend has failed. */
  lemma LaterPing(s: State, conf: Conf, events: seq<Event>, h: Hello, f: bytes, x: int64, said: bytes,
                  maxSize: int, texts: Texts)
    requires h.state == 1 && Carries(f, maxSize, Ping(x))
    requires forall e <- events :: Feeds(e, maxSize, texts)
    requires Awaits(s, h, [], said) && Chunks(events) == f
    ensures Awaits(Run(s, conf, events), h, [], said + Encode(Ping(x)))
  {
    hide Carries, Feeds, Run;
    FakeRun(s, conf, events, h, Ping(x), f, said, maxSize, texts);
  }
}
