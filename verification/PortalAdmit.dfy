/** What becomes of a client with its handshake: it is dropped, dialled through, or kept by the
    hub, by the record its address selects and by what connecting answers. */
module PortalAdmit {
  import opened VarInts
  import opened Pakets
  import opened Gates
  import opened Records
  import opened Routing
  import opened PortalSpec
  import opened PortalHistory
  import opened PortalCalm

  /** The record names a backend. */
  predicate Dialable(r: BasicRecord) {
    r.address != "" && r.port != 0
  }

  /** A client that asks so is turned away: its record is dropped, connecting fails for another
      reason than its name, or there is no backend to reach and nothing the hub could answer. */
  predicate TurnedAway(conf: Conf, h: Hello, env: Env) {
    var r := Record(conf, h.address);
    || r.drop
    || (Dialable(r) && env.connect.Failed?)
    || ((!Dialable(r) || env.connect.DnsError?) && h.state != 1 && h.state != 2)
  }

  /** Nothing was sent or queued, in either direction, and no backend was asked for. */
  predicate Untold(s: State) {
    s.from.Written() == [] && s.to.Written() == [] && s.toS.Unset? && !s.listening
  }

  /** After the bytes u, of which hf is to come first. */
  predicate Still(s: State, hf: bytes, u: bytes) {
    s.erased || (s.fromS.Handshaking? && s.from.input == u && u < hf)
  }

  // ---------- reading the handshake ----------

  /** A packet limit makes a head broken or leaves it as it is. */
  lemma HeadUnderLimit(b: bytes, maxSize: int)
    ensures HeadOf(b, maxSize).Broken? || HeadOf(b, maxSize) == HeadOf(b, NO_LIMIT)
  {
  }

  /** Under any limit, a front part of the frame is not taken, and the frame is or is refused. */
  lemma TakesHello(u: bytes, hf: bytes, h: Hello, maxSize: int)
    requires Carries(hf, NO_LIMIT, h)
    ensures u < hf ==> !Take(u, AHandshake, maxSize).Took?
    ensures hf <= u ==> Take(u, AHandshake, maxSize).Refused? || Take(u, AHandshake, maxSize) == Took(h, |hf|)
  {
    hide Decode, HeadOf;
    HeadUnderLimit(u, maxSize);
    if hf <= u {
      TakesFrame(hf, u[|hf|..], NO_LIMIT, h);
      assert u == hf + u[|hf|..];
    } else if u < hf {
      assert (hf + [])[..|u|] == u;
      HeadOnStream(hf, [], |u|, NO_LIMIT);
    }
  }

  lemma HelloTurn(s: State, conf: Conf, env: Env, h: Hello, hf: bytes)
    requires Carries(hf, NO_LIMIT, h) && s.fromS.Handshaking?
    requires Comparable(s.from.input, hf)
    ensures var t := ProcessFrom(s, conf, env);
            || t == Throw(s)
            || (s.from.input < hf && t == Ok(s))
            || (hf <= s.from.input && t == Start(Admit(s, h, |hf|, conf), Record(conf, h.address), conf, env))
    ensures hf <= s.from.input && Carries(hf, env.maxSize, h) ==>
              ProcessFrom(s, conf, env) == Start(Admit(s, h, |hf|, conf), Record(conf, h.address), conf, env)
  {
    hide Take, Carries, Start, Record, RouteName;
    TakesHello(s.from.input, hf, h, env.maxSize);
    if hf <= s.from.input && Carries(hf, env.maxSize, h) {
      TakesFrame(hf, s.from.input[|hf|..], env.maxSize, h);
      assert s.from.input == hf + s.from.input[|hf|..];
    }
  }

  // ---------- turned away ----------

  lemma StartThrows(s: State, conf: Conf, env: Env, h: Hello)
    requires s.fromS.Handshaking? && s.hs == h && TurnedAway(conf, h, env) && Untold(s)
    ensures var t := Start(s, Record(conf, h.address), conf, env); t.Throw? && Untold(t.value)
  {
    hide Record, ProcessFrom;
  }

  lemma AwayTurn(s: State, conf: Conf, env: Env, h: Hello, hf: bytes)
    requires Carries(hf, NO_LIMIT, h) && TurnedAway(conf, h, env)
    requires s.fromS.Handshaking? && Untold(s) && Comparable(s.from.input, hf)
    ensures var t := ProcessFrom(s, conf, env);
            Untold(t.value) && (t.Ok? ==> t.value == s && s.from.input < hf)
  {
    hide Carries, ProcessFrom, TurnedAway, Record, RouteName, Start;
    HelloTurn(s, conf, env, h, hf);
    if hf <= s.from.input {
      StartThrows(Admit(s, h, |hf|, conf), conf, env, h);
    }
  }

  lemma AwayReads(s: State, conf: Conf, mask: Mask, env: Env, h: Hello, hf: bytes, u: bytes)
    requires Carries(hf, NO_LIMIT, h) && TurnedAway(conf, h, env)
    requires s.fromS.Handshaking? && Untold(s) && s.from.input < hf && Comparable(u, hf)
    requires u == s.from.input + if mask.readable && s.from.sock.arrival.Arrived? then s.from.sock.arrival.data else []
    ensures var t := TryFrom(s, conf, mask, env);
            Untold(t.value) && (t.Ok? ==> t.value.fromS.Handshaking? && t.value.from.input == u && u < hf)
  {
    hide Carries, ProcessFrom, TurnedAway;
    var s1 := if mask.rdhup then s.(disconnected := true) else s;
    if !mask.err && mask.readable {
      var a := OnFrom(s1, Received(s1.from));
      if a.Ok? {
        AwayTurn(a.value, conf, env, h, hf);
      }
    }
  }

  lemma AwayEvent(s: State, conf: Conf, e: Event, h: Hello, hf: bytes, u: bytes)
    requires Carries(hf, NO_LIMIT, h) && TurnedAway(conf, h, e.env)
    requires Untold(s) && Still(s, hf, u) && Comparable(u + Chunk(e), hf)
    ensures Untold(Handle(s, conf, e)) && Still(Handle(s, conf, e), hf, u + Chunk(e))
  {
    hide Carries, TryFrom, TurnedAway, ProcessFrom;
    assert u + [] == u;
    if !s.erased && e.FromEvent? {
      AwayReads(Plug(s, e.env), conf, e.mask, e.env, h, hf, u + Chunk(e));
    }
  }

  /** A client that is turned away is dropped with the last byte of its handshake, if not before.
      However that is cut into arrivals, whatever follows it and whatever else the environment
      does, no byte is queued for anyone and no backend is asked for. */
  lemma {:induction false} AwayRun(conf: Conf, events: seq<Event>, h: Hello, hf: bytes)
    requires Carries(hf, NO_LIMIT, h) && forall e <- events :: TurnedAway(conf, h, e.env)
    requires Comparable(Chunks(events), hf)
    ensures var s := Run(Init(conf), conf, events);
            && s.from.Written() == [] && s.to.Written() == [] && s.toS.Unset? && !s.listening
            && (s.erased || (s.fromS.Handshaking? && s.from.input == Chunks(events)))
            && (hf <= Chunks(events) ==> s.erased)
  {
    hide Carries, Handle, TurnedAway, Chunk;
    StartsStill(conf, events, h, hf);
  }

  lemma {:induction false} StartsStill(conf: Conf, events: seq<Event>, h: Hello, hf: bytes)
    requires Carries(hf, NO_LIMIT, h) && forall e <- events :: TurnedAway(conf, h, e.env)
    requires Comparable(Chunks(events), hf)
    ensures Untold(Run(Init(conf), conf, events)) && Still(Run(Init(conf), conf, events), hf, Chunks(events))
  {
    hide Carries, Handle, TurnedAway, Chunk;
    if events == [] {
      assert |hf| >= 1 by { Whole(hf, h); }
    } else {
      var before, e := events[..|events| - 1], events[|events| - 1];
      assert Chunks(before) <= Chunks(events);
      StartsStill(conf, before, h, hf);
      AwayEvent(Run(Init(conf), conf, before), conf, e, h, hf, Chunks(before));
    }
  }

  lemma Whole(hf: bytes, h: Hello)
    requires Carries(hf, NO_LIMIT, h)
    ensures |hf| >= 1
  {
  }

  /** Above all a client whose record is dropped, for which the environment is not asked. */
  lemma DroppedRecord(conf: Conf, events: seq<Event>, h: Hello, hf: bytes)
    requires Carries(hf, NO_LIMIT, h) && Comparable(Chunks(events), hf)
    requires Record(conf, h.address).drop
    ensures var s := Run(Init(conf), conf, events);
            && s.from.Written() == [] && s.to.Written() == [] && s.toS.Unset? && !s.listening
            && (hf <= Chunks(events) ==> s.erased)
  {
    hide Carries, Run, Record;
    AwayRun(conf, events, h, hf);
  }

  // ---------- let in ----------

  /** The event that completes the handshake, with or without more behind it. */
  predicate Completes(s: State, e: Event, h: Hello, hf: bytes, rest: bytes) {
    && !s.erased && s.fromS.Handshaking? && Carries(hf, e.env.maxSize, h)
    && e.FromEvent? && e.mask.readable && !e.mask.err && e.env.fromSock.arrival.Arrived?
    && s.from.input + e.env.fromSock.arrival.data == hf + rest
  }

  lemma StartTurn(s: State, conf: Conf, env: Env, h: Hello, hf: bytes, rest: bytes)
    requires s.fromS.Handshaking? && Carries(hf, env.maxSize, h) && s.from.input == hf + rest
    ensures var a := Admit(s, h, |hf|, conf);
            && a.from.input == rest && a.from.output == s.from.output && a.from.sent == s.from.sent
            && ProcessFrom(s, conf, env) == Start(a, Record(conf, h.address), conf, env)
  {
    hide Take, Carries, Start, Record, RouteName;
    TakesFrame(hf, rest, env.maxSize, h);
    assert (hf + rest)[|hf|..] == rest;
  }

  /** The state in which an event's arrival is looked at. */
  function WhenRead(s: State, e: Event, data: bytes): State
    requires e.FromEvent?
  {
    var p := Plug(s, e.env);
    var g := Feed(p.from.(sock := p.from.sock.(arrival := Arrived([]))), data, true);
    p.(from := g, disconnected := p.disconnected || e.mask.rdhup)
  }

  /** What an event on the client's socket leaves when handling what it brought does not throw. */
  lemma ReadTurn(s: State, conf: Conf, e: Event, data: bytes, c: State)
    requires !s.erased && e.FromEvent? && e.mask.readable && !e.mask.err && e.env.fromSock.arrival == Arrived(data)
    requires ProcessFrom(WhenRead(s, e, data), conf, e.env) == Ok(c) && Fault !in c.from.sock.answers
    ensures var r := Handle(s, conf, e);
            && r == c.(from := r.from, erased := c.disconnected)
            && r.from.Written() == c.from.Written() && r.from.input == c.from.input
            && r.from.used == c.from.used && c.from.sent <= r.from.sent
  {
    hide ProcessFrom, Sent;
    QuietSend(c.from);
    SentKeeps(c.from);
  }

  /** Its record names a backend and connecting starts: the client waits for it, with all that
      came behind the handshake unread. */
  lemma Dialled(s: State, conf: Conf, e: Event, h: Hello, hf: bytes, rest: bytes)
    requires Completes(s, e, h, hf, rest)
    requires !Record(conf, h.address).drop && Dialable(Record(conf, h.address)) && e.env.connect.Started?
    requires Fault !in e.env.fromSock.answers
    ensures var r := Handle(s, conf, e);
            && r.fromS.Waiting? && r.toS.Connecting? && r.listening
            && r.hs == h && r.from.input == rest && r.nickname == s.nickname
            && r.route == Route(RouteName(h.address, conf.domain), Record(conf, h.address))
            && r.from.Written() == s.from.Written() && r.to.Written() == s.to.Written()
            && r.erased == r.disconnected == (s.disconnected || e.mask.rdhup)
  {
    hide Carries, Record, RouteName, ProcessFrom, Handle;
    var a := WhenRead(s, e, e.env.fromSock.arrival.data);
    StartTurn(a, conf, e.env, h, hf, rest);
    ReadTurn(s, conf, e, e.env.fromSock.arrival.data, ProcessFrom(a, conf, e.env).value);
  }

  lemma NothingToAnswer(s: State, conf: Conf, env: Env)
    requires s.from.input == [] && (s.fromS.StatusFake? || s.fromS.LoginFake?)
    ensures ProcessFrom(s, conf, env) == Ok(s)
  {
  }

  lemma StartKept(s: State, conf: Conf, env: Env)
    requires s.fromS.Handshaking? && s.from.input == [] && (s.hs.state == 1 || s.hs.state == 2)
    requires !Record(conf, s.hs.address).drop
    requires !Dialable(Record(conf, s.hs.address)) || env.connect.DnsError?
    ensures Start(s, Record(conf, s.hs.address), conf, env)
         == Ok(s.(route := s.route.(record := Record(conf, s.hs.address)),
                  fromS := if s.hs.state == 1 then StatusFake else LoginFake, past := s.past.(fellBack := true)))
  {
    hide Record, ProcessFrom;
    NothingToAnswer(SetFromByHs(s.(route := s.route.(record := Record(conf, s.hs.address)))).value, conf, env);
  }

  /** Its record names none, or one whose name does not resolve: the hub keeps it, to answer it by
      the state it asked for. */
  lemma KeptByHub(s: State, conf: Conf, e: Event, h: Hello, hf: bytes)
    requires Completes(s, e, h, hf, [])
    requires !Record(conf, h.address).drop && (h.state == 1 || h.state == 2)
    requires !Dialable(Record(conf, h.address)) || e.env.connect.DnsError?
    requires Fault !in e.env.fromSock.answers
    ensures var r := Handle(s, conf, e);
            && r.fromS == (if h.state == 1 then StatusFake else LoginFake) && r.past.fellBack
            && r.toS == s.toS && r.listening == s.listening
            && r.hs == h && r.from.input == [] && r.nickname == s.nickname
            && r.route == Route(RouteName(h.address, conf.domain), Record(conf, h.address))
            && r.from.Written() == s.from.Written() && r.to.Written() == s.to.Written()
            && r.erased == r.disconnected == (s.disconnected || e.mask.rdhup)
  {
    hide Carries, Record, RouteName, ProcessFrom, Handle, Start;
    var a := WhenRead(s, e, e.env.fromSock.arrival.data);
    StartTurn(a, conf, e.env, h, hf, []);
    StartKept(Admit(a, h, |hf|, conf), conf, e.env);
    ReadTurn(s, conf, e, e.env.fromSock.arrival.data, ProcessFrom(a, conf, e.env).value);
  }
}
