/** What a client and a backend see of the hub, over every run. */
module PortalTheorems {
  import opened VarInts
  import opened Pakets
  import opened Gates
  import opened Records
  import opened PortalSpec
  import opened PortalInv
  import opened PortalHistory

  /** The client's bytes behind its handshake. */
  function AfterHandshake(s: State): bytes
    requires |s.past.hsFrame| <= |s.from.received|
  {
    s.from.received[|s.past.hsFrame|..]
  }

  // ---------- state machine ----------

  /** from_s and to_s only ever form the listed pairs, and neither "illegal state" exception is
      ever thrown, not even inside a handler. */
  lemma StatesPaired(conf: Conf, events: seq<Event>)
    ensures var s := Run(Init(conf), conf, events);
            Paired(s.fromS, s.toS) && !s.past.illegal
  {
    RunRests(conf, events);
  }

  /** Once stable, a client is never taken over again. */
  lemma {:induction false} StableStays(s: State, conf: Conf, events: seq<Event>)
    requires Resting(s) && s.fromS.Stable?
    ensures var r := Run(s, conf, events);
            Resting(r) && r.fromS.Stable? && r.toS.Stable? && r.past.fellBack == s.past.fellBack
  {
    InvSides(s);
    if events != [] {
      var before := events[..|events| - 1];
      StableStays(s, conf, before);
      var t, e := Run(s, conf, before), events[|events| - 1];
      HandleKeeps(t, conf, e);
      StableStep(t, conf, e);
    }
  }

  predicate BothStable(s: State, fellBack: bool) {
    s.fromS.Stable? && s.toS.Stable? && s.past.fellBack == fellBack
  }

  lemma StableProcess(s: State, conf: Conf, env: Env)
    requires s.fromS.Stable? && s.toS.Stable?
    ensures BothStable(ProcessFrom(s, conf, env).value, s.past.fellBack)
    ensures BothStable(ProcessTo(s).value, s.past.fellBack)
  {
    hide Sent;
  }

  lemma StableFrom(s: State, conf: Conf, mask: Mask, env: Env)
    requires s.fromS.Stable? && s.toS.Stable?
    ensures BothStable(FromEventStep(s, conf, mask, env), s.past.fellBack)
  {
    hide Sent, Received, ProcessFrom;
    var s1 := if mask.rdhup then s.(disconnected := true) else s;
    StableProcess(OnFrom(s1, Received(s1.from)).value, conf, env);
  }

  lemma StableReadable(s: State)
    requires s.fromS.Stable? && s.toS.Stable?
    ensures BothStable(ToReadable(s).value, s.past.fellBack)
  {
    hide Sent, Received;
  }

  lemma StableWritable(s: State, conf: Conf, env: Env)
    requires s.fromS.Stable? && s.toS.Stable?
    ensures BothStable(ToWritable(s, conf, env).value, s.past.fellBack)
  {
    hide Sent, ProcessFrom, SetFromByHs, SendHello;
    var s1 := OnTo(s, Sent(s.to)).value;
    StableProcess(s1.(toS := Stable, fromS := Stable), conf, env);
  }

  lemma StableTo(s: State, conf: Conf, mask: Mask, env: Env)
    requires s.fromS.Stable? && s.toS.Stable?
    ensures BothStable(ToEventStep(s, conf, mask, env).value, s.past.fellBack)
  {
    hide ToReadable, ToWritable, SetFromByHs, SendHello, ProcessFrom;
    var s1 := if mask.rdhup then s.(disconnected := true) else s;
    var s2 := if mask.hup then s1.(disconnected := true) else s1;
    StableReadable(s2);
    StableWritable(s2, conf, env);
    StableWritable(ToReadable(s2).value, conf, env);
  }

  lemma StableStep(s: State, conf: Conf, e: Event)
    requires s.fromS.Stable? && s.toS.Stable?
    ensures BothStable(Handle(s, conf, e), s.past.fellBack)
  {
    hide FromEventStep, ToEventStep, SetFromByHs;
    var p := Plug(s, e.env);
    match e
    case FromEvent(mask, env) => StableFrom(p, conf, mask, env);
    case ToEvent(mask, env) => StableTo(p, conf, mask, env);
    case Timeout(_) =>
  }

  // ---------- forward ----------

  /** What a stream to the backend is made of: the handshake, re-encoded, and then every byte the
      client sent after its own handshake, its login frame re-encoded if one was read. */
  ghost predicate ClientStream(s: State, stream: bytes) {
    var p := s.past;
    && p.hsFrame <= s.from.received && Carries(p.hsFrame, NO_LIMIT, s.hs)
    && var rest := AfterHandshake(s);
    && (p.loginFrame == [] ==> stream == Encode(s.hs) + rest)
    && (p.loginFrame != [] ==>
          && s.hs.state != 1 && p.loginFrame <= rest
          && p.login.Login? && Carries(p.loginFrame, NO_LIMIT, p.login)
          && stream == Encode(s.hs) + (Encode(p.login) + rest[|p.loginFrame|..])
          && (p.loginFrame == Encode(p.login) ==> stream == Encode(s.hs) + rest))
  }

  /** Bytes sent to the backend, bytes waiting to be sent and bytes not yet passed on. */
  ghost predicate Forwards(s: State) {
    ClientStream(s, s.to.sent + s.to.output + s.from.input)
  }

  /** Transparent forwarding, in every run that queues one handshake, for as long as the hub
      has not taken the client over; once stable, nothing of the client's is left unread. */
  lemma Transparent(conf: Conf, events: seq<Event>)
    requires TotalGreetings(conf, events) == 1
    ensures var s := Run(Init(conf), conf, events);
            Proxied(s.fromS) && !s.past.fellBack ==>
              Forwards(s) && (s.fromS.Stable? ==> ClientStream(s, s.to.sent + s.to.output))
  {
    hide Inv, Forwards, ClientStream;
    RunRests(conf, events);
    RunDrains(conf, events);
    var s := Run(Init(conf), conf, events);
    if Proxied(s.fromS) && !s.past.fellBack {
      NotTakenClean(s);
      ForwardsState(s);
      StableForwards(s);
    }
  }

  lemma NotTakenClean(s: State)
    requires Inv(s) && s.past.hellos == 1 && Proxied(s.fromS) && !s.past.fellBack
    ensures Clean(s.past)
  {
    hide Told, Unmixed, Basics, Greeted, Meaning;
    assert Paired(s.fromS, s.toS) by { InvSides(s); }
  }

  lemma StableForwards(s: State)
    requires Forwards(s) && Drained(s)
    ensures s.fromS.Stable? ==> ClientStream(s, s.to.sent + s.to.output)
  {
    hide ClientStream;
    assert s.to.sent + s.to.output + [] == s.to.sent + s.to.output;
  }

  /** Of the runs that queue one handshake, after whatever the hub answered itself, the ones that
      forward the client's stream are exactly those in which, at that moment, what waited was all
      the client had sent. If the hub had answered nothing by then, those are exactly the runs in
      which it had put nothing of its own into the input. */
  lemma OneGreetingExactly(conf: Conf, events: seq<Event>)
    requires TotalGreetings(conf, events) == 1
    ensures var s := Run(Init(conf), conf, events);
            Proxied(s.fromS) ==>
              && (Forwards(s) <==> Clean(s.past))
              && (s.past.earlier == [] ==> (Clean(s.past) <==> s.past.own == []))
  {
    hide Inv, Run, TotalGreetings;
    RunRests(conf, events);
    var s := Run(Init(conf), conf, events);
    if Proxied(s.fromS) {
      OneGreetingState(s);
    }
  }

  lemma OneGreetingState(s: State)
    requires Inv(s) && s.past.hellos == 1 && Proxied(s.fromS)
    ensures Forwards(s) <==> Clean(s.past)
    ensures s.past.earlier == [] ==> (Clean(s.past) <==> s.past.own == [])
  {
    hide Inv, Forwards, Clean;
    if Clean(s.past) {
      ForwardsState(s);
    } else if Forwards(s) {
      ForwardsClean(s);
    }
    if s.past.earlier == [] {
      CleanState(s);
    }
  }

  lemma CleanState(s: State)
    requires Inv(s) && s.past.hellos == 1 && Proxied(s.fromS) && s.past.earlier == []
    ensures Clean(s.past) <==> s.past.own == []
  {
    hide Told, Unmixed, Basics, Greeted, Meaning;
    assert Paired(s.fromS, s.toS) by { InvSides(s); }
  }

  /** The equation behind forwarding after one handshake. */
  lemma ProxiedFlow(s: State)
    requires Inv(s) && s.past.hellos == 1 && Proxied(s.fromS)
    ensures var p := s.past;
            && p.hsFrame <= p.got && p.got <= s.from.received && p.hsFrame != []
            && p.loginFrame + p.raw + s.from.input == p.waiting + s.from.received[|p.got|..]
            && s.to.sent + s.to.output == Encode(s.hs) + (p.loginOut + p.raw)
            && (s.hs.state == 1 ==> p.loginFrame == [] && p.loginOut == [])
            && AfterHandshake(s) == p.got[|p.hsFrame|..] + s.from.received[|p.got|..]
  {
    hide Told, Unmixed, Clean, Carries, Answered, Encode;
    assert Paired(s.fromS, s.toS) by { InvSides(s); }
    var p := s.past;
    assert s.from.received == p.got + s.from.received[|p.got|..];
    assert p.got == p.hsFrame + p.got[|p.hsFrame|..];
  }

  lemma ForwardsState(s: State)
    requires Inv(s) && s.past.hellos == 1 && Proxied(s.fromS) && Clean(s.past)
    ensures Forwards(s)
  {
    hide Flow, Carries, Encode, Answered;
    var p := s.past;
    ProxiedFlow(s);
    var rest := AfterHandshake(s);
    Assoc(p.loginFrame, p.raw, s.from.input);
    assert rest == p.loginFrame + (p.raw + s.from.input);
    Assoc(Encode(s.hs), p.loginOut + p.raw, s.from.input);
    Assoc(p.loginOut, p.raw, s.from.input);
    assert rest[|p.loginFrame|..] == p.raw + s.from.input;
    if p.loginFrame == [] {
      assert p.loginOut + (p.raw + s.from.input) == p.raw + s.from.input == rest;
    }
  }

  lemma ForwardsClean(s: State)
    requires Inv(s) && s.past.hellos == 1 && Proxied(s.fromS) && Forwards(s)
    ensures Clean(s.past)
  {
    hide Flow, Carries, Encode, Answered;
    var p := s.past;
    ProxiedFlow(s);
    var rest := AfterHandshake(s);
    var hello, tail := Encode(s.hs), p.raw + s.from.input;
    Assoc(p.loginOut, p.raw, s.from.input);
    Assoc(hello, p.loginOut + p.raw, s.from.input);
    Cancel(hello, p.loginOut + tail, if p.loginFrame == [] then rest else Encode(p.login) + rest[|p.loginFrame|..]);
    if p.loginFrame == [] {
      assert p.loginOut + tail == tail;
      assert p.loginFrame + p.raw + s.from.input == tail;
    } else {
      Cancel(p.loginOut, tail, rest[|p.loginFrame|..]);
      Assoc(p.loginFrame, p.raw, s.from.input);
      assert rest == p.loginFrame + tail;
    }
    CancelBack(p.waiting, p.got[|p.hsFrame|..], s.from.received[|p.got|..]);
  }

  lemma Cancel(a: bytes, b: bytes, c: bytes)
    requires a + b == a + c
    ensures b == c
  {
    assert b == (a + b)[|a|..] && c == (a + c)[|a|..];
  }

  lemma CancelBack(a: bytes, b: bytes, c: bytes)
    requires a + c == b + c
    ensures a == b
  {
    assert |a + c| == |b + c|;
    assert a == (a + c)[..|a|] && b == (b + c)[..|b|];
  }

  /** Counting decides how often a joined backend was queued the handshake: exactly once before
      what was relayed if one greeting branch was taken in the whole run, and only then. What was
      relayed is then from the front of what waited and what the client has sent since. */
  lemma GreetedOnce(conf: Conf, events: seq<Event>)
    ensures var s := Run(Init(conf), conf, events); var p := s.past;
            Joined(s.toS) ==>
              && (s.to.Written() == Encode(s.hs) + p.relayed <==> TotalGreetings(conf, events) == 1)
              && (TotalGreetings(conf, events) == 1 ==>
                    && p.got <= s.from.received && p.relayed == p.loginOut + p.raw
                    && p.loginFrame + p.raw <= p.waiting + s.from.received[|p.got|..])
  {
    RunRests(conf, events);
    var s := Run(Init(conf), conf, events);
    hide Told, Unmixed, Basics, Carries, Answered, Encode, Clean, Meant;
    if Joined(s.toS) {
      GreetingBytes(s);
    }
  }

  lemma GreetingBytes(s: State)
    requires Inv(s) && Joined(s.toS)
    ensures s.to.Written() == Encode(s.hs) + s.past.relayed <==> s.past.hellos == 1
  {
    hide Relayed, Told, Unmixed, Basics, Carries, Answered, Encode;
    var h, n := s.past.hellos, |Encode(s.hs)|;
    SlackSuffices(s.hs);
    assert n > 0;
    if h >= 2 {
      TimesTwo(h, n);
    }
  }

  lemma TimesTwo(h: nat, n: nat)
    requires h >= 2
    ensures h * n >= 2 * n
  {
  }

  /** Exactly when forwarding is transparent for a client that was never taken over and writes
      login frames as this library does: one greeting branch was taken in the run, no more. */
  lemma TransparentExactly(conf: Conf, events: seq<Event>)
    ensures var s := Run(Init(conf), conf, events);
            Proxied(s.fromS) && !s.past.fellBack && s.past.plain ==>
              && s.past.hsFrame <= s.from.received
              && (s.fromS.Stable? ==> s.from.input == [])
              && (s.to.sent + s.to.output + s.from.input == Encode(s.hs) + AfterHandshake(s) <==>
                  TotalGreetings(conf, events) == 1)
  {
    hide Inv, Run, TotalGreetings;
    RunRests(conf, events);
    RunDrains(conf, events);
    var s := Run(Init(conf), conf, events);
    if Proxied(s.fromS) && !s.past.fellBack && s.past.plain {
      PlainState(s);
    }
  }

  lemma PlainState(s: State)
    requires Inv(s) && Proxied(s.fromS) && !s.past.fellBack && s.past.plain
    ensures s.past.hsFrame <= s.from.received
    ensures s.to.sent + s.to.output + s.from.input == Encode(s.hs) + AfterHandshake(s) <==> s.past.hellos == 1
  {
    hide Flow, Carries, Answered, Encode, Forwards;
    PlainLengths(s);
    SlackSuffices(s.hs);
    var h, n := s.past.hellos, |Encode(s.hs)|;
    if h == 1 {
      NotTakenClean(s);
      ForwardsState(s);
      ForwardsPlain(s);
    } else if h >= 2 {
      TimesTwo(h, n);
    }
  }

  lemma ForwardsPlain(s: State)
    requires Forwards(s) && s.past.loginFrame == s.past.loginOut && Meaning(s)
    ensures s.to.sent + s.to.output + s.from.input == Encode(s.hs) + AfterHandshake(s)
  {
    hide Carries, Answered, Encode;
  }

  lemma PlainLengths(s: State)
    requires Inv(s) && Proxied(s.fromS) && !s.past.fellBack && s.past.plain
    ensures s.past.hellos >= 1 && s.past.hsFrame <= s.from.received
    ensures |s.to.Written()| == s.past.greeting + |s.past.relayed|
    ensures |s.from.received| == |s.past.hsFrame| + |s.past.relayed| + |s.from.input|
    ensures s.past.loginFrame == s.past.loginOut
  {
    hide Kept, Frames, Replies, Relayed, Told, Meaning;
    assert Paired(s.fromS, s.toS) by { InvSides(s); }
  }

  /** What was put on the wire when one handshake was queued, and all that the client had sent
      waited then, stays a prefix of the client's stream, also after the hub has taken the client
      over. */
  lemma SentStaysPrefix(conf: Conf, events: seq<Event>)
    requires TotalGreetings(conf, events) == 1
    ensures var s := Run(Init(conf), conf, events); var p := s.past;
            Joined(s.toS) && Clean(p) ==>
              && p.hsFrame + p.loginFrame <= s.from.received
              && s.to.sent <= Encode(s.hs) + p.loginOut + s.from.received[|p.hsFrame + p.loginFrame|..]
  {
    hide Inv, Clean;
    RunRests(conf, events);
    var s := Run(Init(conf), conf, events);
    if Joined(s.toS) && Clean(s.past) {
      PrefixState(s);
    }
  }

  lemma PrefixState(s: State)
    requires Inv(s) && s.past.hellos == 1 && Joined(s.toS) && Clean(s.past)
    ensures var p := s.past;
            && p.hsFrame + p.loginFrame <= s.from.received
            && s.to.sent <= Encode(s.hs) + p.loginOut + s.from.received[|p.hsFrame + p.loginFrame|..]
  {
    hide Unmixed, Told, Carries, Answered, Encode, Kept;
    var p, r := s.past, s.from.received;
    assert r == p.got + r[|p.got|..] && p.got == p.hsFrame + p.waiting;
    Assoc(p.hsFrame, p.waiting, r[|p.got|..]);
    var rest := p.waiting + r[|p.got|..];
    var tail := rest[|p.loginFrame + p.raw|..];
    assert rest == p.loginFrame + p.raw + tail;
    Assoc(p.loginFrame, p.raw, tail);
    Assoc(p.hsFrame, p.loginFrame, p.raw + tail);
    var head := p.hsFrame + p.loginFrame;
    assert r == head + (p.raw + tail);
    Cancel(head, p.raw + tail, r[|head|..]);
    Assoc(p.hello, p.loginOut, p.raw);
    Assoc(p.hello + p.loginOut, p.raw, tail);
    var queued := p.hello + p.loginOut + p.raw;
    assert s.to.sent + s.to.output == queued;
    assert s.to.sent <= queued <= queued + tail;
  }

  /** Of all runs with one greeting, also after a fallback, those in which all that was queued for
      the backend is from the client's stream are exactly those in which what was relayed is from
      the front of the client's bytes behind its handshake. */
  lemma PrefixExactly(conf: Conf, events: seq<Event>)
    requires TotalGreetings(conf, events) == 1
    ensures var s := Run(Init(conf), conf, events); var p := s.past;
            Joined(s.toS) ==>
              && p.hsFrame <= s.from.received
              && (p.loginFrame + p.raw <= AfterHandshake(s) <==>
                    && p.hsFrame + p.loginFrame <= s.from.received
                    && s.to.sent + s.to.output
                         <= Encode(s.hs) + p.loginOut + s.from.received[|p.hsFrame + p.loginFrame|..])
  {
    hide Inv;
    RunRests(conf, events);
    var s := Run(Init(conf), conf, events);
    if Joined(s.toS) {
      PrefixOf(s);
    }
  }

  lemma PrefixOf(s: State)
    requires Inv(s) && s.past.hellos == 1 && Joined(s.toS)
    ensures var p := s.past;
            && p.hsFrame <= s.from.received
            && (p.loginFrame + p.raw <= AfterHandshake(s) <==>
                  && p.hsFrame + p.loginFrame <= s.from.received
                  && s.to.sent + s.to.output
                       <= Encode(s.hs) + p.loginOut + s.from.received[|p.hsFrame + p.loginFrame|..])
  {
    hide Unmixed, Told, Carries, Answered, Encode, Kept, Clean;
    var p, r := s.past, s.from.received;
    Assoc(p.hello, p.loginOut, p.raw);
    assert s.to.sent + s.to.output == p.hello + p.loginOut + p.raw;
    PrefixCut(p.hsFrame, p.loginFrame, p.raw, r, Encode(s.hs) + p.loginOut);
  }

  lemma PrefixCut(a: bytes, b: bytes, c: bytes, r: bytes, x: bytes)
    requires a <= r
    ensures b + c <= r[|a|..] <==> a + b <= r && x + c <= x + r[|a + b|..]
  {
    var rest := r[|a|..];
    assert r == a + rest;
    if b + c <= rest {
      var tail := rest[|b + c|..];
      assert rest == b + c + tail;
      Assoc(b, c, tail);
      Assoc(a, b, c + tail);
      assert r == a + b + (c + tail);
      Cancel(a + b, r[|a + b|..], c + tail);
      Assoc(x, c, tail);
    }
    if a + b <= r && x + c <= x + r[|a + b|..] {
      var tail := r[|a + b|..];
      assert r == a + b + tail;
      Assoc(a, b, tail);
      Cancel(a, rest, b + tail);
      var y := (x + tail)[|x + c|..];
      assert x + tail == x + c + y;
      Assoc(x, c, y);
      Cancel(x, tail, c + y);
      Assoc(b, c, y);
      assert rest == b + c + y;
    }
  }

  // ---------- backward ----------

  /** Nothing that a joined backend has sent is left unread, nor anything of a stable client. */
  lemma {:induction false} RunDrains(conf: Conf, events: seq<Event>)
    ensures Drained(Run(Init(conf), conf, events))
  {
    hide Drained, Handle, Resting;
    if events == [] {
      InitDrained(conf);
    } else {
      var before := events[..|events| - 1];
      RunDrains(conf, before);
      RunRests(conf, before);
      var s := Run(Init(conf), conf, before);
      RestingSides(s);
      HandleDrains(s, conf, events[|events| - 1]);
    }
  }

  lemma InitDrained(conf: Conf)
    ensures Drained(Init(conf))
  {
  }

  lemma RestingSides(s: State)
    requires Resting(s)
    ensures s.listening ==> s.toS.Connecting? || Joined(s.toS)
    ensures s.listening ==> !s.fromS.Handshaking?
  {
    hide Flow, Meant;
    InvSides(s);
  }

  /** Reverse conservation, in every run and however often the backend was greeted: until the
      hub takes the client over, what the client was sent, what waits to be sent to it and what
      the backend sent while still connecting are the backend's bytes, in order. Once it is
      joined, all of them were passed on. */
  lemma ReverseConserved(conf: Conf, events: seq<Event>)
    ensures var s := Run(Init(conf), conf, events);
            !s.past.fellBack ==>
              && s.from.sent + s.from.output + s.to.input == s.to.received
              && (Joined(s.toS) ==> s.from.sent + s.from.output == s.to.received)
  {
    RunRests(conf, events);
    RunDrains(conf, events);
    var s := Run(Init(conf), conf, events);
    hide Kept, Frames, Replies, Relayed, Told, Carries, Answered, Encode;
    if !s.past.fellBack {
      assert Unmixed(s) && Basics(s);
      assert s.from.sent + s.from.output == s.to.used;
      assert s.to.used + s.to.input == s.to.received;
      assert s.to.used + [] == s.to.used;
    }
  }

  // ---------- the hub's own part ----------

  /** The i-th reply was queued in the j-th event, and made from its texts. */
  ghost predicate RepliedIn(conf: Conf, events: seq<Event>, i: nat, j: nat)
    requires i < |Run(Init(conf), conf, events).past.Replied()|
  {
    && j < |events|
    && |Run(Init(conf), conf, events[..j]).past.Replied()| <= i
    && i < |Run(Init(conf), conf, events[..j + 1]).past.Replied()|
    && var x := Run(Init(conf), conf, events).past.Replied()[i];
    && x.text == TextFor(x.request, TextsOf(events[j].env))
  }

  /** The i-th packet of the hub's own went into the input in the j-th event: what the client was
      to be asked when that event came. */
  ghost predicate InjectedIn(conf: Conf, events: seq<Event>, i: nat, j: nat)
    requires i < |Run(Init(conf), conf, events).past.injected|
  {
    && j < |events|
    && |Run(Init(conf), conf, events[..j]).past.injected| <= i
    && i < |Run(Init(conf), conf, events[..j + 1]).past.injected|
    && Run(Init(conf), conf, events).past.injected[i] == Asked(Run(Init(conf), conf, events[..j]))
  }

  lemma LastEvent(conf: Conf, events: seq<Event>)
    requires events != []
    ensures var s, e := Run(Init(conf), conf, events[..|events| - 1]), events[|events| - 1];
            && Run(Init(conf), conf, events) == Handle(s, conf, e)
            && Later(s, Run(Init(conf), conf, events), e.env, Asked(s))
  {
    hide Handle, Later, Resting;
    var before := events[..|events| - 1];
    RunRests(conf, before);
    RestingSides(Run(Init(conf), conf, before));
    HandleLater(Run(Init(conf), conf, before), conf, events[|events| - 1]);
  }

  lemma {:induction false} ReplyTold(conf: Conf, events: seq<Event>, i: nat) returns (j: nat)
    requires i < |Run(Init(conf), conf, events).past.Replied()|
    ensures RepliedIn(conf, events, i, j)
    decreases |events|
  {
    hide Run, Handle;
    assert events != [] by { EmptyRun(conf, events); }
    var n := |events| - 1;
    var before := events[..n];
    LastEvent(conf, events);
    assert events[..n + 1] == events;
    if i < |Run(Init(conf), conf, before).past.Replied()| {
      j := ReplyTold(conf, before, i);
      assert before[..j] == events[..j] && before[..j + 1] == events[..j + 1];
    } else {
      j := n;
    }
  }

  lemma EmptyRun(conf: Conf, events: seq<Event>)
    ensures events == [] ==>
              var p := Run(Init(conf), conf, events).past; p.Replied() == [] && p.injected == []
  {
  }

  lemma {:induction false} InjectionTold(conf: Conf, events: seq<Event>, i: nat) returns (j: nat)
    requires i < |Run(Init(conf), conf, events).past.injected|
    ensures InjectedIn(conf, events, i, j)
    decreases |events|
  {
    hide Run, Handle, Asked;
    assert events != [] by { EmptyRun(conf, events); }
    var n := |events| - 1;
    var before := events[..n];
    LastEvent(conf, events);
    assert events[..n + 1] == events;
    if i < |Run(Init(conf), conf, before).past.injected| {
      j := InjectionTold(conf, before, i);
      assert before[..j] == events[..j] && before[..j + 1] == events[..j + 1];
    } else {
      j := n;
    }
  }

  /** The i-th reply answers a whole frame, as its request asks for and with the text that was
      resolved in the event that queued it. */
  ghost predicate ToldIn(conf: Conf, events: seq<Event>, i: nat)
    requires i < |Run(Init(conf), conf, events).past.Replied()|
  {
    var x := Run(Init(conf), conf, events).past.Replied()[i];
    && Carries(x.frame, NO_LIMIT, x.request)
    && x.reply == ReplyTo(x.request, x.text)
    && exists j :: RepliedIn(conf, events, i, j)
  }

  ghost predicate RepliesTold(conf: Conf, events: seq<Event>) {
    forall i :: 0 <= i < |Run(Init(conf), conf, events).past.Replied()| ==> ToldIn(conf, events, i)
  }

  lemma ReplyAnswers(conf: Conf, events: seq<Event>, i: nat)
    requires i < |Run(Init(conf), conf, events).past.Replied()|
    ensures ToldIn(conf, events, i)
  {
    hide Run, Flow, Carries, Encode, ReplyTo, RepliedIn;
    RunRests(conf, events);
    var replied := Run(Init(conf), conf, events).past.Replied();
    assert replied[i] in replied;
    assert Answered(replied[i]);
    var j := ReplyTold(conf, events, i);
  }

  /** So do all, in every run. */
  lemma RepliesAnswer(conf: Conf, events: seq<Event>)
    ensures RepliesTold(conf, events)
  {
    hide Run, ToldIn;
    forall i | 0 <= i < |Run(Init(conf), conf, events).past.Replied()| ensures ToldIn(conf, events, i) {
      ReplyAnswers(conf, events, i);
    }
  }

  lemma OwnState(s: State)
    requires Resting(s)
    ensures |s.from.origin| == |s.from.Fed()|
    ensures Kept(s.from.Fed(), s.from.origin, true) == s.from.received
    ensures Kept(s.from.Fed(), s.from.origin, false) == Asks(s.past.injected)
  {
    hide Kept, Asks, Meant, Idle, Greeted, Relayed, Told, Unmixed;
  }

  lemma InjectionKind(conf: Conf, events: seq<Event>, i: nat, j: nat)
    requires i < |Run(Init(conf), conf, events).past.injected| && InjectedIn(conf, events, i, j)
    ensures var q := Run(Init(conf), conf, events).past.injected[i]; q.Request? || q.Login?
  {
    hide Run;
  }

  /** The i-th packet the hub put into the client's input itself is what the client was to be
      asked with when that event came. */
  ghost predicate Own(conf: Conf, events: seq<Event>, i: nat)
    requires i < |Run(Init(conf), conf, events).past.injected|
  {
    var q := Run(Init(conf), conf, events).past.injected[i];
    (q.Request? || q.Login?) && exists j :: InjectedIn(conf, events, i, j)
  }

  ghost predicate InjectionsTold(conf: Conf, events: seq<Event>) {
    forall i :: 0 <= i < |Run(Init(conf), conf, events).past.injected| ==> Own(conf, events, i)
  }

  lemma OwnPackets(conf: Conf, events: seq<Event>)
    ensures InjectionsTold(conf, events)
  {
    hide Run, InjectedIn;
    forall i | 0 <= i < |Run(Init(conf), conf, events).past.injected| ensures Own(conf, events, i) {
      var j := InjectionTold(conf, events, i);
      InjectionKind(conf, events, i, j);
    }
  }

  /** In every run the bytes in the client's input which did not come from the client are their encodings. */
  lemma OwnBytes(conf: Conf, events: seq<Event>)
    ensures var s := Run(Init(conf), conf, events);
            && |s.from.origin| == |s.from.Fed()|
            && Kept(s.from.Fed(), s.from.origin, true) == s.from.received
            && Kept(s.from.Fed(), s.from.origin, false) == Asks(s.past.injected)
  {
    hide Run, Kept, Asks, Resting;
    RunRests(conf, events);
    OwnState(Run(Init(conf), conf, events));
  }

  // ---------- fallback ----------

  /** Fallback conservation, in every run: while nothing has joined the backend, nothing was put
      on its wire; the client's bytes are all there in order, with the hub's own packets between
      them; and its whole output is one reply for each frame used up, in order, each what its
      request asks for. */
  lemma FallbackConserved(conf: Conf, events: seq<Event>)
    ensures var s := Run(Init(conf), conf, events); var p := s.past;
            !Joined(s.toS) ==>
              && s.to.sent == []
              && s.from.Fed() == p.hsFrame + Frames(p.Replied()) + s.from.input
              && |s.from.origin| == |s.from.Fed()|
              && Kept(s.from.Fed(), s.from.origin, true) == s.from.received
              && Kept(s.from.Fed(), s.from.origin, false) == Asks(p.injected)
              && s.from.sent + s.from.output == Replies(p.Replied())
    ensures RepliesTold(conf, events) && InjectionsTold(conf, events)
  {
    hide Run, Resting, RepliesTold, InjectionsTold, Frames, Replies, Kept, Asks;
    RunRests(conf, events);
    OwnBytes(conf, events);
    RepliesAnswer(conf, events);
    OwnPackets(conf, events);
    if !Joined(Run(Init(conf), conf, events).toS) {
      IdleState(Run(Init(conf), conf, events));
    }
  }

  lemma IdleState(s: State)
    requires Resting(s) && !Joined(s.toS)
    ensures s.to.sent == [] && s.from.Fed() == s.past.hsFrame + Frames(s.past.Replied()) + s.from.input
    ensures s.from.sent + s.from.output == Replies(s.past.Replied())
  {
    hide Kept, Asks, Frames, Replies, Meant, Relayed, Told;
    var p := s.past;
    ServedConcat(p.earlier, p.served);
    Assoc(p.hsFrame, Frames(p.earlier), Frames(p.served));
  }

  /** A client that was taken over from its backend: it was sent the hub's replies from before
      the one greeting, then all the backend had sent, then replies again, one for each frame of
      the input that is used up behind what was relayed. */
  lemma TakeoverConserved(conf: Conf, events: seq<Event>)
    requires TotalGreetings(conf, events) == 1
    ensures var s := Run(Init(conf), conf, events); var p := s.past;
            Joined(s.toS) ==>
              && s.from.sent + s.from.output == Replies(p.earlier) + s.to.received + Replies(p.served)
              && s.from.Fed()
                 == p.hsFrame + Frames(p.earlier) + (p.loginFrame + p.raw) + Frames(p.served) + s.from.input
  {
    RunRests(conf, events);
    RunDrains(conf, events);
    hide Kept, Frames, Replies, Asks, Carries, Encode, Relayed, Unmixed, Greeted, Meant;
    var s := Run(Init(conf), conf, events);
    assert s.to.used + [] == s.to.used;
  }
}
