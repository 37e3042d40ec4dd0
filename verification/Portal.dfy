/** The client object itself: the handlers of src/client.cpp updating their fields in place,
    each proved to do what PortalSpec says. */
module Portals {
  import opened VarInts
  import opened Pakets
  import opened Gates
  import opened Records
  import opened Routing
  import opened PortalSpec
  import opened PortalInv

  class Portal {
    const conf: Conf
    const from: Gate
    const to: Gate
    var fromS: Side
    var toS: Side
    var hs: Hello
    var serverName: string
    var rec: BasicRecord
    var nickname: bytes
    var disconnected: bool
    var listening: bool
    var erased: bool
    ghost var past: Past

    ghost predicate Valid() { from != to }

    ghost function View(): State
      reads this, from, to
    {
      State(from.View(), to.View(), fromS, toS, hs, Route(serverName, rec), nickname,
            disconnected, listening, erased, past)
    }

    constructor (conf: Conf)
      ensures Valid() && fresh(from) && fresh(to) && this.conf == conf
      ensures View() == Init(conf) && Resting(View())
    {
      this.conf := conf;
      from := new Gate();
      to := new Gate();
      fromS, toS, hs := Handshaking, Unset, NO_HANDSHAKE;
      serverName, rec, nickname := "", conf.defaultServer.basic, [];
      disconnected, listening, erased := false, false, false;
      past := Init(conf).past;
      new;
      InitResting(conf);
    }

    // ---------- the client's side ----------

    method SetFromStateByHs() returns (r: Outcome)
      requires Valid()
      modifies this
      ensures r == OutcomeOf(SetFromByHs(old(View()))) && View() == SetFromByHs(old(View())).value
      ensures r.Fine? ==> Fake(fromS)
    {
      if hs.state == 1 {
        fromS := StatusFake;
      } else if hs.state == 2 {
        fromS := LoginFake;
      } else {
        return Thrown;
      }
      past := past.(fellBack := true);
      return Fine;
    }

    /** record(): server_name is cut down in place, the record is returned. */
    method SelectRecord() returns (r: BasicRecord)
      requires Valid()
      modifies this`serverName
      ensures r == Record(conf, hs.address)
      ensures serverName == RouteName(hs.address, conf.domain)
    {
      hide CString, Resized, SuffixIs, Pick;
      serverName := CString(hs.address);
      var size := |serverName|;
      var isFml := size != |hs.address|;
      if size > 0 && serverName[size - 1] == '.' {
        serverName := serverName[..size - 1];
      }
      if size > |conf.domain| && SuffixIs(serverName, size - |conf.domain|, conf.domain) {
        serverName := Resized(serverName, size - |conf.domain|);
      }
      if serverName in conf.servers {
        return Pick(conf.servers[serverName], isFml);
      }
      return Pick(conf.defaultServer, isFml);
    }

    method ServePaket(request: Packet, ghost before: State, length: nat, text: bytes) returns (r: Outcome)
      requires Valid() && length <= |before.from.input|
      requires View() == before.(from := Drop(before.from, length))
      modifies this`past, from
      ensures r == OutcomeOf(Serve(before, request, length, text))
      ensures View() == Serve(before, request, length, text).value
    {
      hide Sent, Encode;
      past := past.(served := past.served
        + [Exchange(request, before.from.input[..length], text, ReplyTo(request, text))]);
      match request {
        case Request => r := from.PaketWrite(Response(text));
        case Ping(_) => r := from.PaketWrite(request);
        case _ => r := from.PaketWrite(Disconnect(text));
      }
    }

    method FromFakeStatus(env: Env) returns (r: Outcome)
      requires Valid()
      modifies this`past, from
      ensures r == OutcomeOf(FakeStatus(old(View()), env)) && View() == FakeStatus(old(View()), env).value
    {
      hide Take, Serve, HeadOf;
      ghost var before := View();
      match HeadOf(from.input, env.maxSize) {
        case Partial => return Fine;
        case Broken => return Thrown;
        case Frame(id, _) =>
          if id != 0 && id != 1 {
            return Thrown;
          }
          var t := from.PaketRead(if id == 0 then ARequest else APing, env.maxSize);
          match t {
            case Nothing => return Fine;
            case Refused => return Thrown;
            case Took(p, n) => r := ServePaket(p, before, n, env.status);
          }
      }
    }

    method FromFakeLogin(env: Env) returns (r: Outcome)
      requires Valid()
      modifies this`past, this`disconnected, from
      ensures r == OutcomeOf(FakeLogin(old(View()), env)) && View() == FakeLogin(old(View()), env).value
    {
      hide Take, Serve;
      ghost var before := View();
      var t := from.PaketRead(ALogin, env.maxSize);
      match t {
        case Nothing => return Fine;
        case Refused => return Thrown;
        case Took(p, n) =>
          :- ServePaket(p, before, n, env.login);
          disconnected := true;
          return Fine;
      }
    }

    method FromLoginPaket(env: Env) returns (r: Outcome)
      requires Valid()
      modifies this, from, to
      ensures r == OutcomeOf(FromLogin(old(View()), env)) && View() == FromLogin(old(View()), env).value
    {
      hide Take, Encode, Sent;
      ghost var input := from.input;
      var t := from.PaketRead(ALogin, env.maxSize);
      match t {
        case Nothing => return Fine;
        case Refused => return Thrown;
        case Took(login, n) =>
          fromS := Proxying;
          ghost var frame, out := input[..n], Encode(login);
          past := past.(loginFrame := frame, login := login, loginOut := out,
                        plain := past.plain && frame == out, relayed := past.relayed + out);
          :- to.PaketWrite(login);
          nickname := login.name;
          return Fine;
      }
    }

    method FromProxyBytes() returns (r: Outcome)
      requires Valid()
      modifies this`past, from, to
      ensures r == OutcomeOf(FromProxy(old(View()))) && View() == FromProxy(old(View())).value
    {
      past := past.(raw := past.raw + from.input, relayed := past.relayed + from.input);
      r := from.Tunnel(to);
    }

    method AdmitPaket(p: Hello, ghost before: State, length: nat) returns (selected: BasicRecord)
      requires Valid() && length <= |before.from.input|
      requires View() == before.(from := Drop(before.from, length))
      modifies this
      ensures View() == Admit(before, p, length, conf) && selected == Record(conf, p.address)
    {
      hide Record, RouteName;
      hs := p;
      past := past.(hsFrame := before.from.input[..length]);
      selected := SelectRecord();
    }

    method StartBackend(selected: BasicRecord, env: Env) returns (r: Outcome)
      requires Valid() && fromS.Handshaking?
      modifies this, from, to
      ensures r == OutcomeOf(Start(old(View()), selected, conf, env))
      ensures View() == Start(old(View()), selected, conf, env).value
      decreases true, 0
    {
      hide ProcessFrom, SetFromByHs;
      if selected.drop {
        return Thrown;
      }
      rec := selected;
      if rec.address != "" && rec.port != 0 {
        match env.connect {
          case Started =>
            toS, fromS, listening := Connecting, Waiting, true;
            return Fine;
          case Failed => return Thrown;
          case DnsError =>
        }
      }
      :- SetFromStateByHs();
      r := ProcessFromRequest(env);
    }

    method FromHandshakePaket(env: Env) returns (r: Outcome)
      requires Valid() && fromS.Handshaking?
      modifies this, from, to
      ensures r == OutcomeOf(FromHandshake(old(View()), conf, env))
      ensures View() == FromHandshake(old(View()), conf, env).value
      decreases true, 1
    {
      hide Take, Record, RouteName, Start;
      ghost var before := View();
      var t := from.PaketRead(AHandshake, env.maxSize);
      match t {
        case Nothing => return Fine;
        case Refused => return Thrown;
        case Took(p, n) =>
          var selected := AdmitPaket(p, before, n);
          r := StartBackend(selected, env);
      }
    }

    method ProcessFromRequest(env: Env) returns (r: Outcome)
      requires Valid()
      modifies this, from, to
      ensures r == OutcomeOf(ProcessFrom(old(View()), conf, env))
      ensures View() == ProcessFrom(old(View()), conf, env).value
      decreases fromS.Handshaking?, 2
    {
      match fromS {
        case Handshaking => r := FromHandshakePaket(env);
        case Waiting => return Fine;
        case LoggingIn => r := FromLoginPaket(env);
        case StatusFake => r := FromFakeStatus(env);
        case LoginFake => r := FromFakeLogin(env);
        case Proxying => r := FromProxyBytes();
        case Stable => r := FromProxyBytes();
        case _ =>
          past := past.(illegal := true);
          return Thrown;
      }
    }

    // ---------- the backend's side ----------

    method ToProxyBytes() returns (r: Outcome)
      requires Valid()
      modifies from, to
      ensures r == OutcomeOf(ToProxy(old(View()))) && View() == ToProxy(old(View())).value
    {
      r := to.Tunnel(from);
    }

    method ProcessToRequest() returns (r: Outcome)
      requires Valid()
      modifies this`past, from, to
      ensures r == OutcomeOf(ProcessTo(old(View()))) && View() == ProcessTo(old(View())).value
    {
      match toS {
        case Proxying => r := ToProxyBytes();
        case Stable => r := ToProxyBytes();
        case Connecting => return Fine;
        case _ =>
          past := past.(illegal := true);
          return Thrown;
      }
    }

    method WriteHandshake() returns (r: Outcome)
      requires Valid()
      modifies this`past, to
      ensures r == OutcomeOf(QueueHello(old(View()), Encode(hs)))
      ensures View() == QueueHello(old(View()), Encode(hs)).value
    {
      hide Encode, Sent;
      past := past.(hello := Encode(hs), hellos := past.hellos + 1,
                    greeting := past.greeting + |Encode(hs)|,
                    waiting := from.input, got := from.received, own := from.added,
                    earlier := past.Replied(), served := []);
      r := to.PaketWrite(hs);
    }

    method ToSendNewHs(env: Env) returns (r: Outcome)
      requires Valid()
      modifies this, from, to
      ensures r == OutcomeOf(SendHello(old(View()), conf, env))
      ensures View() == SendHello(old(View()), conf, env).value
    {
      hide Encode, QueueHello, ProcessFrom, ProcessTo;
      :- WriteHandshake();
      toS := Proxying;
      fromS := if hs.state == 1 then Proxying else LoggingIn;
      :- ProcessToRequest();
      r := ProcessFromRequest(env);
    }

    method InjectWhenShort()
      requires Valid()
      modifies this`past, from
      ensures View() == InjectIfShort(old(View()))
    {
      if |from.input| < 2 {
        if hs.state == 1 {
          past := past.(injected := past.injected + [Request]);
          from.Inject(Request);
        } else {
          past := past.(injected := past.injected + [Login(nickname)]);
          from.Inject(Login(nickname));
        }
      }
    }

    // ---------- event handlers ----------

    method HandleFrom(mask: Mask, env: Env) returns (r: Outcome)
      requires Valid()
      modifies this, from, to
      ensures r == OutcomeOf(TryFrom(old(View()), conf, mask, env))
      ensures View() == TryFrom(old(View()), conf, mask, env).value
    {
      hide Sent, Received, ProcessFrom;
      if mask.rdhup {
        disconnected := true;
      }
      if mask.err {
        return Thrown;
      }
      if mask.readable {
        :- from.Receive();
        :- ProcessFromRequest(env);
      }
      if mask.writable {
        :- from.Send();
      }
      return Fine;
    }

    /** on_from_event; a client found disconnected afterwards is erased by the worker. */
    method OnFromEvent(mask: Mask, env: Env)
      requires Valid()
      modifies this, from, to
      ensures View() == FromEventStep(old(View()), conf, mask, env)
    {
      hide TryFrom;
      var r := HandleFrom(mask, env);
      if r.Thrown? {
        disconnected := true;
      }
      erased := disconnected;
    }

    method HandleToError(env: Env) returns (r: Outcome)
      requires Valid()
      modifies this, from, to
      ensures r == OutcomeOf(ToError(old(View()), conf, env))
      ensures View() == ToError(old(View()), conf, env).value
    {
      hide ProcessFrom, SetFromByHs, InjectIfShort;
      match toS {
        case Connecting =>
        case Proxying =>
        case _ => return Thrown;
      }
      :- SetFromStateByHs();
      InjectWhenShort();
      :- ProcessFromRequest(env);
      listening := false;
      return Fine;
    }

    method HandleToReadable() returns (r: Outcome)
      requires Valid()
      modifies this, from, to
      ensures r == OutcomeOf(ToReadable(old(View()))) && View() == ToReadable(old(View())).value
    {
      hide Received, ProcessTo;
      :- to.Receive();
      r := ProcessToRequest();
    }

    method FlushTo(env: Env) returns (r: Outcome)
      requires Valid() && !toS.Connecting?
      modifies this, from, to
      ensures r == OutcomeOf(ToWritable(old(View()), conf, env))
      ensures View() == ToWritable(old(View()), conf, env).value
    {
      hide ProcessFrom, SetFromByHs, SendHello, Sent;
      :- to.Send();
      toS := Stable;
      fromS := Stable;
      r := ProcessFromRequest(env);
    }

    method HandleToWritable(env: Env) returns (r: Outcome)
      requires Valid()
      modifies this, from, to
      ensures r == OutcomeOf(ToWritable(old(View()), conf, env))
      ensures View() == ToWritable(old(View()), conf, env).value
    {
      hide ProcessFrom, SetFromByHs, SendHello, Sent;
      match toS {
        case Connecting =>
          if !env.connectError {
            r := ToSendNewHs(env);
          } else {
            :- SetFromStateByHs();
            listening := false;
            return Fine;
          }
        case _ => r := FlushTo(env);
      }
    }

    method HandleToActions(mask: Mask, env: Env) returns (r: Outcome)
      requires Valid()
      modifies this, from, to
      ensures r == OutcomeOf(ToActions(old(View()), conf, mask, env))
      ensures View() == ToActions(old(View()), conf, mask, env).value
    {
      hide ToError, ToWritable, ToReadable, View;
      if mask.err {
        r := HandleToError(env);
        return;
      }
      if mask.readable {
        :- HandleToReadable();
      }
      if mask.writable {
        r := HandleToWritable(env);
        return;
      }
      return Fine;
    }

    method HandleTo(mask: Mask, env: Env) returns (r: Outcome)
      requires Valid()
      modifies this, from, to
      ensures r == OutcomeOf(TryTo(old(View()), conf, mask, env))
      ensures View() == TryTo(old(View()), conf, mask, env).value
    {
      hide SetFromByHs, ToActions;
      if mask.rdhup {
        disconnected := true;
      }
      if mask.hup {
        if toS.Connecting? {
          :- SetFromStateByHs();
          listening := false;
          return Fine;
        }
        disconnected := true;
      }
      r := HandleToActions(mask, env);
    }

    /** on_to_event; Thrown is an exception that leaves the catch block. */
    method OnToEvent(mask: Mask, env: Env) returns (r: Outcome)
      requires Valid()
      modifies this, from, to
      ensures r == OutcomeOf(ToEventStep(old(View()), conf, mask, env))
      ensures View() == ToEventStep(old(View()), conf, mask, env).value
    {
      hide TryTo, SetFromByHs, SendHello, InjectIfShort;
      r := HandleTo(mask, env);
      if r.Thrown? {
        if toS.Connecting? || toS.Proxying? {
          if !env.recoverError {
            r := ToSendNewHs(env);
            return;
          } else {
            :- SetFromStateByHs();
            InjectWhenShort();
            listening := false;
            return Fine;
          }
        }
        disconnected := true;
        return Fine;
      }
    }

    method OnTimeout(env: Env) returns (r: Outcome)
      requires Valid()
      modifies this, from, to
      ensures r == OutcomeOf(TimeoutStep(old(View()), conf, env))
      ensures View() == TimeoutStep(old(View()), conf, env).value
    {
      hide SetFromByHs, ProcessFrom;
      match toS {
        case Connecting =>
          :- SetFromStateByHs();
          listening := false;
          r := ProcessFromRequest(env);
        case _ => return Fine;
      }
    }

    /** One event from the worker's poll loop, which swallows what a handler throws. */
    method Dispatch(e: Event)
      requires Valid() && Resting(View())
      modifies this, from, to
      ensures View() == Handle(old(View()), conf, e) && Resting(View())
    {
      hide FromEventStep, ToEventStep, TimeoutStep, Resting;
      HandleKeeps(View(), conf, e);
      if erased || (e.ToEvent? && !listening) {
        return;
      }
      from.sock, to.sock := e.env.fromSock, e.env.toSock;
      match e {
        case FromEvent(mask, env) => OnFromEvent(mask, env);
        case ToEvent(mask, env) => var _ := OnToEvent(mask, env);
        case Timeout(env) => var _ := OnTimeout(env);
      }
    }
  }
}
