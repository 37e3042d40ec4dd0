/** What each handler of `portal` does to one client's state (src/client.cpp:97-470), as
    functions. The environment chooses the event masks, the bytes that arrive, how much each
    write takes, whether connecting works, and the resolved texts. */
module PortalSpec {
  import opened VarInts
  import opened Pakets
  import opened Gates
  import opened Records
  import opened Routing

  /** state_t. `ping` is never assigned; Unset is to_s before from_handshake sets it. */
  datatype Side =
    | Handshaking | Waiting | StatusFake | LoginFake | LoggingIn | Connecting | Proxying | Stable | Unset

  /** One reply of the hub itself: the packet asked with, the bytes it came in, the text that
      status or login resolved to at that moment, and the bytes queued for the client. */
  datatype Exchange = Exchange(request: Packet, frame: bytes, text: bytes, reply: bytes)

  /** What has happened so far:
      hsFrame    the handshake frame taken from the client,
      hello      the handshake frame made for the backend, hellos how often it was queued and
                 greeting how many bytes that came to,
      waiting    the client input unread when it last was, got all that had been received from the
                 client then, and own all that the hub had put into that input itself,
      loginFrame the client's login frame, login its packet, loginOut its re-encoding,
      plain      whether every such re-encoding gave the frame back,
      raw        the client input passed on as it was,
      relayed    everything queued for the backend besides handshakes,
      fellBack   whether the hub has ever taken the client over,
      earlier    its own replies before the backend was last greeted, and served those since,
      injected   the packets it put into the client's input itself,
      illegal    whether an "illegal state" exception was ever thrown. */
  datatype Past = Past(
    hsFrame: bytes, hello: bytes, hellos: nat, greeting: nat, waiting: bytes, got: bytes, own: bytes,
    loginFrame: bytes, login: Packet, loginOut: bytes, plain: bool, raw: bytes, relayed: bytes,
    fellBack: bool, earlier: seq<Exchange>, served: seq<Exchange>, injected: seq<Packet>, illegal: bool)
  {
    function Replied(): seq<Exchange> { earlier + served }
  }

  /** The fields of `portal`; `listening` is whether the backend socket can still raise events
      and `erased` whether the worker has dropped the client. */
  datatype State = State(
    from: GateState, to: GateState, fromS: Side, toS: Side,
    hs: Hello, route: Route, nickname: bytes,
    disconnected: bool, listening: bool, erased: bool, past: Past)

  type Hello = p: Packet | p.Handshake? witness Handshake(0, [], 0, 0)

  const NO_HANDSHAKE: Hello := Handshake(0, [], 0, 0)

  function Init(conf: Conf): State {
    State(EMPTY_GATE, EMPTY_GATE, Handshaking, Unset, NO_HANDSHAKE, Route("", conf.defaultServer.basic), [],
          false, false, false, Past([], [], 0, 0, [], [], [], [], Request, [], true, [], [], false, [], [], [], false))
  }

  datatype Connect = Started | DnsError | Failed

  datatype Env = Env(
    maxSize: int, status: bytes, login: bytes, connect: Connect,
    fromSock: Socket, toSock: Socket, connectError: bool, recoverError: bool)

  /** The resolved texts of one event. */
  datatype Texts = Texts(status: bytes, login: bytes)

  function TextsOf(env: Env): Texts {
    Texts(env.status, env.login)
  }

  datatype Mask = Mask(rdhup: bool, hup: bool, err: bool, readable: bool, writable: bool)

  datatype Event = FromEvent(mask: Mask, env: Env) | ToEvent(mask: Mask, env: Env) | Timeout(env: Env)

  function OnFrom(s: State, r: Step<GateState>): Step<State> {
    if r.Ok? then Ok(s.(from := r.value)) else Throw(s.(from := r.value))
  }

  function OnTo(s: State, r: Step<GateState>): Step<State> {
    if r.Ok? then Ok(s.(to := r.value)) else Throw(s.(to := r.value))
  }

  // ---------- the client's side ----------

  function SetFromByHs(s: State): Step<State>
  {
    if s.hs.state == 1 then Ok(s.(fromS := StatusFake, past := s.past.(fellBack := true)))
    else if s.hs.state == 2 then Ok(s.(fromS := LoginFake, past := s.past.(fellBack := true)))
    else Throw(s)
  }

  function ReplyTo(request: Packet, text: bytes): bytes {
    match request
    case Request => Encode(Response(text))
    case Ping(_) => Encode(request)
    case _ => Encode(Disconnect(text))
  }

  /** The text a reply is made from. */
  function TextFor(request: Packet, texts: Texts): bytes {
    if request.Login? then texts.login else texts.status
  }

  /** Answer the frame of `length` bytes at the front of the client's input. */
  function Serve(s: State, request: Packet, length: nat, text: bytes): Step<State>
    requires length <= |s.from.input|
  {
    var reply := ReplyTo(request, text);
    var x := Exchange(request, s.from.input[..length], text, reply);
    var s1 := s.(past := s.past.(served := s.past.served + [x]));
    OnFrom(s1, Sent(Queue(Drop(s.from, length), reply)))
  }

  function FakeStatus(s: State, env: Env): Step<State> {
    match HeadOf(s.from.input, env.maxSize)
    case Partial => Ok(s)
    case Broken => Throw(s)
    case Frame(id, _) =>
      if id != 0 && id != 1 then Throw(s)
      else
        match Take(s.from.input, if id == 0 then ARequest else APing, env.maxSize)
        case Nothing => Ok(s)
        case Refused => Throw(s)
        case Took(p, n) => Serve(s, p, n, env.status)
  }

  function FakeLogin(s: State, env: Env): Step<State> {
    match Take(s.from.input, ALogin, env.maxSize)
    case Nothing => Ok(s)
    case Refused => Throw(s)
    case Took(p, n) =>
      var s1 :- Serve(s, p, n, env.login);
      Ok(s1.(disconnected := true))
  }

  function FromLogin(s: State, env: Env): Step<State> {
    match Take(s.from.input, ALogin, env.maxSize)
    case Nothing => Ok(s)
    case Refused => Throw(s)
    case Took(p, n) =>
      var s1 :- RelayLogin(s, p, n, Encode(p));
      Ok(s1.(nickname := p.name))
  }

  function RelayLogin(s: State, p: Packet, length: nat, out: bytes): Step<State>
    requires length <= |s.from.input|
  {
    var frame := s.from.input[..length];
    var s1 := s.(from := Drop(s.from, length), fromS := Proxying,
                 past := s.past.(loginFrame := frame, login := p, loginOut := out,
                                 plain := s.past.plain && frame == out, relayed := s.past.relayed + out));
    OnTo(s1, Sent(Queue(s1.to, out)))
  }

  function FromProxy(s: State): Step<State> {
    var data := s.from.input;
    var s1 := s.(from := Drain(s.from), past := s.past.(raw := s.past.raw + data, relayed := s.past.relayed + data));
    OnTo(s1, Sent(Queue(s1.to, data)))
  }

  /** Take the handshake p off the input and name the server it asks for. */
  function Admit(s: State, p: Hello, length: nat, conf: Conf): State
    requires length <= |s.from.input|
  {
    s.(from := Drop(s.from, length), hs := p, past := s.past.(hsFrame := s.from.input[..length]),
       route := s.route.(name := RouteName(p.address, conf.domain)))
  }

  function Dial(s: State, env: Env): Connect {
    if s.route.record.address != "" && s.route.record.port != 0 then env.connect else DnsError
  }

  function FromHandshake(s: State, conf: Conf, env: Env): Step<State>
    requires s.fromS.Handshaking?
    decreases true, 1
  {
    match Take(s.from.input, AHandshake, env.maxSize)
    case Nothing => Ok(s)
    case Refused => Throw(s)
    case Took(p, n) => Start(Admit(s, p, n, conf), Record(conf, p.address), conf, env)
  }

  /** Connect to the backend of the record, or do without one. */
  function Start(s: State, r: BasicRecord, conf: Conf, env: Env): Step<State>
    requires s.fromS.Handshaking?
    decreases true, 0
  {
    if r.drop then Throw(s)
    else
      var s1 := s.(route := s.route.(record := r));
      match Dial(s1, env)
      case Started => Ok(s1.(toS := Connecting, fromS := Waiting, listening := true))
      case Failed => Throw(s1)
      case DnsError =>
        var s2 :- SetFromByHs(s1);
        ProcessFrom(s2, conf, env)
  }

  function Illegal(s: State): State {
    s.(past := s.past.(illegal := true))
  }

  /** process_from_request. The recursion with from_handshake is one deep. */
  function ProcessFrom(s: State, conf: Conf, env: Env): Step<State>
    decreases s.fromS.Handshaking?, 2
  {
    match s.fromS
    case Handshaking => FromHandshake(s, conf, env)
    case Waiting => Ok(s)
    case LoggingIn => FromLogin(s, env)
    case StatusFake => FakeStatus(s, env)
    case LoginFake => FakeLogin(s, env)
    case Proxying => FromProxy(s)
    case Stable => FromProxy(s)
    case _ => Throw(Illegal(s))
  }

  // ---------- the backend's side ----------

  function ToProxy(s: State): Step<State> {
    var data := s.to.input;
    var s1 := s.(to := Drain(s.to));
    OnFrom(s1, Sent(Queue(s1.from, data)))
  }

  function ProcessTo(s: State): Step<State> {
    match s.toS
    case Proxying => ToProxy(s)
    case Stable => ToProxy(s)
    case Connecting => Ok(s)
    case _ => Throw(Illegal(s))
  }

  function Greet(s: State, hello: bytes): State {
    s.(past := s.past.(hello := hello, hellos := s.past.hellos + 1,
                       greeting := s.past.greeting + |hello|,
                       waiting := s.from.input, got := s.from.received, own := s.from.added,
                       earlier := s.past.Replied(), served := []),
       to := Queue(s.to, hello))
  }

  /** to_s and from_s as to_send_new_hs sets them. */
  function Join(s: State): State {
    s.(toS := Proxying, fromS := if s.hs.state == 1 then Proxying else LoggingIn)
  }

  function QueueHello(s: State, hello: bytes): Step<State> {
    var s1 := Greet(s, hello);
    OnTo(s1, Sent(s1.to))
  }

  /** to_send_new_hs. */
  function SendHello(s: State, conf: Conf, env: Env): Step<State> {
    var s1 :- QueueHello(s, Encode(s.hs));
    var s2 :- ProcessTo(Join(s1));
    ProcessFrom(s2, conf, env)
  }

  /** The packet of kostilA or kostilB. */
  function Asked(s: State): Packet {
    if s.hs.state == 1 then Request else Login(s.nickname)
  }

  /** kostilA or kostilB when less than two bytes wait. */
  function InjectIfShort(s: State): State {
    if |s.from.input| < 2
    then s.(from := Feed(s.from, Encode(Asked(s)), false), past := s.past.(injected := s.past.injected + [Asked(s)]))
    else s
  }

  // ---------- event handlers ----------

  function TryFrom(s: State, conf: Conf, mask: Mask, env: Env): Step<State> {
    var s1 := if mask.rdhup then s.(disconnected := true) else s;
    if mask.err then Throw(s1)
    else
      var s2 :- if mask.readable then FromReadable(s1, conf, env) else Ok(s1);
      if mask.writable then OnFrom(s2, Sent(s2.from)) else Ok(s2)
  }

  function FromReadable(s: State, conf: Conf, env: Env): Step<State> {
    var s1 :- OnFrom(s, Received(s.from));
    ProcessFrom(s1, conf, env)
  }

  /** on_from_event, and the worker's check after it (src/thread_controller.cpp:36-42). */
  function FromEventStep(s: State, conf: Conf, mask: Mask, env: Env): State {
    var r := TryFrom(s, conf, mask, env);
    var s1 := if r.Throw? then r.value.(disconnected := true) else r.value;
    s1.(erased := s1.disconnected)
  }

  function TryTo(s: State, conf: Conf, mask: Mask, env: Env): Step<State> {
    var s1 := if mask.rdhup then s.(disconnected := true) else s;
    if mask.hup && s1.toS.Connecting? then
      var s2 :- SetFromByHs(s1);
      Ok(s2.(listening := false))
    else
      ToActions(if mask.hup then s1.(disconnected := true) else s1, conf, mask, env)
  }

  function ToActions(s: State, conf: Conf, mask: Mask, env: Env): Step<State> {
    if mask.err then ToError(s, conf, env)
    else
      var s1 :- if mask.readable then ToReadable(s) else Ok(s);
      if mask.writable then ToWritable(s1, conf, env) else Ok(s1)
  }

  function ToError(s: State, conf: Conf, env: Env): Step<State> {
    if s.toS.Connecting? || s.toS.Proxying? then
      var s1 :- SetFromByHs(s);
      var s2 :- ProcessFrom(InjectIfShort(s1), conf, env);
      Ok(s2.(listening := false))
    else Throw(s)
  }

  function ToReadable(s: State): Step<State> {
    var s1 :- OnTo(s, Received(s.to));
    ProcessTo(s1)
  }

  function ToWritable(s: State, conf: Conf, env: Env): Step<State> {
    if s.toS.Connecting? then
      if env.connectError then
        var s1 :- SetFromByHs(s);
        Ok(s1.(listening := false))
      else SendHello(s, conf, env)
    else
      var s1 :- OnTo(s, Sent(s.to));
      ProcessFrom(s1.(toS := Stable, fromS := Stable), conf, env)
  }

  /** The catch block of on_to_event; Throw is an exception that leaves it. */
  function Recover(s: State, conf: Conf, env: Env): Step<State> {
    if s.toS.Connecting? || s.toS.Proxying? then
      if !env.recoverError then SendHello(s, conf, env)
      else
        var s1 :- SetFromByHs(s);
        Ok(InjectIfShort(s1).(listening := false))
    else Ok(s.(disconnected := true))
  }

  function ToEventStep(s: State, conf: Conf, mask: Mask, env: Env): Step<State> {
    var r := TryTo(s, conf, mask, env);
    if r.Throw? then Recover(r.value, conf, env) else r
  }

  function TimeoutStep(s: State, conf: Conf, env: Env): Step<State> {
    if s.toS.Connecting? then
      var s1 :- SetFromByHs(s);
      ProcessFrom(s1.(listening := false), conf, env)
    else Ok(s)
  }

  // ---------- runs ----------

  function Plug(s: State, env: Env): State {
    s.(from := s.from.(sock := env.fromSock), to := s.to.(sock := env.toSock))
  }

  /** One event. An erased client gets none, a backend socket that was removed or closed raises
      none, and an exception that leaves a handler is swallowed by the worker's loop
      (src/thread_controller.cpp:64-71). */
  function Handle(s: State, conf: Conf, e: Event): State {
    var p := Plug(s, e.env);
    if s.erased then s
    else
      match e
      case FromEvent(mask, env) => FromEventStep(p, conf, mask, env)
      case ToEvent(mask, env) => if s.listening then ToEventStep(p, conf, mask, env).value else s
      case Timeout(env) => TimeoutStep(p, conf, env).value
  }

  function Run(s: State, conf: Conf, events: seq<Event>): State {
    if events == [] then s
    else Handle(Run(s, conf, events[..|events| - 1]), conf, events[|events| - 1])
  }
}
