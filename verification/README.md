# A verified model of mcshub

mcshub accepts Minecraft clients, reads their handshake, picks a server record by the address in
it, and then either passes bytes between the client and that backend or, when there is no backend
or it cannot be reached, answers status, ping and login itself, though not every failure answers at
once. This project models that hub and
the code around it, and proves what it promises to clients, to backends and to whoever configures
it. It is written against the sources under `src/`; where the code and its intent part ways the
code is what is modelled, and a lemma says exactly when the intent is met.

Check it with `dafny verify dfyconfig.toml`.

## How it is laid out

| file | what is in it |
|---|---|
| `VarInts.dfy`, `Pakets.dfy` | the variable-length integers, packets and frames of the Minecraft Java Edition protocol ("VarInt and VarLong", "Packet format, without compression"), `head` |
| `Wire.dfy` | the same packets byte by byte, said without the functions that write and read them |
| `Gates.dfy` | one side of a client: two byte queues around a non-blocking socket, as values and as class `Gate` |
| `Records.dfy`, `Routing.dfy` | server records; which record an address selects |
| `PortalSpec.dfy` | every handler of `portal` as a function on a client's state and the environment's choices; `Run` is a whole life of events |
| `PortalInv.dfy` | the invariant of every reachable state, handler by handler |
| `PortalHistory.dfy` | what one event adds to a client's history, what it changes and what it leaves unread, in any state |
| `PortalTheorems.dfy` | what client and backend see, over every run |
| `PortalCalm.dfy` | conditions on the events alone under which a run is transparent |
| `PortalResend.dfy`, `PortalChunks.dfy` | families of runs that are not transparent, and runs beside them that are; independence of how arrivals are cut |
| `PortalAdmit.dfy` | what becomes of a client with its handshake: turned away, dialled through, kept by the hub |
| `PortalEvents.dfy`, `PortalFlush.dfy` | what each single event does, read off the state before it; everything queued is sent as soon as the socket takes it |
| `PortalFallback.dfy` | the injected packet when a backend fails, and the end of a client |
| `Portal.dfy` | class `Portal`: the handlers updating fields in place, each proved to do what `PortalSpec` says |
| `Clients.dfy` | the blocking client (`sclient`), and client and hub end to end |
| `Templates.dfy`, `Base64.dfy` | the template engine and the base64 images of replies |
| `Settings.dfy`, `Loaded.dfy` | loading a configuration tree and following changes to it; what a load makes of each key |
| `Arguments.dfy`, `Options.dfy` | program arguments; what each option sets |

The environment of a client is nondeterministic: event masks, the bytes of each arrival, how much
each write takes (some, none, or an exception), whether connecting works, and the resolved reply
texts are parameters of each event, and theorems quantify over all sequences of events. A backend
socket that was closed or removed from the poll raises no further events; an exception that leaves a
handler is swallowed by the worker's loop; a client found disconnected after an event of its own
socket is erased (`src/thread_controller.cpp:36-42`, `64-71`). The history (bytes received, sent and
used, the hub's replies, how often the backend was greeted) is ghost state of the classes.

## What the code does other than intended

- An exception while connecting or proxying, on a backend socket that reports no error, joins the
  backend again (`src/client.cpp:418-428`). That goes wrong in two ways. The handshake may have been
  queued already: `TransparentExactly` and `GreetedOnce` say that it is queued once exactly when one
  greeting branch was taken, and `HelloTwice` gives a family of two-event runs in which two are. And the
  hub may have taken the client over in between, used up some of its bytes or put a packet of its own
  into its input: `OneGreetingExactly` says that a run with one greeting forwards the client's stream if
  and only if what waited at that moment was all the client had sent after its handshake, and
  `OwnBytesSent` gives a family of two-event runs in which the hub's own request goes to the backend.
  `StatusTransparent` and `LoginTransparent` are conditions on the events that rule both out.
- When a backend fails while the client waits for it, the hub takes the client over, but only the timer
  and an error without a hang-up go on to handle what waits (`src/client.cpp:360-376`, `456-467`). A
  hang-up (`350-352`), a failed connection (`403-405`) and the catch block (`430-437`), which injects a
  packet as the error branch does, leave it for the client's next event or the timer: `FailureAnswers`
  says which replies each event brings, for any input. `WholeRequestExactly` and `NothingWaitingExactly`
  are if-and-only-ifs for a client whose request waits and for one of whom nothing does, and
  `HungUpUnanswered` and `CaughtUnanswered` give runs in which they get nothing.
- In the error branch the injected packet goes behind a byte that may be waiting already, and then it is
  never understood (`src/client.cpp:368-373`): `AnsweredExactly` says that there, with less than two bytes
  waiting, the client is answered if and only if none is, and `LeftoverUnanswered` gives runs in which one
  is.
- A rooted address (`name.domain.`) does not reach the entry of `name`, because the length taken
  before the dot is popped is used afterwards (`src/client.cpp:114-121`): `RoutesName` is an
  if-and-only-if, `RootedAddress` says what comes out instead.
- `sclient::write_paket` measures the length prefix without the packet id, and trips over its own
  size check at exactly four field sizes (`src/sclient.hpp:47-54`): `ClientSizeExact`; a host name of
  118 bytes is such a case: `LongNameDoesNotFit`.
- `head` takes a frame of length zero for whole and the id from behind it (`src/client.cpp:40-52`):
  `HeadExactly` is an if-and-only-if, `IdBehind` a concrete case.
- Deleting a server's file also removes a record that the main file gives that name
  (`src/settings.cpp:234-241`), a rewritten file leaves behind the keys it dropped
  (`src/settings.cpp:244-256`), a directory that arrives with its file is not read
  (`src/settings.cpp:199-211`) and one that goes leaves its record (`src/settings.cpp:295-303`):
  `DeletionAgrees`, `RewriteAgrees`, `DirCreationAgrees` and `DirDeletionAgrees` are if-and-only-ifs
  against a full load, with a tree for each in `MainRecordLost`, `AddressLeftBehind`, `FileUnseen` and
  `RecordLeftBehind`. `BatchAgreesExactly` says which batches of events agree, by the
  first event of each name that sets it; `DeletedComesBack` is a batch that disagrees.
- `--timeout` sets the packet size and the second branch for `distributed` cannot be reached, so no
  argument list changes `timeout` or `drop` (`src/prog_args.cpp:58-61`, `70-71`): `NeverSet`. A number
  is cut to 32 bits before its range is checked: `RangeCheckExactly`, `PortWraps`.

## Model

| member | source | states |
|---|---|---|
| VarInts.VarIntSize | src/sclient.hpp:48 | `size_varint` is the length of the encoding, at most five, for every int |
| VarInts.VarIntRoundTrip | src/mc_pakets.hpp:25 | every 32-bit integer, negative ones included, is read back from its encoding whatever follows |
| VarInts.ScanReadsGroups | src/mc_pakets.hpp:25 | reading groups of seven bits inverts writing them |
| VarInts.ReadExtends | src/client.cpp:41-43 | a number once read, or once malformed, stays so when more bytes arrive |
| VarInts.ReadCut | src/client.cpp:41-43 | any strict front part of a number is "not yet", never an error |
| Pakets.CodecRoundTrip | src/mc_pakets.hpp:25-53 | decode(encode(p)) == p for handshake, request, response, ping, disconnect and login; which bytes encode(p) is, ids included, is in `Wire.FrameSpelled` and `Wire.FieldsSpelled` |
| Pakets.HandshakeRoundTrip | src/mc_pakets.hpp:25-29 | the four handshake fields come back in order |
| Pakets.PingRoundTrip | src/mc_pakets.hpp:43-45 | a signed 64-bit payload comes back |
| Pakets.StringRoundTrip | src/mc_pakets.hpp:25-53 | a length-prefixed string comes back, and what follows it is left |
| Pakets.NoSlack | src/client.cpp:20-22 | every byte of an accepted frame was used: with anything behind it, it is refused |
| Pakets.HeadExactly | src/client.cpp:40-52 | `head` answers true with the id inside if and only if a whole frame of allowed size is buffered, and then it gives that frame's length |
| Pakets.IdBehind | src/client.cpp:40-52 | two bytes for which it answers true and no whole frame is there |
| Pakets.BrokenStays | src/client.cpp:40-52 | when it throws, it would have thrown with any more bytes behind |
| Pakets.EncodedCarries | src/client.cpp:15-52 | what is written within the size limit is one whole frame the matching reader takes |
| Pakets.HeadOnStream | src/client.cpp:40-52 | on a stream that starts with a frame, `head` answers true exactly when the whole frame has come, false before, and never throws |
| Pakets.PrefixFree | src/client.cpp:40-52 | no frame is a proper prefix of another |
| Pakets.SlackSuffices | src/client.cpp:27-38 | ten bytes more than the fields always hold the frame, and the frame's exact length |
| Pakets.ClientSizeExact | src/sclient.hpp:47-54 | write_paket's size is right for exactly the field sizes other than 0x7F, 0x3FFF, 0x1FFFFF and 0xFFFFFFF, and never too big |
| Wire.GroupsSpelled | src/mc_pakets.hpp:25 | the i-th byte of a number holds its i-th group of seven bits, and says whether another follows |
| Wire.NegativeSpelled | src/mc_pakets.hpp:25 | a negative number is written as the unsigned one with the same 32 bits, in five bytes |
| Wire.BigEndianSpelled | src/mc_pakets.hpp:25-45 | the first byte of a port or payload is the most significant |
| Wire.IdsOnWire | src/mc_pakets.hpp:12-21 | the id on the wire is 1 for a ping and 0 for every other packet |
| Wire.FrameSpelled | src/mc_pakets.hpp:25-53 | a frame is the length of what follows, the id in one byte, and the fields |
| Wire.FieldsSpelled | src/mc_pakets.hpp:25-53 | the fields of each packet and their order: version, address, port, state |
| Wire.PingSpelled | src/mc_pakets.hpp:43-45 | a payload is its 64 bits in two's complement, byte by byte |
| Wire.HeadSpelled | src/client.cpp:40-52 | which lengths `head` refuses, and for which it answers true, on any two numbers and what follows them |
| Wire.SampleHandshake | src/mc_pakets.hpp:25-29 | 07 00 2F 01 61 63 DD 01 is a handshake of version 47 for "a", port 25565, state 1, written and read |
| Wire.SampleRequest | src/mc_pakets.hpp:37 | 01 00 is a request |
| Wire.SampleResponse | src/mc_pakets.hpp:39-41 | the frame of a response |
| Wire.SamplePing | src/mc_pakets.hpp:43-45 | the frame of a ping of 258 |
| Wire.SampleNegativePing | src/mc_pakets.hpp:43-45 | the frame of a ping of -2 |
| Wire.SampleDisconnect | src/mc_pakets.hpp:47-49 | the frame of a disconnect |
| Wire.SampleLogin | src/mc_pakets.hpp:51-53 | the frame of a login |
| Wire.SampleNumbers | src/mc_pakets.hpp:25 | 0, 127, 128, 255 and 25565 as VarInts |
| Wire.SampleWideNumbers | src/mc_pakets.hpp:25 | the largest, the smallest and minus one as VarInts |
| Gates.FeedValid | src/client.cpp:54-84 | feeding keeps the input history: the peer's bytes with the hub's own between, in order |
| Gates.DropKeeps | src/client.cpp:23 | taking a frame off the queue moves bytes to the used ones and loses none |
| Gates.SentKeeps | src/client.cpp:86-93 | sending moves bytes from the queue to the wire in order, and an exception moves none |
| Gates.TookFrame | src/client.cpp:15-25 | what paket_read takes is one whole frame of the packet it returns |
| Gates.TakesFrame | src/client.cpp:15-25 | a frame at the front of the queue is taken, all of it and no more |
| Gates.AppendPaket | src/client.cpp:27-36 | growing by fields plus ten and giving back the rest appends exactly the encoding and leaves the old contents alone |
| Gates.Gate.Receive | src/client.cpp:79-84 | what arrived is behind what was there; nothing else changes |
| Gates.Gate.Send | src/client.cpp:86-93 | the written part leaves the queue; on "again" and on an exception nothing does |
| Gates.Gate.PaketWrite | src/client.cpp:27-38 | the encoding is queued and one send is tried |
| Gates.Gate.PaketRead | src/client.cpp:15-25 | exactly the frame is removed when a packet is returned, and the gate is unchanged otherwise |
| Gates.Gate.Inject | src/client.cpp:54-71 | the packet is appended behind what waits, marked as the hub's own |
| Gates.Gate.Tunnel | src/client.cpp:73-77 | all waiting input is queued on the other side, in order, and one send is tried |
| Routing.CheckDomain | src/settings.cpp:465-482 | which domains are refused and what the others become |
| Routing.NormalizedShape | src/settings.cpp:465-482 | an accepted domain is empty, or a dot and more, without NUL |
| Routing.CString | src/client.cpp:112 | the text before the first NUL |
| Routing.RoutesName | src/client.cpp:110-122 | `name` ++ domain is cut back to `name` if and only if it does not end in a dot |
| Routing.RoutesToEntry | src/client.cpp:110-136 | such an address selects the entry of the name, or the default entry when there is none |
| Routing.MarkerPicksFml | src/client.cpp:112-136 | a NUL and a marker behind an address change only whether the same entry's fml record is used |
| Routing.RootedAddress | src/client.cpp:114-121 | what a rooted address is looked up as: the domain stays on, or a NUL does |
| Routing.DomainSpelled | src/settings.cpp:465-482 | the accepted domains, by their characters and first character, and that each becomes itself behind a dot, with or without one at its end |
| Routing.ForeignName | src/client.cpp:114-121 | an address that is not under the domain is looked up as it is |
| Routing.RecordSpelled | src/client.cpp:112-136 | the fml record is served to an address with a marker if there is one, the basic record otherwise |
| PortalInv.RunRests | src/client.cpp:307-467 | every run keeps the invariant of states, bytes and meanings, and greets the backend once for each greeting branch taken |
| PortalInv.HandleKeeps | src/client.cpp:307-467 | one event, of any kind and with any environment, keeps it |
| PortalInv.ProcessFromKeeps | src/client.cpp:172-190 | handling client input keeps it, does not greet the backend, and leaves the backend's state alone |
| PortalInv.FromHandshakeKeeps | src/client.cpp:192-220 | so does reading a handshake, down every branch |
| PortalInv.FromLoginKeeps | src/client.cpp:222-231 | so does relaying a login |
| PortalInv.FakeStatusKeeps | src/client.cpp:233-259 | so does answering status and ping |
| PortalInv.FakeLoginKeeps | src/client.cpp:261-271 | so does answering a login |
| PortalInv.FromProxyKeeps | src/client.cpp:273-275 | so does passing bytes on |
| PortalInv.ProcessToKeeps | src/client.cpp:277-287 | handling backend input keeps it and the client's state |
| PortalInv.SendHelloKeeps | src/client.cpp:289-297 | joining a backend keeps it and greets exactly once |
| PortalInv.TryFromKeeps | src/client.cpp:309-330 | the client's event keeps it, also when it throws half way |
| PortalInv.TryToKeeps | src/client.cpp:339-417 | the backend's event keeps it, and greets exactly in the connect branch |
| PortalInv.RecoverKeeps | src/client.cpp:418-444 | the catch block keeps it, and greets exactly in its first branch |
| PortalInv.TimeoutKeeps | src/client.cpp:456-467 | the timer keeps it and greets nobody |
| PortalTheorems.StatesPaired | src/client.cpp:97-108 | from_s and to_s only form the listed pairs in any run, and neither "illegal state" exception is ever thrown |
| PortalTheorems.StableStays | src/client.cpp:409-415 | proxy_stable is never left, and the hub never takes a stable client over |
| PortalTheorems.Transparent | src/client.cpp:222-297 | in every run that greets once, until a fallback: sent, queued and unread bytes are the handshake re-encoded and every later client byte in order, the login frame re-encoded if one was read; once stable, sent and queued bytes alone are |
| PortalTheorems.OneGreetingExactly | src/client.cpp:289-297 | with one greeting, after whatever the hub answered before it, the same holds if and only if what waited at the greeting was all the client had sent; if the hub had answered nothing, if and only if it had injected nothing |
| PortalTheorems.TransparentExactly | src/client.cpp:289-297 | for clients that were never taken over and write logins canonically, that equality holds if and only if one greeting branch was taken, and nothing is unread once stable |
| PortalTheorems.GreetedOnce | src/client.cpp:289-297 | a joined backend was queued one handshake and what was relayed if and only if one greeting branch was taken; what was relayed is then from the front of what waited and what came since |
| PortalTheorems.SentStaysPrefix | src/client.cpp:338-445 | with one greeting that found all the client had sent waiting, what went to the backend stays a prefix of the client's stream, also after a fallback |
| PortalTheorems.PrefixExactly | src/client.cpp:338-445 | of all runs with one greeting, what was queued for the backend is a prefix of the client's stream if and only if what was relayed is from the front of the client's bytes behind its handshake |
| PortalTheorems.ReverseConserved | src/client.cpp:277-301 | until a fallback, what the client was sent, what waits for it and what came while still connecting are the backend's bytes in order; once joined, all of them were passed on |
| PortalTheorems.RunDrains | src/client.cpp:273-301 | in every run nothing of a joined backend's bytes, and nothing of a stable client's, is left unread |
| PortalTheorems.FallbackConserved | src/client.cpp:54-71 | while no backend is joined nothing was written to one, the client's bytes are all there in order between the hub's own packets, and its whole output is one reply per frame used up, each the one its request asks for |
| PortalTheorems.RepliesAnswer | src/client.cpp:233-271 | in every run each reply answers a whole frame, with the status text or the login text resolved in the event that queued it |
| PortalTheorems.OwnPackets | src/client.cpp:368-373 | in every run each injected packet is a request, or a login with the name read from the client by then, as the handshake asks |
| PortalTheorems.OwnBytes | src/client.cpp:54-71 | the bytes in the client's input that it did not send are the encodings of those packets, in order |
| PortalTheorems.TakeoverConserved | src/client.cpp:360-376 | with one greeting, the client was sent replies from before it, then all the backend sent, then one reply for each frame used up since |
| PortalHistory.HandleLater | src/client.cpp:307-467 | one event only adds replies, made from its own texts, only injects what the client was to be asked when it came, and never undoes a takeover or a disconnect |
| PortalHistory.HandleReads | src/client.cpp:79-84 | one event adds its arrival to the client's bytes, or erases the client; the handshake stays once read |
| PortalHistory.HandleDrains | src/client.cpp:273-301 | one event keeps a joined backend's and a stable client's input empty, also when it throws |
| PortalHistory.ReadIsPassedOn | src/client.cpp:273-275 | an event that reads a proxied client puts all its unread bytes into the backend's queue, in order |
| PortalAdmit.AwayRun | src/client.cpp:192-219 | a client whose record is dropped, for whom connecting fails otherwise than by name, or for whom there is neither a backend nor an answer: gone with the last byte of its handshake, however cut and whatever follows, with nothing queued for anyone and no backend asked for |
| PortalAdmit.DroppedRecord | src/client.cpp:197-198 | so is every client of a dropped record, whatever the environment answers |
| PortalAdmit.HelloTurn | src/client.cpp:192-199 | under any packet limit, reading part of a handshake does nothing or throws, and reading all of it starts the backend of its record |
| PortalAdmit.Dialled | src/client.cpp:199-213 | a record with an address and a port, and a connection that starts: the client waits, with its record and name kept, and what came behind the handshake unread |
| PortalAdmit.KeptByHub | src/client.cpp:200-219 | one without, or whose name does not resolve: the hub keeps the client to answer it by the state it asked for |
| PortalEvents.ClientOut | src/client.cpp:327-330 | the client's out event sends the front of what is queued, as much as the write takes, keeps the rest queued and changes nothing else; a write that throws moves nothing and erases the client |
| PortalEvents.OutEmpties | src/client.cpp:86-93 | in every run, an out event whose write takes everything leaves nothing queued for the client |
| PortalEvents.OutsDrain | src/client.cpp:86-93 | any number of out events send what was queued in order, each as much as its write takes, until all is sent |
| PortalEvents.InThenOut | src/client.cpp:320-330 | data and room in one event do what they do in two |
| PortalEvents.BackendOut | src/client.cpp:409-415 | a joined backend's out event sends the front of its queue, queues what the client has waiting behind the rest, tries that too, and makes both sides stable |
| PortalEvents.BackendOutIdle | src/client.cpp:409-415 | the same with nothing queued |
| PortalEvents.BackendOutEmpties | src/client.cpp:409-415 | in every run, one whose writes take everything leaves nothing queued for the backend and nothing of the client's unread |
| PortalEvents.BackendIn | src/client.cpp:386-390 | what a joined backend sends is queued for the client, in order |
| PortalEvents.BackendEarly | src/client.cpp:283-284 | what one sends before it is joined waits |
| PortalEvents.StableFails | src/client.cpp:378-383 | an error of a stable backend's socket disconnects the client and moves nothing |
| PortalEvents.BackendLeaves | src/client.cpp:341-359 | a backend that closed its end, or hung up once joined, disconnects the client, whatever else the event brings |
| PortalEvents.DisconnectedGoes | src/thread_controller.cpp:36-42 | a disconnected client is dropped with its next event, and nothing undoes that |
| PortalEvents.NobodysEvent | src/client.cpp:456-467 | a socket that is no longer polled and a timer that came too late change nothing |
| PortalEvents.NotConnected | src/client.cpp:345-406 | a hang-up or an error while connecting: the hub takes the client over, leaves what waits unread and stops listening |
| PortalEvents.TimedOut | src/client.cpp:456-467 | the timer does the same and handles what waits |
| PortalEvents.FailsUnasked | src/client.cpp:360-376 | an error of a joining backend while nothing waits: the client gets the status text or the login text it has not asked for yet |
| PortalEvents.CannotBeRead | src/client.cpp:418-438 | a joining backend that cannot be read and reports an error: taken over, injected when short, and nothing handled |
| PortalEvents.StatusJoins | src/client.cpp:289-297 | a connection that comes up for a status client: handshake and waiting bytes go to the backend, what the backend sent to the client |
| PortalEvents.LoginJoins | src/client.cpp:222-297 | for a login client whose login waits: handshake and login go to the backend, the name is kept, the rest waits |
| PortalEvents.LoginAwaited | src/client.cpp:222-297 | for one whose login has not all come: only the handshake goes |
| PortalEvents.LoginReads | src/client.cpp:222-231 | the login of a joined client is relayed when it has come, and its name kept |
| PortalEvents.WaitingReads | src/client.cpp:176-177 | what a client sends while its backend is awaited only waits |
| PortalEvents.ForeignPacket | src/client.cpp:233-259 | a packet of another id, or a head that is none, drops a client the hub answers, without a reply |
| PortalFlush.RunFlushes | src/client.cpp:27-93 | in every run on sockets that take all they are given, all that was ever written, to client and backend, has been sent by the end of each event |
| PortalFlush.HandleFlushes | src/client.cpp:307-467 | one event, of any kind, leaves nothing queued on such sockets |
| PortalCalm.StatusTransparent | src/client.cpp:289-297 | if no backend event fails to read or meets a throwing write, every status run greets once and is transparent until a fallback |
| PortalCalm.LoginTransparent | src/client.cpp:222-231 | so is every login run in which the client's bytes behind the handshake start with a login frame the limit allows |
| PortalResend.HelloThenRefusal | src/client.cpp:289-297 | joining with a next frame that is no login queues the handshake and then throws |
| PortalResend.FirstEvent | src/client.cpp:192-213 | a handshake for a backend, with more behind it in the same arrival, leaves the hub waiting and the rest unread |
| PortalResend.SecondEvent | src/client.cpp:386-428 | when the backend comes up and the rest is no login, the handshake is queued twice |
| PortalResend.HelloTwice | src/client.cpp:418-428 | then the backend is queued the handshake twice and the run is not transparent |
| PortalResend.HelloTwiceWitness | src/client.cpp:418-428 | concrete bytes for which it happens |
| PortalResend.HelloOnce | src/client.cpp:289-297 | a handshake and a connection that comes up: one greeting, and a transparent run |
| PortalResend.OwnBytesSent | src/client.cpp:360-428 | runs with one greeting in which the backend is sent the hub's own request behind a client byte |
| PortalResend.OwnRequestOnly | src/client.cpp:360-428 | runs in which the hub has answered its own request before the one greeting, and which are transparent all the same |
| PortalResend.LeftoverUnanswered | src/client.cpp:360-376 | runs in which a waiting byte leaves a client that was taken over without an answer |
| PortalResend.CaughtUnanswered | src/client.cpp:418-438 | runs in which the catch block injects a request with nothing waiting, and the client gets no reply |
| PortalResend.HungUpUnanswered | src/client.cpp:345-352 | runs in which a hang-up leaves a whole request unread |
| PortalChunks.HelloRun | src/client.cpp:192-259 | without a backend, or with one whose name does not resolve, after any part of a handshake and a request, cut up in any way, the hub has said nothing, or its one reply when all has come |
| PortalChunks.OneReply | src/client.cpp:192-271 | once all is delivered the client's view is that one reply, whatever the cut |
| PortalChunks.LaterPing | src/client.cpp:248-254 | each later ping to a hub that answers by itself, also after its backend failed, cut up in any way, adds the same ping frame |
| PortalChunks.FakeRun | src/client.cpp:233-271 | the same for any request to a hub that is already answering itself, for whatever reason |
| PortalChunks.FakeTurn | src/client.cpp:233-271 | one handler call on any part of a frame: nothing happens before the last byte, and the one reply with it |
| PortalFallback.InjectionAnswered | src/client.cpp:360-376 | in the error branch, when nothing waits, the client gets the reply to the request or login it has not sent yet |
| PortalFallback.AnsweredExactly | src/client.cpp:360-376 | in the error branch, with less than two bytes waiting, the client is answered if and only if none is |
| PortalFallback.FailureAnswers | src/client.cpp:338-467 | for every backend event and timer while connecting, any input and any faults: the replies it brings are those of what waits for the timer, of what waits with the injected packet for an error without hang-up, and none otherwise; nothing else reaches the client unless the backend is greeted |
| PortalFallback.WholeRequestExactly | src/client.cpp:338-467 | a client whose whole request waits when the hub takes it over is answered if and only if it is by the timer or by an error without hang-up, and then with its reply |
| PortalFallback.NothingWaitingExactly | src/client.cpp:338-467 | a client of whom nothing waits then is answered if and only if it is by an error without hang-up, and then with the reply to the injected packet |
| PortalFallback.RequestSpoilt | src/client.cpp:54-62 | a byte before the injected request never leaves a packet that is answered |
| PortalFallback.LoginSpoilt | src/client.cpp:63-71 | nor does one before the injected login |
| PortalFallback.HangUpErases | src/client.cpp:307-336 | a client that hangs up or whose socket fails is erased with that event |
| PortalFallback.ErasedStays | src/thread_controller.cpp:36-42 | and no later event changes anything |
| Portals.Portal.constructor | src/client.hpp:53-89 | a new client is in the initial state and satisfies the invariant |
| Portals.Portal.SetFromStateByHs | src/client.cpp:97-108 | the client is taken over by handshake state, or an exception leaves it alone |
| Portals.Portal.SelectRecord | src/client.cpp:110-136 | the in-place edits of server_name give the routed name, and its record is returned |
| Portals.Portal.FromFakeStatus | src/client.cpp:233-259 | does what the specification says, throwing exactly when it does |
| Portals.Portal.FromFakeLogin | src/client.cpp:261-271 | likewise, disconnecting after the reply |
| Portals.Portal.ServePaket | src/client.cpp:238-254 | one reply for the frame taken, and its place in the history |
| Portals.Portal.FromProxyBytes | src/client.cpp:273-275 | all client input goes to the backend's queue |
| Portals.Portal.ToProxyBytes | src/client.cpp:299-301 | all backend input goes to the client's queue |
| Portals.Portal.FromLoginPaket | src/client.cpp:222-231 | likewise, with from_s set before the write |
| Portals.Portal.FromHandshakePaket | src/client.cpp:192-220 | likewise, with the recursion into process_from_request shown to end |
| Portals.Portal.AdmitPaket | src/client.cpp:193-196 | the handshake is taken off the input, and the record is the one its address routes to |
| Portals.Portal.StartBackend | src/client.cpp:197-219 | drop, connect, an exception, or an unresolved name, as the specification says; what that means for the client is in `PortalAdmit.AwayRun`, `Dialled` and `KeptByHub` |
| Portals.Portal.ProcessFromRequest | src/client.cpp:172-190 | likewise, for every from_s |
| Portals.Portal.ProcessToRequest | src/client.cpp:277-287 | likewise, for every to_s |
| Portals.Portal.ToSendNewHs | src/client.cpp:289-297 | likewise, for an exception at each of its three steps |
| Portals.Portal.InjectWhenShort | src/client.cpp:368-373 | a packet is injected exactly when less than two bytes wait |
| Portals.Portal.OnFromEvent | src/client.cpp:307-336 | the whole handler, its exceptions and the erasure after it |
| Portals.Portal.HandleFrom | src/client.cpp:309-330 | its try block, step by step up to an exception; what each event sends is in `PortalEvents.ClientOut` and `InThenOut` |
| Portals.Portal.HandleTo | src/client.cpp:339-417 | the try block of the backend's handler: hanging up first |
| Portals.Portal.HandleToActions | src/client.cpp:360-417 | then error, input and output in this order |
| Portals.Portal.HandleToReadable | src/client.cpp:386-390 | backend input is received and handled by to_s |
| Portals.Portal.FlushTo | src/client.cpp:409-415 | a send that succeeds makes both sides stable |
| Portals.Portal.HandleToError | src/client.cpp:360-384 | the error branch by to_s |
| Portals.Portal.HandleToWritable | src/client.cpp:391-417 | the out branch by to_s |
| Portals.Portal.OnToEvent | src/client.cpp:338-445 | the whole handler with its catch block |
| Portals.Portal.OnTimeout | src/client.cpp:456-467 | the timer falls back exactly while connecting |
| Portals.Portal.Dispatch | src/thread_controller.cpp:36-42 | one event is one step of the specification, and keeps the invariant |
| Clients.PeekOnPrefix | src/sclient.cpp:17-25 | reading byte by byte, the length is known with the last byte of the two numbers, inside the frame |
| Clients.Client.WritePakets | src/sclient.hpp:43-56 | packets written one by one go out as the stream of their encodings, up to the first that trips the size check |
| Clients.Client.ReadPakets | src/sclient.hpp:31-42 | for every stream of packets and any short reads, repeated read_paket returns the packets in order, consumes exactly them and leaves the buffer empty |
| Clients.Converse | src/sclient.hpp:31-56 | what one client writes, another reads, for every list of packets that fit and any short transfers on both sides |
| Clients.Client.Read | src/sclient.cpp:5-10 | whatever the reads return, exactly the next `length` bytes are appended in order |
| Clients.Client.Write | src/sclient.cpp:12-15 | whatever the writes take, all the bytes go out once, in order |
| Clients.Client.PeekHead | src/sclient.cpp:17-25 | it ends with the frame's size, having read no further than the frame |
| Clients.Client.ReadPaket | src/sclient.hpp:31-42 | one frame is consumed and decoded, the buffer is empty again, the size still to read is not negative |
| Clients.Client.WritePaket | src/sclient.hpp:43-56 | the encoding goes out exactly when the size computed for it is right |
| Clients.Client.Status | src/sclient.cpp:27-39 | a handshake of version -1 and state 1 and a request go out, one response comes in |
| Clients.Client.SendPing | src/sclient.cpp:41-50 | a ping always fits, goes out, and one pingpong comes in |
| Clients.Client.LogIn | src/sclient.cpp:52-65 | a handshake of version -1 and state 2 and a login go out, one disconnect comes in |
| Clients.LongNameDoesNotFit | src/sclient.cpp:27-33 | a 118-byte host name trips the size check |
| Clients.StatusSeesText | src/client.cpp:233-259 | what `status` writes, cut up in any way, makes the hub write a frame that `status` reads back as the resolved status text |
| Clients.LoginSeesText | src/client.cpp:261-271 | what `login` writes makes it write a frame that `login` reads back as the resolved login text |
| Templates.TrimAt | src/response_props.hpp:143-153 | moving the pointer and the length trims white space at both ends |
| Templates.GetValue | src/response_props.hpp:142-159 | the value is that of the trimmed namespace and name, for every range of the text; which value that is, is in `QualifiedStandsFor` and `UnqualifiedStandsFor` |
| Templates.NameLength | src/response_props.hpp:109-110 | the longest run of variable characters, stopping at the terminator |
| Templates.Resolve | src/response_props.hpp:82-140 | the loop over `i` and `j` gives the left-to-right meaning of the text: no value is looked into again |
| Templates.Join | src/response_props.hpp:122-139 | the size summed first is the length of the text built after |
| Templates.ExpandConcat | src/response_props.hpp:82-140 | the meaning of a ++ b is the meanings in a row when no token of a reaches into b |
| Templates.EscapeRoundTrip | src/response_props.hpp:93-99 | doubling every dollar sign and resolving gives the text back, whatever the variables |
| Templates.QualifiedStandsFor | src/response_props.hpp:49-68 | `${ ns : name }`, with any white space, stands for the variable `name` of the first class called `ns`, or for the placeholder when there is none |
| Templates.UnqualifiedStandsFor | src/response_props.hpp:145-147 | without a colon, for the variable of the first class of all |
| Templates.BareStandsFor | src/response_props.hpp:108-115 | the bare form stands for what the bracketed form does |
| Templates.BracketsStandFor | src/response_props.hpp:100-107 | a bracket ends where it is closed, also around nested ones |
| Templates.OpenBracket | src/response_props.hpp:100-107 | a text that leaves a bracket open is not one that can be resolved |
| Templates.NameChars | src/response_props.hpp:69-71 | the characters of a bare name |
| Templates.LoneDollar | src/response_props.hpp:86-90 | a dollar sign before anything else stands for itself |
| Templates.PlainText | src/response_props.hpp:117-118 | so does text without one |
| Templates.SampleText | src/response_props.hpp:82-140 | "lol ${ hs:port } kek" is "lol ", the port of the handshake, " kek" |
| Base64.CodeIsTable | src/response_props.cpp:30-42 | code2char is Table 1 of RFC 4648 |
| Base64.CodeRoundTrip | src/response_props.cpp:30-42 | no two codes share a character, and none is the padding |
| Base64.RoundTrip | src/response_props.cpp:51-88 | decoding by section 4 of RFC 4648 recovers every byte sequence |
| Base64.Encoded | src/response_props.cpp:58-87 | the payload is 4 * ceil(n / 3) characters |
| Base64.CodesAreSextets | src/response_props.cpp:58-87 | shifts and masks give the four sextets, for signed and for unsigned `char` |
| Base64.Image | src/response_props.cpp:44-89 | the loop and its two tails give the prefix and the encoding, or the placeholder when there is no file |
| Base64.ReservedSize | src/response_props.cpp:55-57 | the reserved size is the payload's length and n % 3 more |
| Base64.Vectors | src/response_props.cpp:44-89 | test vectors of section 10 of RFC 4648 |
| Settings.SetsNothingExactly | src/settings.cpp:329-376 | a node leaves a record as it is if and only if every key in it says what the record says |
| Settings.RewriteExactly | src/settings.cpp:329-376 | overlaying a new node after an old one is overlaying it alone if and only if no key is left behind |
| Settings.OverlayIdempotent | src/settings.cpp:329-376 | a node overlaid twice is a node overlaid once |
| Settings.FillRecord | src/settings.cpp:329-351 | key by key, in any order of the variables: a key that is set has its value, the others keep theirs, but the port falls back to the default port and the record is not dropped |
| Settings.ApplyNode | src/settings.cpp:353-376 | the same with the fml record: none, an empty one, a dropped one, or the keys over an empty one |
| Settings.LoadServers | src/settings.cpp:417-425 | each server of the main file over a default record |
| Settings.Store.Load | src/settings.cpp:408-425 | the main file over the defaults, key by key for its default section and its domain |
| Settings.Store.LoadDir | src/settings.cpp:83-107 | mcsman's record, then the directory's own file over it |
| Settings.Store.LoadAll | src/settings.cpp:77-115 | the result depends on the tree alone, not on the order in which directories are listed |
| Settings.DirStep | src/settings.cpp:80-113 | loading one more directory gives the entry the whole tree gives it, and changes no other |
| Settings.FullLookup | src/settings.cpp:77-115 | the final record of each name, by main file, mcsman and own file |
| Settings.CreationAgrees | src/settings.cpp:265-291 | following a created server file is loading everything again |
| Settings.RewriteAgrees | src/settings.cpp:244-256 | so is following a rewritten one, if and only if files are not read or no key is left behind |
| Settings.AddressLeftBehind | src/settings.cpp:244-256 | a tree for which it is not |
| Settings.DeletionAgrees | src/settings.cpp:233-242 | so is following a deleted one, if and only if the condition stated on mcsman and the main file holds |
| Settings.MainRecordLost | src/settings.cpp:233-242 | a tree for which it is not |
| Settings.DirCreationAgrees | src/settings.cpp:199-211 | so is following a new directory, if and only if its file is not read or sets nothing |
| Settings.FileUnseen | src/settings.cpp:199-211 | a tree for which it is not |
| Settings.DirDeletionAgrees | src/settings.cpp:295-303 | so is following a removed directory, if and only if the stated condition holds |
| Settings.RecordLeftBehind | src/settings.cpp:295-303 | a tree for which it is not |
| Settings.EntryClosed | src/settings.cpp:166-307 | what a batch makes of a name: what its first setting event alone does, and its file read over once if an earlier event in the batch names it |
| Settings.BatchAgreesExactly | src/settings.cpp:166-307 | following a batch is loading everything again if and only if each name meets a condition on the two trees for the first event that sets it and for whether its file is named before |
| Settings.MainFirstAgrees | src/settings.cpp:180-191 | so a batch that starts with the main file agrees, whatever follows |
| Settings.HidesExactly | src/settings.cpp:329-376 | a node makes two records equal if and only if it sets every key in which they differ |
| Settings.RereadsAgree | src/settings.cpp:244-291 | so a batch of created and rewritten files, each reported any number of times, agrees if and only if files are not read or each rewritten one keeps its keys |
| Settings.DeletedComesBack | src/settings.cpp:233-303 | a batch, handled backwards, that brings a deleted directory's record back |
| Settings.Store.OnChange | src/settings.cpp:173-305 | one event of the watcher, in place |
| Settings.Store.Overlay | src/settings.cpp:245-256 | a file read again goes over the record in force, or over a default record |
| Settings.Store.OnBatch | src/settings.cpp:166-307 | a batch is handled from its last event to its first |
| Loaded.DefaultServerLoaded | src/settings.cpp:77-115 | the default server of a full load: each key of the main file's default section, and for the others the arguments |
| Loaded.DomainLoaded | src/settings.cpp:408-411 | its domain and whether files are read |
| Loaded.ServerLoaded | src/settings.cpp:77-115 | which names have a record, and what each key of it is, by main file, mcsman and own file |
| Loaded.UnknownServed | src/client.cpp:110-136 | an address under a name that nothing defines is served, key by key, as the default section and the arguments say, and by the section's fml record behind a marker |
| Settings.IsOverOnce | src/settings.cpp:329-351 | the keys decide a record: only one is so |
| Arguments.NumeralTaken | src/prog_args.cpp:29-35 | what a decimal numeral is taken as: its low 32 bits, when they are in range |
| Arguments.RangeCheckExactly | src/prog_args.cpp:29-35 | for which numbers the range check does what it says, if and only if |
| Arguments.PortWraps | src/prog_args.cpp:64-65 | a port far out of range that is accepted as 80 |
| Arguments.IsArgNameExactly | src/prog_args.cpp:24-27 | an argument has a name if and only if the text before its first '=' is that name |
| Arguments.OneOption | src/prog_args.cpp:44-85 | no argument matches two option names, so the order of the branches is irrelevant |
| Arguments.GetArgValue | src/prog_args.cpp:11-22 | the text after the first '=', else the next argument, else the exception; the iterator does not pass the end |
| Arguments.GetNumber | src/prog_args.cpp:64-71 | the same, as a number in range |
| Arguments.LettersExactly | src/prog_args.cpp:86-104 | a group of letters is accepted if and only if all are known, and switches on exactly those |
| Arguments.Composes | src/prog_args.cpp:37-109 | parsing a concatenation goes on where the first part ended, in each of the three ways it can end |
| Arguments.ItemsRead | src/prog_args.cpp:37-109 | a spelled list of settings, switches, letters and free texts parses to what they mean one by one |
| Arguments.SpellingIrrelevant | src/prog_args.cpp:11-22 | `--name=value` and `--name value` parse the same, in any mixture and for any values |
| Arguments.SettingsCommute | src/prog_args.cpp:44-83 | settings of different options can come in either order, if and only if they are not `max-packet-size` and `timeout` with different numbers |
| Arguments.AcceptedExactly | src/prog_args.cpp:37-109 | the accepted lists are exactly the spellings of items that can all take effect |
| Arguments.NeverSet | src/prog_args.cpp:58-71 | no list of arguments changes `drop` or `timeout` |
| Arguments.Arguments.Parse | src/prog_args.cpp:37-109 | the loop over the iterator sets the fields to the meaning of the list, also when it throws half way |
| Arguments.Arguments.ParseOption | src/prog_args.cpp:41-85 | the branches for full names |
| Arguments.Arguments.ParseSwitch | src/prog_args.cpp:54-61 | from `mcsman` on; the second branch for `distributed` is shown dead |
| Arguments.Arguments.ParseNumber | src/prog_args.cpp:62-71 | from `address` on |
| Arguments.Arguments.ParseLast | src/prog_args.cpp:72-85 | from `version` on, to the exception for unknown names |
| Arguments.Arguments.ParseOne | src/prog_args.cpp:40-107 | one turn of the loop: it stays within the list and moves on |
| Arguments.Arguments.ParseLetters | src/prog_args.cpp:86-104 | the loop over letters |
| Options.ConfOptions | src/prog_args.cpp:44-51 | what `--confname` and `--default-dir` set |
| Options.TextOptions | src/prog_args.cpp:46-49 | what `--status` and `--login` set |
| Options.HostOptions | src/prog_args.cpp:50-63 | what `--domain` and `--address` set |
| Options.PortOptions | src/prog_args.cpp:64-67 | what `--port` and `--default-port` set, and which numbers they refuse |
| Options.NumberOptions | src/prog_args.cpp:68-81 | what `--max-packet-size`, `--timeout` and `--threads` set |
| Options.VerbOption | src/prog_args.cpp:82-83 | what `--verb` sets |
| Options.ServerSwitches | src/prog_args.cpp:54-95 | what `--mcsman`, `--install` and `--distributed` set, by name and by letter |
| Options.AskingSwitches | src/prog_args.cpp:72-99 | what `--version` and `--help` set |
| Options.ProgramSwitches | src/prog_args.cpp:76-101 | what `--cli` and `--no-dns-cache` set |
| Options.OtherArguments | src/prog_args.cpp:84-107 | an unknown name is refused, a missing value reported, anything else kept |
| Options.NumeralGrows | src/prog_args.cpp:64-81 | a digit behind a numeral |
| Options.NumeralRead | src/prog_args.cpp:64-81 | the number that `atoi` finds behind white space and a sign, before anything else |
| Options.SampleArguments | src/prog_args.cpp:37-109 | `-m --confname=lol.yml --default-dir kek --port=255` |

## Left out

- Portals.Portal.Dispatch: sockets, the poll, timers and threads are the nondeterministic environment; a socket read that fails after `avail` answered, and `poll.add` or `poll.later` failing after the states are set, are not among its choices.
- Portals.Portal.FromFakeStatus: both `head` calls of one event see the same packet limit; a configuration swapped in between them is not modelled.
- Portals.Portal.OnToEvent: `ensure_connected` and `remote_endpoint` only report and do not throw, and `assert(poll.refuse(timeout))` holds.
- Portals.Portal.SelectRecord: an empty address, for which `name[name_sz - 1]` is outside the string, is taken as one without a trailing dot; the text one past the terminator reads as empty.
- Pakets.HeadOf: `size += s` past the int range is taken as a frame that never fits.
- PortalTheorems.Transparent: a client that writes a login other than canonically has it re-encoded on the way, which is stated; the handshake is re-encoded likewise.
- PortalFallback.AnsweredExactly: nicknames of 8 megabytes and more, for which the length read after a leftover byte can wrap around 32 bits.
- PortalChunks.LaterPing: a second frame that arrives together with the first waits for the next event, because one packet is handled for each; pings are therefore sent one after the other.
- Templates.Resolve: an unclosed `${`, for which the code uses a negative length, and a NUL inside a template; `trim_string`, `find_char` and `find_closing_bracket` are modelled from their use; pieces are not cut to 32-bit lengths.
- Templates.GetValue: environment, file and random uuid lookups are functions from names to texts.
- Settings.BatchAgreesExactly: batches in which the main file changed as well, which read it in their own event.
- Base64.Image: the file's path and its short reads.
- Settings.ApplyNode: records are values, so the copy and move rules of `server_record` (`src/settings.hpp:49-97`) are plain assignment.
- Settings.Store.Load: YAML syntax and type errors, partially loaded configurations, and the settings that no record depends on (address, port, threads, log, verb, timeout, packet size, dns cache).
- Settings.Store.OnChange: a main file that is created again, which is overlaid on the settings in force; watches added and removed.
- Arguments.Arguments.ParseOption: `str2loglvl` is a parameter; `atoi` is taken as the low 32 bits of `strtol`; the fields of arguments_t are grouped in three records by type.
- Clients.Client.ReadPaket: a peer that closes the connection or sends a frame that `head` rejects; time measured by ping.
- `on_disconnect` at shutdown, object lifetimes and logging.
- `hosts_db.cpp`: a one-line cache around a resolver that is not part of this model.
- `manager.cpp`, `mcshub.cpp`, `pingtool.cpp`, `main.cpp`: command plumbing with easy properties.
