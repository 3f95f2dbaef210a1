# Self-KVM: a verified model

Self-KVM lets one keyboard and mouse drive several computers: a server captures input and, when the
cursor runs off the edge of its screen, grabs the input and forwards it to the client whose screen
lies there. This project models that switching protocol as a distributed system, the wire format and
framing it speaks, the file transfer beside it, and two smaller pieces (the grid that becomes a
neighbour graph, and the trust-on-first-use store), and proves what they promise.

`dafny verify dfyconfig.toml` checks everything.

## How it is built

Code that changes state is modelled as a class or a loop, and each such method is proved equal to a
specification function; the theorems are about those functions, so they hold of the methods.

- **Switching.** `Layout`, `Server`, `Client` and `Controller` hold the classes and their
  specifications. `World` joins them: the controller, one outbound queue, one wire and one client
  machine per connection, and ten kinds of step in any order. `Handshake` is the connection task's
  part with arbitrary peers, `Traffic` what is on its way to each client and that it can drain. The
  key notion is `Settled`: a client as it will be once everything on its way has been delivered. An
  observer's `Ledger` carries what the state itself forgets, such as whether the Enter of the current
  visit found a client. `Routing` and `RoutingInvariant` prove the invariant step by step;
  `RoutingTheorems`, `Geometry`, `Homecoming`, `CrossingLaws`, `ScaleRoundTrip` and `LateJoiner`
  state the results. What single
  events come to is said without the functions that compute it: `EdgeLaws` in pixels and slots,
  `KeyLaws` in bits, `ControllerLaws` and `ClientLaws` over all runs and message sequences.
- **Wire.** `WireFormat` and `Codec` say which bytes every field and message is; `Utf8` makes text
  concrete; `WireIO` has the reader, the writer and the codec that drives them; `CodecTheorems` the
  laws. `WireBytes` writes every message out byte by byte as a reference, and `CodecErrors` shows that
  errors are true. `Framing` is generic in the decoder; `Transport` has the framed reader and writer.
- **Files.** `FileNames`, `FileTransfer` (planning and the reassembler), `Streaming` (the sender with
  short reads and the receiving loop), `Delivery` (end to end over a cut stream), `Publication` and
  `PublicationTheorems` (concurrent receives as atomic steps on one directory), `Download` (one
  receive, start to end).
- **Small pieces.** `GridLayout` and `TrustStore`.

## Where the code does less than one might expect

Of each of these the exact condition under which the property holds is proved, and that it fails on
some input.

| what | holds exactly when | fails on |
|---|---|---|
| A client that attaches while the cursor is already on its screen gets input without an Enter, and injects none of it | `RoutingTheorems.TranscriptBracketed` | `LateJoiner.ClickLost` |
| On local screens smaller than 4 by 4 the return inset does not keep the cursor off the trigger pixels | `CrossingLaws.ReturnDoesNotBounce` | `CrossingLaws.TinyScreenBounces` |
| `link` promises a symmetric graph but breaks one when a slot already led elsewhere | `GridLayout.LinkSymmetric` | `GridLayout.LinkBreaksSymmetry` |
| A message above MAX_FRAME_LEN is sent without complaint and not received; a long clipboard text is one | `Transport.SendReceive`, `Transport.ClipboardFits` | `Transport.LongTextRefused` |
| A receive whose temporary name is already taken deletes that file in its clean-up | `PublicationTheorems.FilesKept` | `PublicationTheorems.LeftoverRemoved` |
| A failed transfer leaves an empty file under the real name when its rename failed | `PublicationTheorems.EmptyFileExactly` | `PublicationTheorems.EmptyFileLeft` |
| An identity or fingerprint that does not fit a line is not bound by its first use: one with whitespace in the identity is trusted afresh after a restart | `TrustStore.FirstUseExactly` | `TrustStore.TrustedAfresh` |
| Failing to write the trust file goes unnoticed: a write that is cut short loses pins or leaves wrong ones for the next restart | `TrustStore.CutExactly` | `TrustStore.CutMispins` |

Where the repository's documentation and code disagree the model follows the code: README.md:78-80 of
the repository says stale replies are discarded by sequence number, and no code does so.

## Model

| member | source | states |
|---|---|---|
| RoutingTheorems.EnteredExactlyWhenVisited | crates/kvm-daemon/src/server.rs:201-227 | In every reachable state a client that has worked off everything on its way to it is entered if and only if the cursor is on its screen and it was connected when that Enter was dispatched |
| RoutingTheorems.StaleEntryHasLeavePending | crates/kvm-core/src/server.rs:221-296 | A client that still believes it is entered although the cursor is elsewhere has a Leave on its way |
| RoutingTheorems.AtMostOneEntered | crates/kvm-core/src/client.rs:94-110 | Of two entered clients whose queues have drained, both are the active screen: at most one client is entered |
| RoutingTheorems.RoutedExactlyOnce | crates/kvm-core/src/client.rs:112-155 | Exactly once and in order: the button, wheel and key commands a client has injected, followed by those its queues will still make it inject, are the translation of the events captured while it was visited after a delivered Enter; neither client gate drops one |
| RoutingTheorems.PointerFollows | crates/kvm-core/src/server.rs:221-232 | The last absolute position a visited client injects once its queues drain is the server's cursor cut to sixteen bits |
| RoutingTheorems.PointerAgrees | crates/kvm-core/src/server.rs:282-290 | So it is the server's cursor if and only if both coordinates fit sixteen bits |
| RoutingTheorems.GrabDiscipline | crates/kvm-daemon/src/server.rs:273-276 | In every reachable state input is grabbed exactly while the active screen is remote, the n-th Enter carries n modulo 2^32, and nothing is ever routed to the local screen |
| RoutingTheorems.TranscriptBracketed | crates/kvm-daemon/src/server.rs:219-227 | The messages routed to a connected screen form (Enter input* Leave)*, open exactly while it is visited, if and only if its client did not attach while the cursor was already there (or nothing was sent since) |
| RoutingTheorems.DeliveredExactlyAfterEnter | crates/kvm-daemon/src/server.rs:268-272 | A visited, connected client counts as entered exactly if an Enter was queued for it since it connected |
| RoutingTheorems.LockHolds | crates/kvm-core/src/server.rs:208-219 | While locked, no captured event changes the active screen or sends an Enter |
| RoutingTheorems.HandshakeAdoptsSize | crates/kvm-daemon/src/server.rs:298-348 | Of the clients that follow the protocol only those with unknown names are rejected, and a connected screen has in the layout the size its client really has, cut to sixteen bits; what becomes of every other peer is said by Handshake.AttachedExactly |
| Handshake.Greet | crates/kvm-daemon/src/server.rs:298-348 | Whatever a peer sends, and however much can be written to it, it is told exactly what the specification Agree says, and the result is that of Agree: no answer, a wrong version, an unknown name, a message out of turn, or its name and size |
| Handshake.JoinsExactly | crates/kvm-daemon/src/server.rs:305-332 | A peer is let in if and only if it first gives our protocol version and a name of the layout and then reports a size |
| Handshake.SaidExactly | crates/kvm-daemon/src/server.rs:298-341 | What a peer has been told by the end of its handshake, word for word, for each way it can end |
| Handshake.TurnedAwayTruly | crates/kvm-daemon/src/server.rs:305-332 | The reason a peer is turned away for is the one that applies |
| Handshake.AttachedExactly | crates/kvm-daemon/src/server.rs:298-348 | In the whole system, whatever a greeted peer has answered, once the connection task has read it (the connection going by the name given first, if one is) the controller has been told of the peer, with just the reported size, if and only if the answers agree; otherwise the controller is as it was |
| Handshake.HonestJoins | crates/kvm-core/src/client.rs:70-100 | The two sides fit: fed everything the server says in a full handshake, the client answers what makes the server say just that, and is let in if and only if its name is in the layout |
| RoutingInvariant.StepKeepsInv | crates/kvm-daemon/src/server.rs:201-256 | Every step (captured event, lock, tick, clipboard, connect, handshake exchange, attach, disconnect, queue pump, delivery) keeps the whole-system invariant |
| RoutingInvariant.ReachableInv | crates/kvm-daemon/src/server.rs:196-258 | The invariant holds after every run from a fresh start |
| RoutingInvariant.DeliverSettles | crates/kvm-core/src/client.rs:70-110 | Delivering a message changes nothing about how its client will stand once its queues drain |
| Traffic.AckBeforeEnter | crates/kvm-core/src/client.rs:85-110 | In every reachable state an entered client has been acknowledged, and in what is on its way to a client not yet acknowledged InfoAck stands before every Enter |
| Traffic.RoutineFits | crates/kvm-daemon/src/server.rs:298-348 | Every message the server queues or says in a handshake fits a frame, clipboard texts up to the limit |
| Traffic.PendingCarried | crates/kvm-net/src/transport.rs:39-88 | In every reachable state what is on its way to a client can be bytes: framed on a stream it is received as it is, in order |
| Traffic.Drains | crates/kvm-daemon/src/server.rs:350-356 | From every state there are deliveries to one client after which nothing is on its way to it, it is as it was said to settle, and nothing else has changed |
| Traffic.CapturedInjected | crates/kvm-core/src/client.rs:112-155 | From every reachable state there are such deliveries after which the client has injected exactly the events captured for it, in order, and is entered if and only if it is visited after a delivered Enter |
| Routing.HandleOutcome | crates/kvm-core/src/server.rs:132-169 | Each captured event has one of a few outcomes on the server, and these fix its new state and actions |
| LateJoiner.Join | crates/kvm-daemon/src/server.rs:298-348 | From every reachable state in which a known client is not connected, its handshake can run to its end, with exactly this resulting world |
| LateJoiner.ClickLost | crates/kvm-daemon/src/server.rs:268-272 | The transcript property does fail: a run in which the cursor crosses onto a screen with no client, the client attaches, and a click is then sent to it without an Enter and injected nowhere |
| Geometry.InjectedOnScreen | crates/kvm-core/src/client.rs:112-128 | With all sizes in 1..=32767, every absolute position a client ever injects lies on its own screen, and no relative motion is ever injected |
| Geometry.PointerAgreesOnScreen | crates/kvm-core/src/server.rs:240-249 | With those sizes the settled pointer of a visited client is the server's cursor, and inside the client's screen |
| Geometry.RunKeepsGeo | crates/kvm-core/src/server.rs:163-169 | Every run with such sizes keeps the cursor inside the visited client's real screen and all pending positions inside theirs |
| CrossingLaws.ScaleIsDivision | crates/kvm-core/src/layout.rs:200-206 | On axes that fit 32 bits the 64-bit product cannot overflow, the 32-bit cast loses nothing, the clamp is a no-op: scaling is division |
| CrossingLaws.EntryInside | crates/kvm-core/src/layout.rs:167-175 | The entry point of every crossing lies inside a target of at least one pixel each way |
| CrossingLaws.MotionEndsInside | crates/kvm-core/src/server.rs:163-169 | After a handled motion that leaves the machine remote the cursor is inside the active screen, locked or not |
| CrossingLaws.MotionFits | crates/kvm-core/src/server.rs:163-169 | For deltas within 32 bits less the widest screen, adding a delta to the remote cursor never wraps: the wrapped sum is the plain one |
| CrossingLaws.InsideNeverCrosses | crates/kvm-core/src/server.rs:221-232 | On a remote screen a motion that stays inside is forwarded as is and never crosses; leaving is exactly running off an edge |
| CrossingLaws.ReturnDoesNotBounce | crates/kvm-core/src/server.rs:308-317 | After coming home the trigger pixels are out of reach if and only if the local screen is at least 4 by 4, and re-reporting the warped position does nothing if and only if it is that large, the machine is locked, or no screen lies over the edge touched |
| CrossingLaws.TinyScreenBounces | crates/kvm-core/src/server.rs:308-317 | On screens of 3 by 3 a cursor that has just come home is sent away again by a report of the position it was warped to |
| CrossingLaws.ReturnNeedsTwoPixels | crates/kvm-core/src/server.rs:308-317 | From 5 by 5 up a move of one pixel after coming home never crosses |
| CrossingLaws.CrossingUndone | crates/kvm-core/src/layout.rs:147-183 | In a symmetric layout stepping one pixel back over the opposite edge undoes a crossing, the free coordinate being scaled there and back |
| EdgeLaws.GoesWhereItLeads | crates/kvm-core/src/layout.rs:140-163 | An unlocked cursor that gets to a pixel of the local screen, or to a point relative to a remote one, goes to the neighbour of the side it touches or has passed (x = 0 left, else the last column right, else y = 0 top, else the last row bottom; beyond the edges on a remote screen), and stays if there is none |
| EdgeLaws.ArrivesAcross | crates/kvm-core/src/layout.rs:165-175 | It arrives on the facing rim at the point that is proportional to the nearest point of the rim left, by inequalities that fix it; one screen is left or the grab taken, the other told the same point with the next number and the modifiers, and the change announced |
| EdgeLaws.AcrossIsOne | crates/kvm-core/src/layout.rs:200-206 | No other point is across |
| EdgeLaws.ComesHome | crates/kvm-core/src/server.rs:262-279 | Coming home the cursor is put at the point nearest to the one across that is two pixels or more from every edge (the third pixel of an axis shorter than five); the client is told, the grab released and the real cursor warped to that very point |
| EdgeLaws.ComesHomeNearby | crates/kvm-core/src/server.rs:308-317 | On a local screen of 5 by 5 or more no coordinate moves by more than two pixels for that, and one that is clear of the edges not at all |
| EdgeLaws.HeldInside | crates/kvm-core/src/server.rs:229-242 | A remote cursor that is locked in or finds no neighbour is held at the nearest pixel of its screen, and its client told which |
| EdgeLaws.LeftAlone | crates/kvm-core/src/server.rs:229-245 | A local one that leads nowhere is taken note of and nothing is done |
| EdgeLaws.NotActedOn | crates/kvm-core/src/server.rs:142-181 | Absolute motion is ignored away from home, and buttons, wheel and keys at home |
| EdgeLaws.StartsCentred | crates/kvm-core/src/server.rs:43-59 | The cursor starts in the middle of the local screen |
| EdgeLaws.CalledHome | crates/kvm-core/src/server.rs:110-129 | Called home it is put in the middle, the grab released and the real cursor warped there |
| KeyLaws.ModifiersTracked | crates/kvm-core/src/server.rs:319-353 | After any event each modifier is held as the event says: the one that the key itself is by its going down or up, all others by the event's mask; other events change none |
| ScaleRoundTrip.RoundTripLoss | crates/kvm-core/src/layout.rs:200-206 | scale(scale(v,a,b),b,a) = v - ceil((v*b mod a)/b) |
| ScaleRoundTrip.RoundTripFixed | crates/kvm-core/src/layout.rs:200-206 | The fixed points of the round trip are exactly the multiples of a/gcd(a,b) |
| ScaleRoundTrip.RoundTripsSettle | crates/kvm-core/src/layout.rs:200-206 | Repeated round trips never raise the coordinate and settle at the largest such multiple not above it |
| ScaleRoundTrip.Bezout | crates/kvm-core/src/layout.rs:200-206 | The greatest common divisor used there is a combination of both axes and divides them |
| Homecoming.OperatorCanGetHome | crates/kvm-core/src/server.rs:208-296 | In a symmetric layout of non-empty screens, from every reachable unlocked state, fewer relative motions than screens, all of 32-bit deltas, make the local screen active with the grab released |
| Homecoming.StepKeepsWayHome | crates/kvm-core/src/server.rs:101-105 | Every step keeps a walk over neighbouring screens from the active screen to the local one |
| Layout.ScreenLayout.AddScreen | crates/kvm-core/src/layout.rs:104-113 | Adds a screen without neighbours, replacing one of that name |
| Layout.ScreenLayout.Link | crates/kvm-core/src/layout.rs:118-126 | Sets both reciprocal slots, each only if its screen exists |
| Layout.ScreenLayout.SetSize | crates/kvm-core/src/server.rs:101-105 | Changes the size of a known screen and nothing else |
| Server.ServerMachine.constructor | crates/kvm-core/src/server.rs:43-59 | Starts local, at the middle of the local screen, unlocked, with no Enter sent |
| Server.ServerMachine.HandleEvent | crates/kvm-core/src/server.rs:132-139 | State and actions are those of the specification Handle, cursor sums wrapping at 32 bits |
| Server.ServerMachine.OnLocal | crates/kvm-core/src/server.rs:142-160 | State and actions are those of HandleLocal, sums wrapping at 32 bits: only motions can act |
| Server.ServerMachine.OnRemote | crates/kvm-core/src/server.rs:163-203 | State and actions are those of HandleRemote, sums wrapping at 32 bits: everything but absolute motion is forwarded |
| Server.ServerMachine.Cross | crates/kvm-core/src/server.rs:208-297 | State and actions are those of TryCross: stay, come home or enter, with the order of Leave, grab and Enter |
| Server.ServerMachine.GoHomeNow | crates/kvm-core/src/server.rs:110-129 | State and actions are those of GoHome; nothing when already local |
| Server.ServerMachine.SetScreenSize | crates/kvm-core/src/server.rs:101-105 | Adopts a reported size for a known screen |
| Server.ServerMachine.SetLock | crates/kvm-core/src/server.rs:65-67 | Sets the lock and nothing else |
| Server.ServerMachine.ToggleLock | crates/kvm-core/src/server.rs:70-73 | Flips the lock, reports it, and changes nothing else |
| Server.ServerMachine.IsRemote | crates/kvm-core/src/server.rs:81-83 | Whether the active screen is not the local one |
| Client.ClientMachine.HandleMessage | crates/kvm-core/src/client.rs:70-183 | State and actions are those of the specification Handle |
| Client.ClientMachine.ControlMessage | crates/kvm-core/src/client.rs:70-183 | The same for everything but input: handshake, Enter and Leave, errors |
| Client.ClientMachine.InjectCommand | crates/kvm-core/src/client.rs:185-197 | Injects exactly when entered, and for moves when acknowledged as well |
| ClientLaws.DoesAsSeen | crates/kvm-core/src/client.rs:70-183 | Over any messages at all, whoever sends them, a client has injected the buttons, wheel turns and keys, has the pointer where, and keeps the gates and the last number, as an independent onlooker of the messages reckons |
| ClientLaws.DoesAsSeenFromStart | crates/kvm-core/src/client.rs:51-60 | The same of a client that has just started |
| ClientLaws.AnswersExactly | crates/kvm-core/src/client.rs:70-93 | It answers a greeting, a question about its screen and a keep-alive, with just these answers, and nothing else |
| ClientLaws.GivesUpExactly | crates/kvm-core/src/client.rs:157-169 | It gives up exactly when told to close or of one of four errors, and for the reason told |
| Controller.ControllerLoop.DispatchOne | crates/kvm-daemon/src/server.rs:261-282 | An action goes to its connected client's queue, to the grab or to the warp; a Send to an unconnected screen is dropped |
| Controller.ControllerLoop.DispatchEach | crates/kvm-daemon/src/server.rs:203-207 | A list of actions is dispatched in order |
| Controller.ControllerLoop.Local | crates/kvm-daemon/src/server.rs:203-207 | A captured event: handled, then its actions dispatched |
| Controller.ControllerLoop.ClientConnected | crates/kvm-daemon/src/server.rs:208-218 | Adopts the size, then enters the client in the table |
| Controller.ControllerLoop.ClientDisconnected | crates/kvm-daemon/src/server.rs:219-227 | Drops the client, and goes home if it was active |
| Controller.ControllerLoop.SendToAll | crates/kvm-daemon/src/server.rs:237-254 | A tick or clipboard text is queued once for every connected client |
| ControllerLaws.AnnouncedToAll | crates/kvm-daemon/src/server.rs:237-254 | A tick or a copied text within the limit is put behind what is on its way to every connected client, to no other, and changes nothing else |
| ControllerLaws.HeardInOrder | crates/kvm-daemon/src/server.rs:261-272 | While a connection lasts, what its client has heard followed by what is still on its way is what was on its way followed by what was sent to it, in every run: nothing lost, added or overtaken |
| ControllerLaws.AnnouncementsHeard | crates/kvm-daemon/src/server.rs:237-254 | From its attachment on, the keep-alives and texts a client has heard and those still on their way to it are exactly the ticks and copies since then, in order |
| ControllerLaws.WarpedHome | crates/kvm-daemon/src/server.rs:277-278 | In every step in which the cursor comes home, by itself or called, the real one is warped to where the server has it, and no step warps it elsewhere |
| ControllerLaws.LostClientCentres | crates/kvm-daemon/src/server.rs:219-227 | Losing the client that has the cursor leaves it, and the real one, in the middle of the local screen, with the grab released |
| ControllerLaws.OtherClientLost | crates/kvm-daemon/src/server.rs:219-227 | Losing another client changes nothing but its own entry |
| GridLayout.BuildLayout | src-tauri/src/lib.rs:89-108 | On screens with distinct names and cells the nested loops produce exactly grid adjacency, with one added to a cell in 32 bits, and all sizes at least one pixel |
| GridLayout.AdjoinsPlainly | src-tauri/src/lib.rs:94-106 | Short of the last 32-bit column and row, that adjacency is the plain one |
| GridLayout.GridIsSymmetric | src-tauri/src/lib.rs:89-108 | So the graph is symmetric |
| GridLayout.LinkSymmetric | crates/kvm-core/src/layout.rs:115-126 | Linking two known screens keeps a symmetric graph symmetric if and only if both slots were empty or already mutual |
| GridLayout.LinkBreaksSymmetry | crates/kvm-core/src/layout.rs:115-126 | It does break: a second link over the same edge leaves the first neighbour leading to a screen that no longer leads back |
| GridLayout.TurnKeepsSlots | src-tauri/src/lib.rs:94-106 | One turn of the inner loop keeps every slot right for the pairs visited |
| Utf8.DecodeEncode | crates/kvm-proto/src/codec.rs:104-107 | Every string is read back from its UTF-8 encoding (sections 3 and 4 of RFC 3629) |
| Utf8.EncodeDecode | crates/kvm-proto/src/codec.rs:104-107 | Bytes that decode are the one encoding of what they decode to |
| WireBytes.TextExamples | crates/kvm-proto/src/codec.rs:104-107 | Characters of the examples in section 7 of RFC 3629 have the bytes given there |
| WireFormat.ParsePrinted | crates/kvm-proto/src/codec.rs:92-123 | Each kind of field within its cap is read back, whatever follows |
| WireFormat.PrintParsed | crates/kvm-proto/src/codec.rs:52-123 | Whatever a field is read from is its encoding (any non-zero byte for a set flag) followed by the rest, and it is within its cap |
| WireFormat.NoFieldFromPrefix | crates/kvm-proto/src/codec.rs:40-50 | No strict prefix of a field's encoding reads as such a field |
| WireFormat.ParseExtends | crates/kvm-proto/src/codec.rs:40-50 | More bytes behind a field do not change how it is read |
| CodecTheorems.DecodeExactly | crates/kvm-proto/src/message.rs:309-434 | For every payload and message: the payload decodes to the message if and only if it says it and the message is within the caps |
| CodecTheorems.RoundTrip | crates/kvm-proto/src/message.rs:178-305 | A message survives encoding and decoding if and only if its length-prefixed fields are within the caps |
| WireBytes.EncodedOnWire | crates/kvm-proto/src/message.rs:178-305 | For every message the codec writes exactly the bytes of an independent table: the four letters, then each field byte by byte |
| WireBytes.SmallSurvives | crates/kvm-proto/src/codec.rs:92-123 | Those bytes are read back as the message if and only if no name, data or list in it is above 4194304 bytes (or 1048576 options) |
| WireBytes.FramedSurvives | crates/kvm-net/src/transport.rs:16-22 | Framed they are received whole if and only if there are at most 4194304 of them |
| WireBytes.FramedOnWire | crates/kvm-net/src/transport.rs:78-88 | A frame is its payload behind its length in four bytes |
| WireBytes.CastsKeepLow | crates/kvm-core/src/server.rs:246-249 | The narrowing casts keep exactly the low bytes |
| CodecTheorems.DecodedIsStable | crates/kvm-proto/src/message.rs:309-434 | Decoding, re-encoding and decoding again gives the same message |
| CodecErrors.DecodeErrsTruly | crates/kvm-proto/src/message.rs:309-434 | A code is reported unknown if and only if no message has it, and every other decoding error is true of the bytes: fewer were left than needed, a length is over its limit, or a stretch is not UTF-8 |
| CodecTheorems.NoPrefixDecodes | crates/kvm-proto/src/message.rs:309-434 | No strict prefix of an encoding decodes, save that HelloBack cut to eleven bytes reads as Hello |
| CodecTheorems.OpcodesDiffer | crates/kvm-proto/src/message.rs:30-62 | No two kinds of message share an opcode |
| CodecTheorems.GreetingHasNoOpcode | crates/kvm-proto/src/message.rs:309-330 | No opcode begins the greeting's magic |
| WireIO.Reader.TakeBytes | crates/kvm-proto/src/codec.rs:40-50 | Takes exactly n bytes, or fails with what was needed and had and moves nothing |
| WireIO.Reader.Number | crates/kvm-proto/src/codec.rs:52-84 | Reads the number of its kind's width and sign that the specification reads, and leaves what it leaves |
| WireIO.Reader.ReadBytes | crates/kvm-proto/src/codec.rs:92-101 | Length, cap, then that many bytes |
| WireIO.Reader.ReadText | crates/kvm-proto/src/codec.rs:104-107 | The same, checked to be UTF-8 |
| WireIO.Reader.ReadInts | crates/kvm-proto/src/codec.rs:110-123 | Count, cap, then that many numbers, by a loop |
| WireIO.Reader.Field | crates/kvm-proto/src/codec.rs:52-123 | A field of any kind is read as the specification parses it, errors and what is left included |
| WireIO.Reader.Fields | crates/kvm-proto/src/message.rs:331-434 | So is a message's list of fields |
| WireIO.Writer.RawBytes | crates/kvm-proto/src/codec.rs:144-147 | Appends the bytes |
| WireIO.Writer.Number | crates/kvm-proto/src/codec.rs:149-181 | Appends the number big-endian at its width |
| WireIO.Writer.WriteBytes | crates/kvm-proto/src/codec.rs:184-188 | Appends the length modulo 2^32 and the bytes |
| WireIO.Writer.WriteText | crates/kvm-proto/src/codec.rs:191-193 | Appends the string's UTF-8 as a byte field |
| WireIO.Writer.WriteInts | crates/kvm-proto/src/codec.rs:196-202 | Appends the count and the numbers, by a loop |
| WireIO.Writer.Fields | crates/kvm-proto/src/message.rs:178-305 | A message's fields are appended exactly as the specification prints them |
| WireIO.EncodeMessage | crates/kvm-proto/src/message.rs:178-305 | Drives the writer field by field to exactly the specified payload |
| WireIO.DecodeMessage | crates/kvm-proto/src/message.rs:309-434 | Drives the reader field by field to exactly the specified result, errors included |
| WireIO.ReadHello | crates/kvm-proto/src/message.rs:309-325 | A greeting's fields: a Hello if nothing follows the version, else a HelloBack |
| Framing.ReceiveFrame | crates/kvm-net/src/transport.rs:39-64 | A payload up to the limit comes out of its frame whole, with nothing after it touched |
| Framing.ReceiveOversized | crates/kvm-net/src/transport.rs:48-51 | A longer one is refused as too large, or, past 2^32, leaves part of itself unread |
| Framing.ReceiveCutStream | crates/kvm-net/src/transport.rs:39-64 | A stream cut anywhere yields exactly the messages whose frames are complete, then the way it ended: closed, broken or stalled |
| Transport.FramedReader.Recv | crates/kvm-net/src/transport.rs:39-64 | One receive is the specification Receive: short header, oversized, short body, bad payload, message; a stream may end by closing, by an error or by a stall |
| CodecErrors.ReceiveErrsTruly | crates/kvm-net/src/transport.rs:39-64 | A receive fails only with the way the stream ends before the frame does, a length over 4194304, or what is wrong with exactly its payload |
| Transport.FramedWriter.Send | crates/kvm-net/src/transport.rs:78-88 | Appends exactly the message's frame, or as much of it as can be written, and fails if and only if that is not all |
| Transport.SendReceive | crates/kvm-net/src/transport.rs:78-88 | What is sent is what is received next, with the rest of the stream untouched, if and only if the encoding fits MAX_FRAME_LEN |
| Transport.ClipboardFits | crates/kvm-daemon/src/server.rs:243-254 | A clipboard message takes fourteen bytes more than its text, so it fits a frame if and only if the text is at most MAX_FRAME_LEN less fourteen |
| Transport.LongTextRefused | crates/kvm-net/src/transport.rs:48-51 | One that does not fit is written by the server all the same and refused by its client |
| Transport.CutStream | crates/kvm-net/src/transport.rs:39-64 | Over messages that fit, a cut stream yields a prefix of them, as long as the frames that end within the cut, then the way it ended |
| Transport.WholeStream | crates/kvm-net/src/transport.rs:39-64 | Messages that fit are received in order whatever follows them |
| Transport.FrameWithinCaps | crates/kvm-proto/src/codec.rs:92-123 | No message that fits a frame trips a field cap |
| Transport.ChunkFitsFrame | crates/kvm-core/src/file_transfer.rs:27-31 | Every chunk up to MAX_CHUNK_SIZE fits a frame |
| FileNames.SanitizeExactly | crates/kvm-core/src/file_transfer.rs:72-106 | A name passes if and only if its last component is safe, and that component is what comes out |
| FileNames.SanitizeTwice | crates/kvm-core/src/file_transfer.rs:72-106 | What comes out goes through unchanged |
| FileNames.DevicesRefused | crates/kvm-core/src/file_transfer.rs:96-104 | Device names are refused in any case, behind any directories, with any extension |
| FileNames.BaseExactly | crates/kvm-core/src/file_transfer.rs:74-76 | The base is what stands after the last separator |
| FileNames.PassesIfGood | crates/kvm-core/src/file_transfer.rs:72-106 | In plain characters: what comes out of a name is what stands behind the last slash, backslash or colon, if it is good by itself: no control characters, no dot in front, no dot or space behind, not blank, and not one of the twenty-two devices in any spelling or with any extension |
| Chars.WhitespaceListed | crates/kvm-core/src/file_transfer.rs:89-95 | Whitespace is the twenty-five characters the Unicode Standard lists |
| FileNames.NumberedSafe | crates/kvm-daemon/src/file_transfer.rs:268-271 | A safe name behind a number and a hyphen is safe |
| FileTransfer.PlanMessages | crates/kvm-core/src/file_transfer.rs:143-154 | The loop builds exactly the planned messages |
| FileTransfer.PlanSized | crates/kvm-core/src/file_transfer.rs:138-154 | Every chunk planned is of the size asked for, or of one byte if none was asked for, but for the last |
| FileTransfer.PlanChunks | crates/kvm-core/src/file_transfer.rs:147-151 | One numbered chunk per block |
| FileTransfer.BlocksPartition | crates/kvm-core/src/file_transfer.rs:148-150 | The blocks are the data in order, each full but the last, none empty |
| FileTransfer.BlocksCount | crates/kvm-core/src/file_transfer.rs:110-117 | There are size divided by the chunk size of them, rounded up |
| FileTransfer.FileReassembler.Start | crates/kvm-core/src/file_transfer.rs:176-191 | Begins an account for a name that passes and a size within the limit, with the source's errors in its order |
| FileTransfer.BeginsExactly | crates/kvm-core/src/file_transfer.rs:176-191 | An offer is taken up if and only if its size is within the limit and a safe name is the last component of its name, and then with just that account |
| FileTransfer.RefusedTruly | crates/kvm-core/src/file_transfer.rs:176-191 | It is refused only for a reason that applies |
| FileTransfer.FileReassembler.AcceptChunk | crates/kvm-core/src/file_transfer.rs:212-247 | Takes the chunk or fails with the source's error in its order; an error changes nothing; the byte sum fits 64 bits |
| FileTransfer.ChunkRefusedTruly | crates/kvm-core/src/file_transfer.rs:212-247 | A chunk that is taken has nothing wrong with it, and one that is refused has what is said to be wrong with it |
| FileTransfer.EndRefusedTruly | crates/kvm-core/src/file_transfer.rs:251-271 | The same for the end of a file |
| FileTransfer.FileReassembler.Finish | crates/kvm-core/src/file_transfer.rs:251-271 | Accepts the end exactly for the right id, count and total |
| FileTransfer.AccountingSound | crates/kvm-core/src/file_transfer.rs:237-245 | Over any calls next <= received <= min(declared, next * MAX_CHUNK_SIZE), so a chunk's size can be added in 64 bits even without a limit |
| FileTransfer.WrittenBounded | crates/kvm-core/src/file_transfer.rs:212-271 | For any messages no more is written than was declared, and success means exactly as much |
| FileTransfer.FinishedExactly | crates/kvm-core/src/file_transfer.rs:212-271 | A body succeeds with these bytes if and only if it begins with chunks 0..count-1 in order, well cut and adding up to the declared size, and the matching end |
| FileTransfer.PlanDelivered | crates/kvm-core/src/file_transfer.rs:138-154 | A planned transfer is received byte for byte |
| FileTransfer.PlanCompletes | crates/kvm-core/src/file_transfer.rs:110-117 | An honest transfer leaves the receiver's account with next_seq equal to chunk_count and received equal to the size, when the count fits 32 bits |
| FileTransfer.Shuffled | crates/kvm-core/src/file_transfer.rs:156-163 | One honest transfer's messages dropped, duplicated or reordered are received if and only if they begin with the chunks and end in order, and then as exactly the original bytes |
| Streaming.Fill | crates/kvm-daemon/src/file_transfer.rs:156-166 | However short the reads, the buffer is filled unless the source ends or fails first, with the next bytes in order; it fails if and only if the source fails before the buffer is full |
| Streaming.SendChunk | crates/kvm-daemon/src/file_transfer.rs:138-146 | One turn of the loop: one more block read and sent, the end, a failed read, or a failed write of the block |
| Streaming.SendChunks | crates/kvm-daemon/src/file_transfer.rs:134-146 | All blocks that can be read whole are sent in order, or the first 2^32 before the number runs out, or as much as can be written; why it stopped is exact, and the byte count fits 64 bits |
| Streaming.SendFramed | crates/kvm-daemon/src/file_transfer.rs:115-152 | For every schedule of short reads, every reply, a source that fails or not and a writer that fails at any byte or not, just the bytes of the specified messages are written, as far as they can be, with the specified outcome |
| Streaming.SentOnlyIfAgreed | crates/kvm-daemon/src/file_transfer.rs:115-152 | Whatever the reply: chunks or an end are sent only behind an acceptance, every other reply leaves it at the offer, and the outcome is Declined, NoReply or UnexpectedReply exactly for the replies that mean so |
| Streaming.SendFailsTruly | crates/kvm-daemon/src/file_transfer.rs:115-152 | A send is said to have succeeded only if all has been written, and otherwise the reason given applies |
| Streaming.ChunksGranted | crates/kvm-daemon/src/file_transfer.rs:134-146 | Every chunk sent is numbered in order and of the size asked for, held between one byte and 4193280, but for the last, which is not empty |
| Streaming.StreamsThePlan | crates/kvm-daemon/src/file_transfer.rs:147-151 | An accepted send succeeds if and only if the source does not fail, is as long as declared and needs fewer than 2^32 chunks; then it is the plan, otherwise no FileEnd is sent |
| Streaming.TakeOne | crates/kvm-daemon/src/file_transfer.rs:239-255 | One message of the body: bytes written, the verdict, or a failed write |
| Streaming.RecvBody | crates/kvm-daemon/src/file_transfer.rs:224-256 | If the file can hold it, what is written and how it ends are what the messages on the stream lead to, and the way the stream ended; otherwise the error is that of writing or the one the messages lead to |
| Delivery.DeliveredOrCut | crates/kvm-daemon/src/file_transfer.rs:224-256 | A transfer cut at any byte behind the offer is received if and only if nothing is missing, then as the file's bytes; what was written before is a beginning of them |
| Publication.AdvanceSteps | crates/kvm-daemon/src/file_transfer.rs:201-222 | Each atomic step of a receive keeps it in order and touches only its own temporary file and its own target, which was free |
| Publication.StepKeepsInv | crates/kvm-daemon/src/file_transfer.rs:262-288 | Every step of every receive, and every I/O error up to and including a failed rename, keeps the directory invariant |
| Publication.DecimalInjective | crates/kvm-daemon/src/file_transfer.rs:210-211 | Decimal tokens differ, so temporary names do |
| Publication.TargetIsNoTemp | crates/kvm-daemon/src/file_transfer.rs:262-277 | No target is a temporary name, as a sanitised name never starts with a dot |
| PublicationTheorems.PublishedExactly | crates/kvm-daemon/src/file_transfer.rs:201-222 | A published file holds exactly what its own sender's messages lead to, under its name or the token-prefixed one, which was free at the start |
| PublicationTheorems.PathsDistinct | crates/kvm-daemon/src/file_transfer.rs:262-288 | No two receives hold or are published to one path |
| PublicationTheorems.PublishedForever | crates/kvm-daemon/src/file_transfer.rs:201-222 | Whatever happens later, a published file stays as it is |
| PublicationTheorems.NoTempLeft | crates/kvm-daemon/src/file_transfer.rs:218-220 | A published or failed receive has no temporary file |
| PublicationTheorems.NothingElse | crates/kvm-daemon/src/file_transfer.rs:201-222 | Once all receives are over the directory holds its initial files, the published ones and the empty ones left by failed renames, nothing else |
| PublicationTheorems.LimitHolds | crates/kvm-core/src/file_transfer.rs:176-191 | In every run no receive was offered, has written, or has on disk or published more bytes than the limit it was held against |
| PublicationTheorems.TargetsSafe | crates/kvm-daemon/src/file_transfer.rs:262-277 | In every run whatever is reserved or published has a safe name: the receive's own, or that behind its decimal number and a hyphen |
| PublicationTheorems.TempReads | crates/kvm-daemon/src/file_transfer.rs:210-211 | A temporary file is called .incoming-, its number in decimal, .part |
| PublicationTheorems.EmptyFileExactly | crates/kvm-daemon/src/file_transfer.rs:262-288 | A failed receive leaves a file behind if and only if its rename failed in the run; the file is new, empty and under the name it was to have |
| PublicationTheorems.EmptyFileLeft | crates/kvm-daemon/src/file_transfer.rs:213-221 | There is such a run: from an empty directory, a file of one byte whose rename fails leaves an empty file under its name |
| PublicationTheorems.HonestFilePublished | crates/kvm-daemon/src/file_transfer.rs:201-222 | A file published from an honest sender's messages, in any order and number, is the one sent |
| PublicationTheorems.FilesKept | crates/kvm-daemon/src/file_transfer.rs:210-220 | Files there at the start are untouched in every run if and only if none has a temporary name still to be used |
| PublicationTheorems.LeftoverRemoved | crates/kvm-daemon/src/file_transfer.rs:232-237 | Otherwise there is a run whose clean-up removes such a file |
| PublicationTheorems.AloneSettles | crates/kvm-daemon/src/file_transfer.rs:171-222 | A receive left alone is over within a step per message and six more, with the specified directory and path |
| Download.Publish | crates/kvm-daemon/src/file_transfer.rs:262-277 | Moves the file to its name, else to the fallback, else nowhere; never onto a file that is there; if the rename fails the empty file reserved stays |
| Download.RecvAccepted | crates/kvm-daemon/src/file_transfer.rs:210-221 | Receives and publishes, or removes what there is, through every failure: a taken or failing temporary file, the stream, a full disk, a failing reservation or rename |
| Download.ReportsPublished | crates/kvm-daemon/src/file_transfer.rs:213-221 | Whatever goes wrong, a reported path was free and now holds the whole file, with nothing else changed; an error is reported exactly if the temporary file could not be made, the body did not finish, the disk had no room, reserving or renaming failed, or both names were taken |
| Download.ReceivedAlone | crates/kvm-daemon/src/file_transfer.rs:171-222 | With nothing wrong with the directory, this is what a receive left alone comes to in the concurrent model |
| Download.ErrorLeaves | crates/kvm-daemon/src/file_transfer.rs:218-220 | An error leaves the directory as it was, but for a leftover temporary file removed, or an empty file if the rename failed |
| Download.FailsTruly | crates/kvm-daemon/src/file_transfer.rs:171-288 | Whatever is reported to have gone wrong has |
| Download.SentIsPublished | crates/kvm-daemon/src/file_transfer.rs:115-222 | From one end to the other: what a successful send has put on the stream, whatever follows it, is published byte for byte under the sanitised name by a receiver that takes the offer, has room and a directory that does not fail it, or under the fallback if that name is taken |
| Download.RecvFileToDir | crates/kvm-daemon/src/file_transfer.rs:171-222 | Accepts, declines or ignores the first message as the source does; if the answer can be written and the directory made, an accepted offer leads to what RecvAccepted says; anything else leaves the directory alone |
| Download.AnsweredTruly | crates/kvm-daemon/src/file_transfer.rs:176-190 | An offer is answered with yes if and only if its size is within the limit and its name has a safe component, and after a no the directory is as it was |
| Download.BothAgree | crates/kvm-daemon/src/file_transfer.rs:115-190 | Between such a receiver and a sender: the sender reports Declined if and only if the offer was not acceptable, and sends nothing of the file then |
| TrustStore.ParsePrinted | crates/kvm-net/src/tls.rs:93-115 | What persist wrote, in any order of the map, loads as the same map if and only if every entry fits a line (identity without whitespace, fingerprint trimmed and without line feed) |
| TrustStore.ParsedFits | crates/kvm-net/src/tls.rs:93-107 | Whatever a file says, every loaded entry fits a line |
| TrustStore.FileTrustStore.constructor | crates/kvm-net/src/tls.rs:93-107 | Loads the file's entries line by line, none if it is missing |
| TrustStore.LinesOfWindows | crates/kvm-net/src/tls.rs:97-98 | Line ends of Windows are read like others |
| TrustStore.WordPassedOver | crates/kvm-net/src/tls.rs:97-103 | A line of a single word is passed over |
| TrustStore.LaterCounts | crates/kvm-net/src/tls.rs:97-103 | Of two lines for one identity the later counts |
| TrustStore.FileTrustStore.Persist | crates/kvm-net/src/tls.rs:109-115 | Writes every entry once, in some order; that writing fails goes unnoticed, and then the file is the old one, a beginning of the text, or nothing that can be read |
| TrustStore.FileTrustStore.Check | crates/kvm-net/src/tls.rs:118-132 | Accepts a new identity or the pinned fingerprint, and is one step of the store |
| TrustStore.FirstUseLasts | crates/kvm-net/src/tls.rs:118-132 | Over any checks of such entries and any restarts, once a check of an identity is accepted a later one is accepted if and only if it carries the same fingerprint, provided writing does not fail |
| TrustStore.FirstUseInMemory | crates/kvm-net/src/tls.rs:118-132 | Until a restart that holds of every identity and fingerprint, whatever fits a line and whatever writing fails |
| TrustStore.CutExactly | crates/kvm-net/src/tls.rs:109-115 | If writing a table whose entries fit is cut short, what is loaded is the table if and only if at most the last line feed is missing |
| TrustStore.CutMispins | crates/kvm-net/src/tls.rs:109-115 | There is a cut that leaves another fingerprint pinned for an identity than the one trusted |
| TrustStore.NextSaveMakesUp | crates/kvm-net/src/tls.rs:109-132 | The next table that is written to the end loads whole, whatever the file had become |
| TrustStore.FirstUseExactly | crates/kvm-net/src/tls.rs:93-132 | For an identity and a fingerprint: over all checks and restarts after its first use, writing not failing, just that fingerprint is accepted, if and only if the entry fits a line |
| TrustStore.PinHolds | crates/kvm-net/src/tls.rs:93-115 | After one restart, the table having been written, just the pinned fingerprint is accepted if and only if the entry fits a line |
| TrustStore.SpacedIdentityForgotten | crates/kvm-net/src/tls.rs:93-107 | An identity with whitespace is in no loaded table, so any fingerprint is accepted for it afresh |
| TrustStore.TrustedAfresh | crates/kvm-net/src/tls.rs:118-132 | There is such a run: a fingerprint is accepted for the identity "a b", and after a restart another one is |
| TrustStore.PinSurvives | crates/kvm-net/src/tls.rs:109-115 | The whole table comes back from a restart after a new pin if and only if the new entry fits a line |

## Left out

- Sockets, TLS, timeouts, the limit on simultaneous receives and the bounded channels: connections are unbounded FIFO queues and steps come in any order.
- Two live connections under one screen name: the model has at most one connection per name, as the protocol intends, though the code overwrites the table entry.
- `set_layout`: it changes the active screen without releasing the grab, and the runtime never calls it.
- Death after missed keep-alives, which no code implements; the client's serve loop ending when it is told to disconnect; the status channel; what a client sends after its handshake (clipboard text, keep-alive echoes) beyond being taken off the queue.
- The clipboard's running number: each copied text comes with any number.
- Which keys really are held down: the modifiers are those the captured events tell.
- Input capture and injection, clipboard polling, display detection, the web interface, JSON configuration and the key tables: foreign calls or finite lookups.
- 32-bit sums wrap as in a release build, in the cursor and in the grid; a debug build panics instead.
- The chunk number in `plan_messages` wraps at 2^32 as in a release build; a debug build panics. The streaming sender's checked counter is modelled exactly.
- A file that changes while it is sent: it is modelled by what its reads yield up to the first end of file, which may differ from the declared size; growth after that end is not.
- The partial contents of a temporary file show the write buffer spilling at any time; symbolic links, permissions and other programs in the directory are not part of the model.
- Removing a temporary file always succeeds, and a receive is never cancelled.
- Time: an idle timeout is a stream that ends stalled, wherever it ends; the sender waits for its answer without a limit, as in the code.
- A clipboard text above the frame limit: in the whole system its step does nothing, as each client it is sent to drops its connection, which is a step of its own.
- The transfer token does not wrap at 2^64.
- One process writes the trust file.
