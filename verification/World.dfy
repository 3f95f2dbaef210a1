/**
 The whole switching system: the controller, and for every client connection the bytes in flight,
 the handshake, the client's own machine and what it has injected. A run is any sequence of steps;
 a step that is not possible in the current state leaves it as it is.
 */
module World {
  import opened Wrappers
  import opened MachineInts
  import opened Messages
  import opened Layout
  import opened Controller
  import Server
  import Client

  /** How far the server's connection task has got with a client. */
  datatype Phase = Greeted | Queried | Ready | Attached | Rejected

  /** One connection: `wire` is in flight to the client, `replies` is in flight to the server. */
  datatype Link = Link(
    phase: Phase,
    reported: ScreenSize,
    client: Client.State,
    wire: seq<Message>,
    replies: seq<Message>,
    injected: seq<InputCommand>)

  datatype World = World(hub: Hub, links: map<string, Link>)

  datatype Step =
    | Capture(ev: LocalEvent)
    | Lock(on: bool)
    | KeepAliveTick
    | ClipboardOut(clipSeq: u32, data: seq<byte>)
    | Connect(name: string, size: ScreenSize)
    | Converse(name: string)
    | Attach(name: string)
    | Hangup(name: string)
    | Pump(name: string)
    | Deliver(name: string)

  function Initial(nodes: Nodes, local: string): World {
    World(Hub(Server.Initial(nodes, local), map[], false, None), map[])
  }

  function Injects(actions: seq<Client.Action>): seq<InputCommand> {
    if actions == [] then []
    else (if actions[0].Inject? then [actions[0].cmd] else []) + Injects(actions[1..])
  }

  function Replies(actions: seq<Client.Action>): seq<Message> {
    if actions == [] then []
    else (if actions[0].Reply? then [actions[0].msg] else []) + Replies(actions[1..])
  }

  const WELCOME: seq<Message> := [InfoAck, ResetOptions, SetOptions([])]

  /** The connection task reads one message from its client. */
  function Conversed(link: Link, nodes: Nodes): Link
    requires link.replies != []
  {
    var msg := link.replies[0];
    var rest := link.(replies := link.replies[1..]);
    match link.phase
    case Greeted =>
      if !msg.HelloBack? then rest.(phase := Rejected)
      else if msg.major != PROTOCOL_MAJOR then
        rest.(phase := Rejected, wire := link.wire + [ErrIncompatible(PROTOCOL_MAJOR, PROTOCOL_MINOR)])
      else if msg.name !in nodes then rest.(phase := Rejected, wire := link.wire + [ErrUnknown])
      else rest.(phase := Queried, wire := link.wire + [QueryInfo])
    case Queried =>
      if !msg.DeviceInfo? then rest.(phase := Rejected)
      else rest.(phase := Ready, reported := ScreenSize(msg.w, msg.h), wire := link.wire + WELCOME)
    case Ready => rest
    case Attached => rest
    case Rejected => link
  }

  /** The client takes the next message off the wire. */
  function Delivered(link: Link): Link
    requires link.wire != []
  {
    var (client, actions) := Client.Handle(link.client, link.wire[0]);
    link.(client := client,
          wire := link.wire[1..],
          replies := link.replies + Replies(actions),
          injected := link.injected + Injects(actions))
  }

  function Next(w: World, step: Step): World {
    match step
    case Capture(ev) => w.(hub := OnLocal(w.hub, ev))
    case Lock(on) => w.(hub := w.hub.(server := w.hub.server.(locked := on)))
    case KeepAliveTick => w.(hub := Broadcast(w.hub, KeepAlive))
    case ClipboardOut(n, data) =>
      // A longer text makes every client that is sent it drop its connection: that is a `Hangup` of each.
      if |data| > MAX_CLIPBOARD_LEN then w else w.(hub := Broadcast(w.hub, ClipboardData(0, n, 0, data)))
    case Connect(n, size) =>
      if n in w.links then w
      else
        var greeting := Hello(PROTOCOL_MAJOR, PROTOCOL_MINOR);
        w.(links := w.links[n := Link(Greeted, ScreenSize(0, 0), Client.Initial(n, size), [greeting], [], [])])
    case Converse(n) =>
      if n !in w.links || w.links[n].replies == [] then w
      else w.(links := w.links[n := Conversed(w.links[n], w.hub.server.nodes)])
    case Attach(n) =>
      if n !in w.links || !w.links[n].phase.Ready? then w
      else World(OnConnected(w.hub, n, w.links[n].reported), w.links[n := w.links[n].(phase := Attached)])
    case Hangup(n) =>
      if n !in w.links then w
      else World(if w.links[n].phase.Attached? then OnDisconnected(w.hub, n) else w.hub, w.links - {n})
    case Pump(n) =>
      if n !in w.links || n !in w.hub.clients || w.hub.clients[n] == [] then w
      else
        var queue := w.hub.clients[n];
        World(w.hub.(clients := w.hub.clients[n := queue[1..]]),
              w.links[n := w.links[n].(wire := w.links[n].wire + [queue[0]])])
    case Deliver(n) =>
      if n !in w.links || w.links[n].wire == [] then w
      else w.(links := w.links[n := Delivered(w.links[n])])
  }

  function Run(w: World, steps: seq<Step>): World
    decreases |steps|
  {
    if steps == [] then w else Run(Next(w, steps[0]), steps[1..])
  }

  // --- Each client as it will be once its queues have drained ------------------------------------

  /** A client and everything it has injected. */
  datatype Seat = Seat(client: Client.State, injected: seq<InputCommand>)

  function Feed(seat: Seat, msg: Message): Seat {
    var (client, actions) := Client.Handle(seat.client, msg);
    Seat(client, seat.injected + Injects(actions))
  }

  function Absorb(seat: Seat, msgs: seq<Message>): Seat
    decreases |msgs|
  {
    if msgs == [] then seat else Absorb(Feed(seat, msgs[0]), msgs[1..])
  }

  /** Everything on its way to client `n`, oldest first. */
  function Pending(w: World, n: string): seq<Message>
    requires n in w.links
  {
    w.links[n].wire + if n in w.hub.clients then w.hub.clients[n] else []
  }

  function Settled(w: World, n: string): Seat
    requires n in w.links
  {
    Absorb(Seat(w.links[n].client, w.links[n].injected), Pending(w, n))
  }

  // --- What an observer of the run writes down ---------------------------------------------------

  /** What a captured event should become on the client that has the cursor. */
  function Translate(ev: LocalEvent): seq<InputCommand> {
    match ev
    case Button(button, pressed) => [PressButton(button, pressed)]
    case Wheel(x, y) => [TurnWheel(x, y)]
    case Key(key, mask, scan, action) => [StrikeKey(key, mask, scan, action)]
    case _ => []
  }

  function MessagesFor(actions: seq<Server.Action>, n: string): seq<Message> {
    if actions == [] then []
    else (if actions[0].Send? && actions[0].screen == n then [actions[0].msg] else [])
         + MessagesFor(actions[1..], n)
  }

  /** The `Enter` messages among `actions`: the screen each is for, and its number. */
  function Enters(actions: seq<Server.Action>): seq<(string, int)> {
    if actions == [] then []
    else (if actions[0].Send? && actions[0].msg.Enter? then [(actions[0].screen, actions[0].msg.enterSeq)] else [])
         + Enters(actions[1..])
  }

  /**
   Per connection: the events captured while its screen was active after an `Enter` that reached its
   queue, as commands; every routed message put on its queue; and whether its client was attached
   while the cursor was already on its screen.
   */
  datatype Account = Account(captured: seq<InputCommand>, sent: seq<Message>, joinedMidVisit: bool)

  /** `delivered`: the `Enter` for the current remote visit found a connected client. */
  datatype Ledger = Ledger(delivered: bool, accounts: map<string, Account>, enters: seq<(string, int)>)

  const BLANK := Ledger(false, map[], [])

  function Observe(l: Ledger, w: World, step: Step): Ledger {
    match step
    case Capture(ev) =>
      var s := w.hub.server;
      var (t, actions) := Server.Handle(s, ev);
      var enters := Enters(actions);
      Ledger(
        if enters != [] then enters[0].0 in w.hub.clients else t.Remote() && l.delivered,
        map n | n in l.accounts :: l.accounts[n].(
          captured := l.accounts[n].captured + (if l.delivered && n == s.active then Translate(ev) else []),
          sent := l.accounts[n].sent + (if n in w.hub.clients then MessagesFor(actions, n) else [])),
        l.enters + enters)
    case Connect(n, _) =>
      if n in w.links then l else l.(accounts := l.accounts[n := Account([], [], false)])
    case Attach(n) =>
      if n in w.links && w.links[n].phase.Ready? && n in l.accounts && Visiting(w.hub.server, n)
      then l.(accounts := l.accounts[n := l.accounts[n].(joinedMidVisit := true)])
      else l
    case Hangup(n) =>
      if n in w.links && w.links[n].phase.Attached? && w.hub.server.active == n
      then l.(delivered := false)
      else l
    case _ => l
  }

  /** The cursor is on the remote screen `n`. */
  predicate Visiting(s: Server.State, n: string) {
    s.Remote() && s.active == n
  }

  function Watch(l: Ledger, w: World, steps: seq<Step>): Ledger
    decreases |steps|
  {
    if steps == [] then l else Watch(Observe(l, w, steps[0]), Next(w, steps[0]), steps[1..])
  }
}
