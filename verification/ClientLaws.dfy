/** What a client does with any messages at all, whoever sends them. */
module ClientLaws {
  import opened Arithmetic
  import opened Wrappers
  import opened MachineInts
  import opened Messages
  import opened Layout
  import opened World
  import opened Routing
  import opened RoutingTheorems
  import Client

  // --- Answers and endings ----------------------------------------------------------------------

  /** It reports its screen's size, and its middle for the pointer. */
  lemma ReportsScreen(screen: ScreenSize)
    requires 0 <= screen.w < 0x8000 && 0 <= screen.h < 0x8000
    ensures var m := Client.GeometryOf(screen);
      && m.DeviceInfo? && m.x == 0 && m.y == 0 && m.warp == 0 && m.w == screen.w && m.h == screen.h
      && Halfway(screen.w, m.mx) && Halfway(screen.h, m.my)
  {
  }

  lemma MiddleIsOne(extent: int, u: int, v: int)
    requires Halfway(extent, u) && Halfway(extent, v)
    ensures u == v
  {
  }

  /** A client answers a greeting, a question about its screen and a keep-alive, and nothing else. */
  lemma AnswersExactly(s: Client.State, msg: Message, answer: Message)
    requires 0 <= s.screen.w < 0x8000 && 0 <= s.screen.h < 0x8000
    ensures Client.Reply(answer) in Client.Handle(s, msg).1 <==>
      || (msg.Hello? && answer == HelloBack(1, 9, s.name))
      || (msg == KeepAlive && answer == KeepAlive)
      || (msg == QueryInfo && answer.DeviceInfo? && answer.x == 0 && answer.y == 0 && answer.warp == 0
          && answer.w == s.screen.w && answer.h == s.screen.h
          && Halfway(s.screen.w, answer.mx) && Halfway(s.screen.h, answer.my))
  {
    ReportsScreen(s.screen);
    if msg.QueryInfo? && answer.DeviceInfo? && Halfway(s.screen.w, answer.mx) && Halfway(s.screen.h, answer.my) {
      var m := Client.GeometryOf(s.screen);
      MiddleIsOne(s.screen.w, m.mx, answer.mx);
      MiddleIsOne(s.screen.h, m.my, answer.my);
    }
  }

  /** It gives up exactly when told to close or of an error, and says which. */
  lemma GivesUpExactly(s: Client.State, msg: Message, reason: Client.DisconnectReason)
    ensures Client.Disconnect(reason) in Client.Handle(s, msg).1 <==>
      || (msg.Close? && reason.ServerClosed?)
      || (msg.ErrIncompatible? && reason == Client.IncompatibleVersion(msg.major, msg.minor))
      || (msg.ErrBusy? && reason.NameInUse?)
      || (msg.ErrUnknown? && reason.UnknownToServer?)
      || (msg.ErrBad? && reason.ProtocolViolation?)
  {
  }

  // --- The pointer ------------------------------------------------------------------------------

  /** Where the pointer is after some commands, if it was at `(x, y)`. */
  function Pointer(x: int, y: int, cmds: seq<InputCommand>): (int, int)
    decreases |cmds|
  {
    if cmds == [] then (x, y)
    else
      match cmds[0]
      case MoveAbs(ax, ay) => Pointer(ax, ay, cmds[1..])
      case MoveRel(dx, dy) => Pointer(x + dx, y + dy, cmds[1..])
      case _ => Pointer(x, y, cmds[1..])
  }

  /**
   An onlooker of the messages: whether the cursor is here, whether moves count, where the pointer should be, what
   else should have been done, and the last number.
   */
  datatype Onlooker = Onlooker(here: bool, acked: bool, x: int, y: int, done: seq<InputCommand>, number: int)

  /** What a message about a button, the wheel or a key should make the client do. */
  function Stroke(msg: Message): Option<InputCommand> {
    match msg
    case MouseDown(button) => Some(PressButton(button, true))
    case MouseUp(button) => Some(PressButton(button, false))
    case MouseWheel(x, y) => Some(TurnWheel(x, y))
    case KeyDown(key, mask, scan) => Some(StrikeKey(key, mask, scan, Down))
    case KeyUp(key, mask, scan) => Some(StrikeKey(key, mask, scan, Up))
    case KeyRepeat(key, mask, n, scan) => Some(StrikeKey(key, mask, scan, Repeat(n)))
    case _ => None
  }

  function Saw(o: Onlooker, msg: Message): Onlooker {
    match msg
    case InfoAck => o.(acked := true)
    case Enter(x, y, n, _) => o.(here := true, x := x, y := y, number := n)
    case Leave => o.(here := false)
    case MouseMove(x, y) => if o.here && o.acked then o.(x := x, y := y) else o
    case MouseRelMove(dx, dy) => if o.here && o.acked then o.(x := o.x + dx, y := o.y + dy) else o
    case _ =>
      var stroke := Stroke(msg);
      if o.here && stroke.Some? then o.(done := o.done + [stroke.value]) else o
  }

  function SawAll(o: Onlooker, msgs: seq<Message>): Onlooker
    decreases |msgs|
  {
    if msgs == [] then o else SawAll(Saw(o, msgs[0]), msgs[1..])
  }

  /** The client is as the onlooker thinks, its pointer having started from `(x, y)`. */
  predicate Matches(o: Onlooker, seat: Seat, x: int, y: int) {
    && o.here == seat.client.entered && o.acked == seat.client.acked && o.number == seat.client.lastSeq
    && (o.x, o.y) == Pointer(x, y, seat.injected) && o.done == Discrete(seat.injected)
  }

  lemma {:induction false} PointerAppend(x: int, y: int, a: seq<InputCommand>, b: seq<InputCommand>)
    ensures Pointer(x, y, a + b) == Pointer(Pointer(x, y, a).0, Pointer(x, y, a).1, b)
    decreases |a|
  {
    if a == [] {
      assert a + b == b;
    } else {
      assert (a + b)[0] == a[0] && (a + b)[1..] == a[1..] + b;
      match a[0]
      case MoveAbs(ax, ay) => PointerAppend(ax, ay, a[1..], b);
      case MoveRel(dx, dy) => PointerAppend(x + dx, y + dy, a[1..], b);
      case _ => PointerAppend(x, y, a[1..], b);
    }
  }

  lemma OneCommand(x: int, y: int, cmd: InputCommand)
    ensures Pointer(x, y, [cmd]) ==
      if cmd.MoveAbs? then (cmd.x as int, cmd.y as int)
      else if cmd.MoveRel? then (x + cmd.dx, y + cmd.dy) else (x, y)
  {
    assert [cmd][1..] == [];
  }

  /** One command more, or none. */
  lemma Injected(seat: Seat, cmds: seq<InputCommand>, x: int, y: int)
    requires |cmds| <= 1
    ensures Discrete(seat.injected + cmds) == Discrete(seat.injected) + Discrete(cmds)
    ensures cmds == [] ==> Pointer(x, y, seat.injected + cmds) == Pointer(x, y, seat.injected)
    ensures cmds != [] ==>
      var (px, py) := Pointer(x, y, seat.injected);
      Pointer(x, y, seat.injected + cmds) ==
        if cmds[0].MoveAbs? then (cmds[0].x as int, cmds[0].y as int)
        else if cmds[0].MoveRel? then (px + cmds[0].dx, py + cmds[0].dy) else (px, py)
    ensures cmds != [] && !cmds[0].MoveAbs? && !cmds[0].MoveRel? ==> Discrete(cmds) == cmds
    ensures cmds == [] || cmds[0].MoveAbs? || cmds[0].MoveRel? ==> Discrete(cmds) == []
  {
    DiscreteAppend(seat.injected, cmds);
    PointerAppend(x, y, seat.injected, cmds);
    if cmds != [] {
      assert cmds == [cmds[0]];
      OneCommand(Pointer(x, y, seat.injected).0, Pointer(x, y, seat.injected).1, cmds[0]);
    }
  }

  lemma InjectsOne(a: Client.Action)
    ensures Injects([a]) == if a.Inject? then [a.cmd] else []
  {
    assert [a][1..] == [];
  }

  lemma InjectsTwo(a: Client.Action, b: Client.Action)
    ensures Injects([a, b]) == (if a.Inject? then [a.cmd] else []) + (if b.Inject? then [b.cmd] else [])
  {
    assert [a, b][1..] == [b];
    InjectsOne(b);
  }

  lemma InputInjects(client: Client.State, msg: Message)
    requires msg.IsInput()
    ensures Injects(Client.Handle(client, msg).1) ==
      if client.entered && (client.acked || !(msg.MouseMove? || msg.MouseRelMove?)) then [Client.CommandOf(msg)] else []
  {
    InjectsOne(Client.Inject(Client.CommandOf(msg)));
  }

  lemma ControlInjects(client: Client.State, msg: Message)
    requires !msg.IsInput()
    ensures Injects(Client.Handle(client, msg).1) == if msg.Enter? then [MoveAbs(msg.x, msg.y)] else []
  {
    var actions := Client.Handle(client, msg).1;
    if msg.Enter? {
      InjectsTwo(Client.Entered, Client.Inject(MoveAbs(msg.x, msg.y)));
    } else if actions != [] {
      InjectsOne(actions[0]);
    }
  }

  /** What a message about the pointer alone does to a client. */
  lemma MoveFed(seat: Seat, msg: Message)
    requires msg.MouseMove? || msg.MouseRelMove?
    ensures Feed(seat, msg) ==
      if seat.client.entered && seat.client.acked then seat.(injected := seat.injected + [Client.CommandOf(msg)]) else seat
  {
    InputInjects(seat.client, msg);
    assert seat.injected + [] == seat.injected;
  }

  lemma SawMove(o: Onlooker, seat: Seat, msg: Message, x: int, y: int)
    requires Matches(o, seat, x, y) && (msg.MouseMove? || msg.MouseRelMove?)
    ensures Matches(Saw(o, msg), Feed(seat, msg), x, y)
  {
    MoveFed(seat, msg);
    Injected(seat, [Client.CommandOf(msg)], x, y);
    assert Discrete(seat.injected) + [] == Discrete(seat.injected);
  }

  lemma StrokeIsCommand(msg: Message)
    requires msg.IsInput() && !msg.MouseMove? && !msg.MouseRelMove?
    ensures Stroke(msg) == Some(Client.CommandOf(msg)) && !Client.Gated(Client.CommandOf(msg))
  {
  }

  lemma StrokeFed(seat: Seat, msg: Message)
    requires msg.IsInput() && !msg.MouseMove? && !msg.MouseRelMove?
    ensures Feed(seat, msg) ==
      if seat.client.entered then seat.(injected := seat.injected + [Client.CommandOf(msg)]) else seat
  {
    InputInjects(seat.client, msg);
    assert seat.injected + [] == seat.injected;
  }

  lemma StrokeSeen(o: Onlooker, msg: Message)
    requires msg.IsInput() && !msg.MouseMove? && !msg.MouseRelMove?
    ensures Saw(o, msg) == if o.here then o.(done := o.done + [Client.CommandOf(msg)]) else o
  {
    StrokeIsCommand(msg);
  }

  lemma SawStroke(o: Onlooker, seat: Seat, msg: Message, x: int, y: int)
    requires Matches(o, seat, x, y) && msg.IsInput() && !msg.MouseMove? && !msg.MouseRelMove?
    ensures Matches(Saw(o, msg), Feed(seat, msg), x, y)
  {
    StrokeFed(seat, msg);
    StrokeSeen(o, msg);
    StrokeIsCommand(msg);
    Injected(seat, [Client.CommandOf(msg)], x, y);
  }

  lemma SawControl(o: Onlooker, seat: Seat, msg: Message, x: int, y: int)
    requires Matches(o, seat, x, y) && !msg.IsInput()
    ensures Matches(Saw(o, msg), Feed(seat, msg), x, y)
  {
    ControlInjects(seat.client, msg);
    Injected(seat, Injects(Client.Handle(seat.client, msg).1), x, y);
  }

  lemma SawOne(o: Onlooker, seat: Seat, msg: Message, x: int, y: int)
    requires Matches(o, seat, x, y)
    ensures Matches(Saw(o, msg), Feed(seat, msg), x, y)
  {
    if msg.MouseMove? || msg.MouseRelMove? {
      SawMove(o, seat, msg, x, y);
    } else if msg.IsInput() {
      SawStroke(o, seat, msg, x, y);
    } else {
      SawControl(o, seat, msg, x, y);
    }
  }

  /** Whatever it is sent, a client does just what an onlooker of the messages expects. */
  lemma {:induction false} DoesAsSeen(o: Onlooker, seat: Seat, msgs: seq<Message>, x: int, y: int)
    requires Matches(o, seat, x, y)
    ensures Matches(SawAll(o, msgs), Absorb(seat, msgs), x, y)
    decreases |msgs|
  {
    if msgs != [] {
      SawOne(o, seat, msgs[0], x, y);
      DoesAsSeen(Saw(o, msgs[0]), Feed(seat, msgs[0]), msgs[1..], x, y);
    }
  }

  /** From its start, too. */
  lemma DoesAsSeenFromStart(name: string, screen: ScreenSize, msgs: seq<Message>)
    ensures Matches(SawAll(Onlooker(false, false, 0, 0, [], 0), msgs), Absorb(Seat(Client.Initial(name, screen), []), msgs), 0, 0)
  {
    DoesAsSeen(Onlooker(false, false, 0, 0, [], 0), Seat(Client.Initial(name, screen), []), msgs, 0, 0);
  }
}
