/** The client's receiver: what each message from the server makes the client's machine do. */
module Client {
  import opened MachineInts
  import opened Messages
  import opened Layout

  datatype DisconnectReason =
    | ServerClosed
    | IncompatibleVersion(major: i16, minor: i16)
    | NameInUse
    | UnknownToServer
    | ProtocolViolation

  datatype Action =
    | Inject(cmd: InputCommand)
    | Reply(msg: Message)
    | Connected
    | Entered
    | Left
    | Disconnect(reason: DisconnectReason)

  datatype State = State(name: string, screen: ScreenSize, acked: bool, entered: bool, lastSeq: u32)

  function Initial(name: string, screen: ScreenSize): State {
    State(name, screen, false, false, 0)
  }

  predicate Gated(cmd: InputCommand) {
    cmd.MoveAbs? || cmd.MoveRel?
  }

  function InjectIfActive(s: State, cmd: InputCommand): seq<Action> {
    if s.entered && (s.acked || !Gated(cmd)) then [Inject(cmd)] else []
  }

  function GeometryOf(screen: ScreenSize): Message {
    DeviceInfo(0, 0, AsI16(screen.w), AsI16(screen.h), 0,
               AsI16(TruncDiv(screen.w, 2)), AsI16(TruncDiv(screen.h, 2)))
  }

  /** The command an input message stands for. */
  function CommandOf(msg: Message): InputCommand
    requires msg.IsInput()
  {
    match msg
    case MouseMove(x, y) => MoveAbs(x, y)
    case MouseRelMove(dx, dy) => MoveRel(dx, dy)
    case MouseDown(button) => PressButton(button, true)
    case MouseUp(button) => PressButton(button, false)
    case MouseWheel(x, y) => TurnWheel(x, y)
    case KeyDown(key, mask, scan) => StrikeKey(key, mask, scan, Down)
    case KeyUp(key, mask, scan) => StrikeKey(key, mask, scan, Up)
    case KeyRepeat(key, mask, n, scan) => StrikeKey(key, mask, scan, Repeat(n))
  }

  function HandleControl(s: State, msg: Message): (State, seq<Action>) {
    match msg
    case Hello(_, _) => (s, [Reply(HelloBack(PROTOCOL_MAJOR, PROTOCOL_MINOR, s.name))])
    case QueryInfo => (s, [Reply(GeometryOf(s.screen))])
    case InfoAck => (s.(acked := true), [Connected])
    case KeepAlive => (s, [Reply(KeepAlive)])
    case Enter(x, y, n, _) => (s.(entered := true, lastSeq := n), [Entered, Inject(MoveAbs(x, y))])
    case Leave => (s.(entered := false), [Action.Left])
    case Close => (s, [Disconnect(ServerClosed)])
    case ErrIncompatible(major, minor) => (s, [Disconnect(IncompatibleVersion(major, minor))])
    case ErrBusy => (s, [Disconnect(NameInUse)])
    case ErrUnknown => (s, [Disconnect(UnknownToServer)])
    case ErrBad => (s, [Disconnect(ProtocolViolation)])
    case _ => (s, [])
  }

  function Handle(s: State, msg: Message): (State, seq<Action>) {
    if msg.IsInput() then (s, InjectIfActive(s, CommandOf(msg))) else HandleControl(s, msg)
  }

  class ClientMachine {
    const name: string
    const screen: ScreenSize
    var acked: bool
    var entered: bool
    var lastSeq: u32

    function View(): State
      reads this
    {
      State(name, screen, acked, entered, lastSeq)
    }

    constructor (name: string, screen: ScreenSize)
      ensures View() == Initial(name, screen)
    {
      this.name, this.screen := name, screen;
      acked, entered, lastSeq := false, false, 0;
    }

    method InjectCommand(cmd: InputCommand) returns (actions: seq<Action>)
      ensures actions == InjectIfActive(View(), cmd)
    {
      var gated := cmd.MoveAbs? || cmd.MoveRel?;
      if entered && (acked || !gated) {
        actions := [Inject(cmd)];
      } else {
        actions := [];
      }
    }

    method HandleMessage(msg: Message) returns (actions: seq<Action>)
      modifies this
      ensures (View(), actions) == Handle(old(View()), msg)
    {
      if msg.IsInput() {
        actions := InjectCommand(CommandOf(msg));
      } else {
        actions := ControlMessage(msg);
      }
    }

    method ControlMessage(msg: Message) returns (actions: seq<Action>)
      modifies this
      ensures (View(), actions) == HandleControl(old(View()), msg)
    {
      actions := [];
      match msg {
        case Hello(_, _) => actions := [Reply(HelloBack(PROTOCOL_MAJOR, PROTOCOL_MINOR, name))];
        case QueryInfo => actions := [Reply(GeometryOf(screen))];
        case InfoAck =>
          acked := true;
          actions := [Connected];
        case KeepAlive => actions := [Reply(KeepAlive)];
        case Enter(x, y, n, _) =>
          entered := true;
          lastSeq := n;
          actions := [Entered, Inject(MoveAbs(x, y))];
        case Leave =>
          entered := false;
          actions := [Action.Left];
        case Close => actions := [Disconnect(ServerClosed)];
        case ErrIncompatible(major, minor) => actions := [Disconnect(IncompatibleVersion(major, minor))];
        case ErrBusy => actions := [Disconnect(NameInUse)];
        case ErrUnknown => actions := [Disconnect(UnknownToServer)];
        case ErrBad => actions := [Disconnect(ProtocolViolation)];
        case _ =>
      }
    }
  }
}
