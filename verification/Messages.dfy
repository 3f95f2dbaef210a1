/** Protocol messages, captured events and injected commands. */
module Messages {
  import opened MachineInts

  const PROTOCOL_MAJOR: i16 := 1
  const PROTOCOL_MINOR: i16 := 9

  /** The longest clipboard text that fits a frame: the limit of four mebibytes less the fields in front of it. */
  const MAX_CLIPBOARD_LEN := 4 * 1024 * 1024 - 14

  datatype Message =
    | Hello(major: i16, minor: i16)
    | HelloBack(major: i16, minor: i16, name: string)
    | QueryInfo
    | DeviceInfo(x: i16, y: i16, w: i16, h: i16, warp: i16, mx: i16, my: i16)
    | InfoAck
    | ResetOptions
    | SetOptions(opts: seq<i32>)
    | KeepAlive
    | NoOp
    | Close
    | ScreenSaver(on: bool)
    | Enter(x: i16, y: i16, enterSeq: u32, modifiers: u16)
    | Leave
    | KeyDown(key: u16, mask: u16, scan: u16)
    | KeyUp(key: u16, mask: u16, scan: u16)
    | KeyRepeat(key: u16, mask: u16, repeats: u16, scan: u16)
    | MouseDown(button: i8)
    | MouseUp(button: i8)
    | MouseMove(x: i16, y: i16)
    | MouseRelMove(x: i16, y: i16)
    | MouseWheel(x: i16, y: i16)
    | ClipboardGrab(clip: i8, clipSeq: u32)
    | ClipboardData(clip: i8, clipSeq: u32, mark: i8, data: seq<byte>)
    | FileOffer(id: u32, name: string, size: u64)
    | FileChunk(id: u32, chunkSeq: u32, data: seq<byte>)
    | FileEnd(id: u32, count: u32)
    | FileAccept(id: u32, accept: bool)
    | ErrIncompatible(major: i16, minor: i16)
    | ErrBusy
    | ErrUnknown
    | ErrBad
  {
    /** The messages that only flow while the cursor is on a remote screen. */
    predicate IsInput() {
      KeyDown? || KeyUp? || KeyRepeat? || MouseDown? || MouseUp? || MouseMove? || MouseRelMove? || MouseWheel?
    }
  }

  datatype KeyAction = Down | Up | Repeat(count: u16)

  /** An input event observed on the server's machine. */
  datatype LocalEvent =
    | MotionAbs(x: int, y: int)
    | MotionRel(dx: int, dy: int)
    | Button(button: i8, pressed: bool)
    | Key(key: u16, mask: u16, scan: u16, action: KeyAction)
    | Wheel(wx: i16, wy: i16)

  /** A command for the injection backend of a client's machine. */
  datatype InputCommand =
    | MoveAbs(x: int, y: int)
    | MoveRel(dx: int, dy: int)
    | PressButton(button: i8, pressed: bool)
    | TurnWheel(wx: i16, wy: i16)
    | StrikeKey(key: u16, mask: u16, scan: u16, action: KeyAction)
}
