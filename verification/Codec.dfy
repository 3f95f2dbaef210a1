/** The wire form of every message: which payloads decode, to what, and how that undoes encoding. */
module Codec {
  import opened Wrappers
  import opened MachineInts
  import opened Messages
  import opened WireFormat

  // --- Lists of fields --------------------------------------------------------------------------

  datatype Kinds = Done | Then(kind: Kind, more: Kinds)

  datatype Values = Nil | Cons(head: Value, tail: Values)

  predicate HoldAll(ks: Kinds, vs: Values)
    decreases ks
  {
    match ks
    case Done => vs.Nil?
    case Then(kind, more) => vs.Cons? && Holds(kind, vs.head) && HoldAll(more, vs.tail)
  }

  predicate FitAll(ks: Kinds, vs: Values)
    requires HoldAll(ks, vs)
    decreases ks
  {
    match ks
    case Done => true
    case Then(kind, more) => Fits(kind, vs.head) && FitAll(more, vs.tail)
  }

  /** `buf` with the fields written after it. */
  function PrintOnto(buf: seq<byte>, ks: Kinds, vs: Values): seq<byte>
    requires HoldAll(ks, vs)
    decreases ks
  {
    match ks
    case Done => buf
    case Then(kind, more) => PrintOnto(buf + Print(kind, vs.head), more, vs.tail)
  }

  function ParseAll(ks: Kinds, bs: seq<byte>): (r: Parsed<Values>)
    ensures r.Ok? ==> HoldAll(ks, r.value.0)
    decreases ks, bs
  {
    match ks
    case Done => Ok((Nil, bs))
    case Then(kind, more) =>
      var (v, rest) :- Parse(kind, bs);
      var (vs, end) :- ParseAll(more, rest);
      Ok((Cons(v, vs), end))
  }

  lemma {:induction false} ParseThen(kind: Kind, more: Kinds, bs: seq<byte>)
    ensures Parse(kind, bs).Err? ==> ParseAll(Then(kind, more), bs) == Err(Parse(kind, bs).error)
    ensures Parse(kind, bs).Ok? ==>
      var (v, rest) := Parse(kind, bs).value;
      var tail := ParseAll(more, rest);
      ParseAll(Then(kind, more), bs) == if tail.Err? then Err(tail.error) else Ok((Cons(v, tail.value.0), tail.value.1))
  {
  }

  // --- Opcodes ----------------------------------------------------------------------------------

  /** The four bytes of an opcode, which is kept here as the number they spell. */
  function Raw(op: u32): seq<byte> {
    BigEndian(op, 4)
  }

  datatype Tag =
    | QueryInfoTag
    | DeviceInfoTag
    | InfoAckTag
    | ResetOptionsTag
    | SetOptionsTag
    | KeepAliveTag
    | NoOpTag
    | CloseTag
    | ScreenSaverTag
    | EnterTag
    | LeaveTag
    | KeyDownTag
    | KeyUpTag
    | KeyRepeatTag
    | MouseDownTag
    | MouseUpTag
    | MouseMoveTag
    | MouseRelMoveTag
    | MouseWheelTag
    | ClipboardGrabTag
    | ClipboardDataTag
    | FileOfferTag
    | FileChunkTag
    | FileEndTag
    | FileAcceptTag
    | ErrIncompatibleTag
    | ErrBusyTag
    | ErrUnknownTag
    | ErrBadTag
  {
    predicate IsInput() {
      KeyDownTag? || KeyUpTag? || KeyRepeatTag? || MouseDownTag? || MouseUpTag? || MouseMoveTag? || MouseRelMoveTag? || MouseWheelTag?
    }

    predicate IsBulk() {
      ClipboardGrabTag? || ClipboardDataTag? || FileOfferTag? || FileChunkTag? || FileEndTag? || FileAcceptTag?
    }
  }

  function OpcodeOf(tag: Tag): u32 {
    match tag
    case QueryInfoTag => 0x51494E46 // QINF
    case DeviceInfoTag => 0x44494E46 // DINF
    case InfoAckTag => 0x4349414B // CIAK
    case ResetOptionsTag => 0x43524F50 // CROP
    case SetOptionsTag => 0x44534F50 // DSOP
    case KeepAliveTag => 0x43414C56 // CALV
    case NoOpTag => 0x434E4F50 // CNOP
    case CloseTag => 0x43425945 // CBYE
    case ScreenSaverTag => 0x43534543 // CSEC
    case EnterTag => 0x43494E4E // CINN
    case LeaveTag => 0x434F5554 // COUT
    case KeyDownTag => 0x444B444E // DKDN
    case KeyUpTag => 0x444B5550 // DKUP
    case KeyRepeatTag => 0x444B5250 // DKRP
    case MouseDownTag => 0x444D444E // DMDN
    case MouseUpTag => 0x444D5550 // DMUP
    case MouseMoveTag => 0x444D4D56 // DMMV
    case MouseRelMoveTag => 0x444D524D // DMRM
    case MouseWheelTag => 0x444D574D // DMWM
    case ClipboardGrabTag => 0x43434C50 // CCLP
    case ClipboardDataTag => 0x44434C50 // DCLP
    case FileOfferTag => 0x464F4652 // FOFR
    case FileChunkTag => 0x46444154 // FDAT
    case FileEndTag => 0x46454E44 // FEND
    case FileAcceptTag => 0x4641434B // FACK
    case ErrIncompatibleTag => 0x45494356 // EICV
    case ErrBusyTag => 0x45425359 // EBSY
    case ErrUnknownTag => 0x45554E4B // EUNK
    case ErrBadTag => 0x45424144 // EBAD
  }

  function KindsOf(tag: Tag): Kinds {
    match tag
    case QueryInfoTag => Done
    case DeviceInfoTag => Then(I16, Then(I16, Then(I16, Then(I16, Then(I16, Then(I16, Then(I16, Done)))))))
    case InfoAckTag => Done
    case ResetOptionsTag => Done
    case SetOptionsTag => Then(Ints, Done)
    case KeepAliveTag => Done
    case NoOpTag => Done
    case CloseTag => Done
    case ScreenSaverTag => Then(Flag, Done)
    case EnterTag => Then(I16, Then(I16, Then(U32, Then(U16, Done))))
    case LeaveTag => Done
    case KeyDownTag => Then(U16, Then(U16, Then(U16, Done)))
    case KeyUpTag => Then(U16, Then(U16, Then(U16, Done)))
    case KeyRepeatTag => Then(U16, Then(U16, Then(U16, Then(U16, Done))))
    case MouseDownTag => Then(I8, Done)
    case MouseUpTag => Then(I8, Done)
    case MouseMoveTag => Then(I16, Then(I16, Done))
    case MouseRelMoveTag => Then(I16, Then(I16, Done))
    case MouseWheelTag => Then(I16, Then(I16, Done))
    case ClipboardGrabTag => Then(I8, Then(U32, Done))
    case ClipboardDataTag => Then(I8, Then(U32, Then(I8, Then(Bytes, Done))))
    case FileOfferTag => Then(U32, Then(Text, Then(U64, Done)))
    case FileChunkTag => Then(U32, Then(U32, Then(Bytes, Done)))
    case FileEndTag => Then(U32, Then(U32, Done))
    case FileAcceptTag => Then(U32, Then(Flag, Done))
    case ErrIncompatibleTag => Then(I16, Then(I16, Done))
    case ErrBusyTag => Done
    case ErrUnknownTag => Done
    case ErrBadTag => Done
  }

  function TagOf(m: Message): Tag
    requires !m.Hello? && !m.HelloBack?
  {
    match m
    case QueryInfo => QueryInfoTag
    case DeviceInfo(_, _, _, _, _, _, _) => DeviceInfoTag
    case InfoAck => InfoAckTag
    case ResetOptions => ResetOptionsTag
    case SetOptions(_) => SetOptionsTag
    case KeepAlive => KeepAliveTag
    case NoOp => NoOpTag
    case Close => CloseTag
    case ScreenSaver(_) => ScreenSaverTag
    case Enter(_, _, _, _) => EnterTag
    case Leave => LeaveTag
    case KeyDown(_, _, _) => KeyDownTag
    case KeyUp(_, _, _) => KeyUpTag
    case KeyRepeat(_, _, _, _) => KeyRepeatTag
    case MouseDown(_) => MouseDownTag
    case MouseUp(_) => MouseUpTag
    case MouseMove(_, _) => MouseMoveTag
    case MouseRelMove(_, _) => MouseRelMoveTag
    case MouseWheel(_, _) => MouseWheelTag
    case ClipboardGrab(_, _) => ClipboardGrabTag
    case ClipboardData(_, _, _, _) => ClipboardDataTag
    case FileOffer(_, _, _) => FileOfferTag
    case FileChunk(_, _, _) => FileChunkTag
    case FileEnd(_, _) => FileEndTag
    case FileAccept(_, _) => FileAcceptTag
    case ErrIncompatible(_, _) => ErrIncompatibleTag
    case ErrBusy => ErrBusyTag
    case ErrUnknown => ErrUnknownTag
    case ErrBad => ErrBadTag
  }

  function InputValues(m: Message): (vs: Values)
    requires !m.Hello? && !m.HelloBack? && TagOf(m).IsInput()
    ensures HoldAll(KindsOf(TagOf(m)), vs)
  {
    match m
    case KeyDown(key, mask, scan) => Cons(Num(key), Cons(Num(mask), Cons(Num(scan), Nil)))
    case KeyUp(key, mask, scan) => Cons(Num(key), Cons(Num(mask), Cons(Num(scan), Nil)))
    case KeyRepeat(key, mask, repeats, scan) => Cons(Num(key), Cons(Num(mask), Cons(Num(repeats), Cons(Num(scan), Nil))))
    case MouseDown(button) => Cons(Num(button), Nil)
    case MouseUp(button) => Cons(Num(button), Nil)
    case MouseMove(x, y) => Cons(Num(x), Cons(Num(y), Nil))
    case MouseRelMove(x, y) => Cons(Num(x), Cons(Num(y), Nil))
    case MouseWheel(x, y) => Cons(Num(x), Cons(Num(y), Nil))
  }

  function BulkValues(m: Message): (vs: Values)
    requires !m.Hello? && !m.HelloBack? && TagOf(m).IsBulk()
    ensures HoldAll(KindsOf(TagOf(m)), vs)
  {
    match m
    case ClipboardGrab(clip, clipSeq) => Cons(Num(clip), Cons(Num(clipSeq), Nil))
    case ClipboardData(clip, clipSeq, mark, data) => Cons(Num(clip), Cons(Num(clipSeq), Cons(Num(mark), Cons(Blob(data), Nil))))
    case FileOffer(id, name, size) => Cons(Num(id), Cons(Str(name), Cons(Num(size), Nil)))
    case FileChunk(id, chunkSeq, data) => Cons(Num(id), Cons(Num(chunkSeq), Cons(Blob(data), Nil)))
    case FileEnd(id, count) => Cons(Num(id), Cons(Num(count), Nil))
    case FileAccept(id, accept) => Cons(Num(id), Cons(Bool(accept), Nil))
  }

  function ControlValues(m: Message): (vs: Values)
    requires !m.Hello? && !m.HelloBack? && !TagOf(m).IsInput() && !TagOf(m).IsBulk()
    ensures HoldAll(KindsOf(TagOf(m)), vs)
  {
    match m
    case DeviceInfo(x, y, w, h, warp, mx, my) =>
      Cons(Num(x), Cons(Num(y), Cons(Num(w), Cons(Num(h), Cons(Num(warp), Cons(Num(mx), Cons(Num(my), Nil)))))))
    case SetOptions(opts) => Cons(Vec(opts), Nil)
    case ScreenSaver(on) => Cons(Bool(on), Nil)
    case Enter(x, y, enterSeq, modifiers) => Cons(Num(x), Cons(Num(y), Cons(Num(enterSeq), Cons(Num(modifiers), Nil))))
    case ErrIncompatible(major, minor) => Cons(Num(major), Cons(Num(minor), Nil))
    case _ => Nil
  }

  function ValuesOf(m: Message): (vs: Values)
    requires !m.Hello? && !m.HelloBack?
    ensures HoldAll(KindsOf(TagOf(m)), vs)
  {
    if TagOf(m).IsInput() then InputValues(m)
    else if TagOf(m).IsBulk() then BulkValues(m)
    else ControlValues(m)
  }

  function BuildInput(tag: Tag, vs: Values): (m: Message)
    requires tag.IsInput() && HoldAll(KindsOf(tag), vs)
    ensures !m.Hello? && !m.HelloBack? && TagOf(m) == tag && InputValues(m) == vs
  {
    match tag
    case KeyDownTag => KeyDown(vs.head.n, vs.tail.head.n, vs.tail.tail.head.n)
    case KeyUpTag => KeyUp(vs.head.n, vs.tail.head.n, vs.tail.tail.head.n)
    case KeyRepeatTag => KeyRepeat(vs.head.n, vs.tail.head.n, vs.tail.tail.head.n, vs.tail.tail.tail.head.n)
    case MouseDownTag => MouseDown(vs.head.n)
    case MouseUpTag => MouseUp(vs.head.n)
    case MouseMoveTag => MouseMove(vs.head.n, vs.tail.head.n)
    case MouseRelMoveTag => MouseRelMove(vs.head.n, vs.tail.head.n)
    case MouseWheelTag => MouseWheel(vs.head.n, vs.tail.head.n)
  }

  function BuildBulk(tag: Tag, vs: Values): (m: Message)
    requires tag.IsBulk() && HoldAll(KindsOf(tag), vs)
    ensures !m.Hello? && !m.HelloBack? && TagOf(m) == tag && BulkValues(m) == vs
  {
    match tag
    case ClipboardGrabTag => ClipboardGrab(vs.head.n, vs.tail.head.n)
    case ClipboardDataTag => ClipboardData(vs.head.n, vs.tail.head.n, vs.tail.tail.head.n, vs.tail.tail.tail.head.data)
    case FileOfferTag => FileOffer(vs.head.n, vs.tail.head.s, vs.tail.tail.head.n)
    case FileChunkTag => FileChunk(vs.head.n, vs.tail.head.n, vs.tail.tail.head.data)
    case FileEndTag => FileEnd(vs.head.n, vs.tail.head.n)
    case FileAcceptTag => FileAccept(vs.head.n, vs.tail.head.b)
  }

  function BuildControl(tag: Tag, vs: Values): (m: Message)
    requires !tag.IsInput() && !tag.IsBulk() && HoldAll(KindsOf(tag), vs)
    ensures !m.Hello? && !m.HelloBack? && TagOf(m) == tag && ControlValues(m) == vs
  {
    match tag
    case QueryInfoTag => QueryInfo
    case DeviceInfoTag =>
      DeviceInfo(vs.head.n, vs.tail.head.n, vs.tail.tail.head.n, vs.tail.tail.tail.head.n,
                 vs.tail.tail.tail.tail.head.n, vs.tail.tail.tail.tail.tail.head.n,
                 vs.tail.tail.tail.tail.tail.tail.head.n)
    case InfoAckTag => InfoAck
    case ResetOptionsTag => ResetOptions
    case SetOptionsTag => SetOptions(vs.head.v)
    case KeepAliveTag => KeepAlive
    case NoOpTag => NoOp
    case CloseTag => Close
    case ScreenSaverTag => ScreenSaver(vs.head.b)
    case EnterTag => Enter(vs.head.n, vs.tail.head.n, vs.tail.tail.head.n, vs.tail.tail.tail.head.n)
    case LeaveTag => Leave
    case ErrIncompatibleTag => ErrIncompatible(vs.head.n, vs.tail.head.n)
    case ErrBusyTag => ErrBusy
    case ErrUnknownTag => ErrUnknown
    case ErrBadTag => ErrBad
  }

  /** The message a kind and its field values stand for. */
  function Build(tag: Tag, vs: Values): (m: Message)
    requires HoldAll(KindsOf(tag), vs)
    ensures !m.Hello? && !m.HelloBack? && TagOf(m) == tag && ValuesOf(m) == vs
  {
    if tag.IsInput() then BuildInput(tag, vs)
    else if tag.IsBulk() then BuildBulk(tag, vs)
    else BuildControl(tag, vs)
  }

  /** The opcode's message kind, tried in the order the decoder tries them. */
  function FindTag(op: int): (tag: Option<Tag>)
    ensures tag.Some? ==> OpcodeOf(tag.value) == op
  {
    if op == OpcodeOf(QueryInfoTag) then Some(QueryInfoTag)
    else if op == OpcodeOf(DeviceInfoTag) then Some(DeviceInfoTag)
    else if op == OpcodeOf(InfoAckTag) then Some(InfoAckTag)
    else if op == OpcodeOf(ResetOptionsTag) then Some(ResetOptionsTag)
    else if op == OpcodeOf(SetOptionsTag) then Some(SetOptionsTag)
    else if op == OpcodeOf(KeepAliveTag) then Some(KeepAliveTag)
    else if op == OpcodeOf(NoOpTag) then Some(NoOpTag)
    else if op == OpcodeOf(CloseTag) then Some(CloseTag)
    else if op == OpcodeOf(ScreenSaverTag) then Some(ScreenSaverTag)
    else if op == OpcodeOf(EnterTag) then Some(EnterTag)
    else if op == OpcodeOf(LeaveTag) then Some(LeaveTag)
    else if op == OpcodeOf(KeyDownTag) then Some(KeyDownTag)
    else if op == OpcodeOf(KeyUpTag) then Some(KeyUpTag)
    else if op == OpcodeOf(KeyRepeatTag) then Some(KeyRepeatTag)
    else if op == OpcodeOf(MouseDownTag) then Some(MouseDownTag)
    else if op == OpcodeOf(MouseUpTag) then Some(MouseUpTag)
    else if op == OpcodeOf(MouseMoveTag) then Some(MouseMoveTag)
    else if op == OpcodeOf(MouseRelMoveTag) then Some(MouseRelMoveTag)
    else if op == OpcodeOf(MouseWheelTag) then Some(MouseWheelTag)
    else if op == OpcodeOf(ClipboardGrabTag) then Some(ClipboardGrabTag)
    else if op == OpcodeOf(ClipboardDataTag) then Some(ClipboardDataTag)
    else if op == OpcodeOf(FileOfferTag) then Some(FileOfferTag)
    else if op == OpcodeOf(FileChunkTag) then Some(FileChunkTag)
    else if op == OpcodeOf(FileEndTag) then Some(FileEndTag)
    else if op == OpcodeOf(FileAcceptTag) then Some(FileAcceptTag)
    else if op == OpcodeOf(ErrIncompatibleTag) then Some(ErrIncompatibleTag)
    else if op == OpcodeOf(ErrBusyTag) then Some(ErrBusyTag)
    else if op == OpcodeOf(ErrUnknownTag) then Some(ErrUnknownTag)
    else if op == OpcodeOf(ErrBadTag) then Some(ErrBadTag)
    else None
  }

  // --- Encoding and decoding --------------------------------------------------------------------

  /** "SelfKVM" */
  const HELLO_MAGIC: seq<byte> := [0x53, 0x65, 0x6C, 0x66, 0x4B, 0x56, 0x4D]
  const HELLO_KINDS := Then(I16, Then(I16, Done))
  const HELLO_BACK_KINDS := Then(I16, Then(I16, Then(Text, Done)))

  function Encode(m: Message): seq<byte> {
    match m
    case Hello(major, minor) =>
      PrintOnto(HELLO_MAGIC, HELLO_KINDS, Cons(Num(major), Cons(Num(minor), Nil)))
    case HelloBack(major, minor, name) =>
      PrintOnto(HELLO_MAGIC, HELLO_BACK_KINDS, Cons(Num(major), Cons(Num(minor), Cons(Str(name), Nil))))
    case _ => PrintOnto(Raw(OpcodeOf(TagOf(m))), KindsOf(TagOf(m)), ValuesOf(m))
  }

  function DecodeHello(bs: seq<byte>): Result<Message, ProtoError> {
    var (major, afterMajor) :- ParseNumber(I16, bs);
    var (minor, rest) :- ParseNumber(I16, afterMajor);
    if rest == [] then Ok(Hello(major, minor))
    else
      var (name, _) :- ParseText(rest);
      Ok(HelloBack(major, minor, name))
  }

  function DecodeFields(tag: Tag, bs: seq<byte>): Result<Message, ProtoError> {
    var (vs, _) :- ParseAll(KindsOf(tag), bs);
    Ok(Build(tag, vs))
  }

  predicate Greets(payload: seq<byte>) {
    |payload| >= 7 && payload[..7] == HELLO_MAGIC
  }

  function Decode(payload: seq<byte>): Result<Message, ProtoError> {
    if Greets(payload) then DecodeHello(payload[7..])
    else if |payload| < 4 then Err(UnexpectedEof(4, |payload|))
    else
      match FindTag(FromBigEndian(payload[..4]))
      case Some(tag) => DecodeFields(tag, payload[4..])
      case None => Err(UnknownCode(payload[..4]))
  }
}
