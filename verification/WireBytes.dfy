/** Every message as the bytes it is on the wire, written out byte by byte: the reference the schema is held against. */
module WireBytes {
  import opened Wrappers
  import opened MachineInts
  import opened Messages
  import opened WireFormat
  import opened Codec
  import opened CodecTheorems
  import opened Framing
  import opened Transport
  import Utf8

  // --- Bytes ------------------------------------------------------------------------------------

  /** The lowest eight bits; of a negative number, those of its two's complement. */
  function Low(n: int): byte {
    (n % 256) as byte
  }

  function B1(n: int): seq<byte> { [Low(n)] }
  function B2(n: int): seq<byte> { [Low(n / 0x100), Low(n)] }
  function B4(n: int): seq<byte> { [Low(n / 0x100_0000), Low(n / 0x1_0000), Low(n / 0x100), Low(n)] }
  function B8(n: int): seq<byte> { B4(n / 0x1_0000_0000) + B4(n) }

  function Ascii(c: char): byte {
    if c as int < 0x80 then c as int as byte else 0
  }

  /** Four letters. */
  function Code(a: char, b: char, c: char, d: char): seq<byte> {
    [Ascii(a), Ascii(b), Ascii(c), Ascii(d)]
  }

  function Flagged(on: bool): seq<byte> { [if on then 1 else 0] }
  function Counted(data: seq<byte>): seq<byte> { B4(|data|) + data }

  function Quads(v: seq<i32>): seq<byte> {
    if v == [] then [] else B4(v[0]) + Quads(v[1..])
  }

  const SELF_KVM := Code('S', 'e', 'l', 'f') + [Ascii('K'), Ascii('V'), Ascii('M')]

  /** The letters a message begins with. */
  function Letters(m: Message): (code: seq<byte>)
    ensures |code| >= 4 && (!m.Hello? && !m.HelloBack? ==> |code| == 4)
  {
    match m
    case Hello(_, _) => SELF_KVM
    case HelloBack(_, _, _) => SELF_KVM
    case QueryInfo => Code('Q', 'I', 'N', 'F')
    case DeviceInfo(_, _, _, _, _, _, _) => Code('D', 'I', 'N', 'F')
    case InfoAck => Code('C', 'I', 'A', 'K')
    case ResetOptions => Code('C', 'R', 'O', 'P')
    case SetOptions(_) => Code('D', 'S', 'O', 'P')
    case KeepAlive => Code('C', 'A', 'L', 'V')
    case NoOp => Code('C', 'N', 'O', 'P')
    case Close => Code('C', 'B', 'Y', 'E')
    case ScreenSaver(_) => Code('C', 'S', 'E', 'C')
    case Enter(_, _, _, _) => Code('C', 'I', 'N', 'N')
    case Leave => Code('C', 'O', 'U', 'T')
    case KeyDown(_, _, _) => Code('D', 'K', 'D', 'N')
    case KeyUp(_, _, _) => Code('D', 'K', 'U', 'P')
    case KeyRepeat(_, _, _, _) => Code('D', 'K', 'R', 'P')
    case MouseDown(_) => Code('D', 'M', 'D', 'N')
    case MouseUp(_) => Code('D', 'M', 'U', 'P')
    case MouseMove(_, _) => Code('D', 'M', 'M', 'V')
    case MouseRelMove(_, _) => Code('D', 'M', 'R', 'M')
    case MouseWheel(_, _) => Code('D', 'M', 'W', 'M')
    case ClipboardGrab(_, _) => Code('C', 'C', 'L', 'P')
    case ClipboardData(_, _, _, _) => Code('D', 'C', 'L', 'P')
    case FileOffer(_, _, _) => Code('F', 'O', 'F', 'R')
    case FileChunk(_, _, _) => Code('F', 'D', 'A', 'T')
    case FileEnd(_, _) => Code('F', 'E', 'N', 'D')
    case FileAccept(_, _) => Code('F', 'A', 'C', 'K')
    case ErrIncompatible(_, _) => Code('E', 'I', 'C', 'V')
    case ErrBusy => Code('E', 'B', 'S', 'Y')
    case ErrUnknown => Code('E', 'U', 'N', 'K')
    case ErrBad => Code('E', 'B', 'A', 'D')
  }

  /** Its fields, behind those letters. */
  function Behind(code: seq<byte>, m: Message): seq<byte> {
    match m
    case Hello(major, minor) => code + B2(major) + B2(minor)
    case HelloBack(major, minor, name) => code + B2(major) + B2(minor) + Counted(Utf8.Encode(name))
    case DeviceInfo(x, y, w, h, warp, mx, my) => code + B2(x) + B2(y) + B2(w) + B2(h) + B2(warp) + B2(mx) + B2(my)
    case SetOptions(opts) => code + (B4(|opts|) + Quads(opts))
    case ScreenSaver(on) => code + Flagged(on)
    case Enter(x, y, n, modifiers) => code + B2(x) + B2(y) + B4(n) + B2(modifiers)
    case KeyDown(key, mask, scan) => code + B2(key) + B2(mask) + B2(scan)
    case KeyUp(key, mask, scan) => code + B2(key) + B2(mask) + B2(scan)
    case KeyRepeat(key, mask, n, scan) => code + B2(key) + B2(mask) + B2(n) + B2(scan)
    case MouseDown(button) => code + B1(button)
    case MouseUp(button) => code + B1(button)
    case MouseMove(x, y) => code + B2(x) + B2(y)
    case MouseRelMove(dx, dy) => code + B2(dx) + B2(dy)
    case MouseWheel(x, y) => code + B2(x) + B2(y)
    case ClipboardGrab(clip, n) => code + B1(clip) + B4(n)
    case ClipboardData(clip, n, mark, data) => code + B1(clip) + B4(n) + B1(mark) + Counted(data)
    case FileOffer(id, name, size) => code + B4(id) + Counted(Utf8.Encode(name)) + B8(size)
    case FileChunk(id, n, data) => code + B4(id) + B4(n) + Counted(data)
    case FileEnd(id, count) => code + B4(id) + B4(count)
    case FileAccept(id, accept) => code + B4(id) + Flagged(accept)
    case ErrIncompatible(major, minor) => code + B2(major) + B2(minor)
    case _ => code
  }

  /** A message, byte by byte. */
  function OnWire(m: Message): seq<byte> {
    Behind(Letters(m), m)
  }

  // --- Numbers ----------------------------------------------------------------------------------

  lemma OneByte(n: int)
    ensures BigEndian(n, 1) == B1(n)
  {
    assert BigEndian(n, 1) == BigEndian(n / 256, 0) + [(n % 256) as byte];
  }

  lemma TwoBytes(n: int)
    ensures BigEndian(n, 2) == B2(n)
  {
    OneByte(n / 256);
    assert BigEndian(n, 2) == BigEndian(n / 256, 1) + [(n % 256) as byte];
  }

  lemma FourBytes(n: int)
    ensures BigEndian(n, 4) == B4(n)
  {
    TwoBytes(n / 256 / 256);
    assert BigEndian(n / 256, 3) == BigEndian(n / 256 / 256, 2) + [(n / 256 % 256) as byte];
    assert BigEndian(n, 4) == BigEndian(n / 256, 3) + [(n % 256) as byte];
    assert n / 256 / 256 == n / 0x1_0000 && n / 256 / 256 / 256 == n / 0x100_0000;
  }

  lemma NextByte(n: int, width: nat)
    ensures BigEndian(n, width + 1) == BigEndian(n / 256, width) + [Low(n)]
  {
  }

  lemma EightBytes(n: int)
    ensures BigEndian(n, 8) == B8(n)
  {
    var k := n / 0x1_0000_0000;
    FourBytes(k);
    NextByte(n / 0x100_0000, 4);
    NextByte(n / 0x1_0000, 5);
    NextByte(n / 0x100, 6);
    NextByte(n, 7);
    assert n / 0x100_0000 / 256 == k && n / 0x1_0000 / 256 == n / 0x100_0000 && n / 0x100 / 256 == n / 0x1_0000;
  }

  /** A number of a field, as bytes. */
  function Plainly(kind: Kind, n: int): seq<byte> {
    match kind.Width()
    case 1 => B1(n)
    case 2 => B2(n)
    case 4 => B4(n)
    case _ => B8(n)
  }

  lemma SameLow(n: int, k: int)
    ensures Low(n + k * 256) == Low(n)
  {
  }

  lemma OneComplement(n: int)
    ensures B1(n + 0x100) == B1(n)
  {
    SameLow(n, 1);
  }

  lemma TwoComplement(n: int)
    ensures B2(n + 0x1_0000) == B2(n)
  {
    SameLow(n, 0x100);
    SameLow(n / 0x100, 1);
    assert (n + 0x1_0000) / 0x100 == n / 0x100 + 0x100;
  }

  lemma FourComplement(n: int)
    ensures B4(n + 0x1_0000_0000) == B4(n)
  {
    SameLow(n, 0x100_0000);
    SameLow(n / 0x100, 0x1_0000);
    SameLow(n / 0x1_0000, 0x100);
    SameLow(n / 0x100_0000, 1);
    assert (n + 0x1_0000_0000) / 0x100 == n / 0x100 + 0x100_0000;
    assert (n + 0x1_0000_0000) / 0x1_0000 == n / 0x1_0000 + 0x1_0000;
    assert (n + 0x1_0000_0000) / 0x100_0000 == n / 0x100_0000 + 0x100;
  }

  lemma NumberPlainly(kind: Kind, n: int)
    requires kind.IsNumber() && InRange(kind, n)
    ensures PrintNumber(kind, n) == Plainly(kind, n)
  {
    var u := Unsigned(n, kind.Width());
    OneByte(u);
    TwoBytes(u);
    FourBytes(u);
    EightBytes(u);
    OneComplement(n);
    TwoComplement(n);
    FourComplement(n);
  }

  /** The program's narrowing casts keep just the bytes that fit. */
  lemma CastsKeepLow(x: int)
    ensures B2(AsI16(x)) == B2(x) && B4(AsI32(x)) == B4(x)
  {
    CutBy16(x);
    CutBy32(x);
  }

  lemma {:induction false} Complements(n: int, k: int)
    ensures B2(n + k * 0x1_0000) == B2(n) && B4(n + k * 0x1_0000_0000) == B4(n)
    decreases if k < 0 then -k else k
  {
    if k > 0 {
      TwoComplement(n + (k - 1) * 0x1_0000);
      FourComplement(n + (k - 1) * 0x1_0000_0000);
      Complements(n, k - 1);
    } else if k < 0 {
      TwoComplement(n + k * 0x1_0000);
      FourComplement(n + k * 0x1_0000_0000);
      Complements(n, k + 1);
    }
  }

  lemma CutBy16(x: int)
    ensures B2(AsI16(x)) == B2(x)
  {
    var k := (x + 0x8000) / 0x1_0000;
    assert x == AsI16(x) + k * 0x1_0000;
    Complements(AsI16(x), k);
  }

  lemma CutBy32(x: int)
    ensures B4(AsI32(x)) == B4(x)
  {
    var k := (x + 0x8000_0000) / 0x1_0000_0000;
    assert x == AsI32(x) + k * 0x1_0000_0000;
    Complements(AsI32(x), k);
  }

  // --- Fields -----------------------------------------------------------------------------------

  lemma {:induction false} IntsPlainly(v: seq<i32>)
    ensures PrintInts(v) == Quads(v)
  {
    if v != [] {
      NumberPlainly(I32, v[0]);
      IntsPlainly(v[1..]);
    }
  }

  lemma LengthPlainly(n: nat)
    ensures Length(n) == B4(n)
  {
    FourBytes(n % 0x1_0000_0000);
    var k := n / 0x1_0000_0000;
    assert n == n % 0x1_0000_0000 + k * 0x1_0000_0000;
    SameLow(n % 0x1_0000_0000, k * 0x100_0000);
    SameLow(n % 0x1_0000_0000 / 0x100, k * 0x1_0000);
    SameLow(n % 0x1_0000_0000 / 0x1_0000, k * 0x100);
    SameLow(n % 0x1_0000_0000 / 0x100_0000, k);
    assert n / 0x100 == n % 0x1_0000_0000 / 0x100 + k * 0x100_0000;
    assert n / 0x1_0000 == n % 0x1_0000_0000 / 0x1_0000 + k * 0x1_0000;
    assert n / 0x100_0000 == n % 0x1_0000_0000 / 0x100_0000 + k * 0x100;
  }

  /** A field, as bytes. */
  function Field(kind: Kind, v: Value): seq<byte>
    requires Holds(kind, v)
  {
    match kind
    case Flag => Flagged(v.b)
    case Bytes => Counted(v.data)
    case Text => Counted(Utf8.Encode(v.s))
    case Ints => B4(|v.v|) + Quads(v.v)
    case _ => Plainly(kind, v.n)
  }

  lemma FieldPlainly(kind: Kind, v: Value)
    requires Holds(kind, v)
    ensures Print(kind, v) == Field(kind, v)
  {
    match kind
    case Flag =>
    case Bytes => LengthPlainly(|v.data|);
    case Text => LengthPlainly(|Utf8.Encode(v.s)|);
    case Ints => LengthPlainly(|v.v|); IntsPlainly(v.v);
    case _ => NumberPlainly(kind, v.n);
  }

  /** The fields behind some bytes. */
  function FieldsOnto(buf: seq<byte>, ks: Kinds, vs: Values): seq<byte>
    requires HoldAll(ks, vs)
    decreases ks
  {
    match ks
    case Done => buf
    case Then(kind, more) => FieldsOnto(buf + Field(kind, vs.head), more, vs.tail)
  }

  lemma {:induction false} FieldsPlainly(buf: seq<byte>, ks: Kinds, vs: Values)
    requires HoldAll(ks, vs)
    ensures PrintOnto(buf, ks, vs) == FieldsOnto(buf, ks, vs)
    decreases ks
  {
    match ks
    case Done =>
    case Then(kind, more) =>
      FieldPlainly(kind, vs.head);
      FieldsPlainly(buf + Field(kind, vs.head), more, vs.tail);
  }

  // --- Messages ---------------------------------------------------------------------------------

  predicate IsBulk(m: Message) {
    m.ClipboardGrab? || m.ClipboardData? || m.FileOffer? || m.FileChunk? || m.FileEnd? || m.FileAccept?
  }

  predicate IsHandshake(m: Message) {
    m.QueryInfo? || m.DeviceInfo? || m.InfoAck? || m.ResetOptions? || m.SetOptions?
  }

  predicate IsError(m: Message) {
    m.ErrIncompatible? || m.ErrBusy? || m.ErrUnknown? || m.ErrBad?
  }

  predicate IsSignal(m: Message) {
    m.KeepAlive? || m.NoOp? || m.Close? || m.ScreenSaver? || m.Enter? || m.Leave?
  }

  /** Four bytes as a number. */
  function Word(code: seq<byte>): int
    requires |code| >= 4
  {
    code[0] as int * 0x100_0000 + code[1] as int * 0x1_0000 + code[2] as int * 0x100 + code[3] as int
  }

  lemma WordBytes(code: seq<byte>)
    requires |code| == 4
    ensures B4(Word(code)) == code
  {
    var n := Word(code);
    assert n / 0x100_0000 == code[0] as int;
    assert n / 0x1_0000 == code[0] as int * 0x100 + code[1] as int;
    assert n / 0x100 == code[0] as int * 0x1_0000 + code[1] as int * 0x100 + code[2] as int;
  }

  lemma InputLetters(m: Message)
    requires m.IsInput()
    ensures OpcodeOf(TagOf(m)) == Word(Letters(m))
  {
  }

  lemma BulkLetters(m: Message)
    requires IsBulk(m)
    ensures OpcodeOf(TagOf(m)) == Word(Letters(m))
  {
  }

  lemma HandshakeLetters(m: Message)
    requires IsHandshake(m)
    ensures OpcodeOf(TagOf(m)) == Word(Letters(m))
  {
  }

  lemma ErrorLetters(m: Message)
    requires IsError(m)
    ensures OpcodeOf(TagOf(m)) == Word(Letters(m))
  {
  }

  lemma SignalLetters(m: Message)
    requires IsSignal(m)
    ensures OpcodeOf(TagOf(m)) == Word(Letters(m))
  {
  }

  lemma OpcodeSpells(m: Message)
    requires !m.Hello? && !m.HelloBack?
    ensures Raw(OpcodeOf(TagOf(m))) == Letters(m)
  {
    FourBytes(OpcodeOf(TagOf(m)));
    WordBytes(Letters(m));
    if m.IsInput() {
      InputLetters(m);
    } else if IsBulk(m) {
      BulkLetters(m);
    } else if IsHandshake(m) {
      HandshakeLetters(m);
    } else if IsError(m) {
      ErrorLetters(m);
    } else {
      SignalLetters(m);
    }
  }

  lemma InputBehind(code: seq<byte>, m: Message)
    requires m.IsInput()
    ensures FieldsOnto(code, KindsOf(TagOf(m)), ValuesOf(m)) == Behind(code, m)
  {
  }

  lemma DataBehind(code: seq<byte>, m: Message)
    requires m.FileOffer? || m.FileChunk?
    ensures FieldsOnto(code, KindsOf(TagOf(m)), ValuesOf(m)) == Behind(code, m)
  {
  }

  lemma FileBehind(code: seq<byte>, m: Message)
    requires m.FileEnd? || m.FileAccept?
    ensures FieldsOnto(code, KindsOf(TagOf(m)), ValuesOf(m)) == Behind(code, m)
  {
  }

  lemma ClipboardBehind(code: seq<byte>, m: Message)
    requires m.ClipboardGrab? || m.ClipboardData?
    ensures FieldsOnto(code, KindsOf(TagOf(m)), ValuesOf(m)) == Behind(code, m)
  {
  }

  lemma HandshakeBehind(code: seq<byte>, m: Message)
    requires IsHandshake(m)
    ensures FieldsOnto(code, KindsOf(TagOf(m)), ValuesOf(m)) == Behind(code, m)
  {
  }

  lemma ErrorBehind(code: seq<byte>, m: Message)
    requires IsError(m)
    ensures FieldsOnto(code, KindsOf(TagOf(m)), ValuesOf(m)) == Behind(code, m)
  {
  }

  lemma SignalBehind(code: seq<byte>, m: Message)
    requires IsSignal(m)
    ensures FieldsOnto(code, KindsOf(TagOf(m)), ValuesOf(m)) == Behind(code, m)
  {
  }

  lemma FieldsBehind(code: seq<byte>, m: Message)
    requires !m.Hello? && !m.HelloBack?
    ensures PrintOnto(code, KindsOf(TagOf(m)), ValuesOf(m)) == Behind(code, m)
  {
    FieldsPlainly(code, KindsOf(TagOf(m)), ValuesOf(m));
    if m.IsInput() {
      InputBehind(code, m);
    } else if m.ClipboardGrab? || m.ClipboardData? {
      ClipboardBehind(code, m);
    } else if m.FileOffer? || m.FileChunk? {
      DataBehind(code, m);
    } else if IsBulk(m) {
      FileBehind(code, m);
    } else if IsHandshake(m) {
      HandshakeBehind(code, m);
    } else if IsError(m) {
      ErrorBehind(code, m);
    } else {
      SignalBehind(code, m);
    }
  }

  lemma GreetingBehind(code: seq<byte>, m: Message)
    requires m.Hello? || m.HelloBack?
    ensures m.Hello? ==> PrintOnto(code, HELLO_KINDS, Cons(Num(m.major), Cons(Num(m.minor), Nil))) == Behind(code, m)
    ensures m.HelloBack? ==> PrintOnto(code, HELLO_BACK_KINDS, HelloBackValues(m)) == Behind(code, m)
  {
    if m.Hello? {
      FieldsPlainly(code, HELLO_KINDS, Cons(Num(m.major), Cons(Num(m.minor), Nil)));
    } else {
      FieldsPlainly(code, HELLO_BACK_KINDS, HelloBackValues(m));
    }
  }

  lemma MagicSpells()
    ensures HELLO_MAGIC == SELF_KVM
  {
  }

  /** What the codec writes is this, for every message. */
  lemma EncodedOnWire(m: Message)
    ensures Encode(m) == OnWire(m)
  {
    if m.Hello? || m.HelloBack? {
      MagicSpells();
      GreetingBehind(HELLO_MAGIC, m);
    } else {
      OpcodeSpells(m);
      FieldsBehind(Letters(m), m);
    }
  }

  /** What a message may at most hold to survive, in bytes and options. */
  predicate Small(m: Message) {
    match m
    case HelloBack(_, _, name) => |Utf8.Encode(name)| <= 4194304
    case SetOptions(opts) => |opts| <= 1048576
    case ClipboardData(_, _, _, data) => |data| <= 4194304
    case FileOffer(_, name, _) => |Utf8.Encode(name)| <= 4194304
    case FileChunk(_, _, data) => |data| <= 4194304
    case _ => true
  }

  lemma InputSmall(m: Message)
    requires m.IsInput()
    ensures FitAll(KindsOf(TagOf(m)), ValuesOf(m))
  {
  }

  lemma FileSmall(m: Message)
    requires m.FileOffer? || m.FileChunk? || m.FileEnd? || m.FileAccept?
    ensures FitAll(KindsOf(TagOf(m)), ValuesOf(m)) <==> Small(m)
  {
  }

  lemma ClipboardSmall(m: Message)
    requires m.ClipboardGrab? || m.ClipboardData?
    ensures FitAll(KindsOf(TagOf(m)), ValuesOf(m)) <==> Small(m)
  {
  }

  lemma HandshakeSmall(m: Message)
    requires IsHandshake(m)
    ensures FitAll(KindsOf(TagOf(m)), ValuesOf(m)) <==> Small(m)
  {
  }

  lemma OtherSmall(m: Message)
    requires IsError(m) || IsSignal(m)
    ensures FitAll(KindsOf(TagOf(m)), ValuesOf(m))
  {
  }

  lemma CapsSmall(m: Message)
    ensures WithinCaps(m) <==> Small(m)
  {
    if m.Hello? || m.HelloBack? {
    } else if m.IsInput() {
      InputSmall(m);
    } else if m.ClipboardGrab? || m.ClipboardData? {
      ClipboardSmall(m);
    } else if IsBulk(m) {
      FileSmall(m);
    } else if IsHandshake(m) {
      HandshakeSmall(m);
    } else {
      OtherSmall(m);
    }
  }

  /** Read back from these bytes is the message itself, exactly if none of its parts is over the limit. */
  lemma SmallSurvives(m: Message)
    ensures Decode(OnWire(m)) == Ok(m) <==> Small(m)
  {
    EncodedOnWire(m);
    RoundTrip(m);
    CapsSmall(m);
  }

  /** Framed, it is received whole exactly if these bytes are no more than four mebibytes. */
  lemma FramedSurvives(m: Message, rest: seq<byte>, end: StreamEnd)
    ensures Receive(DECODE, Frame(OnWire(m)) + rest, end) == Received(Ok(m), rest) <==> |OnWire(m)| <= 4194304
  {
    EncodedOnWire(m);
    SendReceive(m, rest, end);
  }

  /** A frame is its payload behind the length in four bytes. */
  lemma FramedOnWire(payload: seq<byte>)
    ensures Frame(payload) == Counted(payload)
  {
    LengthPlainly(|payload|);
  }

  // --- Text -------------------------------------------------------------------------------------

  lemma {:induction false} EncodedFirst(c: char, s: string, front: seq<byte>, rest: seq<byte>)
    requires Utf8.EncodeChar(c) == front && Utf8.Encode(s) == rest
    ensures Utf8.Encode([c] + s) == front + rest
  {
    assert ([c] + s)[1..] == s;
  }

  /** Examples of section 7 of RFC 3629. */
  lemma TextExamples()
    ensures Utf8.Encode([0x41 as char, 0x2262 as char]) == [0x41, 0xE2, 0x89, 0xA2]
    ensures Utf8.Encode([0x391 as char, 0x2E as char]) == [0xCE, 0x91, 0x2E]
    ensures Utf8.Encode([0x65E5 as char]) == [0xE6, 0x97, 0xA5]
    ensures Utf8.Encode([0x233B4 as char]) == [0xF0, 0xA3, 0x8E, 0xB4]
  {
    EncodedFirst(0x2262 as char, [], [0xE2, 0x89, 0xA2], []);
    EncodedFirst(0x41 as char, [0x2262 as char], [0x41], [0xE2, 0x89, 0xA2]);
    EncodedFirst(0x2E as char, [], [0x2E], []);
    EncodedFirst(0x391 as char, [0x2E as char], [0xCE, 0x91], [0x2E]);
    EncodedFirst(0x65E5 as char, [], [0xE6, 0x97, 0xA5], []);
    EncodedFirst(0x233B4 as char, [], [0xF0, 0xA3, 0x8E, 0xB4], []);
    assert [0x41 as char] + [0x2262 as char] == [0x41 as char, 0x2262 as char];
    assert [0x391 as char] + [0x2E as char] == [0x391 as char, 0x2E as char];
  }
}
