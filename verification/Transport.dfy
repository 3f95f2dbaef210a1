/** The framed connection: the reader and writer over a byte stream, and what they carry. */
module Transport {
  import opened Wrappers
  import opened MachineInts
  import opened Messages
  import opened WireFormat
  import opened Codec
  import opened CodecTheorems
  import opened Framing
  import FileTransfer
  import WireIO

  const DECODE: Decoder := p => Decode(p)
  const ENCODE: Encoder := m => Encode(m)

  class FramedReader {
    /** The bytes the peer has sent, or will have sent before the stream ends, and that are not yet read. */
    var inner: seq<byte>
    /** How it ends. */
    const end: StreamEnd
    var buf: seq<byte>

    constructor (inner: seq<byte>, end: StreamEnd)
      ensures this.inner == inner && this.end == end
    {
      this.inner := inner;
      this.end := end;
      buf := [];
    }

    /** Reads exactly `n` bytes; if the stream ends first, drops what is left and fails. */
    method ReadExact(n: nat) returns (bytes: Option<seq<byte>>)
      modifies this`inner
      ensures n <= |old(inner)| ==> bytes == Some(old(inner)[..n]) && inner == old(inner)[n..]
      ensures n > |old(inner)| ==> bytes == None && inner == []
    {
      if n > |inner| {
        inner := [];
        return None;
      }
      bytes := Some(inner[..n]);
      inner := inner[n..];
    }

    method Recv() returns (r: Result<Message, NetError>)
      modifies this
      ensures Received(r, inner) == Receive(DECODE, old(inner), end)
    {
      var header := ReadExact(4);
      if header.None? {
        return Err(Ended(end));
      }
      var len := FromBigEndian(header.value);
      BytesRoundTrip(header.value);
      if len > MAX_FRAME_LEN {
        return Err(FrameTooLarge(len));
      }
      var payload := ReadExact(len);
      if payload.None? {
        return Err(Ended(end));
      }
      buf := payload.value;
      var decoded := WireIO.DecodeMessage(buf);
      match decoded
      case Ok(m) => return Ok(m);
      case Err(e) => return Err(Proto(e));
    }
  }

  class FramedWriter {
    /** The bytes written so far. */
    var inner: seq<byte>
    /** How many bytes can be written in all before writing fails. */
    const capacity: nat

    constructor (capacity: nat)
      ensures inner == [] && this.capacity == capacity
    {
      inner := [];
      this.capacity := capacity;
    }

    /** Writes the message's frame, or as much of it as can be. */
    method Send(m: Message) returns (ok: bool)
      modifies this
      ensures inner == Truncated(old(inner) + Frame(Encode(m)), capacity)
      ensures ok <==> |old(inner) + Frame(Encode(m))| <= capacity
    {
      var payload := WireIO.EncodeMessage(m);
      var len: u32 := |payload| % 0x1_0000_0000;
      var frame := BigEndian(len, 4);
      frame := frame + payload;
      ok := |inner + frame| <= capacity;
      inner := if ok then inner + frame else (inner + frame)[..capacity];
    }
  }

  // --- What fits --------------------------------------------------------------------------------

  predicate FitsFrame(m: Message) {
    |Encode(m)| <= MAX_FRAME_LEN
  }

  lemma ShortFieldFits(kind: Kind, v: Value)
    requires Holds(kind, v) && |Print(kind, v)| <= MAX_FRAME_LEN
    ensures Fits(kind, v)
  {
  }

  lemma {:induction false} ShortFieldsFit(ks: Kinds, vs: Values)
    requires HoldAll(ks, vs) && |PrintAll(ks, vs)| <= MAX_FRAME_LEN
    ensures FitAll(ks, vs)
    decreases ks
  {
    match ks
    case Done =>
    case Then(kind, more) =>
      PrintFirst(kind, more, vs);
      ShortFieldFits(kind, vs.head);
      ShortFieldsFit(more, vs.tail);
  }

  /** No message that fits a frame trips the cap on a field. */
  lemma FrameWithinCaps(m: Message)
    requires FitsFrame(m)
    ensures WithinCaps(m)
  {
    EncodeParts(m);
    if m.HelloBack? {
      ShortFieldsFit(HELLO_BACK_KINDS, HelloBackValues(m));
    } else if !m.Hello? {
      ShortFieldsFit(KindsOf(TagOf(m)), ValuesOf(m));
    }
  }

  /** Every chunk a sender may emit fits a frame. */
  lemma ChunkFitsFrame(m: Message)
    requires m.FileChunk? && |m.data| <= FileTransfer.MAX_CHUNK_SIZE
    ensures FitsFrame(m)
  {
    EncodeParts(m);
    var vs := BulkValues(m);
    PrintFirst(U32, Then(U32, Then(Bytes, Done)), vs);
    PrintFirst(U32, Then(Bytes, Done), vs.tail);
    PrintFirst(Bytes, Done, vs.tail.tail);
  }

  /** A clipboard text is the one thing the server builds that can be too long for a frame. */
  lemma ClipboardFits(m: Message)
    requires m.ClipboardData?
    ensures |Encode(m)| == 14 + |m.data|
    ensures FitsFrame(m) <==> |m.data| <= MAX_CLIPBOARD_LEN
  {
    EncodeParts(m);
    var vs := BulkValues(m);
    PrintFirst(I8, Then(U32, Then(I8, Then(Bytes, Done))), vs);
    PrintFirst(U32, Then(I8, Then(Bytes, Done)), vs.tail);
    PrintFirst(I8, Then(Bytes, Done), vs.tail.tail);
    PrintFirst(Bytes, Done, vs.tail.tail.tail);
  }

  // --- The theorems -----------------------------------------------------------------------------

  lemma DecodedWhole(m: Message)
    requires FitsFrame(m)
    ensures DECODE(Encode(m)) == Ok(m)
  {
    FrameWithinCaps(m);
    RoundTrip(m);
  }

  lemma OpenedWhole(m: Message)
    requires FitsFrame(m)
    ensures Opened(DECODE, Encode(m)) == Ok(m)
  {
    DecodedWhole(m);
  }

  /** A message sent is what is received next, with nothing after it touched, exactly if it fits a frame. */
  lemma SendReceive(m: Message, rest: seq<byte>, end: StreamEnd)
    ensures Receive(DECODE, Frame(Encode(m)) + rest, end) == Received(Ok(m), rest) <==> FitsFrame(m)
  {
    if FitsFrame(m) {
      OpenedWhole(m);
      ReceiveFrame(DECODE, Encode(m), rest, end);
    } else {
      ReceiveOversized(DECODE, Encode(m), rest, end);
    }
  }

  /** It does happen: a clipboard text of four mebibytes is written to the wire and refused at the other end. */
  lemma LongTextRefused(clipSeq: u32, rest: seq<byte>, end: StreamEnd) returns (m: Message)
    ensures m.ClipboardData? && m.clip == 0 && m.clipSeq == clipSeq && m.mark == 0 && |m.data| == MAX_FRAME_LEN
    ensures Receive(DECODE, Frame(Encode(m)) + rest, end).outcome == Err(FrameTooLarge(MAX_FRAME_LEN + 14))
  {
    m := ClipboardData(0, clipSeq, 0, seq(MAX_FRAME_LEN, _ => 0));
    ClipboardFits(m);
    ReceiveOversized(DECODE, Encode(m), rest, end);
  }

  function Encodings(ms: seq<Message>): seq<seq<byte>> {
    Payloads(ENCODE, ms)
  }

  lemma EncodingsCarry(ms: seq<Message>)
    requires forall m <- ms :: FitsFrame(m)
    ensures Carry(DECODE, Encodings(ms), ms)
  {
    forall i | 0 <= i < |ms| ensures DECODE(Encodings(ms)[i]) == Ok(ms[i]) && |Encodings(ms)[i]| <= MAX_FRAME_LEN {
      DecodedWhole(ms[i]);
    }
  }

  /**
   Cut a stream of messages that fit anywhere: just the messages whose frames are complete are received, in
   order, and then the end of the stream.
   */
  lemma CutStream(ms: seq<Message>, k: nat, n: nat, end: StreamEnd)
    requires forall m <- ms :: FitsFrame(m)
    requires k <= |Stream(Encodings(ms))| && n <= |ms|
    ensures var got := ReceiveAll(DECODE, Stream(Encodings(ms))[..k], end);
      && got.end == Ended(end)
      && got.messages <= ms
      && (n <= |got.messages| <==> |Stream(Encodings(ms[..n]))| <= k)
  {
    EncodingsCarry(ms);
    ReceiveCutStream(DECODE, Encodings(ms), ms, k, end);
    CompleteMeans(Encodings(ms), k, n);
    assert Encodings(ms)[..n] == Encodings(ms[..n]);
  }

  /** Messages that fit are received whatever follows them on the stream. */
  lemma WholeStream(ms: seq<Message>, rest: seq<byte>, end: StreamEnd)
    requires forall m <- ms :: FitsFrame(m)
    ensures ReceiveAll(DECODE, Stream(Encodings(ms)) + rest, end) == After(ms, ReceiveAll(DECODE, rest, end))
  {
    EncodingsCarry(ms);
    ReceiveStream(DECODE, Encodings(ms), ms, rest, end);
  }
}
