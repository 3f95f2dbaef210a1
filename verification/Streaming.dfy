/** Sending a file in chunks as it is read, and receiving one as it arrives. */
module Streaming {
  import opened Arithmetic
  import opened Wrappers
  import opened MachineInts
  import opened Messages
  import opened Framing
  import opened Transport
  import opened FileErrors
  import opened FileTransfer

  // --- Reading ----------------------------------------------------------------------------------

  /** An open file, or anything else that yields bytes a few at a time. */
  class Source {
    /** The bytes still to come. */
    var data: seq<byte>
    /** Whether reading on behind them fails, or just finds the end. */
    const faulty: bool

    constructor (data: seq<byte>, faulty: bool)
      ensures this.data == data && this.faulty == faulty
    {
      this.data := data;
      this.faulty := faulty;
    }

    /** Some of the next bytes, at most `max`; none only at the end. */
    method Read(max: nat) returns (bytes: Option<seq<byte>>)
      requires max >= 1
      modifies this
      ensures bytes.None? <==> old(data) == [] && faulty
      ensures bytes.None? ==> data == []
      ensures bytes.Some? ==> |bytes.value| <= max && bytes.value + data == old(data)
      ensures bytes == Some([]) <==> old(data) == [] && !faulty
    {
      if data == [] {
        return if faulty then None else Some([]);
      }
      var n :| 1 <= n <= max && n <= |data|;
      bytes := Some(data[..n]);
      data := data[n..];
    }
  }

  /** However short the reads fall, the buffer is filled unless the source ends or fails first. */
  method Fill(source: Source, buf: array<byte>) returns (filled: Option<nat>)
    modifies source, buf
    ensures filled.None? <==> source.faulty && |old(source.data)| < buf.Length
    ensures filled.Some? ==> filled.value == Min(|old(source.data)|, buf.Length)
    ensures filled.Some? ==> buf[..filled.value] == old(source.data)[..filled.value]
    ensures filled.Some? ==> source.data == old(source.data)[filled.value..]
  {
    var n := 0;
    ghost var all := source.data;
    while n < buf.Length
      invariant n <= |all| && n <= buf.Length
      invariant buf[..n] == all[..n] && source.data == all[n..]
    {
      var bytes := source.Read(buf.Length - n);
      if bytes.None? {
        return None;
      }
      if bytes.value == [] {
        break;
      }
      ghost var head := buf[..n];
      forall i | 0 <= i < |bytes.value| {
        buf[n + i] := bytes.value[i];
      }
      assert buf[..n] == head;
      assert buf[..n + |bytes.value|] == head + bytes.value;
      FillStep(all, n, bytes.value, source.data);
      n := n + |bytes.value|;
    }
    return Some(n);
  }

  lemma FillStep(all: seq<byte>, filled: nat, bytes: seq<byte>, rest: seq<byte>)
    requires filled <= |all| && bytes + rest == all[filled..]
    ensures var end := filled + |bytes|; end <= |all| && all[..filled] + bytes == all[..end] && rest == all[end..]
  {
    assert all == all[..filled] + (bytes + rest);
    assert all == (all[..filled] + bytes) + rest;
  }

  // --- What a send amounts to -------------------------------------------------------------------

  datatype SendError =
    | Declined
    | UnexpectedReply(m: Message)
    | NoReply(lost: NetError)
    | WriteFailed
    | ReadFailed
    | SeqExhausted
    | SizeChanged(declared: int, read: int)

  function ClampChunkSize(n: nat): nat {
    if n < 1 then 1 else if n > MAX_CHUNK_SIZE then MAX_CHUNK_SIZE else n
  }

  /** The bytes that get as far as a chunk: all, unless reading fails, when a chunk begun before the failure is lost. */
  function Whole(data: seq<byte>, size: nat, faulty: bool): (whole: seq<byte>)
    requires size >= 1
    ensures whole <= data
  {
    if !faulty then data
    else
      FullBlocks(|data|, size);
      data[..|data| / size * size]
  }

  lemma FullBlocks(n: nat, size: nat)
    requires size >= 1
    ensures 0 <= n / size * size <= n < n / size * size + size
  {
    assert n == n / size * size + n % size;
    if n / size < 0 {
      ProductMonotone(n / size, -1, size);
    } else {
      ProductMonotone(0, n / size, size);
    }
  }

  datatype Sending = Sending(messages: seq<Message>, outcome: Result<(), SendError>)

  /** What is sent behind the offer once it is accepted, and how sending ends, as long as writing succeeds. */
  function SendContents(id: u32, size: u64, data: seq<byte>, faulty: bool, chunkSize: nat): Sending {
    var blocks := Blocks(Whole(data, ClampChunkSize(chunkSize), faulty), ClampChunkSize(chunkSize));
    if |blocks| >= 0x1_0000_0000 then Sending(Chunks(id, 0, blocks[..0x1_0000_0000]), Err(SeqExhausted))
    else if faulty then Sending(Chunks(id, 0, blocks), Err(ReadFailed))
    else if |data| != size then Sending(Chunks(id, 0, blocks), Err(SizeChanged(size, |data|)))
    else Sending(Contents(id, blocks), Ok(()))
  }

  /** The whole of a send: the offer, and what the receiver's reply leads to. */
  function SendAll(id: u32, name: string, size: u64, data: seq<byte>, faulty: bool, chunkSize: nat,
                   reply: Result<Message, NetError>): Sending
  {
    var offer := [FileOffer(id, name, size)];
    match reply
    case Err(e) => Sending(offer, Err(NoReply(e)))
    case Ok(FileAccept(_, accept)) =>
      if accept then
        var sending := SendContents(id, size, data, faulty, chunkSize);
        Sending(offer + sending.messages, sending.outcome)
      else Sending(offer, Err(Declined))
    case Ok(m) => Sending(offer, Err(UnexpectedReply(m)))
  }

  /** What a writer holds that had written `base` and then wrote `ms`. */
  function Writing(base: seq<byte>, ms: seq<Message>): seq<byte> {
    base + Stream(Payloads(ENCODE, ms))
  }

  /** These bytes are all that could be written of it, and `ok` tells whether that is all of it. */
  predicate Wrote(bytes: seq<byte>, ok: bool, base: seq<byte>, ms: seq<Message>, capacity: nat) {
    bytes == Truncated(Writing(base, ms), capacity) && (ok <==> |Writing(base, ms)| <= capacity)
  }

  lemma WroteNothing(base: seq<byte>, capacity: nat)
    requires |base| <= capacity
    ensures Wrote(base, true, base, [], capacity)
  {
    assert Payloads(ENCODE, []) == [];
  }

  lemma WroteOneMore(bytes: seq<byte>, base: seq<byte>, ms: seq<Message>, m: Message, capacity: nat)
    requires Wrote(bytes, true, base, ms, capacity)
    ensures Writing(base, ms + [m]) == bytes + Frame(ENCODE(m))
  {
    ExtendsOneMore(ENCODE, bytes, base, ms, m);
  }

  /** Once writing has failed, what would have followed makes no difference. */
  lemma WroteNoMore(bytes: seq<byte>, base: seq<byte>, ms: seq<Message>, all: seq<Message>, capacity: nat)
    requires Wrote(bytes, false, base, ms, capacity) && ms <= all
    ensures Wrote(bytes, false, base, all, capacity)
  {
    assert Payloads(ENCODE, ms) <= Payloads(ENCODE, all);
    StreamPrefix(Payloads(ENCODE, ms), Payloads(ENCODE, all));
    assert Writing(base, ms) <= Writing(base, all);
  }

  method SendNext(writer: FramedWriter, m: Message, ghost base: seq<byte>, ghost ms: seq<Message>) returns (ok: bool)
    requires Wrote(writer.inner, true, base, ms, writer.capacity)
    modifies writer
    ensures Wrote(writer.inner, ok, base, ms + [m], writer.capacity)
  {
    WroteOneMore(writer.inner, base, ms, m, writer.capacity);
    ok := writer.Send(m);
  }

  // --- Sending ----------------------------------------------------------------------------------

  /** So far the chunks of `done` have been sent behind `front`, and `rest` of `whole` is still to be read. */
  predicate Progress(bytes: seq<byte>, rest: seq<byte>, base: seq<byte>, front: seq<Message>, capacity: nat,
                     id: u32, whole: seq<byte>, size: nat, done: seq<seq<byte>>)
    requires size >= 1
  {
    && Planned(id, whole, size, done, rest, Chunks(id, 0, done))
    && Wrote(bytes, true, base, front + Chunks(id, 0, done), capacity)
  }

  lemma ChunksGrow(front: seq<Message>, id: u32, blocks: seq<seq<byte>>, block: seq<byte>)
    requires |blocks| < 0x1_0000_0000
    ensures front + Chunks(id, 0, blocks) + [FileChunk(id, |blocks|, block)] == front + Chunks(id, 0, blocks + [block])
  {
    OneMoreChunk(id, blocks, block);
  }

  lemma ProgressPlan(rest: seq<byte>, id: u32, whole: seq<byte>, size: nat, done: seq<seq<byte>>, n: nat)
    requires size >= 1 && rest != [] && n == Min(|rest|, size)
    requires Planned(id, whole, size, done, rest, Chunks(id, 0, done))
    ensures Planned(id, whole, size, done + [rest[..n]], rest[n..], Chunks(id, 0, done + [rest[..n]]))
  {
    NextBlock(rest, size);
    BlocksAfter(done, rest[..n], rest[n..], size);
  }

  lemma ProgressStarts(bytes: seq<byte>, base: seq<byte>, front: seq<Message>, capacity: nat,
                       id: u32, whole: seq<byte>, size: nat)
    requires size >= 1 && Wrote(bytes, true, base, front, capacity)
    ensures Progress(bytes, whole, base, front, capacity, id, whole, size, [])
  {
    PlanStart(id, whole, size);
    assert front + Chunks(id, 0, []) == front;
  }

  lemma ProgressEnds(bytes: seq<byte>, base: seq<byte>, front: seq<Message>, capacity: nat,
                     id: u32, whole: seq<byte>, size: nat, done: seq<seq<byte>>)
    requires size >= 1 && Progress(bytes, [], base, front, capacity, id, whole, size, done)
    ensures done == Blocks(whole, size) && Wrote(bytes, true, base, front + Chunks(id, 0, Blocks(whole, size)), capacity)
  {
    PlanDone(id, whole, size, done, Chunks(id, 0, done));
  }

  /** Where the chunks sent so far stand among all. */
  lemma ProgressSoFar(rest: seq<byte>, id: u32, whole: seq<byte>, size: nat, done: seq<seq<byte>>)
    requires size >= 1 && Planned(id, whole, size, done, rest, Chunks(id, 0, done))
    ensures done <= Blocks(whole, size) && Chunks(id, 0, done) == Chunks(id, 0, Blocks(whole, size)[..|done|])
  {
    PlanSoFar(id, whole, size, done, rest, Chunks(id, 0, done));
  }

  /** What a chunk takes from the source it takes from the bytes that get as far as a chunk. */
  lemma WholeAdvances(data: seq<byte>, size: nat, faulty: bool, n: nat)
    requires size >= 1 && n == Min(|data|, size) && n > 0 && (faulty ==> n == size)
    ensures var whole := Whole(data, size, faulty);
      whole != [] && n == Min(|whole|, size) && whole[..n] == data[..n] && whole[n..] == Whole(data[n..], size, faulty)
  {
    if faulty {
      var q := |data| / size;
      FullBlocks(|data|, size);
      Distribute(q, -1, size);
      QuotientUnique(|data| - size, size, q - 1);
      FullBlocks(|data| - size, size);
      if q * size < size {
        SmallMultiple(q, size);
      }
    }
  }

  lemma WholeShort(data: seq<byte>, size: nat)
    requires size > |data|
    ensures Whole(data, size, true) == []
  {
    QuotientUnique(|data|, size, 0);
  }

  datatype Turn = Sent(n: nat) | AtEnd | ReadFault | WriteFault

  /** Reads and sends one more chunk. */
  method SendChunk(writer: FramedWriter, source: Source, buf: array<byte>, id: u32, count: u32,
                   ghost base: seq<byte>, ghost front: seq<Message>, ghost whole: seq<byte>, ghost done: seq<seq<byte>>)
    returns (turn: Turn)
    requires buf.Length >= 1 && count == |done|
    requires Progress(writer.inner, Whole(source.data, buf.Length, source.faulty), base, front, writer.capacity,
                      id, whole, buf.Length, done)
    modifies writer, source, buf
    ensures var data, n := old(source.data), Min(|old(source.data)|, buf.Length);
      match turn
      case Sent(k) => n > 0 && k == n && source.data == data[n..]
        && Progress(writer.inner, Whole(source.data, buf.Length, source.faulty), base, front, writer.capacity,
                    id, whole, buf.Length, done + [data[..n]])
      case AtEnd => data == [] && !source.faulty && writer.inner == old(writer.inner)
      case ReadFault => source.faulty && Whole(data, buf.Length, true) == [] && writer.inner == old(writer.inner)
      case WriteFault =>
        && n > 0 && done + [data[..n]] <= Blocks(whole, buf.Length)
        && Wrote(writer.inner, false, base, front + Chunks(id, 0, done + [data[..n]]), writer.capacity)
  {
    ghost var data := source.data;
    ghost var rest := Whole(data, buf.Length, source.faulty);
    var n := Fill(source, buf);
    if n.None? {
      WholeShort(data, buf.Length);
      return ReadFault;
    }
    if n.value == 0 {
      return AtEnd;
    }
    WholeAdvances(data, buf.Length, source.faulty, n.value);
    ProgressPlan(rest, id, whole, buf.Length, done, n.value);
    ChunksGrow(front, id, done, data[..n.value]);
    var ok := SendNext(writer, FileChunk(id, count, buf[..n.value]), base, front + Chunks(id, 0, done));
    if !ok {
      ProgressSoFar(rest[n.value..], id, whole, buf.Length, done + [data[..n.value]]);
      return WriteFault;
    }
    return Sent(n.value);
  }

  /** What this many chunks can amount to, which 64 bits always hold. */
  predicate Tallies(count: int, sent: int) {
    0 <= sent <= count * MAX_CHUNK_SIZE
  }

  lemma TallyOneMore(count: int, sent: int, n: int)
    requires Tallies(count, sent) && count < 0xFFFF_FFFF && 0 <= n <= MAX_CHUNK_SIZE
    ensures Tallies(count + 1, sent + n) && 0 <= sent + n < 0x1_0000_0000_0000_0000
  {
  }

  /** The blocks that are sent: all, or as many as can be numbered. */
  function Numbered(blocks: seq<seq<byte>>): seq<seq<byte>> {
    if |blocks| >= 0x1_0000_0000 then blocks[..0x1_0000_0000] else blocks
  }

  lemma SomeOfNumbered(front: seq<Message>, id: u32, some: seq<seq<byte>>, blocks: seq<seq<byte>>)
    requires some <= blocks && |some| <= 0x1_0000_0000
    ensures front + Chunks(id, 0, some) <= front + Chunks(id, 0, Numbered(blocks))
  {
  }

  datatype Stop = AllSent | Exhausted | SourceFailed | WriterFailed

  /** How the chunks come to an end, as long as writing succeeds. */
  function StopOf(blocks: seq<seq<byte>>, faulty: bool): Stop {
    if |blocks| >= 0x1_0000_0000 then Exhausted else if faulty then SourceFailed else AllSent
  }

  method SendChunks(writer: FramedWriter, id: u32, source: Source, size: nat, ghost base: seq<byte>, ghost front: seq<Message>)
    returns (count: nat, sent: u64, stop: Stop)
    requires 1 <= size <= MAX_CHUNK_SIZE && Wrote(writer.inner, true, base, front, writer.capacity)
    modifies writer, source
    ensures var blocks := Blocks(Whole(old(source.data), size, source.faulty), size);
      && Wrote(writer.inner, !stop.WriterFailed?, base, front + Chunks(id, 0, Numbered(blocks)), writer.capacity)
      && (!stop.WriterFailed? ==> stop == StopOf(blocks, source.faulty))
      && (stop.AllSent? ==> count == |blocks| && sent == |old(source.data)|)
  {
    var buf := new byte[size];
    count, sent := 0, 0;
    ghost var data := source.data;
    ghost var whole := Whole(data, size, source.faulty);
    ghost var done: seq<seq<byte>> := [];
    ProgressStarts(writer.inner, base, front, writer.capacity, id, whole, size);
    while true
      invariant Progress(writer.inner, Whole(source.data, size, source.faulty), base, front, writer.capacity,
                         id, whole, size, done)
      invariant count == |done| < 0x1_0000_0000
      invariant sent + |source.data| == |data| && Tallies(count, sent)
      decreases |source.data|
    {
      ghost var rest := source.data;
      var turn := SendChunk(writer, source, buf, id, count, base, front, whole, done);
      match turn {
        case AtEnd =>
          ProgressEnds(writer.inner, base, front, writer.capacity, id, whole, size, done);
          return count, sent, AllSent;
        case ReadFault =>
          ProgressEnds(writer.inner, base, front, writer.capacity, id, whole, size, done);
          return count, sent, SourceFailed;
        case WriteFault =>
          ghost var some := done + [rest[..Min(|rest|, size)]];
          SomeOfNumbered(front, id, some, Blocks(whole, size));
          WroteNoMore(writer.inner, base, front + Chunks(id, 0, some), front + Chunks(id, 0, Numbered(Blocks(whole, size))),
                      writer.capacity);
          return count, sent, WriterFailed;
        case Sent(n) =>
          done := done + [rest[..n]];
          if count + 1 > 0xFFFF_FFFF {
            ProgressSoFar(Whole(source.data, size, source.faulty), id, whole, size, done);
            return count, sent, Exhausted;
          }
          TallyOneMore(count, sent, n);
          count := count + 1;
          sent := sent + n;
      }
    }
  }

  lemma ContentsEnd(front: seq<Message>, id: u32, blocks: seq<seq<byte>>)
    requires |blocks| < 0x1_0000_0000
    ensures front + Chunks(id, 0, blocks) + [FileEnd(id, |blocks|)] == front + Contents(id, blocks)
  {
  }

  /** The outcome of a send in which writing may fail. */
  function Outcome(ok: bool, outcome: Result<(), SendError>): Result<(), SendError> {
    if ok then outcome else Err(WriteFailed)
  }

  /**
   For every reply, every schedule of short reads, a source that fails or not, and a writer that fails at any
   byte or not: just the bytes of the specified messages are written, as far as they can be.
   */
  method SendFramed(writer: FramedWriter, reader: FramedReader, id: u32, name: string, size: u64, source: Source, chunkSize: nat)
    returns (r: Result<(), SendError>)
    requires |writer.inner| <= writer.capacity
    modifies writer, reader, source
    ensures var reply := Receive(DECODE, old(reader.inner), reader.end).outcome;
      var sending := SendAll(id, name, size, old(source.data), source.faulty, chunkSize, reply);
      var ok := |Writing(old(writer.inner), sending.messages)| <= writer.capacity;
      Wrote(writer.inner, ok, old(writer.inner), sending.messages, writer.capacity) && r == Outcome(ok, sending.outcome)
  {
    ghost var base := writer.inner;
    ghost var front := [FileOffer(id, name, size)];
    ghost var reply := Receive(DECODE, reader.inner, reader.end).outcome;
    ghost var sending := SendAll(id, name, size, source.data, source.faulty, chunkSize, reply);
    WroteNothing(base, writer.capacity);
    assert [] + front == front;
    var ok := SendNext(writer, FileOffer(id, name, size), base, []);
    if !ok {
      WroteNoMore(writer.inner, base, front, sending.messages, writer.capacity);
      return Err(WriteFailed);
    }
    var got := reader.Recv();
    match got
    case Err(e) => return Err(NoReply(e));
    case Ok(m) =>
      if !m.FileAccept? {
        return Err(UnexpectedReply(m));
      }
      if !m.accept {
        return Err(Declined);
      }
      r := SendAccepted(writer, id, size, source, chunkSize, base, front);
  }

  method SendAccepted(writer: FramedWriter, id: u32, size: u64, source: Source, chunkSize: nat,
                      ghost base: seq<byte>, ghost front: seq<Message>)
    returns (r: Result<(), SendError>)
    requires Wrote(writer.inner, true, base, front, writer.capacity)
    modifies writer, source
    ensures var sending := SendContents(id, size, old(source.data), source.faulty, chunkSize);
      var ok := |Writing(base, front + sending.messages)| <= writer.capacity;
      Wrote(writer.inner, ok, base, front + sending.messages, writer.capacity) && r == Outcome(ok, sending.outcome)
  {
    var cs := ClampChunkSize(chunkSize);
    ghost var blocks := Blocks(Whole(source.data, cs, source.faulty), cs);
    ghost var sending := SendContents(id, size, source.data, source.faulty, chunkSize);
    var count, sent, stop := SendChunks(writer, id, source, cs, base, front);
    match stop
    case WriterFailed =>
      ChunksFirst(front, id, blocks);
      WroteNoMore(writer.inner, base, front + Chunks(id, 0, Numbered(blocks)), front + sending.messages, writer.capacity);
      return Err(WriteFailed);
    case Exhausted => return Err(SeqExhausted);
    case SourceFailed => return Err(ReadFailed);
    case AllSent =>
      if sent != size {
        return Err(SizeChanged(size, sent));
      }
      ContentsEnd(front, id, blocks);
      var ok := SendNext(writer, FileEnd(id, count), base, front + Chunks(id, 0, blocks));
      return if ok then Ok(()) else Err(WriteFailed);
  }

  lemma ChunksFirst(front: seq<Message>, id: u32, blocks: seq<seq<byte>>)
    ensures front + Chunks(id, 0, Numbered(blocks)) <= front + Contents(id, Numbered(blocks))
  {
  }

  function CeilChunks(data: seq<byte>, chunkSize: nat): int {
    CeilDiv(|data|, ClampChunkSize(chunkSize))
  }

  /**
   Streaming is planning: an accepted send succeeds exactly if the file can be read, is as long as declared and
   needs fewer than 2^32 chunks; then it is the plan for its bytes and the clamped chunk size, and otherwise no
   end is sent.
   */
  lemma StreamsThePlan(id: u32, name: string, size: u64, data: seq<byte>, faulty: bool, chunkSize: nat, reply: Message)
    requires reply.FileAccept? && reply.accept
    ensures var sending := SendAll(id, name, size, data, faulty, chunkSize, Ok(reply));
      && (sending.outcome.Ok? <==> !faulty && |data| == size && CeilChunks(data, chunkSize) < 0x1_0000_0000)
      && (sending.outcome.Ok? ==> sending.messages == Plan(id, name, data, ClampChunkSize(chunkSize)))
      && (sending.outcome.Err? ==> forall m <- sending.messages :: !m.FileEnd?)
  {
    BlocksCount(data, ClampChunkSize(chunkSize));
  }

  predicate TakenUp(reply: Result<Message, NetError>) {
    reply.Ok? && reply.value.FileAccept? && reply.value.accept
  }

  predicate TurnedDown(reply: Result<Message, NetError>) {
    reply.Ok? && reply.value.FileAccept? && !reply.value.accept
  }

  /** Nothing of the file is sent unless the receiver has agreed, and what is reported otherwise is what came of asking. */
  lemma SentOnlyIfAgreed(id: u32, name: string, size: u64, data: seq<byte>, faulty: bool, chunkSize: nat,
                         reply: Result<Message, NetError>)
    ensures var sending := SendAll(id, name, size, data, faulty, chunkSize, reply);
      && sending.messages != [] && sending.messages[0] == FileOffer(id, name, size)
      && ((exists m <- sending.messages :: m.FileChunk? || m.FileEnd?) ==> TakenUp(reply))
      && (sending.outcome.Ok? ==> TakenUp(reply))
      && (!TakenUp(reply) ==> |sending.messages| == 1)
      && (sending.outcome == Err(Declined) <==> TurnedDown(reply))
      && (sending.outcome.Err? && sending.outcome.error.NoReply? <==> reply.Err?)
      && (sending.outcome.Err? && sending.outcome.error.UnexpectedReply? <==> reply.Ok? && !reply.value.FileAccept?)
  {
  }

  /** A send that fails once it is under way says truly why; and it is only said to have succeeded if all has been written. */
  lemma {:induction false} SendFailsTruly(id: u32, name: string, size: u64, data: seq<byte>, faulty: bool, chunkSize: nat,
                                          reply: Result<Message, NetError>, ok: bool)
    ensures var sending := SendAll(id, name, size, data, faulty, chunkSize, reply);
      && (Outcome(ok, sending.outcome).Ok? <==> ok && sending.outcome.Ok?)
      && (!ok ==> Outcome(ok, sending.outcome) == Err(WriteFailed))
      && (ok ==> match Outcome(ok, sending.outcome)
                 case Ok(_) => TakenUp(reply) && !faulty && |data| == size
                 case Err(Declined) => TurnedDown(reply)
                 case Err(NoReply(e)) => reply == Err(e)
                 case Err(UnexpectedReply(m)) => reply == Ok(m) && !m.FileAccept?
                 case Err(WriteFailed) => false
                 case Err(ReadFailed) => faulty
                 case Err(SeqExhausted) => CeilChunks(data, chunkSize) >= 0x1_0000_0000
                 case Err(SizeChanged(declared, read)) => !faulty && declared == size != |data| == read)
  {
    if TakenUp(reply) {
      ExhaustedTruly(data, faulty, ClampChunkSize(chunkSize));
    }
  }

  lemma ExhaustedTruly(data: seq<byte>, faulty: bool, size: nat)
    requires 1 <= size
    ensures |Blocks(Whole(data, size, faulty), size)| <= CeilDiv(|data|, size)
  {
    var whole := Whole(data, size, faulty);
    BlocksCount(whole, size);
    QuotientMonotone(|whole| + size - 1, |data| + size - 1, size);
  }

  /** The size asked for, but between one byte and what fits a frame. */
  function Granted(chunkSize: nat): nat {
    if chunkSize == 0 then 1 else if chunkSize <= 4193280 then chunkSize else 4193280
  }

  lemma ChunkOfBlock(id: u32, size: u64, data: seq<byte>, faulty: bool, chunkSize: nat, j: nat)
    requires var ms := SendContents(id, size, data, faulty, chunkSize).messages; j < |ms| && ms[j].FileChunk?
    ensures var ms := SendContents(id, size, data, faulty, chunkSize).messages;
      var blocks := Blocks(Whole(data, ClampChunkSize(chunkSize), faulty), ClampChunkSize(chunkSize));
      j < |blocks| && ms[j] == FileChunk(id, j % 0x1_0000_0000, blocks[j]) && j < 0x1_0000_0000
  {
  }

  lemma BlockGranted(whole: seq<byte>, chunkSize: nat, j: nat)
    requires j < |Blocks(whole, ClampChunkSize(chunkSize))|
    ensures var blocks := Blocks(whole, ClampChunkSize(chunkSize));
      1 <= |blocks[j]| <= Granted(chunkSize) && (j + 1 < |blocks| ==> |blocks[j]| == Granted(chunkSize))
  {
    BlocksPartition(whole, ClampChunkSize(chunkSize));
  }

  lemma ContentsGranted(id: u32, size: u64, data: seq<byte>, faulty: bool, chunkSize: nat, j: nat)
    requires var ms := SendContents(id, size, data, faulty, chunkSize).messages; j < |ms| && ms[j].FileChunk?
    ensures var ms := SendContents(id, size, data, faulty, chunkSize).messages;
      && ms[j].id == id && ms[j].chunkSeq == j && 1 <= |ms[j].data| <= Granted(chunkSize)
      && (j + 1 < |ms| && ms[j + 1].FileChunk? ==> |ms[j].data| == Granted(chunkSize))
  {
    var ms := SendContents(id, size, data, faulty, chunkSize).messages;
    var whole := Whole(data, ClampChunkSize(chunkSize), faulty);
    ChunkOfBlock(id, size, data, faulty, chunkSize, j);
    BlockGranted(whole, chunkSize, j);
    if j + 1 < |ms| && ms[j + 1].FileChunk? {
      ChunkOfBlock(id, size, data, faulty, chunkSize, j + 1);
    }
  }

  lemma BehindOffer(id: u32, name: string, size: u64, data: seq<byte>, faulty: bool, chunkSize: nat,
                    reply: Result<Message, NetError>)
    ensures var ms := SendAll(id, name, size, data, faulty, chunkSize, reply).messages;
      |ms| > 1 ==> ms == [FileOffer(id, name, size)] + SendContents(id, size, data, faulty, chunkSize).messages
  {
  }

  /** Of the chunks sent each is of the size granted, but for the last, which is not empty. */
  lemma ChunksGranted(id: u32, name: string, size: u64, data: seq<byte>, faulty: bool, chunkSize: nat,
                      reply: Result<Message, NetError>, i: nat)
    requires var ms := SendAll(id, name, size, data, faulty, chunkSize, reply).messages; i < |ms| && ms[i].FileChunk?
    ensures var ms := SendAll(id, name, size, data, faulty, chunkSize, reply).messages;
      && i > 0 && ms[i].id == id && ms[i].chunkSeq == i - 1 && 1 <= |ms[i].data| <= Granted(chunkSize)
      && (i + 1 < |ms| && ms[i + 1].FileChunk? ==> |ms[i].data| == Granted(chunkSize))
  {
    SentOnlyIfAgreed(id, name, size, data, faulty, chunkSize, reply);
    BehindOffer(id, name, size, data, faulty, chunkSize, reply);
    ContentsGranted(id, size, data, faulty, chunkSize, i - 1);
  }

  // --- Receiving --------------------------------------------------------------------------------

  /** A file accepted bytes are written to, through a buffer. */
  class Sink {
    /** What has been handed over to be written. */
    var data: seq<byte>
    /** How many bytes the file can hold. */
    const capacity: nat

    constructor (capacity: nat)
      ensures data == [] && this.capacity == capacity
    {
      data := [];
      this.capacity := capacity;
    }

    /** Too many bytes may be noticed at once, or not while they are still in the buffer. */
    method WriteAll(bytes: seq<byte>) returns (ok: bool)
      modifies this
      ensures data == old(data) + bytes && (|data| <= capacity ==> ok)
    {
      data := data + bytes;
      ok := true;
      if |data| > capacity {
        ok := *;
      }
    }

    method Flush() returns (ok: bool)
      ensures ok <==> |data| <= capacity
    {
      ok := |data| <= capacity;
    }
  }

  datatype ReceiveError = Lost(lost: NetError) | Refused(error: FileError) | Misplaced(m: Message) | NotWritten

  function Ending(verdict: Verdict, end: NetError): Result<(), ReceiveError> {
    match verdict
    case Finished => Ok(())
    case Rejected(e) => Err(Refused(e))
    case Unexpected(m) => Err(Misplaced(m))
    case Cut => Err(Lost(end))
  }

  lemma ReceiveNext(s: seq<byte>, end: StreamEnd)
    ensures var got, rest := Receive(DECODE, s, end), ReceiveAll(DECODE, s, end);
      match got.outcome
      case Err(e) => rest == Session([], e)
      case Ok(m) =>
        && |got.rest| < |s|
        && rest.messages != [] && rest.messages[0] == m
        && ReceiveAll(DECODE, got.rest, end) == Session(rest.messages[1..], rest.end)
  {
    if Receive(DECODE, s, end).outcome.Ok? {
      ReceiveShrinks(DECODE, s, end);
    }
  }

  /** One more message of the body, read off the stream. */
  lemma {:induction false} BodyNext(a: Account, written: seq<byte>, s: seq<byte>, end: StreamEnd)
    requires Receive(DECODE, s, end).outcome.Ok?
    ensures var got, session := Receive(DECODE, s, end), ReceiveAll(DECODE, s, end);
      var rest := ReceiveAll(DECODE, got.rest, end);
      && |got.rest| < |s| && session.end == rest.end
      && RunBody(a, written, session.messages) ==
         match TakeMessage(a, got.outcome.value)
         case More(b, bytes) => RunBody(b, written + bytes, rest.messages)
         case Ended(verdict) => Body(written, verdict)
  {
    ReceiveNext(s, end);
  }

  datatype Handled = Goes | Ends(verdict: Verdict) | Fails

  /** Handles one message of the body. */
  method TakeOne(m: Message, re: FileReassembler, sink: Sink) returns (handled: Handled)
    requires Sound(re.State())
    modifies re, sink
    ensures Sound(re.State())
    ensures match TakeMessage(old(re.State()), m)
            case More(a, bytes) =>
              && re.State() == a && sink.data == old(sink.data) + bytes
              && (handled == Goes || (handled == Fails && |sink.data| > sink.capacity))
            case Ended(v) =>
              && re.State() == old(re.State()) && sink.data == old(sink.data)
              && handled == if v.Finished? && |sink.data| > sink.capacity then Fails else Ends(v)
  {
    match m
    case FileChunk(id, next, data) =>
      var bytes := re.AcceptChunk(id, next, data);
      if bytes.Err? {
        return Ends(Rejected(bytes.error));
      }
      var ok := sink.WriteAll(bytes.value);
      return if ok then Goes else Fails;
    case FileEnd(id, count) =>
      var done := re.Finish(id, count);
      if done.Err? {
        return Ends(Rejected(done.error));
      }
      var ok := sink.Flush();
      return if ok then Ends(Verdict.Finished) else Fails;
    case _ =>
      return Ends(Unexpected(m));
  }

  predicate NoRoom(body: Body, end: NetError, r: Result<(), ReceiveError>) {
    r == Err(NotWritten) || (!body.verdict.Finished? && r == Ending(body.verdict, end))
  }

  /**
   What is written and how receiving ends are what the messages on the stream lead to, if the file can hold it. If it
   cannot, that is an error: of writing, or, when it is still in the buffer by then, the one the messages lead to.
   */
  method RecvBody(reader: FramedReader, re: FileReassembler, sink: Sink) returns (r: Result<(), ReceiveError>)
    requires Sound(re.State())
    modifies reader, re, sink
    ensures var session := ReceiveAll(DECODE, old(reader.inner), reader.end);
      var body := RunBody(old(re.State()), old(sink.data), session.messages);
      if |body.written| <= sink.capacity then sink.data == body.written && r == Ending(body.verdict, session.end)
      else NoRoom(body, session.end, r)
  {
    ghost var session := ReceiveAll(DECODE, reader.inner, reader.end);
    ghost var body := RunBody(re.State(), sink.data, session.messages);
    while true
      invariant Sound(re.State())
      invariant ReceiveAll(DECODE, reader.inner, reader.end).end == session.end
      invariant body == RunBody(re.State(), sink.data, ReceiveAll(DECODE, reader.inner, reader.end).messages)
      decreases |reader.inner|
    {
      ghost var before := reader.inner;
      var got := reader.Recv();
      if got.Err? {
        return Err(Lost(got.error));
      }
      BodyNext(re.State(), sink.data, before, reader.end);
      var handled := TakeOne(got.value, re, sink);
      match handled {
        case Ends(Finished) => return Ok(());
        case Ends(Rejected(e)) => return Err(Refused(e));
        case Ends(Unexpected(m)) => return Err(Misplaced(m));
        case Fails =>
          WrittenGrows(re.State(), sink.data, ReceiveAll(DECODE, reader.inner, reader.end).messages);
          return Err(NotWritten);
        case _ =>
      }
    }
  }
}
