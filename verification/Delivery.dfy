/** A transfer from one end to the other: the file cut, framed, carried, read back and checked. */
module Delivery {
  import opened Arithmetic
  import opened MachineInts
  import opened Messages
  import opened WireFormat
  import opened Codec
  import opened CodecTheorems
  import opened Framing
  import opened Transport
  import opened FileTransfer
  import opened Streaming

  lemma EndFitsFrame(m: Message)
    requires m.FileEnd?
    ensures FitsFrame(m)
  {
    EncodeParts(m);
    PrintFirst(U32, Then(U32, Done), BulkValues(m));
    PrintFirst(U32, Done, BulkValues(m).tail);
  }

  lemma ContentsFit(id: u32, blocks: seq<seq<byte>>)
    requires WellCut(blocks)
    ensures forall m <- Contents(id, blocks) :: FitsFrame(m)
  {
    forall m | m in Contents(id, blocks) ensures FitsFrame(m) {
      if m.FileChunk? {
        assert m.data in blocks;
        ChunkFitsFrame(m);
      } else {
        EndFitsFrame(m);
      }
    }
  }

  /** More messages never take back what has been written. */
  lemma {:induction false} RunPrefix(a: Account, written: seq<byte>, front: seq<Message>, ms: seq<Message>)
    requires front <= ms
    ensures written <= RunBody(a, written, front).written <= RunBody(a, written, ms).written
    decreases |ms|
  {
    if ms != [] {
      match TakeMessage(a, ms[0])
      case More(b, bytes) =>
        RunPrefix(b, written + bytes, if front == [] then [] else front[1..], ms[1..]);
      case Ended(_) =>
    }
  }

  lemma PlanFits(id: u32, name: string, data: seq<byte>, size: nat)
    requires |data| < 0x1_0000_0000_0000_0000 && 1 <= size <= MAX_CHUNK_SIZE
    requires FitsFrame(FileOffer(id, name, |data|))
    ensures forall m <- Plan(id, name, data, size) :: FitsFrame(m)
  {
    BlocksPartition(data, size);
    PartitionWellCut(Blocks(data, size), size);
    ContentsFit(id, Blocks(data, size));
  }

  /** What arrives of a stream of messages that fit, cut after its first frame or later. */
  lemma ArrivesAfterFirst(ms: seq<Message>, k: nat, end: StreamEnd)
    requires ms != [] && forall m <- ms :: FitsFrame(m)
    requires |Stream(Encodings(ms[..1]))| <= k <= |Stream(Encodings(ms))|
    ensures var got := ReceiveAll(DECODE, Stream(Encodings(ms))[..k], end).messages;
      got != [] && got[0] == ms[0] && got <= ms && (|got| == |ms| <==> k == |Stream(Encodings(ms))|)
  {
    CutStream(ms, k, 1, end);
    CutStream(ms, k, |ms|, end);
    assert ms[..|ms|] == ms;
  }

  /**
   A transfer cut at any byte behind the offer, whether by the end of the stream, an error or a stall: it is
   received to the end exactly if nothing is missing, then as the file's bytes; and whatever was written before
   is a beginning of them.
   */
  lemma DeliveredOrCut(id: u32, name: string, data: seq<byte>, chunkSize: nat, limit: u64, a: Account, k: nat,
                       end: StreamEnd)
    requires Opens(id, name, data, limit, a) && CeilChunks(data, chunkSize) < 0x1_0000_0000
    requires var plan := Plan(id, name, data, ClampChunkSize(chunkSize));
      FitsFrame(plan[0]) && |Stream(Encodings(plan[..1]))| <= k <= |Stream(Encodings(plan))|
    ensures var plan := Plan(id, name, data, ClampChunkSize(chunkSize));
      var got := ReceiveAll(DECODE, Stream(Encodings(plan))[..k], end).messages;
      && got != [] && got[0] == FileOffer(id, name, |data|)
      && var body := RunBody(a, [], got[1..]);
      && (body.verdict.Finished? <==> k == |Stream(Encodings(plan))|)
      && (body.verdict.Finished? ==> body.written == data)
      && body.written <= data
  {
    var size := ClampChunkSize(chunkSize);
    var plan := Plan(id, name, data, size);
    PlanFits(id, name, data, size);
    ArrivesAfterFirst(plan, k, end);
    var got := ReceiveAll(DECODE, Stream(Encodings(plan))[..k], end).messages;
    CutTransfer(id, name, data, size, limit, a, got);
  }

  lemma CutTransfer(id: u32, name: string, data: seq<byte>, size: nat, limit: u64, a: Account, got: seq<Message>)
    requires Opens(id, name, data, limit, a) && 1 <= size <= MAX_CHUNK_SIZE
    requires CeilDiv(|data|, size) < 0x1_0000_0000
    requires got != [] && got <= Plan(id, name, data, size)
    ensures var body := RunBody(a, [], got[1..]);
      && (body.verdict.Finished? <==> |got| == |Plan(id, name, data, size)|)
      && (body.verdict.Finished? ==> body.written == data)
      && body.written <= data
  {
    var plan := Plan(id, name, data, size);
    PrefixElements(got[1..], plan[1..], plan);
    Shuffled(id, name, data, size, limit, a, got[1..]);
    RunPrefix(a, [], got[1..], plan[1..]);
    PlanDelivered(id, name, data, size, limit, a);
  }
}
