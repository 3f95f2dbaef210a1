/** Cutting a file into messages, and the validator that puts it together again. */
module FileTransfer {
  import opened Arithmetic
  import opened Wrappers
  import opened MachineInts
  import opened Messages
  import opened FileErrors
  import FileNames

  const MAX_CHUNK_SIZE := 4 * 1024 * 1024 - 1024

  // --- Cutting ----------------------------------------------------------------------------------

  function AtLeastOne(n: nat): nat {
    if n < 1 then 1 else n
  }

  function ChunkCount(size: u64, chunkSize: nat): u32 {
    CeilDiv(size, AtLeastOne(chunkSize)) % 0x1_0000_0000
  }

  function Blocks(data: seq<byte>, size: nat): seq<seq<byte>>
    requires size >= 1
    decreases |data|
  {
    if data == [] then []
    else if |data| <= size then [data]
    else [data[..size]] + Blocks(data[size..], size)
  }

  /** The chunk messages of these blocks, numbered from `first`. */
  function Chunks(id: u32, first: nat, blocks: seq<seq<byte>>): (ms: seq<Message>)
    ensures |ms| == |blocks|
    ensures forall i :: 0 <= i < |ms| ==> ms[i] == FileChunk(id, (first + i) % 0x1_0000_0000, blocks[i])
  {
    seq(|blocks|, i requires 0 <= i < |blocks| => FileChunk(id, (first + i) % 0x1_0000_0000, blocks[i]))
  }

  /** The chunks of a file and its end. */
  function Contents(id: u32, blocks: seq<seq<byte>>): seq<Message> {
    Chunks(id, 0, blocks) + [FileEnd(id, |blocks| % 0x1_0000_0000)]
  }

  function Plan(id: u32, name: string, data: seq<byte>, chunkSize: nat): seq<Message>
    requires |data| < 0x1_0000_0000_0000_0000
  {
    [FileOffer(id, name, |data|)] + Contents(id, Blocks(data, AtLeastOne(chunkSize)))
  }

  lemma OneMoreChunk(id: u32, blocks: seq<seq<byte>>, block: seq<byte>)
    ensures Chunks(id, 0, blocks + [block]) == Chunks(id, 0, blocks) + [FileChunk(id, |blocks| % 0x1_0000_0000, block)]
  {
  }

  lemma NextBlock(data: seq<byte>, size: nat)
    requires size >= 1 && data != []
    ensures var k := if |data| < size then |data| else size;
      Blocks(data, size) == [data[..k]] + Blocks(data[k..], size)
  {
    if |data| <= size {
      assert data[..|data|] == data && data[|data|..] == [];
    }
  }

  lemma BlocksAfter(front: seq<seq<byte>>, block: seq<byte>, data: seq<byte>, size: nat)
    requires size >= 1
    ensures front + ([block] + Blocks(data, size)) == front + [block] + Blocks(data, size)
  {
  }

  /** How far planning has come: the blocks done and the data left, and the messages for the former. */
  predicate Planned(id: u32, data: seq<byte>, size: nat, done: seq<seq<byte>>, rest: seq<byte>, chunks: seq<Message>)
    requires size >= 1
  {
    Blocks(data, size) == done + Blocks(rest, size) && chunks == Chunks(id, 0, done)
  }

  lemma PlanStart(id: u32, data: seq<byte>, size: nat)
    requires size >= 1
    ensures Planned(id, data, size, [], data, [])
  {
    assert [] + Blocks(data, size) == Blocks(data, size);
  }

  lemma PlanSoFar(id: u32, data: seq<byte>, size: nat, done: seq<seq<byte>>, rest: seq<byte>, chunks: seq<Message>)
    requires size >= 1 && Planned(id, data, size, done, rest, chunks)
    ensures done <= Blocks(data, size) && chunks == Chunks(id, 0, Blocks(data, size)[..|done|])
  {
    assert Blocks(data, size)[..|done|] == done;
  }

  lemma PlanDone(id: u32, data: seq<byte>, size: nat, done: seq<seq<byte>>, chunks: seq<Message>)
    requires size >= 1 && Planned(id, data, size, done, [], chunks)
    ensures done == Blocks(data, size) && chunks == Chunks(id, 0, done)
  {
    assert done + [] == done;
  }

  lemma PlanStep(id: u32, data: seq<byte>, size: nat, done: seq<seq<byte>>, rest: seq<byte>, chunks: seq<Message>, k: nat)
    requires size >= 1 && Planned(id, data, size, done, rest, chunks) && rest != []
    requires k == if |rest| < size then |rest| else size
    ensures Planned(id, data, size, done + [rest[..k]], rest[k..],
                    chunks + [FileChunk(id, |done| % 0x1_0000_0000, rest[..k])])
  {
    NextBlock(rest, size);
    BlocksAfter(done, rest[..k], rest[k..], size);
    OneMoreChunk(id, done, rest[..k]);
  }

  method PlanChunks(id: u32, data: seq<byte>, size: nat) returns (chunks: seq<Message>, count: u32)
    requires size >= 1
    ensures chunks == Chunks(id, 0, Blocks(data, size)) && count == |Blocks(data, size)| % 0x1_0000_0000
  {
    chunks, count := [], 0;
    var rest := data;
    ghost var done: seq<seq<byte>> := [];
    PlanStart(id, data, size);
    while rest != []
      invariant Planned(id, data, size, done, rest, chunks) && count == |done| % 0x1_0000_0000
      decreases |rest|
    {
      var k := if |rest| < size then |rest| else size;
      PlanStep(id, data, size, done, rest, chunks, k);
      chunks := chunks + [FileChunk(id, count, rest[..k])];
      count := (count + 1) % 0x1_0000_0000;
      done := done + [rest[..k]];
      rest := rest[k..];
    }
    PlanDone(id, data, size, done, chunks);
  }

  method PlanMessages(id: u32, name: string, data: seq<byte>, chunkSize: nat) returns (ms: seq<Message>)
    requires |data| < 0x1_0000_0000_0000_0000
    ensures ms == Plan(id, name, data, chunkSize)
  {
    ms := [FileOffer(id, name, |data|)];
    var chunks, count := PlanChunks(id, data, AtLeastOne(chunkSize));
    ms := ms + (chunks + [FileEnd(id, count)]);
  }

  function Flatten(blocks: seq<seq<byte>>): seq<byte>
    decreases |blocks|
  {
    if blocks == [] then [] else blocks[0] + Flatten(blocks[1..])
  }

  /** Blocks a receiver will take: none empty, none above the ceiling. */
  predicate WellCut(blocks: seq<seq<byte>>) {
    forall b <- blocks :: 1 <= |b| <= MAX_CHUNK_SIZE
  }

  /** The blocks are the data in order, each full but the last, none empty. */
  lemma {:induction false} BlocksPartition(data: seq<byte>, size: nat)
    requires size >= 1
    ensures var blocks := Blocks(data, size);
      && Flatten(blocks) == data
      && (forall i :: 0 <= i < |blocks| ==> 1 <= |blocks[i]| <= size)
      && (forall i :: 0 <= i < |blocks| - 1 ==> |blocks[i]| == size)
    decreases |data|
  {
    if data != [] {
      NextBlock(data, size);
      var k := if |data| < size then |data| else size;
      BlocksPartition(data[k..], size);
      var rest := Blocks(data[k..], size);
      assert ([data[..k]] + rest)[1..] == rest;
    }
  }

  lemma CeilStep(n: nat, size: nat)
    requires n > size >= 1
    ensures CeilDiv(n, size) == 1 + CeilDiv(n - size, size)
  {
    var q := CeilDiv(n - size, size);
    CeilBounds(n - size, size);
    Distribute(q, 1, size);
    QuotientUnique(n + size - 1, size, q + 1);
  }

  lemma {:induction false} BlocksCount(data: seq<byte>, size: nat)
    requires size >= 1
    ensures |Blocks(data, size)| == CeilDiv(|data|, size)
    decreases |data|
  {
    if |data| <= size {
      QuotientUnique(|data| + size - 1, size, |Blocks(data, size)|);
    } else {
      CeilStep(|data|, size);
      BlocksCount(data[size..], size);
    }
  }

  /** A planned transfer asked for chunks of no bytes has chunks of one; the others are all of the size asked for, but the last. */
  lemma PlanSized(id: u32, name: string, data: seq<byte>, chunkSize: nat, i: nat)
    requires |data| < 0x1_0000_0000_0000_0000 && i < |Plan(id, name, data, chunkSize)| - 2
    ensures var ms := Plan(id, name, data, chunkSize);
      && ms[0] == FileOffer(id, name, |data|)
      && ms[i + 1].FileChunk? && 1 <= |ms[i + 1].data| <= (if chunkSize == 0 then 1 else chunkSize)
      && (ms[i + 2].FileChunk? ==> |ms[i + 1].data| == if chunkSize == 0 then 1 else chunkSize)
  {
    BlocksPartition(data, AtLeastOne(chunkSize));
  }

  // --- The validator ----------------------------------------------------------------------------

  /** Where a reassembler stands. */
  datatype Account = Account(id: u32, name: string, declared: u64, next: u32, received: u64)

  predicate Sound(a: Account) {
    a.next <= a.received <= a.declared && a.received <= a.next * MAX_CHUNK_SIZE
  }

  function Begin(id: u32, name: string, size: u64, limit: u64): Result<Account, FileError> {
    var safe :- FileNames.SanitizeFilename(name);
    if size > limit then Err(TooLarge(size, limit)) else Ok(Account(id, safe, size, 0, 0))
  }

  /** An offer is taken up exactly if its size is within the limit and a safe name is at the end of its name. */
  lemma BeginsExactly(id: u32, name: string, size: u64, limit: u64, a: Account)
    ensures Begin(id, name, size, limit) == Ok(a) <==>
      && size <= limit
      && FileNames.SafeName(a.name) && FileNames.IsBase(name, a.name)
      && a == Account(id, a.name, size, 0, 0)
  {
    FileNames.SanitizeExactly(name, a.name);
  }

  /** What is refused is refused for a reason that holds. */
  lemma {:induction false} RefusedTruly(id: u32, name: string, size: u64, limit: u64)
    ensures match Begin(id, name, size, limit)
            case Err(InvalidName(n)) => n == name && !exists safe :: FileNames.SafeName(safe) && FileNames.IsBase(name, safe)
            case Err(TooLarge(s, l)) => s == size && l == limit && size > limit
            case Err(_) => false
            case Ok(_) => size <= limit
  {
    forall safe ensures FileNames.SanitizeFilename(name) == Ok(safe) <==> FileNames.SafeName(safe) && FileNames.IsBase(name, safe) {
      FileNames.SanitizeExactly(name, safe);
    }
  }

  function Accept(a: Account, id: u32, next: u32, data: seq<byte>): Result<Account, FileError> {
    if id != a.id then Err(IdMismatch(a.id, id))
    else if next != a.next then Err(OutOfOrder(a.next, next))
    else if data == [] then Err(EmptyChunk(next))
    else if |data| > MAX_CHUNK_SIZE then Err(ChunkTooLarge(|data|, MAX_CHUNK_SIZE))
    else if a.received + |data| > a.declared then Err(SizeOverflow(a.received + |data|, a.declared))
    else if a.next == 0xFFFF_FFFF then Err(TooManyChunks)
    else Ok(a.(next := a.next + 1, received := a.received + |data|))
  }

  function Complete(a: Account, id: u32, count: u32): Result<(), FileError> {
    if id != a.id then Err(IdMismatch(a.id, id))
    else if count != a.next then Err(CountMismatch(a.next, count))
    else if a.received != a.declared then Err(SizeMismatch(a.declared, a.received))
    else Ok(())
  }

  /** A chunk is taken exactly if nothing is wrong with it, and what is said to be wrong with it is. */
  lemma {:induction false} ChunkRefusedTruly(a: Account, id: u32, next: u32, data: seq<byte>)
    ensures match Accept(a, id, next, data)
            case Ok(b) =>
              && id == a.id && next == a.next && 1 <= |data| <= 4193280 && |data| <= a.declared - a.received
              && b == a.(next := a.next + 1, received := a.received + |data|)
            case Err(IdMismatch(expected, got)) => a.id == expected != got == id
            case Err(OutOfOrder(expected, got)) => a.next == expected != got == next
            case Err(EmptyChunk(k)) => data == [] && k == next
            case Err(ChunkTooLarge(size, limit)) => size == |data| > limit == 4193280
            case Err(SizeOverflow(got, declared)) => got == a.received + |data| > declared == a.declared
            case Err(TooManyChunks) => a.next == 0xFFFF_FFFF
            case Err(_) => false
  {
  }

  /** So is the end. */
  lemma {:induction false} EndRefusedTruly(a: Account, id: u32, count: u32)
    ensures match Complete(a, id, count)
            case Ok(_) => id == a.id && count == a.next && a.received == a.declared
            case Err(IdMismatch(expected, got)) => a.id == expected != got == id
            case Err(CountMismatch(expected, got)) => a.next == expected != got == count
            case Err(SizeMismatch(declared, received)) => a.declared == declared != received == a.received
            case Err(_) => false
  {
  }

  class FileReassembler {
    var id: u32
    var name: string
    var declaredSize: u64
    var nextSeq: u32
    var received: u64

    function State(): Account
      reads this
    {
      Account(id, name, declaredSize, nextSeq, received)
    }

    constructor (id: u32, name: string, size: u64)
      ensures State() == Account(id, name, size, 0, 0)
    {
      this.id := id;
      this.name := name;
      declaredSize := size;
      nextSeq := 0;
      received := 0;
    }

    static method Start(id: u32, name: string, size: u64, limit: u64) returns (r: Result<FileReassembler, FileError>)
      ensures match Begin(id, name, size, limit)
              case Ok(a) => r.Ok? && fresh(r.value) && r.value.State() == a && Sound(a)
              case Err(e) => r == Err(e)
    {
      var safe := FileNames.SanitizeFilename(name);
      if safe.Err? {
        return Err(safe.error);
      }
      if size > limit {
        return Err(TooLarge(size, limit));
      }
      var re := new FileReassembler(id, safe.value, size);
      return Ok(re);
    }

    /** The bytes to write, if the chunk is taken; the sum of sizes stays within 64 bits. */
    method AcceptChunk(id: u32, next: u32, data: seq<byte>) returns (r: Result<seq<byte>, FileError>)
      requires Sound(State())
      modifies this
      ensures Sound(State())
      ensures match Accept(old(State()), id, next, data)
              case Ok(a) => r == Ok(data) && State() == a
              case Err(e) => r == Err(e) && State() == old(State())
    {
      if id != this.id {
        return Err(IdMismatch(this.id, id));
      }
      if next != nextSeq {
        return Err(OutOfOrder(nextSeq, next));
      }
      if data == [] {
        return Err(EmptyChunk(next));
      }
      if |data| > MAX_CHUNK_SIZE {
        return Err(ChunkTooLarge(|data|, MAX_CHUNK_SIZE));
      }
      var newTotal: u64 := received + |data|;
      if newTotal > declaredSize {
        return Err(SizeOverflow(newTotal, declaredSize));
      }
      if nextSeq + 1 > 0xFFFF_FFFF {
        return Err(TooManyChunks);
      }
      nextSeq := nextSeq + 1;
      received := newTotal;
      return Ok(data);
    }

    method Finish(id: u32, count: u32) returns (r: Result<(), FileError>)
      ensures r == Complete(State(), id, count)
    {
      if id != this.id {
        return Err(IdMismatch(this.id, id));
      }
      if count != nextSeq {
        return Err(CountMismatch(nextSeq, count));
      }
      if received != declaredSize {
        return Err(SizeMismatch(declaredSize, received));
      }
      return Ok(());
    }
  }

  // --- Accounting -------------------------------------------------------------------------------

  datatype Call = Call(id: u32, next: u32, data: seq<byte>)

  /** The account after these calls, the refused ones among them having changed nothing. */
  function AfterCalls(a: Account, calls: seq<Call>): Account
    decreases |calls|
  {
    if calls == [] then a
    else
      var r := Accept(a, calls[0].id, calls[0].next, calls[0].data);
      AfterCalls(if r.Ok? then r.value else a, calls[1..])
  }

  /** Over any calls the account stays sound, so a chunk's size can always be added to it in 64 bits. */
  lemma {:induction false} AccountingSound(a: Account, calls: seq<Call>)
    requires Sound(a)
    ensures var b := AfterCalls(a, calls);
      && Sound(b) && b.id == a.id && b.declared == a.declared && b.next >= a.next && b.received >= a.received
      && b.received + MAX_CHUNK_SIZE < 0x1_0000_0000_0000_0000
    decreases |calls|
  {
    if calls != [] {
      var r := Accept(a, calls[0].id, calls[0].next, calls[0].data);
      AccountingSound(if r.Ok? then r.value else a, calls[1..]);
    }
  }

  // --- Receiving a body -------------------------------------------------------------------------

  datatype Verdict = Finished | Rejected(error: FileError) | Unexpected(m: Message) | Cut

  /** What has been written when receiving ends, and why it ended. */
  datatype Body = Body(written: seq<byte>, verdict: Verdict)

  /** What one message does: bytes to write and a new account, or the end. */
  datatype Taken = More(a: Account, bytes: seq<byte>) | Ended(verdict: Verdict)

  function TakeMessage(a: Account, m: Message): Taken {
    match m
    case FileChunk(id, next, data) =>
      (match Accept(a, id, next, data)
       case Ok(b) => More(b, data)
       case Err(e) => Ended(Rejected(e)))
    case FileEnd(id, count) =>
      (match Complete(a, id, count)
       case Ok(_) => Ended(Finished)
       case Err(e) => Ended(Rejected(e)))
    case _ => Ended(Unexpected(m))
  }

  function RunBody(a: Account, written: seq<byte>, ms: seq<Message>): Body
    decreases |ms|
  {
    if ms == [] then Body(written, Cut)
    else
      match TakeMessage(a, ms[0])
      case More(b, bytes) => RunBody(b, written + bytes, ms[1..])
      case Ended(verdict) => Body(written, verdict)
  }

  /** The account at the end of receiving. */
  function FinalAccount(a: Account, ms: seq<Message>): Account
    decreases |ms|
  {
    if ms == [] then a
    else
      match TakeMessage(a, ms[0])
      case More(b, _) => FinalAccount(b, ms[1..])
      case Ended(_) => a
  }

  /** The account is of the bytes written. */
  predicate Accounts(a: Account, written: seq<byte>) {
    Sound(a) && a.received == |written|
  }

  /** Whatever arrives, no more is written than was declared, and success means exactly as much. */
  lemma {:induction false} WrittenBounded(a: Account, written: seq<byte>, ms: seq<Message>)
    requires Accounts(a, written)
    ensures var body := RunBody(a, written, ms);
      && written <= body.written
      && |body.written| <= a.declared
      && (body.verdict.Finished? ==> |body.written| == a.declared)
    decreases |ms|
  {
    if ms != [] && ms[0].FileChunk? {
      var r := Accept(a, ms[0].id, ms[0].chunkSeq, ms[0].data);
      if r.Ok? {
        WrittenBounded(r.value, written + ms[0].data, ms[1..]);
      }
    }
  }

  lemma {:induction false} WrittenGrows(a: Account, written: seq<byte>, ms: seq<Message>)
    ensures written <= RunBody(a, written, ms).written
    decreases |ms|
  {
    if ms != [] && TakeMessage(a, ms[0]).More? {
      var taken := TakeMessage(a, ms[0]);
      WrittenGrows(taken.a, written + taken.bytes, ms[1..]);
    }
  }

  lemma ChunksFront(id: u32, first: nat, blocks: seq<seq<byte>>)
    requires blocks != [] && first < 0x1_0000_0000
    ensures Chunks(id, first, blocks) == [FileChunk(id, first, blocks[0])] + Chunks(id, first + 1, blocks[1..])
  {
    assert first % 0x1_0000_0000 == first;
  }

  /** The messages that take the account from where it stands to completion, through these blocks. */
  function Remaining(a: Account, blocks: seq<seq<byte>>): seq<Message> {
    Chunks(a.id, a.next, blocks) + [FileEnd(a.id, (a.next + |blocks|) % 0x1_0000_0000)]
  }

  /** Blocks that bring the account to just its declared size. */
  predicate Completes(a: Account, blocks: seq<seq<byte>>) {
    WellCut(blocks) && a.next + |blocks| < 0x1_0000_0000 && a.received + |Flatten(blocks)| == a.declared
  }

  lemma AcceptFirst(a: Account, blocks: seq<seq<byte>>) returns (b: Account)
    requires Sound(a) && Completes(a, blocks) && blocks != []
    ensures Accept(a, a.id, a.next, blocks[0]) == Ok(b)
    ensures Sound(b) && Completes(b, blocks[1..]) && b.id == a.id && b.next == a.next + 1
    ensures b.received == a.received + |blocks[0]|
  {
    assert blocks[0] in blocks;
    b := a.(next := a.next + 1, received := a.received + |blocks[0]|);
  }

  lemma Regroup(first: Message, middle: seq<Message>, last: Message)
    ensures [first] + middle + [last] == [first] + (middle + [last])
  {
  }

  /** What is left behind the first block, the numbers written out. */
  lemma RemainingTail(b: Account, blocks: seq<seq<byte>>, end: u32)
    requires b.next + |blocks| == end
    ensures Remaining(b, blocks) == Chunks(b.id, b.next, blocks) + [FileEnd(b.id, end)]
  {
  }

  lemma RemainingFront(a: Account, b: Account, blocks: seq<seq<byte>>)
    requires blocks != [] && b.id == a.id && b.next == a.next + 1 && a.next + |blocks| < 0x1_0000_0000
    ensures Remaining(a, blocks) == [FileChunk(a.id, a.next, blocks[0])] + Remaining(b, blocks[1..])
  {
    var end := a.next + |blocks|;
    RemainingTail(a, blocks, end);
    RemainingTail(b, blocks[1..], end);
    ChunksFront(a.id, a.next, blocks);
    Regroup(FileChunk(a.id, a.next, blocks[0]), Chunks(a.id, b.next, blocks[1..]), FileEnd(a.id, end));
  }

  lemma PrefixSplits(first: Message, more: seq<Message>, ms: seq<Message>)
    requires [first] + more <= ms
    ensures ms != [] && ms[0] == first && more <= ms[1..]
  {
    assert more == ([first] + more)[1..];
  }

  lemma RunOne(a: Account, b: Account, written: seq<byte>, ms: seq<Message>)
    requires ms != [] && ms[0].FileChunk? && Accept(a, ms[0].id, ms[0].chunkSeq, ms[0].data) == Ok(b)
    ensures RunBody(a, written, ms) == RunBody(b, written + ms[0].data, ms[1..])
  {
  }

  lemma RunEnd(a: Account, written: seq<byte>, ms: seq<Message>)
    requires Remaining(a, []) <= ms && Completes(a, [])
    ensures RunBody(a, written, ms) == Body(written + Flatten([]), Finished)
  {
    assert Remaining(a, [])[0] == FileEnd(a.id, a.next);
    assert written + [] == written;
  }

  lemma FinalOne(a: Account, b: Account, ms: seq<Message>)
    requires ms != [] && ms[0].FileChunk? && Accept(a, ms[0].id, ms[0].chunkSeq, ms[0].data) == Ok(b)
    ensures FinalAccount(a, ms) == FinalAccount(b, ms[1..])
  {
  }

  /** They leave the account at their number and at the declared size. */
  lemma {:induction false} RemainingCounted(a: Account, blocks: seq<seq<byte>>, ms: seq<Message>)
    requires Sound(a) && Completes(a, blocks) && Remaining(a, blocks) <= ms
    ensures FinalAccount(a, ms) == a.(next := a.next + |blocks|, received := a.declared)
    decreases |blocks|
  {
    if blocks == [] {
      assert Remaining(a, [])[0] == FileEnd(a.id, a.next);
    } else {
      var b := AcceptFirst(a, blocks);
      RemainingFront(a, b, blocks);
      PrefixSplits(FileChunk(a.id, a.next, blocks[0]), Remaining(b, blocks[1..]), ms);
      FinalOne(a, b, ms);
      RemainingCounted(b, blocks[1..], ms[1..]);
    }
  }

  /** Such blocks, sent in order with the end behind them, are received whole, whatever follows. */
  lemma {:induction false} RunRemaining(a: Account, written: seq<byte>, blocks: seq<seq<byte>>, ms: seq<Message>)
    requires Sound(a) && Completes(a, blocks) && Remaining(a, blocks) <= ms
    ensures RunBody(a, written, ms) == Body(written + Flatten(blocks), Finished)
    decreases |blocks|
  {
    if blocks == [] {
      RunEnd(a, written, ms);
    } else {
      var b := AcceptFirst(a, blocks);
      RemainingFront(a, b, blocks);
      PrefixSplits(FileChunk(a.id, a.next, blocks[0]), Remaining(b, blocks[1..]), ms);
      RunOne(a, b, written, ms);
      RunRemaining(b, written + blocks[0], blocks[1..], ms[1..]);
      assert [blocks[0]] + blocks[1..] == blocks;
      WrittenFront(written, blocks[0], blocks[1..]);
    }
  }

  lemma CompletesFront(a: Account, b: Account, block: seq<byte>, more: seq<seq<byte>>)
    requires Accept(a, a.id, a.next, block) == Ok(b) && Completes(b, more)
    ensures Completes(a, [block] + more) && ([block] + more)[1..] == more
  {
    assert ([block] + more)[1..] == more;
  }

  lemma PrefixFront(ms: seq<Message>, more: seq<Message>)
    requires ms != [] && more <= ms[1..]
    ensures [ms[0]] + more <= ms
  {
  }

  lemma WrittenFront(written: seq<byte>, block: seq<byte>, more: seq<seq<byte>>)
    ensures written + block + Flatten(more) == written + Flatten([block] + more)
  {
    assert ([block] + more)[1..] == more;
  }

  lemma FinishedFirst(a: Account, written: seq<byte>, ms: seq<Message>)
    requires RunBody(a, written, ms).verdict.Finished?
    ensures ms != [] && (ms[0].FileEnd? || ms[0].FileChunk?)
    ensures ms[0].FileEnd? ==>
      Completes(a, []) && Remaining(a, []) <= ms && RunBody(a, written, ms).written == written + Flatten([])
    ensures ms[0].FileChunk? ==>
      var r := Accept(a, ms[0].id, ms[0].chunkSeq, ms[0].data);
      r.Ok? && RunBody(a, written, ms) == RunBody(r.value, written + ms[0].data, ms[1..])
  {
    if ms[0].FileEnd? {
      assert Remaining(a, []) == [ms[0]];
      assert written + [] == written;
    }
  }

  /** And nothing else is: a finished body was such blocks, in order, with the end behind them. */
  lemma {:induction false} FinishedBlocks(a: Account, written: seq<byte>, ms: seq<Message>) returns (blocks: seq<seq<byte>>)
    requires Sound(a) && RunBody(a, written, ms).verdict.Finished?
    ensures Completes(a, blocks) && Remaining(a, blocks) <= ms
    ensures RunBody(a, written, ms).written == written + Flatten(blocks)
    decreases |ms|
  {
    FinishedFirst(a, written, ms);
    if ms[0].FileEnd? {
      blocks := [];
    } else {
      var data := ms[0].data;
      var b := Accept(a, ms[0].id, ms[0].chunkSeq, data).value;
      var more := FinishedBlocks(b, written + data, ms[1..]);
      blocks := [data] + more;
      CompletesFront(a, b, data, more);
      RemainingFront(a, b, blocks);
      PrefixFront(ms, Remaining(b, more));
      WrittenFront(written, data, more);
    }
  }

  lemma FlattenBehindNone(blocks: seq<seq<byte>>)
    ensures [] + Flatten(blocks) == Flatten(blocks)
  {
  }

  /** A body is received to the end exactly if it begins with such blocks, in order, and the end. */
  lemma FinishedExactly(a: Account, ms: seq<Message>, data: seq<byte>)
    requires Sound(a)
    ensures RunBody(a, [], ms) == Body(data, Finished) <==>
      exists blocks :: Completes(a, blocks) && Remaining(a, blocks) <= ms && Flatten(blocks) == data
  {
    if RunBody(a, [], ms) == Body(data, Finished) {
      var blocks := FinishedBlocks(a, [], ms);
      FlattenBehindNone(blocks);
    }
    forall blocks | Completes(a, blocks) && Remaining(a, blocks) <= ms ensures RunBody(a, [], ms) == Body(Flatten(blocks), Finished) {
      RunRemaining(a, [], blocks, ms);
      FlattenBehindNone(blocks);
    }
  }

  // --- Honest senders ---------------------------------------------------------------------------

  /** What a sender's offer opens at the receiver. */
  predicate Opens(id: u32, name: string, data: seq<byte>, limit: u64, a: Account) {
    |data| < 0x1_0000_0000_0000_0000 && Begin(id, name, |data|, limit) == Ok(a)
  }

  lemma OpenedAccount(id: u32, name: string, data: seq<byte>, limit: u64, a: Account)
    requires Opens(id, name, data, limit, a)
    ensures a.id == id && a.declared == |data| && a.next == 0 && a.received == 0
  {
  }

  lemma PlanCounts(data: seq<byte>, size: nat)
    requires 1 <= size && CeilDiv(|data|, size) < 0x1_0000_0000 && |data| < 0x1_0000_0000_0000_0000
    ensures |Blocks(data, size)| < 0x1_0000_0000 && |Blocks(data, size)| == ChunkCount(|data|, size)
  {
    BlocksCount(data, size);
  }

  lemma PlanTail(id: u32, name: string, data: seq<byte>, size: nat)
    requires 1 <= size && |data| < 0x1_0000_0000_0000_0000
    ensures Plan(id, name, data, size)[1..] == Contents(id, Blocks(data, size))
  {
  }

  lemma FreshRemaining(a: Account, blocks: seq<seq<byte>>)
    requires a.next == 0
    ensures Remaining(a, blocks) == Contents(a.id, blocks)
  {
  }

  lemma PartitionWellCut(blocks: seq<seq<byte>>, size: nat)
    requires size <= MAX_CHUNK_SIZE && forall i :: 0 <= i < |blocks| ==> 1 <= |blocks[i]| <= size
    ensures WellCut(blocks)
  {
  }

  lemma PlanOpens(id: u32, name: string, data: seq<byte>, size: nat, limit: u64, a: Account)
    requires Opens(id, name, data, limit, a) && 1 <= size <= MAX_CHUNK_SIZE
    requires CeilDiv(|data|, size) < 0x1_0000_0000
    ensures Completes(a, Blocks(data, size)) && Remaining(a, Blocks(data, size)) == Plan(id, name, data, size)[1..]
    ensures Flatten(Blocks(data, size)) == data
    ensures a.next == 0 && a.declared == |data| && |Blocks(data, size)| == ChunkCount(|data|, size)
  {
    OpenedAccount(id, name, data, limit, a);
    BlocksPartition(data, size);
    PlanCounts(data, size);
    PartitionWellCut(Blocks(data, size), size);
    PlanTail(id, name, data, size);
    FreshRemaining(a, Blocks(data, size));
  }

  /** An honest transfer leaves the account at the number of chunks and at the declared size. */
  lemma PlanCompletes(id: u32, name: string, data: seq<byte>, size: nat, limit: u64, a: Account)
    requires Opens(id, name, data, limit, a) && 1 <= size <= MAX_CHUNK_SIZE
    requires CeilDiv(|data|, size) < 0x1_0000_0000
    ensures FinalAccount(a, Plan(id, name, data, size)[1..])
         == a.(next := ChunkCount(|data|, size), received := |data|)
  {
    PlanOpens(id, name, data, size, limit, a);
    RemainingCounted(a, Blocks(data, size), Plan(id, name, data, size)[1..]);
  }

  /** What was planned, a receiver that takes the offer writes back byte for byte. */
  lemma PlanDelivered(id: u32, name: string, data: seq<byte>, size: nat, limit: u64, a: Account)
    requires Opens(id, name, data, limit, a) && 1 <= size <= MAX_CHUNK_SIZE
    requires CeilDiv(|data|, size) < 0x1_0000_0000
    ensures RunBody(a, [], Plan(id, name, data, size)[1..]) == Body(data, Finished)
  {
    PlanOpens(id, name, data, size, limit, a);
    RunRemaining(a, [], Blocks(data, size), Plan(id, name, data, size)[1..]);
    assert [] + data == data;
  }

  lemma SameBlocks(id: u32, these: seq<seq<byte>>, those: seq<seq<byte>>)
    requires |these| < 0x1_0000_0000 && |those| < 0x1_0000_0000
    requires forall m <- Contents(id, these) :: m in Contents(id, those)
    ensures these == those
  {
    assert Contents(id, these)[|these|] == FileEnd(id, |these|);
    assert FileEnd(id, |these|) in Contents(id, those);
    forall i | 0 <= i < |these| ensures these[i] == those[i] {
      assert Contents(id, these)[i] == FileChunk(id, i, these[i]);
      assert FileChunk(id, i, these[i]) in Contents(id, those);
    }
  }

  lemma PrefixElements(front: seq<Message>, ms: seq<Message>, pool: seq<Message>)
    requires front <= ms && forall m <- ms :: m in pool
    ensures forall m <- front :: m in pool
  {
    forall m | m in front ensures m in pool {
      var i :| 0 <= i < |front| && front[i] == m;
      assert ms[i] == m;
    }
  }

  /** Nothing of the offer is among a file's chunks and end. */
  lemma OfferApart(id: u32, blocks: seq<seq<byte>>, pool: seq<seq<byte>>, offer: Message)
    requires offer.FileOffer?
    requires forall m <- Contents(id, blocks) :: m in [offer] + Contents(id, pool)
    ensures forall m <- Contents(id, blocks) :: m in Contents(id, pool)
  {
  }

  lemma ShuffledFinished(id: u32, name: string, data: seq<byte>, size: nat, a: Account, got: seq<seq<byte>>, ms: seq<Message>)
    requires 1 <= size && CeilDiv(|data|, size) < 0x1_0000_0000 && |data| < 0x1_0000_0000_0000_0000
    requires a.id == id && a.next == 0 && Completes(a, got) && Remaining(a, got) <= ms
    requires forall m <- ms :: m in Plan(id, name, data, size)
    ensures got == Blocks(data, size)
  {
    var blocks := Blocks(data, size);
    PlanCounts(data, size);
    FreshRemaining(a, got);
    PrefixElements(Contents(id, got), ms, Plan(id, name, data, size));
    OfferApart(id, got, blocks, FileOffer(id, name, |data|));
    SameBlocks(id, got, blocks);
  }

  /**
   Let the messages of one honest transfer be dropped, duplicated and reordered at will: what arrives is received
   to the end exactly if it begins with the chunks and the end in order, and then the bytes are the original's.
   */
  lemma Shuffled(id: u32, name: string, data: seq<byte>, size: nat, limit: u64, a: Account, ms: seq<Message>)
    requires Opens(id, name, data, limit, a) && 1 <= size <= MAX_CHUNK_SIZE
    requires CeilDiv(|data|, size) < 0x1_0000_0000
    requires forall m <- ms :: m in Plan(id, name, data, size)
    ensures var body := RunBody(a, [], ms);
      && (body.verdict.Finished? <==> Plan(id, name, data, size)[1..] <= ms)
      && (body.verdict.Finished? ==> body.written == data)
  {
    PlanOpens(id, name, data, size, limit, a);
    var blocks := Blocks(data, size);
    if Plan(id, name, data, size)[1..] <= ms {
      RunRemaining(a, [], blocks, ms);
    }
    if RunBody(a, [], ms).verdict.Finished? {
      var got := FinishedBlocks(a, [], ms);
      OpenedAccount(id, name, data, limit, a);
      ShuffledFinished(id, name, data, size, a, got, ms);
      assert [] + data == data;
    }
  }
}
