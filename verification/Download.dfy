/** Receiving one file into a directory, start to end, with no other receive in between. */
module Download {
  import opened Arithmetic
  import opened Wrappers
  import opened MachineInts
  import opened Messages
  import opened WireFormat
  import opened Codec
  import opened Framing
  import opened Transport
  import opened FileErrors
  import opened FileTransfer
  import opened Streaming
  import opened Delivery
  import FileNames
  import opened Publication
  import opened PublicationTheorems

  /** What can go wrong with a directory, but for a name that is taken and a file that has no more room. */
  datatype Fault = NoDirectory | NoTempFile | NoReserving | NoRenaming

  /** What became of creating a file. */
  datatype Opening = Created | Taken | Denied

  /** A directory on disk. */
  class Folder {
    var entries: Directory
    const faults: set<Fault>
    /** How many bytes a new file can hold. */
    const room: nat

    constructor (entries: Directory, faults: set<Fault>, room: nat)
      ensures this.entries == entries && this.faults == faults && this.room == room
    {
      this.entries := entries;
      this.faults := faults;
      this.room := room;
    }

    /** Creates an empty file; fails if anything has the name, or for its own reasons. */
    method OpenNew(name: string, fault: Fault) returns (opening: Opening)
      modifies this
      ensures fault in faults ==> opening == Denied && entries == old(entries)
      ensures fault !in faults ==>
        match CreateNew(old(entries), name)
        case Some(d) => opening == Created && entries == d
        case None => opening == Taken && entries == old(entries)
    {
      if fault in faults {
        return Denied;
      }
      if name in entries {
        return Taken;
      }
      entries := entries[name := []];
      return Created;
    }

    method WriteFile(name: string, bytes: seq<byte>)
      modifies this
      ensures entries == Write(old(entries), name, bytes)
    {
      if name in entries {
        entries := entries[name := bytes];
      }
    }

    method RenameFile(from: string, to: string) returns (ok: bool)
      requires from in entries
      modifies this
      ensures ok <==> NoRenaming !in faults
      ensures entries == if ok then Rename(old(entries), from, to) else old(entries)
    {
      if NoRenaming in faults {
        return false;
      }
      var bytes := entries[from];
      entries := entries - {from};
      entries := entries[to := bytes];
      ok := true;
    }

    method RemoveFile(name: string)
      modifies this
      ensures entries == old(entries) - {name}
    {
      entries := entries - {name};
    }
  }

  lemma RenamedOver(d: Directory, from: string, to: string)
    requires from in d && from != to
    ensures Rename(d[to := []], from, to) == (d - {from})[to := d[from]]
  {
  }

  datatype DownloadError =
    | NoOffer(lost: NetError)
    | NotAnOffer(m: Message)
    | BadOffer(error: FileError)
    | AcceptUnsent
    | NotUsable
    | NoTemp
    | BadBody(body: ReceiveError)
    | NameTaken
    | NotReserved
    | NotRenamed

  type Receipt = Result<string, DownloadError>

  /** Where a complete file goes, and what is reported: an empty file stays behind if the rename fails. */
  function Stored(faults: set<Fault>, d: Directory, token: nat, name: string, bytes: seq<byte>): (Directory, Receipt) {
    var (placed, target) := Placed(d, token, name, bytes);
    if NoReserving in faults then (d, Err(NotReserved))
    else if target.None? then (d, Err(NameTaken))
    else if NoRenaming in faults then (d[target.value := []], Err(NotRenamed))
    else (placed, Ok(target.value))
  }

  /** Moves the finished file to its name, or to the fallback if that is taken; never onto a file that is there. */
  method Publish(folder: Folder, name: string, token: nat) returns (r: Receipt)
    requires NotHidden(name) && Temp(token) in folder.entries
    modifies folder
    ensures var held := old(folder.entries);
      var (stored, reported) := Stored(folder.faults, held - {Temp(token)}, token, name, held[Temp(token)]);
      && r == reported
      && folder.entries == if r.Ok? then stored else stored[Temp(token) := held[Temp(token)]]
  {
    var tmp := Temp(token);
    ghost var held := folder.entries;
    TargetIsNoTemp(token, name, name, token);
    TargetIsNoTemp(token, name, Alternative(token, name), token);
    var opening := folder.OpenNew(name, NoReserving);
    match opening {
      case Created =>
        r := MoveTo(folder, tmp, name, held);
      case Taken =>
        var alt := Alternative(token, name);
        opening := folder.OpenNew(alt, NoReserving);
        if opening != Created {
          assert held == (held - {tmp})[tmp := held[tmp]];
          return Err(NameTaken);
        }
        r := MoveTo(folder, tmp, alt, held);
      case Denied =>
        assert held == (held - {tmp})[tmp := held[tmp]];
        return Err(NotReserved);
    }
  }

  /** Renames the temporary file onto the empty one just reserved. */
  method MoveTo(folder: Folder, tmp: string, target: string, ghost held: Directory) returns (r: Receipt)
    requires tmp in held && tmp != target && folder.entries == held[target := []]
    modifies folder
    ensures var d := held - {tmp};
      if NoRenaming in folder.faults then r == Err(NotRenamed) && folder.entries == d[target := []][tmp := held[tmp]]
      else r == Ok(target) && folder.entries == d[target := held[tmp]]
  {
    RenamedOver(held, tmp, target);
    assert held[target := []] == (held - {tmp})[target := []][tmp := held[tmp]];
    var ok := folder.RenameFile(tmp, target);
    return if ok then Ok(target) else Err(NotRenamed);
  }

  /** Fills the temporary file and publishes it, or removes it if it cannot be. */
  method Store(folder: Folder, name: string, token: nat, bytes: seq<byte>, ghost d: Directory) returns (r: Receipt)
    requires NotHidden(name) && Temp(token) !in d && folder.entries == d[Temp(token) := []]
    modifies folder
    ensures (folder.entries, r) == Stored(folder.faults, d, token, name, bytes)
  {
    var tmp := Temp(token);
    folder.WriteFile(tmp, bytes);
    assert folder.entries - {tmp} == d;
    TargetIsNoTemp(token, name, name, token);
    TargetIsNoTemp(token, name, Alternative(token, name), token);
    r := Publish(folder, name, token);
    if r.Err? {
      StoredBehind(folder.faults, d, token, name, bytes);
      folder.RemoveFile(tmp);
    }
  }

  lemma StoredBehind(faults: set<Fault>, d: Directory, token: nat, name: string, bytes: seq<byte>)
    requires NotHidden(name) && Temp(token) !in d
    ensures var stored := Stored(faults, d, token, name, bytes).0; stored[Temp(token) := bytes] - {Temp(token)} == stored
  {
    TargetIsNoTemp(token, name, name, token);
    TargetIsNoTemp(token, name, Alternative(token, name), token);
  }

  /** What an accepted receive does to a directory with room for its file, and what it reports. */
  function Received(faults: set<Fault>, d: Directory, token: nat, start: Account, session: Session): (Directory, Receipt) {
    if NoTempFile in faults || Temp(token) in d then (d - {Temp(token)}, Err(NoTemp))
    else
      var body := RunBody(start, [], session.messages);
      match Ending(body.verdict, session.end)
      case Err(e) => (d, Err(BadBody(e)))
      case Ok(_) => Stored(faults, d, token, start.name, body.written)
  }

  /**
   This is what a receive has left and reported. If there is no room for what it writes, nothing is left behind, and
   the error is that of writing or that of the body.
   */
  predicate ReceivedInto(faults: set<Fault>, room: nat, before: Directory, after: Directory, token: nat,
                         start: Account, session: Session, r: Receipt)
  {
    var body := RunBody(start, [], session.messages);
    if NoTempFile in faults || Temp(token) in before || |body.written| <= room then
      (after, r) == Received(faults, before, token, start, session)
    else
      && after == before && r.Err? && r.error.BadBody?
      && NoRoom(body, session.end, Err(r.error.body))
  }

  /** Receives what follows an accepted offer, and publishes it or removes what there is of it. */
  method RecvAccepted(reader: FramedReader, re: FileReassembler, folder: Folder, token: nat) returns (r: Receipt)
    requires Sound(re.State()) && NotHidden(re.name)
    modifies reader, re, folder
    ensures ReceivedInto(folder.faults, folder.room, old(folder.entries), folder.entries, token, old(re.State()),
                         ReceiveAll(DECODE, old(reader.inner), reader.end), r)
  {
    var tmp := Temp(token);
    ghost var d := folder.entries;
    var opening := folder.OpenNew(tmp, NoTempFile);
    if opening != Created {
      folder.RemoveFile(tmp);
      return Err(NoTemp);
    }
    r := RecvIntoTemp(reader, re, folder, token, d);
  }

  method RecvIntoTemp(reader: FramedReader, re: FileReassembler, folder: Folder, token: nat, ghost d: Directory)
    returns (r: Receipt)
    requires Sound(re.State()) && NotHidden(re.name)
    requires NoTempFile !in folder.faults && Temp(token) !in d && folder.entries == d[Temp(token) := []]
    modifies reader, re, folder
    ensures ReceivedInto(folder.faults, folder.room, d, folder.entries, token, old(re.State()),
                         ReceiveAll(DECODE, old(reader.inner), reader.end), r)
  {
    var tmp := Temp(token);
    var name := re.name;
    var sink := new Sink(folder.room);
    var body := RecvBody(reader, re, sink);
    if body.Err? {
      folder.RemoveFile(tmp);
      assert folder.entries == d;
      return Err(BadBody(body.error));
    }
    r := Store(folder, name, token, sink.data, d);
  }

  /** The receiver's answer to an offer has been written, as far as it could be. */
  predicate Answered(before: seq<byte>, after: seq<byte>, ok: bool, answer: Message, capacity: nat) {
    Wrote(after, ok, before, [answer], capacity)
  }

  method Answer(writer: FramedWriter, answer: Message) returns (ok: bool)
    requires |writer.inner| <= writer.capacity
    modifies writer
    ensures Answered(old(writer.inner), writer.inner, ok, answer, writer.capacity)
  {
    ghost var base := writer.inner;
    WroteNothing(base, writer.capacity);
    assert [] + [answer] == [answer];
    ok := SendNext(writer, answer, base, []);
  }

  /** What a receive that may go ahead comes to: nothing, if the sender cannot be told or there is no directory. */
  predicate GoneAhead(ok: bool, token: nat, faults: set<Fault>, room: nat, before: Directory, after: Directory,
                      start: Account, session: Session, r: Receipt)
  {
    if !ok then r == Err(AcceptUnsent) && after == before
    else if NoDirectory in faults then r == Err(NotUsable) && after == before
    else ReceivedInto(faults, room, before, after, token, start, session, r)
  }

  method GoAhead(reader: FramedReader, writer: FramedWriter, folder: Folder, re: FileReassembler, token: nat)
    returns (ok: bool, r: Receipt)
    requires Sound(re.State()) && NotHidden(re.name) && |writer.inner| <= writer.capacity
    modifies reader, writer, folder, re
    ensures Answered(old(writer.inner), writer.inner, ok, FileAccept(old(re.id), true), writer.capacity)
    ensures GoneAhead(ok, token, folder.faults, folder.room, old(folder.entries), folder.entries, old(re.State()),
                      ReceiveAll(DECODE, old(reader.inner), reader.end), r)
  {
    ok := Answer(writer, FileAccept(re.id, true));
    if !ok {
      return ok, Err(AcceptUnsent);
    }
    if NoDirectory in folder.faults {
      return ok, Err(NotUsable);
    }
    r := RecvAccepted(reader, re, folder, token);
  }

  /** What is said and done about an offer. */
  predicate OfferTaken(offer: Message, limit: u64, token: nat, faults: set<Fault>, room: nat, said: seq<byte>, saying: seq<byte>,
                       capacity: nat, before: Directory, after: Directory, session: Session, r: Receipt)
    requires offer.FileOffer?
  {
    var begun := Begin(offer.id, offer.name, offer.size, limit);
    var answer := FileAccept(offer.id, begun.Ok?);
    var ok := |Writing(said, [answer])| <= capacity;
    && Answered(said, saying, ok, answer, capacity)
    && if begun.Err? then r == Err(BadOffer(begun.error)) && after == before
       else GoneAhead(ok, token, faults, room, before, after, begun.value, session, r)
  }

  method TakeOffer(reader: FramedReader, writer: FramedWriter, folder: Folder, offer: Message, limit: u64, token: nat)
    returns (r: Receipt)
    requires offer.FileOffer? && |writer.inner| <= writer.capacity
    modifies reader, writer, folder
    ensures OfferTaken(offer, limit, token, folder.faults, folder.room, old(writer.inner), writer.inner, writer.capacity,
                       old(folder.entries), folder.entries, ReceiveAll(DECODE, old(reader.inner), reader.end), r)
  {
    var FileOffer(id, name, size) := offer;
    var begun := FileReassembler.Start(id, name, size, limit);
    if begun.Err? {
      var _ := Answer(writer, FileAccept(id, false));
      return Err(BadOffer(begun.error));
    }
    BegunNotHidden(id, name, size, limit);
    var ok;
    ok, r := GoAhead(reader, writer, folder, begun.value, token);
  }

  /**
   Receives a file: an offer it can take is accepted and, if the answer gets out and there is a directory, leads to
   what an accepted receive leads to; anything else leaves the directory as it was.
   */
  method RecvFileToDir(reader: FramedReader, writer: FramedWriter, folder: Folder, limit: u64, token: nat)
    returns (r: Receipt)
    requires |writer.inner| <= writer.capacity
    modifies reader, writer, folder
    ensures var first, d := Receive(DECODE, old(reader.inner), reader.end), old(folder.entries);
      match first.outcome
      case Err(e) => r == Err(NoOffer(e)) && folder.entries == d && writer.inner == old(writer.inner)
      case Ok(m) =>
        if !m.FileOffer? then r == Err(NotAnOffer(m)) && folder.entries == d && writer.inner == old(writer.inner)
        else
          OfferTaken(m, limit, token, folder.faults, folder.room, old(writer.inner), writer.inner, writer.capacity,
                     d, folder.entries, ReceiveAll(DECODE, first.rest, reader.end), r)
  {
    var got := reader.Recv();
    if got.Err? {
      return Err(NoOffer(got.error));
    }
    if !got.value.FileOffer? {
      return Err(NotAnOffer(got.value));
    }
    r := TakeOffer(reader, writer, folder, got.value, limit, token);
  }

  /** With nothing wrong with the directory, this is a receive left alone. */
  lemma ReceivedAlone(d: Directory, token: nat, start: Account, session: Session)
    ensures var (received, r) := Received({}, d, token, start, session);
      var (settled, target) := ReceiveAlone(d, token, start, session.messages);
      && received == settled
      && forall path :: r == Ok(path) <==> target == Some(path)
  {
    var body := RunBody(start, [], session.messages);
    assert Ending(body.verdict, session.end).Ok? <==> body.verdict.Finished?;
  }

  /**
   Whatever goes wrong, a reported path was free and now holds the whole file, and nothing else has changed; and an
   error is reported exactly in these cases.
   */
  lemma ReportsPublished(faults: set<Fault>, room: nat, d: Directory, after: Directory, token: nat, start: Account,
                         session: Session, r: Receipt)
    requires ReceivedInto(faults, room, d, after, token, start, session, r)
    ensures var body := RunBody(start, [], session.messages);
      && (r.Ok? ==>
            && body.verdict.Finished? && r.value !in d && after == d[r.value := body.written]
            && (r.value == start.name || (start.name in d && r.value == Alternative(token, start.name))))
      && (r.Err? <==>
            || NoTempFile in faults || Temp(token) in d || !body.verdict.Finished? || |body.written| > room
            || NoReserving in faults || NoRenaming in faults
            || (start.name in d && Alternative(token, start.name) in d))
  {
    var body := RunBody(start, [], session.messages);
    assert Ending(body.verdict, session.end).Ok? <==> body.verdict.Finished?;
  }

  /** What is reported to have gone wrong has. */
  lemma {:induction false} FailsTruly(faults: set<Fault>, room: nat, d: Directory, after: Directory, token: nat, start: Account,
                                      session: Session, r: Receipt)
    requires ReceivedInto(faults, room, d, after, token, start, session, r)
    ensures var body := RunBody(start, [], session.messages);
      match r
      case Ok(_) => body.verdict.Finished?
      case Err(NoTemp) => NoTempFile in faults || Temp(token) in d
      case Err(BadBody(NotWritten)) => |body.written| > room
      case Err(BadBody(Lost(e))) => body.verdict.Cut? && e == session.end
      case Err(BadBody(Refused(e))) => body.verdict == Rejected(e)
      case Err(BadBody(Misplaced(m))) => body.verdict == Unexpected(m)
      case Err(NameTaken) => body.verdict.Finished? && start.name in d && Alternative(token, start.name) in d
      case Err(NotReserved) => body.verdict.Finished? && NoReserving in faults
      case Err(NotRenamed) => body.verdict.Finished? && NoRenaming in faults
      case Err(_) => false
  {
  }

  /** An error leaves the directory as it was, but for a leftover removed or an empty file reserved in vain. */
  lemma ErrorLeaves(faults: set<Fault>, room: nat, d: Directory, after: Directory, token: nat, start: Account,
                    session: Session, r: Receipt)
    requires ReceivedInto(faults, room, d, after, token, start, session, r)
    ensures r.Err? ==>
      if Temp(token) in d then after == d - {Temp(token)}
      else if r == Err(NotRenamed) then
        exists path :: Publishable(token, start.name, path) && path !in d && after == d[path := []]
      else after == d
  {
    if Temp(token) !in d {
      assert d - {Temp(token)} == d;
    }
    assert Publishable(token, start.name, start.name);
    assert Publishable(token, start.name, Alternative(token, start.name));
  }

  /** A name and size that a receiver with this limit takes. */
  ghost predicate Acceptable(name: string, size: u64, limit: u64) {
    size <= limit && exists safe :: FileNames.SafeName(safe) && FileNames.IsBase(name, safe)
  }

  lemma AcceptableBegins(id: u32, name: string, size: u64, limit: u64)
    ensures Begin(id, name, size, limit).Ok? <==> Acceptable(name, size, limit)
  {
    var begun := Begin(id, name, size, limit);
    if begun.Ok? {
      BeginsExactly(id, name, size, limit, begun.value);
    }
    if Acceptable(name, size, limit) {
      var safe :| FileNames.SafeName(safe) && FileNames.IsBase(name, safe);
      BeginsExactly(id, name, size, limit, Account(id, safe, size, 0, 0));
    }
  }

  /** An offer is answered with yes exactly if it is acceptable; after a no the directory is as it was. */
  lemma AnsweredTruly(offer: Message, limit: u64, token: nat, faults: set<Fault>, room: nat, said: seq<byte>, saying: seq<byte>,
                      capacity: nat, before: Directory, after: Directory, session: Session, r: Receipt)
    requires offer.FileOffer?
    requires OfferTaken(offer, limit, token, faults, room, said, saying, capacity, before, after, session, r)
    ensures var answer := FileAccept(offer.id, Acceptable(offer.name, offer.size, limit));
      saying == Truncated(said + Frame(Encode(answer)), capacity)
    ensures !Acceptable(offer.name, offer.size, limit) ==> r.Err? && after == before
  {
    AcceptableBegins(offer.id, offer.name, offer.size, limit);
    var answer := FileAccept(offer.id, Acceptable(offer.name, offer.size, limit));
    StreamFirst(ENCODE, answer, []);
    assert [answer] + [] == [answer];
    assert Stream(Payloads(ENCODE, [])) == [];
    assert Frame(Encode(answer)) + [] == Frame(Encode(answer));
  }

  /** Asked by a receiver that answers so, a sender sends the file exactly if its offer is acceptable, and else is told so. */
  lemma BothAgree(id: u32, name: string, size: u64, data: seq<byte>, faulty: bool, chunkSize: nat, limit: u64)
    ensures var reply := FileAccept(id, Begin(id, name, size, limit).Ok?);
      var sending := SendAll(id, name, size, data, faulty, chunkSize, Ok(reply));
      && (sending.outcome == Err(Declined) <==> !Acceptable(name, size, limit))
      && ((exists m <- sending.messages :: m.FileChunk? || m.FileEnd?) ==> Acceptable(name, size, limit))
  {
    AcceptableBegins(id, name, size, limit);
    SentOnlyIfAgreed(id, name, size, data, faulty, chunkSize, Ok(FileAccept(id, Begin(id, name, size, limit).Ok?)));
  }

  // --- From one end to the other ----------------------------------------------------------------

  lemma FirstArrives(m: Message, more: seq<Message>, rest: seq<byte>, end: StreamEnd)
    requires FitsFrame(m)
    ensures var got := Receive(DECODE, Stream(Encodings([m] + more)) + rest, end);
      got.outcome == Ok(m) && got.rest == Stream(Encodings(more)) + rest
  {
    StreamFirst(ENCODE, m, more);
    AppendAssociates(Frame(ENCODE(m)), Stream(Encodings(more)), rest);
    SendReceive(m, Stream(Encodings(more)) + rest, end);
  }

  lemma BodyArrives(id: u32, name: string, data: seq<byte>, size: nat, limit: u64, a: Account, rest: seq<byte>, end: StreamEnd)
    requires Opens(id, name, data, limit, a) && 1 <= size <= MAX_CHUNK_SIZE && CeilDiv(|data|, size) < 0x1_0000_0000
    ensures var plan := Plan(id, name, data, size);
      RunBody(a, [], ReceiveAll(DECODE, Stream(Encodings(plan[1..])) + rest, end).messages) == Body(data, Finished)
  {
    var contents, blocks := Plan(id, name, data, size)[1..], Blocks(data, size);
    PlanOpens(id, name, data, size, limit, a);
    FreshRemaining(a, blocks);
    ContentsFit(a.id, blocks);
    WholeStream(contents, rest, end);
    RunRemaining(a, [], blocks, contents + ReceiveAll(DECODE, rest, end).messages);
    assert [] + data == data;
  }

  lemma WholeStored(faults: set<Fault>, room: nat, d: Directory, after: Directory, token: nat, a: Account,
                    session: Session, data: seq<byte>, r: Receipt)
    requires RunBody(a, [], session.messages) == Body(data, Finished)
    requires ReceivedInto(faults, room, d, after, token, a, session, r)
    ensures NoTempFile !in faults && Temp(token) !in d && |data| <= room ==>
      (after, r) == Stored(faults, d, token, a.name, data)
  {
  }

  lemma PlanArrives(id: u32, name: string, data: seq<byte>, size: nat, rest: seq<byte>, end: StreamEnd)
    requires |data| < 0x1_0000_0000_0000_0000 && FitsFrame(FileOffer(id, name, |data|))
    ensures var plan := Plan(id, name, data, size);
      var got := Receive(DECODE, Stream(Encodings(plan)) + rest, end);
      got.outcome == Ok(FileOffer(id, name, |data|)) && got.rest == Stream(Encodings(plan[1..])) + rest
  {
    var plan := Plan(id, name, data, size);
    FirstArrives(plan[0], plan[1..], rest, end);
    assert plan == [plan[0]] + plan[1..];
  }

  lemma PlanIsPublished(id: u32, name: string, data: seq<byte>, size: nat, limit: u64, a: Account, rest: seq<byte>,
                        end: StreamEnd, faults: set<Fault>, room: nat, d: Directory, after: Directory, token: nat, r: Receipt)
    requires Opens(id, name, data, limit, a) && 1 <= size <= MAX_CHUNK_SIZE && CeilDiv(|data|, size) < 0x1_0000_0000
    requires FitsFrame(FileOffer(id, name, |data|))
    requires var bytes := Stream(Encodings(Plan(id, name, data, size))) + rest;
      ReceivedInto(faults, room, d, after, token, a, ReceiveAll(DECODE, Receive(DECODE, bytes, end).rest, end), r)
    ensures var bytes := Stream(Encodings(Plan(id, name, data, size))) + rest;
      Receive(DECODE, bytes, end).outcome == Ok(FileOffer(id, name, |data|))
    ensures NoTempFile !in faults && Temp(token) !in d && |data| <= room ==>
      (after, r) == Stored(faults, d, token, a.name, data)
  {
    PlanArrives(id, name, data, size, rest, end);
    BodyArrives(id, name, data, size, limit, a, rest, end);
    var session := ReceiveAll(DECODE, Stream(Encodings(Plan(id, name, data, size)[1..])) + rest, end);
    WholeStored(faults, room, d, after, token, a, session, data, r);
  }

  lemma SentIsPlan(id: u32, name: string, size: u64, data: seq<byte>, faulty: bool, chunkSize: nat, reply: Message,
                   sending: Sending)
    requires reply.FileAccept? && reply.accept
    requires sending == SendAll(id, name, size, data, faulty, chunkSize, Ok(reply)) && sending.outcome.Ok?
    ensures |data| == size && CeilDiv(|data|, ClampChunkSize(chunkSize)) < 0x1_0000_0000
    ensures sending.messages == Plan(id, name, data, ClampChunkSize(chunkSize))
  {
    StreamsThePlan(id, name, size, data, faulty, chunkSize, reply);
  }

  lemma StoredPlainly(d: Directory, token: nat, name: string, data: seq<byte>)
    requires name !in d
    ensures Stored({}, d, token, name, data) == (d[name := data], Ok(name))
  {
  }

  /**
   What a send that succeeds has put on the stream, a receiver that can take the offer publishes byte for byte:
   whatever follows on the stream, if it has room and its directory does not fail it.
   */
  lemma SentIsPublished(id: u32, name: string, size: u64, data: seq<byte>, faulty: bool, chunkSize: nat, reply: Message,
                        sending: Sending, limit: u64, a: Account, rest: seq<byte>, end: StreamEnd,
                        faults: set<Fault>, room: nat, d: Directory, after: Directory, token: nat, r: Receipt)
    requires reply.FileAccept? && reply.accept && FitsFrame(FileOffer(id, name, size))
    requires sending == SendAll(id, name, size, data, faulty, chunkSize, Ok(reply)) && sending.outcome.Ok?
    requires Begin(id, name, size, limit) == Ok(a)
    requires var bytes := Stream(Encodings(sending.messages)) + rest;
      ReceivedInto(faults, room, d, after, token, a, ReceiveAll(DECODE, Receive(DECODE, bytes, end).rest, end), r)
    ensures Receive(DECODE, Stream(Encodings(sending.messages)) + rest, end).outcome == Ok(FileOffer(id, name, size))
    ensures NoTempFile !in faults && Temp(token) !in d && |data| <= room ==>
      (after, r) == Stored(faults, d, token, a.name, data)
    ensures faults == {} && Temp(token) !in d && |data| <= room && a.name !in d ==>
      after == d[a.name := data] && r == Ok(a.name)
  {
    SentIsPlan(id, name, size, data, faulty, chunkSize, reply, sending);
    PlanIsPublished(id, name, data, ClampChunkSize(chunkSize), limit, a, rest, end, faults, room, d, after, token, r);
    if faults == {} && a.name !in d {
      StoredPlainly(d, token, a.name, data);
    }
  }
}
