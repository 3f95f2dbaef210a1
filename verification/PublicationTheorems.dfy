/** What concurrent receives into one directory guarantee, over every interleaving. */
module PublicationTheorems {
  import opened Arithmetic
  import opened Wrappers
  import opened MachineInts
  import opened Messages
  import opened FileTransfer
  import opened Publication
  import opened Chars
  import FileNames

  lemma Reached(initial: Directory, first: nat, steps: seq<Step>)
    requires NoLeftovers(initial, first)
    ensures Inv(initial, Run(Start(initial, first), steps))
  {
    StartsInv(initial, first);
    RunKeepsInv(initial, Start(initial, first), steps);
  }

  /** A published file holds just what its own sender's messages lead to, under its own name or the fallback. */
  lemma PublishedExactly(initial: Directory, first: nat, steps: seq<Step>, i: nat)
    requires NoLeftovers(initial, first)
    requires var s := Run(Start(initial, first), steps); i < |s.transfers| && s.transfers[i].phase.Published?
    ensures var s := Run(Start(initial, first), steps);
      var t := s.transfers[i];
      && t.phase.target in s.d && t.phase.target !in initial
      && RunBody(t.start, [], t.incoming) == Body(s.d[t.phase.target], Finished)
      && Publishable(first + i, t.start.name, t.phase.target)
  {
    Reached(initial, first, steps);
    var s := Run(Start(initial, first), steps);
    RunKeepsFirst(Start(initial, first), steps);
    assert OkAt(initial, s.d, s.first, s.transfers, i);
    assert OwnBytes(s.transfers[i]);
  }

  lemma {:induction false} RunKeepsFirst(s: State, steps: seq<Step>)
    ensures Run(s, steps).first == s.first
    decreases |steps|
  {
    if steps != [] {
      RunKeepsFirst(Next(s, steps[0]), steps[1..]);
    }
  }

  /** No two receives are ever published to one path, nor hold one reserved. */
  lemma PathsDistinct(initial: Directory, first: nat, steps: seq<Step>, i: nat, j: nat)
    requires NoLeftovers(initial, first)
    requires var s := Run(Start(initial, first), steps);
      i < |s.transfers| && j < |s.transfers| && i != j && TargetOf(s.transfers[i]).Some?
    ensures var s := Run(Start(initial, first), steps); TargetOf(s.transfers[i]) != TargetOf(s.transfers[j])
  {
    Reached(initial, first, steps);
    assert ApartAt(Run(Start(initial, first), steps).transfers, i, j);
  }

  predicate Over(p: Phase) {
    p.Published? || p.Failed?
  }

  /** A receive that is over has no temporary file. */
  lemma NoTempLeft(initial: Directory, first: nat, steps: seq<Step>, i: nat)
    requires NoLeftovers(initial, first)
    requires var s := Run(Start(initial, first), steps); i < |s.transfers| && Over(s.transfers[i].phase)
    ensures Temp(first + i) !in Run(Start(initial, first), steps).d
  {
    Reached(initial, first, steps);
    RunKeepsFirst(Start(initial, first), steps);
    var s := Run(Start(initial, first), steps);
    assert OkAt(initial, s.d, s.first, s.transfers, i);
  }

  /** The name of an empty file that a failed receive has left behind. */
  function KeptBy(t: Transfer): Option<string> {
    if t.phase.Failed? then t.phase.kept else None
  }

  /**
   Once all receives are over, the directory holds the files it held at first, the published ones, and the empty
   ones that receives whose rename failed had reserved: nothing else.
   */
  lemma NothingElse(initial: Directory, first: nat, steps: seq<Step>, n: string)
    requires NoLeftovers(initial, first)
    requires var s := Run(Start(initial, first), steps); forall t <- s.transfers :: Over(t.phase)
    ensures var s := Run(Start(initial, first), steps);
      n in s.d <==> n in initial || exists t <- s.transfers :: t.phase == Published(n) || KeptBy(t) == Some(n)
  {
    Reached(initial, first, steps);
    var s := Run(Start(initial, first), steps);
    if n in s.d && n !in initial {
      assert HasOwner(s.first, s.transfers, n);
      var i: nat :| OwnsAt(s.first, s.transfers, i, n);
      assert Over(s.transfers[i].phase);
      assert s.transfers[i] in s.transfers;
    }
    forall t | t in s.transfers && (t.phase == Published(n) || KeptBy(t) == Some(n)) ensures n in s.d {
      var i: nat :| i < |s.transfers| && s.transfers[i] == t;
      assert OkAt(initial, s.d, s.first, s.transfers, i);
    }
  }

  // --- Limits -----------------------------------------------------------------------------------

  /** A receive accounts for what it has written, and was offered no more than the limit it was held against. */
  predicate Within(t: Transfer) {
    && Accounts(t.account, t.written)
    && t.account.declared == t.start.declared <= t.limit
  }

  lemma AdvanceStaysWithin(d: Directory, token: nat, t: Transfer, spill: nat)
    requires Within(t)
    ensures Within(Advance(d, token, t, spill).t)
  {
  }

  lemma OfferWithin(id: u32, name: string, size: u64, limit: u64, incoming: seq<Message>)
    requires Begin(id, name, size, limit).Ok?
    ensures Within(Accepted(Begin(id, name, size, limit).value, limit, incoming))
  {
    BeginsExactly(id, name, size, limit, Begin(id, name, size, limit).value);
  }

  ghost predicate AllWithin(s: State) {
    forall t <- s.transfers :: Within(t)
  }

  lemma StepStaysWithin(s: State, step: Step)
    requires AllWithin(s)
    ensures AllWithin(Next(s, step))
  {
    match step
    case Offer(id, name, size, limit, incoming) =>
      if Begin(id, name, size, limit).Ok? {
        OfferWithin(id, name, size, limit, incoming);
      }
    case Proceed(i, spill) =>
      if i < |s.transfers| {
        AdvanceStaysWithin(s.d, s.first + i, s.transfers[i], spill);
      }
    case IoError(i) =>
      if i < |s.transfers| {
        assert Within(s.transfers[i]) && Within(Broken(s.transfers[i]));
      }
  }

  lemma {:induction false} RunStaysWithin(s: State, steps: seq<Step>)
    requires AllWithin(s)
    ensures AllWithin(Run(s, steps))
    decreases |steps|
  {
    if steps != [] {
      StepStaysWithin(s, steps[0]);
      RunStaysWithin(Next(s, steps[0]), steps[1..]);
    }
  }

  /** Every receive was offered no more than its limit, has written no more, and has no more on disk, then or published. */
  lemma LimitHolds(initial: Directory, first: nat, steps: seq<Step>, i: nat)
    requires NoLeftovers(initial, first) && i < |Run(Start(initial, first), steps).transfers|
    ensures var s := Run(Start(initial, first), steps);
      var t := s.transfers[i];
      && |t.written| <= t.start.declared <= t.limit
      && (t.phase.Published? ==> t.phase.target in s.d && |s.d[t.phase.target]| <= t.limit)
      && (!t.phase.Failing? && Temp(first + i) in s.d ==> |s.d[Temp(first + i)]| <= t.limit)
  {
    RunStaysWithin(Start(initial, first), steps);
    Reached(initial, first, steps);
    RunKeepsFirst(Start(initial, first), steps);
    var s := Run(Start(initial, first), steps);
    assert s.transfers[i] in s.transfers;
    assert OkAt(initial, s.d, s.first, s.transfers, i);
  }

  // --- Targets ----------------------------------------------------------------------------------

  /** The number that decimal digits stand for. */
  function ValueOf(s: string): int
    decreases |s|
  {
    if s == "" then 0 else ValueOf(s[..|s| - 1]) * 10 + (s[|s| - 1] as int - '0' as int)
  }

  lemma {:induction false} DecimalReads(n: nat)
    ensures var s := Decimal(n); FileNames.Digits(s) && ValueOf(s) == n && (s[0] == '0' ==> |s| == 1)
    decreases n
  {
    var s := Decimal(n);
    if n < 10 {
      assert s[..0] == "";
    } else {
      DecimalReads(n / 10);
      assert s[..|s| - 1] == Decimal(n / 10) && s[|s| - 1] == Digit(n % 10);
      assert s[0] == Decimal(n / 10)[0];
    }
  }

  /** The name under which a file is put when its own is taken: a decimal number, a hyphen, and its own. */
  ghost predicate Numbered(token: nat, name: string, target: string) {
    exists digits :: target == digits + "-" + name && digits != "" && FileNames.Digits(digits) && ValueOf(digits) == token
  }

  /** A temporary file is hidden, and says its number. */
  lemma TempReads(token: nat) returns (digits: string)
    ensures Temp(token) == ".incoming-" + digits + ".part" && FileNames.Digits(digits) && ValueOf(digits) == token
  {
    DecimalReads(token);
    digits := Decimal(token);
  }

  predicate SafelyNamed(t: Transfer) {
    FileNames.SafeName(t.start.name)
  }

  ghost predicate AllSafelyNamed(s: State) {
    forall t <- s.transfers :: SafelyNamed(t)
  }

  lemma AdvanceKeepsStart(d: Directory, token: nat, t: Transfer, spill: nat)
    ensures Advance(d, token, t, spill).t.start == t.start
  {
  }

  lemma OfferSafelyNamed(id: u32, name: string, size: u64, limit: u64, incoming: seq<Message>)
    requires Begin(id, name, size, limit).Ok?
    ensures SafelyNamed(Accepted(Begin(id, name, size, limit).value, limit, incoming))
  {
    BeginsExactly(id, name, size, limit, Begin(id, name, size, limit).value);
  }

  lemma StepKeepsNames(s: State, step: Step)
    requires AllSafelyNamed(s)
    ensures AllSafelyNamed(Next(s, step))
  {
    match step
    case Offer(id, name, size, limit, incoming) =>
      if Begin(id, name, size, limit).Ok? {
        OfferSafelyNamed(id, name, size, limit, incoming);
      }
    case Proceed(i, spill) =>
      if i < |s.transfers| {
        AdvanceKeepsStart(s.d, s.first + i, s.transfers[i], spill);
        assert SafelyNamed(s.transfers[i]);
      }
    case IoError(i) =>
      if i < |s.transfers| {
        assert SafelyNamed(s.transfers[i]);
      }
  }

  lemma {:induction false} RunKeepsNames(s: State, steps: seq<Step>)
    requires AllSafelyNamed(s)
    ensures AllSafelyNamed(Run(s, steps))
    decreases |steps|
  {
    if steps != [] {
      StepKeepsNames(s, steps[0]);
      RunKeepsNames(Next(s, steps[0]), steps[1..]);
    }
  }

  lemma TargetSafe(token: nat, name: string, target: string)
    requires FileNames.SafeName(name) && Publishable(token, name, target)
    ensures FileNames.SafeName(target) && (target == name || Numbered(token, name, target))
  {
    DecimalReads(token);
    FileNames.NumberedSafe(Decimal(token), name);
  }

  /** Whatever a receive has reserved or published is a safe name: its own, or that behind its number. */
  lemma TargetsSafe(initial: Directory, first: nat, steps: seq<Step>, i: nat)
    requires NoLeftovers(initial, first)
    requires var s := Run(Start(initial, first), steps); i < |s.transfers| && TargetOf(s.transfers[i]).Some?
    ensures var t := Run(Start(initial, first), steps).transfers[i];
      var target := TargetOf(t).value;
      FileNames.SafeName(target) && (target == t.start.name || Numbered(first + i, t.start.name, target))
  {
    RunKeepsNames(Start(initial, first), steps);
    Reached(initial, first, steps);
    RunKeepsFirst(Start(initial, first), steps);
    var s := Run(Start(initial, first), steps);
    assert SafelyNamed(s.transfers[i]);
    assert OkAt(initial, s.d, s.first, s.transfers, i);
    TargetSafe(first + i, s.transfers[i].start.name, TargetOf(s.transfers[i]).value);
  }

  // --- Failed renames ---------------------------------------------------------------------------

  predicate Keeps(s: State, i: nat) {
    i < |s.transfers| && (s.transfers[i].phase.Failing? || s.transfers[i].phase.Failed?) && s.transfers[i].phase.kept.Some?
  }

  predicate MayKeep(s: State, i: nat) {
    i < |s.transfers| && s.transfers[i].phase.Reserved?
  }

  /** In this run an error has interrupted receive `i` between reserving its name and renaming onto it. */
  predicate RenameFails(s: State, steps: seq<Step>, i: nat)
    decreases |steps|
  {
    steps != [] && ((steps[0] == IoError(i) && MayKeep(s, i)) || RenameFails(Next(s, steps[0]), steps[1..], i))
  }

  lemma StepKeeps(initial: Directory, s: State, step: Step, i: nat)
    requires Inv(initial, s)
    ensures Keeps(Next(s, step), i) <==> Keeps(s, i) || (step == IoError(i) && MayKeep(s, i))
  {
    if i < |s.transfers| {
      assert OkAt(initial, s.d, s.first, s.transfers, i);
    }
  }

  lemma {:induction false} RunKeeps(initial: Directory, s: State, steps: seq<Step>, i: nat)
    requires Inv(initial, s)
    ensures Keeps(Run(s, steps), i) <==> Keeps(s, i) || RenameFails(s, steps, i)
    decreases |steps|
  {
    if steps != [] {
      StepKeeps(initial, s, steps[0], i);
      StepKeepsInv(initial, s, steps[0]);
      RunKeeps(initial, Next(s, steps[0]), steps[1..], i);
    }
  }

  /** A failed receive leaves a file behind exactly if its rename failed; that file is new, empty, and under a real name. */
  lemma EmptyFileExactly(initial: Directory, first: nat, steps: seq<Step>, i: nat)
    requires NoLeftovers(initial, first)
    requires var s := Run(Start(initial, first), steps); i < |s.transfers| && s.transfers[i].phase.Failed?
    ensures var s := Run(Start(initial, first), steps);
      var kept := KeptBy(s.transfers[i]);
      && (kept.Some? <==> RenameFails(Start(initial, first), steps, i))
      && (kept.Some? ==> kept.value in s.d && s.d[kept.value] == [] && kept.value !in initial
                         && Publishable(first + i, s.transfers[i].start.name, kept.value))
  {
    StartsInv(initial, first);
    RunKeeps(initial, Start(initial, first), steps, i);
    Reached(initial, first, steps);
    RunKeepsFirst(Start(initial, first), steps);
    var s := Run(Start(initial, first), steps);
    assert OkAt(initial, s.d, s.first, s.transfers, i);
  }

  // One byte is sent, received and flushed, its name is reserved, and the rename fails.

  const BODY: seq<Message> := [FileChunk(0, 0, [7]), FileEnd(0, 1)]
  const SENT := Accepted(Account(0, "a", 1, 0, 0), 1, BODY)
  const RECEIVED := Transfer(Account(0, "a", 1, 0, 0), 1, BODY, Account(0, "a", 1, 1, 1), [7], [], Flushed)

  const RECEIVING := SENT.(phase := Receiving(0))
  const ENDING := RECEIVED.(left := BODY[1..], phase := Receiving(1))

  lemma TempCreated()
    ensures Advance(map[], 0, SENT, 0) == Outcome(map[Temp(0) := []], RECEIVING)
  {
  }

  lemma ByteReceived()
    ensures Advance(map[Temp(0) := []], 0, RECEIVING, 1) == Outcome(map[Temp(0) := [7]], ENDING)
  {
    var start := RECEIVING.account;
    assert TakeMessage(start, BODY[0]) == More(RECEIVED.account, [7]);
    assert [] + [7 as byte] == [7] && [7 as byte][..1] == [7];
    assert Spilled(0, 1, 1) == 1;
  }

  lemma ByteFlushed()
    ensures Advance(map[Temp(0) := [7]], 0, ENDING, 0) == Outcome(map[Temp(0) := [7]], RECEIVED)
  {
    assert TakeMessage(RECEIVED.account, BODY[1]) == FileTransfer.Ended(Finished);
    assert BODY[1..][1..] == [];
  }

  lemma NameReserved()
    ensures Advance(map[Temp(0) := [7]], 0, RECEIVED, 0)
         == Outcome(map[Temp(0) := [7], "a" := []], RECEIVED.(phase := Reserved("a")))
  {
    assert Temp(0)[0] == '.';
  }

  lemma TempRemoved()
    ensures Advance(map[Temp(0) := [7], "a" := []], 0, RECEIVED.(phase := Failing(Some("a"))), 0)
         == Outcome(map["a" := []], RECEIVED.(phase := Failed(Some("a"))))
  {
    assert Temp(0)[0] == '.';
    assert map[Temp(0) := [7], "a" := []] - {Temp(0)} == map["a" := []];
  }

  /** One step more, taken by the only receive. */
  lemma OnlyReceive(steps: seq<Step>, d: Directory, t: Transfer, spill: nat, o: Outcome) returns (more: seq<Step>)
    requires Run(Start(map[], 0), steps) == State(d, 0, [t]) && Advance(d, 0, t, spill) == o
    ensures Run(Start(map[], 0), more) == State(o.d, 0, [o.t])
  {
    more := steps + [Proceed(0, spill)];
    RunOn(Start(map[], 0), steps, [Proceed(0, spill)]);
    var s := State(d, 0, [t]);
    assert Run(s, [Proceed(0, spill)]) == Run(Next(s, Proceed(0, spill)), []);
  }

  lemma OnlyError(steps: seq<Step>, d: Directory, t: Transfer) returns (more: seq<Step>)
    requires Run(Start(map[], 0), steps) == State(d, 0, [t]) && MayBreak(t.phase)
    ensures Run(Start(map[], 0), more) == State(d, 0, [Broken(t)])
  {
    more := steps + [IoError(0)];
    RunOn(Start(map[], 0), steps, [IoError(0)]);
    var s := State(d, 0, [t]);
    assert Run(s, [IoError(0)]) == Run(Next(s, IoError(0)), []);
  }

  lemma ExampleOpens(size: u64, limit: u64)
    requires size <= limit
    ensures Begin(0, "a", size, limit) == Ok(Account(0, "a", size, 0, 0))
  {
    SafeExample();
    assert "a" == "" + "a";
    FileNames.SanitizeExactly("a", "a");
  }

  lemma ByteOffered() returns (steps: seq<Step>)
    ensures Run(Start(map[], 0), steps) == State(map[], 0, [SENT])
  {
    ExampleOpens(1, 1);
    var offer, start := Offer(0, "a", 1, 1, BODY), Start(map[], 0);
    OfferOpens(start, offer, SENT.start);
    steps := [offer];
    assert Run(start, steps) == Run(Next(start, offer), []);
    assert [] + [SENT] == [SENT];
  }

  /** From an empty directory, a failed rename leaves an empty file under the name of a file of one byte. */
  lemma EmptyFileLeft() returns (steps: seq<Step>)
    ensures Run(Start(map[], 0), steps) == State(map["a" := []], 0, [RECEIVED.(phase := Failed(Some("a")))])
  {
    TempCreated();
    ByteReceived();
    ByteFlushed();
    NameReserved();
    TempRemoved();
    steps := ByteOffered();
    steps := OnlyReceive(steps, map[], SENT, 0, Outcome(map[Temp(0) := []], RECEIVING));
    steps := OnlyReceive(steps, map[Temp(0) := []], RECEIVING, 1, Outcome(map[Temp(0) := [7]], ENDING));
    steps := OnlyReceive(steps, map[Temp(0) := [7]], ENDING, 0, Outcome(map[Temp(0) := [7]], RECEIVED));
    var reserved, d := RECEIVED.(phase := Reserved("a")), map[Temp(0) := [7], "a" := []];
    steps := OnlyReceive(steps, map[Temp(0) := [7]], RECEIVED, 0, Outcome(d, reserved));
    steps := OnlyError(steps, d, reserved);
    steps := OnlyReceive(steps, d, Broken(reserved), 0, Outcome(map["a" := []], RECEIVED.(phase := Failed(Some("a")))));
  }

  lemma StepKeepsPublished(s: State, step: Step, i: nat)
    requires i < |s.transfers| && s.transfers[i].phase.Published?
    ensures i < |Next(s, step).transfers| && Next(s, step).transfers[i] == s.transfers[i]
  {
  }

  lemma {:induction false} RunKeepsPublished(s: State, steps: seq<Step>, i: nat)
    requires i < |s.transfers| && s.transfers[i].phase.Published?
    ensures i < |Run(s, steps).transfers| && Run(s, steps).transfers[i] == s.transfers[i]
    decreases |steps|
  {
    if steps != [] {
      StepKeepsPublished(s, steps[0], i);
      RunKeepsPublished(Next(s, steps[0]), steps[1..], i);
    }
  }

  lemma {:induction false} RunOn(s: State, steps: seq<Step>, more: seq<Step>)
    ensures Run(s, steps + more) == Run(Run(s, steps), more)
    decreases |steps|
  {
    if steps == [] {
      assert steps + more == more;
    } else {
      assert (steps + more)[0] == steps[0] && (steps + more)[1..] == steps[1..] + more;
      RunOn(Next(s, steps[0]), steps[1..], more);
    }
  }

  /** Whatever happens after a file is published, it stays there as it is. */
  lemma PublishedForever(initial: Directory, first: nat, steps: seq<Step>, more: seq<Step>, i: nat)
    requires NoLeftovers(initial, first)
    requires var s := Run(Start(initial, first), steps); i < |s.transfers| && s.transfers[i].phase.Published?
    ensures var s, later := Run(Start(initial, first), steps), Run(Start(initial, first), steps + more);
      var target := s.transfers[i].phase.target;
      target in s.d && target in later.d && later.d[target] == s.d[target]
  {
    var s, later := Run(Start(initial, first), steps), Run(Start(initial, first), steps + more);
    RunOn(Start(initial, first), steps, more);
    RunKeepsPublished(s, more, i);
    PublishedExactly(initial, first, steps, i);
    PublishedExactly(initial, first, steps + more, i);
  }

  /** A file published from an honest sender's messages, in whatever order and number they arrive, is the one sent. */
  lemma HonestFilePublished(initial: Directory, first: nat, steps: seq<Step>, i: nat,
                            id: u32, name: string, data: seq<byte>, size: nat, limit: u64)
    requires NoLeftovers(initial, first) && 1 <= size <= MAX_CHUNK_SIZE && CeilDiv(|data|, size) < 0x1_0000_0000
    requires var s := Run(Start(initial, first), steps); i < |s.transfers| && s.transfers[i].phase.Published?
    requires var t := Run(Start(initial, first), steps).transfers[i];
      Opens(id, name, data, limit, t.start) && forall m <- t.incoming :: m in Plan(id, name, data, size)
    ensures var s := Run(Start(initial, first), steps);
      s.transfers[i].phase.target in s.d && s.d[s.transfers[i].phase.target] == data
  {
    var t := Run(Start(initial, first), steps).transfers[i];
    PublishedExactly(initial, first, steps, i);
    Shuffled(id, name, data, size, limit, t.start, t.incoming);
  }

  // --- Files that were there before -------------------------------------------------------------

  lemma SafeExample()
    ensures FileNames.SafeName("a")
  {
    assert 'a' in "a";
    BeforeFirst("a", '.', "");
    assert AsciiUpper("a")[0] == 'A' && |AsciiUpper("a")| == 1;
  }

  /** Some offer is accepted. */
  lemma SomeOfferOpens() returns (offer: Step, start: Account)
    ensures Admits(offer, start)
  {
    ExampleOpens(0, 0);
    offer, start := Offer(0, "a", 0, 0, []), Account(0, "a", 0, 0, 0);
  }

  predicate Admits(offer: Step, start: Account) {
    offer.Offer? && Begin(offer.id, offer.name, offer.size, offer.limit) == Ok(start)
  }

  function Offers(offer: Step, n: nat): (steps: seq<Step>)
    ensures |steps| == n && forall i :: 0 <= i < n ==> steps[i] == offer
  {
    seq(n, _ => offer)
  }

  lemma OffersFront(offer: Step, n: nat)
    requires n > 0
    ensures Offers(offer, n)[0] == offer && Offers(offer, n)[1..] == Offers(offer, n - 1)
  {
  }

  lemma OfferOpens(s: State, offer: Step, start: Account)
    requires Admits(offer, start)
    ensures Next(s, offer) == s.(transfers := s.transfers + [Accepted(start, offer.limit, offer.incoming)])
  {
  }

  lemma RunOffers(s: State, offer: Step, start: Account, n: nat, next: State)
    requires Admits(offer, start) && n > 0
    requires next == s.(transfers := s.transfers + [Accepted(start, offer.limit, offer.incoming)])
    ensures Run(s, Offers(offer, n)) == Run(next, Offers(offer, n - 1))
  {
    OfferOpens(s, offer, start);
    OffersFront(offer, n);
  }

  /** This many equal receives behind the others. */
  function WithMore(s: State, t: Transfer, n: nat): (r: State)
    ensures r.d == s.d && r.first == s.first && |r.transfers| == |s.transfers| + n
    ensures n > 0 ==> r.transfers[|r.transfers| - 1] == t
    decreases n
  {
    if n == 0 then s else WithMore(s.(transfers := s.transfers + [t]), t, n - 1)
  }

  lemma {:induction false} OffersOpen(s: State, offer: Step, start: Account, n: nat)
    requires Admits(offer, start)
    ensures Run(s, Offers(offer, n)) == WithMore(s, Accepted(start, offer.limit, offer.incoming), n)
    decreases n
  {
    if n > 0 {
      var next := s.(transfers := s.transfers + [Accepted(start, offer.limit, offer.incoming)]);
      RunOffers(s, offer, start, n, next);
      OffersOpen(next, offer, start, n - 1);
    }
  }

  lemma RunTwo(s: State, a: Step, b: Step)
    ensures Run(s, [a, b]) == Next(Next(s, a), b)
  {
    assert [a, b][1..] == [b];
    assert Run(Next(s, a), [b]) == Run(Next(Next(s, a), b), []);
  }

  lemma GivesUp(d: Directory, token: nat, t: Transfer)
    requires t.phase.Arriving? && Temp(token) in d
    ensures Advance(d, token, t, 0) == Outcome(d, t.(phase := Failing(None)))
  {
  }

  lemma CleansUp(d: Directory, token: nat, t: Transfer)
    requires t.phase == Failing(None)
    ensures Advance(d, token, t, 0) == Outcome(d - {Temp(token)}, t.(phase := Failed(None)))
  {
  }

  lemma ProceedsTo(s: State, i: nat, o: Outcome)
    requires i < |s.transfers| && Advance(s.d, s.first + i, s.transfers[i], 0) == o
    ensures Next(s, Proceed(i, 0)) == State(o.d, s.first, s.transfers[i := o.t])
  {
  }

  /** A receive whose temporary name is taken gives up, and its clean-up removes the file that is there. */
  lemma TakenTempRemoved(s: State, i: nat)
    requires i < |s.transfers| && s.transfers[i].phase.Arriving? && Temp(s.first + i) in s.d
    ensures Run(s, [Proceed(i, 0), Proceed(i, 0)]).d == s.d - {Temp(s.first + i)}
  {
    var token, failing := s.first + i, s.transfers[i].(phase := Failing(None));
    GivesUp(s.d, token, s.transfers[i]);
    ProceedsTo(s, i, Outcome(s.d, failing));
    var between := State(s.d, s.first, s.transfers[i := failing]);
    CleansUp(s.d, token, failing);
    ProceedsTo(between, i, Outcome(s.d - {Temp(token)}, failing.(phase := Failed(None))));
    RunTwo(s, Proceed(i, 0), Proceed(i, 0));
  }

  lemma Missing(initial: Directory, d: Directory, n: string)
    requires n in initial && n !in d
    ensures !Untouched(initial, d)
  {
  }

  /** There are steps after which this many more receives have been accepted and have done nothing yet. */
  lemma OffersRun(s: State, n: nat) returns (offers: seq<Step>, t: Transfer)
    ensures Run(s, offers) == WithMore(s, t, n) && t.phase.Arriving?
  {
    var offer, start := SomeOfferOpens();
    offers, t := Offers(offer, n), Accepted(start, offer.limit, offer.incoming);
    OffersOpen(s, offer, start, n);
  }

  lemma LeftoverRemoved(initial: Directory, first: nat, token: nat) returns (steps: seq<Step>)
    requires token >= first && Temp(token) in initial
    ensures !Untouched(initial, Run(Start(initial, first), steps).d)
  {
    var i, start := token - first, Start(initial, first);
    var offers, t := OffersRun(start, i + 1);
    var s, two := WithMore(start, t, i + 1), [Proceed(i, 0), Proceed(i, 0)];
    TakenTempRemoved(s, i);
    RunOn(start, offers, two);
    steps := offers + two;
    Missing(initial, Run(s, two).d, Temp(token));
  }

  /** Files that were there before are kept in every run exactly if none has a temporary name still to be used. */
  lemma FilesKept(initial: Directory, first: nat)
    ensures NoLeftovers(initial, first) <==> forall steps :: Untouched(initial, Run(Start(initial, first), steps).d)
  {
    if NoLeftovers(initial, first) {
      forall steps ensures Untouched(initial, Run(Start(initial, first), steps).d) {
        Reached(initial, first, steps);
      }
    } else {
      var token: nat :| token >= first && Temp(token) in initial;
      var steps := LeftoverRemoved(initial, first, token);
    }
  }

  // --- A receive left alone ---------------------------------------------------------------------

  /** The steps of one receive with no other in between. */
  function Undisturbed(d: Directory, token: nat, t: Transfer, n: nat): Outcome
    decreases n
  {
    if n == 0 then Outcome(d, t) else var o := Advance(d, token, t, 0); Undisturbed(o.d, token, o.t, n - 1)
  }

  /** Where a complete file goes: to its name, else to the fallback, else nowhere. */
  function Placed(d: Directory, token: nat, name: string, data: seq<byte>): (Directory, Option<string>) {
    if name !in d then (d[name := data], Some(name))
    else if Alternative(token, name) !in d then (d[Alternative(token, name) := data], Some(Alternative(token, name)))
    else (d, None)
  }

  /** What a receive does to the directory, and the path it reports. */
  function ReceiveAlone(d: Directory, token: nat, start: Account, incoming: seq<Message>): (Directory, Option<string>) {
    if Temp(token) in d then (d - {Temp(token)}, None)
    else
      var body := RunBody(start, [], incoming);
      if body.verdict.Finished? then Placed(d, token, start.name, body.written) else (d, None)
  }

  /** The outcome is over, and is this directory and this path. */
  predicate Settles(o: Outcome, result: (Directory, Option<string>)) {
    o.d == result.0 && o.t.phase == match result.1 case Some(target) => Published(target) case None => Failed(None)
  }

  lemma {:induction false} StaysOver(d: Directory, token: nat, t: Transfer, n: nat)
    requires Over(t.phase)
    ensures Undisturbed(d, token, t, n) == Outcome(d, t)
    decreases n
  {
    if n > 0 {
      StaysOver(d, token, t, n - 1);
    }
  }

  lemma FailingSettles(d: Directory, token: nat, t: Transfer, n: nat)
    requires t.phase == Failing(None) && n >= 1
    ensures Settles(Undisturbed(d, token, t, n), (d - {Temp(token)}, None))
  {
    var o := Advance(d, token, t, 0);
    StaysOver(o.d, token, o.t, n - 1);
  }

  lemma ReservedSettles(d: Directory, token: nat, t: Transfer, target: string, data: seq<byte>, n: nat)
    requires Temp(token) !in d && target !in d && target != Temp(token) && n >= 1
    requires t.phase == Reserved(target)
    ensures Settles(Undisturbed(d[Temp(token) := data][target := []], token, t, n), (d[target := data], Some(target)))
  {
    var held := d[Temp(token) := data][target := []];
    var o := Advance(held, token, t, 0);
    assert (held - {Temp(token)})[target := data] == d[target := data];
    StaysOver(o.d, token, o.t, n - 1);
  }

  lemma ClashedSettles(d: Directory, token: nat, t: Transfer, data: seq<byte>, n: nat)
    requires Temp(token) !in d && NotHidden(t.start.name) && n >= 2
    requires t.phase.Clashed? && t.start.name in d
    ensures Settles(Undisturbed(d[Temp(token) := data], token, t, n), Placed(d, token, t.start.name, data))
  {
    var held, target := d[Temp(token) := data], Alternative(token, t.start.name);
    TargetIsNoTemp(token, t.start.name, target, token);
    var o := Advance(held, token, t, 0);
    if target in d {
      assert held - {Temp(token)} == d;
      FailingSettles(held, token, o.t, n - 1);
    } else {
      ReservedSettles(d, token, o.t, target, data, n - 1);
    }
  }

  lemma FlushedSettles(d: Directory, token: nat, t: Transfer, data: seq<byte>, n: nat)
    requires Temp(token) !in d && NotHidden(t.start.name) && n >= 3
    requires t.phase.Flushed?
    ensures Settles(Undisturbed(d[Temp(token) := data], token, t, n), Placed(d, token, t.start.name, data))
  {
    var held, name := d[Temp(token) := data], t.start.name;
    TargetIsNoTemp(token, name, name, token);
    var o := Advance(held, token, t, 0);
    if name in d {
      ClashedSettles(d, token, o.t, data, n - 1);
    } else {
      ReservedSettles(d, token, o.t, name, data, n - 1);
    }
  }

  /** Where the receive of a body ends. */
  function BodyPlaced(d: Directory, token: nat, t: Transfer): (Directory, Option<string>) {
    var body := RunBody(t.account, t.written, t.left);
    if body.verdict.Finished? then Placed(d, token, t.start.name, body.written) else (d, None)
  }

  lemma {:induction false} ReceivingSettles(d: Directory, token: nat, t: Transfer, n: nat)
    requires Temp(token) !in d && NotHidden(t.start.name) && n >= |t.left| + 4
    requires t.phase == Receiving(0)
    ensures Settles(Undisturbed(d[Temp(token) := []], token, t, n), BodyPlaced(d, token, t))
    decreases |t.left|
  {
    var held := d[Temp(token) := []];
    var o := ReceiveNext(held, token, t, 0);
    assert held - {Temp(token)} == d;
    if t.left == [] {
      FailingSettles(held, token, o.t, n - 1);
    } else {
      TakeUnfolds(t.account, t.written, t.left);
      match TakeMessage(t.account, t.left[0])
      case More(a, bytes) =>
        assert held[Temp(token) := []] == held;
        ReceivingSettles(d, token, o.t, n - 1);
      case Ended(verdict) =>
        if verdict.Finished? {
          assert held[Temp(token) := t.written] == d[Temp(token) := t.written];
          FlushedSettles(d, token, o.t, t.written, n - 1);
        } else {
          FailingSettles(held, token, o.t, n - 1);
        }
    }
  }

  /** An accepted offer, left alone, is over within a step for each message and six more, with this result. */
  lemma AloneSettles(d: Directory, token: nat, start: Account, limit: u64, incoming: seq<Message>, n: nat)
    requires NotHidden(start.name) && n >= |incoming| + 6
    ensures Settles(Undisturbed(d, token, Accepted(start, limit, incoming), n), ReceiveAlone(d, token, start, incoming))
  {
    var o := Advance(d, token, Accepted(start, limit, incoming), 0);
    if Temp(token) in d {
      FailingSettles(d, token, o.t, n - 1);
    } else {
      ReceivingSettles(d, token, o.t, n - 1);
    }
  }
}
