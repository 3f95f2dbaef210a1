/** Concurrent receives into one directory: temporary files, reserved names and renames, one atomic step at a time. */
module Publication {
  import opened Wrappers
  import opened MachineInts
  import opened Messages
  import opened FileTransfer
  import FileNames

  // --- Names ------------------------------------------------------------------------------------

  function Digit(n: nat): char
    requires n < 10
  {
    ('0' as int + n) as char
  }

  function Decimal(n: nat): (s: string)
    ensures s != [] && '0' <= s[0] <= '9'
  {
    if n < 10 then [Digit(n)] else Decimal(n / 10) + [Digit(n % 10)]
  }

  lemma {:induction false} DecimalInjective(m: nat, n: nat)
    requires Decimal(m) == Decimal(n)
    ensures m == n
    decreases m
  {
    var s, t := Decimal(m), Decimal(n);
    assert s[|s| - 1] == Digit(m % 10) && t[|t| - 1] == Digit(n % 10);
    if m >= 10 && n >= 10 {
      assert Decimal(m / 10) == s[..|s| - 1] && Decimal(n / 10) == t[..|t| - 1];
      DecimalInjective(m / 10, n / 10);
    }
  }

  function Temp(token: nat): string {
    ".incoming-" + Decimal(token) + ".part"
  }

  function Alternative(token: nat, name: string): string {
    Decimal(token) + "-" + name
  }

  lemma TempsDiffer(a: nat, b: nat)
    requires Temp(a) == Temp(b)
    ensures a == b
  {
    var s := Temp(a);
    assert Decimal(a) == s[10..|s| - 5];
    assert Decimal(b) == s[10..|s| - 5];
    DecimalInjective(a, b);
  }

  predicate NotHidden(name: string) {
    name != [] && name[0] != '.'
  }

  /** A name a received file may be published under. */
  predicate Publishable(token: nat, name: string, target: string) {
    target == name || target == Alternative(token, name)
  }

  lemma TargetIsNoTemp(token: nat, name: string, target: string, other: nat)
    requires NotHidden(name) && Publishable(token, name, target)
    ensures target != Temp(other)
  {
    assert Temp(other)[0] == '.';
    assert Alternative(token, name)[0] == Decimal(token)[0];
  }

  // --- The directory ----------------------------------------------------------------------------

  type Directory = map<string, seq<byte>>

  /** Creates an empty file, unless the name is taken. */
  function CreateNew(d: Directory, name: string): Option<Directory> {
    if name in d then None else Some(d[name := []])
  }

  function Write(d: Directory, name: string, bytes: seq<byte>): Directory {
    if name in d then d[name := bytes] else d
  }

  function Rename(d: Directory, from: string, to: string): Directory
    requires from in d
  {
    (d - {from})[to := d[from]]
  }

  // --- One receive ------------------------------------------------------------------------------

  /** `kept`: the name a receive that is failing has reserved and, its rename having failed, does not give back. */
  datatype Phase =
    | Arriving
    | Receiving(flushed: nat)
    | Flushed
    | Clashed
    | Reserved(target: string)
    | Published(target: string)
    | Failing(kept: Option<string>)
    | Failed(kept: Option<string>)

  /** An accepted offer, the limit it was held against, what its sender goes on to send, and how far receiving it has come. */
  datatype Transfer = Transfer(
    start: Account, limit: u64, incoming: seq<Message>, account: Account, written: seq<byte>, left: seq<Message>, phase: Phase)

  function Accepted(start: Account, limit: u64, incoming: seq<Message>): Transfer {
    Transfer(start, limit, incoming, start, [], incoming, Arriving)
  }

  datatype Outcome = Outcome(d: Directory, t: Transfer)

  /** How many of `len` buffered bytes are in the file, if that can be `wanted` of them, and `before` were. */
  function Spilled(before: nat, wanted: nat, len: nat): (k: nat)
    ensures k <= len && (before <= len ==> k >= before)
  {
    if before <= wanted <= len then wanted else if before <= len then before else len
  }

  /** Handles the next message; `spill` is how much the write buffer has let through to the file by then. */
  function ReceiveNext(d: Directory, token: nat, t: Transfer, spill: nat): Outcome
    requires t.phase.Receiving?
  {
    if t.left == [] then Outcome(d, t.(phase := Failing(None)))
    else
      match TakeMessage(t.account, t.left[0])
      case More(a, bytes) =>
        var written := t.written + bytes;
        var k := Spilled(t.phase.flushed, spill, |written|);
        Outcome(Write(d, Temp(token), written[..k]),
                t.(account := a, written := written, left := t.left[1..], phase := Receiving(k)))
      case Ended(verdict) =>
        if verdict.Finished? then Outcome(Write(d, Temp(token), t.written), t.(left := t.left[1..], phase := Flushed))
        else Outcome(d, t.(phase := Failing(None)))
  }

  /** The next atomic step of a receive. */
  function Advance(d: Directory, token: nat, t: Transfer, spill: nat): Outcome {
    match t.phase
    case Arriving =>
      (match CreateNew(d, Temp(token))
       case Some(e) => Outcome(e, t.(phase := Receiving(0)))
       case None => Outcome(d, t.(phase := Failing(None))))
    case Receiving(_) => ReceiveNext(d, token, t, spill)
    case Flushed =>
      (match CreateNew(d, t.start.name)
       case Some(e) => Outcome(e, t.(phase := Reserved(t.start.name)))
       case None => Outcome(d, t.(phase := Clashed)))
    case Clashed =>
      (match CreateNew(d, Alternative(token, t.start.name))
       case Some(e) => Outcome(e, t.(phase := Reserved(Alternative(token, t.start.name))))
       case None => Outcome(d, t.(phase := Failing(None))))
    case Reserved(target) =>
      if Temp(token) in d then Outcome(Rename(d, Temp(token), target), t.(phase := Published(target)))
      else Outcome(d, t.(phase := Failing(Some(target))))
    case Failing(kept) => Outcome(d - {Temp(token)}, t.(phase := Failed(kept)))
    case Published(_) => Outcome(d, t)
    case Failed(_) => Outcome(d, t)
  }

  // --- All of them ------------------------------------------------------------------------------

  /** The i-th accepted offer has the token `first + i`. */
  datatype State = State(d: Directory, first: nat, transfers: seq<Transfer>)

  datatype Step =
    | Offer(id: u32, name: string, size: u64, limit: u64, incoming: seq<Message>)
    | Proceed(i: nat, spill: nat)
    | IoError(i: nat)

  function Next(s: State, step: Step): State {
    match step
    case Offer(id, name, size, limit, incoming) =>
      (match Begin(id, name, size, limit)
       case Ok(start) => s.(transfers := s.transfers + [Accepted(start, limit, incoming)])
       case Err(_) => s)
    case Proceed(i, spill) =>
      if i < |s.transfers| then
        var o := Advance(s.d, s.first + i, s.transfers[i], spill);
        State(o.d, s.first, s.transfers[i := o.t])
      else s
    case IoError(i) =>
      if i < |s.transfers| && MayBreak(s.transfers[i].phase) then
        s.(transfers := s.transfers[i := Broken(s.transfers[i])])
      else s
  }

  /** Where an error other than a taken name can interrupt a receive: anywhere but in removing its temporary file. */
  predicate MayBreak(p: Phase) {
    p.Arriving? || p.Receiving? || p.Flushed? || p.Clashed? || p.Reserved?
  }

  /** It goes on to its clean-up, which does not remove the empty file it may have reserved. */
  function Broken(t: Transfer): Transfer {
    t.(phase := Failing(TargetOf(t)))
  }

  function Run(s: State, steps: seq<Step>): State
    decreases |steps|
  {
    if steps == [] then s else Run(Next(s, steps[0]), steps[1..])
  }

  function Start(initial: Directory, first: nat): State {
    State(initial, first, [])
  }

  // --- The invariant ----------------------------------------------------------------------------

  function TargetOf(t: Transfer): Option<string> {
    match t.phase
    case Reserved(target) => Some(target)
    case Published(target) => Some(target)
    case Failing(kept) => kept
    case Failed(kept) => kept
    case _ => None
  }

  /** The bytes so far are those its own sender's messages lead to. */
  predicate OwnBytes(t: Transfer) {
    var body := RunBody(t.start, [], t.incoming);
    match t.phase
    case Arriving => t.account == t.start && t.written == [] && t.left == t.incoming
    case Receiving(flushed) => flushed <= |t.written| && body == RunBody(t.account, t.written, t.left)
    case Failing(_) => true
    case Failed(_) => true
    case _ => body == Body(t.written, Finished)
  }

  /** What of a receive stands in the directory. */
  predicate OnDisk(d: Directory, token: nat, t: Transfer) {
    var temp := Temp(token);
    match t.phase
    case Arriving => temp !in d
    case Receiving(flushed) => flushed <= |t.written| && temp in d && d[temp] == t.written[..flushed]
    case Flushed => temp in d && d[temp] == t.written
    case Clashed => temp in d && d[temp] == t.written
    case Reserved(target) => temp in d && d[temp] == t.written && target in d && d[target] == []
    case Published(target) => temp !in d && target in d && d[target] == t.written
    case Failing(kept) => kept.Some? ==> kept.value in d && d[kept.value] == []
    case Failed(kept) => temp !in d && (kept.Some? ==> kept.value in d && d[kept.value] == [])
  }

  predicate TransferOk(initial: Directory, d: Directory, token: nat, t: Transfer) {
    && NotHidden(t.start.name)
    && OnDisk(d, token, t)
    && (TargetOf(t).Some? ==> Publishable(token, t.start.name, TargetOf(t).value) && TargetOf(t).value !in initial)
  }

  predicate Owns(token: nat, t: Transfer, name: string) {
    || TargetOf(t) == Some(name)
    || (name == Temp(token) && !t.phase.Arriving? && !t.phase.Published? && !t.phase.Failed?)
  }

  ghost predicate Untouched(initial: Directory, d: Directory) {
    forall n :: n in initial ==> n in d && d[n] == initial[n]
  }

  /** No temporary name of this process is taken before it starts. */
  ghost predicate NoLeftovers(initial: Directory, first: nat) {
    forall token: nat :: token >= first ==> Temp(token) !in initial
  }

  predicate OwnsAt(first: nat, ts: seq<Transfer>, i: nat, name: string) {
    i < |ts| && Owns(first + i, ts[i], name)
  }

  ghost predicate HasOwner(first: nat, ts: seq<Transfer>, name: string) {
    exists i: nat :: OwnsAt(first, ts, i, name)
  }

  ghost predicate Owned(initial: Directory, d: Directory, first: nat, ts: seq<Transfer>) {
    forall n :: n in d ==> n in initial || HasOwner(first, ts, n)
  }

  predicate Apart(t: Transfer, u: Transfer) {
    TargetOf(t).None? || TargetOf(t) != TargetOf(u)
  }

  predicate OkAt(initial: Directory, d: Directory, first: nat, ts: seq<Transfer>, i: nat) {
    i < |ts| ==> TransferOk(initial, d, first + i, ts[i])
  }

  ghost predicate AllOk(initial: Directory, d: Directory, first: nat, ts: seq<Transfer>) {
    forall i: nat :: OkAt(initial, d, first, ts, i)
  }

  predicate ApartAt(ts: seq<Transfer>, i: nat, j: nat) {
    i < |ts| && j < |ts| && i != j ==> Apart(ts[i], ts[j])
  }

  ghost predicate AllApart(ts: seq<Transfer>) {
    forall i: nat, j: nat :: ApartAt(ts, i, j)
  }

  ghost predicate AllOwn(ts: seq<Transfer>) {
    forall t <- ts :: OwnBytes(t)
  }

  ghost predicate Inv(initial: Directory, s: State) {
    && NoLeftovers(initial, s.first)
    && Untouched(initial, s.d)
    && Owned(initial, s.d, s.first, s.transfers)
    && AllOk(initial, s.d, s.first, s.transfers)
    && AllApart(s.transfers)
    && AllOwn(s.transfers)
  }

  // --- One step ---------------------------------------------------------------------------------

  /** The directories agree on every other name. */
  ghost predicate SameBut(d: Directory, e: Directory, a: string, b: Option<string>) {
    forall n :: n != a && Some(n) != b ==> (n in d <==> n in e) && (n in d ==> d[n] == e[n])
  }

  /** What a step of one receive does: it keeps in order, touches its own names only, and takes a free name if any. */
  ghost predicate Steps(initial: Directory, d: Directory, token: nat, t: Transfer, o: Outcome) {
    && TransferOk(initial, o.d, token, o.t)
    && o.t.start == t.start && o.t.incoming == t.incoming
    && SameBut(d, o.d, Temp(token), TargetOf(o.t))
    && (TargetOf(t).Some? ==> TargetOf(o.t) == TargetOf(t))
    && (TargetOf(t).None? && TargetOf(o.t).Some? ==> TargetOf(o.t).value !in d)
    && (Temp(token) in o.d ==> Owns(token, o.t, Temp(token)))
  }

  /** Giving up leaves the temporary file, if there is one, for the clean-up. */
  lemma GiveUpSteps(initial: Directory, d: Directory, token: nat, t: Transfer)
    requires TransferOk(initial, d, token, t) && MayBreak(t.phase)
    ensures Steps(initial, d, token, t, Outcome(d, Broken(t)))
  {
  }

  lemma TakeMoreSteps(initial: Directory, d: Directory, token: nat, t: Transfer, u: Transfer, k: nat)
    requires TransferOk(initial, d, token, t) && t.phase.Receiving?
    requires k <= |u.written| && u == t.(account := u.account, written := u.written, left := u.left, phase := Receiving(k))
    requires t.written <= u.written && t.phase.flushed <= k
    ensures Steps(initial, d, token, t, Outcome(Write(d, Temp(token), u.written[..k]), u))
  {
  }

  lemma FlushSteps(initial: Directory, d: Directory, token: nat, t: Transfer, left: seq<Message>)
    requires TransferOk(initial, d, token, t) && t.phase.Receiving?
    ensures Steps(initial, d, token, t, Outcome(Write(d, Temp(token), t.written), t.(left := left, phase := Flushed)))
  {
  }

  lemma ReceiveNextSteps(initial: Directory, d: Directory, token: nat, t: Transfer, spill: nat)
    requires TransferOk(initial, d, token, t) && t.phase.Receiving?
    ensures Steps(initial, d, token, t, ReceiveNext(d, token, t, spill))
  {
    GiveUpSteps(initial, d, token, t);
    if t.left != [] {
      match TakeMessage(t.account, t.left[0])
      case More(a, bytes) =>
        var k := Spilled(t.phase.flushed, spill, |t.written + bytes|);
        var u := t.(account := a, written := t.written + bytes, left := t.left[1..], phase := Receiving(k));
        TakeMoreSteps(initial, d, token, t, u, k);
      case Ended(verdict) =>
        if verdict.Finished? {
          FlushSteps(initial, d, token, t, t.left[1..]);
        }
    }
  }

  lemma ReserveSteps(initial: Directory, d: Directory, token: nat, t: Transfer, target: string)
    requires TransferOk(initial, d, token, t) && (t.phase.Flushed? || t.phase.Clashed?) && Untouched(initial, d)
    requires Publishable(token, t.start.name, target) && target !in d
    ensures Steps(initial, d, token, t, Outcome(d[target := []], t.(phase := Reserved(target))))
  {
    TargetIsNoTemp(token, t.start.name, target, token);
  }

  lemma ClashSteps(initial: Directory, d: Directory, token: nat, t: Transfer)
    requires TransferOk(initial, d, token, t) && t.phase.Flushed?
    ensures Steps(initial, d, token, t, Outcome(d, t.(phase := Clashed)))
  {
  }

  lemma PublishSteps(initial: Directory, d: Directory, token: nat, t: Transfer)
    requires TransferOk(initial, d, token, t) && (t.phase.Flushed? || t.phase.Clashed?) && Untouched(initial, d)
    ensures Steps(initial, d, token, t, Advance(d, token, t, 0))
  {
    var target := if t.phase.Flushed? then t.start.name else Alternative(token, t.start.name);
    if target !in d {
      ReserveSteps(initial, d, token, t, target);
    } else if t.phase.Flushed? {
      ClashSteps(initial, d, token, t);
    } else {
      GiveUpSteps(initial, d, token, t);
    }
  }

  lemma RenameSteps(initial: Directory, d: Directory, token: nat, t: Transfer)
    requires TransferOk(initial, d, token, t) && t.phase.Reserved?
    ensures Steps(initial, d, token, t, Advance(d, token, t, 0))
  {
    TargetIsNoTemp(token, t.start.name, t.phase.target, token);
  }

  lemma CleanUpSteps(initial: Directory, d: Directory, token: nat, t: Transfer)
    requires TransferOk(initial, d, token, t) && t.phase.Failing?
    ensures Steps(initial, d, token, t, Advance(d, token, t, 0))
  {
    if t.phase.kept.Some? {
      TargetIsNoTemp(token, t.start.name, t.phase.kept.value, token);
    }
  }

  lemma AdvanceSteps(initial: Directory, d: Directory, token: nat, t: Transfer, spill: nat)
    requires TransferOk(initial, d, token, t) && Untouched(initial, d)
    ensures Steps(initial, d, token, t, Advance(d, token, t, spill))
  {
    if t.phase.Receiving? {
      ReceiveNextSteps(initial, d, token, t, spill);
    } else if t.phase.Flushed? || t.phase.Clashed? {
      PublishSteps(initial, d, token, t);
    } else if t.phase.Reserved? {
      RenameSteps(initial, d, token, t);
    } else if t.phase.Failing? {
      CleanUpSteps(initial, d, token, t);
    }
  }

  lemma OthersKept(initial: Directory, d: Directory, e: Directory, token: nat, t: Transfer, a: string, b: Option<string>)
    requires TransferOk(initial, d, token, t) && SameBut(d, e, a, b)
    requires a != Temp(token) && b != Some(Temp(token))
    requires TargetOf(t).Some? ==> TargetOf(t) != Some(a) && TargetOf(t) != b
    ensures TransferOk(initial, e, token, t)
  {
  }

  lemma TempsApart(a: nat, b: nat)
    requires a != b
    ensures Temp(a) != Temp(b)
  {
    if Temp(a) == Temp(b) {
      TempsDiffer(a, b);
    }
  }

  lemma TargetTaken(initial: Directory, d: Directory, token: nat, t: Transfer, other: nat)
    requires TransferOk(initial, d, token, t) && TargetOf(t).Some?
    ensures TargetOf(t).value in d && TargetOf(t).value !in initial && TargetOf(t).value != Temp(other)
  {
    TargetIsNoTemp(token, t.start.name, TargetOf(t).value, other);
  }

  /** The step of one receive leaves another as it was, and does not take its name. */
  lemma OtherKept(initial: Directory, d: Directory, a: nat, t: Transfer, b: nat, u: Transfer, o: Outcome)
    requires a != b && TransferOk(initial, d, b, u) && Apart(t, u) && Steps(initial, d, a, t, o)
    ensures TransferOk(initial, o.d, b, u) && Apart(o.t, u) && Apart(u, o.t)
  {
    TempsApart(a, b);
    if TargetOf(u).Some? {
      TargetTaken(initial, d, b, u, a);
    }
    if TargetOf(o.t).Some? {
      TargetTaken(initial, o.d, a, o.t, b);
    }
    OthersKept(initial, d, o.d, b, u, Temp(a), TargetOf(o.t));
  }

  lemma {:induction false} TakeUnfolds(a: Account, written: seq<byte>, left: seq<Message>)
    requires left != []
    ensures var taken := TakeMessage(a, left[0]);
      RunBody(a, written, left) == if taken.More? then RunBody(taken.a, written + taken.bytes, left[1..])
                                   else Body(written, taken.verdict)
  {
  }

  /** A step of a receive takes its bytes on as its sender's messages lead. */
  lemma AdvanceKeepsBytes(d: Directory, token: nat, t: Transfer, spill: nat)
    requires OwnBytes(t)
    ensures OwnBytes(Advance(d, token, t, spill).t)
  {
    if t.phase.Receiving? && t.left != [] {
      TakeUnfolds(t.account, t.written, t.left);
    }
  }

  // --- All steps --------------------------------------------------------------------------------

  lemma InitialKept(initial: Directory, d: Directory, first: nat, token: nat, t: Transfer, o: Outcome)
    requires NoLeftovers(initial, first) && token >= first && Untouched(initial, d) && Steps(initial, d, token, t, o)
    ensures Untouched(initial, o.d)
  {
    assert Temp(token) !in initial;
    if TargetOf(o.t).Some? {
      TargetTaken(initial, o.d, token, o.t, token);
    }
  }

  lemma OwnerKept(first: nat, ts: seq<Transfer>, us: seq<Transfer>, i: nat, n: string)
    requires i < |ts| == |us| && us == ts[i := us[i]] && HasOwner(first, ts, n)
    requires Owns(first + i, ts[i], n) ==> Owns(first + i, us[i], n)
    ensures HasOwner(first, us, n)
  {
    var j: nat :| OwnsAt(first, ts, j, n);
    assert OwnsAt(first, us, j, n);
  }

  lemma OwnersKept(initial: Directory, d: Directory, first: nat, ts: seq<Transfer>, us: seq<Transfer>, i: nat, o: Outcome)
    requires i < |ts| && us == ts[i := o.t] && Owned(initial, d, first, ts) && Steps(initial, d, first + i, ts[i], o)
    ensures Owned(initial, o.d, first, us)
  {
    forall n | n in o.d && n !in initial ensures HasOwner(first, us, n) {
      if Owns(first + i, o.t, n) {
        assert OwnsAt(first, us, i, n);
      } else {
        OwnerKept(first, ts, us, i, n);
      }
    }
  }

  lemma OthersOk(initial: Directory, d: Directory, first: nat, ts: seq<Transfer>, i: nat, j: nat, o: Outcome)
    requires i < |ts| && j < |ts| && i != j && AllOk(initial, d, first, ts) && AllApart(ts)
    requires Steps(initial, d, first + i, ts[i], o)
    ensures TransferOk(initial, o.d, first + j, ts[j]) && Apart(o.t, ts[j]) && Apart(ts[j], o.t)
  {
    assert OkAt(initial, d, first, ts, j) && ApartAt(ts, i, j);
    OtherKept(initial, d, first + i, ts[i], first + j, ts[j], o);
  }

  lemma AllKept(initial: Directory, d: Directory, first: nat, ts: seq<Transfer>, us: seq<Transfer>, i: nat, o: Outcome)
    requires i < |ts| && us == ts[i := o.t] && AllOk(initial, d, first, ts) && AllApart(ts)
    requires Steps(initial, d, first + i, ts[i], o)
    ensures AllOk(initial, o.d, first, us) && AllApart(us)
  {
    forall j: nat ensures OkAt(initial, o.d, first, us, j) {
      if j < |ts| && j != i {
        OthersOk(initial, d, first, ts, i, j, o);
      }
    }
    forall j: nat, k: nat ensures ApartAt(us, j, k) {
      assert ApartAt(ts, j, k);
      if j < |ts| && k < |ts| && j != k {
        if j == i {
          OthersOk(initial, d, first, ts, i, k, o);
        } else if k == i {
          OthersOk(initial, d, first, ts, i, j, o);
        }
      }
    }
  }

  lemma OwnKept(ts: seq<Transfer>, i: nat, u: Transfer)
    requires i < |ts| && AllOwn(ts) && OwnBytes(u)
    ensures AllOwn(ts[i := u])
  {
  }

  lemma StepsKeepInv(initial: Directory, s: State, i: nat, o: Outcome)
    requires Inv(initial, s) && i < |s.transfers| && Steps(initial, s.d, s.first + i, s.transfers[i], o) && OwnBytes(o.t)
    ensures Inv(initial, State(o.d, s.first, s.transfers[i := o.t]))
  {
    var us := s.transfers[i := o.t];
    InitialKept(initial, s.d, s.first, s.first + i, s.transfers[i], o);
    OwnersKept(initial, s.d, s.first, s.transfers, us, i, o);
    AllKept(initial, s.d, s.first, s.transfers, us, i, o);
    OwnKept(s.transfers, i, o.t);
  }

  lemma OwnsNoOther(initial: Directory, d: Directory, token: nat, t: Transfer, other: nat)
    requires TransferOk(initial, d, token, t) && token != other
    ensures !Owns(token, t, Temp(other))
  {
    TempsApart(token, other);
    if TargetOf(t).Some? {
      TargetTaken(initial, d, token, t, other);
    }
  }

  lemma NextTempFree(initial: Directory, s: State)
    requires Inv(initial, s)
    ensures Temp(s.first + |s.transfers|) !in s.d
  {
    var token := s.first + |s.transfers|;
    if Temp(token) in s.d {
      assert Temp(token) !in initial;
      var i: nat :| OwnsAt(s.first, s.transfers, i, Temp(token));
      assert OkAt(initial, s.d, s.first, s.transfers, i);
      OwnsNoOther(initial, s.d, s.first + i, s.transfers[i], token);
    }
  }

  lemma AcceptedOk(initial: Directory, d: Directory, token: nat, start: Account, limit: u64, incoming: seq<Message>)
    requires NotHidden(start.name) && Temp(token) !in d
    ensures TransferOk(initial, d, token, Accepted(start, limit, incoming)) && TargetOf(Accepted(start, limit, incoming)).None?
    ensures OwnBytes(Accepted(start, limit, incoming))
  {
  }

  lemma OwnerAdded(first: nat, ts: seq<Transfer>, t: Transfer, n: string)
    requires HasOwner(first, ts, n)
    ensures HasOwner(first, ts + [t], n)
  {
    var j: nat :| OwnsAt(first, ts, j, n);
    assert OwnsAt(first, ts + [t], j, n);
  }

  lemma AddedKeepsAll(initial: Directory, d: Directory, first: nat, ts: seq<Transfer>, t: Transfer)
    requires AllOk(initial, d, first, ts) && AllApart(ts) && Owned(initial, d, first, ts)
    requires TransferOk(initial, d, first + |ts|, t) && TargetOf(t).None?
    ensures AllOk(initial, d, first, ts + [t]) && AllApart(ts + [t]) && Owned(initial, d, first, ts + [t])
  {
    forall j: nat ensures OkAt(initial, d, first, ts + [t], j) {
      assert OkAt(initial, d, first, ts, j);
    }
    forall j: nat, k: nat ensures ApartAt(ts + [t], j, k) {
      assert ApartAt(ts, j, k);
    }
    forall n | n in d && n !in initial ensures HasOwner(first, ts + [t], n) {
      OwnerAdded(first, ts, t, n);
    }
  }

  lemma OfferKeepsInv(initial: Directory, s: State, start: Account, limit: u64, incoming: seq<Message>)
    requires Inv(initial, s) && NotHidden(start.name)
    ensures Inv(initial, s.(transfers := s.transfers + [Accepted(start, limit, incoming)]))
  {
    NextTempFree(initial, s);
    AcceptedOk(initial, s.d, s.first + |s.transfers|, start, limit, incoming);
    AddedKeepsAll(initial, s.d, s.first, s.transfers, Accepted(start, limit, incoming));
  }

  lemma BegunNotHidden(id: u32, name: string, size: u64, limit: u64)
    requires Begin(id, name, size, limit).Ok?
    ensures NotHidden(Begin(id, name, size, limit).value.name)
  {
    FileNames.SanitizeExactly(name, FileNames.SanitizeFilename(name).value);
  }

  lemma ProceedKeepsInv(initial: Directory, s: State, i: nat, spill: nat)
    requires Inv(initial, s) && i < |s.transfers|
    ensures Inv(initial, Next(s, Proceed(i, spill)))
  {
    assert OkAt(initial, s.d, s.first, s.transfers, i);
    AdvanceSteps(initial, s.d, s.first + i, s.transfers[i], spill);
    AdvanceKeepsBytes(s.d, s.first + i, s.transfers[i], spill);
    StepsKeepInv(initial, s, i, Advance(s.d, s.first + i, s.transfers[i], spill));
  }

  lemma ErrorKeepsInv(initial: Directory, s: State, i: nat)
    requires Inv(initial, s) && i < |s.transfers| && MayBreak(s.transfers[i].phase)
    ensures Inv(initial, Next(s, IoError(i)))
  {
    assert OkAt(initial, s.d, s.first, s.transfers, i);
    GiveUpSteps(initial, s.d, s.first + i, s.transfers[i]);
    StepsKeepInv(initial, s, i, Outcome(s.d, Broken(s.transfers[i])));
  }

  lemma StepKeepsInv(initial: Directory, s: State, step: Step)
    requires Inv(initial, s)
    ensures Inv(initial, Next(s, step))
  {
    match step
    case Offer(id, name, size, limit, incoming) =>
      if Begin(id, name, size, limit).Ok? {
        BegunNotHidden(id, name, size, limit);
        OfferKeepsInv(initial, s, Begin(id, name, size, limit).value, limit, incoming);
      }
    case Proceed(i, spill) =>
      if i < |s.transfers| {
        ProceedKeepsInv(initial, s, i, spill);
      }
    case IoError(i) =>
      if i < |s.transfers| && MayBreak(s.transfers[i].phase) {
        ErrorKeepsInv(initial, s, i);
      }
  }

  lemma {:induction false} RunKeepsInv(initial: Directory, s: State, steps: seq<Step>)
    requires Inv(initial, s)
    ensures Inv(initial, Run(s, steps))
    decreases |steps|
  {
    if steps != [] {
      StepKeepsInv(initial, s, steps[0]);
      RunKeepsInv(initial, Next(s, steps[0]), steps[1..]);
    }
  }

  lemma StartsInv(initial: Directory, first: nat)
    requires NoLeftovers(initial, first)
    ensures Inv(initial, Start(initial, first))
  {
  }
}
