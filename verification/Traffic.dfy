/**
 What is on its way to each client in a reachable state: nothing too long for a frame, the acknowledgement
 before any `Enter`, and, once all of it has been delivered, exactly the client as it was said to settle.
 */
module Traffic {
  import opened Wrappers
  import opened Messages
  import opened WireFormat
  import opened Codec
  import opened CodecTheorems
  import opened Framing
  import opened Transport
  import opened Layout
  import opened Controller
  import opened World
  import opened Routing
  import opened RoutingInvariant
  import opened RoutingTheorems
  import Client
  import Geometry
  import Server

  // --- Every message fits a frame ---------------------------------------------------------------

  predicate FixedKind(kind: Kind) {
    kind.IsNumber() || kind.Flag?
  }

  /** How many bytes fields of fixed width take; 0 if there are others. */
  function FixedWidth(ks: Kinds): Option<nat> {
    match ks
    case Done => Some(0)
    case Then(kind, more) =>
      if FixedKind(kind) && FixedWidth(more).Some? then Some(kind.Width() + FixedWidth(more).value) else None
  }

  lemma {:induction false} FixedLength(ks: Kinds, vs: Values)
    requires HoldAll(ks, vs) && FixedWidth(ks).Some?
    ensures |PrintAll(ks, vs)| == FixedWidth(ks).value
    decreases ks
  {
    match ks
    case Done =>
    case Then(kind, more) =>
      PrintFirst(kind, more, vs);
      FixedLength(more, vs.tail);
  }

  /** The messages the server sends. */
  predicate Routine(m: Message) {
    || m.Hello? || m.QueryInfo? || m.InfoAck? || m.ResetOptions? || m == SetOptions([]) || m.KeepAlive?
    || m.Enter? || m.Leave? || m.IsInput() || m.ErrIncompatible? || m.ErrUnknown?
    || (m.ClipboardData? && |m.data| <= MAX_CLIPBOARD_LEN)
  }

  lemma FixedFits(m: Message)
    requires !m.Hello? && !m.HelloBack? && Plain(TagOf(m))
    ensures FitsFrame(m)
  {
    EncodeParts(m);
    FixedLength(KindsOf(TagOf(m)), ValuesOf(m));
  }

  lemma HelloFits(m: Message)
    requires m.Hello?
    ensures FitsFrame(m)
  {
    EncodeParts(m);
    FixedLength(HELLO_KINDS, Cons(Num(m.major), Cons(Num(m.minor), Nil)));
  }

  lemma NoOptionsFit()
    ensures FitsFrame(SetOptions([]))
  {
    EncodeParts(SetOptions([]));
    PrintFirst(Ints, Done, Cons(Vec([]), Nil));
  }

  /** What the tables say of the messages without a field of variable length. */
  predicate Plain(tag: Tag) {
    FixedWidth(KindsOf(tag)).Some? && FixedWidth(KindsOf(tag)).value <= 100
  }

  lemma PointerKinds()
    ensures Plain(MouseMoveTag) && Plain(MouseRelMoveTag) && Plain(MouseDownTag) && Plain(MouseUpTag) && Plain(MouseWheelTag)
  {
  }

  lemma KeyKinds()
    ensures Plain(KeyDownTag) && Plain(KeyUpTag) && Plain(KeyRepeatTag)
  {
  }

  lemma InputKinds(m: Message)
    requires m.IsInput()
    ensures Plain(TagOf(m))
  {
    PointerKinds();
    KeyKinds();
  }

  lemma RoutineKinds(m: Message)
    requires Routine(m) && !m.Hello? && !m.ClipboardData? && !m.SetOptions?
    ensures Plain(TagOf(m))
  {
    if m.IsInput() {
      InputKinds(m);
    } else {
      OtherKinds();
    }
  }

  lemma OtherKinds()
    ensures Plain(QueryInfoTag) && Plain(InfoAckTag) && Plain(ResetOptionsTag) && Plain(KeepAliveTag)
    ensures Plain(EnterTag) && Plain(LeaveTag) && Plain(ErrIncompatibleTag) && Plain(ErrUnknownTag)
  {
  }

  lemma RoutineFits(m: Message)
    requires Routine(m)
    ensures FitsFrame(m)
  {
    if m.Hello? {
      HelloFits(m);
    } else if m.ClipboardData? {
      ClipboardFits(m);
    } else if m.SetOptions? {
      NoOptionsFit();
    } else {
      RoutineKinds(m);
      FixedFits(m);
    }
  }

  // --- In order ---------------------------------------------------------------------------------

  /** Read behind a client that is acknowledged or not, no `Enter` comes before the acknowledgement. */
  predicate AckFirst(acked: bool, msgs: seq<Message>)
    decreases |msgs|
  {
    msgs == [] || ((msgs[0].Enter? ==> acked) && AckFirst(acked || msgs[0].InfoAck?, msgs[1..]))
  }

  lemma {:induction false} AckFirstAppend(acked: bool, msgs: seq<Message>, more: seq<Message>)
    requires AckFirst(acked, msgs) && AckFirst(acked || InfoAck in msgs, more)
    ensures AckFirst(acked, msgs + more)
    decreases |msgs|
  {
    if msgs == [] {
      assert msgs + more == more;
    } else {
      assert (msgs + more)[0] == msgs[0] && (msgs + more)[1..] == msgs[1..] + more;
      assert InfoAck in msgs <==> msgs[0].InfoAck? || InfoAck in msgs[1..];
      AckFirstAppend(acked || msgs[0].InfoAck?, msgs[1..], more);
    }
  }

  lemma {:induction false} AckedEver(msgs: seq<Message>)
    ensures AckFirst(true, msgs)
    decreases |msgs|
  {
    if msgs != [] {
      AckedEver(msgs[1..]);
    }
  }

  lemma {:induction false} NoEnterAnyOrder(acked: bool, msgs: seq<Message>)
    requires forall m <- msgs :: !m.Enter?
    ensures AckFirst(acked, msgs)
    decreases |msgs|
  {
    if msgs != [] {
      NoEnterAnyOrder(acked || msgs[0].InfoAck?, msgs[1..]);
    }
  }

  lemma {:induction false} AckFirstMeans(acked: bool, msgs: seq<Message>, k: nat)
    requires AckFirst(acked, msgs) && k < |msgs| && msgs[k].Enter?
    ensures acked || InfoAck in msgs[..k]
    decreases k
  {
    if k > 0 {
      AckFirstMeans(acked || msgs[0].InfoAck?, msgs[1..], k - 1);
      assert msgs[..k] == [msgs[0]] + msgs[1..][..k - 1];
    }
  }

  lemma {:induction false} AckedOnceAbsorbed(seat: Seat, msgs: seq<Message>)
    ensures Absorb(seat, msgs).client.acked <==> seat.client.acked || InfoAck in msgs
    decreases |msgs|
  {
    if msgs != [] {
      AckedOnceAbsorbed(Feed(seat, msgs[0]), msgs[1..]);
      assert InfoAck in msgs <==> msgs[0].InfoAck? || InfoAck in msgs[1..];
    }
  }

  // --- The invariant ----------------------------------------------------------------------------

  ghost predicate AllRoutine(msgs: seq<Message>) {
    forall m <- msgs :: Routine(m)
  }

  ghost predicate TrafficOk(client: Client.State, msgs: seq<Message>) {
    && AllRoutine(msgs)
    && AckFirst(client.acked, msgs)
    && (client.entered ==> client.acked)
  }

  ghost predicate TrafficInv(w: World) {
    forall n :: n in w.links ==> TrafficOk(w.links[n].client, Pending(w, n))
  }

  lemma TrafficGrows(client: Client.State, msgs: seq<Message>, more: seq<Message>)
    requires TrafficOk(client, msgs) && AllRoutine(more)
    requires client.acked || InfoAck in msgs || forall m <- more :: !m.Enter?
    ensures TrafficOk(client, msgs + more)
  {
    if client.acked || InfoAck in msgs {
      AckedEver(more);
    } else {
      NoEnterAnyOrder(false, more);
    }
    AckFirstAppend(client.acked, msgs, more);
  }

  lemma AttachedAcked(w: World, l: Ledger, n: string)
    requires Inv(w, l) && n in w.links && n in w.hub.clients
    ensures w.links[n].client.acked || InfoAck in Pending(w, n)
  {
    assert LinkOk(w, l, n);
    AckedOnceAbsorbed(Seat(w.links[n].client, w.links[n].injected), Pending(w, n));
  }

  lemma OutcomeRoutine(s: Server.State, ev: LocalEvent, t: Server.State, o: Outcome, n: string)
    requires Leads(s, ev, t, o)
    ensures AllRoutine(OutcomeMessages(s, t, o, n))
  {
  }

  lemma AttachedCaptureTraffic(w: World, l: Ledger, ev: LocalEvent, n: string)
    requires Inv(w, l) && n in w.links && n in w.hub.clients && TrafficOk(w.links[n].client, Pending(w, n))
    ensures n in Next(w, Capture(ev)).links
    ensures TrafficOk(Next(w, Capture(ev)).links[n].client, Pending(Next(w, Capture(ev)), n))
  {
    var s, t := w.hub.server, Server.Handle(w.hub.server, ev).0;
    var o := HandleOutcome(s, ev);
    Geometry.CaptureQueues(w, ev, t, o, n);
    OutcomeRoutine(s, ev, t, o, n);
    AttachedAcked(w, l, n);
    TrafficGrows(w.links[n].client, Pending(w, n), OutcomeMessages(s, t, o, n));
  }

  lemma CaptureKeepsTraffic(w: World, l: Ledger, ev: LocalEvent, n: string)
    requires Inv(w, l) && n in w.links && TrafficOk(w.links[n].client, Pending(w, n))
    ensures n in Next(w, Capture(ev)).links
    ensures TrafficOk(Next(w, Capture(ev)).links[n].client, Pending(Next(w, Capture(ev)), n))
  {
    if n in w.hub.clients {
      AttachedCaptureTraffic(w, l, ev, n);
    } else {
      CaptureSettles(w, ev, n);
      assert Pending(Next(w, Capture(ev)), n) == Pending(w, n);
    }
  }

  lemma BroadcastKeepsTraffic(w: World, msg: Message, n: string)
    requires n in w.links && TrafficOk(w.links[n].client, Pending(w, n)) && Routine(msg) && !msg.Enter?
    ensures TrafficOk(w.links[n].client, Pending(w.(hub := Broadcast(w.hub, msg)), n))
  {
    var extra := if n in w.hub.clients then [msg] else [];
    TrafficGrows(w.links[n].client, Pending(w, n), extra);
    assert Pending(w.(hub := Broadcast(w.hub, msg)), n) == Pending(w, n) + extra;
  }

  lemma CourtesyGrows(client: Client.State, msgs: seq<Message>, extra: seq<Message>)
    requires TrafficOk(client, msgs) && forall m <- extra :: Geometry.Courtesy(m)
    ensures TrafficOk(client, msgs + extra)
  {
    TrafficGrows(client, msgs, extra);
  }

  lemma ConverseKeepsTraffic(w: World, l: Ledger, n: string)
    requires Inv(w, l) && n in w.links && TrafficOk(w.links[n].client, Pending(w, n))
    ensures n in Next(w, Converse(n)).links
    ensures TrafficOk(Next(w, Converse(n)).links[n].client, Pending(Next(w, Converse(n)), n))
  {
    assert LinkOk(w, l, n);
    var extra := Geometry.ConverseAppends(w, n);
    CourtesyGrows(w.links[n].client, Pending(w, n), extra);
  }

  lemma DeliverKeepsTraffic(w: World, n: string)
    requires n in w.links && w.links[n].wire != [] && TrafficOk(w.links[n].client, Pending(w, n))
    ensures n in Next(w, Deliver(n)).links
    ensures TrafficOk(Next(w, Deliver(n)).links[n].client, Pending(Next(w, Deliver(n)), n))
  {
    var v := Next(w, Deliver(n));
    assert Pending(w, n)[0] == w.links[n].wire[0] && Pending(w, n)[1..] == Pending(v, n);
  }

  lemma OtherStepKeepsTraffic(w: World, l: Ledger, step: Step, n: string)
    requires Inv(w, l) && !step.Capture? && n in Next(w, step).links && n in w.links
    requires TrafficOk(w.links[n].client, Pending(w, n))
    ensures TrafficOk(Next(w, step).links[n].client, Pending(Next(w, step), n))
  {
    if step.KeepAliveTick? {
      BroadcastKeepsTraffic(w, KeepAlive, n);
    } else if step.ClipboardOut? && |step.data| <= MAX_CLIPBOARD_LEN {
      BroadcastKeepsTraffic(w, ClipboardData(0, step.clipSeq, 0, step.data), n);
    } else if step.Deliver? && step.name == n && w.links[n].wire != [] {
      DeliverKeepsTraffic(w, n);
    } else if step.Converse? && step.name == n {
      ConverseKeepsTraffic(w, l, n);
    } else {
      Geometry.OtherStepKeepsPending(w, l, step, n);
    }
  }

  lemma GreetedTraffic(w: World, name: string, size: ScreenSize)
    requires name !in w.links && name !in w.hub.clients
    ensures var v := Next(w, Connect(name, size)); TrafficOk(v.links[name].client, Pending(v, name))
  {
    var hello := Hello(PROTOCOL_MAJOR, PROTOCOL_MINOR);
    assert Pending(Next(w, Connect(name, size)), name) == [hello];
    NoEnterAnyOrder(false, [hello]);
  }

  lemma StepKeepsTraffic(w: World, l: Ledger, step: Step)
    requires Inv(w, l) && TrafficInv(w)
    ensures TrafficInv(Next(w, step))
  {
    forall n | n in Next(w, step).links
      ensures TrafficOk(Next(w, step).links[n].client, Pending(Next(w, step), n))
    {
      if step.Capture? {
        CaptureKeepsTraffic(w, l, step.ev, n);
      } else if n in w.links {
        OtherStepKeepsTraffic(w, l, step, n);
      } else {
        assert n !in w.hub.clients;
        GreetedTraffic(w, n, step.size);
      }
    }
  }

  lemma {:induction false} RunKeepsTraffic(w: World, l: Ledger, steps: seq<Step>)
    requires Inv(w, l) && TrafficInv(w)
    ensures TrafficInv(Run(w, steps))
    decreases |steps|
  {
    if steps != [] {
      StepKeepsInv(w, l, steps[0]);
      StepKeepsTraffic(w, l, steps[0]);
      RunKeepsTraffic(Next(w, steps[0]), Observe(l, w, steps[0]), steps[1..]);
    }
  }

  lemma ReachedTraffic(w: World, l: Ledger)
    requires Reached(w, l)
    ensures TrafficInv(w)
  {
    var nodes, local, steps :|
      w == Run(Initial(nodes, local), steps) && l == Watch(BLANK, Initial(nodes, local), steps);
    RunKeepsTraffic(Initial(nodes, local), BLANK, steps);
  }

  // --- The theorems -----------------------------------------------------------------------------

  /** The acknowledgement comes before every `Enter`, so an entered client's moves always pass its gate. */
  lemma AckBeforeEnter(w: World, l: Ledger, n: string, k: nat)
    requires Reached(w, l) && n in w.links
    ensures w.links[n].client.entered ==> w.links[n].client.acked
    ensures k < |Pending(w, n)| && Pending(w, n)[k].Enter? ==>
      w.links[n].client.acked || InfoAck in Pending(w, n)[..k]
  {
    ReachedTraffic(w, l);
    if k < |Pending(w, n)| && Pending(w, n)[k].Enter? {
      AckFirstMeans(w.links[n].client.acked, Pending(w, n), k);
    }
  }

  /** The queues and the wire can be bytes: framed on a stream, what is pending is received as it is. */
  lemma PendingCarried(w: World, l: Ledger, n: string, end: StreamEnd)
    requires Reached(w, l) && n in w.links
    ensures ReceiveAll(DECODE, Stream(Encodings(Pending(w, n))), end) == Session(Pending(w, n), Ended(end))
  {
    ReachedTraffic(w, l);
    var ms := Pending(w, n);
    assert AllRoutine(ms);
    forall m | m in ms ensures FitsFrame(m) {
      RoutineFits(m);
    }
    WholeStream(ms, [], end);
    assert Stream(Encodings(ms)) + [] == Stream(Encodings(ms));
    assert ReceiveAll(DECODE, [], end) == Session([], Ended(end));
    assert ms + [] == ms;
  }

  // --- Draining ---------------------------------------------------------------------------------

  predicate OnlyMoves(step: Step, n: string) {
    step == Pump(n) || step == Deliver(n)
  }

  /** What draining client `n` leaves alone. */
  ghost predicate SameElsewhere(w: World, v: World, n: string) {
    && v.hub.server == w.hub.server && v.hub.grab == w.hub.grab && v.links.Keys == w.links.Keys
    && v.hub.clients.Keys == w.hub.clients.Keys
    && forall k :: k in w.links && k != n ==> v.links[k] == w.links[k]
  }

  lemma PumpSettles(w: World, n: string)
    requires n in w.links && n in w.hub.clients && w.hub.clients[n] != []
    ensures var v := Next(w, Pump(n)); n in v.links && Pending(v, n) == Pending(w, n) && Settled(v, n) == Settled(w, n)
  {
    assert Pending(Next(w, Pump(n)), n) == Pending(w, n);
  }

  function Queued(w: World, n: string): nat {
    if n in w.hub.clients then |w.hub.clients[n]| else 0
  }

  /** From every state there are deliveries after which nothing is on its way and the client is as it settles. */
  lemma {:induction false} Drains(w: World, n: string) returns (steps: seq<Step>)
    requires n in w.links
    ensures forall step <- steps :: OnlyMoves(step, n)
    ensures var v := Run(w, steps);
      && SameElsewhere(w, v, n) && Pending(v, n) == []
      && Seat(v.links[n].client, v.links[n].injected) == Settled(w, n)
    decreases |Pending(w, n)|, Queued(w, n), 0
  {
    if w.links[n].wire != [] {
      DeliverSettles(w, n);
      steps := DrainsOn(w, n, Deliver(n));
    } else if Queued(w, n) > 0 {
      PumpSettles(w, n);
      steps := DrainsOn(w, n, Pump(n));
    } else {
      steps := [];
      assert Pending(w, n) == [];
    }
  }

  lemma DrainsOn(w: World, n: string, step: Step) returns (steps: seq<Step>)
    requires n in w.links && OnlyMoves(step, n) && n in Next(w, step).links
    requires SameElsewhere(w, Next(w, step), n) && Settled(Next(w, step), n) == Settled(w, n)
    requires |Pending(Next(w, step), n)| < |Pending(w, n)|
      || (|Pending(Next(w, step), n)| == |Pending(w, n)| && Queued(Next(w, step), n) < Queued(w, n))
    ensures forall s <- steps :: OnlyMoves(s, n)
    ensures var v := Run(w, steps);
      && SameElsewhere(w, v, n) && Pending(v, n) == []
      && Seat(v.links[n].client, v.links[n].injected) == Settled(w, n)
    decreases |Pending(Next(w, step), n)|, Queued(Next(w, step), n), 1
  {
    var more := Drains(Next(w, step), n);
    steps := [step] + more;
    assert steps[1..] == more;
  }

  /** So what is said of settled clients comes true: after some deliveries a client has injected what was captured for it. */
  lemma CapturedInjected(w: World, l: Ledger, n: string) returns (steps: seq<Step>)
    requires Reached(w, l) && n in w.links
    ensures forall step <- steps :: OnlyMoves(step, n)
    ensures var v := Run(w, steps);
      && SameElsewhere(w, v, n) && n in l.accounts
      && Discrete(v.links[n].injected) == l.accounts[n].captured
      && (v.links[n].client.entered <==> l.delivered && Visiting(w.hub.server, n))
  {
    steps := Drains(w, n);
    CapturedOnceSettled(w, l, n);
    EnteredExactlyWhenVisited(w, l, n);
  }
}
