/**
 What every reachable state of the switching system keeps. Clients lag behind the server by whatever is
 still queued for them, so each client is judged as it will be once its queues have drained (`Settled`):
 delivering or pumping a message does not change that view, and queueing one feeds it at once.
 */
module Routing {
  import opened Wrappers
  import opened MachineInts
  import opened Messages
  import opened Layout
  import opened Controller
  import opened World
  import Server
  import Client

  // --- Observations on commands and transcripts --------------------------------------------------

  /** The button, wheel and key commands among `cmds`. */
  function Discrete(cmds: seq<InputCommand>): seq<InputCommand> {
    if cmds == [] then []
    else
      var last := cmds[|cmds| - 1];
      Discrete(cmds[..|cmds| - 1]) + if Client.Gated(last) then [] else [last]
  }

  /** Where the pointer was last put. */
  function LastAbs(cmds: seq<InputCommand>): Option<(int, int)> {
    if cmds == [] then None
    else
      var last := cmds[|cmds| - 1];
      if last.MoveAbs? then Some((last.x, last.y)) else LastAbs(cmds[..|cmds| - 1])
  }

  /** Reads a transcript as (Enter input* Leave)*, starting inside a visit if `open`; tells if it ends inside one. */
  function Brackets(open: bool, msgs: seq<Message>): Option<bool> {
    if msgs == [] then Some(open)
    else
      var before := Brackets(open, msgs[..|msgs| - 1]);
      var last := msgs[|msgs| - 1];
      if before.None? then None
      else if last.Enter? then (if before.value then None else Some(true))
      else if last.Leave? then (if before.value then Some(false) else None)
      else if last.IsInput() then (if before.value then Some(true) else None)
      else None
  }

  predicate HasEnter(msgs: seq<Message>) {
    exists m :: m in msgs && m.Enter?
  }

  function GrabAfter(grab: bool, actions: seq<Server.Action>): bool
    decreases |actions|
  {
    if actions == [] then grab
    else GrabAfter(if actions[0].SetGrab? then actions[0].on else grab, actions[1..])
  }

  // --- The invariant ----------------------------------------------------------------------------

  function Reported(size: ScreenSize): ScreenSize {
    ScreenSize(AsI16(size.w), AsI16(size.h))
  }

  /** The n-th `Enter` ever sent carries n, counted in thirty-two bits, and none is for the local screen. */
  predicate Numbered(enters: seq<(string, int)>, local: string) {
    forall i :: 0 <= i < |enters| ==> enters[i].0 != local && enters[i].1 == (i + 1) % 0x1_0000_0000
  }

  predicate HubOk(w: World, l: Ledger) {
    var s := w.hub.server;
    && w.hub.grab == s.Remote()
    && (s.Remote() ==> s.active in s.nodes)
    && (l.delivered ==> s.Remote() && s.active in w.hub.clients)
    && s.enterSeq == |l.enters| % 0x1_0000_0000
    && Numbered(l.enters, s.local)
    && (forall n :: n in w.hub.clients ==> n in w.links)
  }

  /** The handshake has gone no further than the messages exchanged so far allow. */
  predicate HandshakeOk(link: Link, n: string, nodes: Nodes) {
    && link.client.name == n
    && (!link.phase.Attached? ==> link.injected == [] && !link.client.entered)
    && match link.phase
       case Greeted =>
         || (link.wire == [Hello(PROTOCOL_MAJOR, PROTOCOL_MINOR)] && link.replies == [])
         || (link.wire == [] && link.replies == [HelloBack(PROTOCOL_MAJOR, PROTOCOL_MINOR, n)])
       case Queried =>
         && n in nodes
         && (|| (link.wire == [QueryInfo] && link.replies == [])
             || (link.wire == [] && link.replies == [Client.GeometryOf(link.client.screen)]))
       case Ready =>
         && n in nodes
         && link.reported == Reported(link.client.screen)
         && link.replies == []
         && (|| link.wire == WELCOME
             || (link.client.acked && (link.wire == WELCOME[1..] || link.wire == WELCOME[2..] || link.wire == [])))
       case Attached =>
         && n in nodes
         && link.reported == Reported(link.client.screen) == nodes[n].size
       case Rejected =>
         && n !in nodes
         && link.replies == []
         && (link.wire == [ErrUnknown] || link.wire == [])
  }

  predicate AccountOk(w: World, l: Ledger, n: string)
    requires n in w.links && n in l.accounts
  {
    var s, seat, account := w.hub.server, Settled(w, n), l.accounts[n];
    && seat.client.entered == (l.delivered && Visiting(s, n))
    && Discrete(seat.injected) == account.captured
    && (w.links[n].phase.Attached? ==>
          && seat.client.acked
          && Brackets(account.joinedMidVisit, account.sent) == Some(Visiting(s, n))
          && (Visiting(s, n) ==> (l.delivered <==> HasEnter(account.sent)))
          && (n == s.local ==> account.sent == []))
    && (!w.links[n].phase.Attached? ==> account == Account([], [], false))
    && (l.delivered && Visiting(s, n) ==> LastAbs(seat.injected) == Some((AsI16(s.cursorX) as int, AsI16(s.cursorY) as int)))
  }

  predicate LinkOk(w: World, l: Ledger, n: string)
    requires n in w.links
  {
    && n in l.accounts
    && (w.links[n].phase.Attached? <==> n in w.hub.clients)
    && HandshakeOk(w.links[n], n, w.hub.server.nodes)
    && AccountOk(w, l, n)
  }

  ghost predicate Inv(w: World, l: Ledger) {
    HubOk(w, l) && forall n :: n in w.links ==> LinkOk(w, l, n)
  }

  // --- Queueing is feeding ----------------------------------------------------------------------

  lemma {:induction false} AbsorbAppend(seat: Seat, a: seq<Message>, b: seq<Message>)
    ensures Absorb(seat, a + b) == Absorb(Absorb(seat, a), b)
    decreases |a|
  {
    if a == [] {
      assert a + b == b;
    } else {
      assert (a + b)[0] == a[0] && (a + b)[1..] == a[1..] + b;
      AbsorbAppend(Feed(seat, a[0]), a[1..], b);
    }
  }

  lemma AbsorbOne(seat: Seat, msg: Message)
    ensures Absorb(seat, [msg]) == Feed(seat, msg)
  {
    assert Absorb(seat, [msg]) == Absorb(Feed(seat, msg), [msg][1..]);
  }

  lemma {:induction false} DispatchLocal(h: Hub, actions: seq<Server.Action>)
    ensures var k := DispatchAll(h, actions);
      k.server == h.server && k.grab == GrabAfter(h.grab, actions) && k.clients.Keys == h.clients.Keys
    decreases |actions|
  {
    if actions != [] {
      DispatchLocal(Dispatch(h, actions[0]), actions[1..]);
    }
  }

  /** Carrying out `actions` queues for a connected client exactly its messages, in order. */
  lemma {:induction false} DispatchQueues(h: Hub, actions: seq<Server.Action>, n: string)
    requires n in h.clients
    ensures n in DispatchAll(h, actions).clients
    ensures DispatchAll(h, actions).clients[n] == h.clients[n] + MessagesFor(actions, n)
    decreases |actions|
  {
    if actions != [] {
      var d := Dispatch(h, actions[0]);
      DispatchQueues(d, actions[1..], n);
      var now := if actions[0].Send? && actions[0].screen == n then [actions[0].msg] else [];
      assert d.clients[n] == h.clients[n] + now;
      assert h.clients[n] + now + MessagesFor(actions[1..], n) == h.clients[n] + (now + MessagesFor(actions[1..], n));
    }
  }

  // --- What one captured event can do -----------------------------------------------------------

  datatype Outcome =
    | Quiet
    | Sent(msg: Message)
    | Home
    | Entered(to: string, x: int, y: int)

  function OutcomeActions(s: Server.State, t: Server.State, o: Outcome): seq<Server.Action>
  {
    match o
    case Quiet => []
    case Sent(msg) => [Server.Send(s.active, msg)]
    case Home =>
      (if s.Remote() then [Server.Send(s.active, Leave)] else [])
      + [Server.SetGrab(false), Server.WarpCursor(t.cursorX, t.cursorY), Server.ActiveChanged(s.local)]
    case Entered(to, x, y) =>
      (if s.Remote() then [Server.Send(s.active, Leave)] else [Server.SetGrab(true)])
      + [Server.Send(to, Enter(AsI16(x), AsI16(y), t.enterSeq, t.modifiers)), Server.ActiveChanged(to)]
  }

  /** `t` and the actions of outcome `o` are what event `ev` may lead to from `s`. */
  predicate Leads(s: Server.State, ev: LocalEvent, t: Server.State, o: Outcome) {
    && t.nodes == s.nodes && t.local == s.local && t.locked == s.locked
    && match o
       case Quiet =>
         && t.active == s.active && t.enterSeq == s.enterSeq
         && (s.Remote() ==> t.cursorX == s.cursorX && t.cursorY == s.cursorY && Translate(ev) == [])
       case Sent(msg) =>
         && s.Remote() && msg.IsInput() && t.active == s.active && t.enterSeq == s.enterSeq
         && (|| (Translate(ev) == [] && msg == MouseMove(AsI16(t.cursorX), AsI16(t.cursorY)))
             || (Server.Forwarded(ev) == Some(msg) && t.cursorX == s.cursorX && t.cursorY == s.cursorY))
       case Home =>
         t.active == s.local && t.enterSeq == s.enterSeq && Translate(ev) == []
       case Entered(to, x, y) =>
         && t.active == to != s.local && to in s.nodes && t.cursorX == x && t.cursorY == y
         && t.enterSeq == (s.enterSeq + 1) % 0x1_0000_0000 && Translate(ev) == []
  }

  lemma TryCrossOutcome(s: Server.State) returns (o: Outcome)
    ensures var (t, actions) := Server.TryCross(s);
      && t.nodes == s.nodes && t.local == s.local && t.locked == s.locked && t.modifiers == s.modifiers
      && actions == OutcomeActions(s, t, o)
      && match o
         case Quiet => t == s && !s.Remote()
         case Sent(msg) =>
           && s.Remote() && t.active == s.active && t.enterSeq == s.enterSeq
           && msg == MouseMove(AsI16(t.cursorX), AsI16(t.cursorY))
         case Home => t.active == s.local && t.enterSeq == s.enterSeq
         case Entered(to, x, y) =>
           && t.active == to != s.local && to in s.nodes && t.cursorX == x && t.cursorY == y
           && t.enterSeq == (s.enterSeq + 1) % 0x1_0000_0000
  {
    var t := Server.TryCross(s).0;
    match Server.CrossingOf(s)
    case None =>
      o := if s.Remote() then Sent(MouseMove(AsI16(t.cursorX), AsI16(t.cursorY))) else Quiet;
    case Some(c) =>
      o := if c.to == s.local then Home else Entered(c.to, t.cursorX, t.cursorY);
  }

  lemma DiscreteOutcome(s: Server.State, ev: LocalEvent) returns (o: Outcome)
    requires !ev.MotionAbs? && !ev.MotionRel?
    ensures var (t, actions) := Server.Handle(s, ev); Leads(s, ev, t, o) && actions == OutcomeActions(s, t, o)
  {
    o := if s.Remote() then Sent(Server.Forwarded(ev).value) else Quiet;
  }

  lemma ReportedOutcome(s: Server.State, x: int, y: int) returns (o: Outcome)
    ensures var (t, actions) := Server.Handle(s, MotionAbs(x, y));
      Leads(s, MotionAbs(x, y), t, o) && actions == OutcomeActions(s, t, o)
  {
    if s.Remote() { o := Quiet; } else { o := TryCrossOutcome(s.(cursorX := x, cursorY := y)); }
  }

  lemma MovedOutcome(s: Server.State, dx: int, dy: int) returns (o: Outcome)
    ensures var (t, actions) := Server.Handle(s, MotionRel(dx, dy));
      Leads(s, MotionRel(dx, dy), t, o) && actions == OutcomeActions(s, t, o)
  {
    o := TryCrossOutcome(Server.Moved(s, dx, dy));
  }

  /** Every event does one of four things, whatever the layout, the lock or the cursor. */
  lemma HandleOutcome(s: Server.State, ev: LocalEvent) returns (o: Outcome)
    ensures var (t, actions) := Server.Handle(s, ev); Leads(s, ev, t, o) && actions == OutcomeActions(s, t, o)
  {
    if ev.MotionAbs? {
      o := ReportedOutcome(s, ev.x, ev.y);
    } else if ev.MotionRel? {
      o := MovedOutcome(s, ev.dx, ev.dy);
    } else {
      o := DiscreteOutcome(s, ev);
    }
  }

  function OutcomeMessages(s: Server.State, t: Server.State, o: Outcome, n: string): seq<Message> {
    match o
    case Quiet => []
    case Sent(msg) => if n == s.active then [msg] else []
    case Home => if Visiting(s, n) then [Leave] else []
    case Entered(to, x, y) =>
      (if Visiting(s, n) then [Leave] else [])
      + (if n == to then [Enter(AsI16(x), AsI16(y), t.enterSeq, t.modifiers)] else [])
  }

  lemma {:induction false} SplitMessages(a: seq<Server.Action>, b: seq<Server.Action>, n: string)
    ensures MessagesFor(a + b, n) == MessagesFor(a, n) + MessagesFor(b, n)
    decreases |a|
  {
    if a == [] {
      assert a + b == b;
    } else {
      assert (a + b)[0] == a[0] && (a + b)[1..] == a[1..] + b;
      SplitMessages(a[1..], b, n);
    }
  }

  lemma {:induction false} SplitEnters(a: seq<Server.Action>, b: seq<Server.Action>)
    ensures Enters(a + b) == Enters(a) + Enters(b)
    decreases |a|
  {
    if a == [] {
      assert a + b == b;
    } else {
      assert (a + b)[0] == a[0] && (a + b)[1..] == a[1..] + b;
      SplitEnters(a[1..], b);
    }
  }

  lemma {:induction false} SplitGrab(a: seq<Server.Action>, b: seq<Server.Action>, grab: bool)
    ensures GrabAfter(grab, a + b) == GrabAfter(GrabAfter(grab, a), b)
    decreases |a|
  {
    if a == [] {
      assert a + b == b;
    } else {
      assert (a + b)[0] == a[0] && (a + b)[1..] == a[1..] + b;
      SplitGrab(a[1..], b, if a[0].SetGrab? then a[0].on else grab);
    }
  }

  lemma SplitActions(a: seq<Server.Action>, b: seq<Server.Action>, n: string, grab: bool)
    ensures MessagesFor(a + b, n) == MessagesFor(a, n) + MessagesFor(b, n)
    ensures Enters(a + b) == Enters(a) + Enters(b)
    ensures GrabAfter(grab, a + b) == GrabAfter(GrabAfter(grab, a), b)
  {
    SplitMessages(a, b, n);
    SplitEnters(a, b);
    SplitGrab(a, b, grab);
  }

  lemma OneAction(a: Server.Action, n: string, grab: bool)
    ensures MessagesFor([a], n) == if a.Send? && a.screen == n then [a.msg] else []
    ensures Enters([a]) == if a.Send? && a.msg.Enter? then [(a.screen, a.msg.enterSeq as int)] else []
    ensures GrabAfter(grab, [a]) == if a.SetGrab? then a.on else grab
  {
    assert [a][1..] == [];
  }

  lemma {:induction false} LastActions(actions: seq<Server.Action>, n: string, grab: bool)
    requires forall i :: 0 <= i < |actions| ==> actions[i].WarpCursor? || actions[i].ActiveChanged?
    ensures MessagesFor(actions, n) == [] && Enters(actions) == [] && GrabAfter(grab, actions) == grab
  {
    if actions != [] {
      LastActions(actions[1..], n, grab);
    }
  }

  predicate Effect(actions: seq<Server.Action>, n: string, grab: bool, msgs: seq<Message>, enters: seq<(string, int)>, after: bool) {
    MessagesFor(actions, n) == msgs && Enters(actions) == enters && GrabAfter(grab, actions) == after
  }

  lemma HomeEffect(s: Server.State, t: Server.State, n: string, grab: bool)
    ensures Effect(OutcomeActions(s, t, Home), n, grab, OutcomeMessages(s, t, Home, n), [], false)
  {
    var head := if s.Remote() then [Server.Send(s.active, Leave)] else [];
    var tail := [Server.WarpCursor(t.cursorX, t.cursorY), Server.ActiveChanged(s.local)];
    if s.Remote() { OneAction(head[0], n, grab); }
    SplitActions(head, [Server.SetGrab(false)] + tail, n, grab);
    SplitActions([Server.SetGrab(false)], tail, n, grab);
    OneAction(Server.SetGrab(false), n, grab);
    LastActions(tail, n, false);
    assert OutcomeActions(s, t, Home) == head + ([Server.SetGrab(false)] + tail);
  }

  lemma SendEffect(first: Server.Action, send: Server.Action, to: string, n: string, grab: bool)
    requires send.Send?
    ensures var actions := [first] + [send, Server.ActiveChanged(to)];
      && MessagesFor(actions, n) == MessagesFor([first], n) + MessagesFor([send], n)
      && Enters(actions) == Enters([first]) + Enters([send])
      && GrabAfter(grab, actions) == GrabAfter(grab, [first])
  {
    var tail, grabbed := [Server.ActiveChanged(to)], GrabAfter(grab, [first]);
    SplitActions([first], [send] + tail, n, grab);
    SplitActions([send], tail, n, grabbed);
    OneAction(send, n, grabbed);
    LastActions(tail, n, grabbed);
    assert [send] + tail == [send, Server.ActiveChanged(to)];
  }

  lemma EnteredEffect(s: Server.State, t: Server.State, to: string, x: int, y: int, n: string, grab: bool)
    ensures var o := Entered(to, x, y);
      Effect(OutcomeActions(s, t, o), n, grab, OutcomeMessages(s, t, o, n), [(to, t.enterSeq as int)],
             if s.Remote() then grab else true)
  {
    var first := if s.Remote() then Server.Send(s.active, Leave) else Server.SetGrab(true);
    var enter := Server.Send(to, Enter(AsI16(x), AsI16(y), t.enterSeq, t.modifiers));
    OneAction(first, n, grab);
    OneAction(enter, n, grab);
    SendEffect(first, enter, to, n, grab);
    assert OutcomeActions(s, t, Entered(to, x, y)) == [first] + [enter, Server.ActiveChanged(to)];
  }

  /** What an outcome's actions amount to: the messages for screen `n`, the `Enter`s, and the grab. */
  lemma OutcomeEffect(s: Server.State, t: Server.State, o: Outcome, n: string, grab: bool)
    requires o.Sent? ==> o.msg.IsInput()
    ensures Effect(OutcomeActions(s, t, o), n, grab, OutcomeMessages(s, t, o, n),
                   if o.Entered? then [(o.to, t.enterSeq as int)] else [],
                   if o.Home? then false else if o.Entered? && !s.Remote() then true else grab)
  {
    match o
    case Quiet =>
    case Sent(msg) => OneAction(Server.Send(s.active, msg), n, grab);
    case Home => HomeEffect(s, t, n, grab);
    case Entered(to, x, y) => EnteredEffect(s, t, to, x, y, n, grab);
  }
}
