/**
 Over runs in which every screen, configured or reported, is 1 to 32767 pixels wide and high: the server's
 cursor stays inside the visited client's real screen, and nothing is ever injected outside it.
 */
module Geometry {
  import opened Wrappers
  import opened Messages
  import opened Layout
  import opened Controller
  import opened World
  import opened Routing
  import opened RoutingInvariant
  import opened RoutingTheorems
  import opened CrossingLaws
  import Server
  import Client

  predicate Displayable(size: ScreenSize) {
    1 <= size.w <= 0x7FFF && 1 <= size.h <= 0x7FFF
  }

  ghost predicate AllDisplayable(nodes: Nodes) {
    forall n :: n in nodes ==> Displayable(nodes[n].size)
  }

  predicate CommandInside(cmd: InputCommand, size: ScreenSize) {
    !cmd.MoveRel? && (cmd.MoveAbs? ==> Inside(size, cmd.x, cmd.y))
  }

  predicate MessageInside(msg: Message, size: ScreenSize) {
    !msg.MouseRelMove? && (msg.MouseMove? || msg.Enter? ==> Inside(size, msg.x, msg.y))
  }

  ghost predicate CommandsInside(cmds: seq<InputCommand>, size: ScreenSize) {
    forall c :: c in cmds ==> CommandInside(c, size)
  }

  ghost predicate MessagesInside(msgs: seq<Message>, size: ScreenSize) {
    forall m :: m in msgs ==> MessageInside(m, size)
  }

  ghost predicate LinkInside(w: World, n: string)
    requires n in w.links
  {
    var size := w.links[n].client.screen;
    && Displayable(size)
    && CommandsInside(w.links[n].injected, size)
    && MessagesInside(Pending(w, n), size)
  }

  predicate CursorInside(w: World, l: Ledger) {
    var s := w.hub.server;
    l.delivered && s.active in s.nodes ==> Inside(s.nodes[s.active].size, s.cursorX, s.cursorY)
  }

  ghost predicate GeoInv(w: World, l: Ledger) {
    && Inv(w, l)
    && AllDisplayable(w.hub.server.nodes)
    && CursorInside(w, l)
    && forall n :: n in w.links ==> LinkInside(w, n)
  }

  // --- Steps ------------------------------------------------------------------------------------

  /** A link that only gains messages that lie inside its screen stays inside. */
  lemma GainsInside(w: World, v: World, n: string, extra: seq<Message>)
    requires n in w.links && n in v.links && LinkInside(w, n)
    requires v.links[n].client.screen == w.links[n].client.screen && v.links[n].injected == w.links[n].injected
    requires Pending(v, n) == Pending(w, n) + extra && MessagesInside(extra, w.links[n].client.screen)
    ensures LinkInside(v, n)
  {
  }

  /** Whatever a captured event makes the server say to a screen lies inside that screen. */
  lemma OutcomeInside(s: Server.State, ev: LocalEvent, t: Server.State, o: Outcome, n: string)
    requires AllDisplayable(s.nodes) && (s.Remote() ==> s.active in s.nodes) && n in s.nodes
    requires Leads(s, ev, t, o) && Server.Handle(s, ev) == (t, OutcomeActions(s, t, o))
    ensures MessagesInside(OutcomeMessages(s, t, o, n), s.nodes[n].size)
  {
    if ev.MotionRel? || (ev.MotionAbs? && !s.Remote()) {
      MotionEndsInside(s, ev);
    }
  }

  lemma CaptureKeepsGeo(w: World, l: Ledger, ev: LocalEvent)
    requires GeoInv(w, l)
    ensures GeoInv(Next(w, Capture(ev)), Observe(l, w, Capture(ev)))
  {
    var s := w.hub.server;
    var o := HandleOutcome(s, ev);
    var t := Server.Handle(s, ev).0;
    CaptureKeepsInv(w, l, ev);
    CaptureKeepsHub(w, l, ev, t, o);
    CaptureObserved(w, l, ev, t, o);
    if ev.MotionRel? || (ev.MotionAbs? && !s.Remote()) {
      MotionEndsInside(s, ev);
    }
    forall n | n in w.links
      ensures LinkInside(Next(w, Capture(ev)), n)
    {
      CaptureKeepsLinkInside(w, l, ev, t, o, n);
    }
  }

  lemma CaptureQueues(w: World, ev: LocalEvent, t: Server.State, o: Outcome, n: string)
    requires n in w.links && n in w.hub.clients
    requires Leads(w.hub.server, ev, t, o)
    requires Server.Handle(w.hub.server, ev) == (t, OutcomeActions(w.hub.server, t, o))
    ensures n in Next(w, Capture(ev)).links
    ensures Pending(Next(w, Capture(ev)), n) == Pending(w, n) + OutcomeMessages(w.hub.server, t, o, n)
  {
    DispatchQueues(w.hub.(server := t), OutcomeActions(w.hub.server, t, o), n);
    OutcomeEffect(w.hub.server, t, o, n, w.hub.grab);
  }

  lemma CaptureKeepsLinkInside(w: World, l: Ledger, ev: LocalEvent, t: Server.State, o: Outcome, n: string)
    requires GeoInv(w, l) && n in w.links
    requires Leads(w.hub.server, ev, t, o)
    requires Server.Handle(w.hub.server, ev) == (t, OutcomeActions(w.hub.server, t, o))
    ensures n in Next(w, Capture(ev)).links && LinkInside(Next(w, Capture(ev)), n)
  {
    var s, v := w.hub.server, Next(w, Capture(ev));
    CaptureSettles(w, ev, n);
    if n in w.hub.clients {
      AttachedSize(w, l, n);
      OutcomeInside(s, ev, t, o, n);
      CaptureQueues(w, ev, t, o, n);
      GainsInside(w, v, n, OutcomeMessages(s, t, o, n));
    } else {
      assert Pending(v, n) == Pending(w, n) + [];
      GainsInside(w, v, n, []);
    }
  }

  lemma AttachedSize(w: World, l: Ledger, n: string)
    requires GeoInv(w, l) && n in w.links && n in w.hub.clients
    ensures n in w.hub.server.nodes && w.hub.server.nodes[n].size == w.links[n].client.screen
  {
    assert LinkOk(w, l, n) && LinkInside(w, n);
  }

  lemma InjectsInside(c: Client.State, msg: Message, size: ScreenSize)
    requires MessageInside(msg, size)
    ensures CommandsInside(Injects(Client.Handle(c, msg).1), size)
  {
    var actions := Client.Handle(c, msg).1;
    if msg.Enter? {
      assert actions[1..] == [Client.Inject(MoveAbs(msg.x, msg.y))];
      assert Injects(actions) == [] + Injects(actions[1..]);
      assert Injects(actions[1..]) == [MoveAbs(msg.x, msg.y)];
    } else if msg.IsInput() {
      assert CommandInside(Client.CommandOf(msg), size);
      assert actions == [] || Injects(actions) == [Client.CommandOf(msg)];
    } else {
      assert Injects(actions) == [];
    }
  }

  lemma DeliverKeepsInside(w: World, n: string)
    requires n in w.links && LinkInside(w, n) && w.links[n].wire != []
    ensures n in Next(w, Deliver(n)).links && LinkInside(Next(w, Deliver(n)), n)
  {
    var v, link := Next(w, Deliver(n)), w.links[n];
    assert Pending(w, n)[0] == link.wire[0] && Pending(w, n)[1..] == Pending(v, n);
    InjectsInside(link.client, link.wire[0], link.client.screen);
    assert Delivered(link).client.screen == link.client.screen;
  }

  lemma BroadcastKeepsInside(w: World, msg: Message, n: string)
    requires n in w.links && LinkInside(w, n) && (msg.KeepAlive? || msg.ClipboardData?)
    ensures LinkInside(w.(hub := Broadcast(w.hub, msg)), n)
  {
    var extra := if n in w.hub.clients then [msg] else [];
    assert Pending(w.(hub := Broadcast(w.hub, msg)), n) == Pending(w, n) + extra;
    GainsInside(w, w.(hub := Broadcast(w.hub, msg)), n, extra);
  }

  /** Every step but a capture adds to a surviving link's pending messages only ones without coordinates. */
  lemma OtherStepKeepsLinkInside(w: World, l: Ledger, step: Step, n: string)
    requires GeoInv(w, l) && !step.Capture? && n in Next(w, step).links && n in w.links
    ensures LinkInside(Next(w, step), n)
  {
    assert LinkInside(w, n);
    if step.KeepAliveTick? {
      BroadcastKeepsInside(w, KeepAlive, n);
    } else if step.ClipboardOut? && |step.data| <= MAX_CLIPBOARD_LEN {
      BroadcastKeepsInside(w, ClipboardData(0, step.clipSeq, 0, step.data), n);
    } else if step.Deliver? && step.name == n && w.links[n].wire != [] {
      DeliverKeepsInside(w, n);
    } else if step.Converse? && step.name == n {
      assert LinkOk(w, l, n);
      ConverseKeepsInside(w, n);
    } else {
      OtherStepKeepsPending(w, l, step, n);
      GainsNothing(w, Next(w, step), n);
    }
  }

  predicate SamePending(w: World, v: World, n: string)
    requires n in w.links && n in v.links
  {
    && v.links[n].client == w.links[n].client && v.links[n].injected == w.links[n].injected
    && Pending(v, n) == Pending(w, n)
  }

  lemma HangupKeepsPending(w: World, l: Ledger, k: string, n: string)
    requires Inv(w, l) && n in w.links && n in Next(w, Hangup(k)).links
    ensures SamePending(w, Next(w, Hangup(k)), n)
  {
    if k in w.links {
      HangupKeepsHub(w, l, k);
    }
  }

  lemma AttachKeepsPending(w: World, l: Ledger, k: string, n: string)
    requires Inv(w, l) && n in w.links
    ensures SamePending(w, Next(w, Attach(k)), n)
  {
    assert LinkOk(w, l, n);
  }

  lemma PumpKeepsPending(w: World, k: string, n: string)
    requires n in w.links
    ensures SamePending(w, Next(w, Pump(k)), n)
  {
  }

  lemma OtherStepKeepsPending(w: World, l: Ledger, step: Step, n: string)
    requires Inv(w, l) && !step.Capture? && n in Next(w, step).links && n in w.links
    requires !step.KeepAliveTick? && !(step.ClipboardOut? && |step.data| <= MAX_CLIPBOARD_LEN)
    requires !((step.Converse? || step.Deliver?) && step.name == n && Next(w, step) != w)
    ensures SamePending(w, Next(w, step), n)
  {
    if step.Hangup? {
      HangupKeepsPending(w, l, step.name, n);
    } else if step.Attach? {
      AttachKeepsPending(w, l, step.name, n);
    } else if step.Pump? {
      PumpKeepsPending(w, step.name, n);
    }
  }

  lemma GainsNothing(w: World, v: World, n: string)
    requires n in w.links && n in v.links && LinkInside(w, n)
    requires v.links[n].client.screen == w.links[n].client.screen && v.links[n].injected == w.links[n].injected
    requires Pending(v, n) == Pending(w, n)
    ensures LinkInside(v, n)
  {
  }

  /** What the connection task says during the handshake. */
  predicate Courtesy(m: Message) {
    m.ErrIncompatible? || m.ErrUnknown? || m.QueryInfo? || m in WELCOME
  }

  lemma ConverseAppends(w: World, n: string) returns (extra: seq<Message>)
    requires n in w.links && (n in w.hub.clients ==> w.links[n].phase.Attached?)
    ensures forall m <- extra :: Courtesy(m)
    ensures var v := Next(w, Converse(n));
      && n in v.links && v.links[n].client == w.links[n].client && v.links[n].injected == w.links[n].injected
      && Pending(v, n) == Pending(w, n) + extra
  {
    var v := Next(w, Converse(n));
    if n in w.hub.clients || w.links[n].replies == [] {
      extra := [];
    } else {
      extra := v.links[n].wire[|w.links[n].wire|..];
      assert v.links[n].wire == w.links[n].wire + extra;
    }
    assert Pending(v, n) == Pending(w, n) + extra;
  }

  lemma ConverseKeepsInside(w: World, n: string)
    requires n in w.links && LinkInside(w, n) && (n in w.hub.clients ==> w.links[n].phase.Attached?)
    ensures n in Next(w, Converse(n)).links && LinkInside(Next(w, Converse(n)), n)
  {
    var extra := ConverseAppends(w, n);
    GainsInside(w, Next(w, Converse(n)), n, extra);
  }

  predicate DisplayableStep(step: Step) {
    step.Connect? ==> Displayable(step.size)
  }

  lemma AttachKeepsSizes(w: World, l: Ledger, n: string)
    requires GeoInv(w, l)
    ensures AllDisplayable(Next(w, Attach(n)).hub.server.nodes)
    ensures CursorInside(Next(w, Attach(n)), Observe(l, w, Attach(n)))
  {
    if n in w.links && w.links[n].phase.Ready? {
      assert LinkOk(w, l, n) && LinkInside(w, n);
    }
  }

  lemma StepKeepsGeo(w: World, l: Ledger, step: Step)
    requires GeoInv(w, l) && DisplayableStep(step)
    ensures GeoInv(Next(w, step), Observe(l, w, step))
  {
    if step.Capture? {
      CaptureKeepsGeo(w, l, step.ev);
    } else {
      StepKeepsInv(w, l, step);
      if step.Attach? {
        AttachKeepsSizes(w, l, step.name);
      } else if step.Hangup? && step.name in w.links {
        HangupKeepsHub(w, l, step.name);
      }
      forall n | n in Next(w, step).links
        ensures LinkInside(Next(w, step), n)
      {
        if n in w.links {
          OtherStepKeepsLinkInside(w, l, step, n);
        }
      }
    }
  }

  // --- Runs -------------------------------------------------------------------------------------

  ghost predicate DisplayableSteps(steps: seq<Step>) {
    forall step :: step in steps ==> DisplayableStep(step)
  }

  lemma {:induction false} RunKeepsGeo(w: World, l: Ledger, steps: seq<Step>)
    requires GeoInv(w, l) && DisplayableSteps(steps)
    ensures GeoInv(Run(w, steps), Watch(l, w, steps))
    decreases |steps|
  {
    if steps != [] {
      StepKeepsGeo(w, l, steps[0]);
      RunKeepsGeo(Next(w, steps[0]), Observe(l, w, steps[0]), steps[1..]);
    }
  }

  /** As `Reached`, in a world of displayable screens. */
  ghost predicate ReachedOnScreens(w: World, l: Ledger) {
    exists nodes, local, steps ::
      && AllDisplayable(nodes) && DisplayableSteps(steps)
      && w == Run(Initial(nodes, local), steps) && l == Watch(BLANK, Initial(nodes, local), steps)
  }

  lemma ReachedGeo(w: World, l: Ledger)
    requires ReachedOnScreens(w, l)
    ensures GeoInv(w, l) && Reached(w, l)
  {
    var nodes, local, steps :|
      && AllDisplayable(nodes) && DisplayableSteps(steps)
      && w == Run(Initial(nodes, local), steps) && l == Watch(BLANK, Initial(nodes, local), steps);
    RunKeepsGeo(Initial(nodes, local), BLANK, steps);
  }

  /** Every absolute position a client ever injects lies on that client's own screen, and it injects no relative motion. */
  lemma InjectedOnScreen(w: World, l: Ledger, n: string, cmd: InputCommand)
    requires ReachedOnScreens(w, l) && n in w.links && cmd in w.links[n].injected
    ensures !cmd.MoveRel?
    ensures cmd.MoveAbs? ==> Inside(w.links[n].client.screen, cmd.x, cmd.y)
  {
    ReachedGeo(w, l);
    assert LinkInside(w, n);
  }

  /** While a visited client received its `Enter`, its settled pointer is the server's cursor, and on its screen. */
  lemma PointerAgreesOnScreen(w: World, l: Ledger, n: string)
    requires ReachedOnScreens(w, l) && n in w.links && l.delivered && Visiting(w.hub.server, n)
    ensures var s := w.hub.server;
      && LastAbs(Settled(w, n).injected) == Some((s.cursorX, s.cursorY))
      && Inside(w.links[n].client.screen, s.cursorX, s.cursorY)
  {
    ReachedGeo(w, l);
    PointerAgrees(w, l, n);
    assert LinkOk(w, l, n) && LinkInside(w, n);
  }
}
