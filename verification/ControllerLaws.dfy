/**
 What the controller makes of its events: announcements reach every connected client, each of them in order and
 once, and the real cursor is warped to wherever it comes home.
 */
module ControllerLaws {
  import opened Wrappers
  import opened MachineInts
  import opened Messages
  import opened Layout
  import opened Controller
  import opened World
  import opened Routing
  import opened RoutingInvariant
  import opened RoutingTheorems
  import opened CrossingLaws
  import opened EdgeLaws
  import Geometry
  import Server

  // --- Announcements ----------------------------------------------------------------------------

  /** What this step has to say to whoever is connected. */
  function Announcement(step: Step): seq<Message> {
    match step
    case KeepAliveTick => [KeepAlive]
    case ClipboardOut(clipSeq, data) =>
      if |data| <= MAX_CLIPBOARD_LEN then [ClipboardData(0, clipSeq, 0, data)] else []
    case _ => []
  }

  /** A tick or a copied text is put behind what is on its way to every connected client, and does nothing else. */
  lemma AnnouncedToAll(w: World, step: Step, n: string)
    requires n in w.links && (step.KeepAliveTick? || step.ClipboardOut?)
    ensures var v := Next(w, step);
      && v == w.(hub := w.hub.(clients := v.hub.clients)) && v.hub.clients.Keys == w.hub.clients.Keys
      && Pending(v, n) == Pending(w, n) + if n in w.hub.clients then Announcement(step) else []
  {
    if n in w.hub.clients {
      assert Pending(Next(w, step), n) == Pending(w, n) + Announcement(step);
    }
  }

  // --- Everything is heard, in order ------------------------------------------------------------

  /** What a step puts on the queue of a connected client. */
  function Sends(w: World, step: Step, n: string): seq<Message> {
    match step
    case Capture(ev) => MessagesFor(Server.Handle(w.hub.server, ev).1, n)
    case _ => Announcement(step)
  }

  function SentOver(w: World, steps: seq<Step>, n: string): seq<Message>
    decreases |steps|
  {
    if steps == [] then [] else Sends(w, steps[0], n) + SentOver(Next(w, steps[0]), steps[1..], n)
  }

  /** What client `n` takes off its wire in a step. */
  function Hears(w: World, step: Step, n: string): seq<Message> {
    if step == Deliver(n) && n in w.links && w.links[n].wire != [] then [w.links[n].wire[0]] else []
  }

  function HeardOver(w: World, steps: seq<Step>, n: string): seq<Message>
    decreases |steps|
  {
    if steps == [] then [] else Hears(w, steps[0], n) + HeardOver(Next(w, steps[0]), steps[1..], n)
  }

  predicate Connected(w: World, n: string) {
    n in w.links && n in w.hub.clients
  }

  /** Client `n` stays connected, and nothing on its way is lost, added or overtaken. */
  predicate Conserves(w: World, step: Step, n: string)
    requires Connected(w, n)
  {
    var v := Next(w, step);
    Connected(v, n) && Hears(w, step, n) + Pending(v, n) == Pending(w, n) + Sends(w, step, n)
  }

  lemma CaptureConserves(w: World, ev: LocalEvent, n: string)
    requires Connected(w, n)
    ensures Conserves(w, Capture(ev), n)
  {
    CapturePending(w, ev, n);
  }

  lemma DeliverConserves(w: World, n: string)
    requires Connected(w, n) && w.links[n].wire != []
    ensures Conserves(w, Deliver(n), n)
  {
    assert [w.links[n].wire[0]] + w.links[n].wire[1..] == w.links[n].wire;
  }

  lemma ConverseConserves(w: World, l: Ledger, n: string)
    requires Inv(w, l) && Connected(w, n)
    ensures Conserves(w, Converse(n), n)
  {
    assert LinkOk(w, l, n);
  }

  lemma AnnounceConserves(w: World, step: Step, n: string)
    requires Connected(w, n) && (step.KeepAliveTick? || step.ClipboardOut?)
    ensures Conserves(w, step, n)
  {
    AnnouncedToAll(w, step, n);
  }

  lemma StaysConnected(w: World, l: Ledger, step: Step, n: string)
    requires Inv(w, l) && Connected(w, n) && step != Hangup(n) && !step.Capture?
    ensures Connected(Next(w, step), n)
  {
    assert LinkOk(w, l, n);
    if step.Hangup? && step.name in w.links {
      HangupKeepsHub(w, l, step.name);
    }
  }

  lemma OtherConserves(w: World, l: Ledger, step: Step, n: string)
    requires Inv(w, l) && Connected(w, n) && step != Hangup(n)
    requires !step.Capture? && !step.KeepAliveTick? && !step.ClipboardOut? && step != Converse(n)
    requires step == Deliver(n) ==> w.links[n].wire == []
    ensures Conserves(w, step, n)
  {
    StaysConnected(w, l, step, n);
    Geometry.OtherStepKeepsPending(w, l, step, n);
  }

  lemma StepConserves(w: World, l: Ledger, step: Step, n: string)
    requires Inv(w, l) && Connected(w, n) && step != Hangup(n)
    ensures Conserves(w, step, n)
  {
    if step.Capture? {
      CaptureConserves(w, step.ev, n);
    } else if step.KeepAliveTick? || step.ClipboardOut? {
      AnnounceConserves(w, step, n);
    } else if step == Deliver(n) && w.links[n].wire != [] {
      DeliverConserves(w, n);
    } else if step == Converse(n) {
      ConverseConserves(w, l, n);
    } else {
      OtherConserves(w, l, step, n);
    }
  }

  lemma Chained(heard: seq<Message>, heardLater: seq<Message>, last: seq<Message>, mid: seq<Message>,
                first: seq<Message>, sent: seq<Message>, sentLater: seq<Message>)
    requires heard + mid == first + sent && heardLater + last == mid + sentLater
    ensures heard + heardLater + last == first + (sent + sentLater)
  {
    assert heard + heardLater + last == heard + (heardLater + last) == heard + mid + sentLater;
    assert first + sent + sentLater == first + (sent + sentLater);
  }

  /**
   While a connection lasts, what its client has heard and then what is still on its way is what was on its way and
   then what was sent.
   */
  lemma {:induction false} HeardInOrder(w: World, l: Ledger, steps: seq<Step>, n: string)
    requires Inv(w, l) && Connected(w, n) && Hangup(n) !in steps
    ensures var v := Run(w, steps);
      Connected(v, n) && HeardOver(w, steps, n) + Pending(v, n) == Pending(w, n) + SentOver(w, steps, n)
    decreases |steps|
  {
    if steps != [] {
      var v, m := Next(w, steps[0]), Observe(l, w, steps[0]);
      StepConserves(w, l, steps[0], n);
      StepKeepsInv(w, l, steps[0]);
      HeardInOrder(v, m, steps[1..], n);
      Chained(Hears(w, steps[0], n), HeardOver(v, steps[1..], n), Pending(Run(v, steps[1..]), n), Pending(v, n),
              Pending(w, n), Sends(w, steps[0], n), SentOver(v, steps[1..], n));
    }
  }

  // --- Announcements, picked out ----------------------------------------------------------------

  function IfAnnounced(m: Message): seq<Message> {
    if m.KeepAlive? || m.ClipboardData? then [m] else []
  }

  /** The announcements among some messages. */
  function Announced(msgs: seq<Message>): seq<Message>
    decreases |msgs|
  {
    if msgs == [] then [] else IfAnnounced(msgs[0]) + Announced(msgs[1..])
  }

  lemma {:induction false} AnnouncedAppend(a: seq<Message>, b: seq<Message>)
    ensures Announced(a + b) == Announced(a) + Announced(b)
    decreases |a|
  {
    if a == [] {
      assert a + b == b;
    } else {
      assert (a + b)[0] == a[0] && (a + b)[1..] == a[1..] + b;
      AnnouncedAppend(a[1..], b);
      assert IfAnnounced(a[0]) + (Announced(a[1..]) + Announced(b)) == IfAnnounced(a[0]) + Announced(a[1..]) + Announced(b);
    }
  }

  lemma {:induction false} NoneAnnounced(msgs: seq<Message>)
    requires forall m <- msgs :: !m.KeepAlive? && !m.ClipboardData?
    ensures Announced(msgs) == []
    decreases |msgs|
  {
    if msgs != [] {
      NoneAnnounced(msgs[1..]);
    }
  }

  /** What these steps had to say, in order. */
  function Announcements(steps: seq<Step>): seq<Message>
    decreases |steps|
  {
    if steps == [] then [] else Announcement(steps[0]) + Announcements(steps[1..])
  }

  lemma SendsAnnounce(w: World, step: Step, n: string)
    ensures Announced(Sends(w, step, n)) == Announcement(step)
  {
    if step.Capture? {
      var s, t := w.hub.server, Server.Handle(w.hub.server, step.ev).0;
      var o := HandleOutcome(s, step.ev);
      OutcomeEffect(s, t, o, n, w.hub.grab);
      NoneAnnounced(OutcomeMessages(s, t, o, n));
    }
  }

  lemma {:induction false} SentOverAnnounces(w: World, steps: seq<Step>, n: string)
    ensures Announced(SentOver(w, steps, n)) == Announcements(steps)
    decreases |steps|
  {
    if steps != [] {
      SendsAnnounce(w, steps[0], n);
      SentOverAnnounces(Next(w, steps[0]), steps[1..], n);
      AnnouncedAppend(Sends(w, steps[0], n), SentOver(Next(w, steps[0]), steps[1..], n));
    }
  }

  lemma AttachedUnannounced(w: World, l: Ledger, n: string)
    requires Inv(w, l) && n in w.links && w.links[n].phase.Ready?
    ensures var v := Next(w, Attach(n)); Connected(v, n) && Announced(Pending(v, n)) == []
  {
    assert LinkOk(w, l, n);
    NoneAnnounced(Pending(Next(w, Attach(n)), n));
  }

  lemma AnnouncedInOrder(w: World, l: Ledger, steps: seq<Step>, n: string)
    requires Inv(w, l) && Connected(w, n) && Hangup(n) !in steps
    ensures Connected(Run(w, steps), n)
    ensures Announced(HeardOver(w, steps, n)) + Announced(Pending(Run(w, steps), n))
         == Announced(Pending(w, n)) + Announcements(steps)
  {
    HeardInOrder(w, l, steps, n);
    AnnouncedAppend(HeardOver(w, steps, n), Pending(Run(w, steps), n));
    AnnouncedAppend(Pending(w, n), SentOver(w, steps, n));
    SentOverAnnounces(w, steps, n);
  }

  /**
   From the moment a client is attached, the keep-alives and clipboard texts it has heard, and those still on their
   way to it, are just the ticks and copies since then, in order.
   */
  lemma AnnouncementsHeard(w: World, l: Ledger, n: string, steps: seq<Step>)
    requires Inv(w, l) && n in w.links && w.links[n].phase.Ready? && Hangup(n) !in steps
    ensures var attached := Next(w, Attach(n));
      && n in Run(attached, steps).links
      && Announced(HeardOver(attached, steps, n)) + Announced(Pending(Run(attached, steps), n)) == Announcements(steps)
  {
    StepKeepsInv(w, l, Attach(n));
    AttachedUnannounced(w, l, n);
    AnnouncedInOrder(Next(w, Attach(n)), Observe(l, w, Attach(n)), steps, n);
  }

  // --- Warping the real cursor ------------------------------------------------------------------

  function WarpAfter(warp: Option<(int, int)>, actions: seq<Server.Action>): Option<(int, int)>
    decreases |actions|
  {
    if actions == [] then warp
    else WarpAfter(if actions[0].WarpCursor? then Some((actions[0].x, actions[0].y)) else warp, actions[1..])
  }

  lemma {:induction false} DispatchWarps(h: Hub, actions: seq<Server.Action>)
    ensures DispatchAll(h, actions).warp == WarpAfter(h.warp, actions)
    decreases |actions|
  {
    if actions != [] {
      DispatchWarps(Dispatch(h, actions[0]), actions[1..]);
    }
  }

  lemma {:induction false} WarpSplits(warp: Option<(int, int)>, a: seq<Server.Action>, b: seq<Server.Action>)
    ensures WarpAfter(warp, a + b) == WarpAfter(WarpAfter(warp, a), b)
    decreases |a|
  {
    if a == [] {
      assert a + b == b;
    } else {
      assert (a + b)[0] == a[0] && (a + b)[1..] == a[1..] + b;
      WarpSplits(if a[0].WarpCursor? then Some((a[0].x, a[0].y)) else warp, a[1..], b);
    }
  }

  lemma OneWarp(warp: Option<(int, int)>, a: Server.Action)
    ensures WarpAfter(warp, [a]) == if a.WarpCursor? then Some((a.x, a.y)) else warp
  {
    assert [a][1..] == [];
  }

  lemma HomeWarps(warp: Option<(int, int)>, head: seq<Server.Action>, x: int, y: int, local: string)
    ensures WarpAfter(warp, head + [Server.SetGrab(false), Server.WarpCursor(x, y), Server.ActiveChanged(local)])
         == Some((x, y))
  {
    var grab, rest := [Server.SetGrab(false)], [Server.WarpCursor(x, y)] + [Server.ActiveChanged(local)];
    assert [Server.SetGrab(false), Server.WarpCursor(x, y), Server.ActiveChanged(local)] == grab + rest;
    WarpSplits(warp, head, grab + rest);
    var before := WarpAfter(warp, head);
    WarpSplits(before, grab, rest);
    WarpSplits(WarpAfter(before, grab), [Server.WarpCursor(x, y)], [Server.ActiveChanged(local)]);
    OneWarp(WarpAfter(before, grab), Server.WarpCursor(x, y));
    OneWarp(Some((x, y)), Server.ActiveChanged(local));
  }

  lemma {:induction false} NoWarp(warp: Option<(int, int)>, actions: seq<Server.Action>)
    requires forall a <- actions :: !a.WarpCursor?
    ensures WarpAfter(warp, actions) == warp
    decreases |actions|
  {
    if actions != [] {
      NoWarp(warp, actions[1..]);
    }
  }

  /** The real cursor is left alone, or put where the server has it on the local screen. */
  predicate WarpedWith(was: Option<(int, int)>, now: Option<(int, int)>, s: Server.State) {
    now == was || (!s.Remote() && now == Some((s.cursorX, s.cursorY)))
  }

  lemma CaptureWarps(w: World, ev: LocalEvent)
    ensures var v := Next(w, Capture(ev));
      && WarpedWith(w.hub.warp, v.hub.warp, v.hub.server)
      && (w.hub.server.Remote() && !v.hub.server.Remote() ==>
            v.hub.warp == Some((v.hub.server.cursorX, v.hub.server.cursorY)))
  {
    var s := w.hub.server;
    var (t, actions) := Server.Handle(s, ev);
    DispatchLocal(w.hub.(server := t), actions);
    DispatchWarps(w.hub.(server := t), actions);
    var o := HandleOutcome(s, ev);
    if o.Home? {
      HomeWarps(w.hub.warp, if s.Remote() then [Server.Send(s.active, Leave)] else [], t.cursorX, t.cursorY, s.local);
    } else {
      NoWarp(w.hub.warp, actions);
    }
  }

  lemma HangupWarps(w: World, n: string)
    requires n in w.links && w.links[n].phase.Attached? && w.hub.server.active == n && w.hub.server.Remote()
    ensures var v := Next(w, Hangup(n));
      && v.hub.server == Server.GoHome(w.hub.server).0
      && v.hub.warp == Some((v.hub.server.cursorX, v.hub.server.cursorY))
  {
    var (t, actions) := Server.GoHome(w.hub.server);
    var h := w.hub.(clients := w.hub.clients - {n}, server := t);
    DispatchLocal(h, actions);
    DispatchWarps(h, actions);
    HomeWarps(h.warp, [], t.cursorX, t.cursorY, t.local);
    assert [] + actions == actions;
  }

  /**
   Whenever the cursor comes home, by itself or called, the real one is put where the server has it; it is never put
   anywhere else.
   */
  lemma WarpedHome(w: World, step: Step)
    ensures var v := Next(w, step);
      && WarpedWith(w.hub.warp, v.hub.warp, v.hub.server)
      && (w.hub.server.Remote() && !v.hub.server.Remote() ==>
            v.hub.warp == Some((v.hub.server.cursorX, v.hub.server.cursorY)))
  {
    match step
    case Capture(ev) => CaptureWarps(w, ev);
    case Hangup(n) =>
      if n in w.links && w.links[n].phase.Attached? && w.hub.server.active == n && w.hub.server.Remote() {
        HangupWarps(w, n);
      }
    case _ =>
  }

  /** A client lost while it has the cursor leaves the operator in the middle of the local screen, ungrabbed. */
  lemma LostClientCentres(w: World, l: Ledger, n: string)
    requires Inv(w, l) && n in w.links && w.links[n].phase.Attached? && w.hub.server.active == n && w.hub.server.Remote()
    requires w.hub.server.local in w.hub.server.nodes && Sized(w.hub.server.nodes[w.hub.server.local].size)
    ensures var v := Next(w, Hangup(n));
      && !v.hub.server.Remote() && !v.hub.grab
      && v.hub.server.local in v.hub.server.nodes && Centred(v.hub.server)
      && v.hub.warp == Some((v.hub.server.cursorX, v.hub.server.cursorY))
  {
    HangupWarps(w, n);
    CalledHome(w.hub.server);
    HangupKeepsHub(w, l, n);
    assert LinkOk(w, l, n);
  }

  /** A client lost while the cursor is elsewhere leaves everything but its own queue as it was. */
  lemma OtherClientLost(w: World, n: string)
    requires n in w.links && w.links[n].phase.Attached? && w.hub.server.active != n
    ensures Next(w, Hangup(n)) == World(w.hub.(clients := w.hub.clients - {n}), w.links - {n})
  {
  }
}
