/**
 What any run of the switching system guarantees. Each theorem speaks of the world `w` reached from
 a fresh start by an arbitrary sequence of steps, and of the ledger `l` an observer kept of that run.
 */
module RoutingTheorems {
  import opened Wrappers
  import opened MachineInts
  import opened Messages
  import opened Layout
  import opened World
  import opened Routing
  import opened RoutingInvariant
  import Server

  /** `w` and `l` are what some run from a fresh start leads to. */
  ghost predicate Reached(w: World, l: Ledger) {
    exists nodes, local, steps ::
      w == Run(Initial(nodes, local), steps) && l == Watch(BLANK, Initial(nodes, local), steps)
  }

  lemma ReachedInv(w: World, l: Ledger)
    requires Reached(w, l)
    ensures Inv(w, l)
  {
    var nodes, local, steps :|
      w == Run(Initial(nodes, local), steps) && l == Watch(BLANK, Initial(nodes, local), steps);
    ReachableInv(nodes, local, steps);
  }

  // --- Who is entered ---------------------------------------------------------------------------

  /** Once its queues drain, a client is entered exactly if it has the cursor and was connected when entered. */
  lemma EnteredExactlyWhenVisited(w: World, l: Ledger, n: string)
    requires Reached(w, l) && n in w.links
    ensures Settled(w, n).client.entered <==> l.delivered && Visiting(w.hub.server, n)
  {
    ReachedInv(w, l);
    assert LinkOk(w, l, n);
  }

  lemma {:induction false} OnlyLeaveLeaves(seat: Seat, msgs: seq<Message>)
    requires seat.client.entered && Leave !in msgs
    ensures Absorb(seat, msgs).client.entered
    decreases |msgs|
  {
    if msgs != [] {
      OnlyLeaveLeaves(Feed(seat, msgs[0]), msgs[1..]);
    }
  }

  /** A client that still believes it is entered, though the cursor has gone, has a `Leave` on its way. */
  lemma StaleEntryHasLeavePending(w: World, l: Ledger, n: string)
    requires Reached(w, l) && n in w.links
    requires w.links[n].client.entered && !Visiting(w.hub.server, n)
    ensures Leave in Pending(w, n)
  {
    EnteredExactlyWhenVisited(w, l, n);
    if Leave !in Pending(w, n) {
      OnlyLeaveLeaves(Seat(w.links[n].client, w.links[n].injected), Pending(w, n));
    }
  }

  /** No two clients whose queues have drained are entered at once. */
  lemma AtMostOneEntered(w: World, l: Ledger, n: string, k: string)
    requires Reached(w, l) && n in w.links && k in w.links
    requires Pending(w, n) == [] && Pending(w, k) == []
    requires w.links[n].client.entered && w.links[k].client.entered
    ensures n == k == w.hub.server.active
  {
    EnteredExactlyWhenVisited(w, l, n);
    EnteredExactlyWhenVisited(w, l, k);
  }

  // --- What is injected -------------------------------------------------------------------------

  /** What client `n` will inject from the messages already on their way to it. */
  function StillToInject(w: World, n: string): seq<InputCommand>
    requires n in w.links
    requires |w.links[n].injected| <= |Settled(w, n).injected|
  {
    Settled(w, n).injected[|w.links[n].injected|..]
  }

  lemma {:induction false} AbsorbExtends(seat: Seat, msgs: seq<Message>)
    ensures seat.injected <= Absorb(seat, msgs).injected
    decreases |msgs|
  {
    if msgs != [] {
      AbsorbExtends(Feed(seat, msgs[0]), msgs[1..]);
    }
  }

  lemma {:induction false} DiscreteAppend(a: seq<InputCommand>, b: seq<InputCommand>)
    ensures Discrete(a + b) == Discrete(a) + Discrete(b)
    decreases |b|
  {
    if b == [] {
      assert a + b == a;
    } else {
      assert (a + b)[..|a + b| - 1] == a + b[..|b| - 1];
      DiscreteAppend(a, b[..|b| - 1]);
    }
  }

  lemma CapturedOnceSettled(w: World, l: Ledger, n: string)
    requires Reached(w, l) && n in w.links
    ensures n in l.accounts && Discrete(Settled(w, n).injected) == l.accounts[n].captured
  {
    ReachedInv(w, l);
    assert LinkOk(w, l, n);
  }

  lemma SplitSettled(w: World, n: string)
    requires n in w.links
    ensures w.links[n].injected <= Settled(w, n).injected
    ensures Settled(w, n).injected == w.links[n].injected + StillToInject(w, n)
    ensures Pending(w, n) == [] ==> StillToInject(w, n) == []
  {
    AbsorbExtends(Seat(w.links[n].client, w.links[n].injected), Pending(w, n));
  }

  /**
   Exactly once, in order: the buttons, wheel turns and keys a client has injected, followed by those its
   queues will still make it inject, are the events captured while it was visited after a delivered `Enter`.
   */
  lemma RoutedExactlyOnce(w: World, l: Ledger, n: string)
    requires Reached(w, l) && n in w.links
    ensures n in l.accounts
    ensures w.links[n].injected <= Settled(w, n).injected
    ensures Discrete(w.links[n].injected) + Discrete(StillToInject(w, n)) == l.accounts[n].captured
    ensures Pending(w, n) == [] ==> Discrete(w.links[n].injected) == l.accounts[n].captured
  {
    CapturedOnceSettled(w, l, n);
    SplitSettled(w, n);
    DiscreteAppend(w.links[n].injected, StillToInject(w, n));
  }

  /** The visited client's pointer, once its queues drain, is the server's cursor cut to sixteen bits... */
  lemma PointerFollows(w: World, l: Ledger, n: string)
    requires Reached(w, l) && n in w.links && l.delivered && Visiting(w.hub.server, n)
    ensures var s := w.hub.server;
      LastAbs(Settled(w, n).injected) == Some((AsI16(s.cursorX) as int, AsI16(s.cursorY) as int))
  {
    ReachedInv(w, l);
    assert LinkOk(w, l, n);
  }

  /** ...so it is the server's cursor exactly when the cursor fits sixteen bits. */
  lemma PointerAgrees(w: World, l: Ledger, n: string)
    requires Reached(w, l) && n in w.links && l.delivered && Visiting(w.hub.server, n)
    ensures var s := w.hub.server;
      (LastAbs(Settled(w, n).injected) == Some((s.cursorX, s.cursorY)))
      <==> (-0x8000 <= s.cursorX < 0x8000 && -0x8000 <= s.cursorY < 0x8000)
  {
    PointerFollows(w, l, n);
  }

  // --- Grab and transcript discipline -----------------------------------------------------------

  /**
   Local input is grabbed exactly while the cursor is away, the n-th `Enter` carries n in thirty-two bits,
   and nothing is ever routed to the local screen.
   */
  lemma GrabDiscipline(w: World, l: Ledger)
    requires Reached(w, l)
    ensures w.hub.grab == w.hub.server.Remote()
    ensures Numbered(l.enters, w.hub.server.local)
    ensures w.hub.server.local in w.links ==>
      w.hub.server.local in l.accounts && l.accounts[w.hub.server.local].sent == []
  {
    ReachedInv(w, l);
    if w.hub.server.local in w.links {
      assert LinkOk(w, l, w.hub.server.local);
    }
  }

  /** A transcript read from inside a visit starts with something a transcript from outside cannot start with. */
  lemma {:induction false} OpenAndClosedDiffer(msgs: seq<Message>)
    requires Brackets(true, msgs).Some? && msgs != []
    ensures Brackets(false, msgs).None?
  {
    if |msgs| > 1 {
      OpenAndClosedDiffer(msgs[..|msgs| - 1]);
    }
  }

  /**
   The messages routed to a connected client read (Enter input* Leave)* if and only if it did not attach while the
   cursor was already on its screen, or nothing has been sent since; in the first case they stand open exactly
   while it is visited.
   */
  lemma TranscriptBracketed(w: World, l: Ledger, n: string)
    requires Reached(w, l) && n in w.hub.clients
    ensures n in l.accounts
    ensures var a := l.accounts[n];
      && (Brackets(false, a.sent).Some? <==> !a.joinedMidVisit || a.sent == [])
      && (!a.joinedMidVisit ==> Brackets(false, a.sent) == Some(Visiting(w.hub.server, n)))
  {
    ReachedInv(w, l);
    assert n in w.links && LinkOk(w, l, n);
    var a := l.accounts[n];
    if a.joinedMidVisit && a.sent != [] {
      OpenAndClosedDiffer(a.sent);
    }
  }

  /** Input for a visited, connected client reaches it exactly if an `Enter` was queued since it connected. */
  lemma DeliveredExactlyAfterEnter(w: World, l: Ledger, n: string)
    requires Reached(w, l) && n in w.hub.clients && Visiting(w.hub.server, n)
    ensures n in l.accounts
    ensures l.delivered <==> HasEnter(l.accounts[n].sent)
    ensures !l.accounts[n].joinedMidVisit ==> l.delivered
  {
    ReachedInv(w, l);
    assert n in w.links && LinkOk(w, l, n);
    if !l.accounts[n].joinedMidVisit {
      ClosedThenOpenHasEnter(l.accounts[n].sent);
    }
  }

  lemma {:induction false} ClosedThenOpenHasEnter(msgs: seq<Message>)
    requires Brackets(false, msgs) == Some(true)
    ensures HasEnter(msgs)
  {
    var last := msgs[|msgs| - 1];
    if last.Enter? {
      assert last in msgs;
    } else {
      ClosedThenOpenHasEnter(msgs[..|msgs| - 1]);
      var m :| m in msgs[..|msgs| - 1] && m.Enter?;
      assert m in msgs;
    }
  }

  /** While locked, no captured event moves the cursor to another screen. */
  lemma LockHolds(s: Server.State, ev: LocalEvent)
    requires s.locked
    ensures Server.Handle(s, ev).0.active == s.active && Enters(Server.Handle(s, ev).1) == []
  {
    var (t, actions) := Server.Handle(s, ev);
    if actions != [] {
      OneAction(actions[0], s.active, true);
      assert actions == [actions[0]];
    }
  }

  // --- The handshake ----------------------------------------------------------------------------

  /** Only unknown names are rejected, and a connected screen has the size its client really has, in sixteen bits. */
  lemma HandshakeAdoptsSize(w: World, l: Ledger, n: string)
    requires Reached(w, l) && n in w.links
    ensures var nodes, link := w.hub.server.nodes, w.links[n];
      && (link.phase.Rejected? ==> n !in nodes)
      && (link.phase.Attached? ==>
            && n in nodes
            && nodes[n].size == ScreenSize(AsI16(link.client.screen.w), AsI16(link.client.screen.h)))
  {
    ReachedInv(w, l);
    assert LinkOk(w, l, n);
  }
}
