/** Every step keeps the invariant of `Routing`, so every run from the start does. */
module RoutingInvariant {
  import opened Wrappers
  import opened MachineInts
  import opened Messages
  import opened Layout
  import opened Controller
  import opened World
  import opened Routing
  import Server
  import Client

  // --- One message at a settled client ----------------------------------------------------------

  lemma AppendCommand(cmds: seq<InputCommand>, cmd: InputCommand)
    ensures Discrete(cmds + [cmd]) == Discrete(cmds) + if Client.Gated(cmd) then [] else [cmd]
    ensures LastAbs(cmds + [cmd]) == if cmd.MoveAbs? then Some((cmd.x, cmd.y)) else LastAbs(cmds)
  {
    assert (cmds + [cmd])[..|cmds|] == cmds;
  }

  lemma AppendBracket(open: bool, msgs: seq<Message>, msg: Message)
    requires Brackets(open, msgs).Some?
    ensures var before := Brackets(open, msgs).value;
      Brackets(open, msgs + [msg]) ==
        if msg.Enter? then (if before then None else Some(true))
        else if msg.Leave? then (if before then Some(false) else None)
        else if msg.IsInput() then (if before then Some(true) else None)
        else None
  {
    assert (msgs + [msg])[..|msgs|] == msgs;
  }

  lemma ForwardedHandled(c: Client.State, ev: LocalEvent, msg: Message)
    requires Server.Forwarded(ev) == Some(msg)
    ensures |Translate(ev)| == 1 && !Client.Gated(Translate(ev)[0])
    ensures Client.Handle(c, msg) == (c, if c.entered then [Client.Inject(Translate(ev)[0])] else [])
  {
    match ev
    case Button(_, _) =>
    case Wheel(_, _) =>
    case Key(_, _, _, action) =>
      match action {
        case Down =>
        case Up =>
        case Repeat(_) =>
      }
    case _ =>
  }

  /** A settled client turns a forwarded event into its command exactly if entered. */
  lemma FeedForwarded(seat: Seat, ev: LocalEvent, msg: Message)
    requires Server.Forwarded(ev) == Some(msg)
    ensures Feed(seat, msg).client == seat.client
    ensures Discrete(Feed(seat, msg).injected) == Discrete(seat.injected) + if seat.client.entered then Translate(ev) else []
    ensures LastAbs(Feed(seat, msg).injected) == LastAbs(seat.injected)
  {
    ForwardedHandled(seat.client, ev, msg);
    var cmd := Translate(ev)[0];
    AppendCommand(seat.injected, cmd);
    assert Injects([Client.Inject(cmd)]) == [cmd];
    assert seat.injected + [] == seat.injected;
  }

  lemma FeedMove(seat: Seat, x: i16, y: i16)
    ensures Feed(seat, MouseMove(x, y)).client == seat.client
    ensures Discrete(Feed(seat, MouseMove(x, y)).injected) == Discrete(seat.injected)
    ensures seat.client.entered && seat.client.acked ==>
      LastAbs(Feed(seat, MouseMove(x, y)).injected) == Some((x as int, y as int))
  {
    var cmd := MoveAbs(x, y);
    AppendCommand(seat.injected, cmd);
    assert Injects([Client.Inject(cmd)]) == [cmd];
    assert seat.injected + [] == seat.injected;
  }

  lemma FeedEnter(seat: Seat, x: i16, y: i16, n: u32, modifiers: u16)
    ensures var fed := Feed(seat, Enter(x, y, n, modifiers));
      && fed.client.entered && fed.client.acked == seat.client.acked && fed.client.name == seat.client.name
      && fed.client.screen == seat.client.screen
      && Discrete(fed.injected) == Discrete(seat.injected)
      && LastAbs(fed.injected) == Some((x as int, y as int))
  {
    var cmd := MoveAbs(x, y);
    AppendCommand(seat.injected, cmd);
    assert Client.Handle(seat.client, Enter(x, y, n, modifiers)).1 == [Client.Entered, Client.Inject(cmd)];
    assert Injects([Client.Entered, Client.Inject(cmd)]) == [] + Injects([Client.Inject(cmd)]);
    assert Injects([Client.Inject(cmd)]) == [cmd];
  }

  lemma FeedLeave(seat: Seat)
    ensures Feed(seat, Leave).client == seat.client.(entered := false)
    ensures Feed(seat, Leave).injected == seat.injected
  {
    assert Injects([Client.Action.Left]) == [];
  }

  // --- A captured event -------------------------------------------------------------------------

  lemma CapturePending(w: World, ev: LocalEvent, n: string)
    requires n in w.links
    ensures var v := Next(w, Capture(ev));
      && v.links == w.links && (n in v.hub.clients <==> n in w.hub.clients)
      && Pending(v, n) == Pending(w, n) + if n in w.hub.clients then MessagesFor(Server.Handle(w.hub.server, ev).1, n) else []
  {
    var (t, actions) := Server.Handle(w.hub.server, ev);
    var h := w.hub.(server := t);
    DispatchLocal(h, actions);
    if n in w.hub.clients {
      DispatchQueues(h, actions, n);
      assert Pending(Next(w, Capture(ev)), n) == Pending(w, n) + MessagesFor(actions, n);
    }
  }

  lemma CaptureSettles(w: World, ev: LocalEvent, n: string)
    requires n in w.links
    ensures var v := Next(w, Capture(ev));
      && n in v.links && v.links[n] == w.links[n]
      && (n in v.hub.clients <==> n in w.hub.clients)
      && Settled(v, n) == if n in w.hub.clients
                          then Absorb(Settled(w, n), MessagesFor(Server.Handle(w.hub.server, ev).1, n))
                          else Settled(w, n)
  {
    CapturePending(w, ev, n);
    if n in w.hub.clients {
      AbsorbAppend(Seat(w.links[n].client, w.links[n].injected), Pending(w, n), MessagesFor(Server.Handle(w.hub.server, ev).1, n));
    }
  }

  /** `Observe` after a captured event whose outcome is `o`. */
  lemma CaptureObserved(w: World, l: Ledger, ev: LocalEvent, t: Server.State, o: Outcome)
    requires Leads(w.hub.server, ev, t, o)
    requires Server.Handle(w.hub.server, ev) == (t, OutcomeActions(w.hub.server, t, o))
    ensures var m := Observe(l, w, Capture(ev));
      && m.delivered == (if o.Entered? then o.to in w.hub.clients else t.Remote() && l.delivered)
      && m.enters == l.enters + (if o.Entered? then [(o.to, t.enterSeq as int)] else [])
      && m.accounts.Keys == l.accounts.Keys
      && forall n :: n in l.accounts ==>
        m.accounts[n] == l.accounts[n].(
          captured := l.accounts[n].captured + (if l.delivered && n == w.hub.server.active then Translate(ev) else []),
          sent := l.accounts[n].sent + (if n in w.hub.clients then OutcomeMessages(w.hub.server, t, o, n) else []))
  {
    var s := w.hub.server;
    forall n {
      OutcomeEffect(s, t, o, n, w.hub.grab);
    }
    OutcomeEffect(s, t, o, s.active, w.hub.grab);
  }

  lemma NextNumber(enters: seq<(string, int)>, local: string, to: string)
    requires Numbered(enters, local) && to != local
    ensures Numbered(enters + [(to, (|enters| + 1) % 0x1_0000_0000)], local)
  {
  }

  lemma WrappingCount(n: nat)
    ensures (n % 0x1_0000_0000 + 1) % 0x1_0000_0000 == (n + 1) % 0x1_0000_0000
  {
  }

  lemma CapturedHub(w: World, ev: LocalEvent, t: Server.State, o: Outcome)
    requires Leads(w.hub.server, ev, t, o)
    requires Server.Handle(w.hub.server, ev) == (t, OutcomeActions(w.hub.server, t, o))
    ensures var s, v := w.hub.server, Next(w, Capture(ev));
      && v.links == w.links && v.hub.server == t && v.hub.clients.Keys == w.hub.clients.Keys
      && v.hub.grab == if o.Home? then false else if o.Entered? && !s.Remote() then true else w.hub.grab
  {
    var s := w.hub.server;
    DispatchLocal(w.hub.(server := t), OutcomeActions(s, t, o));
    OutcomeEffect(s, t, o, s.active, w.hub.grab);
  }

  lemma CaptureKeepsHub(w: World, l: Ledger, ev: LocalEvent, t: Server.State, o: Outcome)
    requires HubOk(w, l)
    requires Leads(w.hub.server, ev, t, o)
    requires Server.Handle(w.hub.server, ev) == (t, OutcomeActions(w.hub.server, t, o))
    ensures HubOk(Next(w, Capture(ev)), Observe(l, w, Capture(ev)))
    ensures Next(w, Capture(ev)).hub.server == t
  {
    var s := w.hub.server;
    CapturedHub(w, ev, t, o);
    CaptureObserved(w, l, ev, t, o);
    if o.Entered? {
      NextNumber(l.enters, s.local, o.to);
      WrappingCount(|l.enters|);
    } else {
      assert l.enters + [] == l.enters;
    }
  }

  /** The account of a connected client across outcome `o`, once its new messages are fed to it. */
  predicate SeatOk(s: Server.State, delivered: bool, seat: Seat, account: Account, n: string) {
    && seat.client.entered == (delivered && Visiting(s, n))
    && Discrete(seat.injected) == account.captured
    && seat.client.acked
    && Brackets(account.joinedMidVisit, account.sent) == Some(Visiting(s, n))
    && (Visiting(s, n) ==> (delivered <==> HasEnter(account.sent)))
    && (n == s.local ==> account.sent == [])
    && (delivered && Visiting(s, n) ==>
          LastAbs(seat.injected) == Some((AsI16(s.cursorX) as int, AsI16(s.cursorY) as int)))
  }

  lemma SentKeepsSeat(s: Server.State, t: Server.State, ev: LocalEvent, msg: Message, delivered: bool, seat: Seat, a: Account, n: string)
    requires SeatOk(s, delivered, seat, a, n) && (delivered ==> s.Remote())
    requires Leads(s, ev, t, Sent(msg))
    ensures var msgs := OutcomeMessages(s, t, Sent(msg), n);
      SeatOk(t, delivered, Absorb(seat, msgs),
             a.(captured := a.captured + (if delivered && n == s.active then Translate(ev) else []), sent := a.sent + msgs), n)
  {
    if n == s.active {
      AbsorbOne(seat, msg);
      AppendBracket(a.joinedMidVisit, a.sent, msg);
      if Translate(ev) == [] && msg.MouseMove? {
        FeedMove(seat, msg.x, msg.y);
      } else {
        FeedForwarded(seat, ev, msg);
      }
    } else {
      assert a.captured + [] == a.captured && a.sent + [] == a.sent;
    }
  }

  lemma HomeKeepsSeat(s: Server.State, t: Server.State, ev: LocalEvent, delivered: bool, seat: Seat, a: Account, n: string)
    requires SeatOk(s, delivered, seat, a, n)
    requires Leads(s, ev, t, Home)
    ensures var msgs := OutcomeMessages(s, t, Home, n);
      SeatOk(t, false, Absorb(seat, msgs), a.(sent := a.sent + msgs), n)
  {
    if Visiting(s, n) {
      AbsorbOne(seat, Leave);
      AppendBracket(a.joinedMidVisit, a.sent, Leave);
      FeedLeave(seat);
    } else {
      assert a.sent + [] == a.sent;
    }
  }

  lemma LeaveClosesSeat(s: Server.State, delivered: bool, seat: Seat, a: Account, n: string)
    requires SeatOk(s, delivered, seat, a, n)
    ensures var msgs := if Visiting(s, n) then [Leave] else [];
      && var left := Absorb(seat, msgs);
      && !left.client.entered && left.client.acked
      && left.injected == seat.injected
      && Brackets(a.joinedMidVisit, a.sent + msgs) == Some(false)
  {
    if Visiting(s, n) {
      AbsorbOne(seat, Leave);
      AppendBracket(a.joinedMidVisit, a.sent, Leave);
      FeedLeave(seat);
    } else {
      assert a.sent + [] == a.sent;
    }
  }

  /** An `Enter` behind a closed transcript opens it, and the client with it. */
  lemma EnterOpensSeat(left: Seat, a: Account, sent: seq<Message>, x: i16, y: i16, number: u32, modifiers: u16)
    requires Brackets(a.joinedMidVisit, sent) == Some(false)
    ensures var enter := Enter(x, y, number, modifiers);
      var seat := Absorb(left, [enter]);
      && seat.client.entered && seat.client.acked == left.client.acked
      && Discrete(seat.injected) == Discrete(left.injected) && LastAbs(seat.injected) == Some((x as int, y as int))
      && Brackets(a.joinedMidVisit, sent + [enter]) == Some(true) && HasEnter(sent + [enter])
  {
    var enter := Enter(x, y, number, modifiers);
    AbsorbOne(left, enter);
    FeedEnter(left, x, y, number, modifiers);
    AppendBracket(a.joinedMidVisit, sent, enter);
    assert enter in sent + [enter];
  }

  lemma SeatOpened(t: Server.State, seat: Seat, a: Account, n: string)
    requires t.active == n != t.local && seat.client.entered && seat.client.acked
    requires Discrete(seat.injected) == a.captured && Brackets(a.joinedMidVisit, a.sent) == Some(true) && HasEnter(a.sent)
    requires LastAbs(seat.injected) == Some((AsI16(t.cursorX) as int, AsI16(t.cursorY) as int))
    ensures SeatOk(t, true, seat, a, n)
  {
  }

  lemma EnteredHere(s: Server.State, t: Server.State, delivered: bool, seat: Seat, a: Account, n: string)
    requires SeatOk(s, delivered, seat, a, n) && t.active == n != t.local
    ensures var enter := Enter(AsI16(t.cursorX), AsI16(t.cursorY), t.enterSeq, t.modifiers);
      var leave := if Visiting(s, n) then [Leave] else [];
      SeatOk(t, true, Absorb(Absorb(seat, leave), [enter]), a.(sent := a.sent + leave + [enter]), n)
  {
    var leave := if Visiting(s, n) then [Leave] else [];
    var enter := Enter(AsI16(t.cursorX), AsI16(t.cursorY), t.enterSeq, t.modifiers);
    var left, sent := Absorb(seat, leave), a.sent + leave;
    LeaveClosesSeat(s, delivered, seat, a, n);
    EnterOpensSeat(left, a, sent, AsI16(t.cursorX), AsI16(t.cursorY), t.enterSeq, t.modifiers);
    SeatOpened(t, Absorb(left, [enter]), a.(sent := sent + [enter]), n);
  }

  lemma EnteredKeepsSeat(s: Server.State, t: Server.State, ev: LocalEvent, to: string, x: int, y: int,
                         delivered: bool, reached: bool, seat: Seat, a: Account, n: string)
    requires SeatOk(s, delivered, seat, a, n)
    requires n == to ==> reached
    requires Leads(s, ev, t, Entered(to, x, y))
    ensures var msgs := OutcomeMessages(s, t, Entered(to, x, y), n);
      SeatOk(t, reached, Absorb(seat, msgs), a.(sent := a.sent + msgs), n)
  {
    if n == to {
      var leave := if Visiting(s, n) then [Leave] else [];
      var enter := Enter(AsI16(x), AsI16(y), t.enterSeq, t.modifiers);
      EnteredHere(s, t, delivered, seat, a, n);
      AbsorbAppend(seat, leave, [enter]);
      assert a.sent + (leave + [enter]) == a.sent + leave + [enter];
    } else {
      var leave := if Visiting(s, n) then [Leave] else [];
      LeaveClosesSeat(s, delivered, seat, a, n);
      assert leave + [] == leave;
    }
  }

  lemma OutcomeKeepsSeat(s: Server.State, t: Server.State, ev: LocalEvent, o: Outcome,
                         delivered: bool, reached: bool, seat: Seat, a: Account, n: string)
    requires SeatOk(s, delivered, seat, a, n) && (delivered ==> s.Remote())
    requires Leads(s, ev, t, o)
    requires o.Entered? && n == o.to ==> reached
    ensures var msgs := OutcomeMessages(s, t, o, n);
      SeatOk(t, if o.Entered? then reached else t.Remote() && delivered, Absorb(seat, msgs),
             a.(captured := a.captured + (if delivered && n == s.active then Translate(ev) else []), sent := a.sent + msgs), n)
  {
    assert a.captured + [] == a.captured && a.sent + [] == a.sent;
    match o
    case Quiet =>
    case Sent(msg) => SentKeepsSeat(s, t, ev, msg, delivered, seat, a, n);
    case Home => HomeKeepsSeat(s, t, ev, delivered, seat, a, n);
    case Entered(to, x, y) => EnteredKeepsSeat(s, t, ev, to, x, y, delivered, reached, seat, a, n);
  }

  lemma CaptureKeepsAttached(w: World, l: Ledger, ev: LocalEvent, t: Server.State, o: Outcome, n: string)
    requires HubOk(w, l) && n in w.links && LinkOk(w, l, n) && n in w.hub.clients
    requires Leads(w.hub.server, ev, t, o)
    requires Server.Handle(w.hub.server, ev) == (t, OutcomeActions(w.hub.server, t, o))
    ensures n in Next(w, Capture(ev)).links && LinkOk(Next(w, Capture(ev)), Observe(l, w, Capture(ev)), n)
  {
    var reached := o.Entered? && o.to in w.hub.clients;
    CaptureSettles(w, ev, n);
    CaptureKeepsHub(w, l, ev, t, o);
    CaptureObserved(w, l, ev, t, o);
    OutcomeEffect(w.hub.server, t, o, n, w.hub.grab);
    OutcomeKeepsSeat(w.hub.server, t, ev, o, l.delivered, reached, Settled(w, n), l.accounts[n], n);
  }

  lemma CaptureKeepsUnattached(w: World, l: Ledger, ev: LocalEvent, t: Server.State, o: Outcome, n: string)
    requires HubOk(w, l) && n in w.links && LinkOk(w, l, n) && n !in w.hub.clients
    requires Leads(w.hub.server, ev, t, o)
    requires Server.Handle(w.hub.server, ev) == (t, OutcomeActions(w.hub.server, t, o))
    ensures n in Next(w, Capture(ev)).links && LinkOk(Next(w, Capture(ev)), Observe(l, w, Capture(ev)), n)
  {
    CaptureSettles(w, ev, n);
    CaptureKeepsHub(w, l, ev, t, o);
    CaptureObserved(w, l, ev, t, o);
    assert l.accounts[n] == Account([], [], false);
  }

  lemma CaptureKeepsInv(w: World, l: Ledger, ev: LocalEvent)
    requires Inv(w, l)
    ensures Inv(Next(w, Capture(ev)), Observe(l, w, Capture(ev)))
  {
    var o := HandleOutcome(w.hub.server, ev);
    var t := Server.Handle(w.hub.server, ev).0;
    CaptureKeepsHub(w, l, ev, t, o);
    forall n | n in w.links
      ensures LinkOk(Next(w, Capture(ev)), Observe(l, w, Capture(ev)), n)
    {
      if n in w.hub.clients {
        CaptureKeepsAttached(w, l, ev, t, o, n);
      } else {
        CaptureKeepsUnattached(w, l, ev, t, o, n);
      }
    }
  }

  // --- The other steps --------------------------------------------------------------------------

  /** A link that a step leaves alone keeps its part of the invariant. */
  lemma Untouched(w: World, l: Ledger, v: World, m: Ledger, n: string)
    requires n in w.links && LinkOk(w, l, n)
    requires n in v.links && v.links[n] == w.links[n] && n in m.accounts && m.accounts[n] == l.accounts[n]
    requires n in v.hub.clients <==> n in w.hub.clients
    requires n in w.hub.clients ==> v.hub.clients[n] == w.hub.clients[n]
    requires (m.delivered && Visiting(v.hub.server, n)) == (l.delivered && Visiting(w.hub.server, n))
    requires Visiting(v.hub.server, n) == Visiting(w.hub.server, n)
    requires Visiting(v.hub.server, n) ==> v.hub.server.cursorX == w.hub.server.cursorX && v.hub.server.cursorY == w.hub.server.cursorY
    requires v.hub.server.local == w.hub.server.local && v.hub.server.nodes.Keys == w.hub.server.nodes.Keys
    requires n in w.hub.server.nodes ==> v.hub.server.nodes[n].size == w.hub.server.nodes[n].size
    ensures LinkOk(v, m, n)
  {
    assert Settled(v, n) == Settled(w, n);
  }

  lemma LockKeepsInv(w: World, l: Ledger, on: bool)
    requires Inv(w, l)
    ensures Inv(Next(w, Lock(on)), l)
  {
    forall n | n in w.links
      ensures LinkOk(Next(w, Lock(on)), l, n)
    {
      Untouched(w, l, Next(w, Lock(on)), l, n);
    }
  }

  lemma FeedBroadcast(seat: Seat, msg: Message)
    requires msg.KeepAlive? || msg.ClipboardData?
    ensures Feed(seat, msg) == seat
  {
    assert Injects(Client.Handle(seat.client, msg).1) == [];
    assert seat.injected + [] == seat.injected;
  }

  lemma BroadcastSettles(w: World, msg: Message, n: string)
    requires msg.KeepAlive? || msg.ClipboardData?
    requires n in w.links && n in w.hub.clients
    ensures Settled(w.(hub := Broadcast(w.hub, msg)), n) == Settled(w, n)
  {
    var seat := Seat(w.links[n].client, w.links[n].injected);
    assert Pending(w.(hub := Broadcast(w.hub, msg)), n) == Pending(w, n) + [msg];
    AbsorbAppend(seat, Pending(w, n), [msg]);
    AbsorbOne(Settled(w, n), msg);
    FeedBroadcast(Settled(w, n), msg);
  }

  lemma BroadcastKeepsInv(w: World, l: Ledger, msg: Message)
    requires Inv(w, l) && (msg.KeepAlive? || msg.ClipboardData?)
    ensures Inv(w.(hub := Broadcast(w.hub, msg)), l)
  {
    var v := w.(hub := Broadcast(w.hub, msg));
    forall n | n in w.links
      ensures LinkOk(v, l, n)
    {
      if n in w.hub.clients {
        BroadcastSettles(w, msg, n);
      } else {
        Untouched(w, l, v, l, n);
      }
    }
  }

  lemma ConnectKeepsInv(w: World, l: Ledger, n: string, size: ScreenSize)
    requires Inv(w, l)
    ensures Inv(Next(w, Connect(n, size)), Observe(l, w, Connect(n, size)))
  {
    var v, m := Next(w, Connect(n, size)), Observe(l, w, Connect(n, size));
    if n !in w.links {
      forall k | k in v.links
        ensures LinkOk(v, m, k)
      {
        if k == n {
          var seat, hello := Seat(Client.Initial(n, size), []), Hello(PROTOCOL_MAJOR, PROTOCOL_MINOR);
          assert Pending(v, n) == [hello];
          AbsorbOne(seat, hello);
          assert Injects(Client.Handle(seat.client, hello).1) == [];
        } else {
          Untouched(w, l, v, m, k);
        }
      }
    }
  }

  /** Handshake messages leave the settled client as it is, except that `InfoAck` acknowledges it. */
  lemma FeedHandshake(seat: Seat, msg: Message)
    requires msg.Hello? || msg.QueryInfo? || msg.InfoAck? || msg.ResetOptions? || msg.SetOptions? || msg.ErrUnknown?
    ensures Feed(seat, msg) == if msg.InfoAck? then seat.(client := seat.client.(acked := true)) else seat
  {
    assert Injects(Client.Handle(seat.client, msg).1) == [];
    assert seat.injected + [] == seat.injected;
  }

  lemma AbsorbWelcome(seat: Seat)
    ensures Absorb(seat, WELCOME) == seat.(client := seat.client.(acked := true))
  {
    FeedHandshake(seat, InfoAck);
    var acked := Feed(seat, InfoAck);
    FeedHandshake(acked, ResetOptions);
    FeedHandshake(acked, SetOptions([]));
    assert WELCOME == [InfoAck] + ([ResetOptions] + [SetOptions([])]);
    AbsorbAppend(seat, [InfoAck], [ResetOptions] + [SetOptions([])]);
    AbsorbAppend(acked, [ResetOptions], [SetOptions([])]);
    AbsorbOne(seat, InfoAck);
    AbsorbOne(acked, ResetOptions);
    AbsorbOne(acked, SetOptions([]));
  }

  lemma ConverseKeepsLink(w: World, l: Ledger, n: string)
    requires HubOk(w, l) && n in w.links && LinkOk(w, l, n) && w.links[n].replies != []
    ensures LinkOk(Next(w, Converse(n)), l, n)
  {
    var v := Next(w, Converse(n));
    var link := w.links[n];
    var seat := Seat(link.client, link.injected);
    match link.phase
    case Greeted =>
      var msg := if n in w.hub.server.nodes then QueryInfo else ErrUnknown;
      assert link.wire == [] && v.links[n].wire == [msg] && Pending(v, n) == [msg];
      AbsorbOne(seat, msg);
      FeedHandshake(seat, msg);
    case Queried =>
      assert link.wire == [] && v.links[n].wire == WELCOME && Pending(v, n) == WELCOME;
      AbsorbWelcome(seat);
    case Ready =>
    case Attached =>
      assert Pending(v, n) == Pending(w, n);
    case Rejected =>
  }

  lemma ConverseKeepsInv(w: World, l: Ledger, n: string)
    requires Inv(w, l)
    ensures Inv(Next(w, Converse(n)), l)
  {
    if n in w.links && w.links[n].replies != [] {
      ConverseKeepsLink(w, l, n);
      forall k | k in w.links
        ensures LinkOk(Next(w, Converse(n)), l, k)
      {
        if k != n { Untouched(w, l, Next(w, Converse(n)), l, k); }
      }
    }
  }

  /** The client of a link whose welcome has been sent will be acknowledged once it drains. */
  lemma ReadySettlesAcked(seat: Seat, wire: seq<Message>)
    requires || wire == WELCOME
             || (seat.client.acked && (wire == WELCOME[1..] || wire == WELCOME[2..] || wire == []))
    ensures Absorb(seat, wire) == seat.(client := seat.client.(acked := true))
  {
    if wire == WELCOME {
      AbsorbWelcome(seat);
    } else {
      FeedHandshake(seat, ResetOptions);
      FeedHandshake(seat, SetOptions([]));
      AbsorbOne(seat, SetOptions([]));
      assert WELCOME[2..] == [SetOptions([])] && WELCOME[1..] == [ResetOptions] + [SetOptions([])];
      AbsorbAppend(seat, [ResetOptions], [SetOptions([])]);
      AbsorbOne(seat, ResetOptions);
    }
  }

  lemma AttachKeepsLink(w: World, l: Ledger, n: string)
    requires HubOk(w, l) && n in w.links && LinkOk(w, l, n) && w.links[n].phase.Ready?
    ensures LinkOk(Next(w, Attach(n)), Observe(l, w, Attach(n)), n)
  {
    var v, m := Next(w, Attach(n)), Observe(l, w, Attach(n));
    assert n !in w.hub.clients && HandshakeOk(w.links[n], n, w.hub.server.nodes);
    assert Pending(v, n) == Pending(w, n) == w.links[n].wire;
    ReadySettlesAcked(Seat(w.links[n].client, w.links[n].injected), w.links[n].wire);
    assert Visiting(w.hub.server, n) ==> !l.delivered;
    assert m.accounts[n].sent == [];
  }

  lemma AttachKeepsInv(w: World, l: Ledger, n: string)
    requires Inv(w, l)
    ensures Inv(Next(w, Attach(n)), Observe(l, w, Attach(n)))
  {
    var v, m := Next(w, Attach(n)), Observe(l, w, Attach(n));
    if n in w.links && w.links[n].phase.Ready? {
      AttachKeepsLink(w, l, n);
      forall k | k in v.links
        ensures LinkOk(v, m, k)
      {
        if k != n { Untouched(w, l, v, m, k); }
      }
    }
  }

  /** Going home sends nothing to anyone. */
  lemma GoHomeDispatch(h: Hub, s: Server.State)
    requires s.Remote()
    ensures var k := DispatchAll(h, Server.GoHome(s).1); k.server == h.server && k.clients == h.clients && !k.grab
  {
    var actions := Server.GoHome(s).1;
    var last := actions[1..];
    DispatchLocal(h, actions);
    assert actions == [actions[0]] + last;
    forall n | n in h.clients
      ensures DispatchAll(h, actions).clients[n] == h.clients[n]
    {
      DispatchQueues(h, actions, n);
      SplitActions([actions[0]], last, n, h.grab);
      OneAction(actions[0], n, h.grab);
      LastActions(last, n, false);
    }
    SplitActions([actions[0]], last, s.local, h.grab);
    OneAction(actions[0], s.local, h.grab);
    LastActions(last, s.local, false);
  }

  lemma HangupKeepsHub(w: World, l: Ledger, n: string)
    requires Inv(w, l) && n in w.links
    ensures var v, m := Next(w, Hangup(n)), Observe(l, w, Hangup(n));
      && HubOk(v, m)
      && v.hub.clients == w.hub.clients - {n}
      && v.hub.server.nodes == w.hub.server.nodes && v.hub.server.local == w.hub.server.local
      && (if n in w.hub.clients && w.hub.server.active == n then !v.hub.server.Remote() && !m.delivered
          else v.hub.server == w.hub.server && m == l)
  {
    var s := w.hub.server;
    if n !in w.hub.clients {
      assert !w.links[n].phase.Attached? && w.hub.clients - {n} == w.hub.clients;
    } else if s.active == n && s.Remote() {
      GoHomeDispatch(w.hub.(clients := w.hub.clients - {n}, server := Server.GoHome(s).0), s);
    }
  }

  lemma HangupKeepsInv(w: World, l: Ledger, n: string)
    requires Inv(w, l)
    ensures Inv(Next(w, Hangup(n)), Observe(l, w, Hangup(n)))
  {
    var v, m := Next(w, Hangup(n)), Observe(l, w, Hangup(n));
    if n in w.links {
      HangupKeepsHub(w, l, n);
      forall k | k in v.links
        ensures LinkOk(v, m, k)
      {
        Untouched(w, l, v, m, k);
      }
    }
  }

  lemma PumpKeepsLink(w: World, l: Ledger, n: string)
    requires n in w.links && LinkOk(w, l, n) && n in w.hub.clients && w.hub.clients[n] != []
    ensures LinkOk(Next(w, Pump(n)), l, n)
  {
    var v := Next(w, Pump(n));
    assert Pending(v, n) == Pending(w, n);
    assert Settled(v, n) == Settled(w, n);
  }

  lemma PumpKeepsInv(w: World, l: Ledger, n: string)
    requires Inv(w, l)
    ensures Inv(Next(w, Pump(n)), l)
  {
    var v := Next(w, Pump(n));
    if n in w.links && n in w.hub.clients && w.hub.clients[n] != [] {
      PumpKeepsLink(w, l, n);
      forall k | k in v.links
        ensures LinkOk(v, l, k)
      {
        if k != n { Untouched(w, l, v, l, k); }
      }
    }
  }

  /** Taking a message off the wire changes nothing about the client as it will settle. */
  lemma DeliverSettles(w: World, n: string)
    requires n in w.links && w.links[n].wire != []
    ensures n in Next(w, Deliver(n)).links && Settled(Next(w, Deliver(n)), n) == Settled(w, n)
  {
    var v := Next(w, Deliver(n));
    assert Pending(w, n)[0] == w.links[n].wire[0];
    assert Pending(w, n)[1..] == Pending(v, n);
  }

  lemma DeliverWelcome(link: Link, n: string, nodes: Nodes)
    requires HandshakeOk(link, n, nodes) && link.phase.Ready? && link.wire != []
    ensures HandshakeOk(Delivered(link), n, nodes)
  {
    var actions := Client.Handle(link.client, link.wire[0]).1;
    assert WELCOME[0] == InfoAck && WELCOME[1..][0] == ResetOptions && WELCOME[2..][0] == SetOptions([]);
    assert Replies(actions) == [] && Injects(actions) == [];
    assert WELCOME[1..][1..] == WELCOME[2..] && WELCOME[2..][1..] == [];
  }

  lemma DeliverKeepsHandshake(link: Link, n: string, nodes: Nodes)
    requires HandshakeOk(link, n, nodes) && link.wire != []
    ensures HandshakeOk(Delivered(link), n, nodes)
  {
    match link.phase
    case Greeted =>
      var reply := HelloBack(PROTOCOL_MAJOR, PROTOCOL_MINOR, n);
      assert Replies([Client.Reply(reply)]) == [reply] && Injects([Client.Reply(reply)]) == [];
    case Queried =>
      var reply := Client.GeometryOf(link.client.screen);
      assert Replies([Client.Reply(reply)]) == [reply] && Injects([Client.Reply(reply)]) == [];
    case Ready => DeliverWelcome(link, n, nodes);
    case Attached =>
      var actions := Client.Handle(link.client, link.wire[0]).1;
      assert Delivered(link).client.screen == link.client.screen && Delivered(link).client.name == n;
    case Rejected =>
      assert Client.Handle(link.client, ErrUnknown).1 == [Client.Disconnect(Client.UnknownToServer)];
      assert Replies([Client.Disconnect(Client.UnknownToServer)]) == [] && Injects([Client.Disconnect(Client.UnknownToServer)]) == [];
  }

  lemma DeliverKeepsInv(w: World, l: Ledger, n: string)
    requires Inv(w, l)
    ensures Inv(Next(w, Deliver(n)), l)
  {
    var v := Next(w, Deliver(n));
    if n in w.links && w.links[n].wire != [] {
      assert LinkOk(w, l, n);
      DeliverSettles(w, n);
      DeliverKeepsHandshake(w.links[n], n, w.hub.server.nodes);
      forall k | k in v.links
        ensures LinkOk(v, l, k)
      {
        if k != n { Untouched(w, l, v, l, k); }
      }
    }
  }

  // --- Every run --------------------------------------------------------------------------------

  lemma StepKeepsInv(w: World, l: Ledger, step: Step)
    requires Inv(w, l)
    ensures Inv(Next(w, step), Observe(l, w, step))
  {
    match step
    case Capture(ev) => CaptureKeepsInv(w, l, ev);
    case Lock(on) => LockKeepsInv(w, l, on);
    case KeepAliveTick => BroadcastKeepsInv(w, l, KeepAlive);
    case ClipboardOut(n, data) =>
      if |data| <= MAX_CLIPBOARD_LEN { BroadcastKeepsInv(w, l, ClipboardData(0, n, 0, data)); }
    case Connect(n, size) => ConnectKeepsInv(w, l, n, size);
    case Converse(n) => ConverseKeepsInv(w, l, n);
    case Attach(n) => AttachKeepsInv(w, l, n);
    case Hangup(n) => HangupKeepsInv(w, l, n);
    case Pump(n) => PumpKeepsInv(w, l, n);
    case Deliver(n) => DeliverKeepsInv(w, l, n);
  }

  lemma {:induction false} RunKeepsInv(w: World, l: Ledger, steps: seq<Step>)
    requires Inv(w, l)
    ensures Inv(Run(w, steps), Watch(l, w, steps))
    decreases |steps|
  {
    if steps != [] {
      StepKeepsInv(w, l, steps[0]);
      RunKeepsInv(Next(w, steps[0]), Observe(l, w, steps[0]), steps[1..]);
    }
  }

  lemma ReachableInv(nodes: Nodes, local: string, steps: seq<Step>)
    ensures Inv(Run(Initial(nodes, local), steps), Watch(BLANK, Initial(nodes, local), steps))
  {
    RunKeepsInv(Initial(nodes, local), BLANK, steps);
  }
}
