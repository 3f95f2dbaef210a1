/**
 A run in which the transcript of a connected client is not (Enter input* Leave)*, and a captured click is
 lost: the cursor crosses onto a screen whose client has not connected yet, so its `Enter` is dropped, and
 the client that then connects is sent the click without ever having been entered.
 */
module LateJoiner {
  import opened Wrappers
  import opened Messages
  import opened Layout
  import opened Controller
  import opened World
  import opened Routing
  import opened RoutingInvariant
  import opened RoutingTheorems
  import Server
  import Client

  lemma {:induction false} RunOneMore(w: World, l: Ledger, steps: seq<Step>, step: Step)
    ensures Run(w, steps + [step]) == Next(Run(w, steps), step)
    ensures Watch(l, w, steps + [step]) == Observe(Watch(l, w, steps), Run(w, steps), step)
    decreases |steps|
  {
    if steps == [] {
      assert [step][1..] == [] && steps + [step] == [step];
    } else {
      assert (steps + [step])[0] == steps[0] && (steps + [step])[1..] == steps[1..] + [step];
      RunOneMore(Next(w, steps[0]), Observe(l, w, steps[0]), steps[1..], step);
    }
  }

  lemma ReachedOneMore(w: World, l: Ledger, step: Step)
    requires Reached(w, l)
    ensures Reached(Next(w, step), Observe(l, w, step))
  {
    var nodes, local, steps :|
      w == Run(Initial(nodes, local), steps) && l == Watch(BLANK, Initial(nodes, local), steps);
    RunOneMore(Initial(nodes, local), BLANK, steps, step);
  }

  lemma Advance(w: World, l: Ledger, step: Step) returns (v: World, m: Ledger)
    requires Reached(w, l)
    ensures Reached(v, m) && v == Next(w, step) && m == Observe(l, w, step)
  {
    ReachedOneMore(w, l, step);
    v, m := Next(w, step), Observe(l, w, step);
  }

  // --- Any known client can join at any time ----------------------------------------------------

  /** A client of whose handshake nothing has been acknowledged yet. */
  function Joining(n: string, size: ScreenSize, phase: Phase, wire: seq<Message>, replies: seq<Message>): Link {
    Link(phase, ScreenSize(0, 0), Client.Initial(n, size), wire, replies, [])
  }

  lemma AnswerHello(n: string, size: ScreenSize)
    ensures Delivered(Joining(n, size, Greeted, [Hello(PROTOCOL_MAJOR, PROTOCOL_MINOR)], []))
            == Joining(n, size, Greeted, [], [HelloBack(PROTOCOL_MAJOR, PROTOCOL_MINOR, n)])
  {
    var reply := HelloBack(PROTOCOL_MAJOR, PROTOCOL_MINOR, n);
    assert Replies([Client.Reply(reply)]) == [reply] && Injects([Client.Reply(reply)]) == [];
  }

  lemma AnswerQuery(n: string, size: ScreenSize)
    ensures Delivered(Joining(n, size, Queried, [QueryInfo], []))
            == Joining(n, size, Queried, [], [Client.GeometryOf(size)])
  {
    var reply := Client.GeometryOf(size);
    assert Replies([Client.Reply(reply)]) == [reply] && Injects([Client.Reply(reply)]) == [];
  }

  lemma HeedHello(n: string, size: ScreenSize, nodes: Nodes)
    requires n in nodes
    ensures Conversed(Joining(n, size, Greeted, [], [HelloBack(PROTOCOL_MAJOR, PROTOCOL_MINOR, n)]), nodes)
            == Joining(n, size, Queried, [QueryInfo], [])
  {
  }

  lemma HeedInfo(n: string, size: ScreenSize, nodes: Nodes)
    ensures Conversed(Joining(n, size, Queried, [], [Client.GeometryOf(size)]), nodes)
            == Joining(n, size, Ready, WELCOME, []).(reported := Reported(size))
  {
  }

  /** `v` is `w` with `n` at the given point of joining. */
  predicate OnlyJoining(w: World, l: Ledger, v: World, m: Ledger, n: string, link: Link) {
    v == w.(links := w.links[n := link]) && m == l.(accounts := l.accounts[n := Account([], [], false)])
  }

  lemma Progress(w: World, l: Ledger, v: World, m: Ledger, n: string, link: Link, step: Step, next: Link) returns (u: World)
    requires Reached(v, m) && OnlyJoining(w, l, v, m, n, link)
    requires step == Deliver(n) || step == Converse(n)
    requires step.Deliver? ==> link.wire != [] && next == Delivered(link)
    requires step.Converse? ==> link.replies != [] && next == Conversed(link, w.hub.server.nodes)
    ensures Reached(u, m) && OnlyJoining(w, l, u, m, n, next)
  {
    var k;
    u, k := Advance(v, m, step);
    OverwriteEntry(w.links, n, link, next);
  }

  /** The handshake of a known client runs until its welcome has been sent. */
  lemma Shake(w: World, l: Ledger, n: string, size: ScreenSize) returns (v: World, m: Ledger)
    requires Reached(w, l) && n !in w.links && n in w.hub.server.nodes
    ensures Reached(v, m) && OnlyJoining(w, l, v, m, n, Joining(n, size, Ready, WELCOME, []).(reported := Reported(size)))
  {
    var greeted := Joining(n, size, Greeted, [Hello(PROTOCOL_MAJOR, PROTOCOL_MINOR)], []);
    var answered := Joining(n, size, Greeted, [], [HelloBack(PROTOCOL_MAJOR, PROTOCOL_MINOR, n)]);
    var queried := Joining(n, size, Queried, [QueryInfo], []);
    var informed := Joining(n, size, Queried, [], [Client.GeometryOf(size)]);
    var ready := Joining(n, size, Ready, WELCOME, []).(reported := Reported(size));
    v, m := Advance(w, l, Connect(n, size));
    AnswerHello(n, size);
    v := Progress(w, l, v, m, n, greeted, Deliver(n), answered);
    HeedHello(n, size, w.hub.server.nodes);
    v := Progress(w, l, v, m, n, answered, Converse(n), queried);
    AnswerQuery(n, size);
    v := Progress(w, l, v, m, n, queried, Deliver(n), informed);
    HeedInfo(n, size, w.hub.server.nodes);
    v := Progress(w, l, v, m, n, informed, Converse(n), ready);
  }

  lemma OverwriteEntry<T>(m: map<string, T>, n: string, a: T, b: T)
    ensures m[n := a][n := b] == m[n := b]
  {
  }

  /** The handshake of a known client runs to its end from every reachable state in which it is not connected. */
  lemma Join(w: World, l: Ledger, n: string, size: ScreenSize) returns (v: World, m: Ledger)
    requires Reached(w, l) && n !in w.links && n in w.hub.server.nodes
    ensures Reached(v, m)
    ensures v.hub == OnConnected(w.hub, n, Reported(size))
    ensures v.links == w.links[n := Joining(n, size, Attached, WELCOME, []).(reported := Reported(size))]
    ensures m == l.(accounts := l.accounts[n := Account([], [], Visiting(w.hub.server, n))])
  {
    var ready := Joining(n, size, Ready, WELCOME, []).(reported := Reported(size));
    v, m := Shake(w, l, n, size);
    v, m := Advance(v, m, Attach(n));
    OverwriteEntry(w.links, n, ready, ready.(phase := Attached));
    OverwriteEntry(l.accounts, n, Account([], [], false), Account([], [], true));
  }

  // --- The run ----------------------------------------------------------------------------------

  const SIZE := ScreenSize(10, 10)
  const NODES: Nodes := map[
    "srv" := ScreenNode(SIZE, NO_NEIGHBORS.(right := Some("lap"))),
    "lap" := ScreenNode(SIZE, NO_NEIGHBORS.(left := Some("srv")))]
  const CROSSING := MotionAbs(9, 5)
  const CLICK := Button(1, true)

  /** The server after its cursor has crossed to the laptop at height 5. */
  const AWAY := Server.State(NODES, "srv", "lap", 0, 5, 0, 1, false)

  lemma Crosses()
    ensures var (t, actions) := Server.Handle(Server.Initial(NODES, "srv"), CROSSING);
      t == AWAY && Enters(actions) == [("lap", 1)]
  {
    var s := Server.Initial(NODES, "srv").(cursorX := 9, cursorY := 5);
    assert EdgeCrossed(SIZE, 9, 5, 1) == Some(Right) && Beyond(NODES, "srv", Right) == Some("lap");
    assert EntryPoint(SIZE, SIZE, Right, 9, 5) == (0, 5);
    assert Server.CrossingOf(s) == Some(Crossing("lap", Right, 0, 5));
    EnteredEffect(s, AWAY, "lap", 0, 5, "lap", false);
    assert Server.Handle(Server.Initial(NODES, "srv"), CROSSING) == Server.EnterRemote(s, Crossing("lap", Right, 0, 5));
    assert Server.EnterRemote(s, Crossing("lap", Right, 0, 5)).1 == OutcomeActions(s, AWAY, Outcome.Entered("lap", 0, 5));
  }

  /** The `Enter` for a screen with no client goes nowhere. */
  lemma CrossUnheard() returns (w: World, l: Ledger)
    ensures Reached(w, l)
    ensures w.hub.server == AWAY && w.hub.clients == map[] && w.links == map[]
    ensures !l.delivered && l.accounts == map[]
  {
    var start := Initial(NODES, "srv");
    assert Reached(start, BLANK) by { assert Run(start, []) == start && Watch(BLANK, start, []) == BLANK; }
    w, l := Advance(start, BLANK, Capture(CROSSING));
    Crosses();
    DispatchLocal(start.hub.(server := AWAY), Server.Handle(start.hub.server, CROSSING).1);
  }

  lemma ClickDispatched(h: Hub)
    requires h.server == AWAY && h.clients == map["lap" := []]
    ensures OnLocal(h, CLICK) == h.(clients := map["lap" := [MouseDown(1)]])
  {
    var send := Server.Send("lap", MouseDown(1));
    assert Server.Handle(AWAY, CLICK) == (AWAY, [send]);
    assert DispatchAll(h, [send]) == DispatchAll(Dispatch(h, send), []);
    assert h.clients["lap"] + [MouseDown(1)] == [MouseDown(1)];
    assert Dispatch(h, send).clients == map["lap" := [MouseDown(1)]];
  }

  lemma CaptureObserved(w: World, l: Ledger, ev: LocalEvent, n: string, a: Account)
    requires !l.delivered && l.accounts == map[n := a] && n in w.hub.clients
    ensures Observe(l, w, Capture(ev)).accounts
         == map[n := a.(sent := a.sent + MessagesFor(Server.Handle(w.hub.server, ev).1, n))]
  {
    assert a.captured + [] == a.captured;
  }

  lemma ClickObserved(w: World, l: Ledger)
    requires w.hub.server == AWAY && w.hub.clients == map["lap" := []]
    requires !l.delivered && l.accounts == map["lap" := Account([], [], true)]
    ensures Observe(l, w, Capture(CLICK)).accounts == map["lap" := Account([], [MouseDown(1)], true)]
  {
    var send := Server.Send("lap", MouseDown(1));
    assert Server.Handle(AWAY, CLICK) == (AWAY, [send]);
    OneAction(send, "lap", true);
    CaptureObserved(w, l, CLICK, "lap", Account([], [], true));
    assert [] + [MouseDown(1)] == [MouseDown(1)];
  }

  lemma ClickRun() returns (w: World, l: Ledger)
    ensures Reached(w, l) && w.hub.server == AWAY && w.hub.clients == map["lap" := [MouseDown(1)]]
    ensures w.links == map["lap" := Joining("lap", SIZE, Attached, WELCOME, []).(reported := SIZE)]
    ensures l.accounts == map["lap" := Account([], [MouseDown(1)], true)]
  {
    w, l := CrossUnheard();
    w, l := Join(w, l, "lap", SIZE);
    assert WithSize(NODES, "lap", SIZE) == NODES;
    ClickDispatched(w.hub);
    ClickObserved(w, l);
    w, l := Advance(w, l, Capture(CLICK));
  }

  lemma SettlesUnentered(seat: Seat, msg: Message)
    requires !seat.client.entered && msg.IsInput()
    ensures Absorb(seat, WELCOME + [msg]).injected == seat.injected
  {
    AbsorbAppend(seat, WELCOME, [msg]);
    AbsorbWelcome(seat);
    AbsorbOne(Absorb(seat, WELCOME), msg);
    assert seat.injected + [] == seat.injected;
  }

  /** The click is captured on the laptop's screen and queued for its client, which will inject nothing. */
  lemma ClickLost() returns (w: World, l: Ledger)
    ensures Reached(w, l) && Visiting(w.hub.server, "lap")
    ensures "lap" in w.links && "lap" in w.hub.clients && "lap" in l.accounts
    ensures l.accounts["lap"].sent == [MouseDown(1)] && Brackets(false, l.accounts["lap"].sent).None?
    ensures MouseDown(1) in Pending(w, "lap") && Settled(w, "lap").injected == []
  {
    w, l := ClickRun();
    assert Pending(w, "lap") == WELCOME + [MouseDown(1)];
    SettlesUnentered(Seat(Client.Initial("lap", SIZE), []), MouseDown(1));
    assert [MouseDown(1)][..0] == [];
  }
}
