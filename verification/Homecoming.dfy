/**
 The operator is never stranded: in a symmetric layout of non-empty screens, from any reachable state that
 is not locked, fewer relative motions than there are screens bring the cursor home and release the grab.
 */
module Homecoming {
  import opened Wrappers
  import opened MachineInts
  import opened Messages
  import opened Layout
  import opened World
  import opened Routing
  import opened RoutingInvariant
  import opened CrossingLaws
  import Server

  // --- Walks over neighbouring screens ----------------------------------------------------------

  ghost predicate Adjacent(nodes: Nodes, a: string, b: string) {
    exists e :: Beyond(nodes, a, e) == Some(b)
  }

  ghost predicate Walk(nodes: Nodes, p: seq<string>, from: string, to: string) {
    && p != [] && p[0] == from && p[|p| - 1] == to
    && forall i :: 0 <= i < |p| - 1 ==> Adjacent(nodes, p[i], p[i + 1])
  }

  predicate Distinct(p: seq<string>) {
    forall i, j :: 0 <= i < j < |p| ==> p[i] != p[j]
  }

  /** A walk between two screens can avoid visiting any screen twice. */
  lemma {:induction false} Shortcut(nodes: Nodes, p: seq<string>, from: string, to: string) returns (q: seq<string>)
    requires Walk(nodes, p, from, to)
    ensures Walk(nodes, q, from, to) && Distinct(q)
    decreases |p|
  {
    if Distinct(p) {
      q := p;
    } else {
      var i, j :| 0 <= i < j < |p| && p[i] == p[j];
      var r := p[..i] + p[j..];
      forall k | 0 <= k < |r| - 1
        ensures Adjacent(nodes, r[k], r[k + 1])
      {
        if k < i {
          assert Adjacent(nodes, p[k], p[k + 1]);
        } else {
          assert Adjacent(nodes, p[k - i + j], p[k - i + j + 1]);
        }
      }
      q := Shortcut(nodes, r, from, to);
    }
  }

  lemma {:induction false} DistinctFits(p: seq<string>, s: set<string>)
    requires Distinct(p) && forall i :: 0 <= i < |p| ==> p[i] in s
    ensures |p| <= |s|
  {
    if p != [] {
      var last := p[|p| - 1];
      DistinctFits(p[..|p| - 1], s - {last});
    }
  }

  lemma WalkFits(nodes: Nodes, p: seq<string>, from: string, to: string)
    requires Walk(nodes, p, from, to) && Distinct(p) && |p| >= 2
    ensures |p| <= |nodes|
  {
    forall i | 0 <= i < |p|
      ensures p[i] in nodes.Keys
    {
      if i < |p| - 1 {
        assert Adjacent(nodes, p[i], p[i + 1]);
      } else {
        assert Adjacent(nodes, p[i - 1], p[i]);
      }
    }
    DistinctFits(p, nodes.Keys);
    assert |nodes.Keys| == |nodes|;
  }

  // --- One hop ----------------------------------------------------------------------------------

  function ServerRun(s: Server.State, evs: seq<LocalEvent>): Server.State
    decreases |evs|
  {
    if evs == [] then s else ServerRun(Server.Handle(s, evs[0]).0, evs[1..])
  }

  lemma WrapsBy(x: int) returns (k: int)
    ensures AsI32(x) == x + k * 0x1_0000_0000
  {
    k := -((x + 0x8000_0000) / 0x1_0000_0000);
  }

  lemma SameWrapped(a: int, b: int, k: int)
    requires -0x8000_0000 <= b < 0x8000_0000 && a == b + k * 0x1_0000_0000
    ensures AsI32(a) == b
  {
    assert a + 0x8000_0000 == k * 0x1_0000_0000 + (b + 0x8000_0000);
  }

  /** A wrapped difference, added with wrap-around, makes up the difference. */
  lemma WrappedStep(from: int, to: int)
    requires -0x8000_0000 <= to < 0x8000_0000
    ensures AsI32(from + AsI32(to - from)) == to
  {
    var k := WrapsBy(to - from);
    SameWrapped(from + AsI32(to - from), to, k);
  }

  /** A motion that capture can report: of 32-bit deltas. */
  predicate Capturable(ev: LocalEvent) {
    && ev.MotionRel?
    && -0x8000_0000 <= ev.dx < 0x8000_0000 && -0x8000_0000 <= ev.dy < 0x8000_0000
  }

  /** The relative motion that takes a remote cursor one pixel over `edge`, wherever it is now. */
  function HopOver(s: Server.State, edge: Edge): LocalEvent
    requires s.active in s.nodes
  {
    var (cx, cy) := ClampTo(s.nodes, s.active, s.cursorX, s.cursorY);
    var (x, y) := OnePixelOver(s.nodes[s.active].size, edge, cx, cy);
    MotionRel(AsI32(x - s.cursorX), AsI32(y - s.cursorY))
  }

  lemma HopLands(s: Server.State, edge: Edge, x: int, y: int)
    requires s.active in s.nodes
    requires var (cx, cy) := ClampTo(s.nodes, s.active, s.cursorX, s.cursorY);
      (x, y) == OnePixelOver(s.nodes[s.active].size, edge, cx, cy)
    requires -0x8000_0000 <= x < 0x8000_0000 && -0x8000_0000 <= y < 0x8000_0000
    ensures HopOver(s, edge).MotionRel?
    ensures Server.Moved(s, HopOver(s, edge).dx, HopOver(s, edge).dy) == s.(cursorX := x, cursorY := y)
  {
    WrappedStep(s.cursorX, x);
    WrappedStep(s.cursorY, y);
  }

  lemma HopCrosses(s: Server.State, edge: Edge)
    requires s.Remote() && !s.locked && Beyond(s.nodes, s.active, edge).Some?
    requires Sized(s.nodes[s.active].size)
    ensures var t := Server.Handle(s, HopOver(s, edge)).0;
      t.active == Beyond(s.nodes, s.active, edge).value && t.nodes == s.nodes && t.local == s.local && !t.locked
  {
    var (cx, cy) := ClampTo(s.nodes, s.active, s.cursorX, s.cursorY);
    var size := s.nodes[s.active].size;
    OverCrosses(size, edge, cx, cy);
    var (x, y) := OnePixelOver(size, edge, cx, cy);
    HopLands(s, edge, x, y);
    assert Server.CrossingOf(s.(cursorX := x, cursorY := y)).Some?;
  }

  lemma {:induction false} FollowHome(s: Server.State, p: seq<string>) returns (evs: seq<LocalEvent>)
    requires AllSized(s.nodes) && !s.locked && Walk(s.nodes, p, s.active, s.local) && Distinct(p)
    ensures |evs| == |p| - 1 && (forall i :: 0 <= i < |evs| ==> Capturable(evs[i]))
    ensures !ServerRun(s, evs).Remote()
    decreases |p|
  {
    if |p| == 1 {
      evs := [];
    } else {
      assert p[0] != p[|p| - 1];
      assert Adjacent(s.nodes, p[0], p[1]);
      var edge :| Beyond(s.nodes, s.active, edge) == Some(p[1]);
      HopCrosses(s, edge);
      var t := Server.Handle(s, HopOver(s, edge)).0;
      forall i | 0 <= i < |p[1..]| - 1
        ensures Adjacent(t.nodes, p[1..][i], p[1..][i + 1])
      {
        assert Adjacent(s.nodes, p[i + 1], p[i + 2]);
      }
      var rest := FollowHome(t, p[1..]);
      evs := [HopOver(s, edge)] + rest;
      assert evs[1..] == rest;
    }
  }

  // --- The way home survives every step ---------------------------------------------------------

  ghost predicate HasWayHome(s: Server.State) {
    && AllSized(s.nodes) && Symmetric(s.nodes)
    && exists p :: Walk(s.nodes, p, s.active, s.local)
  }

  lemma AtHome(s: Server.State)
    requires AllSized(s.nodes) && Symmetric(s.nodes) && !s.Remote()
    ensures HasWayHome(s)
  {
    assert Walk(s.nodes, [s.local], s.active, s.local);
  }

  /** A captured event moves the cursor nowhere, home, or to a neighbour. */
  lemma HandleGoesNextDoor(s: Server.State, ev: LocalEvent)
    ensures var t := Server.Handle(s, ev).0;
      && t.nodes == s.nodes && t.local == s.local && t.locked == s.locked
      && (t.active == s.active || t.active == s.local || Adjacent(s.nodes, s.active, t.active))
  {
    if ev.MotionRel? || (ev.MotionAbs? && !s.Remote()) {
      var m := if ev.MotionRel? then Server.Moved(s, ev.dx, ev.dy) else s.(cursorX := ev.x, cursorY := ev.y);
      var crossing := Server.CrossingOf(m);
      if crossing.Some? {
        assert Beyond(s.nodes, s.active, crossing.value.fromEdge) == Some(crossing.value.to);
      }
    }
  }

  lemma HandleKeepsWayHome(s: Server.State, ev: LocalEvent)
    requires HasWayHome(s)
    ensures HasWayHome(Server.Handle(s, ev).0)
  {
    var t := Server.Handle(s, ev).0;
    var p :| Walk(s.nodes, p, s.active, s.local);
    HandleGoesNextDoor(s, ev);
    if t.active == s.local {
      AtHome(t);
    } else if t.active == s.active {
      assert Walk(t.nodes, p, t.active, t.local);
    } else {
      var e :| Beyond(s.nodes, s.active, e) == Some(t.active);
      assert Beyond(s.nodes, t.active, e.Opposite()) == Some(s.active);
      assert Adjacent(t.nodes, t.active, s.active);
      var q := [t.active] + p;
      forall i | 0 <= i < |q| - 1
        ensures Adjacent(t.nodes, q[i], q[i + 1])
      {
        if i > 0 { assert Adjacent(s.nodes, p[i - 1], p[i]); }
      }
      assert Walk(t.nodes, q, t.active, t.local);
    }
  }

  /** Adopting a size changes no adjacency. */
  lemma ResizeKeepsWayHome(s: Server.State, n: string, size: ScreenSize)
    requires HasWayHome(s) && Sized(size)
    ensures HasWayHome(s.(nodes := WithSize(s.nodes, n, size)))
  {
    var t := s.(nodes := WithSize(s.nodes, n, size));
    assert forall a, e :: Beyond(t.nodes, a, e) == Beyond(s.nodes, a, e);
    var p :| Walk(s.nodes, p, s.active, s.local);
    forall i | 0 <= i < |p| - 1
      ensures Adjacent(t.nodes, p[i], p[i + 1])
    {
      assert Adjacent(s.nodes, p[i], p[i + 1]);
      var e :| Beyond(s.nodes, p[i], e) == Some(p[i + 1]);
      assert Beyond(t.nodes, p[i], e) == Some(p[i + 1]);
    }
    assert Walk(t.nodes, p, t.active, t.local);
  }

  predicate SizedStep(step: Step) {
    step.Connect? ==> Sized(Reported(step.size))
  }

  ghost predicate HomeInv(w: World, l: Ledger) {
    && Inv(w, l)
    && HasWayHome(w.hub.server)
    && forall n :: n in w.links ==> Sized(Reported(w.links[n].client.screen))
  }

  lemma StepKeepsReports(w: World, step: Step)
    requires SizedStep(step) && forall n :: n in w.links ==> Sized(Reported(w.links[n].client.screen))
    ensures forall n :: n in Next(w, step).links ==> Sized(Reported(Next(w, step).links[n].client.screen))
  {
    if step.Deliver? && step.name in w.links && w.links[step.name].wire != [] {
      assert Delivered(w.links[step.name]).client.screen == w.links[step.name].client.screen;
    }
  }

  lemma CaptureKeepsWayHome(w: World, ev: LocalEvent)
    requires HasWayHome(w.hub.server)
    ensures HasWayHome(Next(w, Capture(ev)).hub.server)
  {
    var (t, actions) := Server.Handle(w.hub.server, ev);
    DispatchLocal(w.hub.(server := t), actions);
    HandleKeepsWayHome(w.hub.server, ev);
  }

  lemma HangupKeepsWayHome(w: World, l: Ledger, n: string)
    requires HomeInv(w, l) && n in w.links
    ensures HasWayHome(Next(w, Hangup(n)).hub.server)
  {
    HangupKeepsHub(w, l, n);
    var t := Next(w, Hangup(n)).hub.server;
    if !t.Remote() { AtHome(t); }
  }

  lemma StepKeepsWayHome(w: World, l: Ledger, step: Step)
    requires HomeInv(w, l) && SizedStep(step)
    ensures HasWayHome(Next(w, step).hub.server)
  {
    var s := w.hub.server;
    var t := Next(w, step).hub.server;
    match step
    case Capture(ev) =>
      CaptureKeepsWayHome(w, ev);
    case Lock(on) =>
      var p :| Walk(s.nodes, p, s.active, s.local);
      assert Walk(t.nodes, p, t.active, t.local);
    case Attach(n) =>
      if n in w.links && w.links[n].phase.Ready? {
        assert LinkOk(w, l, n);
        ResizeKeepsWayHome(s, n, w.links[n].reported);
      }
    case Hangup(n) =>
      if n in w.links { HangupKeepsWayHome(w, l, n); }
    case _ =>
  }

  lemma {:induction false} RunKeepsWayHome(w: World, l: Ledger, steps: seq<Step>)
    requires HomeInv(w, l) && forall step :: step in steps ==> SizedStep(step)
    ensures HomeInv(Run(w, steps), Watch(l, w, steps))
    decreases |steps|
  {
    if steps != [] {
      StepKeepsInv(w, l, steps[0]);
      StepKeepsReports(w, steps[0]);
      StepKeepsWayHome(w, l, steps[0]);
      RunKeepsWayHome(Next(w, steps[0]), Observe(l, w, steps[0]), steps[1..]);
    }
  }

  // --- Home -------------------------------------------------------------------------------------

  function Captures(evs: seq<LocalEvent>): seq<Step> {
    seq(|evs|, i requires 0 <= i < |evs| => Capture(evs[i]))
  }

  lemma {:induction false} CapturesRunServer(w: World, evs: seq<LocalEvent>)
    ensures Run(w, Captures(evs)).hub.server == ServerRun(w.hub.server, evs)
    decreases |evs|
  {
    if evs != [] {
      var (t, actions) := Server.Handle(w.hub.server, evs[0]);
      DispatchLocal(w.hub.(server := t), actions);
      assert Captures(evs)[0] == Capture(evs[0]) && Captures(evs)[1..] == Captures(evs[1..]);
      CapturesRunServer(Next(w, Capture(evs[0])), evs[1..]);
    }
  }

  /** From any reachable unlocked state, fewer motions than there are screens bring the cursor home, ungrabbed. */
  lemma OperatorCanGetHome(nodes: Nodes, local: string, steps: seq<Step>) returns (evs: seq<LocalEvent>)
    requires AllSized(nodes) && Symmetric(nodes) && forall step :: step in steps ==> SizedStep(step)
    requires !Run(Initial(nodes, local), steps).hub.server.locked
    ensures forall i :: 0 <= i < |evs| ==> Capturable(evs[i])
    ensures evs == [] || |evs| < |Run(Initial(nodes, local), steps).hub.server.nodes|
    ensures var home := Run(Run(Initial(nodes, local), steps), Captures(evs)); !home.hub.server.Remote() && !home.hub.grab
  {
    var start := Initial(nodes, local);
    var w, l := Run(start, steps), Watch(BLANK, start, steps);
    AtHome(start.hub.server);
    RunKeepsWayHome(start, BLANK, steps);
    var s := w.hub.server;
    var p :| Walk(s.nodes, p, s.active, s.local);
    var q := Shortcut(s.nodes, p, s.active, s.local);
    if |q| >= 2 { WalkFits(s.nodes, q, s.active, s.local); }
    evs := FollowHome(s, q);
    CapturesRunServer(w, evs);
    RunKeepsInv(w, l, Captures(evs));
  }
}
