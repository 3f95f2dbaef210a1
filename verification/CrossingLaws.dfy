/** Where crossings land, how they are undone, and when they cannot happen. */
module CrossingLaws {
  import opened Arithmetic
  import opened Wrappers
  import opened MachineInts
  import opened Messages
  import opened Layout
  import Server

  /** At least one pixel each way, and no more than 32 bits can count. */
  predicate Sized(size: ScreenSize) {
    1 <= size.w < 0x8000_0000 && 1 <= size.h < 0x8000_0000
  }

  predicate Inside(size: ScreenSize, x: int, y: int) {
    0 <= x < size.w && 0 <= y < size.h
  }

  ghost predicate AllSized(nodes: Nodes) {
    forall n :: n in nodes ==> Sized(nodes[n].size)
  }

  // --- Scaling ----------------------------------------------------------------------------------

  /**
   On axes that fit 32 bits, scaling an on-axis coordinate is plain division: the 64-bit product cannot
   overflow, the cast back to 32 bits loses nothing, and the final clamp changes nothing.
   */
  lemma ScaleIsDivision(v: int, from: int, to: int)
    requires 0 <= v < from && from < 0x8000_0000 && 1 <= to < 0x8000_0000
    ensures 0 <= v * to < 0x4000_0000_0000_0000
    ensures AsI32(TruncDiv(v * to, from)) == v * to / from
    ensures 0 <= v * to / from < to
    ensures Scale(v, from, to) == v * to / from
  {
    ProductMonotone(0, v, to);
    ProductStrict(v, from, to);
    assert from * to == to * from;
    FloorBounds(v * to, to, from);
    ProductMonotone(v, 0x7FFF_FFFF, to);
    ProductMonotone(to, 0x7FFF_FFFF, 0x7FFF_FFFF);
    assert 0x7FFF_FFFF * to == to * 0x7FFF_FFFF;
    if from == 1 {
      assert v == 0;
    }
  }

  lemma ScaleInRange(v: int, from: int, to: int)
    requires to >= 1
    ensures 0 <= Scale(v, from, to) < to
  {
  }

  lemma EntryInside(from: ScreenSize, to: ScreenSize, edge: Edge, x: int, y: int)
    requires Sized(to)
    ensures var (ex, ey) := EntryPoint(from, to, edge, x, y); Inside(to, ex, ey)
  {
    ScaleInRange(Clamp(y, 0, from.h - 1), from.h, to.h);
    ScaleInRange(Clamp(x, 0, from.w - 1), from.w, to.w);
  }

  // --- Bounds of the virtual cursor -------------------------------------------------------------

  /** A motion that leaves the machine remote leaves the cursor inside the active screen, locked or not. */
  lemma MotionEndsInside(s: Server.State, ev: LocalEvent)
    requires AllSized(s.nodes) && (s.Remote() ==> s.active in s.nodes)
    requires ev.MotionRel? || (ev.MotionAbs? && !s.Remote())
    ensures var t := Server.Handle(s, ev).0;
      t.Remote() ==> t.active in t.nodes && Inside(t.nodes[t.active].size, t.cursorX, t.cursorY)
  {
    var r := if ev.MotionRel? then Server.Moved(s, ev.dx, ev.dy) else s.(cursorX := ev.x, cursorY := ev.y);
    match Server.CrossingOf(r)
    case None =>
    case Some(c) =>
      EntryInside(s.nodes[s.active].size, s.nodes[c.to].size, c.fromEdge, r.cursorX, r.cursorY);
  }

  /** So, for deltas within 32 bits less the widest screen, the sums never wrap. */
  lemma MotionFits(s: Server.State, dx: int, dy: int)
    requires s.active in s.nodes && Inside(s.nodes[s.active].size, s.cursorX, s.cursorY)
    requires s.nodes[s.active].size.w <= 0x7FFF && s.nodes[s.active].size.h <= 0x7FFF
    requires -0x8000_0000 <= dx <= 0x7FFF_FFFF - 0x7FFE && -0x8000_0000 <= dy <= 0x7FFF_FFFF - 0x7FFE
    ensures Server.Moved(s, dx, dy) == s.(cursorX := s.cursorX + dx, cursorY := s.cursorY + dy)
  {
  }

  // --- No bounce --------------------------------------------------------------------------------

  /** On a remote screen, exactly the motions that stay inside it are forwarded unclamped and never cross. */
  lemma InsideNeverCrosses(s: Server.State, dx: int, dy: int)
    requires s.Remote() && s.active in s.nodes && Sized(s.nodes[s.active].size)
    ensures var (t, size) := (Server.Moved(s, dx, dy), s.nodes[s.active].size);
      && (Inside(size, t.cursorX, t.cursorY) ==>
            Server.Handle(s, MotionRel(dx, dy))
              == (t, [Server.Send(s.active, MouseMove(AsI16(t.cursorX), AsI16(t.cursorY)))]))
      && (!Inside(size, t.cursorX, t.cursorY) <==> EdgeCrossed(size, t.cursorX, t.cursorY, 0).Some?)
  {
  }

  /** `s` is local and its cursor was put there by a crossing that returned home. */
  ghost predicate JustReturned(s: Server.State) {
    exists r: Server.State, ev :: r.Remote() && s == Server.Handle(r, ev).0 && !s.Remote()
  }

  lemma ReturnedIsInset(s: Server.State)
    requires JustReturned(s)
    ensures s.local in s.nodes
    ensures exists x, y :: (s.cursorX, s.cursorY) == Server.InsetToLocal(s, x, y)
  {
    var r: Server.State, ev :| r.Remote() && s == Server.Handle(r, ev).0 && !s.Remote();
    assert ev.MotionRel?;
    var m := Server.Moved(r, ev.dx, ev.dy);
    var c := Server.CrossingOf(m).value;
    assert (s.cursorX, s.cursorY) == Server.InsetToLocal(s, c.entryX, c.entryY);
  }

  /**
   Where a crossing home puts the real cursor, the trigger pixels are out of reach exactly on screens of 4 by 4
   and up. Reporting that position again does nothing exactly there, or while locked, or where no screen lies
   over the edge it touches.
   */
  lemma ReturnDoesNotBounce(s: Server.State)
    requires JustReturned(s)
    ensures s.local in s.nodes
    ensures var size := s.nodes[s.local].size;
      var edge := EdgeCrossed(size, s.cursorX, s.cursorY, 1);
      && (edge.None? <==> size.w >= 4 && size.h >= 4)
      && (Server.Handle(s, MotionAbs(s.cursorX, s.cursorY)) == (s, []) <==>
            (size.w >= 4 && size.h >= 4) || s.locked || Beyond(s.nodes, s.local, edge.value).None?)
  {
    ReturnedIsInset(s);
    var x, y :| (s.cursorX, s.cursorY) == Server.InsetToLocal(s, x, y);
  }

  const TINY := ScreenSize(3, 3)
  const TINY_NODES: Nodes := map[
    "srv" := ScreenNode(TINY, NO_NEIGHBORS.(right := Some("lap"))),
    "lap" := ScreenNode(TINY, NO_NEIGHBORS.(left := Some("srv")))]

  /** On screens of 3 by 3 it does happen: a cursor just back from the laptop is sent there again where it stands. */
  lemma TinyScreenBounces() returns (s: Server.State)
    ensures JustReturned(s) && !s.Remote()
    ensures Server.Handle(s, MotionAbs(s.cursorX, s.cursorY)).0.active == "lap"
  {
    var r := Server.State(TINY_NODES, "srv", "lap", 0, 1, 0, 1, false);
    var back := Crossing("srv", Left, 2, 1);
    assert Server.CrossingOf(Server.Moved(r, -1, 0)) == Some(back);
    s := Server.Handle(r, MotionRel(-1, 0)).0;
    assert s == Server.ReturnHome(Server.Moved(r, -1, 0), back).0;
    assert s.cursorX == 2 && s.cursorY == 2;
    assert Server.CrossingOf(s).value.to == "lap";
  }

  /** From 5 by 5 up, the real cursor must move at least two pixels before it can leave again. */
  lemma ReturnNeedsTwoPixels(s: Server.State, x: int, y: int)
    requires JustReturned(s)
    requires s.local in s.nodes ==> s.nodes[s.local].size.w >= 5 && s.nodes[s.local].size.h >= 5
    requires s.cursorX - 1 <= x <= s.cursorX + 1 && s.cursorY - 1 <= y <= s.cursorY + 1
    ensures Server.Handle(s, MotionAbs(x, y)) == (s.(cursorX := x, cursorY := y), [])
  {
    ReturnedIsInset(s);
    var ex, ey :| (s.cursorX, s.cursorY) == Server.InsetToLocal(s, ex, ey);
  }

  // --- Undoing a crossing -----------------------------------------------------------------------

  /** Whenever `b` lies over an edge of `a`, `a` lies over the opposite edge of `b`. */
  ghost predicate Symmetric(nodes: Nodes) {
    forall a, e :: Beyond(nodes, a, e).Some? ==> Beyond(nodes, Beyond(nodes, a, e).value, e.Opposite()) == Some(a)
  }

  /** One pixel over `edge` from the edge of a screen. */
  function OnePixelOver(size: ScreenSize, edge: Edge, x: int, y: int): (int, int) {
    match edge
    case Left => (-1, y)
    case Right => (size.w, y)
    case Top => (x, -1)
    case Bottom => (x, size.h)
  }

  /** A point just over one edge, otherwise inside, has crossed that edge and no other. */
  lemma OverCrosses(size: ScreenSize, edge: Edge, x: int, y: int)
    requires Inside(size, x, y)
    ensures var (ox, oy) := OnePixelOver(size, edge, x, y); EdgeCrossed(size, ox, oy, 0) == Some(edge)
  {
  }

  /**
   A crossing lands on the rim of its target, one pixel from the opposite edge; stepping back over it
   returns to the screen left, onto the edge crossed, with the free coordinate scaled there and back.
   */
  lemma CrossingUndone(nodes: Nodes, a: string, x: int, y: int, margin: int)
    requires AllSized(nodes) && Symmetric(nodes) && a in nodes && DetectCrossing(nodes, a, x, y, margin).Some?
    ensures var c := DetectCrossing(nodes, a, x, y, margin).value;
      && c.to in nodes
      && var (from, to, back) := (nodes[a].size, nodes[c.to].size, c.fromEdge.Opposite());
      && Inside(to, c.entryX, c.entryY)
      && var (ox, oy) := OnePixelOver(to, back, c.entryX, c.entryY);
      && -1 <= ox - c.entryX <= 1 && -1 <= oy - c.entryY <= 1
      && var d := DetectCrossing(nodes, c.to, ox, oy, 0);
      && d.Some? && d.value.to == a && d.value.fromEdge == back
      && match c.fromEdge
         case Left => d.value.entryX == 0 && d.value.entryY == Scale(Scale(Clamp(y, 0, from.h - 1), from.h, to.h), to.h, from.h)
         case Right => d.value.entryX == from.w - 1 && d.value.entryY == Scale(Scale(Clamp(y, 0, from.h - 1), from.h, to.h), to.h, from.h)
         case Top => d.value.entryY == 0 && d.value.entryX == Scale(Scale(Clamp(x, 0, from.w - 1), from.w, to.w), to.w, from.w)
         case Bottom => d.value.entryY == from.h - 1 && d.value.entryX == Scale(Scale(Clamp(x, 0, from.w - 1), from.w, to.w), to.w, from.w)
  {
    var c := DetectCrossing(nodes, a, x, y, margin).value;
    EntryInside(nodes[a].size, nodes[c.to].size, c.fromEdge, x, y);
    OverCrosses(nodes[c.to].size, c.fromEdge.Opposite(), c.entryX, c.entryY);
    assert Beyond(nodes, a, c.fromEdge) == Some(c.to);
    assert Beyond(nodes, c.to, c.fromEdge.Opposite()) == Some(a);
  }
}
