/**
 What moving the cursor comes to, in pixels and slots: which screen each pixel of the rim leads to, where the
 cursor arrives there, and where it is put when it comes home or cannot leave.
 */
module EdgeLaws {
  import opened Arithmetic
  import opened Wrappers
  import opened MachineInts
  import opened Messages
  import opened Layout
  import opened CrossingLaws
  import Server

  /** The side of the local screen that this pixel of it is on; at a corner, left or right. */
  function TouchedSide(size: ScreenSize, x: int, y: int): Option<Edge> {
    if x == 0 then Some(Left)
    else if x == size.w - 1 then Some(Right)
    else if y == 0 then Some(Top)
    else if y == size.h - 1 then Some(Bottom)
    else None
  }

  /** The side of a remote screen that this point is off; beyond a corner, left or right. */
  function PassedSide(size: ScreenSize, x: int, y: int): Option<Edge> {
    if x < 0 then Some(Left)
    else if x >= size.w then Some(Right)
    else if y < 0 then Some(Top)
    else if y >= size.h then Some(Bottom)
    else None
  }

  function Side(s: Server.State, x: int, y: int): Option<Edge>
    requires s.active in s.nodes
  {
    if s.Remote() then PassedSide(s.nodes[s.active].size, x, y) else TouchedSide(s.nodes[s.active].size, x, y)
  }

  /** The screen on a side, if there is one in the layout. */
  function Neighbor(nodes: Nodes, screen: string, side: Option<Edge>): Option<string>
    requires screen in nodes
  {
    var slots := nodes[screen].neighbors;
    var slot := match side
      case Some(Left) => slots.left
      case Some(Right) => slots.right
      case Some(Top) => slots.top
      case Some(Bottom) => slots.bottom
      case None => None;
    if slot.Some? && slot.value in nodes then slot else None
  }

  predicate Fits(v: int) {
    -0x8000_0000 <= v < 0x8000_0000
  }

  /** An unlocked cursor gets to `(x, y)`, which on the local screen is a pixel of it. */
  predicate Reaches(s: Server.State, ev: LocalEvent, x: int, y: int) {
    && !s.locked && s.active in s.nodes
    && (|| (ev == MotionAbs(x, y) && !s.Remote())
        || (ev.MotionRel? && s.cursorX + ev.dx == x && s.cursorY + ev.dy == y && Fits(x) && Fits(y)))
    && (s.Remote() || Inside(s.nodes[s.local].size, x, y))
  }

  lemma Crosses(s: Server.State, ev: LocalEvent, x: int, y: int)
    requires Reaches(s, ev, x, y)
    ensures var (m, side) := (s.(cursorX := x, cursorY := y), Side(s, x, y));
      var to := Neighbor(s.nodes, s.active, side);
      && Server.Handle(s, ev) == Server.TryCross(m)
      && (to.None? ==> Server.CrossingOf(m).None?)
      && (to.Some? ==>
            var (ex, ey) := EntryPoint(s.nodes[s.active].size, s.nodes[to.value].size, side.value, x, y);
            Server.CrossingOf(m) == Some(Crossing(to.value, side.value, ex, ey)))
  {
  }

  /** The cursor goes where the side it touches or has passed leads, and otherwise stays where it is. */
  lemma GoesWhereItLeads(s: Server.State, ev: LocalEvent, x: int, y: int)
    requires Reaches(s, ev, x, y)
    ensures var to := Neighbor(s.nodes, s.active, Side(s, x, y));
      Server.Handle(s, ev).0.active == if to.Some? then to.value else s.active
  {
    Crosses(s, ev, x, y);
  }

  // --- Where it arrives -------------------------------------------------------------------------

  /** `u` is the point of `lo..hi` nearest to `v`. */
  ghost predicate Nearest(v: int, lo: int, hi: int, u: int) {
    lo <= u <= hi && forall k :: lo <= k <= hi ==> Distance(v, u) <= Distance(v, k)
  }

  lemma ClampNearest(v: int, lo: int, hi: int)
    requires lo <= hi
    ensures Nearest(v, lo, hi, Clamp(v, lo, hi))
  {
  }

  lemma NearestIsOne(v: int, lo: int, hi: int, u: int)
    requires Nearest(v, lo, hi, u)
    ensures u == Clamp(v, lo, hi)
  {
    assert Distance(v, u) <= Distance(v, Clamp(v, lo, hi));
  }

  /** `u` is the pixel of a `to`-wide axis that holds the beginning of pixel `v` of a `from`-wide one. */
  predicate Proportional(v: int, from: int, to: int, u: int) {
    u * from <= v * to < (u + 1) * from
  }

  lemma ScaleProportional(v: int, from: int, to: int)
    requires 0 <= v < from && from < 0x8000_0000 && 1 <= to < 0x8000_0000
    ensures Proportional(v, from, to, Scale(v, from, to))
  {
    ScaleIsDivision(v, from, to);
    var u := v * to / from;
    assert v * to == u * from + v * to % from;
    Distribute(u, 1, from);
  }

  lemma ProportionalIsOne(v: int, from: int, to: int, u: int)
    requires 0 <= v < from && from < 0x8000_0000 && 1 <= to < 0x8000_0000 && Proportional(v, from, to, u)
    ensures u == Scale(v, from, to)
  {
    ScaleProportional(v, from, to);
    var t := Scale(v, from, to);
    if t < u { ProductMonotone(t + 1, u, from); }
    if u < t { ProductMonotone(u + 1, t, from); }
  }

  /** The point of a `to` screen across from `(x, y)` of a `from` screen, over this edge. */
  ghost predicate Across(from: ScreenSize, to: ScreenSize, edge: Edge, x: int, y: int, ex: int, ey: int) {
    match edge
    case Left => ex == to.w - 1 && exists v :: Nearest(y, 0, from.h - 1, v) && Proportional(v, from.h, to.h, ey)
    case Right => ex == 0 && exists v :: Nearest(y, 0, from.h - 1, v) && Proportional(v, from.h, to.h, ey)
    case Top => ey == to.h - 1 && exists v :: Nearest(x, 0, from.w - 1, v) && Proportional(v, from.w, to.w, ex)
    case Bottom => ey == 0 && exists v :: Nearest(x, 0, from.w - 1, v) && Proportional(v, from.w, to.w, ex)
  }

  lemma EntryAcross(from: ScreenSize, to: ScreenSize, edge: Edge, x: int, y: int)
    requires Sized(from) && Sized(to)
    ensures var (ex, ey) := EntryPoint(from, to, edge, x, y); Across(from, to, edge, x, y, ex, ey)
  {
    ClampNearest(y, 0, from.h - 1);
    ClampNearest(x, 0, from.w - 1);
    ScaleProportional(Clamp(y, 0, from.h - 1), from.h, to.h);
    ScaleProportional(Clamp(x, 0, from.w - 1), from.w, to.w);
  }

  /** No other point is. */
  lemma AcrossIsOne(from: ScreenSize, to: ScreenSize, edge: Edge, x: int, y: int, ex: int, ey: int)
    requires Sized(from) && Sized(to) && Across(from, to, edge, x, y, ex, ey)
    ensures (ex, ey) == EntryPoint(from, to, edge, x, y)
  {
    if edge.Left? || edge.Right? {
      var v :| Nearest(y, 0, from.h - 1, v) && Proportional(v, from.h, to.h, ey);
      NearestIsOne(y, 0, from.h - 1, v);
      ProportionalIsOne(v, from.h, to.h, ey);
    } else {
      var v :| Nearest(x, 0, from.w - 1, v) && Proportional(v, from.w, to.w, ex);
      NearestIsOne(x, 0, from.w - 1, v);
      ProportionalIsOne(v, from.w, to.w, ex);
    }
  }

  /** `u` is as near to `v` as can be while two pixels or more from both ends; on a short axis it is the third pixel. */
  ghost predicate Withdrawn(v: int, extent: int, u: int) {
    if extent >= 5 then Nearest(v, 2, extent - 3, u) else u == 2
  }

  lemma InsetWithdraws(v: int, extent: int)
    ensures Withdrawn(v, extent, Server.InsetCoordinate(v, extent))
  {
    if extent >= 5 { ClampNearest(v, 2, extent - 3); }
  }

  lemma WithdrawnBy(v: int, extent: int, u: int)
    requires extent >= 5 && 0 <= v < extent && Withdrawn(v, extent, u)
    ensures Distance(v, u) <= 2 && (2 <= v <= extent - 3 ==> u == v)
  {
    NearestIsOne(v, 2, extent - 3, u);
  }

  /** Away from home, where the cursor is reported to be is ignored; at home, so are buttons, the wheel and keys. */
  lemma NotActedOn(s: Server.State, ev: LocalEvent)
    requires if s.Remote() then ev.MotionAbs? else !ev.MotionAbs? && !ev.MotionRel?
    ensures var (t, actions) := Server.Handle(s, ev); t == s.(modifiers := t.modifiers) && actions == []
  {
  }

  /** What entering `to` at `(x, y)` does: one screen is left or the grab taken, and the other told, with the next number. */
  function Entering(s: Server.State, to: string, x: int, y: int): seq<Server.Action> {
    [if s.Remote() then Server.Send(s.active, Leave) else Server.SetGrab(true),
     Server.Send(to, Enter(AsI16(x), AsI16(y), (s.enterSeq + 1) % 0x1_0000_0000, s.modifiers)),
     Server.ActiveChanged(to)]
  }

  /** Another screen is entered just across from where the last was left. */
  lemma ArrivesAcross(s: Server.State, ev: LocalEvent, x: int, y: int)
    requires Reaches(s, ev, x, y) && AllSized(s.nodes)
    requires Neighbor(s.nodes, s.active, Side(s, x, y)).Some?
    requires Neighbor(s.nodes, s.active, Side(s, x, y)).value != s.local
    ensures var (t, actions) := Server.Handle(s, ev);
      var (side, to) := (Side(s, x, y).value, Neighbor(s.nodes, s.active, Side(s, x, y)).value);
      && t.active == to && Across(s.nodes[s.active].size, s.nodes[to].size, side, x, y, t.cursorX, t.cursorY)
      && actions == Entering(s, to, t.cursorX, t.cursorY)
  {
    var to := Neighbor(s.nodes, s.active, Side(s, x, y)).value;
    Crosses(s, ev, x, y);
    EntryAcross(s.nodes[s.active].size, s.nodes[to].size, Side(s, x, y).value, x, y);
  }

  /** A point at home is where the cursor is put that has come in at `(ex, ey)`. */
  ghost predicate PutAt(size: ScreenSize, ex: int, ey: int, x: int, y: int) {
    Withdrawn(ex, size.w, x) && Withdrawn(ey, size.h, y)
  }

  /**
   Coming home, the cursor is put as near to the point across as can be while two pixels or more from every edge:
   the client is told, the grab released, and the real cursor warped to that very point.
   */
  lemma ComesHome(s: Server.State, ev: LocalEvent, x: int, y: int)
    requires Reaches(s, ev, x, y) && AllSized(s.nodes) && s.Remote()
    requires Neighbor(s.nodes, s.active, Side(s, x, y)) == Some(s.local)
    ensures var (t, actions) := Server.Handle(s, ev);
      && actions == [Server.Send(s.active, Leave), Server.SetGrab(false), Server.WarpCursor(t.cursorX, t.cursorY),
                     Server.ActiveChanged(s.local)]
      && exists ex, ey ::
           && Across(s.nodes[s.active].size, s.nodes[s.local].size, Side(s, x, y).value, x, y, ex, ey)
           && PutAt(s.nodes[s.local].size, ex, ey, t.cursorX, t.cursorY)
  {
    var from, to, side := s.nodes[s.active].size, s.nodes[s.local].size, Side(s, x, y).value;
    var (ex, ey) := EntryPoint(from, to, side, x, y);
    Crosses(s, ev, x, y);
    EntryAcross(from, to, side, x, y);
    InsetWithdraws(ex, to.w);
    InsetWithdraws(ey, to.h);
    assert PutAt(to, ex, ey, Server.InsetCoordinate(ex, to.w), Server.InsetCoordinate(ey, to.h));
  }

  /**
   So on a local screen of 5 by 5 or more neither coordinate moves by more than two, and one that is clear of the
   edges not at all.
   */
  lemma ComesHomeNearby(size: ScreenSize, ex: int, ey: int, x: int, y: int)
    requires size.w >= 5 && size.h >= 5 && Inside(size, ex, ey) && PutAt(size, ex, ey, x, y)
    ensures Distance(ex, x) <= 2 && Distance(ey, y) <= 2
    ensures (2 <= ex <= size.w - 3 ==> x == ex) && (2 <= ey <= size.h - 3 ==> y == ey)
  {
    WithdrawnBy(ex, size.w, x);
    WithdrawnBy(ey, size.h, y);
  }

  /** A remote cursor that cannot leave is held at the nearest pixel, and its client told which. */
  lemma HeldInside(s: Server.State, dx: int, dy: int)
    requires s.Remote() && s.active in s.nodes && Sized(s.nodes[s.active].size)
    requires Fits(s.cursorX + dx) && Fits(s.cursorY + dy)
    requires s.locked || Neighbor(s.nodes, s.active, Side(s, s.cursorX + dx, s.cursorY + dy)).None?
    ensures var (t, actions) := Server.Handle(s, MotionRel(dx, dy));
      var size := s.nodes[s.active].size;
      && t == s.(cursorX := t.cursorX, cursorY := t.cursorY)
      && Nearest(s.cursorX + dx, 0, size.w - 1, t.cursorX) && Nearest(s.cursorY + dy, 0, size.h - 1, t.cursorY)
      && actions == [Server.Send(s.active, MouseMove(AsI16(t.cursorX), AsI16(t.cursorY)))]
  {
    ClampNearest(s.cursorX + dx, 0, s.nodes[s.active].size.w - 1);
    ClampNearest(s.cursorY + dy, 0, s.nodes[s.active].size.h - 1);
  }

  /** A local one that leads nowhere is just taken note of. */
  lemma LeftAlone(s: Server.State, ev: LocalEvent, x: int, y: int)
    requires Reaches(s, ev, x, y) && !s.Remote() && Neighbor(s.nodes, s.local, Side(s, x, y)).None?
    ensures Server.Handle(s, ev) == (s.(cursorX := x, cursorY := y), [])
  {
  }

  // --- The middle -------------------------------------------------------------------------------

  predicate Centred(s: Server.State)
    requires s.local in s.nodes
  {
    Halfway(s.nodes[s.local].size.w, s.cursorX) && Halfway(s.nodes[s.local].size.h, s.cursorY)
  }

  lemma StartsCentred(nodes: Nodes, local: string)
    requires local in nodes && Sized(nodes[local].size)
    ensures Centred(Server.Initial(nodes, local))
  {
  }

  /** Called home, the cursor is put in the middle of the local screen. */
  lemma CalledHome(s: Server.State)
    requires s.Remote() && s.local in s.nodes && Sized(s.nodes[s.local].size)
    ensures var (t, actions) := Server.GoHome(s);
      && t == s.(active := s.local, cursorX := t.cursorX, cursorY := t.cursorY) && Centred(t)
      && actions == [Server.SetGrab(false), Server.WarpCursor(t.cursorX, t.cursorY), Server.ActiveChanged(s.local)]
  {
  }
}
