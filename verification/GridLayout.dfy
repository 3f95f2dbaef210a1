/** Turning the grid a user drew into the neighbour graph the cursor travels. */
module GridLayout {
  import opened Arithmetic
  import opened Wrappers
  import opened MachineInts
  import opened Layout
  import opened CrossingLaws

  datatype GridScreen = GridScreen(name: string, w: i32, h: i32, col: i32, row: i32)

  /** The cell on the other side of `edge`; column and row numbers are 32-bit and wrap. */
  predicate Adjoins(a: GridScreen, edge: Edge, b: GridScreen) {
    match edge
    case Left => b.row == a.row && AsI32(b.col + 1) == a.col
    case Right => b.row == a.row && b.col == AsI32(a.col + 1)
    case Top => b.col == a.col && AsI32(b.row + 1) == a.row
    case Bottom => b.col == a.col && b.row == AsI32(a.row + 1)
  }

  /** Short of the last column and row, that is the cell one further on. */
  lemma AdjoinsPlainly(a: GridScreen, edge: Edge, b: GridScreen)
    requires a.col < 0x7FFF_FFFF && a.row < 0x7FFF_FFFF && b.col < 0x7FFF_FFFF && b.row < 0x7FFF_FFFF
    ensures Adjoins(a, edge, b) <==>
      match edge
      case Left => b.row == a.row && b.col == a.col - 1
      case Right => b.row == a.row && b.col == a.col + 1
      case Top => b.col == a.col && b.row == a.row - 1
      case Bottom => b.col == a.col && b.row == a.row + 1
  {
  }

  ghost predicate ProperGrid(screens: seq<GridScreen>) {
    forall i, j :: 0 <= i < j < |screens| ==>
      && screens[i].name != screens[j].name
      && (screens[i].col != screens[j].col || screens[i].row != screens[j].row)
  }

  ghost predicate Named(nodes: Nodes, screens: seq<GridScreen>) {
    forall n :: n in nodes <==> exists i :: 0 <= i < |screens| && screens[i].name == n
  }

  /** Slot `e` of screen `i` names the screen in the adjoining cell, and is empty if there is none. */
  ghost predicate SlotRight(nodes: Nodes, screens: seq<GridScreen>, i: int, e: Edge)
    requires 0 <= i < |screens| && screens[i].name in nodes
  {
    match nodes[screens[i].name].neighbors.Get(e)
    case Some(n) => exists j :: 0 <= j < |screens| && screens[j].name == n && Adjoins(screens[i], e, screens[j])
    case None => forall j :: 0 <= j < |screens| ==> !Adjoins(screens[i], e, screens[j])
  }

  ghost predicate GridAdjacency(nodes: Nodes, screens: seq<GridScreen>) {
    && Named(nodes, screens)
    && (forall i :: 0 <= i < |screens| ==> screens[i].name in nodes)
    && forall i, e :: 0 <= i < |screens| ==> SlotRight(nodes, screens, i, e)
  }

  /** The pair (i, j) comes before (x, y) in the nested loops. */
  predicate Visited(i: int, j: int, x: int, y: int) {
    i < x || (i == x && j < y)
  }

  /** The pair of loop indices at which slot `edge` of screen `i` is set towards screen `j`. */
  predicate LinkedBy(i: int, edge: Edge, j: int, x: int, y: int) {
    if edge.Right? || edge.Bottom? then Visited(i, j, x, y) else Visited(j, i, x, y)
  }

  /** As `GridAdjacency`, for the pairs the loops have visited. */
  ghost predicate SlotsSoFar(nodes: Nodes, screens: seq<GridScreen>, x: int, y: int) {
    && (forall i :: 0 <= i < |screens| ==> screens[i].name in nodes)
    && forall i, e :: 0 <= i < |screens| ==> SlotSoFar(nodes, screens, i, e, x, y)
  }

  ghost predicate SlotSoFar(nodes: Nodes, screens: seq<GridScreen>, i: int, e: Edge, x: int, y: int)
    requires 0 <= i < |screens| && screens[i].name in nodes
  {
    match nodes[screens[i].name].neighbors.Get(e)
    case Some(n) => exists j :: 0 <= j < |screens| && screens[j].name == n && Adjoins(screens[i], e, screens[j])
    case None => forall j :: 0 <= j < |screens| && LinkedBy(i, e, j, x, y) ==> !Adjoins(screens[i], e, screens[j])
  }

  /** The effect of one turn of the inner loop. */
  function LinkPair(nodes: Nodes, a: GridScreen, b: GridScreen): Nodes {
    if a.name == b.name then nodes
    else
      var across := if a.row == b.row && b.col == AsI32(a.col + 1) then Linked(nodes, a.name, Right, b.name) else nodes;
      if a.col == b.col && b.row == AsI32(a.row + 1) then Linked(across, a.name, Bottom, b.name) else across
  }

  lemma LinkPairSlot(nodes: Nodes, a: GridScreen, b: GridScreen, n: string, e: Edge)
    requires a.name in nodes && b.name in nodes && n in nodes
    ensures LinkPair(nodes, a, b).Keys == nodes.Keys
    ensures LinkPair(nodes, a, b)[n].size == nodes[n].size
    ensures LinkPair(nodes, a, b)[n].neighbors.Get(e) ==
            if a.name != b.name && n == a.name && (e.Right? || e.Bottom?) && Adjoins(a, e, b) then Some(b.name)
            else if a.name != b.name && n == b.name && (e.Left? || e.Top?) && Adjoins(b, e, a) then Some(a.name)
            else nodes[n].neighbors.Get(e)
  {
  }

  lemma TurnKeepsSlots(nodes: Nodes, screens: seq<GridScreen>, x: int, y: int)
    requires ProperGrid(screens) && 0 <= x < |screens| && 0 <= y < |screens|
    requires SlotsSoFar(nodes, screens, x, y)
    ensures SlotsSoFar(LinkPair(nodes, screens[x], screens[y]), screens, x, y + 1)
  {
    var a, b := screens[x], screens[y];
    var after := LinkPair(nodes, a, b);
    var next := y + 1;
    LinkPairSlot(nodes, a, b, a.name, Left);
    forall i, e | 0 <= i < |screens|
      ensures SlotSoFar(after, screens, i, e, x, next)
    {
      assert SlotSoFar(nodes, screens, i, e, x, y);
      LinkPairSlot(nodes, a, b, screens[i].name, e);
      if (e.Right? || e.Bottom?) && screens[i].name == a.name && Adjoins(a, e, b) {
        assert screens[y].name == b.name && Adjoins(screens[i], e, screens[y]);
      } else if (e.Left? || e.Top?) && screens[i].name == b.name && Adjoins(b, e, a) {
        assert screens[x].name == a.name && Adjoins(screens[i], e, screens[x]);
      }
    }
  }

  method AddScreens(layout: ScreenLayout, screens: seq<GridScreen>)
    requires layout.nodes == map[]
    modifies layout
    ensures Named(layout.nodes, screens)
    ensures forall n :: n in layout.nodes ==> layout.nodes[n].neighbors == NO_NEIGHBORS && Sized(layout.nodes[n].size)
    ensures ProperGrid(screens) ==> forall i :: 0 <= i < |screens| ==>
      layout.nodes[screens[i].name].size == ScreenSize(Max(screens[i].w, 1), Max(screens[i].h, 1))
  {
    for k := 0 to |screens|
      invariant forall n :: n in layout.nodes <==> exists i :: 0 <= i < k && screens[i].name == n
      invariant forall n :: n in layout.nodes ==> layout.nodes[n].neighbors == NO_NEIGHBORS && Sized(layout.nodes[n].size)
      invariant ProperGrid(screens) ==> forall i :: 0 <= i < k ==>
        layout.nodes[screens[i].name].size == ScreenSize(Max(screens[i].w, 1), Max(screens[i].h, 1))
    {
      layout.AddScreen(screens[k].name, ScreenSize(Max(screens[k].w, 1), Max(screens[k].h, 1)));
    }
  }

  /** The same screens with the same sizes, whatever their neighbours. */
  predicate SameScreens(nodes: Nodes, bare: Nodes) {
    nodes.Keys == bare.Keys && forall n :: n in bare ==> nodes[n].size == bare[n].size
  }

  lemma LinkPairSameScreens(nodes: Nodes, a: GridScreen, b: GridScreen, bare: Nodes)
    requires SameScreens(nodes, bare)
    ensures SameScreens(LinkPair(nodes, a, b), bare)
  {
  }

  method LinkTo(layout: ScreenLayout, a: GridScreen, b: GridScreen)
    modifies layout
    ensures layout.nodes == LinkPair(old(layout.nodes), a, b)
  {
    if a.name == b.name {
      return;
    }
    if a.row == b.row && b.col == AsI32(a.col + 1) {
      layout.Link(a.name, Right, b.name);
    }
    if a.col == b.col && b.row == AsI32(a.row + 1) {
      layout.Link(a.name, Bottom, b.name);
    }
  }

  method BuildLayout(screens: seq<GridScreen>) returns (layout: ScreenLayout)
    ensures fresh(layout)
    ensures Named(layout.nodes, screens) && AllSized(layout.nodes)
    ensures ProperGrid(screens) ==> GridAdjacency(layout.nodes, screens)
    ensures ProperGrid(screens) ==> forall i :: 0 <= i < |screens| ==>
      layout.nodes[screens[i].name].size == ScreenSize(Max(screens[i].w, 1), Max(screens[i].h, 1))
  {
    layout := new ScreenLayout();
    AddScreens(layout, screens);
    ghost var bare := layout.nodes;
    for x := 0 to |screens|
      invariant SameScreens(layout.nodes, bare)
      invariant ProperGrid(screens) ==> SlotsSoFar(layout.nodes, screens, x, 0)
    {
      for y := 0 to |screens|
        invariant SameScreens(layout.nodes, bare)
        invariant ProperGrid(screens) ==> SlotsSoFar(layout.nodes, screens, x, y)
      {
        LinkPairSameScreens(layout.nodes, screens[x], screens[y], bare);
        if ProperGrid(screens) { TurnKeepsSlots(layout.nodes, screens, x, y); }
        LinkTo(layout, screens[x], screens[y]);
      }
      if ProperGrid(screens) { RowDone(layout.nodes, screens, x); }
    }
    if ProperGrid(screens) { AllRowsDone(layout.nodes, screens); }
  }

  lemma RowDone(nodes: Nodes, screens: seq<GridScreen>, x: int)
    requires SlotsSoFar(nodes, screens, x, |screens|)
    ensures SlotsSoFar(nodes, screens, x + 1, 0)
  {
    var next := x + 1;
    forall i, e | 0 <= i < |screens|
      ensures SlotSoFar(nodes, screens, i, e, next, 0)
    {
      assert SlotSoFar(nodes, screens, i, e, x, |screens|);
    }
  }

  lemma AllRowsDone(nodes: Nodes, screens: seq<GridScreen>)
    requires SlotsSoFar(nodes, screens, |screens|, 0) && Named(nodes, screens)
    ensures GridAdjacency(nodes, screens)
  {
    forall i, e | 0 <= i < |screens|
      ensures SlotRight(nodes, screens, i, e)
    {
      assert SlotSoFar(nodes, screens, i, e, |screens|, 0);
    }
  }

  lemma NextDoor(nodes: Nodes, screens: seq<GridScreen>, i: int, e: Edge) returns (j: int)
    requires GridAdjacency(nodes, screens) && 0 <= i < |screens| && Beyond(nodes, screens[i].name, e).Some?
    ensures 0 <= j < |screens| && Beyond(nodes, screens[i].name, e) == Some(screens[j].name)
    ensures Adjoins(screens[i], e, screens[j])
  {
    assert SlotRight(nodes, screens, i, e);
    j :| 0 <= j < |screens| && Some(screens[j].name) == nodes[screens[i].name].neighbors.Get(e) && Adjoins(screens[i], e, screens[j]);
  }

  lemma DoorOpens(nodes: Nodes, screens: seq<GridScreen>, i: int, e: Edge, j: int)
    requires GridAdjacency(nodes, screens) && 0 <= i < |screens| && 0 <= j < |screens| && Adjoins(screens[i], e, screens[j])
    ensures Beyond(nodes, screens[i].name, e).Some?
  {
    assert SlotRight(nodes, screens, i, e);
  }

  lemma SameCell(screens: seq<GridScreen>, i: int, k: int)
    requires ProperGrid(screens) && 0 <= i < |screens| && 0 <= k < |screens|
    requires screens[i].col == screens[k].col && screens[i].row == screens[k].row
    ensures i == k
  {
  }

  lemma WayBack(nodes: Nodes, screens: seq<GridScreen>, i: int, e: Edge)
    requires ProperGrid(screens) && GridAdjacency(nodes, screens)
    requires 0 <= i < |screens| && Beyond(nodes, screens[i].name, e).Some?
    ensures Beyond(nodes, Beyond(nodes, screens[i].name, e).value, e.Opposite()) == Some(screens[i].name)
  {
    var j := NextDoor(nodes, screens, i, e);
    DoorOpens(nodes, screens, j, e.Opposite(), i);
    var k := NextDoor(nodes, screens, j, e.Opposite());
    SameCell(screens, i, k);
  }

  /** So the graph of a proper grid is symmetric: the cursor can always travel back the way it came. */
  lemma GridIsSymmetric(nodes: Nodes, screens: seq<GridScreen>)
    requires ProperGrid(screens) && GridAdjacency(nodes, screens)
    ensures Symmetric(nodes)
  {
    forall a, e | Beyond(nodes, a, e).Some?
      ensures Beyond(nodes, Beyond(nodes, a, e).value, e.Opposite()) == Some(a)
    {
      var i :| 0 <= i < |screens| && screens[i].name == a;
      WayBack(nodes, screens, i, e);
    }
  }

  lemma LinkedBeyond(nodes: Nodes, a: string, e: Edge, b: string, n: string, d: Edge)
    requires a in nodes && b in nodes
    ensures Beyond(Linked(nodes, a, e, b), n, d) ==
            if n == a && d == e then Some(b)
            else if n == b && d == e.Opposite() then Some(a)
            else Beyond(nodes, n, d)
  {
  }

  /** Linking two screens keeps a symmetric graph symmetric exactly if neither slot already led elsewhere. */
  lemma LinkSymmetric(nodes: Nodes, a: string, e: Edge, b: string)
    requires Symmetric(nodes) && a in nodes && b in nodes
    ensures Symmetric(Linked(nodes, a, e, b)) <==>
            (Beyond(nodes, a, e) in {None, Some(b)} && Beyond(nodes, b, e.Opposite()) in {None, Some(a)})
  {
    var after := Linked(nodes, a, e, b);
    forall n, d {
      LinkedBeyond(nodes, a, e, b, n, d);
    }
    var there, back := Beyond(nodes, a, e), Beyond(nodes, b, e.Opposite());
    if there.Some? && there.value != b {
      assert Beyond(after, there.value, e.Opposite()) == Some(a) && Beyond(after, a, e) == Some(b);
      assert e.Opposite().Opposite() == e;
    }
    if back.Some? && back.value != a {
      assert Beyond(after, back.value, e) == Some(b) && Beyond(after, b, e.Opposite()) == Some(a);
    }
  }

  /** Linking a screen whose slot is taken does break symmetry: the old neighbour still leads to it. */
  lemma LinkBreaksSymmetry() returns (nodes: Nodes)
    ensures Symmetric(nodes) && "a" in nodes && "c" in nodes && !Symmetric(Linked(nodes, "a", Right, "c"))
  {
    var bare := ScreenNode(ScreenSize(1, 1), NO_NEIGHBORS);
    var apart := map["a" := bare, "b" := bare, "c" := bare];
    nodes := Linked(apart, "a", Right, "b");
    LinkSymmetric(apart, "a", Right, "b");
    assert Beyond(nodes, "a", Right) == Some("b");
    LinkSymmetric(nodes, "a", Right, "c");
  }
}
