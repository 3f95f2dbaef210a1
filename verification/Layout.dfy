/** Screens, which screen borders which, and where a cursor that runs off one lands. */
module Layout {
  import opened Arithmetic
  import opened Wrappers
  import opened MachineInts

  datatype Edge = Left | Right | Top | Bottom {
    function Opposite(): Edge {
      match this
      case Left => Right
      case Right => Left
      case Top => Bottom
      case Bottom => Top
    }
  }

  datatype ScreenSize = ScreenSize(w: int, h: int)

  datatype Neighbors = Neighbors(left: Option<string>, right: Option<string>, top: Option<string>, bottom: Option<string>) {
    function Get(edge: Edge): Option<string> {
      match edge
      case Left => left
      case Right => right
      case Top => top
      case Bottom => bottom
    }

    function Set(edge: Edge, screen: Option<string>): Neighbors {
      match edge
      case Left => this.(left := screen)
      case Right => this.(right := screen)
      case Top => this.(top := screen)
      case Bottom => this.(bottom := screen)
    }
  }

  const NO_NEIGHBORS := Neighbors(None, None, None, None)

  datatype ScreenNode = ScreenNode(size: ScreenSize, neighbors: Neighbors)

  type Nodes = map<string, ScreenNode>

  datatype Crossing = Crossing(to: string, fromEdge: Edge, entryX: int, entryY: int)

  function Clamp(v: int, lo: int, hi: int): int {
    Min(Max(v, lo), Max(hi, lo))
  }

  /** Maps `v` from a `from`-wide axis onto a `to`-wide one. */
  function Scale(v: int, from: int, to: int): int {
    if from <= 1 || to <= 0 then 0
    else Clamp(AsI32(TruncDiv(v * to, from)), 0, to - 1)
  }

  /** The edge of a `size` screen that `(x, y)` has run off; horizontal edges win at corners. */
  function EdgeCrossed(size: ScreenSize, x: int, y: int, margin: int): Option<Edge> {
    if x < margin then Some(Left)
    else if x >= size.w - margin then Some(Right)
    else if y < margin then Some(Top)
    else if y >= size.h - margin then Some(Bottom)
    else None
  }

  /** Where a cursor at `(x, y)` on a `from` screen lands when it crosses `edge` onto a `to` screen. */
  function EntryPoint(from: ScreenSize, to: ScreenSize, edge: Edge, x: int, y: int): (int, int) {
    match edge
    case Left => (to.w - 1, Scale(Clamp(y, 0, from.h - 1), from.h, to.h))
    case Right => (0, Scale(Clamp(y, 0, from.h - 1), from.h, to.h))
    case Top => (Scale(Clamp(x, 0, from.w - 1), from.w, to.w), to.h - 1)
    case Bottom => (Scale(Clamp(x, 0, from.w - 1), from.w, to.w), 0)
  }

  /** The neighbour over `edge` of `screen`, when both are in the layout. */
  function Beyond(nodes: Nodes, screen: string, edge: Edge): Option<string> {
    if screen !in nodes then None
    else
      var to := nodes[screen].neighbors.Get(edge);
      if to.Some? && to.value in nodes then to else None
  }

  function DetectCrossing(nodes: Nodes, active: string, x: int, y: int, margin: int): Option<Crossing> {
    if active !in nodes then None
    else
      var edge := EdgeCrossed(nodes[active].size, x, y, margin);
      if edge.None? then None
      else
        var to := Beyond(nodes, active, edge.value);
        if to.None? then None
        else
          var (ex, ey) := EntryPoint(nodes[active].size, nodes[to.value].size, edge.value, x, y);
          Some(Crossing(to.value, edge.value, ex, ey))
  }

  function ClampTo(nodes: Nodes, screen: string, x: int, y: int): (int, int) {
    if screen in nodes
    then (Clamp(x, 0, nodes[screen].size.w - 1), Clamp(y, 0, nodes[screen].size.h - 1))
    else (x, y)
  }

  function SizeOf(nodes: Nodes, screen: string): Option<ScreenSize> {
    if screen in nodes then Some(nodes[screen].size) else None
  }

  function WithSize(nodes: Nodes, screen: string, size: ScreenSize): Nodes {
    if screen in nodes then nodes[screen := nodes[screen].(size := size)] else nodes
  }

  function WithNeighbor(nodes: Nodes, screen: string, edge: Edge, to: string): Nodes {
    if screen in nodes
    then nodes[screen := nodes[screen].(neighbors := nodes[screen].neighbors.Set(edge, Some(to)))]
    else nodes
  }

  function Linked(nodes: Nodes, a: string, edge: Edge, b: string): Nodes {
    WithNeighbor(WithNeighbor(nodes, a, edge, b), b, edge.Opposite(), a)
  }

  /** The mutable layout the server owns. */
  class ScreenLayout {
    var nodes: Nodes

    constructor ()
      ensures nodes == map[]
    {
      nodes := map[];
    }

    method AddScreen(name: string, size: ScreenSize)
      modifies this
      ensures nodes == old(nodes)[name := ScreenNode(size, NO_NEIGHBORS)]
    {
      nodes := nodes[name := ScreenNode(size, NO_NEIGHBORS)];
    }

    method Link(a: string, edge: Edge, b: string)
      modifies this
      ensures nodes == Linked(old(nodes), a, edge, b)
    {
      if a in nodes {
        nodes := nodes[a := nodes[a].(neighbors := nodes[a].neighbors.Set(edge, Some(b)))];
      }
      if b in nodes {
        nodes := nodes[b := nodes[b].(neighbors := nodes[b].neighbors.Set(edge.Opposite(), Some(a)))];
      }
    }

    method SetSize(screen: string, size: ScreenSize)
      modifies this
      ensures nodes == WithSize(old(nodes), screen, size)
    {
      if screen in nodes {
        nodes := nodes[screen := nodes[screen].(size := size)];
      }
    }
  }
}
