/** The server's routing brain: which screen owns the cursor, and what each captured event becomes. */
module Server {
  import opened Arithmetic
  import opened Wrappers
  import opened MachineInts
  import opened Messages
  import opened Layout

  datatype Action =
    | Send(screen: string, msg: Message)
    | SetGrab(on: bool)
    | WarpCursor(x: int, y: int)
    | ActiveChanged(name: string)

  datatype State = State(
    nodes: Nodes,
    local: string,
    active: string,
    cursorX: int,
    cursorY: int,
    modifiers: u16,
    enterSeq: u32,
    locked: bool)
  {
    predicate Remote() { active != local }
  }

  const INSET := 2

  function ModifierBit(key: u16): u16 {
    if key == 0xEFE1 || key == 0xEFE2 then 0x01
    else if key == 0xEFE3 || key == 0xEFE4 then 0x02
    else if key == 0xEFE9 then 0x04
    else if key == 0xEFEA then 0x20
    else if key == 0xEFEB || key == 0xEFEC then 0x10
    else if key == 0xEFE7 || key == 0xEFE8 then 0x08
    else 0
  }

  /** `mask` with the one-bit number `bit` set (`on`) or cleared. */
  function WithBit(mask: u16, bit: u16, on: bool): u16
    requires bit > 0
  {
    var held := mask / bit % 2 == 1;
    if on == held then mask
    else if on then (mask + bit) % 0x1_0000
    else (mask - bit) % 0x1_0000
  }

  function TrackModifiers(modifiers: u16, ev: LocalEvent): u16 {
    if !ev.Key? then modifiers
    else
      var bit := ModifierBit(ev.key);
      if bit == 0 || ev.action.Repeat? then ev.mask
      else WithBit(ev.mask, bit, ev.action.Down?)
  }

  function Center(nodes: Nodes, screen: string): (int, int) {
    match SizeOf(nodes, screen)
    case Some(size) => (TruncDiv(size.w, 2), TruncDiv(size.h, 2))
    case None => (0, 0)
  }

  function Initial(nodes: Nodes, local: string): State {
    var (cx, cy) := Center(nodes, local);
    State(nodes, local, local, cx, cy, 0, 0, false)
  }

  function GoHome(s: State): (State, seq<Action>) {
    if !s.Remote() then (s, [])
    else
      var (cx, cy) := Center(s.nodes, s.local);
      (s.(active := s.local, cursorX := cx, cursorY := cy),
       [SetGrab(false), WarpCursor(cx, cy), ActiveChanged(s.local)])
  }

  /** Bounds of Rust's `clamp`, which needs `lo <= hi`. */
  function InsetCoordinate(v: int, extent: int): int {
    Min(Max(v, INSET), Max(extent - 1 - INSET, INSET))
  }

  function InsetToLocal(s: State, x: int, y: int): (int, int) {
    match SizeOf(s.nodes, s.local)
    case Some(size) => (InsetCoordinate(x, size.w), InsetCoordinate(y, size.h))
    case None => (x, y)
  }

  function CrossingOf(s: State): Option<Crossing> {
    if s.locked then None
    else DetectCrossing(s.nodes, s.active, s.cursorX, s.cursorY, if s.Remote() then 0 else 1)
  }

  /** The cursor stays on the active screen: pin it inside a remote one and forward where it is. */
  function StayPut(s: State): (State, seq<Action>) {
    if !s.Remote() then (s, [])
    else
      var (cx, cy) := ClampTo(s.nodes, s.active, s.cursorX, s.cursorY);
      (s.(cursorX := cx, cursorY := cy), [Send(s.active, MouseMove(AsI16(cx), AsI16(cy)))])
  }

  function ReturnHome(s: State, c: Crossing): (State, seq<Action>) {
    var (x, y) := InsetToLocal(s, c.entryX, c.entryY);
    (s.(active := c.to, cursorX := x, cursorY := y),
     (if s.Remote() then [Send(s.active, Leave)] else [])
     + [SetGrab(false), WarpCursor(x, y), ActiveChanged(c.to)])
  }

  function EnterRemote(s: State, c: Crossing): (State, seq<Action>) {
    var next: u32 := (s.enterSeq + 1) % 0x1_0000_0000;
    (s.(active := c.to, cursorX := c.entryX, cursorY := c.entryY, enterSeq := next),
     (if s.Remote() then [Send(s.active, Leave)] else [SetGrab(true)])
     + [Send(c.to, Enter(AsI16(c.entryX), AsI16(c.entryY), next, s.modifiers)), ActiveChanged(c.to)])
  }

  function TryCross(s: State): (State, seq<Action>) {
    match CrossingOf(s)
    case None => StayPut(s)
    case Some(c) => if c.to == s.local then ReturnHome(s, c) else EnterRemote(s, c)
  }

  /** The message a button, wheel or key event is forwarded as. */
  function Forwarded(ev: LocalEvent): Option<Message> {
    match ev
    case Button(button, pressed) => Some(if pressed then MouseDown(button) else MouseUp(button))
    case Wheel(x, y) => Some(MouseWheel(x, y))
    case Key(key, mask, scan, Down) => Some(KeyDown(key, mask, scan))
    case Key(key, mask, scan, Up) => Some(KeyUp(key, mask, scan))
    case Key(key, mask, scan, Repeat(n)) => Some(KeyRepeat(key, mask, n, scan))
    case _ => None
  }

  /** The virtual cursor after a relative motion; the sums are of 32-bit numbers and wrap. */
  function Moved(s: State, dx: int, dy: int): State {
    s.(cursorX := AsI32(s.cursorX + dx), cursorY := AsI32(s.cursorY + dy))
  }

  function HandleLocal(s: State, ev: LocalEvent): (State, seq<Action>)
  {
    match ev
    case MotionAbs(x, y) => TryCross(s.(cursorX := x, cursorY := y))
    case MotionRel(dx, dy) => TryCross(Moved(s, dx, dy))
    case _ => (s, [])
  }

  function HandleRemote(s: State, ev: LocalEvent): (State, seq<Action>)
  {
    match ev
    case MotionRel(dx, dy) => TryCross(Moved(s, dx, dy))
    case MotionAbs(_, _) => (s, [])
    case _ =>
      var msg := Forwarded(ev);
      (s, if msg.Some? then [Send(s.active, msg.value)] else [])
  }

  function Handle(s: State, ev: LocalEvent): (State, seq<Action>) {
    var t := s.(modifiers := TrackModifiers(s.modifiers, ev));
    if t.Remote() then HandleRemote(t, ev) else HandleLocal(t, ev)
  }

  class ServerMachine {
    const layout: ScreenLayout
    const localScreen: string
    var active: string
    var cursorX: int
    var cursorY: int
    var modifiers: u16
    var enterSeq: u32
    var switchLocked: bool

    function View(): State
      reads this, layout
    {
      State(layout.nodes, localScreen, active, cursorX, cursorY, modifiers, enterSeq, switchLocked)
    }

    constructor (layout: ScreenLayout, localScreen: string)
      ensures this.layout == layout
      ensures View() == Initial(layout.nodes, localScreen)
    {
      this.layout := layout;
      this.localScreen := localScreen;
      active := localScreen;
      var (cx, cy) := Center(layout.nodes, localScreen);
      cursorX, cursorY := cx, cy;
      modifiers, enterSeq, switchLocked := 0, 0, false;
    }

    method IsRemote() returns (r: bool)
      ensures r == View().Remote()
    {
      r := active != localScreen;
    }

    method SetLock(locked: bool)
      modifies this
      ensures View() == old(View()).(locked := locked)
    {
      switchLocked := locked;
    }

    method ToggleLock() returns (locked: bool)
      modifies this
      ensures View() == old(View()).(locked := locked) && locked == !old(switchLocked)
    {
      switchLocked := !switchLocked;
      locked := switchLocked;
    }

    method SetScreenSize(screen: string, w: int, h: int)
      modifies layout
      ensures View() == old(View()).(nodes := WithSize(old(layout.nodes), screen, ScreenSize(w, h)))
    {
      layout.SetSize(screen, ScreenSize(w, h));
    }

    method GoHomeNow() returns (actions: seq<Action>)
      modifies this
      ensures (View(), actions) == GoHome(old(View()))
    {
      if active == localScreen {
        return [];
      }
      active := localScreen;
      var (cx, cy) := Center(layout.nodes, localScreen);
      cursorX := cx;
      cursorY := cy;
      actions := [SetGrab(false), WarpCursor(cx, cy), ActiveChanged(localScreen)];
    }

    method HandleEvent(ev: LocalEvent) returns (actions: seq<Action>)
      modifies this
      ensures (View(), actions) == Handle(old(View()), ev)
    {
      modifiers := TrackModifiers(modifiers, ev);
      var remote := IsRemote();
      if remote {
        actions := OnRemote(ev);
      } else {
        actions := OnLocal(ev);
      }
    }

    method OnLocal(ev: LocalEvent) returns (actions: seq<Action>)
      modifies this
      ensures (View(), actions) == HandleLocal(old(View()), ev)
    {
      match ev
      case MotionAbs(x, y) =>
        cursorX, cursorY := x, y;
        actions := Cross();
      case MotionRel(dx, dy) =>
        cursorX := AsI32(cursorX + dx);
        cursorY := AsI32(cursorY + dy);
        actions := Cross();
      case _ =>
        actions := [];
    }

    method OnRemote(ev: LocalEvent) returns (actions: seq<Action>)
      modifies this
      ensures (View(), actions) == HandleRemote(old(View()), ev)
    {
      match ev
      case MotionRel(dx, dy) =>
        cursorX := AsI32(cursorX + dx);
        cursorY := AsI32(cursorY + dy);
        actions := Cross();
      case MotionAbs(_, _) =>
        actions := [];
      case Button(button, pressed) =>
        actions := [Send(active, if pressed then MouseDown(button) else MouseUp(button))];
      case Wheel(x, y) =>
        actions := [Send(active, MouseWheel(x, y))];
      case Key(key, mask, scan, action) =>
        var msg;
        match action {
          case Down => msg := KeyDown(key, mask, scan);
          case Up => msg := KeyUp(key, mask, scan);
          case Repeat(n) => msg := KeyRepeat(key, mask, n, scan);
        }
        actions := [Send(active, msg)];
    }

    method Cross() returns (actions: seq<Action>)
      modifies this
      ensures (View(), actions) == TryCross(old(View()))
    {
      var crossing := None;
      if !switchLocked {
        var margin := if active != localScreen then 0 else 1;
        crossing := DetectCrossing(layout.nodes, active, cursorX, cursorY, margin);
      }
      match crossing
      case None =>
        if active != localScreen {
          var (cx, cy) := ClampTo(layout.nodes, active, cursorX, cursorY);
          cursorX := cx;
          cursorY := cy;
          actions := [Send(active, MouseMove(AsI16(cx), AsI16(cy)))];
        } else {
          actions := [];
        }
      case Some(c) =>
        var leaving := active;
        var leavingWasLocal := leaving == localScreen;
        var (entryX, entryY) :=
          if c.to == localScreen then InsetToLocal(View(), c.entryX, c.entryY) else (c.entryX, c.entryY);
        cursorX := entryX;
        cursorY := entryY;
        actions := [];
        if !leavingWasLocal {
          actions := actions + [Send(leaving, Leave)];
        }
        active := c.to;
        if c.to == localScreen {
          actions := actions + [SetGrab(false)];
          actions := actions + [WarpCursor(entryX, entryY)];
        } else {
          enterSeq := (enterSeq + 1) % 0x1_0000_0000;
          if leavingWasLocal {
            actions := actions + [SetGrab(true)];
          }
          actions := actions + [Send(c.to, Enter(AsI16(c.entryX), AsI16(c.entryY), enterSeq, modifiers))];
        }
        actions := actions + [ActiveChanged(c.to)];
        assert actions == (if c.to == localScreen then ReturnHome(old(View()), c) else EnterRemote(old(View()), c)).1;
    }
  }
}
