/** The single-threaded controller: the server machine, the client table and the local input grab. */
module Controller {
  import opened Wrappers
  import opened Messages
  import opened Layout
  import Server

  /** `clients` maps each connected screen to the messages queued for its writer task. */
  datatype Hub = Hub(
    server: Server.State,
    clients: map<string, seq<Message>>,
    grab: bool,
    warp: Option<(int, int)>)

  function Dispatch(h: Hub, action: Server.Action): Hub {
    match action
    case Send(screen, msg) =>
      if screen in h.clients then h.(clients := h.clients[screen := h.clients[screen] + [msg]]) else h
    case SetGrab(on) => h.(grab := on)
    case WarpCursor(x, y) => h.(warp := Some((x, y)))
    case ActiveChanged(_) => h
  }

  function DispatchAll(h: Hub, actions: seq<Server.Action>): Hub
    decreases |actions|
  {
    if actions == [] then h else DispatchAll(Dispatch(h, actions[0]), actions[1..])
  }

  function OnLocal(h: Hub, ev: LocalEvent): Hub {
    var (server, actions) := Server.Handle(h.server, ev);
    DispatchAll(h.(server := server), actions)
  }

  function OnConnected(h: Hub, screen: string, size: ScreenSize): Hub {
    h.(server := h.server.(nodes := WithSize(h.server.nodes, screen, size)), clients := h.clients[screen := []])
  }

  function OnDisconnected(h: Hub, screen: string): Hub {
    var rest := h.(clients := h.clients - {screen});
    if h.server.active == screen then
      var (server, actions) := Server.GoHome(h.server);
      DispatchAll(rest.(server := server), actions)
    else rest
  }

  function Broadcast(h: Hub, msg: Message): Hub {
    h.(clients := map screen | screen in h.clients :: h.clients[screen] + [msg])
  }

  class ControllerLoop {
    const machine: Server.ServerMachine
    var clients: map<string, seq<Message>>
    var grab: bool
    var warp: Option<(int, int)>

    function View(): Hub
      reads this, machine, machine.layout
    {
      Hub(machine.View(), clients, grab, warp)
    }

    constructor (layout: ScreenLayout, localScreen: string)
      ensures fresh(machine) && machine.layout == layout
      ensures View() == Hub(Server.Initial(layout.nodes, localScreen), map[], false, None)
    {
      machine := new Server.ServerMachine(layout, localScreen);
      clients := map[];
      grab := false;
      warp := None;
    }

    method DispatchOne(action: Server.Action)
      modifies this
      ensures View() == Dispatch(old(View()), action)
    {
      match action {
        case Send(screen, msg) =>
          if screen in clients {
            clients := clients[screen := clients[screen] + [msg]];
          }
        case SetGrab(on) => grab := on;
        case WarpCursor(x, y) => warp := Some((x, y));
        case ActiveChanged(_) =>
      }
    }

    method DispatchEach(actions: seq<Server.Action>)
      modifies this
      ensures View() == DispatchAll(old(View()), actions)
    {
      for i := 0 to |actions|
        invariant DispatchAll(View(), actions[i..]) == DispatchAll(old(View()), actions)
      {
        assert actions[i..][0] == actions[i] && actions[i..][1..] == actions[i + 1..];
        DispatchOne(actions[i]);
      }
    }

    method Local(ev: LocalEvent)
      modifies this, machine
      ensures View() == OnLocal(old(View()), ev)
    {
      var actions := machine.HandleEvent(ev);
      DispatchEach(actions);
    }

    method ClientConnected(screen: string, w: int, h: int)
      modifies this, machine.layout
      ensures View() == OnConnected(old(View()), screen, ScreenSize(w, h))
    {
      machine.SetScreenSize(screen, w, h);
      clients := clients[screen := []];
    }

    method ClientDisconnected(screen: string)
      modifies this, machine
      ensures View() == OnDisconnected(old(View()), screen)
    {
      clients := clients - {screen};
      if machine.active == screen {
        var actions := machine.GoHomeNow();
        DispatchEach(actions);
      }
    }

    /** A keep-alive tick or a clipboard change goes to every connected client. */
    method SendToAll(msg: Message)
      modifies this
      ensures View() == Broadcast(old(View()), msg)
    {
      var todo := clients.Keys;
      while todo != {}
        invariant todo <= clients.Keys == old(clients).Keys
        invariant forall s :: s in clients ==>
          clients[s] == if s in todo then old(clients)[s] else old(clients)[s] + [msg]
        invariant grab == old(grab) && warp == old(warp)
        decreases todo
      {
        var screen :| screen in todo;
        clients := clients[screen := clients[screen] + [msg]];
        todo := todo - {screen};
      }
    }
  }
}
