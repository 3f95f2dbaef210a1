/** The handshake of a connection with whatever peer opened it, up to its being handed to the controller. */
module Handshake {
  import opened Wrappers
  import opened MachineInts
  import opened Messages
  import opened Framing
  import opened Transport
  import opened Streaming
  import opened Layout
  import opened Controller
  import opened World
  import Client

  datatype HandshakeError =
    | NoAnswer(lost: NetError)
    | NotSent
    | Incompatible(major: i16)
    | NotInLayout(name: string)
    | OutOfTurn(m: Message)

  /** The screen a peer turns out to be, or why it is refused, and what it has been told by then. */
  datatype Agreement = Agreement(outcome: Result<(string, ScreenSize), HandshakeError>, said: seq<Message>)

  const GREETING := Hello(PROTOCOL_MAJOR, PROTOCOL_MINOR)
  const REFUSAL := ErrIncompatible(PROTOCOL_MAJOR, PROTOCOL_MINOR)

  /** What the peer's answers lead to, as long as everything can be written. */
  function Agree(session: Session, nodes: Nodes): Agreement {
    var agreed := AgreeName(session, nodes);
    agreed.(said := [GREETING] + agreed.said)
  }

  function AgreeName(session: Session, nodes: Nodes): Agreement {
    if session.messages == [] then Agreement(Err(NoAnswer(session.end)), [])
    else
      match session.messages[0]
      case HelloBack(major, _, name) => AgreeToJoin(Session(session.messages[1..], session.end), nodes, major, name)
      case m => Agreement(Err(OutOfTurn(m)), [])
  }

  function AgreeToJoin(session: Session, nodes: Nodes, major: i16, name: string): Agreement {
    if major != PROTOCOL_MAJOR then Agreement(Err(Incompatible(major)), [REFUSAL])
    else if name !in nodes then Agreement(Err(NotInLayout(name)), [ErrUnknown])
    else
      var agreed := AgreeSize(session, name);
      agreed.(said := [QueryInfo] + agreed.said)
  }

  function AgreeSize(session: Session, name: string): Agreement {
    if session.messages == [] then Agreement(Err(NoAnswer(session.end)), [])
    else
      match session.messages[0]
      case DeviceInfo(_, _, w, h, _, _, _) => Agreement(Ok((name, ScreenSize(w, h))), WELCOME)
      case m => Agreement(Err(OutOfTurn(m)), [])
  }

  // --- What is written --------------------------------------------------------------------------

  /** One more answer, read off the stream. */
  lemma NextAnswer(s: seq<byte>, end: StreamEnd, nodes: Nodes)
    requires Receive(DECODE, s, end).outcome.Ok?
    ensures var m, session := Receive(DECODE, s, end).outcome.value, ReceiveAll(DECODE, s, end);
      var rest := ReceiveAll(DECODE, Receive(DECODE, s, end).rest, end);
      && session.messages == [m] + rest.messages && session.end == rest.end
      && AgreeName(session, nodes) ==
         if m.HelloBack? then AgreeToJoin(rest, nodes, m.major, m.name) else Agreement(Err(OutOfTurn(m)), [])
  {
    ReceiveNext(s, end);
  }

  lemma NextSize(s: seq<byte>, end: StreamEnd, name: string)
    requires Receive(DECODE, s, end).outcome.Ok?
    ensures var m, session := Receive(DECODE, s, end).outcome.value, ReceiveAll(DECODE, s, end);
      && ReceiveAll(DECODE, Receive(DECODE, s, end).rest, end) == Session(session.messages[1..], session.end)
      && AgreeSize(session, name) ==
         if m.DeviceInfo? then Agreement(Ok((name, ScreenSize(m.w, m.h))), WELCOME)
         else Agreement(Err(OutOfTurn(m)), [])
  {
    ReceiveNext(s, end);
  }

  /** How the handshake ends and what has been written behind `base`, of which only so much can be. */
  predicate Concludes(r: Result<(string, ScreenSize), HandshakeError>, written: seq<byte>, base: seq<byte>,
                      capacity: nat, agreed: Agreement)
  {
    && written == Truncated(Writing(base, agreed.said), capacity)
    && if |Writing(base, agreed.said)| <= capacity then r == agreed.outcome else r.Err?
  }

  function Behind(base: seq<byte>, m: Message): seq<byte> {
    base + Frame(ENCODE(m))
  }

  lemma Regroup(base: seq<byte>, first: seq<byte>, more: seq<byte>)
    ensures base + (first + more) == base + first + more && base + first <= base + first + more
  {
  }

  lemma WritingFirst(base: seq<byte>, m: Message, more: seq<Message>)
    ensures Writing(base, [m] + more) == Writing(Behind(base, m), more)
    ensures Behind(base, m) <= Writing(base, [m] + more)
  {
    StreamFirst(ENCODE, m, more);
    Regroup(base, Frame(ENCODE(m)), Stream(Payloads(ENCODE, more)));
  }

  lemma WritingNone(base: seq<byte>)
    ensures Writing(base, []) == base
  {
    assert Payloads(ENCODE, []) == [];
  }

  lemma WritingOne(base: seq<byte>, m: Message)
    ensures Writing(base, [m]) == Behind(base, m)
  {
    WritingFirst(base, m, []);
    assert [m] + [] == [m];
    WritingNone(Behind(base, m));
  }

  /** Three messages in a row. */
  lemma WritingThree(base: seq<byte>, a: Message, b: Message, c: Message)
    ensures Writing(base, [a, b, c]) == Behind(Behind(Behind(base, a), b), c)
    ensures Behind(base, a) <= Behind(Behind(base, a), b) <= Writing(base, [a, b, c])
  {
    WritingFirst(base, a, [b, c]);
    WritingFirst(Behind(base, a), b, [c]);
    WritingOne(Behind(Behind(base, a), b), c);
    assert [a] + [b, c] == [a, b, c] && [b] + [c] == [b, c];
  }

  // --- The connection task ----------------------------------------------------------------------

  /** Whatever the peer answers, it is told what was agreed to say, and its name and size are taken if it may join. */
  method Greet(reader: FramedReader, writer: FramedWriter, nodes: Nodes)
    returns (r: Result<(string, ScreenSize), HandshakeError>)
    modifies reader, writer
    ensures var session := ReceiveAll(DECODE, old(reader.inner), reader.end);
      && Concludes(r, writer.inner, old(writer.inner), writer.capacity, Agree(session, nodes))
      && (r.Ok? ==> ReceiveAll(DECODE, reader.inner, reader.end) == Session(session.messages[2..], session.end))
  {
    WritingFirst(writer.inner, GREETING, AgreeName(ReceiveAll(DECODE, reader.inner, reader.end), nodes).said);
    var ok := writer.Send(GREETING);
    if !ok {
      return Err(NotSent);
    }
    r := AskName(reader, writer, nodes);
  }

  method AskName(reader: FramedReader, writer: FramedWriter, nodes: Nodes)
    returns (r: Result<(string, ScreenSize), HandshakeError>)
    requires |writer.inner| <= writer.capacity
    modifies reader, writer
    ensures var session := ReceiveAll(DECODE, old(reader.inner), reader.end);
      && Concludes(r, writer.inner, old(writer.inner), writer.capacity, AgreeName(session, nodes))
      && (r.Ok? ==> ReceiveAll(DECODE, reader.inner, reader.end) == Session(session.messages[2..], session.end))
  {
    WritingNone(writer.inner);
    ghost var before := reader.inner;
    var back := reader.Recv();
    if back.Err? {
      return Err(NoAnswer(back.error));
    }
    NextAnswer(before, reader.end, nodes);
    match back.value {
      case HelloBack(major, _, name) =>
        r := CheckName(reader, writer, nodes, major, name);
      case m => return Err(OutOfTurn(m));
    }
  }

  method CheckName(reader: FramedReader, writer: FramedWriter, nodes: Nodes, major: i16, name: string)
    returns (r: Result<(string, ScreenSize), HandshakeError>)
    requires |writer.inner| <= writer.capacity
    modifies reader, writer
    ensures var session := ReceiveAll(DECODE, old(reader.inner), reader.end);
      && Concludes(r, writer.inner, old(writer.inner), writer.capacity, AgreeToJoin(session, nodes, major, name))
      && (r.Ok? ==> ReceiveAll(DECODE, reader.inner, reader.end) == Session(session.messages[1..], session.end))
  {
    if major != PROTOCOL_MAJOR {
      WritingOne(writer.inner, REFUSAL);
      var _ := writer.Send(REFUSAL);
      return Err(Incompatible(major));
    }
    if name !in nodes {
      WritingOne(writer.inner, ErrUnknown);
      var _ := writer.Send(ErrUnknown);
      return Err(NotInLayout(name));
    }
    WritingFirst(writer.inner, QueryInfo, AgreeSize(ReceiveAll(DECODE, reader.inner, reader.end), name).said);
    var ok := writer.Send(QueryInfo);
    if !ok {
      return Err(NotSent);
    }
    r := AskSize(reader, writer, name);
  }

  method AskSize(reader: FramedReader, writer: FramedWriter, name: string)
    returns (r: Result<(string, ScreenSize), HandshakeError>)
    requires |writer.inner| <= writer.capacity
    modifies reader, writer
    ensures var session := ReceiveAll(DECODE, old(reader.inner), reader.end);
      && Concludes(r, writer.inner, old(writer.inner), writer.capacity, AgreeSize(session, name))
      && (r.Ok? ==> ReceiveAll(DECODE, reader.inner, reader.end) == Session(session.messages[1..], session.end))
  {
    WritingNone(writer.inner);
    ghost var before := reader.inner;
    var info := reader.Recv();
    if info.Err? {
      return Err(NoAnswer(info.error));
    }
    NextSize(before, reader.end, name);
    match info.value {
      case DeviceInfo(_, _, w, h, _, _, _) =>
        var ok := Welcome(writer);
        return if ok then Ok((name, ScreenSize(w, h))) else Err(NotSent);
      case m => return Err(OutOfTurn(m));
    }
  }

  method Welcome(writer: FramedWriter) returns (ok: bool)
    requires |writer.inner| <= writer.capacity
    modifies writer
    ensures writer.inner == Truncated(Writing(old(writer.inner), WELCOME), writer.capacity)
    ensures ok <==> |Writing(old(writer.inner), WELCOME)| <= writer.capacity
  {
    WritingThree(writer.inner, InfoAck, ResetOptions, SetOptions([]));
    ok := writer.Send(InfoAck);
    if ok {
      ok := writer.Send(ResetOptions);
    }
    if ok {
      ok := writer.Send(SetOptions([]));
    }
  }

  // --- Who may join -----------------------------------------------------------------------------

  /** A peer joins exactly if it speaks our version, gives a name of the layout and then reports a size, in that order. */
  lemma JoinsExactly(session: Session, nodes: Nodes, name: string, size: ScreenSize)
    ensures Agree(session, nodes).outcome == Ok((name, size)) <==>
      && |session.messages| >= 2
      && session.messages[0].HelloBack? && session.messages[0].major == PROTOCOL_MAJOR
      && session.messages[0].name == name && name in nodes
      && session.messages[1].DeviceInfo?
      && size == ScreenSize(session.messages[1].w, session.messages[1].h)
  {
  }

  /** What a peer has been told by then, word for word. */
  lemma {:induction false} SaidExactly(session: Session, nodes: Nodes)
    ensures var agreed := Agree(session, nodes);
      agreed.said ==
        if agreed.outcome.Ok? then [Hello(1, 9), QueryInfo, InfoAck, ResetOptions, SetOptions([])]
        else match agreed.outcome.error
          case Incompatible(_) => [Hello(1, 9), ErrIncompatible(1, 9)]
          case NotInLayout(_) => [Hello(1, 9), ErrUnknown]
          case _ =>
            if session.messages != [] && session.messages[0].HelloBack? then [Hello(1, 9), QueryInfo] else [Hello(1, 9)]
  {
  }

  /** Why a peer is turned away. */
  lemma {:induction false} TurnedAwayTruly(session: Session, nodes: Nodes)
    ensures match Agree(session, nodes).outcome
            case Ok(_) => true
            case Err(Incompatible(major)) =>
              session.messages != [] && session.messages[0].HelloBack? && session.messages[0].major == major != 1
            case Err(NotInLayout(name)) =>
              && session.messages != [] && session.messages[0].HelloBack? && session.messages[0].major == 1
              && session.messages[0].name == name && name !in nodes
            case Err(OutOfTurn(m)) => m in session.messages[..if |session.messages| < 2 then |session.messages| else 2]
            case Err(NoAnswer(end)) => end == session.end && |session.messages| < 2
            case Err(NotSent) => false
  {
  }

  /** What a client answers to some messages. */
  function Answers(client: Client.State, msgs: seq<Message>): seq<Message>
    decreases |msgs|
  {
    if msgs == [] then []
    else
      var (next, actions) := Client.Handle(client, msgs[0]);
      Replies(actions) + Answers(next, msgs[1..])
  }

  /** In `client` it is told `msg`, answers `replies`, and goes on as `next`. */
  predicate Answered(client: Client.State, msg: Message, replies: seq<Message>, next: Client.State) {
    Client.Handle(client, msg).0 == next && Replies(Client.Handle(client, msg).1) == replies
  }

  lemma AnswersFirst(client: Client.State, msg: Message, more: seq<Message>, replies: seq<Message>, next: Client.State)
    requires Answered(client, msg, replies, next)
    ensures Answers(client, [msg] + more) == replies + Answers(next, more)
  {
    assert ([msg] + more)[1..] == more;
  }

  lemma AnswersOne(client: Client.State, msg: Message, replies: seq<Message>, next: Client.State)
    requires Answered(client, msg, replies, next)
    ensures Answers(client, [msg]) == replies
  {
    AnswersFirst(client, msg, [], replies, next);
    assert [msg] + [] == [msg];
  }

  lemma AnswersThree(client: Client.State, a: Message, b: Message, c: Message, then1: Client.State, then2: Client.State)
    requires Answered(client, a, [], then1) && Answered(then1, b, [], then2) && Answered(then2, c, [], then2)
    ensures Answers(client, [a, b, c]) == []
  {
    AnswersFirst(client, a, [b, c], [], then1);
    AnswersFirst(then1, b, [c], [], then2);
    AnswersOne(then2, c, [], then2);
    assert [a] + [b, c] == [a, b, c] && [b] + [c] == [b, c];
  }

  lemma WelcomeUnanswered(client: Client.State)
    ensures Answers(client, WELCOME) == []
  {
    var acked := client.(acked := true);
    AnswersThree(client, InfoAck, ResetOptions, SetOptions([]), acked, acked);
  }

  lemma GreetingAnswered(client: Client.State)
    ensures Answered(client, GREETING, [HelloBack(PROTOCOL_MAJOR, PROTOCOL_MINOR, client.name)], client)
    ensures Answered(client, QueryInfo, [Client.GeometryOf(client.screen)], client)
  {
  }

  lemma AnswersTwo(client: Client.State, a: Message, b: Message, more: seq<Message>, x: Message, y: Message)
    requires Answered(client, a, [x], client) && Answered(client, b, [y], client) && Answers(client, more) == []
    ensures Answers(client, [a, b] + more) == [x, y]
  {
    AnswersFirst(client, a, [b] + more, [x], client);
    AnswersFirst(client, b, more, [y], client);
    assert [a] + ([b] + more) == [a, b] + more;
  }

  lemma HonestAnswers(client: Client.State)
    ensures Answers(client, [GREETING, QueryInfo] + WELCOME)
         == [HelloBack(PROTOCOL_MAJOR, PROTOCOL_MINOR, client.name), Client.GeometryOf(client.screen)]
  {
    WelcomeUnanswered(client);
    GreetingAnswered(client);
    AnswersTwo(client, GREETING, QueryInfo, WELCOME,
               HelloBack(PROTOCOL_MAJOR, PROTOCOL_MINOR, client.name), Client.GeometryOf(client.screen));
  }

  /** The two sides fit: what our client answers to a whole handshake is what that handshake needs to be said. */
  lemma HonestJoins(name: string, screen: ScreenSize, nodes: Nodes, end: NetError)
    ensures var said := [GREETING, QueryInfo] + WELCOME;
      var session := Session(Answers(Client.Initial(name, screen), said), end);
      var size := ScreenSize(AsI16(screen.w), AsI16(screen.h));
      Agree(session, nodes) ==
        if name in nodes then Agreement(Ok((name, size)), said)
        else Agreement(Err(NotInLayout(name)), [GREETING, ErrUnknown])
  {
    HonestAnswers(Client.Initial(name, screen));
    assert [GREETING, QueryInfo] + WELCOME == [GREETING] + ([QueryInfo] + WELCOME);
  }

  // --- In the whole system ----------------------------------------------------------------------

  /** The connection task of `n` reads so many messages. */
  function Exchanges(n: string, count: nat): (steps: seq<Step>)
    ensures |steps| == count
  {
    if count == 0 then [] else [Converse(n)] + Exchanges(n, count - 1)
  }

  lemma FirstExchange(w: World, n: string, count: nat, more: seq<Step>)
    requires count > 0
    ensures Run(w, Exchanges(n, count) + more) == Run(Next(w, Converse(n)), Exchanges(n, count - 1) + more)
  {
    var steps := Exchanges(n, count) + more;
    assert steps[0] == Converse(n) && steps[1..] == Exchanges(n, count - 1) + more;
  }

  predicate Over(link: Link) {
    link.phase.Ready? || link.phase.Rejected? || link.replies == []
  }

  /** Once the handshake is over, whatever else is read makes no difference to whether the peer is attached. */
  lemma {:induction false} OverStays(w: World, n: string, count: nat)
    requires n in w.links && Over(w.links[n])
    ensures var v := Run(w, Exchanges(n, count) + [Attach(n)]);
      && n in v.links && v.links[n].wire == w.links[n].wire
      && v.hub == (if w.links[n].phase.Ready? then OnConnected(w.hub, n, w.links[n].reported) else w.hub)
      && v.links[n].phase == (if w.links[n].phase.Ready? then Attached else w.links[n].phase)
    decreases count
  {
    if count == 0 {
      assert Exchanges(n, 0) + [Attach(n)] == [Attach(n)];
      assert Run(w, [Attach(n)]) == Next(w, Attach(n));
    } else {
      FirstExchange(w, n, count, [Attach(n)]);
      OverStays(Next(w, Converse(n)), n, count - 1);
    }
  }

  /** What becomes of a connection whose task reads all of its peer's answers, if they agree to this. */
  ghost predicate Becomes(w: World, n: string, agreed: Agreement)
    requires n in w.links
  {
    var v := Run(w, Exchanges(n, |w.links[n].replies|) + [Attach(n)]);
    && n in v.links && v.links[n].wire == w.links[n].wire + agreed.said
    && (v.links[n].phase.Attached? <==> agreed.outcome.Ok?)
    && v.hub == if agreed.outcome.Ok? then OnConnected(w.hub, n, agreed.outcome.value.1) else w.hub
  }

  lemma QueriedBecomes(w: World, n: string, end: NetError)
    requires n in w.links && w.links[n].phase.Queried?
    ensures Becomes(w, n, AgreeSize(Session(w.links[n].replies, end), n))
  {
    var replies := w.links[n].replies;
    if replies == [] {
      OverStays(w, n, 0);
    } else {
      FirstExchange(w, n, |replies|, [Attach(n)]);
      OverStays(Next(w, Converse(n)), n, |replies| - 1);
    }
  }

  lemma GreetedBecomes(w: World, n: string, end: NetError)
    requires n in w.links && w.links[n].phase.Greeted?
    requires w.links[n].replies != [] && w.links[n].replies[0].HelloBack? ==> w.links[n].replies[0].name == n
    ensures Becomes(w, n, AgreeName(Session(w.links[n].replies, end), w.hub.server.nodes))
  {
    var replies := w.links[n].replies;
    if replies == [] {
      OverStays(w, n, 0);
    } else {
      var u := Next(w, Converse(n));
      FirstExchange(w, n, |replies|, [Attach(n)]);
      if u.links[n].phase.Queried? {
        QueriedBecomes(u, n, end);
      } else {
        OverStays(u, n, |replies| - 1);
      }
    }
  }

  /**
   Whatever a peer has answered, once its connection task has read it the controller has been told of the peer
   exactly if its answers agree to a name and a size, and it has adopted just those. A connection goes by the name
   its peer gives first, if it does.
   */
  lemma AttachedExactly(w: World, n: string, end: NetError)
    requires n in w.links && w.links[n].phase.Greeted?
    requires w.links[n].replies != [] && w.links[n].replies[0].HelloBack? ==> w.links[n].replies[0].name == n
    ensures var agreed := Agree(Session(w.links[n].replies, end), w.hub.server.nodes);
      var v := Run(w, Exchanges(n, |w.links[n].replies|) + [Attach(n)]);
      && n in v.links && v.links[n].wire == w.links[n].wire + agreed.said[1..]
      && (v.links[n].phase.Attached? <==> agreed.outcome.Ok?)
      && v.hub == if agreed.outcome.Ok? then OnConnected(w.hub, n, agreed.outcome.value.1) else w.hub
  {
    GreetedBecomes(w, n, end);
  }
}
