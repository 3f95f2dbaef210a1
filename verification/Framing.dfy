/** Payloads on a byte stream: each behind its length in four big-endian bytes. */
module Framing {
  import opened Wrappers
  import opened MachineInts
  import opened Messages
  import opened WireFormat

  const MAX_FRAME_LEN := 4 * 1024 * 1024

  /** What a read past the last byte of a stream meets: its end, an error, or nothing until the caller gives up. */
  datatype StreamEnd = Closed | Broken | Stalled

  datatype NetError = Ended(end: StreamEnd) | FrameTooLarge(len: int) | Proto(error: ProtoError)

  /** How a payload is read as a message, and how one is written. Framing does not depend on either. */
  type Decoder = seq<byte> -> Result<Message, ProtoError>

  type Encoder = Message -> seq<byte>

  function Frame(payload: seq<byte>): seq<byte> {
    Length(|payload|) + payload
  }

  datatype Received = Received(outcome: Result<Message, NetError>, rest: seq<byte>)

  function Opened(decode: Decoder, payload: seq<byte>): Result<Message, NetError> {
    match decode(payload)
    case Ok(m) => Ok(m)
    case Err(e) => Err(Proto(e))
  }

  /** One receive from a stream on which just `s` is still to come, and then `end`: the outcome, and what it leaves to read. */
  function Receive(decode: Decoder, s: seq<byte>, end: StreamEnd): Received {
    if |s| < 4 then Received(Err(Ended(end)), [])
    else
      var len := FromBigEndian(s[..4]);
      BytesRoundTrip(s[..4]);
      if len > MAX_FRAME_LEN then Received(Err(FrameTooLarge(len)), s[4..])
      else if |s[4..]| < len then Received(Err(Ended(end)), [])
      else Received(Opened(decode, s[4..][..len]), s[4..][len..])
  }

  datatype Session = Session(messages: seq<Message>, end: NetError)

  /** Receives until the first error. */
  function ReceiveAll(decode: Decoder, s: seq<byte>, end: StreamEnd): Session
    decreases |s|
  {
    var first := Receive(decode, s, end);
    match first.outcome
    case Err(e) => Session([], e)
    case Ok(m) =>
      ReceiveShrinks(decode, s, end);
      var more := ReceiveAll(decode, first.rest, end);
      Session([m] + more.messages, more.end)
  }

  lemma ReceiveShrinks(decode: Decoder, s: seq<byte>, end: StreamEnd)
    requires Receive(decode, s, end).outcome.Ok?
    ensures |Receive(decode, s, end).rest| < |s|
  {
    BytesRoundTrip(s[..4]);
  }

  // --- One frame --------------------------------------------------------------------------------

  lemma LengthReads(len: int, after: seq<byte>)
    requires 0 <= len < 0x1_0000_0000
    ensures var s := Length(len) + after; |s| >= 4 && FromBigEndian(s[..4]) == len && s[4..] == after
  {
    NumberRoundTrip(len, 4);
    assert (Length(len) + after)[..4] == Length(len);
  }

  lemma ReceiveParts(decode: Decoder, len: int, after: seq<byte>, end: StreamEnd)
    requires 0 <= len < 0x1_0000_0000
    ensures Receive(decode, Length(len) + after, end) ==
      if len > MAX_FRAME_LEN then Received(Err(FrameTooLarge(len)), after)
      else if |after| < len then Received(Err(Ended(end)), [])
      else Received(Opened(decode, after[..len]), after[len..])
  {
    LengthReads(len, after);
  }

  /** A payload up to the limit comes out of its frame whole, and what follows the frame is not touched. */
  lemma ReceiveFrame(decode: Decoder, payload: seq<byte>, rest: seq<byte>, end: StreamEnd)
    requires |payload| <= MAX_FRAME_LEN
    ensures Receive(decode, Frame(payload) + rest, end) == Received(Opened(decode, payload), rest)
  {
    AppendAssociates(Length(|payload|), payload, rest);
    ReceiveParts(decode, |payload|, payload + rest, end);
    assert (payload + rest)[..|payload|] == payload && (payload + rest)[|payload|..] == rest;
  }

  lemma LengthWraps(n: nat)
    ensures Length(n) == Length(n % 0x1_0000_0000)
  {
    var k := n % 0x1_0000_0000;
    assert k % 0x1_0000_0000 == k;
  }

  /** A longer one is refused, or, when its length does not fit the four bytes, leaves part of itself unread. */
  lemma ReceiveOversized(decode: Decoder, payload: seq<byte>, rest: seq<byte>, end: StreamEnd)
    requires |payload| > MAX_FRAME_LEN
    ensures var got := Receive(decode, Frame(payload) + rest, end);
      if |payload| < 0x1_0000_0000 then got == Received(Err(FrameTooLarge(|payload|)), payload + rest)
      else got.outcome.Err? || |got.rest| > |rest|
  {
    var len := |payload| % 0x1_0000_0000;
    AppendAssociates(Length(|payload|), payload, rest);
    LengthWraps(|payload|);
    ReceiveParts(decode, len, payload + rest, end);
  }

  /** A stream that ends inside a frame yields nothing but its end. */
  lemma ReceiveCutFrame(decode: Decoder, payload: seq<byte>, s: seq<byte>, end: StreamEnd)
    requires |payload| <= MAX_FRAME_LEN && |s| < |Frame(payload)| && s == Frame(payload)[..|s|]
    ensures Receive(decode, s, end) == Received(Err(Ended(end)), [])
  {
    if |s| >= 4 {
      assert s == Length(|payload|) + s[4..];
      ReceiveParts(decode, |payload|, s[4..], end);
    }
  }

  // --- Whole streams ----------------------------------------------------------------------------

  function Stream(payloads: seq<seq<byte>>): seq<byte>
    decreases |payloads|
  {
    if payloads == [] then [] else Frame(payloads[0]) + Stream(payloads[1..])
  }

  lemma {:induction false} StreamOneMore(payloads: seq<seq<byte>>, payload: seq<byte>)
    ensures Stream(payloads + [payload]) == Stream(payloads) + Frame(payload)
    decreases |payloads|
  {
    if payloads == [] {
      assert [] + [payload] == [payload];
      assert Stream([payload]) == Frame(payload) + [] == [] + Frame(payload);
    } else {
      assert (payloads + [payload])[1..] == payloads[1..] + [payload];
      StreamOneMore(payloads[1..], payload);
      AppendAssociates(Frame(payloads[0]), Stream(payloads[1..]), Frame(payload));
    }
  }

  function Payloads(encode: Encoder, ms: seq<Message>): (payloads: seq<seq<byte>>)
    ensures |payloads| == |ms| && forall i :: 0 <= i < |ms| ==> payloads[i] == encode(ms[i])
  {
    seq(|ms|, i requires 0 <= i < |ms| => encode(ms[i]))
  }

  /** These bytes are `base` and the frames of `ms` behind it. */
  predicate Extends(encode: Encoder, bytes: seq<byte>, base: seq<byte>, ms: seq<Message>) {
    bytes == base + Stream(Payloads(encode, ms))
  }

  lemma ExtendsOneMore(encode: Encoder, bytes: seq<byte>, base: seq<byte>, ms: seq<Message>, m: Message)
    requires Extends(encode, bytes, base, ms)
    ensures Extends(encode, bytes + Frame(encode(m)), base, ms + [m])
  {
    assert Payloads(encode, ms + [m]) == Payloads(encode, ms) + [encode(m)];
    StreamOneMore(Payloads(encode, ms), encode(m));
    AppendAssociates(base, Stream(Payloads(encode, ms)), Frame(encode(m)));
  }

  lemma StreamFirst(encode: Encoder, m: Message, more: seq<Message>)
    ensures Stream(Payloads(encode, [m] + more)) == Frame(encode(m)) + Stream(Payloads(encode, more))
  {
    var payloads := Payloads(encode, [m] + more);
    assert payloads[0] == encode(m) && payloads[1..] == Payloads(encode, more);
  }

  /** What is written of some bytes when only so many can be. */
  function Truncated(bytes: seq<byte>, capacity: nat): seq<byte> {
    if |bytes| <= capacity then bytes else bytes[..capacity]
  }

  /** The frames of the first payloads are a beginning of the frames of all. */
  lemma {:induction false} StreamPrefix(payloads: seq<seq<byte>>, all: seq<seq<byte>>)
    requires payloads <= all
    ensures Stream(payloads) <= Stream(all)
    decreases |payloads|
  {
    if payloads != [] {
      StreamPrefix(payloads[1..], all[1..]);
    }
  }

  /** Payloads that fit a frame and are read as the messages `ms`. */
  predicate Carry(decode: Decoder, payloads: seq<seq<byte>>, ms: seq<Message>) {
    && |payloads| == |ms|
    && forall i :: 0 <= i < |ms| ==> |payloads[i]| <= MAX_FRAME_LEN && decode(payloads[i]) == Ok(ms[i])
  }

  function After(front: seq<Message>, session: Session): Session {
    Session(front + session.messages, session.end)
  }

  lemma AfterNone(session: Session)
    ensures After([], session) == session
  {
    assert [] + session.messages == session.messages;
  }

  lemma AfterFirst(ms: seq<Message>, session: Session)
    requires ms != []
    ensures After([ms[0]], After(ms[1..], session)) == After(ms, session)
  {
    assert [ms[0]] + (ms[1..] + session.messages) == ms + session.messages;
  }

  /** All carried messages are received in order, and then whatever the bytes behind them hold. */
  lemma {:induction false} ReceiveStream(decode: Decoder, payloads: seq<seq<byte>>, ms: seq<Message>, rest: seq<byte>,
                                        end: StreamEnd)
    requires Carry(decode, payloads, ms)
    ensures ReceiveAll(decode, Stream(payloads) + rest, end) == After(ms, ReceiveAll(decode, rest, end))
    decreases |ms|
  {
    if ms == [] {
      assert Stream(payloads) + rest == rest;
      AfterNone(ReceiveAll(decode, rest, end));
    } else {
      AppendAssociates(Frame(payloads[0]), Stream(payloads[1..]), rest);
      ReceiveFrame(decode, payloads[0], Stream(payloads[1..]) + rest, end);
      ReceiveStream(decode, payloads[1..], ms[1..], rest, end);
      AfterFirst(ms, ReceiveAll(decode, rest, end));
    }
  }

  /** How many of the frames end within the first `k` bytes. */
  function Complete(payloads: seq<seq<byte>>, k: nat): (n: nat)
    ensures n <= |payloads|
    decreases |payloads|
  {
    if payloads == [] || |Frame(payloads[0])| > k then 0 else 1 + Complete(payloads[1..], k - |Frame(payloads[0])|)
  }

  lemma {:induction false} CompleteMeans(payloads: seq<seq<byte>>, k: nat, n: nat)
    requires n <= |payloads|
    ensures n <= Complete(payloads, k) <==> |Stream(payloads[..n])| <= k
    decreases n
  {
    if n > 0 {
      assert payloads[..n][1..] == payloads[1..][..n - 1];
      if |Frame(payloads[0])| <= k {
        CompleteMeans(payloads[1..], k - |Frame(payloads[0])|, n - 1);
      }
    }
  }

  lemma AfterCut(ms: seq<Message>, n: nat, end: NetError)
    requires n < |ms|
    ensures After([ms[0]], Session(ms[1..][..n], end)) == Session(ms[..1 + n], end)
  {
  }

  lemma CarryBehindFirst(decode: Decoder, payloads: seq<seq<byte>>, ms: seq<Message>)
    requires Carry(decode, payloads, ms) && ms != []
    ensures payloads != [] && |payloads[0]| <= MAX_FRAME_LEN && decode(payloads[0]) == Ok(ms[0])
    ensures Carry(decode, payloads[1..], ms[1..])
  {
  }

  lemma CutBehindFirst(payloads: seq<seq<byte>>, k: nat)
    requires payloads != [] && |Frame(payloads[0])| <= k <= |Stream(payloads)|
    ensures var left := k - |Frame(payloads[0])|;
      && left <= |Stream(payloads[1..])|
      && Stream(payloads)[..k] == Frame(payloads[0]) + Stream(payloads[1..])[..left]
  {
  }

  lemma ReceiveBehindFirst(decode: Decoder, payloads: seq<seq<byte>>, m: Message, k: nat, end: StreamEnd)
    requires payloads != [] && |payloads[0]| <= MAX_FRAME_LEN && decode(payloads[0]) == Ok(m)
    requires |Frame(payloads[0])| <= k <= |Stream(payloads)|
    ensures var left := k - |Frame(payloads[0])|;
      && left <= |Stream(payloads[1..])|
      && ReceiveAll(decode, Stream(payloads)[..k], end)
         == After([m], ReceiveAll(decode, Stream(payloads[1..])[..left], end))
  {
    CutBehindFirst(payloads, k);
    ReceiveFrame(decode, payloads[0], Stream(payloads[1..])[..k - |Frame(payloads[0])|], end);
  }

  lemma ReceiveCutFirst(decode: Decoder, payloads: seq<seq<byte>>, k: nat, end: StreamEnd)
    requires payloads != [] && |payloads[0]| <= MAX_FRAME_LEN && k < |Frame(payloads[0])| && k <= |Stream(payloads)|
    ensures ReceiveAll(decode, Stream(payloads)[..k], end) == Session([], Ended(end))
  {
    assert Stream(payloads)[..k] == Frame(payloads[0])[..k];
    ReceiveCutFrame(decode, payloads[0], Stream(payloads)[..k], end);
  }

  /** Cut the stream anywhere: just the messages whose frames are complete are received, and then its end. */
  lemma {:induction false} ReceiveCutStream(decode: Decoder, payloads: seq<seq<byte>>, ms: seq<Message>, k: nat,
                                           end: StreamEnd)
    requires Carry(decode, payloads, ms) && k <= |Stream(payloads)|
    ensures ReceiveAll(decode, Stream(payloads)[..k], end) == Session(ms[..Complete(payloads, k)], Ended(end))
    decreases |ms|
  {
    if ms != [] {
      CarryBehindFirst(decode, payloads, ms);
      if |Frame(payloads[0])| > k {
        ReceiveCutFirst(decode, payloads, k, end);
      } else {
        var left := k - |Frame(payloads[0])|;
        ReceiveBehindFirst(decode, payloads, ms[0], k, end);
        ReceiveCutStream(decode, payloads[1..], ms[1..], left, end);
        AfterCut(ms, Complete(payloads[1..], left), Ended(end));
      }
    }
  }
}
