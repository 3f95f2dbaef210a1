/** The cursor that reads payloads, the buffer that builds them, and the codec driving both. */
module WireIO {
  import opened Wrappers
  import opened MachineInts
  import opened Messages
  import opened WireFormat
  import opened Codec
  import Utf8

  class Reader {
    const buf: seq<byte>
    var pos: nat
    /** The bytes not yet consumed. */
    ghost var rest: seq<byte>

    ghost predicate Valid()
      reads this
    {
      pos + |rest| == |buf| && forall i :: 0 <= i < |rest| ==> rest[i] == buf[pos + i]
    }

    constructor (buf: seq<byte>)
      ensures Valid() && rest == buf && this.buf == buf
    {
      this.buf := buf;
      pos := 0;
      rest := buf;
    }

    method IsEmpty() returns (r: bool)
      requires Valid()
      ensures r <==> rest == []
    {
      r := |buf| - pos == 0;
    }

    method TakeBytes(n: nat) returns (r: Result<seq<byte>, ProtoError>)
      requires Valid()
      modifies this
      ensures Valid()
      ensures match Take(n, old(rest))
              case Ok((bs, after)) => r == Ok(bs) && rest == after
              case Err(e) => r == Err(e) && rest == old(rest)
    {
      if |buf| - pos < n {
        return Err(UnexpectedEof(n, |buf| - pos));
      }
      var slice := buf[pos..pos + n];
      assert slice == rest[..n];
      pos := pos + n;
      rest := rest[n..];
      return Ok(slice);
    }

    method Number(kind: Kind) returns (r: Result<int, ProtoError>)
      requires Valid() && kind.IsNumber()
      modifies this
      ensures Valid()
      ensures r.Ok? ==> ParseNumber(kind, old(rest)) == Ok((r.value, rest))
      ensures r.Err? ==> ParseNumber(kind, old(rest)) == Err(r.error)
    {
      var raw :- TakeBytes(kind.Width());
      return Ok(NumberOf(kind, FromBigEndian(raw)));
    }

    method ReadFlag() returns (r: Result<bool, ProtoError>)
      requires Valid()
      modifies this
      ensures Valid()
      ensures r.Ok? ==> Parse(Flag, old(rest)) == Ok((Bool(r.value), rest))
      ensures r.Err? ==> Parse(Flag, old(rest)) == Err(r.error)
    {
      var n :- Number(U8);
      return Ok(n != 0);
    }

    method ReadBytes() returns (r: Result<seq<byte>, ProtoError>)
      requires Valid()
      modifies this
      ensures Valid()
      ensures r.Ok? ==> Parse(Bytes, old(rest)) == Ok((Blob(r.value), rest))
      ensures r.Err? ==> Parse(Bytes, old(rest)) == Err(r.error)
    {
      var len :- Number(U32);
      if len > MAX_FIELD_LEN {
        return Err(TooLong(len, MAX_FIELD_LEN));
      }
      r := TakeBytes(len);
    }

    method ReadText() returns (r: Result<string, ProtoError>)
      requires Valid()
      modifies this
      ensures Valid()
      ensures r.Ok? ==> Parse(Text, old(rest)) == Ok((Str(r.value), rest))
      ensures r.Err? ==> Parse(Text, old(rest)) == Err(r.error)
    {
      var bytes :- ReadBytes();
      match Utf8.Decode(bytes)
      case Some(s) => return Ok(s);
      case None => return Err(InvalidUtf8);
    }

    method ReadInts() returns (r: Result<seq<i32>, ProtoError>)
      requires Valid()
      modifies this
      ensures Valid()
      ensures r.Ok? ==> ParseInts(old(rest)) == Ok((r.value, rest))
      ensures r.Err? ==> ParseInts(old(rest)) == Err(r.error)
    {
      var count :- Number(U32);
      if count > MAX_FIELD_LEN / 4 {
        return Err(TooLong(count, MAX_FIELD_LEN / 4));
      }
      r := ReadManyInts(count);
    }

    method ReadManyInts(count: nat) returns (r: Result<seq<i32>, ProtoError>)
      requires Valid()
      modifies this
      ensures Valid()
      ensures r.Ok? ==> ParseManyInts(count, old(rest)) == Ok((r.value, rest))
      ensures r.Err? ==> ParseManyInts(count, old(rest)) == Err(r.error)
    {
      var out: seq<i32> := [];
      PrependNone(ParseManyInts(count, rest));
      for i := 0 to count
        invariant Valid()
        invariant ParseManyInts(count, old(rest)) == Prepend(out, ParseManyInts(count - i, rest))
      {
        PrependOne(out, count - i, rest);
        var n := Number(I32);
        match n {
          case Err(e) => return Err(e);
          case Ok(x) =>
            var y: i32 := x;
            out := out + [y];
        }
      }
      assert out + [] == out;
      return Ok(out);
    }

    /** Reads one field of any kind. */
    method Field(kind: Kind) returns (r: Result<Value, ProtoError>)
      requires Valid()
      modifies this
      ensures Valid()
      ensures r.Ok? ==> Parse(kind, old(rest)) == Ok((r.value, rest))
      ensures r.Err? ==> Parse(kind, old(rest)) == Err(r.error)
    {
      match kind
      case Flag =>
        var b :- ReadFlag();
        return Ok(Bool(b));
      case Bytes =>
        var data :- ReadBytes();
        return Ok(Blob(data));
      case Text =>
        var s :- ReadText();
        return Ok(Str(s));
      case Ints =>
        var v :- ReadInts();
        return Ok(Vec(v));
      case _ =>
        var n :- Number(kind);
        return Ok(Num(n));
    }

    /** Reads the fields of a message one after the other. */
    method Fields(ks: Kinds) returns (r: Result<Values, ProtoError>)
      requires Valid()
      modifies this
      ensures Valid()
      ensures r.Ok? ==> ParseAll(ks, old(rest)) == Ok((r.value, rest))
      ensures r.Err? ==> ParseAll(ks, old(rest)) == Err(r.error)
      decreases ks
    {
      match ks
      case Done => return Ok(Nil);
      case Then(kind, more) =>
        ParseThen(kind, more, rest);
        var v :- Field(kind);
        var vs :- Fields(more);
        return Ok(Cons(v, vs));
    }
  }

  function Prepend(front: seq<i32>, r: Parsed<seq<i32>>): Parsed<seq<i32>> {
    match r
    case Ok((v, rest)) => Ok((front + v, rest))
    case Err(e) => Err(e)
  }

  lemma PrependNone(r: Parsed<seq<i32>>)
    ensures Prepend([], r) == r
  {
    if r.Ok? {
      assert [] + r.value.0 == r.value.0;
    }
  }

  lemma PrependOne(front: seq<i32>, count: nat, bs: seq<byte>)
    requires count > 0
    ensures match ParseNumber(I32, bs)
            case Ok((x, rest)) =>
              var y: i32 := x;
              Prepend(front, ParseManyInts(count, bs)) == Prepend(front + [y], ParseManyInts(count - 1, rest))
            case Err(e) => Prepend(front, ParseManyInts(count, bs)) == Err(e)
  {
    match ParseNumber(I32, bs)
    case Ok((x, rest)) =>
      var y: i32 := x;
      var more := ParseManyInts(count - 1, rest);
      if more.Ok? {
        assert front + ([y] + more.value.0) == front + [y] + more.value.0;
      }
    case Err(e) =>
  }

  class Writer {
    var buf: seq<byte>

    constructor ()
      ensures buf == []
    {
      buf := [];
    }

    method RawBytes(bytes: seq<byte>)
      modifies this
      ensures buf == old(buf) + bytes
    {
      buf := buf + bytes;
    }

    method Number(kind: Kind, n: int)
      requires kind.IsNumber() && InRange(kind, n)
      modifies this
      ensures buf == old(buf) + Print(kind, Num(n))
    {
      buf := buf + PrintNumber(kind, n);
    }

    method WriteFlag(b: bool)
      modifies this
      ensures buf == old(buf) + Print(Flag, Bool(b))
    {
      buf := buf + [if b then 1 else 0];
    }

    method WriteBytes(data: seq<byte>)
      modifies this
      ensures buf == old(buf) + (Length(|data|) + data)
      ensures buf == old(buf) + Print(Bytes, Blob(data))
    {
      buf := buf + Length(|data|);
      buf := buf + data;
      AppendAssociates(old(buf), Length(|data|), data);
    }

    method WriteText(s: string)
      modifies this
      ensures buf == old(buf) + Print(Text, Str(s))
    {
      WriteBytes(Utf8.Encode(s));
    }

    method WriteInts(v: seq<i32>)
      modifies this
      ensures buf == old(buf) + Print(Ints, Vec(v))
    {
      buf := buf + Length(|v|);
      for i := 0 to |v|
        invariant buf == old(buf) + Length(|v|) + PrintInts(v[..i])
      {
        PrintOneMoreInt(v[..i], v[i]);
        assert v[..i] + [v[i]] == v[..i + 1];
        AppendAssociates(old(buf) + Length(|v|), PrintInts(v[..i]), PrintNumber(I32, v[i]));
        buf := buf + PrintNumber(I32, v[i]);
      }
      assert v[..|v|] == v;
      AppendAssociates(old(buf), Length(|v|), PrintInts(v));
    }

    /** Writes one field of any kind. */
    method Field(kind: Kind, v: Value)
      requires Holds(kind, v)
      modifies this
      ensures buf == old(buf) + Print(kind, v)
    {
      match kind
      case Flag => WriteFlag(v.b);
      case Bytes => WriteBytes(v.data);
      case Text => WriteText(v.s);
      case Ints => WriteInts(v.v);
      case _ => Number(kind, v.n);
    }

    /** Writes the fields of a message one after the other. */
    method Fields(ks: Kinds, vs: Values)
      requires HoldAll(ks, vs)
      modifies this
      ensures buf == PrintOnto(old(buf), ks, vs)
    {
      var kinds, values := ks, vs;
      while kinds.Then?
        invariant HoldAll(kinds, values) && PrintOnto(buf, kinds, values) == PrintOnto(old(buf), ks, vs)
        decreases kinds
      {
        Field(kinds.kind, values.head);
        kinds, values := kinds.more, values.tail;
      }
    }
  }

  lemma {:induction false} PrintOneMoreInt(v: seq<i32>, x: i32)
    ensures PrintInts(v + [x]) == PrintInts(v) + PrintNumber(I32, x)
    decreases |v|
  {
    if v == [] {
      assert v + [x] == [x] && [x][1..] == [];
    } else {
      assert (v + [x])[0] == v[0] && (v + [x])[1..] == v[1..] + [x];
      PrintOneMoreInt(v[1..], x);
      AppendAssociates(PrintNumber(I32, v[0]), PrintInts(v[1..]), PrintNumber(I32, x));
    }
  }

  // --- Messages ---------------------------------------------------------------------------------

  /** A payload: the opcode or the greeting's magic, then the fields. */
  method Assemble(head: seq<byte>, ks: Kinds, vs: Values) returns (payload: seq<byte>)
    requires HoldAll(ks, vs)
    ensures payload == PrintOnto(head, ks, vs)
  {
    var writer := new Writer();
    writer.RawBytes(head);
    assert writer.buf == head;
    writer.Fields(ks, vs);
    payload := writer.buf;
  }

  method EncodeMessage(m: Message) returns (payload: seq<byte>)
    ensures payload == Encode(m)
  {
    match m
    case Hello(major, minor) =>
      payload := Assemble(HELLO_MAGIC, HELLO_KINDS, Cons(Num(major), Cons(Num(minor), Nil)));
    case HelloBack(major, minor, name) =>
      payload := Assemble(HELLO_MAGIC, HELLO_BACK_KINDS, Cons(Num(major), Cons(Num(minor), Cons(Str(name), Nil))));
    case _ =>
      payload := Assemble(Raw(OpcodeOf(TagOf(m))), KindsOf(TagOf(m)), ValuesOf(m));
  }

  method DecodeMessage(payload: seq<byte>) returns (r: Result<Message, ProtoError>)
    ensures r == Decode(payload)
  {
    if |payload| >= 7 && payload[..7] == HELLO_MAGIC {
      var reader := new Reader(payload[7..]);
      r := ReadHello(reader);
      return;
    }
    if |payload| < 4 {
      return Err(UnexpectedEof(4, |payload|));
    }
    match FindTag(FromBigEndian(payload[..4]))
    case None =>
      return Err(UnknownCode(payload[..4]));
    case Some(tag) =>
      var reader := new Reader(payload[4..]);
      var vs :- reader.Fields(KindsOf(tag));
      return Ok(Build(tag, vs));
  }

  /** A greeting is a `Hello` if nothing follows the version. */
  method ReadHello(reader: Reader) returns (r: Result<Message, ProtoError>)
    requires reader.Valid()
    modifies reader
    ensures r == DecodeHello(old(reader.rest))
  {
    var major :- reader.Number(I16);
    var minor :- reader.Number(I16);
    var empty := reader.IsEmpty();
    if empty {
      return Ok(Hello(major, minor));
    }
    var name :- reader.ReadText();
    return Ok(HelloBack(major, minor, name));
  }
}
