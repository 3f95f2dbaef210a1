/** What encoding and decoding promise each other, for every message and every payload. */
module CodecTheorems {
  import opened Wrappers
  import opened MachineInts
  import opened Messages
  import opened WireFormat
  import opened Codec
  import Utf8

  // --- Lists of fields --------------------------------------------------------------------------

  function PrintAll(ks: Kinds, vs: Values): seq<byte>
    requires HoldAll(ks, vs)
  {
    PrintOnto([], ks, vs)
  }

  lemma RegroupFields(buf: seq<byte>, here: seq<byte>, more: seq<byte>)
    ensures buf + here + more == buf + ([] + here + more)
  {
  }

  lemma {:induction false} PrintOntoAppends(buf: seq<byte>, ks: Kinds, vs: Values)
    requires HoldAll(ks, vs)
    ensures PrintOnto(buf, ks, vs) == buf + PrintAll(ks, vs)
    decreases ks
  {
    match ks
    case Done => assert buf + [] == buf;
    case Then(kind, more) =>
      var here := Print(kind, vs.head);
      PrintOntoAppends(buf + here, more, vs.tail);
      PrintOntoAppends([] + here, more, vs.tail);
      RegroupFields(buf, here, PrintAll(more, vs.tail));
  }

  lemma PrintFirst(kind: Kind, more: Kinds, vs: Values)
    requires HoldAll(Then(kind, more), vs)
    ensures PrintAll(Then(kind, more), vs) == Print(kind, vs.head) + PrintAll(more, vs.tail)
  {
    PrintOntoAppends([] + Print(kind, vs.head), more, vs.tail);
    assert [] + Print(kind, vs.head) == Print(kind, vs.head);
  }

  /** The fields can be read off the front of `bs`: their encoding stands there, flags apart. */
  predicate StandsAt(ks: Kinds, vs: Values, bs: seq<byte>)
    requires HoldAll(ks, vs)
    decreases ks
  {
    match ks
    case Done => true
    case Then(kind, more) =>
      var k := |Print(kind, vs.head)|;
      k <= |bs| && Reads(kind, vs.head, bs, bs[k..]) && StandsAt(more, vs.tail, bs[k..])
  }

  lemma FrontAndRest(bs: seq<byte>, k: nat)
    requires k <= |bs|
    ensures bs == bs[..k] + bs[k..]
  {
  }

  lemma ParseReadableFlag(b: bool, bs: seq<byte>)
    requires |bs| >= 1 && b == (bs[0] != 0)
    ensures Parse(Flag, bs) == Ok((Bool(b), bs[1..]))
  {
    BytesRoundTrip(bs[..1]);
    OneByte(bs[..1]);
  }

  lemma ParseReadable(kind: Kind, v: Value, bs: seq<byte>)
    requires Holds(kind, v) && Fits(kind, v) && |Print(kind, v)| <= |bs| && Reads(kind, v, bs, bs[|Print(kind, v)|..])
    ensures Parse(kind, bs) == Ok((v, bs[|Print(kind, v)|..]))
  {
    if kind.Flag? {
      ParseReadableFlag(v.b, bs);
    } else {
      var k := |Print(kind, v)|;
      ParsePrinted(kind, v, bs[k..]);
      FrontAndRest(bs, k);
    }
  }

  /** Reading fields succeeds exactly on the bytes where fields within their caps stand. */
  lemma {:induction false} ParseAllExactly(ks: Kinds, vs: Values, bs: seq<byte>)
    requires HoldAll(ks, vs)
    ensures (ParseAll(ks, bs).Ok? && ParseAll(ks, bs).value.0 == vs) <==> (FitAll(ks, vs) && StandsAt(ks, vs, bs))
    decreases ks
  {
    match ks
    case Done =>
    case Then(kind, more) =>
      var k := |Print(kind, vs.head)|;
      if Parse(kind, bs).Ok? && Parse(kind, bs).value.0 == vs.head {
        PrintParsed(kind, bs);
        ParseAllExactly(more, vs.tail, bs[k..]);
      } else if FitAll(ks, vs) && StandsAt(ks, vs, bs) {
        ParseReadable(kind, vs.head, bs);
      }
  }

  /** Bytes at which fields stand with nothing left over are their encoding, if none is a flag. */
  lemma {:induction false} StandsAlone(ks: Kinds, vs: Values, bs: seq<byte>)
    requires HoldAll(ks, vs) && NoFlags(ks) && StandsAt(ks, vs, bs) && |bs| == |PrintAll(ks, vs)|
    ensures bs == PrintAll(ks, vs)
    decreases ks
  {
    match ks
    case Done =>
    case Then(kind, more) =>
      PrintFirst(kind, more, vs);
      var k := |Print(kind, vs.head)|;
      StandsAlone(more, vs.tail, bs[k..]);
      FrontAndRest(bs, k);
  }

  predicate NoFlags(ks: Kinds) {
    match ks
    case Done => true
    case Then(kind, more) => !kind.Flag? && NoFlags(more)
  }

  lemma {:induction false} PrintedStands(ks: Kinds, vs: Values)
    requires HoldAll(ks, vs)
    ensures StandsAt(ks, vs, PrintAll(ks, vs))
    decreases ks
  {
    match ks
    case Done =>
    case Then(kind, more) =>
      PrintFirst(kind, more, vs);
      PrintedStands(more, vs.tail);
      assert PrintAll(ks, vs)[|Print(kind, vs.head)|..] == PrintAll(more, vs.tail);
  }

  lemma ParseAllAfterFirst(kind: Kind, more: Kinds, v: Value, rest: seq<byte>)
    requires Holds(kind, v) && Fits(kind, v)
    ensures ParseAll(Then(kind, more), Print(kind, v) + rest).Ok? <==> ParseAll(more, rest).Ok?
  {
    ParsePrinted(kind, v, rest);
  }

  /** Where a strict prefix of `a + b` ends. */
  lemma PrefixOfSum(a: seq<byte>, b: seq<byte>, p: seq<byte>)
    requires |p| < |a + b| && p == (a + b)[..|p|]
    ensures |p| < |a| ==> p == a[..|p|]
    ensures |p| >= |a| ==> var rest := p[|a|..]; p == a + rest && |rest| < |b| && rest == b[..|rest|]
  {
  }

  lemma {:induction false} NoFieldsFromPrefix(ks: Kinds, vs: Values, p: seq<byte>)
    requires HoldAll(ks, vs) && FitAll(ks, vs)
    requires |p| < |PrintAll(ks, vs)| && p == PrintAll(ks, vs)[..|p|]
    ensures ParseAll(ks, p).Err?
    decreases ks
  {
    match ks
    case Done =>
    case Then(kind, more) =>
      var here := Print(kind, vs.head);
      PrintFirst(kind, more, vs);
      PrefixOfSum(here, PrintAll(more, vs.tail), p);
      if |p| < |here| {
        NoFieldFromPrefix(kind, vs.head, p);
      } else {
        NoFieldsFromPrefix(more, vs.tail, p[|here|..]);
        ParseAllAfterFirst(kind, more, vs.head, p[|here|..]);
      }
  }

  // --- Messages ---------------------------------------------------------------------------------

  /** Every length-prefixed field is within the receiver's cap. */
  predicate WithinCaps(m: Message) {
    if m.Hello? then true
    else if m.HelloBack? then |Utf8.Encode(m.name)| <= MAX_FIELD_LEN
    else FitAll(KindsOf(TagOf(m)), ValuesOf(m))
  }

  function HelloBackValues(m: Message): (vs: Values)
    requires m.HelloBack?
    ensures HoldAll(HELLO_BACK_KINDS, vs)
  {
    Cons(Num(m.major), Cons(Num(m.minor), Cons(Str(m.name), Nil)))
  }

  /**
   `p` is a payload that says `m`. A greeting says so with nothing after it; any other message stands at the
   front, any non-zero byte standing for a set flag, and whatever follows it is ignored.
   */
  predicate Says(p: seq<byte>, m: Message) {
    if m.Hello? then p == Encode(m)
    else if m.HelloBack? then Greets(p) && StandsAt(HELLO_BACK_KINDS, HelloBackValues(m), p[7..])
    else |p| >= 4 && p[..4] == Raw(OpcodeOf(TagOf(m))) && StandsAt(KindsOf(TagOf(m)), ValuesOf(m), p[4..])
  }

  lemma OpcodeFound(tag: Tag)
    ensures FindTag(OpcodeOf(tag)).Some?
  {
  }

  lemma OpcodeIdentifies(a: Tag, b: Tag)
    requires OpcodeOf(a) == OpcodeOf(b)
    ensures a == b
  {
  }

  /** No two kinds of message share an opcode. */
  lemma OpcodesDiffer(tag: Tag)
    ensures FindTag(OpcodeOf(tag)) == Some(tag)
  {
    OpcodeFound(tag);
    OpcodeIdentifies(FindTag(OpcodeOf(tag)).value, tag);
  }

  lemma OneMoreByte(bs: seq<byte>, b: byte)
    ensures FromBigEndian(bs + [b]) == FromBigEndian(bs) * 256 + b as int
  {
    AccumulateLast(0, bs, b);
  }

  lemma MagicOpcode()
    ensures FromBigEndian(HELLO_MAGIC[..4]) == 0x53656C66
  {
    OneMoreByte([], 0x53);
    OneMoreByte([0x53], 0x65);
    OneMoreByte([0x53, 0x65], 0x6C);
    OneMoreByte([0x53, 0x65, 0x6C], 0x66);
    assert HELLO_MAGIC[..4] == [0x53, 0x65, 0x6C] + [0x66];
    assert [] + [0x53 as byte] == [0x53] && [0x53 as byte] + [0x65] == [0x53, 0x65] && [0x53 as byte, 0x65] + [0x6C] == [0x53, 0x65, 0x6C];
  }

  /** Whether four bytes are an opcode, seen as bytes or as a number. */
  lemma OpcodeMatches(code: seq<byte>, op: u32)
    requires |code| == 4
    ensures FromBigEndian(code) == op <==> code == Raw(op)
  {
    NumberRoundTrip(op, 4);
    BytesRoundTrip(code);
  }

  lemma MagicNotFound()
    ensures FindTag(FromBigEndian(HELLO_MAGIC[..4])).None?
  {
    MagicOpcode();
    assert FindTag(0x53656C66).None?;
  }

  /** No opcode begins the greeting's magic, so a greeting says nothing but a hello. */
  lemma GreetingHasNoOpcode(p: seq<byte>, tag: Tag)
    requires Greets(p)
    ensures p[..4] != Raw(OpcodeOf(tag))
  {
    assert p[..4] == p[..7][..4];
    MagicNotFound();
    OpcodeMatches(p[..4], OpcodeOf(tag));
    OpcodesDiffer(tag);
  }

  lemma DecodeKnown(p: seq<byte>, tag: Tag)
    requires |p| >= 4 && !Greets(p) && p[..4] == Raw(OpcodeOf(tag))
    ensures Decode(p) == DecodeFields(tag, p[4..])
  {
    OpcodeMatches(p[..4], OpcodeOf(tag));
    OpcodesDiffer(tag);
  }

  lemma DecodeFound(p: seq<byte>, tag: Tag)
    requires |p| >= 4 && !Greets(p) && FindTag(FromBigEndian(p[..4])) == Some(tag)
    ensures p[..4] == Raw(OpcodeOf(tag))
  {
    OpcodeMatches(p[..4], OpcodeOf(tag));
  }

  lemma FieldsExactly(bs: seq<byte>, m: Message)
    requires !m.Hello? && !m.HelloBack?
    ensures DecodeFields(TagOf(m), bs) == Ok(m) <==> WithinCaps(m) && StandsAt(KindsOf(TagOf(m)), ValuesOf(m), bs)
  {
    ParseAllExactly(KindsOf(TagOf(m)), ValuesOf(m), bs);
    var r := ParseAll(KindsOf(TagOf(m)), bs);
    if r.Ok? {
      var built := Build(TagOf(m), r.value.0);
      assert built == m ==> r.value.0 == ValuesOf(m);
      assert r.value.0 == ValuesOf(m) ==> built == m by { BuildUndoes(m); }
    }
  }

  lemma InputUndoes(m: Message)
    requires !m.Hello? && !m.HelloBack? && TagOf(m).IsInput()
    ensures BuildInput(TagOf(m), InputValues(m)) == m
  {
  }

  lemma BulkUndoes(m: Message)
    requires !m.Hello? && !m.HelloBack? && TagOf(m).IsBulk()
    ensures BuildBulk(TagOf(m), BulkValues(m)) == m
  {
  }

  lemma ControlUndoes(m: Message)
    requires !m.Hello? && !m.HelloBack? && !TagOf(m).IsInput() && !TagOf(m).IsBulk()
    ensures BuildControl(TagOf(m), ControlValues(m)) == m
  {
  }

  lemma BuildUndoes(m: Message)
    requires !m.Hello? && !m.HelloBack?
    ensures Build(TagOf(m), ValuesOf(m)) == m
  {
    if TagOf(m).IsInput() {
      InputUndoes(m);
    } else if TagOf(m).IsBulk() {
      BulkUndoes(m);
    } else {
      ControlUndoes(m);
    }
  }

  lemma DecodeFieldsExactly(p: seq<byte>, m: Message)
    requires !m.Hello? && !m.HelloBack? && |p| >= 4 && !Greets(p)
    ensures Decode(p) == Ok(m) <==> WithinCaps(m) && Says(p, m)
  {
    if p[..4] == Raw(OpcodeOf(TagOf(m))) {
      FieldsExactly(p[4..], m);
      DecodeKnown(p, TagOf(m));
    } else {
      DecodeOther(p, m);
    }
  }

  lemma FieldsTag(tag: Tag, bs: seq<byte>, m: Message)
    requires !m.Hello? && !m.HelloBack? && DecodeFields(tag, bs) == Ok(m)
    ensures TagOf(m) == tag
  {
  }

  lemma DecodeOther(p: seq<byte>, m: Message)
    requires !m.Hello? && !m.HelloBack? && |p| >= 4 && !Greets(p) && p[..4] != Raw(OpcodeOf(TagOf(m)))
    ensures Decode(p) != Ok(m)
  {
    var found := FindTag(FromBigEndian(p[..4]));
    if found.Some? && DecodeFields(found.value, p[4..]) == Ok(m) {
      FieldsTag(found.value, p[4..], m);
      DecodeFound(p, found.value);
    }
  }

  lemma ParseHello(bs: seq<byte>)
    ensures DecodeHello(bs).Ok? && DecodeHello(bs).value.Hello? ==>
      var m := DecodeHello(bs).value;
      ParseAll(HELLO_KINDS, bs) == Ok((Cons(Num(m.major), Cons(Num(m.minor), Nil)), []))
  {
    ParseThen(I16, Then(I16, Done), bs);
    if Parse(I16, bs).Ok? {
      ParseThen(I16, Done, Parse(I16, bs).value.1);
    }
  }

  lemma DecodeHelloExactly(bs: seq<byte>, m: Message)
    requires m.Hello?
    ensures DecodeHello(bs) == Ok(m) <==> bs == PrintAll(HELLO_KINDS, Cons(Num(m.major), Cons(Num(m.minor), Nil)))
  {
    var vs := Cons(Num(m.major), Cons(Num(m.minor), Nil));
    ParseHello(bs);
    ParseAllExactly(HELLO_KINDS, vs, bs);
    PrintedStands(HELLO_KINDS, vs);
    if DecodeHello(bs) == Ok(m) {
      StandsAlone(HELLO_KINDS, vs, bs);
    }
  }

  lemma ParseTextFields(bs: seq<byte>)
    ensures ParseText(bs).Err? ==> ParseAll(Then(Text, Done), bs).Err?
    ensures ParseText(bs).Ok? ==>
      ParseAll(Then(Text, Done), bs) == Ok((Cons(Str(ParseText(bs).value.0), Nil), ParseText(bs).value.1))
  {
    ParseThen(Text, Done, bs);
  }

  /** A greeting with anything behind the version is read as its three fields are. */
  lemma ParseHelloBack(bs: seq<byte>)
    ensures var got, fields := DecodeHello(bs), ParseAll(HELLO_BACK_KINDS, bs);
      && (got.Ok? && got.value.HelloBack? <==> fields.Ok?)
      && (fields.Ok? ==> fields.value.0 == HelloBackValues(got.value))
  {
    ParseThen(I16, Then(I16, Then(Text, Done)), bs);
    if Parse(I16, bs).Ok? {
      var more := Parse(I16, bs).value.1;
      ParseThen(I16, Then(Text, Done), more);
      if Parse(I16, more).Ok? {
        ParseTextFields(Parse(I16, more).value.1);
      }
    }
  }

  lemma DecodeHelloBackExactly(bs: seq<byte>, m: Message)
    requires m.HelloBack?
    ensures DecodeHello(bs) == Ok(m) <==> WithinCaps(m) && StandsAt(HELLO_BACK_KINDS, HelloBackValues(m), bs)
  {
    ParseHelloBack(bs);
    ParseAllExactly(HELLO_BACK_KINDS, HelloBackValues(m), bs);
  }

  // --- The theorems -----------------------------------------------------------------------------

  lemma EncodeParts(m: Message)
    ensures m.Hello? ==> Encode(m) == HELLO_MAGIC + PrintAll(HELLO_KINDS, Cons(Num(m.major), Cons(Num(m.minor), Nil)))
    ensures m.HelloBack? ==> Encode(m) == HELLO_MAGIC + PrintAll(HELLO_BACK_KINDS, HelloBackValues(m))
    ensures !m.Hello? && !m.HelloBack? ==> Encode(m) == Raw(OpcodeOf(TagOf(m))) + PrintAll(KindsOf(TagOf(m)), ValuesOf(m))
  {
    if m.Hello? {
      PrintOntoAppends(HELLO_MAGIC, HELLO_KINDS, Cons(Num(m.major), Cons(Num(m.minor), Nil)));
    } else if m.HelloBack? {
      PrintOntoAppends(HELLO_MAGIC, HELLO_BACK_KINDS, HelloBackValues(m));
    } else {
      PrintOntoAppends(Raw(OpcodeOf(TagOf(m))), KindsOf(TagOf(m)), ValuesOf(m));
    }
  }

  lemma SaysHello(p: seq<byte>, m: Message)
    requires m.Hello?
    ensures Says(p, m) <==> Greets(p) && p[7..] == PrintAll(HELLO_KINDS, Cons(Num(m.major), Cons(Num(m.minor), Nil)))
  {
    EncodeParts(m);
    if Greets(p) {
      FrontAndRest(p, 7);
    }
  }

  lemma DecodeGreetingExactly(p: seq<byte>, m: Message)
    requires Greets(p)
    ensures Decode(p) == Ok(m) <==> WithinCaps(m) && Says(p, m)
  {
    if m.Hello? {
      DecodeHelloExactly(p[7..], m);
      SaysHello(p, m);
    } else if m.HelloBack? {
      DecodeHelloBackExactly(p[7..], m);
    } else {
      GreetingSaysHello(p, m);
    }
  }

  lemma GreetingSaysHello(p: seq<byte>, m: Message)
    requires Greets(p) && !m.Hello? && !m.HelloBack?
    ensures Decode(p) != Ok(m) && !Says(p, m)
  {
    GreetingHasNoOpcode(p, TagOf(m));
  }

  /** The decoder says `m` of exactly the payloads that say `m` within the caps, and is total otherwise. */
  lemma DecodeExactly(p: seq<byte>, m: Message)
    ensures Decode(p) == Ok(m) <==> WithinCaps(m) && Says(p, m)
  {
    if Greets(p) {
      DecodeGreetingExactly(p, m);
    } else if m.Hello? {
      SaysHello(p, m);
    } else if !m.HelloBack? && |p| >= 4 {
      DecodeFieldsExactly(p, m);
    }
  }

  lemma EncodingSays(m: Message)
    ensures Says(Encode(m), m)
  {
    EncodeParts(m);
    if m.HelloBack? {
      PrintedStands(HELLO_BACK_KINDS, HelloBackValues(m));
    } else if !m.Hello? {
      PrintedStands(KindsOf(TagOf(m)), ValuesOf(m));
    }
  }

  /** A message survives encoding and decoding exactly if its length-prefixed fields are within the caps. */
  lemma RoundTrip(m: Message)
    ensures Decode(Encode(m)) == Ok(m) <==> WithinCaps(m)
  {
    EncodingSays(m);
    DecodeExactly(Encode(m), m);
  }

  /** What decodes, encodes to something that decodes to the same. */
  lemma DecodedIsStable(p: seq<byte>)
    requires Decode(p).Ok?
    ensures Decode(Encode(Decode(p).value)) == Decode(p)
  {
    DecodeExactly(p, Decode(p).value);
    RoundTrip(Decode(p).value);
  }

  lemma PastMagic(p: seq<byte>, fields: seq<byte>)
    requires 7 <= |p| < 7 + |fields| && p == (HELLO_MAGIC + fields)[..|p|]
    ensures Greets(p) && |p[7..]| == |p| - 7 < |fields| && p[7..] == fields[..|p[7..]|]
  {
    assert (HELLO_MAGIC + fields)[..7] == HELLO_MAGIC;
  }

  lemma GreetingPrefix(m: Message, p: seq<byte>)
    requires (m.Hello? || m.HelloBack?) && WithinCaps(m)
    requires |p| < |Encode(m)| && p == Encode(m)[..|p|]
    ensures m.HelloBack? && |p| == 11 ==> Decode(p) == Ok(Hello(m.major, m.minor))
    ensures !(m.HelloBack? && |p| == 11) ==> Decode(p).Err?
  {
    EncodeParts(m);
    if |p| < 7 {
      ShortOfMagic(p);
    } else {
      if m.Hello? {
        PastMagic(p, PrintAll(HELLO_KINDS, Cons(Num(m.major), Cons(Num(m.minor), Nil))));
        HelloPrefix(m, p[7..]);
      } else {
        PastMagic(p, PrintAll(HELLO_BACK_KINDS, HelloBackValues(m)));
        HelloBackPrefix(m, p[7..]);
      }
    }
  }

  lemma HelloPrefix(m: Message, fields: seq<byte>)
    requires m.Hello? && |fields| < |PrintAll(HELLO_KINDS, Cons(Num(m.major), Cons(Num(m.minor), Nil)))|
    requires fields == PrintAll(HELLO_KINDS, Cons(Num(m.major), Cons(Num(m.minor), Nil)))[..|fields|]
    ensures DecodeHello(fields).Err?
  {
    NoFieldsFromPrefix(HELLO_KINDS, Cons(Num(m.major), Cons(Num(m.minor), Nil)), fields);
  }

  lemma ShortOfMagic(p: seq<byte>)
    requires |p| < 7 && p == HELLO_MAGIC[..|p|]
    ensures Decode(p).Err?
  {
    if |p| >= 4 {
      assert p[..4] == HELLO_MAGIC[..4];
      MagicNotFound();
    }
  }

  lemma HelloBackPrefix(m: Message, fields: seq<byte>)
    requires m.HelloBack? && WithinCaps(m)
    requires |fields| < |PrintAll(HELLO_BACK_KINDS, HelloBackValues(m))|
    requires fields == PrintAll(HELLO_BACK_KINDS, HelloBackValues(m))[..|fields|]
    ensures |fields| == 4 ==> DecodeHello(fields) == Ok(Hello(m.major, m.minor))
    ensures |fields| != 4 ==> DecodeHello(fields).Err?
  {
    var vs := HelloBackValues(m);
    NoFieldsFromPrefix(HELLO_BACK_KINDS, vs, fields);
    ParseHelloBack(fields);
    ParseHello(fields);
    if |fields| >= 4 {
      var major, minor := PrintNumber(I16, m.major), PrintNumber(I16, m.minor);
      PrintFirst(I16, Then(I16, Then(Text, Done)), vs);
      PrintFirst(I16, Then(Text, Done), vs.tail);
      assert fields[..2] == major && fields[2..][..2] == minor;
      FrontAndRest(fields, 2);
      FrontAndRest(fields[2..], 2);
      ParsePrintedNumber(I16, m.major, fields[2..]);
      ParsePrintedNumber(I16, m.minor, fields[2..][2..]);
    }
  }

  /** No strict prefix of an encoding decodes, but for a hello reply cut to eleven bytes, which reads as a hello. */
  lemma NoPrefixDecodes(m: Message, p: seq<byte>)
    requires WithinCaps(m) && |p| < |Encode(m)| && p == Encode(m)[..|p|]
    ensures m.HelloBack? && |p| == 11 ==> Decode(p) == Ok(Hello(m.major, m.minor))
    ensures !(m.HelloBack? && |p| == 11) ==> Decode(p).Err?
  {
    if m.Hello? || m.HelloBack? {
      GreetingPrefix(m, p);
    } else if |p| >= 4 {
      EncodeParts(m);
      var raw := Raw(OpcodeOf(TagOf(m)));
      PrefixOfSum(raw, PrintAll(KindsOf(TagOf(m)), ValuesOf(m)), p);
      if Greets(p) {
        GreetingHasNoOpcode(p, TagOf(m));
      } else {
        DecodeKnown(p, TagOf(m));
        NoFieldsFromPrefix(KindsOf(TagOf(m)), ValuesOf(m), p[4..]);
      }
    }
  }
}
