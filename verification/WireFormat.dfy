/** The fields messages are made of, and how each is laid out in bytes, big-endian throughout. */
module WireFormat {
  import opened Wrappers
  import opened MachineInts
  import Utf8

  const MAX_FIELD_LEN := 4 * 1024 * 1024

  datatype ProtoError =
    | UnexpectedEof(needed: int, had: int)
    | UnknownCode(code: seq<byte>)
    | TooLong(declared: int, max: int)
    | InvalidUtf8

  // --- Big-endian numbers -----------------------------------------------------------------------

  function Pow256(width: nat): (p: int)
    ensures p >= 1
    ensures width == 1 ==> p == 0x100
    ensures width == 2 ==> p == 0x1_0000
    ensures width == 3 ==> p == 0x100_0000
    ensures width == 4 ==> p == 0x1_0000_0000
    ensures width == 5 ==> p == 0x100_0000_0000
    ensures width == 6 ==> p == 0x1_0000_0000_0000
    ensures width == 7 ==> p == 0x100_0000_0000_0000
    ensures width == 8 ==> p == 0x1_0000_0000_0000_0000
  {
    if width == 0 then 1 else 256 * Pow256(width - 1)
  }

  function BigEndian(n: int, width: nat): (bs: seq<byte>)
    ensures |bs| == width
    decreases width
  {
    if width == 0 then [] else BigEndian(n / 256, width - 1) + [(n % 256) as byte]
  }

  function FromBigEndian(bs: seq<byte>): int {
    Accumulate(0, bs)
  }

  /** The number so far, with these bytes behind it. */
  function Accumulate(n: int, bs: seq<byte>): int
    decreases |bs|
  {
    if bs == [] then n else Accumulate(n * 256 + bs[0] as int, bs[1..])
  }

  lemma {:induction false} AccumulateLast(n: int, bs: seq<byte>, last: byte)
    ensures Accumulate(n, bs + [last]) == Accumulate(n, bs) * 256 + last as int
    decreases |bs|
  {
    if bs == [] {
      assert bs + [last] == [last] && [last][1..] == [];
    } else {
      assert (bs + [last])[0] == bs[0] && (bs + [last])[1..] == bs[1..] + [last];
      AccumulateLast(n * 256 + bs[0] as int, bs[1..], last);
    }
  }

  lemma {:induction false} NumberRoundTrip(n: int, width: nat)
    requires 0 <= n < Pow256(width)
    ensures FromBigEndian(BigEndian(n, width)) == n
    decreases width
  {
    if width > 0 {
      NumberRoundTrip(n / 256, width - 1);
      AccumulateLast(0, BigEndian(n / 256, width - 1), (n % 256) as byte);
    }
  }

  lemma {:induction false} BytesRoundTrip(bs: seq<byte>)
    ensures 0 <= FromBigEndian(bs) < Pow256(|bs|)
    ensures BigEndian(FromBigEndian(bs), |bs|) == bs
    decreases |bs|
  {
    if bs != [] {
      var front, last := bs[..|bs| - 1], bs[|bs| - 1];
      BytesRoundTrip(front);
      assert bs == front + [last];
      AccumulateLast(0, front, last);
      assert FromBigEndian(bs) / 256 == FromBigEndian(front) && FromBigEndian(bs) % 256 == last as int;
    }
  }

  function Unsigned(n: int, width: nat): int {
    if n < 0 then n + Pow256(width) else n
  }

  function Signed(u: int, width: nat): int {
    if u >= Pow256(width) / 2 then u - Pow256(width) else u
  }

  lemma SignedRoundTrip(n: int, u: int, width: nat)
    requires width >= 1
    ensures var half := Pow256(width) / 2;
      && (-half <= n < half ==> 0 <= Unsigned(n, width) < Pow256(width) && Signed(Unsigned(n, width), width) == n)
      && (0 <= u < Pow256(width) ==> -half <= Signed(u, width) < half && Unsigned(Signed(u, width), width) == u)
  {
    assert Pow256(width) == 256 * Pow256(width - 1);
  }

  // --- Fields -----------------------------------------------------------------------------------

  datatype Kind = U8 | U16 | U32 | U64 | I8 | I16 | I32 | Flag | Bytes | Text | Ints {
    function Width(): nat {
      match this
      case U8 => 1 case I8 => 1 case Flag => 1
      case U16 => 2 case I16 => 2
      case U32 => 4 case I32 => 4 case Bytes => 4 case Text => 4 case Ints => 4
      case U64 => 8
    }

    predicate IsSigned() { I8? || I16? || I32? }

    predicate IsNumber() { !Flag? && !Bytes? && !Text? && !Ints? }
  }

  datatype Value = Num(n: int) | Bool(b: bool) | Blob(data: seq<byte>) | Str(s: string) | Vec(v: seq<i32>)

  predicate InRange(kind: Kind, n: int)
    requires kind.IsNumber()
  {
    match kind
    case U8 => 0 <= n < 0x100
    case U16 => 0 <= n < 0x1_0000
    case U32 => 0 <= n < 0x1_0000_0000
    case U64 => 0 <= n < 0x1_0000_0000_0000_0000
    case I8 => -0x80 <= n < 0x80
    case I16 => -0x8000 <= n < 0x8000
    case I32 => -0x8000_0000 <= n < 0x8000_0000
  }

  lemma RangeOfWidth(kind: Kind, n: int)
    requires kind.IsNumber()
    ensures var p := Pow256(kind.Width());
      InRange(kind, n) <==> if kind.IsSigned() then -(p / 2) <= n < p / 2 else 0 <= n < p
  {
  }

  /** `v` is a value a field of this kind can hold. */
  predicate Holds(kind: Kind, v: Value) {
    match kind
    case Flag => v.Bool?
    case Bytes => v.Blob?
    case Text => v.Str?
    case Ints => v.Vec?
    case _ => v.Num? && InRange(kind, v.n)
  }

  /** The receiver's caps on length-prefixed fields. */
  predicate Fits(kind: Kind, v: Value)
    requires Holds(kind, v)
  {
    match kind
    case Bytes => |v.data| <= MAX_FIELD_LEN
    case Text => |Utf8.Encode(v.s)| <= MAX_FIELD_LEN
    case Ints => |v.v| <= MAX_FIELD_LEN / 4
    case _ => true
  }

  function Length(n: nat): seq<byte> {
    BigEndian(n % 0x1_0000_0000, 4)
  }

  function PrintNumber(kind: Kind, n: int): seq<byte> {
    BigEndian(Unsigned(n, kind.Width()), kind.Width())
  }

  function PrintInts(v: seq<i32>): (bs: seq<byte>)
    ensures |bs| == 4 * |v|
  {
    if v == [] then [] else PrintNumber(I32, v[0]) + PrintInts(v[1..])
  }

  function Print(kind: Kind, v: Value): (bs: seq<byte>)
    requires Holds(kind, v)
    ensures |bs| >= kind.Width()
  {
    match kind
    case Flag => [if v.b then 1 else 0]
    case Bytes => Length(|v.data|) + v.data
    case Text => Length(|Utf8.Encode(v.s)|) + Utf8.Encode(v.s)
    case Ints => Length(|v.v|) + PrintInts(v.v)
    case _ => PrintNumber(kind, v.n)
  }

  type Parsed<T> = Result<(T, seq<byte>), ProtoError>

  /** The first `n` bytes, and the rest. */
  function Take(n: nat, bs: seq<byte>): Parsed<seq<byte>> {
    if |bs| < n then Err(UnexpectedEof(n, |bs|)) else Ok((bs[..n], bs[n..]))
  }

  /** The number an unsigned `u` of this kind's width stands for. */
  function NumberOf(kind: Kind, u: int): int {
    if kind.IsSigned() then Signed(u, kind.Width()) else u
  }

  lemma NumberInRange(kind: Kind, u: int)
    requires kind.IsNumber() && 0 <= u < Pow256(kind.Width())
    ensures InRange(kind, NumberOf(kind, u))
  {
    SignedRoundTrip(0, u, kind.Width());
    RangeOfWidth(kind, NumberOf(kind, u));
  }

  function ParseNumber(kind: Kind, bs: seq<byte>): (r: Parsed<int>)
    requires kind.IsNumber()
    ensures r.Ok? ==> InRange(kind, r.value.0)
  {
    if |bs| < kind.Width() then Err(UnexpectedEof(kind.Width(), |bs|))
    else
      var raw := bs[..kind.Width()];
      BytesRoundTrip(raw);
      NumberInRange(kind, FromBigEndian(raw));
      Ok((NumberOf(kind, FromBigEndian(raw)), bs[kind.Width()..]))
  }

  function ParseBytes(bs: seq<byte>): Parsed<seq<byte>> {
    var (len, rest) :- ParseNumber(U32, bs);
    if len > MAX_FIELD_LEN then Err(TooLong(len, MAX_FIELD_LEN)) else Take(len, rest)
  }

  function ParseText(bs: seq<byte>): Parsed<string> {
    var (raw, rest) :- ParseBytes(bs);
    match Utf8.Decode(raw)
    case Some(s) => Ok((s, rest))
    case None => Err(InvalidUtf8)
  }

  function ParseManyInts(count: nat, bs: seq<byte>): (r: Parsed<seq<i32>>)
    ensures r.Ok? ==> |r.value.0| == count
  {
    if count == 0 then Ok(([], bs))
    else
      var (x, rest) :- ParseNumber(I32, bs);
      var (xs, end) :- ParseManyInts(count - 1, rest);
      var head: i32 := x;
      Ok(([head] + xs, end))
  }

  function ParseInts(bs: seq<byte>): Parsed<seq<i32>> {
    var (count, rest) :- ParseNumber(U32, bs);
    if count > MAX_FIELD_LEN / 4 then Err(TooLong(count, MAX_FIELD_LEN / 4)) else ParseManyInts(count, rest)
  }

  function Parse(kind: Kind, bs: seq<byte>): (r: Parsed<Value>)
    ensures r.Ok? ==> Holds(kind, r.value.0)
  {
    match kind
    case Flag => var (u, rest) :- ParseNumber(U8, bs); Ok((Bool(u != 0), rest))
    case Bytes => var (data, rest) :- ParseBytes(bs); Ok((Blob(data), rest))
    case Text => var (s, rest) :- ParseText(bs); Ok((Str(s), rest))
    case Ints => var (v, rest) :- ParseInts(bs); Ok((Vec(v), rest))
    case _ => var (n, rest) :- ParseNumber(kind, bs); Ok((Num(n), rest))
  }

  // --- Reading back what was written ------------------------------------------------------------

  lemma TakeFront(a: seq<byte>, rest: seq<byte>)
    ensures Take(|a|, a + rest) == Ok((a, rest))
  {
    assert (a + rest)[..|a|] == a && (a + rest)[|a|..] == rest;
  }

  lemma ParsePrintedNumber(kind: Kind, n: int, rest: seq<byte>)
    requires kind.IsNumber() && InRange(kind, n)
    ensures ParseNumber(kind, PrintNumber(kind, n) + rest) == Ok((n, rest))
  {
    SignedRoundTrip(n, 0, kind.Width());
    RangeOfWidth(kind, n);
    NumberRoundTrip(Unsigned(n, kind.Width()), kind.Width());
    TakeFront(PrintNumber(kind, n), rest);
  }

  lemma ParsePrintedLength(n: nat, rest: seq<byte>)
    ensures ParseNumber(U32, Length(n) + rest) == Ok((n % 0x1_0000_0000, rest))
  {
    ParsePrintedNumber(U32, n % 0x1_0000_0000, rest);
  }

  /** A length-prefixed field is read back exactly if it is within the cap. */
  lemma ParsePrintedBytes(data: seq<byte>, rest: seq<byte>)
    ensures |data| <= MAX_FIELD_LEN ==> ParseBytes(Length(|data|) + data + rest) == Ok((data, rest))
    ensures |data| > MAX_FIELD_LEN ==> ParseBytes(Length(|data|) + data + rest).Ok? ==>
      |ParseBytes(Length(|data|) + data + rest).value.0| < |data|
  {
    AppendAssociates(Length(|data|), data, rest);
    ParsePrintedLength(|data|, data + rest);
    TakeFront(data, rest);
  }

  lemma {:induction false} ParsePrintedInts(v: seq<i32>, rest: seq<byte>)
    ensures ParseManyInts(|v|, PrintInts(v) + rest) == Ok((v, rest))
    decreases |v|
  {
    if v == [] {
      assert PrintInts(v) + rest == rest;
    } else {
      assert PrintInts(v) + rest == PrintNumber(I32, v[0]) + (PrintInts(v[1..]) + rest);
      ParsePrintedNumber(I32, v[0], PrintInts(v[1..]) + rest);
      ParsePrintedInts(v[1..], rest);
      assert [v[0]] + v[1..] == v;
    }
  }

  lemma ParsePrintedFlag(b: bool, rest: seq<byte>)
    ensures Parse(Flag, Print(Flag, Bool(b)) + rest) == Ok((Bool(b), rest))
  {
    var u := if b then 1 else 0;
    assert BigEndian(u, 1) == BigEndian(0, 0) + [u as byte];
    ParsePrintedNumber(U8, u, rest);
    assert Print(Flag, Bool(b)) == PrintNumber(U8, u);
  }

  lemma ParsePrintedText(s: string, rest: seq<byte>)
    requires |Utf8.Encode(s)| <= MAX_FIELD_LEN
    ensures ParseText(Print(Text, Str(s)) + rest) == Ok((s, rest))
  {
    ParsePrintedBytes(Utf8.Encode(s), rest);
    Utf8.DecodeEncode(s);
  }

  lemma AppendAssociates(a: seq<byte>, b: seq<byte>, c: seq<byte>)
    ensures a + b + c == a + (b + c)
  {
  }

  lemma ParseCounted(bs: seq<byte>, count: nat, body: seq<byte>, v: seq<i32>, rest: seq<byte>)
    requires ParseNumber(U32, bs) == Ok((count, body)) && count <= MAX_FIELD_LEN / 4
    requires ParseManyInts(count, body) == Ok((v, rest))
    ensures ParseInts(bs) == Ok((v, rest))
  {
  }

  lemma ParseLengthOf(bs: seq<byte>, n: nat, body: seq<byte>)
    requires bs == Length(n) + body && n < 0x1_0000_0000
    ensures ParseNumber(U32, bs) == Ok((n, body))
  {
    ParsePrintedLength(n, body);
  }

  lemma ParsePrintedVec(v: seq<i32>, bs: seq<byte>, rest: seq<byte>)
    requires |v| <= MAX_FIELD_LEN / 4 && bs == Length(|v|) + PrintInts(v) + rest
    ensures ParseInts(bs) == Ok((v, rest))
  {
    AppendAssociates(Length(|v|), PrintInts(v), rest);
    ParseLengthOf(bs, |v|, PrintInts(v) + rest);
    ParsePrintedInts(v, rest);
    ParseCounted(bs, |v|, PrintInts(v) + rest, v, rest);
  }

  /** A field within its cap is read back, whatever follows it. */
  lemma ParsePrinted(kind: Kind, v: Value, rest: seq<byte>)
    requires Holds(kind, v) && Fits(kind, v)
    ensures Parse(kind, Print(kind, v) + rest) == Ok((v, rest))
  {
    if kind.Flag? {
      ParsePrintedFlag(v.b, rest);
    } else if kind.Bytes? {
      ParsePrintedBytes(v.data, rest);
    } else if kind.Text? {
      ParsePrintedText(v.s, rest);
    } else if kind.Ints? {
      ParsePrintedVec(v.v, Print(kind, v) + rest, rest);
    } else {
      ParsePrintedNumber(kind, v.n, rest);
    }
  }

  // --- Writing what was read --------------------------------------------------------------------

  lemma PrintParsedNumber(kind: Kind, bs: seq<byte>)
    requires kind.IsNumber() && ParseNumber(kind, bs).Ok?
    ensures var (n, rest) := ParseNumber(kind, bs).value;
      PrintNumber(kind, n) == bs[..kind.Width()] && rest == bs[kind.Width()..]
  {
    var raw := bs[..kind.Width()];
    BytesRoundTrip(raw);
    SignedRoundTrip(0, FromBigEndian(raw), kind.Width());
  }

  lemma PrintParsedLength(bs: seq<byte>)
    requires ParseNumber(U32, bs).Ok?
    ensures var (len, rest) := ParseNumber(U32, bs).value; len >= 0 && bs == Length(len) + rest && rest == bs[4..]
  {
    PrintParsedNumber(U32, bs);
    assert bs == bs[..4] + bs[4..];
  }

  lemma PrintParsedBytes(bs: seq<byte>)
    requires ParseBytes(bs).Ok?
    ensures var (data, rest) := ParseBytes(bs).value;
      |data| <= MAX_FIELD_LEN && bs == Length(|data|) + data + rest
  {
    PrintParsedLength(bs);
    var (len, after) := ParseNumber(U32, bs).value;
    assert after == after[..len] + after[len..];
    assert Length(len) + after == Length(len) + after[..len] + after[len..];
  }

  lemma {:induction false} PrintParsedInts(count: nat, bs: seq<byte>)
    requires ParseManyInts(count, bs).Ok?
    ensures var (v, rest) := ParseManyInts(count, bs).value; bs == PrintInts(v) + rest
    decreases count
  {
    if count > 0 {
      PrintParsedNumber(I32, bs);
      var (x, after) := ParseNumber(I32, bs).value;
      PrintParsedInts(count - 1, after);
      var (v, rest) := ParseManyInts(count, bs).value;
      assert v[1..] == ParseManyInts(count - 1, after).value.0;
      assert bs == bs[..4] + bs[4..];
    }
  }

  /** `bs` is the encoding of `v` followed by `rest`, save that any non-zero flag byte stands for 1. */
  predicate Reads(kind: Kind, v: Value, bs: seq<byte>, rest: seq<byte>)
    requires Holds(kind, v)
  {
    var k := |Print(kind, v)|;
    && k <= |bs| && rest == bs[k..]
    && if kind.Flag? then v.b == (bs[0] != 0) else Print(kind, v) == bs[..k]
  }

  lemma SplitReads(kind: Kind, v: Value, bs: seq<byte>, rest: seq<byte>)
    requires Holds(kind, v) && !kind.Flag? && bs == Print(kind, v) + rest
    ensures Reads(kind, v, bs, rest)
  {
  }

  lemma OneByte(bs: seq<byte>)
    requires |bs| == 1
    ensures FromBigEndian(bs) == bs[0] as int
  {
    assert Accumulate(0, bs) == Accumulate(0 * 256 + bs[0] as int, bs[1..]);
    assert bs[1..] == [];
  }

  lemma PrintParsedFlag(bs: seq<byte>)
    requires Parse(Flag, bs).Ok?
    ensures var (v, rest) := Parse(Flag, bs).value; Reads(Flag, v, bs, rest)
  {
    var raw := bs[..1];
    OneByte(raw);
  }

  lemma PrintParsedVec(bs: seq<byte>)
    requires ParseInts(bs).Ok?
    ensures var (v, rest) := ParseInts(bs).value;
      |v| <= MAX_FIELD_LEN / 4 && bs == Length(|v|) + PrintInts(v) + rest
  {
    PrintParsedLength(bs);
    var (count, after) := ParseNumber(U32, bs).value;
    PrintParsedInts(count, after);
    var (v, rest) := ParseInts(bs).value;
    assert Length(count) + (PrintInts(v) + rest) == Length(count) + PrintInts(v) + rest;
  }

  lemma PrintParsedText(bs: seq<byte>)
    requires ParseText(bs).Ok?
    ensures var (s, rest) := ParseText(bs).value;
      |Utf8.Encode(s)| <= MAX_FIELD_LEN && bs == Length(|Utf8.Encode(s)|) + Utf8.Encode(s) + rest
  {
    PrintParsedBytes(bs);
    Utf8.EncodeDecode(ParseBytes(bs).value.0);
  }

  /** Whatever a field is read from is its encoding, flags apart, followed by the rest; and it is within its cap. */
  lemma PrintParsed(kind: Kind, bs: seq<byte>)
    requires Parse(kind, bs).Ok?
    ensures var (v, rest) := Parse(kind, bs).value; Fits(kind, v) && Reads(kind, v, bs, rest)
  {
    var (v, rest) := Parse(kind, bs).value;
    if kind.Flag? {
      PrintParsedFlag(bs);
    } else if kind.Bytes? {
      PrintParsedBytes(bs);
      SplitReads(kind, v, bs, rest);
    } else if kind.Text? {
      PrintParsedText(bs);
      SplitReads(kind, v, bs, rest);
    } else if kind.Ints? {
      PrintParsedVec(bs);
      SplitReads(kind, v, bs, rest);
    } else {
      PrintParsedNumber(kind, bs);
    }
  }

  // --- Cutting short ----------------------------------------------------------------------------

  /** No strict prefix of a field's encoding can be read as that kind of field. */
  lemma NoFieldFromPrefix(kind: Kind, v: Value, p: seq<byte>)
    requires Holds(kind, v) && Fits(kind, v)
    requires |p| < |Print(kind, v)| && p == Print(kind, v)[..|p|]
    ensures Parse(kind, p).Err?
  {
    if Parse(kind, p).Ok? {
      var missing := Print(kind, v)[|p|..];
      ParseExtends(kind, p, missing);
      assert p + missing == Print(kind, v) + [];
      ParsePrinted(kind, v, []);
    }
  }

  lemma TakeExtends(n: nat, bs: seq<byte>, more: seq<byte>)
    requires Take(n, bs).Ok?
    ensures var (a, rest) := Take(n, bs).value; Take(n, bs + more) == Ok((a, rest + more))
  {
    assert (bs + more)[..n] == bs[..n] && (bs + more)[n..] == bs[n..] + more;
  }

  lemma {:induction false} ManyIntsExtend(count: nat, bs: seq<byte>, more: seq<byte>)
    requires ParseManyInts(count, bs).Ok?
    ensures var (v, rest) := ParseManyInts(count, bs).value; ParseManyInts(count, bs + more) == Ok((v, rest + more))
    decreases count
  {
    if count > 0 {
      TakeExtends(4, bs, more);
      var (x, after) := ParseNumber(I32, bs).value;
      ManyIntsExtend(count - 1, after, more);
    }
  }

  /** What can be read from some bytes is read just so when more follow. */
  lemma ParseExtends(kind: Kind, bs: seq<byte>, more: seq<byte>)
    requires Parse(kind, bs).Ok?
    ensures var (v, rest) := Parse(kind, bs).value; Parse(kind, bs + more) == Ok((v, rest + more))
  {
    TakeExtends(kind.Width(), bs, more);
    if kind.Bytes? || kind.Text? {
      var (len, after) := ParseNumber(U32, bs).value;
      TakeExtends(len, after, more);
    } else if kind.Ints? {
      var (count, after) := ParseNumber(U32, bs).value;
      ManyIntsExtend(count, after, more);
    }
  }
}
