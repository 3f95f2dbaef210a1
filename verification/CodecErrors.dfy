/** Every error the decoder and the framed reader report is true of the bytes they were given. */
module CodecErrors {
  import opened Wrappers
  import opened MachineInts
  import opened Messages
  import opened WireFormat
  import opened Codec
  import opened CodecTheorems
  import opened Framing
  import Utf8

  /** Some stretch of the bytes is not UTF-8. */
  ghost predicate NotText(bs: seq<byte>) {
    exists stretch: seq<byte> :: Utf8.Decode(stretch).None? && Stretch(stretch, bs)
  }

  ghost predicate Stretch(stretch: seq<byte>, bs: seq<byte>) {
    exists before: seq<byte>, after: seq<byte> :: bs == before + stretch + after
  }

  /** What the error says of these bytes holds. */
  ghost predicate True(e: ProtoError, bs: seq<byte>) {
    match e
    case UnexpectedEof(needed, had) => 0 <= had < needed && had <= |bs|
    case TooLong(declared, max) => declared > max && (max == 4194304 || max == 1048576)
    case InvalidUtf8 => NotText(bs)
    case UnknownCode(_) => false
  }

  lemma Longer(e: ProtoError, front: seq<byte>, bs: seq<byte>)
    requires True(e, bs)
    ensures True(e, front + bs)
  {
    if e.InvalidUtf8? {
      var stretch :| Utf8.Decode(stretch).None? && Stretch(stretch, bs);
      var before: seq<byte>, after: seq<byte> :| bs == before + stretch + after;
      assert front + bs == (front + before) + stretch + after;
      assert Stretch(stretch, front + bs);
    }
  }

  /** What is left is an end of what there was. */
  predicate Rest(rest: seq<byte>, bs: seq<byte>) {
    |rest| <= |bs| && rest == bs[|bs| - |rest|..]
  }

  lemma FromRest(e: ProtoError, rest: seq<byte>, bs: seq<byte>)
    requires Rest(rest, bs) && True(e, rest)
    ensures True(e, bs)
  {
    Longer(e, bs[..|bs| - |rest|], rest);
    assert bs == bs[..|bs| - |rest|] + rest;
  }

  lemma RestOfRest(a: seq<byte>, b: seq<byte>, c: seq<byte>)
    requires Rest(a, b) && Rest(b, c)
    ensures Rest(a, c)
  {
  }

  /** A parser's errors are true, and it leaves an end of what it was given. */
  ghost predicate Honest<T>(r: Parsed<T>, bs: seq<byte>) {
    match r
    case Ok((_, rest)) => Rest(rest, bs)
    case Err(e) => True(e, bs)
  }

  lemma NumberHonest(kind: Kind, bs: seq<byte>)
    requires kind.IsNumber()
    ensures Honest(ParseNumber(kind, bs), bs)
  {
  }

  lemma TakeHonest(n: nat, bs: seq<byte>)
    ensures Honest(Take(n, bs), bs)
  {
  }

  lemma BytesHonest(bs: seq<byte>)
    ensures Honest(ParseBytes(bs), bs)
    ensures ParseBytes(bs).Ok? ==> Stretch(ParseBytes(bs).value.0, bs)
  {
    NumberHonest(U32, bs);
    var len := ParseNumber(U32, bs);
    if len.Ok? && len.value.0 <= MAX_FIELD_LEN {
      var (n, rest) := len.value;
      TakeHonest(n, rest);
      if |rest| >= n {
        assert rest == bs[4..];
        assert bs == bs[..4] + rest[..n] + rest[n..];
        RestOfRest(rest[n..], rest, bs);
      } else {
        FromRest(UnexpectedEof(n, |rest|), rest, bs);
      }
    }
  }

  lemma TextHonest(bs: seq<byte>)
    ensures Honest(ParseText(bs), bs)
  {
    BytesHonest(bs);
  }

  lemma {:induction false} ManyIntsHonest(count: nat, bs: seq<byte>)
    ensures Honest(ParseManyInts(count, bs), bs)
    decreases count
  {
    if count > 0 {
      NumberHonest(I32, bs);
      var first := ParseNumber(I32, bs);
      if first.Ok? {
        var rest := first.value.1;
        ManyIntsHonest(count - 1, rest);
        var more := ParseManyInts(count - 1, rest);
        if more.Ok? {
          RestOfRest(more.value.1, rest, bs);
        } else {
          FromRest(more.error, rest, bs);
        }
      }
    }
  }

  lemma IntsHonest(bs: seq<byte>)
    ensures Honest(ParseInts(bs), bs)
  {
    NumberHonest(U32, bs);
    var count := ParseNumber(U32, bs);
    if count.Ok? && count.value.0 <= MAX_FIELD_LEN / 4 {
      var (n, rest) := count.value;
      ManyIntsHonest(n, rest);
      var ints := ParseManyInts(n, rest);
      if ints.Ok? {
        RestOfRest(ints.value.1, rest, bs);
      } else {
        FromRest(ints.error, rest, bs);
      }
    }
  }

  lemma FieldHonest(kind: Kind, bs: seq<byte>)
    ensures Honest(Parse(kind, bs), bs)
  {
    match kind
    case Flag => NumberHonest(U8, bs);
    case Bytes => BytesHonest(bs);
    case Text => TextHonest(bs);
    case Ints => IntsHonest(bs);
    case _ => NumberHonest(kind, bs);
  }

  lemma {:induction false} FieldsHonest(ks: Kinds, bs: seq<byte>)
    ensures Honest(ParseAll(ks, bs), bs)
    decreases ks
  {
    match ks
    case Done =>
    case Then(kind, more) =>
      FieldHonest(kind, bs);
      ParseThen(kind, more, bs);
      if Parse(kind, bs).Ok? {
        var rest := Parse(kind, bs).value.1;
        FieldsHonest(more, rest);
        var others := ParseAll(more, rest);
        if others.Ok? {
          RestOfRest(others.value.1, rest, bs);
        } else {
          FromRest(others.error, rest, bs);
        }
      }
  }

  lemma GreetingHonest(bs: seq<byte>)
    ensures DecodeHello(bs).Err? ==> True(DecodeHello(bs).error, bs)
  {
    NumberHonest(I16, bs);
    var major := ParseNumber(I16, bs);
    if major.Ok? {
      var rest := major.value.1;
      NumberHonest(I16, rest);
      var minor := ParseNumber(I16, rest);
      if minor.Ok? {
        TextHonest(minor.value.1);
        RestOfRest(minor.value.1, rest, bs);
        if ParseText(minor.value.1).Err? {
          FromRest(ParseText(minor.value.1).error, minor.value.1, bs);
        }
      } else {
        FromRest(minor.error, rest, bs);
      }
    }
  }

  predicate Spells(tag: Tag, code: seq<byte>) {
    Raw(OpcodeOf(tag)) == code
  }

  /** These four bytes are no message's letters. */
  ghost predicate Unknown(code: seq<byte>) {
    forall tag :: !Spells(tag, code)
  }

  lemma NotFoundUnknown(code: seq<byte>)
    requires |code| == 4
    ensures FindTag(FromBigEndian(code)).None? <==> Unknown(code)
  {
    var found := FindTag(FromBigEndian(code));
    if found.Some? {
      OpcodeMatches(code, OpcodeOf(found.value));
      assert Spells(found.value, code);
    }
    forall tag | found.None? ensures !Spells(tag, code) {
      OpcodesDiffer(tag);
      OpcodeMatches(code, OpcodeOf(tag));
    }
  }

  lemma KnownHonest(p: seq<byte>, tag: Tag)
    requires |p| >= 4 && DecodeFields(tag, p[4..]).Err?
    ensures True(DecodeFields(tag, p[4..]).error, p)
  {
    FieldsHonest(KindsOf(tag), p[4..]);
    FromRest(DecodeFields(tag, p[4..]).error, p[4..], p);
  }

  /**
   A code is said to be unknown exactly if it is, and every other error is true: so many bytes were needed where
   fewer were left, a length given is over the limit, or a stretch is not text.
   */
  lemma DecodeErrsTruly(p: seq<byte>)
    ensures forall code :: Decode(p) == Err(UnknownCode(code)) <==>
      |p| >= 4 && !Greets(p) && code == p[..4] && Unknown(code)
    ensures Decode(p).Err? && !Decode(p).error.UnknownCode? ==> True(Decode(p).error, p)
  {
    if Greets(p) {
      GreetingHonest(p[7..]);
      if DecodeHello(p[7..]).Err? {
        FromRest(DecodeHello(p[7..]).error, p[7..], p);
      }
    } else if |p| >= 4 {
      NotFoundUnknown(p[..4]);
      var found := FindTag(FromBigEndian(p[..4]));
      if found.Some? && DecodeFields(found.value, p[4..]).Err? {
        KnownHonest(p, found.value);
      }
    }
  }

  /** What one receive fails with is how the stream ends, a length over the limit, or what is wrong with the payload. */
  lemma {:induction false} ReceiveErrsTruly(decode: Decoder, s: seq<byte>, end: StreamEnd)
    ensures match Receive(decode, s, end).outcome
            case Err(Ended(e)) => e == end && (|s| < 4 || |s| - 4 < FromBigEndian(s[..4]))
            case Err(FrameTooLarge(len)) => |s| >= 4 && len == FromBigEndian(s[..4]) > 4194304
            case Err(Proto(e)) => exists k :: 4 <= k <= |s| && k - 4 == FromBigEndian(s[..4]) && decode(s[4..k]) == Err(e)
            case Ok(m) => exists k :: 4 <= k <= |s| && k - 4 == FromBigEndian(s[..4]) && decode(s[4..k]) == Ok(m)
  {
    if |s| >= 4 {
      BytesRoundTrip(s[..4]);
      var len := FromBigEndian(s[..4]);
      if len <= |s| - 4 {
        assert s[4..4 + len] == s[4..][..len];
      }
    }
  }
}
