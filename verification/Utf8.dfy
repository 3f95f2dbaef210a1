/** UTF-8 as sections 3 and 4 of RFC 3629 define it: which byte strings are text, and which text. */
module Utf8 {
  import opened Wrappers
  import opened MachineInts

  function EncodeChar(c: char): (bs: seq<byte>)
    ensures 1 <= |bs| <= 4
  {
    var n := c as int;
    if n < 0x80 then [n as byte]
    else if n < 0x800 then [(0xC0 + n / 64) as byte, (0x80 + n % 64) as byte]
    else if n < 0x1_0000 then
      [(0xE0 + n / 4096) as byte, (0x80 + n / 64 % 64) as byte, (0x80 + n % 64) as byte]
    else
      [(0xF0 + n / 262144) as byte, (0x80 + n / 4096 % 64) as byte, (0x80 + n / 64 % 64) as byte, (0x80 + n % 64) as byte]
  }

  function Encode(s: string): seq<byte> {
    if s == [] then [] else EncodeChar(s[0]) + Encode(s[1..])
  }

  predicate Tail(b: byte) {
    0x80 <= b <= 0xBF
  }

  /** The second byte that may follow the lead byte of a three- or four-byte sequence. */
  predicate Second(lead: byte, b: byte) {
    if lead == 0xE0 then 0xA0 <= b <= 0xBF
    else if lead == 0xED then 0x80 <= b <= 0x9F
    else if lead == 0xF0 then 0x90 <= b <= 0xBF
    else if lead == 0xF4 then 0x80 <= b <= 0x8F
    else Tail(b)
  }

  /** How many bytes the well-formed character at the front of `bs` takes; 0 if there is none. */
  function LeadLength(bs: seq<byte>): (k: nat)
    ensures k <= |bs| && k <= 4
  {
    if |bs| >= 1 && bs[0] <= 0x7F then 1
    else if |bs| >= 2 && 0xC2 <= bs[0] <= 0xDF && Tail(bs[1]) then 2
    else if |bs| >= 3 && 0xE0 <= bs[0] <= 0xEF && Second(bs[0], bs[1]) && Tail(bs[2]) then 3
    else if |bs| >= 4 && 0xF0 <= bs[0] <= 0xF4 && Second(bs[0], bs[1]) && Tail(bs[2]) && Tail(bs[3]) then 4
    else 0
  }

  function ScalarAt(bs: seq<byte>): (n: int)
    requires LeadLength(bs) > 0
    ensures 0 <= n < 0xD800 || 0xE000 <= n < 0x11_0000
  {
    var k := LeadLength(bs);
    if k == 1 then bs[0] as int
    else if k == 2 then (bs[0] as int - 0xC0) * 64 + (bs[1] as int - 0x80)
    else if k == 3 then (bs[0] as int - 0xE0) * 4096 + (bs[1] as int - 0x80) * 64 + (bs[2] as int - 0x80)
    else (bs[0] as int - 0xF0) * 262144 + (bs[1] as int - 0x80) * 4096 + (bs[2] as int - 0x80) * 64 + (bs[3] as int - 0x80)
  }

  function Decode(bs: seq<byte>): Option<string>
    decreases |bs|
  {
    if bs == [] then Some([])
    else
      var k := LeadLength(bs);
      if k == 0 then None
      else
        var rest := Decode(bs[k..]);
        if rest.None? then None else Some([ScalarAt(bs) as char] + rest.value)
  }

  lemma CharRoundTrip(c: char, rest: seq<byte>)
    ensures LeadLength(EncodeChar(c) + rest) == |EncodeChar(c)|
    ensures ScalarAt(EncodeChar(c) + rest) as char == c
  {
    var n := c as int;
    assert n == n / 64 * 64 + n % 64;
    assert n / 64 == n / 4096 * 64 + n / 64 % 64;
    assert n / 4096 == n / 262144 * 64 + n / 4096 % 64;
  }

  lemma Sextets(n: int, high: int, low: int)
    requires n == high * 64 + low && 0 <= low < 64 && 0 <= high
    ensures n / 64 == high && n % 64 == low
    ensures n / 4096 == high / 64 && n / 262144 == high / 4096
  {
  }

  lemma ThreeByteRoundTrip(bs: seq<byte>)
    requires LeadLength(bs) == 3
    ensures EncodeChar(ScalarAt(bs) as char) == bs[..3]
  {
    var a, b, c := bs[0] as int - 0xE0, bs[1] as int - 0x80, bs[2] as int - 0x80;
    Sextets(a * 64 + b, a, b);
    Sextets(ScalarAt(bs), a * 64 + b, c);
  }

  lemma FourByteRoundTrip(bs: seq<byte>)
    requires LeadLength(bs) == 4
    ensures EncodeChar(ScalarAt(bs) as char) == bs[..4]
  {
    var a, b, c, d := bs[0] as int - 0xF0, bs[1] as int - 0x80, bs[2] as int - 0x80, bs[3] as int - 0x80;
    Sextets(a * 64 + b, a, b);
    Sextets((a * 64 + b) * 64 + c, a * 64 + b, c);
    Sextets(ScalarAt(bs), (a * 64 + b) * 64 + c, d);
  }

  lemma ScalarRoundTrip(bs: seq<byte>)
    requires LeadLength(bs) > 0
    ensures EncodeChar(ScalarAt(bs) as char) == bs[..LeadLength(bs)]
  {
    if LeadLength(bs) == 2 {
      Sextets(ScalarAt(bs), bs[0] as int - 0xC0, bs[1] as int - 0x80);
    } else if LeadLength(bs) == 3 {
      ThreeByteRoundTrip(bs);
    } else if LeadLength(bs) == 4 {
      FourByteRoundTrip(bs);
    }
  }

  lemma DecodeOneMore(c: char, rest: seq<byte>)
    requires Decode(rest).Some?
    ensures Decode(EncodeChar(c) + rest) == Some([c] + Decode(rest).value)
  {
    CharRoundTrip(c, rest);
    assert (EncodeChar(c) + rest)[|EncodeChar(c)|..] == rest;
  }

  /** Every string is read back from its encoding. */
  lemma {:induction false} DecodeEncode(s: string)
    ensures Decode(Encode(s)) == Some(s)
    decreases |s|
  {
    if s != [] {
      DecodeEncode(s[1..]);
      DecodeOneMore(s[0], Encode(s[1..]));
      assert [s[0]] + s[1..] == s;
    }
  }

  lemma EncodeFront(s: string, c: char)
    ensures Encode([c] + s) == EncodeChar(c) + Encode(s)
  {
    assert ([c] + s)[1..] == s;
  }

  lemma DecodeFront(bs: seq<byte>) returns (c: char, rest: seq<byte>)
    requires bs != [] && Decode(bs).Some?
    ensures bs == EncodeChar(c) + rest && Decode(rest).Some?
    ensures Decode(bs).value == [c] + Decode(rest).value
  {
    var k := LeadLength(bs);
    c, rest := ScalarAt(bs) as char, bs[k..];
    ScalarRoundTrip(bs);
    assert bs == bs[..k] + bs[k..];
  }

  /** Bytes that are read as a string are that string's one encoding. */
  lemma {:induction false} EncodeDecode(bs: seq<byte>)
    requires Decode(bs).Some?
    ensures Encode(Decode(bs).value) == bs
    decreases |bs|
  {
    if bs != [] {
      var c, rest := DecodeFront(bs);
      EncodeDecode(rest);
      EncodeFront(Decode(rest).value, c);
    }
  }
}
