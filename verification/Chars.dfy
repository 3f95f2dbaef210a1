/** The classes of characters the program asks about, and trimming and splitting by them. */
module Chars {

  /** The general category Cc of the Unicode Standard. */
  predicate IsControl(c: char) {
    c as int <= 0x1F || 0x7F <= c as int <= 0x9F
  }

  /** The White_Space property of the Unicode Standard. */
  predicate IsWhitespace(c: char) {
    var n := c as int;
    || 0x09 <= n <= 0x0D || n == 0x20 || n == 0x85 || n == 0xA0 || n == 0x1680 || 0x2000 <= n <= 0x200A
    || n == 0x2028 || n == 0x2029 || n == 0x202F || n == 0x205F || n == 0x3000
  }

  /** The twenty-five characters of PropList.txt with that property. */
  lemma WhitespaceListed(c: char)
    ensures IsWhitespace(c) ==
      (c as int in {9, 10, 11, 12, 13, 32, 133, 160, 5760, 8192, 8193, 8194, 8195, 8196, 8197, 8198, 8199, 8200, 8201,
                    8202, 8232, 8233, 8239, 8287, 12288})
  {
  }

  function TrimStart(s: string): string
    decreases |s|
  {
    if s != [] && IsWhitespace(s[0]) then TrimStart(s[1..]) else s
  }

  function TrimEnd(s: string): string
    decreases |s|
  {
    if s != [] && IsWhitespace(s[|s| - 1]) then TrimEnd(s[..|s| - 1]) else s
  }

  function Trim(s: string): string {
    TrimEnd(TrimStart(s))
  }

  /** Trimming the start leaves an end of the text that does not begin with whitespace. */
  lemma {:induction false} TrimmedStart(s: string)
    ensures var t := TrimStart(s);
      && (t == [] || !IsWhitespace(t[0]))
      && |t| <= |s| && t == s[|s| - |t|..]
      && forall c <- s[..|s| - |t|] :: IsWhitespace(c)
    decreases |s|
  {
    if s != [] && IsWhitespace(s[0]) {
      TrimmedStart(s[1..]);
      var k := |s| - |TrimStart(s)|;
      assert s[..k] == [s[0]] + s[1..][..k - 1];
    }
  }

  /** Trimming the end leaves a beginning of the text that does not end with whitespace. */
  lemma {:induction false} TrimmedEnd(s: string)
    ensures var t := TrimEnd(s);
      && (t == [] || !IsWhitespace(t[|t| - 1]))
      && |t| <= |s| && t == s[..|t|]
      && forall c <- s[|t|..] :: IsWhitespace(c)
    decreases |s|
  {
    if s != [] && IsWhitespace(s[|s| - 1]) {
      TrimmedEnd(s[..|s| - 1]);
      var k := |TrimEnd(s)|;
      assert s[k..] == s[..|s| - 1][k..] + [s[|s| - 1]];
    }
  }

  lemma TrimBlank(s: string)
    ensures Trim(s) == [] <==> forall c <- s :: IsWhitespace(c)
  {
    var t := TrimStart(s);
    TrimmedStart(s);
    TrimmedEnd(t);
    assert s == s[..|s| - |t|] + t;
    var u := TrimEnd(t);
    assert t == u + t[|u|..];
    if t != [] {
      assert t[0] in t && t[0] in u + t[|u|..];
    }
  }

  /** A text without whitespace is not changed by trimming. */
  lemma TrimWord(s: string)
    requires forall c <- s :: !IsWhitespace(c)
    ensures Trim(s) == s
  {
  }

  /** A trimmed text keeps whitespace at neither end, and trimming it again changes nothing. */
  lemma TrimTwice(s: string)
    ensures var t := Trim(s);
      Trim(t) == t && (t != [] ==> !IsWhitespace(t[0]) && !IsWhitespace(t[|t| - 1]))
  {
    TrimmedStart(s);
    TrimmedEnd(TrimStart(s));
  }

  /** Trimming adds no characters. */
  lemma TrimKeepsOut(s: string, c: char)
    requires c !in s
    ensures c !in Trim(s)
  {
    TrimmedStart(s);
    TrimmedEnd(TrimStart(s));
  }

  function AsciiUpper(s: string): (t: string)
    ensures |t| == |s|
    ensures forall i :: 0 <= i < |s| ==> t[i] == if 'a' <= s[i] <= 'z' then (s[i] as int - 32) as char else s[i]
    decreases |s|
  {
    if s == [] then []
    else [if 'a' <= s[0] <= 'z' then (s[0] as int - 32) as char else s[0]] + AsciiUpper(s[1..])
  }

  /** What stands before the first `c`; all of the text if there is none. */
  function Before(s: string, c: char): (t: string)
    ensures c !in t && t <= s
    ensures t == s || s[|t|] == c
    decreases |s|
  {
    if s == [] || s[0] == c then [] else [s[0]] + Before(s[1..], c)
  }

  lemma {:induction false} BeforeFirst(s: string, c: char, rest: string)
    requires c !in s
    ensures Before(s, c) == s && Before(s + [c] + rest, c) == s
    decreases |s|
  {
    if s != [] {
      BeforeFirst(s[1..], c, rest);
      assert (s + [c] + rest)[1..] == s[1..] + [c] + rest;
    }
  }

  lemma {:induction false} BeforeBehind(front: string, rest: string, c: char)
    requires c !in front
    ensures Before(front + rest, c) == front + Before(rest, c)
    decreases |front|
  {
    if front == [] {
      assert front + rest == rest;
    } else {
      assert (front + rest)[0] == front[0] && (front + rest)[1..] == front[1..] + rest;
      BeforeBehind(front[1..], rest, c);
    }
  }
}
