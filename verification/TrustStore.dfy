/** Trust on first use: fingerprints kept in a text file, one identity and fingerprint a line. */
module TrustStore {
  import opened Wrappers
  import opened Chars

  // --- The file ---------------------------------------------------------------------------------

  function Index(s: string, c: char): (i: nat)
    ensures i <= |s| && c !in s[..i] && (i < |s| ==> s[i] == c)
    decreases |s|
  {
    if s == [] || s[0] == c then 0 else assert s == [s[0]] + s[1..]; 1 + Index(s[1..], c)
  }

  function FirstBlank(s: string): (i: nat)
    ensures i <= |s| && (forall c <- s[..i] :: !IsWhitespace(c)) && (i < |s| ==> IsWhitespace(s[i]))
    decreases |s|
  {
    if s == [] || IsWhitespace(s[0]) then 0 else assert s == [s[0]] + s[1..]; 1 + FirstBlank(s[1..])
  }

  function StripReturn(line: string): string {
    if line != [] && line[|line| - 1] == '\r' then line[..|line| - 1] else line
  }

  /** The lines of a text, without their endings. */
  function Lines(text: string): seq<string>
    decreases |text|
  {
    if text == [] then []
    else
      var i := Index(text, '\n');
      if i == |text| then [text] else [StripReturn(text[..i])] + Lines(text[i + 1..])
  }

  type Pins = map<string, string>

  /** What one line adds: the word before its first blank and the trimmed rest; a line without blanks adds nothing. */
  function ReadLine(pins: Pins, line: string): Pins {
    var i := FirstBlank(line);
    if i == |line| then pins else pins[Trim(line[..i]) := Trim(line[i + 1..])]
  }

  function ReadLines(pins: Pins, lines: seq<string>): Pins
    decreases |lines|
  {
    if lines == [] then pins else ReadLines(ReadLine(pins, lines[0]), lines[1..])
  }

  function Parse(text: string): Pins {
    ReadLines(map[], Lines(text))
  }

  /** Nothing is pinned by a file that is not there. */
  function Loaded(file: Option<string>): Pins {
    match file
    case Some(text) => Parse(text)
    case None => map[]
  }

  function LineOf(identity: string, fingerprint: string): string {
    identity + " " + fingerprint + "\n"
  }

  function Print(pins: Pins, order: seq<string>): string
    requires forall k <- order :: k in pins
    decreases |order|
  {
    if order == [] then "" else LineOf(order[0], pins[order[0]]) + Print(pins, order[1..])
  }

  predicate Unrepeated(order: seq<string>) {
    forall i, j :: 0 <= i < j < |order| ==> order[i] != order[j]
  }

  /** An order in which the entries of the table may come. */
  predicate OrderOf(pins: Pins, order: seq<string>) {
    && (forall k <- order :: k in pins)
    && (forall k <- pins :: k in order)
    && Unrepeated(order)
  }

  // --- Reading back what was written ------------------------------------------------------------

  /** An entry that one line can hold: an identity without blanks, and a fingerprint that fills its line to the ends. */
  predicate FitsLine(identity: string, fingerprint: string) {
    && (forall c <- identity :: !IsWhitespace(c))
    && Trim(fingerprint) == fingerprint && '\n' !in fingerprint
  }

  predicate AllFit(pins: Pins) {
    forall k <- pins :: FitsLine(k, pins[k])
  }

  lemma NotInPrefix(s: string, i: nat, c: char)
    requires i <= |s| && c !in s[..i]
    ensures forall k :: 0 <= k < i ==> s[k] != c
  {
    forall k | 0 <= k < i ensures s[k] != c {
      assert s[..i][k] == s[k];
    }
  }

  lemma IndexAt(s: string, c: char, i: nat)
    requires i < |s| && s[i] == c && c !in s[..i]
    ensures Index(s, c) == i
  {
    NotInPrefix(s, i, c);
    NotInPrefix(s, Index(s, c), c);
  }

  lemma NoBlankInPrefix(s: string, i: nat)
    requires i <= |s| && forall c <- s[..i] :: !IsWhitespace(c)
    ensures forall k :: 0 <= k < i ==> !IsWhitespace(s[k])
  {
    forall k | 0 <= k < i ensures !IsWhitespace(s[k]) {
      assert s[..i][k] == s[k];
    }
  }

  lemma FirstBlankAt(s: string, i: nat)
    requires i < |s| && IsWhitespace(s[i]) && forall c <- s[..i] :: !IsWhitespace(c)
    ensures FirstBlank(s) == i
  {
    NoBlankInPrefix(s, i);
    NoBlankInPrefix(s, FirstBlank(s));
  }

  lemma LinesOfText(line: string, rest: string)
    requires '\n' !in line && StripReturn(line) == line
    ensures Lines(line + "\n" + rest) == [line] + Lines(rest)
  {
    var text := line + "\n" + rest;
    assert text[..|line|] == line && text[|line|] == '\n' && text[|line| + 1..] == rest;
    IndexAt(text, '\n', |line|);
  }

  /** Lines may also end as on Windows. */
  lemma LinesOfWindows(line: string, rest: string)
    requires '\n' !in line
    ensures Lines(line + "\r\n" + rest) == [line] + Lines(rest)
  {
    var text := line + "\r\n" + rest;
    assert text[..|line| + 1] == line + "\r" && text[|line| + 1] == '\n' && text[|line| + 2..] == rest;
    IndexAt(text, '\n', |line| + 1);
  }

  lemma NothingToStrip(identity: string, fingerprint: string)
    requires FitsLine(identity, fingerprint)
    ensures var line := identity + " " + fingerprint; '\n' !in line && StripReturn(line) == line
  {
    TrimTwice(fingerprint);
  }

  lemma LinesOfLine(identity: string, fingerprint: string, rest: string)
    requires FitsLine(identity, fingerprint)
    ensures Lines(LineOf(identity, fingerprint) + rest) == [identity + " " + fingerprint] + Lines(rest)
  {
    NothingToStrip(identity, fingerprint);
    LinesOfText(identity + " " + fingerprint, rest);
  }

  lemma ReadLineOf(pins: Pins, identity: string, fingerprint: string)
    requires FitsLine(identity, fingerprint)
    ensures ReadLine(pins, identity + " " + fingerprint) == pins[identity := fingerprint]
  {
    var line := identity + " " + fingerprint;
    assert line[..|identity|] == identity && line[|identity| + 1..] == fingerprint;
    FirstBlankAt(line, |identity|);
    TrimWord(identity);
  }

  function PutAll(pins: Pins, from: Pins, order: seq<string>): Pins
    requires forall k <- order :: k in from
    decreases |order|
  {
    if order == [] then pins else PutAll(pins[order[0] := from[order[0]]], from, order[1..])
  }

  lemma {:induction false} ReadPrinted(pins: Pins, from: Pins, order: seq<string>)
    requires (forall k <- order :: k in from) && AllFit(from)
    ensures ReadLines(pins, Lines(Print(from, order))) == PutAll(pins, from, order)
    decreases |order|
  {
    if order != [] {
      var k := order[0];
      LinesOfLine(k, from[k], Print(from, order[1..]));
      ReadLineOf(pins, k, from[k]);
      ReadPrinted(pins[k := from[k]], from, order[1..]);
    }
  }

  lemma {:induction false} PutAllMeans(pins: Pins, from: Pins, order: seq<string>, k: string)
    requires forall x <- order :: x in from
    ensures var all := PutAll(pins, from, order);
      && (k in all <==> k in pins || k in order)
      && (k in order ==> all[k] == from[k])
      && (k !in order && k in pins ==> all[k] == pins[k])
    decreases |order|
  {
    if order != [] {
      PutAllMeans(pins[order[0] := from[order[0]]], from, order[1..], k);
      assert order == [order[0]] + order[1..];
    }
  }

  lemma PutAllOf(pins: Pins, order: seq<string>)
    requires OrderOf(pins, order)
    ensures PutAll(map[], pins, order) == pins
  {
    forall k ensures k in PutAll(map[], pins, order) <==> k in pins {
      PutAllMeans(map[], pins, order, k);
    }
    forall k | k in pins ensures PutAll(map[], pins, order)[k] == pins[k] {
      PutAllMeans(map[], pins, order, k);
    }
  }

  lemma {:induction false} LinesHaveNoFeeds(text: string)
    ensures forall line <- Lines(text) :: '\n' !in line
    decreases |text|
  {
    if text != [] {
      var i := Index(text, '\n');
      if i == |text| {
        assert text[..i] == text;
      } else {
        LinesHaveNoFeeds(text[i + 1..]);
      }
    }
  }

  lemma LineFits(line: string, i: nat)
    requires '\n' !in line && i < |line| && forall c <- line[..i] :: !IsWhitespace(c)
    ensures FitsLine(Trim(line[..i]), Trim(line[i + 1..]))
  {
    TrimWord(line[..i]);
    TrimTwice(line[i + 1..]);
    TrimKeepsOut(line[i + 1..], '\n');
  }

  lemma PutFits(pins: Pins, identity: string, fingerprint: string)
    requires AllFit(pins) && FitsLine(identity, fingerprint)
    ensures AllFit(pins[identity := fingerprint])
  {
  }

  lemma PutMisfits(pins: Pins, identity: string, fingerprint: string)
    requires AllFit(pins[identity := fingerprint])
    ensures FitsLine(identity, fingerprint)
  {
    assert identity in pins[identity := fingerprint];
  }

  lemma ReadLineAdds(pins: Pins, line: string) returns (identity: string, fingerprint: string)
    requires '\n' !in line && FirstBlank(line) < |line|
    ensures ReadLine(pins, line) == pins[identity := fingerprint] && FitsLine(identity, fingerprint)
  {
    var i := FirstBlank(line);
    identity, fingerprint := Trim(line[..i]), Trim(line[i + 1..]);
    LineFits(line, i);
  }

  lemma ReadLineFits(pins: Pins, line: string)
    requires AllFit(pins) && '\n' !in line
    ensures AllFit(ReadLine(pins, line))
  {
    if FirstBlank(line) < |line| {
      var identity, fingerprint := ReadLineAdds(pins, line);
      PutFits(pins, identity, fingerprint);
    }
  }

  lemma {:induction false} ReadLinesFit(pins: Pins, lines: seq<string>)
    requires AllFit(pins) && forall line <- lines :: '\n' !in line
    ensures AllFit(ReadLines(pins, lines))
    decreases |lines|
  {
    if lines != [] {
      ReadLineFits(pins, lines[0]);
      ReadLinesFit(ReadLine(pins, lines[0]), lines[1..]);
    }
  }

  /** Whatever a file says, each entry loaded from it would fit a line. */
  lemma ParsedFits(text: string)
    ensures AllFit(Parse(text))
  {
    LinesHaveNoFeeds(text);
    ReadLinesFit(map[], Lines(text));
  }

  /** A table comes back from the file, whatever the order it was written in, exactly if each entry fits a line. */
  lemma ParsePrinted(pins: Pins, order: seq<string>)
    requires OrderOf(pins, order)
    ensures Parse(Print(pins, order)) == pins <==> AllFit(pins)
  {
    ParsedFits(Print(pins, order));
    if AllFit(pins) {
      ReadPrinted(map[], pins, order);
      PutAllOf(pins, order);
    }
  }

  lemma WordAddsNothing(pins: Pins, line: string)
    requires forall c <- line :: !IsWhitespace(c)
    ensures ReadLine(pins, line) == pins
  {
    assert forall k :: 0 <= k < |line| ==> line[k] in line;
  }

  lemma ReadTwo(pins: Pins, a: string, b: string)
    ensures ReadLines(pins, [a, b]) == ReadLine(ReadLine(pins, a), b)
  {
    assert [a, b][1..] == [b] && [b][1..] == [];
    assert ReadLines(ReadLine(pins, a), [b]) == ReadLines(ReadLine(ReadLine(pins, a), b), []);
  }

  /** A line of one word is passed over. */
  lemma WordPassedOver(pins: Pins, word: string, line: string)
    requires forall c <- word :: !IsWhitespace(c)
    ensures ReadLines(pins, [word, line]) == ReadLine(pins, line)
  {
    WordAddsNothing(pins, word);
    ReadTwo(pins, word, line);
  }

  lemma PutTwice(pins: Pins, k: string, a: string, b: string)
    ensures pins[k := a][k := b] == pins[k := b]
  {
  }

  /** Of two lines for one identity the later counts. */
  lemma LaterCounts(pins: Pins, identity: string, early: string, late: string)
    requires FitsLine(identity, early) && FitsLine(identity, late)
    ensures ReadLines(pins, [identity + " " + early, identity + " " + late]) == pins[identity := late]
  {
    ReadTwo(pins, identity + " " + early, identity + " " + late);
    ReadLineOf(pins, identity, early);
    ReadLineOf(pins[identity := early], identity, late);
    PutTwice(pins, identity, early, late);
  }

  // --- The store --------------------------------------------------------------------------------

  class FileTrustStore {
    /** The text of the file at the store's path, if there is one. */
    var file: Option<string>
    var mem: Pins

    function State(): Store
      reads this
    {
      Store(file, mem)
    }

    constructor (file: Option<string>)
      ensures State() == Store(file, Loaded(file))
    {
      this.file := file;
      var pins: Pins := map[];
      if file.Some? {
        var lines := Lines(file.value);
        for i := 0 to |lines|
          invariant ReadLines(map[], lines) == ReadLines(pins, lines[i..])
        {
          pins := ReadLine(pins, lines[i]);
          assert lines[i..][1..] == lines[i + 1..];
        }
      }
      mem := pins;
    }

    /** Writes a text to the file; that it fails, and what it leaves then, goes unnoticed. */
    method WriteText(body: string) returns (ghost saved: bool)
      modifies this`file
      ensures Written(old(file), body, saved, file)
    {
      if * {
        file := Some(body);
        return true;
      }
      saved := false;
      if * {
        return;
      }
      var cut: int := *;
      if 0 <= cut <= |body| {
        file := Some(body[..cut]);
        assert CutShort(body, cut, file);
      } else {
        file := None;
      }
    }

    /** Writes the table in whatever order its entries come. */
    method Persist() returns (ghost saved: bool)
      modifies this`file
      ensures exists order :: OrderOf(mem, order) && Written(old(file), Print(mem, order), saved, file)
    {
      var body := "";
      var left := mem.Keys;
      ghost var order: seq<string> := [];
      while left != {}
        invariant forall k :: k in left ==> k in mem && k !in order
        invariant forall k :: k in mem ==> k in left || k in order
        invariant forall k :: k in order ==> k in mem
        invariant Unrepeated(order)
        invariant body == Print(mem, order) && file == old(file)
        decreases |left|
      {
        var k :| k in left;
        PrintOneMore(mem, order, k);
        body := body + LineOf(k, mem[k]);
        order := order + [k];
        left := left - {k};
      }
      saved := WriteText(body);
      assert OrderOf(mem, order) && Written(old(file), Print(mem, order), saved, file);
    }

    /** Accepts an identity's first fingerprint and writes it down; after that, only the same one. */
    method Check(identity: string, fingerprint: string) returns (ok: bool, ghost saved: bool)
      modifies this
      ensures ok <==> Accepts(old(mem), identity, fingerprint)
      ensures Step(old(State()), Op.Check(identity, fingerprint, saved), State())
    {
      if identity in mem {
        return mem[identity] == fingerprint, true;
      }
      mem := mem[identity := fingerprint];
      saved := Persist();
      ok := true;
    }
  }

  lemma {:induction false} PrintOneMore(pins: Pins, order: seq<string>, k: string)
    requires (forall x <- order :: x in pins) && k in pins
    ensures Print(pins, order + [k]) == Print(pins, order) + LineOf(k, pins[k])
    decreases |order|
  {
    if order == [] {
      assert order + [k] == [k] && [k][1..] == [];
      assert Print(pins, [k]) == LineOf(k, pins[k]) + "";
    } else {
      assert (order + [k])[0] == order[0] && (order + [k])[1..] == order[1..] + [k];
      PrintOneMore(pins, order[1..], k);
      var first, more, last := LineOf(order[0], pins[order[0]]), Print(pins, order[1..]), LineOf(k, pins[k]);
      assert first + more + last == first + (more + last);
    }
  }

  predicate Accepts(pins: Pins, identity: string, fingerprint: string) {
    identity in pins ==> pins[identity] == fingerprint
  }

  // --- Over restarts ----------------------------------------------------------------------------

  datatype Store = Store(file: Option<string>, mem: Pins)

  /** `saved`: whether the table was written down to the end, if it was to be written at all. */
  datatype Op = Check(identity: string, fingerprint: string, saved: bool) | Restart

  predicate CutShort(body: string, k: nat, file: Option<string>) {
    k <= |body| && file == Some(body[..k])
  }

  /** What writing leaves: the text, or, if it fails, the old file, a beginning of the text, or nothing that can be read. */
  ghost predicate Written(was: Option<string>, body: string, saved: bool, file: Option<string>) {
    if saved then file == Some(body)
    else file == was || file.None? || exists k :: CutShort(body, k, file)
  }

  ghost predicate Step(s: Store, op: Op, t: Store) {
    match op
    case Restart => t == Store(s.file, Loaded(s.file))
    case Check(identity, fingerprint, saved) =>
      if identity in s.mem then t == s
      else
        && t.mem == s.mem[identity := fingerprint]
        && exists order :: OrderOf(t.mem, order) && Written(s.file, Print(t.mem, order), saved, t.file)
  }

  /** The states a store goes through, from a start, over checks and restarts. */
  ghost predicate Trace(states: seq<Store>, ops: seq<Op>) {
    && |states| == |ops| + 1
    && states[0].mem == Loaded(states[0].file)
    && forall i :: 0 <= i < |ops| ==> Step(states[i], ops[i], states[i + 1])
  }

  /** The checks are of entries that fit a line, and no writing fails. */
  predicate Fitting(ops: seq<Op>) {
    forall op <- ops :: op.Check? ==> op.saved && FitsLine(op.identity, op.fingerprint)
  }

  predicate Kept(s: Store) {
    AllFit(s.mem) && s.mem == Loaded(s.file)
  }

  predicate Extends(s: Store, t: Store) {
    forall k <- s.mem :: k in t.mem && t.mem[k] == s.mem[k]
  }

  lemma StepKeeps(s: Store, op: Op, t: Store)
    requires Kept(s) && Step(s, op, t) && (op.Check? ==> op.saved && FitsLine(op.identity, op.fingerprint))
    ensures Kept(t) && Extends(s, t)
  {
    if op.Check? && op.identity !in s.mem {
      var order :| OrderOf(t.mem, order) && Written(s.file, Print(t.mem, order), true, t.file);
      ParsePrinted(t.mem, order);
    }
  }

  lemma StartKept(file: Option<string>)
    ensures Kept(Store(file, Loaded(file)))
  {
    if file.Some? {
      ParsedFits(file.value);
    }
  }

  /** Nothing that was ever pinned is forgotten or changed. */
  lemma {:induction false} PinsLast(states: seq<Store>, ops: seq<Op>, i: nat, j: nat)
    requires Trace(states, ops) && Fitting(ops) && i <= j < |states|
    ensures Kept(states[j]) && Extends(states[i], states[j])
    decreases j
  {
    if j == 0 {
      StartKept(states[0].file);
    } else {
      PinsLast(states, ops, if i < j then i else j - 1, j - 1);
      assert Step(states[j - 1], ops[j - 1], states[j]) && ops[j - 1] in ops;
      StepKeeps(states[j - 1], ops[j - 1], states[j]);
    }
  }

  /** Over any checks and restarts, every accepted check of an identity carries the fingerprint first accepted for it. */
  lemma FirstUseLasts(states: seq<Store>, ops: seq<Op>, i: nat, j: nat)
    requires Trace(states, ops) && Fitting(ops) && i < j < |ops|
    requires ops[i].Check? && ops[j].Check? && ops[i].identity == ops[j].identity
    requires Accepts(states[i].mem, ops[i].identity, ops[i].fingerprint)
    ensures Accepts(states[j].mem, ops[j].identity, ops[j].fingerprint) <==> ops[j].fingerprint == ops[i].fingerprint
  {
    assert Step(states[i], ops[i], states[i + 1]);
    PinsLast(states, ops, i + 1, j);
  }

  /** A table with a newly pinned entry comes back whole from a restart exactly if the entry fits a line. */
  lemma PinSurvives(s: Store, identity: string, fingerprint: string, t: Store)
    requires Kept(s) && identity !in s.mem && Step(s, Check(identity, fingerprint, true), t)
    ensures Loaded(t.file) == t.mem <==> FitsLine(identity, fingerprint)
  {
    var order :| OrderOf(t.mem, order) && Written(s.file, Print(t.mem, order), true, t.file);
    ParsePrinted(t.mem, order);
    if FitsLine(identity, fingerprint) {
      PutFits(s.mem, identity, fingerprint);
    } else if AllFit(t.mem) {
      PutMisfits(s.mem, identity, fingerprint);
    }
  }

  lemma LoadedFits(file: Option<string>)
    ensures AllFit(Loaded(file))
  {
    if file.Some? {
      ParsedFits(file.value);
    }
  }

  /** After a restart just the pinned fingerprint is accepted for an identity exactly if its entry fits a line. */
  lemma PinHolds(s: Store, identity: string, fingerprint: string, t: Store)
    requires Kept(s) && identity !in s.mem && Step(s, Check(identity, fingerprint, true), t)
    ensures (forall f :: Accepts(Loaded(t.file), identity, f) <==> f == fingerprint) <==> FitsLine(identity, fingerprint)
  {
    PinSurvives(s, identity, fingerprint, t);
    LoadedFits(t.file);
    if forall f :: Accepts(Loaded(t.file), identity, f) <==> f == fingerprint {
      var other := fingerprint + "!";
      assert other != fingerprint;
      assert Accepts(Loaded(t.file), identity, fingerprint) && !Accepts(Loaded(t.file), identity, other);
      assert identity in Loaded(t.file) && Loaded(t.file)[identity] == fingerprint;
    }
  }

  /** An identity with a blank in it is not found after a restart, so any fingerprint is accepted for it afresh. */
  lemma SpacedIdentityForgotten(file: Option<string>, identity: string, other: string)
    requires exists c <- identity :: IsWhitespace(c)
    ensures identity !in Loaded(file) && Accepts(Loaded(file), identity, other)
  {
    LoadedFits(file);
  }

  /** Every table can be gone through in some order. */
  lemma {:induction false} SomeOrder(pins: Pins) returns (order: seq<string>)
    ensures OrderOf(pins, order)
    decreases |pins|
  {
    if pins == map[] {
      order := [];
    } else {
      var k :| k in pins;
      var rest := pins - {k};
      assert |rest| < |pins|;
      var more := SomeOrder(rest);
      order := [k] + more;
      assert pins.Keys == rest.Keys + {k};
    }
  }

  // --- Failed writes ----------------------------------------------------------------------------

  /** While the process lives nothing pinned is forgotten or changed, whatever fits a line and whatever is written. */
  lemma {:induction false} PinsLastInMemory(states: seq<Store>, ops: seq<Op>, i: nat, j: nat)
    requires Trace(states, ops) && i <= j < |states| && forall k :: i <= k < j ==> ops[k].Check?
    ensures Extends(states[i], states[j])
    decreases j - i
  {
    if i < j {
      assert Step(states[j - 1], ops[j - 1], states[j]);
      PinsLastInMemory(states, ops, i, j - 1);
    }
  }

  /** So without a restart in between, every accepted check of an identity carries the fingerprint first accepted for it. */
  lemma FirstUseInMemory(states: seq<Store>, ops: seq<Op>, i: nat, j: nat)
    requires Trace(states, ops) && i < j < |ops| && forall k :: i <= k <= j ==> ops[k].Check?
    requires ops[i].identity == ops[j].identity && Accepts(states[i].mem, ops[i].identity, ops[i].fingerprint)
    ensures Accepts(states[j].mem, ops[j].identity, ops[j].fingerprint) <==> ops[j].fingerprint == ops[i].fingerprint
  {
    assert Step(states[i], ops[i], states[i + 1]);
    PinsLastInMemory(states, ops, i + 1, j);
  }

  /** A writing that does not fail makes up for all that did. */
  lemma NextSaveMakesUp(s: Store, identity: string, fingerprint: string, t: Store)
    requires AllFit(s.mem) && identity !in s.mem && FitsLine(identity, fingerprint)
    requires Step(s, Check(identity, fingerprint, true), t)
    ensures Loaded(t.file) == t.mem
  {
    var order :| OrderOf(t.mem, order) && Written(s.file, Print(t.mem, order), true, t.file);
    ParsePrinted(t.mem, order);
  }

  lemma LineParts(identity: string, fingerprint: string, k: nat)
    requires FitsLine(identity, fingerprint) && |identity| < k < |LineOf(identity, fingerprint)|
    ensures LineOf(identity, fingerprint)[..k] == identity + " " + fingerprint[..k - |identity| - 1]
    ensures '\n' !in fingerprint[..k - |identity| - 1]
  {
  }

  lemma NoFeedOneLine(text: string)
    requires '\n' !in text && text != []
    ensures Lines(text) == [text]
  {
  }

  lemma ReadOnly(pins: Pins, line: string)
    ensures ReadLines(pins, [line]) == ReadLine(pins, line)
  {
    assert [line][1..] == [];
  }

  /** A line that is cut short holds no pin, or a beginning of the fingerprint. */
  lemma ReadCutLine(pins: Pins, identity: string, fingerprint: string, k: nat)
    requires FitsLine(identity, fingerprint) && k < |LineOf(identity, fingerprint)|
    ensures ReadLines(pins, Lines(LineOf(identity, fingerprint)[..k])) ==
      if k <= |identity| then pins else pins[identity := Trim(fingerprint[..k - |identity| - 1])]
  {
    var text := LineOf(identity, fingerprint)[..k];
    if k <= |identity| {
      assert text == identity[..k];
      assert FirstBlank(text) == |text|;
      if k > 0 {
        assert forall c <- text :: c in identity;
        NoFeedOneLine(text);
        ReadOnly(pins, text);
      }
    } else {
      var rest := fingerprint[..k - |identity| - 1];
      LineParts(identity, fingerprint, k);
      NoFeedOneLine(text);
      ReadOnly(pins, text);
      FirstBlankAt(text, |identity|);
      TrimWord(identity);
      assert text[..|identity|] == identity && text[|identity| + 1..] == rest;
    }
  }

  lemma TrimShortens(s: string)
    ensures |Trim(s)| <= |s|
  {
    TrimmedStart(s);
    TrimmedEnd(TrimStart(s));
  }

  lemma CutBehindLine(line: string, more: string, k: nat)
    requires |line| <= k <= |line + more|
    ensures (line + more)[..k] == line + more[..k - |line|]
  {
  }

  lemma CutInLine(line: string, more: string, k: nat)
    requires k <= |line|
    ensures (line + more)[..k] == line[..k]
  {
  }

  function ReadText(pins: Pins, text: string): Pins {
    ReadLines(pins, Lines(text))
  }

  lemma ReadFirst(pins: Pins, identity: string, fingerprint: string, rest: string)
    requires FitsLine(identity, fingerprint)
    ensures ReadText(pins, LineOf(identity, fingerprint) + rest) == ReadText(pins[identity := fingerprint], rest)
  {
    var line, lines := identity + " " + fingerprint, Lines(rest);
    LinesOfLine(identity, fingerprint, rest);
    assert ([line] + lines)[1..] == lines;
    ReadLineOf(pins, identity, fingerprint);
  }

  lemma CutFirst(pins: Pins, identity: string, fingerprint: string, more: string, k: nat)
    requires FitsLine(identity, fingerprint) && k < |LineOf(identity, fingerprint)|
    ensures k <= |LineOf(identity, fingerprint) + more|
    ensures ReadText(pins, (LineOf(identity, fingerprint) + more)[..k]) ==
      if k <= |identity| then pins else pins[identity := Trim(fingerprint[..k - |identity| - 1])]
  {
    CutInLine(LineOf(identity, fingerprint), more, k);
    ReadCutLine(pins, identity, fingerprint, k);
  }

  lemma CutLater(pins: Pins, identity: string, fingerprint: string, more: string, k: nat)
    requires FitsLine(identity, fingerprint)
    requires |LineOf(identity, fingerprint)| <= k <= |LineOf(identity, fingerprint) + more|
    ensures var left := k - |LineOf(identity, fingerprint)|;
      && left <= |more|
      && ReadText(pins, (LineOf(identity, fingerprint) + more)[..k]) == ReadText(pins[identity := fingerprint], more[..left])
  {
    var first := LineOf(identity, fingerprint);
    CutBehindLine(first, more, k);
    ReadFirst(pins, identity, fingerprint, more[..k - |first|]);
  }

  lemma PrintFirst(from: Pins, order: seq<string>)
    requires order != [] && forall x <- order :: x in from
    ensures Print(from, order) == LineOf(order[0], from[order[0]]) + Print(from, order[1..])
    ensures |order| == 1 ==> Print(from, order) == LineOf(order[0], from[order[0]])
  {
  }

  /** It is not there as it was. */
  predicate Lost(got: Pins, identity: string, fingerprint: string) {
    identity in got ==> got[identity] != fingerprint
  }

  lemma CutFirstLoses(pins: Pins, identity: string, fingerprint: string, more: string, k: nat, last: string, pinned: string)
    requires FitsLine(identity, fingerprint) && k < |LineOf(identity, fingerprint)| && last !in pins
    requires last == identity ==> pinned == fingerprint && k + 1 < |LineOf(identity, fingerprint)|
    ensures k <= |LineOf(identity, fingerprint) + more|
    ensures Lost(ReadText(pins, (LineOf(identity, fingerprint) + more)[..k]), last, pinned)
  {
    CutFirst(pins, identity, fingerprint, more, k);
    if |identity| < k {
      TrimShortens(fingerprint[..k - |identity| - 1]);
    }
  }

  lemma PrintedHead(from: Pins, order: seq<string>)
    requires order != [] && Unrepeated(order) && (forall x <- order :: x in from) && AllFit(from)
    ensures FitsLine(order[0], from[order[0]])
    ensures Unrepeated(order[1..]) && forall x <- order[1..] :: x in from
    ensures |order| > 1 ==> order[|order| - 1] != order[0] && order[1..][|order[1..]| - 1] == order[|order| - 1]
  {
  }

  /** Cut before its last line is written out, the text does not hold the last pin as it was. */
  lemma {:induction false} CutLosesLast(pins: Pins, from: Pins, order: seq<string>, k: nat, last: string)
    requires order != [] && Unrepeated(order) && (forall x <- order :: x in from) && AllFit(from)
    requires k + 1 < |Print(from, order)| && last == order[|order| - 1] && last !in pins
    ensures Lost(ReadText(pins, Print(from, order)[..k]), last, from[last])
    decreases |order|
  {
    var identity, fingerprint, more := order[0], from[order[0]], Print(from, order[1..]);
    PrintFirst(from, order);
    PrintedHead(from, order);
    if k < |LineOf(identity, fingerprint)| {
      CutFirstLoses(pins, identity, fingerprint, more, k, last, from[last]);
    } else {
      CutLater(pins, identity, fingerprint, more, k);
      CutLosesLast(pins[identity := fingerprint], from, order[1..], k - |LineOf(identity, fingerprint)|, last);
    }
  }

  function ButLast(text: string): string
    requires text != ""
  {
    text[..|text| - 1]
  }

  lemma FeedMissing(pins: Pins, identity: string, fingerprint: string)
    requires FitsLine(identity, fingerprint)
    ensures ReadText(pins, ButLast(LineOf(identity, fingerprint))) == pins[identity := fingerprint]
  {
    ReadCutLine(pins, identity, fingerprint, |LineOf(identity, fingerprint)| - 1);
    assert fingerprint[..|fingerprint|] == fingerprint;
  }

  lemma ButLastBehind(first: string, more: string)
    requires more != ""
    ensures ButLast(first + more) == first + ButLast(more)
  {
  }

  lemma LaterFeedMissing(pins: Pins, identity: string, fingerprint: string, more: string)
    requires FitsLine(identity, fingerprint) && more != ""
    ensures ReadText(pins, ButLast(LineOf(identity, fingerprint) + more))
         == ReadText(pins[identity := fingerprint], ButLast(more))
  {
    ButLastBehind(LineOf(identity, fingerprint), more);
    ReadFirst(pins, identity, fingerprint, ButLast(more));
  }

  lemma PutFirst(pins: Pins, from: Pins, order: seq<string>)
    requires order != [] && forall x <- order :: x in from
    ensures |order| == 1 ==> PutAll(pins, from, order) == pins[order[0] := from[order[0]]]
    ensures PutAll(pins, from, order) == PutAll(pins[order[0] := from[order[0]]], from, order[1..])
  {
  }

  /** The line feed at the end of the text is not needed. */
  lemma {:induction false} LastFeedSpare(pins: Pins, from: Pins, order: seq<string>)
    requires order != [] && Unrepeated(order) && (forall x <- order :: x in from) && AllFit(from)
    ensures Print(from, order) != ""
    ensures ReadText(pins, ButLast(Print(from, order))) == PutAll(pins, from, order)
    decreases |order|
  {
    PrintFirst(from, order);
    PrintedHead(from, order);
    PutFirst(pins, from, order);
    if |order| == 1 {
      FeedMissing(pins, order[0], from[order[0]]);
    } else {
      LastFeedSpare(pins[order[0] := from[order[0]]], from, order[1..]);
      LaterFeedMissing(pins, order[0], from[order[0]], Print(from, order[1..]));
    }
  }

  /** Of a table whose entries fit, a beginning of the text holds all exactly if at most the last line feed is missing. */
  lemma CutExactly(pins: Pins, order: seq<string>, k: nat)
    requires OrderOf(pins, order) && AllFit(pins) && pins != map[] && k <= |Print(pins, order)|
    ensures Parse(Print(pins, order)[..k]) == pins <==> k + 1 >= |Print(pins, order)|
  {
    SomethingPinned(pins, order);
    if k + 1 < |Print(pins, order)| {
      CutLosesLast(map[], pins, order, k, order[|order| - 1]);
    } else {
      CutHolds(pins, order, k);
    }
  }

  lemma SomethingPinned(pins: Pins, order: seq<string>)
    requires OrderOf(pins, order) && pins != map[]
    ensures order != [] && order[|order| - 1] in pins && Unrepeated(order)
  {
    var x :| x in pins;
    assert x in order;
    assert order[|order| - 1] in order;
  }

  lemma FeedSpare(pins: Pins, order: seq<string>)
    requires OrderOf(pins, order) && AllFit(pins) && order != []
    ensures Print(pins, order) != "" && Parse(ButLast(Print(pins, order))) == pins
  {
    LastFeedSpare(map[], pins, order);
    PutAllOf(pins, order);
  }

  lemma CutByOne(text: string, k: nat)
    requires text != "" && k <= |text| <= k + 1
    ensures text[..k] == if k == |text| then text else ButLast(text)
  {
  }

  lemma CutHolds(pins: Pins, order: seq<string>, k: nat)
    requires OrderOf(pins, order) && AllFit(pins) && order != [] && k <= |Print(pins, order)| <= k + 1
    ensures Parse(Print(pins, order)[..k]) == pins
  {
    FeedSpare(pins, order);
    ParsePrinted(pins, order);
    CutByOne(Print(pins, order), k);
  }

  lemma TwoPins()
    ensures OrderOf(map["a" := "one"], ["a"]) && AllFit(map["a" := "one"])
    ensures OrderOf(map["a" := "one", "b" := "two"], ["a", "b"])
  {
    Unpadded("one");
  }

  lemma TwoPrinted()
    ensures Print(map["a" := "one", "b" := "two"], ["a", "b"]) == LineOf("a", "one") + LineOf("b", "two")
    ensures Print(map["a" := "one", "b" := "two"], ["a", "b"]) == "a one\nb two\n"
  {
    var pins: Pins := map["a" := "one", "b" := "two"];
    PrintFirst(pins, ["a", "b"]);
    assert ["a", "b"][1..] == ["b"];
    PrintFirst(pins, ["b"]);
  }

  lemma CutPin(more: string)
    ensures |LineOf("a", "one") + more| >= 4
    ensures Parse((LineOf("a", "one") + more)[..4]) == map["a" := "on"]
  {
    Unpadded("one");
    CutFirst(map[], "a", "one", more, 4);
    assert "one"[..2] == "on";
    Unpadded("on");
  }

  /** It does happen: a cut leaves a fingerprint that was never trusted pinned for an identity that was. */
  lemma CutMispins() returns (s: Store, t: Store)
    ensures Kept(s) && s.mem == map["a" := "one"] && Step(s, Check("b", "two", false), t)
    ensures Loaded(t.file) == map["a" := "on"]
  {
    var pins: Pins := map["a" := "one"];
    var mem, order := pins["b" := "two"], ["a", "b"];
    s := Store(Some(Print(pins, ["a"])), pins);
    TwoPins();
    TwoPrinted();
    CutPin(LineOf("b", "two"));
    assert mem == map["a" := "one", "b" := "two"];
    t := Store(Some(Print(mem, order)[..4]), mem);
    ParsePrinted(pins, ["a"]);
    assert CutShort(Print(mem, order), 4, t.file);
    assert OrderOf(mem, order) && Written(s.file, Print(mem, order), false, t.file);
  }

  lemma Unpadded(s: string)
    requires s != [] && !IsWhitespace(s[0]) && !IsWhitespace(s[|s| - 1])
    ensures Trim(s) == s
  {
  }

  // --- First use, exactly -----------------------------------------------------------------------

  /** A trace that starts with a first check of this identity; other identities' entries fit a line, and no writing fails. */
  ghost predicate FirstUse(states: seq<Store>, ops: seq<Op>, identity: string, fingerprint: string) {
    && Trace(states, ops) && ops != [] && ops[0] == Op.Check(identity, fingerprint, true) && identity !in states[0].mem
    && forall op <- ops :: op.Check? ==> op.saved && (op.identity != identity ==> FitsLine(op.identity, op.fingerprint))
  }

  /** The j-th operation checks the identity again. */
  predicate ChecksAgain(states: seq<Store>, ops: seq<Op>, identity: string, j: nat) {
    0 < j < |ops| && j < |states| && ops[j].Check? && ops[j].identity == identity
  }

  /** From then on, over any checks and restarts, a check of this identity is accepted just with that fingerprint. */
  ghost predicate FirstUseBinds(identity: string, fingerprint: string) {
    forall states: seq<Store>, ops: seq<Op>, j: nat ::
      FirstUse(states, ops, identity, fingerprint) && ChecksAgain(states, ops, identity, j) ==>
        (Accepts(states[j].mem, identity, ops[j].fingerprint) <==> ops[j].fingerprint == fingerprint)
  }

  lemma {:induction false} StaysPinned(states: seq<Store>, ops: seq<Op>, identity: string, fingerprint: string, j: nat)
    requires FirstUse(states, ops, identity, fingerprint) && FitsLine(identity, fingerprint) && 0 < j < |states|
    ensures Kept(states[j]) && identity in states[j].mem && states[j].mem[identity] == fingerprint
    decreases j
  {
    assert Step(states[j - 1], ops[j - 1], states[j]) && ops[j - 1] in ops;
    if j == 1 {
      StartKept(states[0].file);
      StepKeeps(states[0], ops[0], states[1]);
    } else {
      StaysPinned(states, ops, identity, fingerprint, j - 1);
      PinnedStepKeeps(states[j - 1], ops[j - 1], states[j], identity);
    }
  }

  /** A check of an identity that is pinned already changes nothing, whatever it carries. */
  lemma PinnedStepKeeps(s: Store, op: Op, t: Store, identity: string)
    requires Kept(s) && Step(s, op, t) && identity in s.mem
    requires op.Check? && op.identity != identity ==> op.saved && FitsLine(op.identity, op.fingerprint)
    ensures Kept(t) && Extends(s, t)
  {
    if op.Check? && op.identity == identity {
      assert t == s;
    } else {
      StepKeeps(s, op, t);
    }
  }

  /** A store that has pinned nothing else. */
  function OnePin(identity: string, fingerprint: string): Store {
    var pins: Pins := map[identity := fingerprint];
    Store(Some(Print(pins, [identity])), pins)
  }

  /** A store before, with, and after reloading one pin, and after one more check of the same identity. */
  lemma PinRestartCheck(identity: string, fingerprint: string, other: string) returns (states: seq<Store>, ops: seq<Op>)
    ensures FirstUse(states, ops, identity, fingerprint)
    ensures ops == [Op.Check(identity, fingerprint, true), Restart, Op.Check(identity, other, true)]
    ensures states[0] == Store(None, map[]) && states[1] == OnePin(identity, fingerprint)
    ensures states[2].mem == Loaded(states[1].file)
    ensures Step(states[0], Op.Check(identity, fingerprint, true), states[1])
  {
    var start, pinned := Store(None, map[]), OnePin(identity, fingerprint);
    assert OrderOf(pinned.mem, [identity]) && start.mem[identity := fingerprint] == pinned.mem;
    var restarted := Store(pinned.file, Loaded(pinned.file));
    var checked := restarted;
    if identity !in restarted.mem {
      var mem := restarted.mem[identity := other];
      var order := SomeOrder(mem);
      checked := Store(Some(Print(mem, order)), mem);
    }
    states := [start, pinned, restarted, checked];
    ops := [Op.Check(identity, fingerprint, true), Restart, Op.Check(identity, other, true)];
    assert Step(start, ops[0], pinned) && Step(pinned, ops[1], restarted) && Step(restarted, ops[2], checked);
  }

  lemma FittingBinds(identity: string, fingerprint: string)
    requires FitsLine(identity, fingerprint)
    ensures FirstUseBinds(identity, fingerprint)
  {
    forall states: seq<Store>, ops: seq<Op>, j: nat
      | FirstUse(states, ops, identity, fingerprint) && ChecksAgain(states, ops, identity, j)
      ensures Accepts(states[j].mem, identity, ops[j].fingerprint) <==> ops[j].fingerprint == fingerprint
    {
      StaysPinned(states, ops, identity, fingerprint, j);
    }
  }

  lemma Unbound(states: seq<Store>, ops: seq<Op>, identity: string, fingerprint: string, j: nat)
    requires FirstUse(states, ops, identity, fingerprint) && ChecksAgain(states, ops, identity, j)
    requires Accepts(states[j].mem, identity, ops[j].fingerprint) != (ops[j].fingerprint == fingerprint)
    ensures !FirstUseBinds(identity, fingerprint)
  {
  }

  /** Some fingerprint is judged wrongly after a restart. */
  lemma Misjudged(s: Store, identity: string, fingerprint: string, t: Store) returns (other: string)
    requires Kept(s) && identity !in s.mem && Step(s, Op.Check(identity, fingerprint, true), t) && !FitsLine(identity, fingerprint)
    ensures Accepts(Loaded(t.file), identity, other) != (other == fingerprint)
  {
    PinHolds(s, identity, fingerprint, t);
    other :| Accepts(Loaded(t.file), identity, other) != (other == fingerprint);
  }

  lemma UnfitUnbound(identity: string, fingerprint: string)
    requires !FitsLine(identity, fingerprint)
    ensures !FirstUseBinds(identity, fingerprint)
  {
    var states, ops := PinRestartCheck(identity, fingerprint, fingerprint);
    var other := Misjudged(states[0], identity, fingerprint, states[1]);
    states, ops := PinRestartCheck(identity, fingerprint, other);
    Unbound(states, ops, identity, fingerprint, 2);
  }

  /** Trust on first use holds for an identity and fingerprint exactly if their entry fits a line. */
  lemma FirstUseExactly(identity: string, fingerprint: string)
    ensures FirstUseBinds(identity, fingerprint) <==> FitsLine(identity, fingerprint)
  {
    if FitsLine(identity, fingerprint) {
      FittingBinds(identity, fingerprint);
    } else {
      UnfitUnbound(identity, fingerprint);
    }
  }

  /** It does happen: "a b" is trusted with one fingerprint and, after a restart, with another. */
  lemma TrustedAfresh() returns (states: seq<Store>, ops: seq<Op>)
    ensures Trace(states, ops) && ops == [Op.Check("a b", "one", true), Restart, Op.Check("a b", "two", true)]
    ensures Accepts(states[0].mem, "a b", "one") && Accepts(states[2].mem, "a b", "two")
  {
    states, ops := PinRestartCheck("a b", "one", "two");
    assert "a b"[1] == ' ' && ' ' in "a b";
    SpacedIdentityForgotten(states[1].file, "a b", "two");
  }
}
