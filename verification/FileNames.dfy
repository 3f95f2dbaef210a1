/** Reducing a name a peer supplies to one that stays in the download directory. */
module FileNames {
  import opened Wrappers
  import opened Chars
  import opened FileErrors

  const BACKSLASH := 0x5C as char
  const NUL := 0 as char

  predicate Separator(c: char) {
    c == '/' || c == BACKSLASH || c == ':'
  }

  /** The last component of a path under any of the separators. */
  function Base(name: string): (base: string)
    ensures |base| <= |name| && forall c <- base :: !Separator(c)
    decreases |name|
  {
    if name == [] || Separator(name[|name| - 1]) then [] else Base(name[..|name| - 1]) + [name[|name| - 1]]
  }

  /** The twenty-two device names of Windows: CON, PRN, AUX, NUL, COM1 to COM9 and LPT1 to LPT9. */
  predicate Reserved(stem: string) {
    || stem == "CON" || stem == "PRN" || stem == "AUX" || stem == "NUL"
    || (|stem| == 4 && (stem[..3] == "COM" || stem[..3] == "LPT") && '1' <= stem[3] <= '9')
  }

  function SanitizeFilename(name: string): Result<string, FileError> {
    var base := Base(name);
    if base == "" || base == "." || base == ".." then Err(InvalidName(name))
    else if exists c <- base :: Separator(c) || c == NUL || IsControl(c) then Err(InvalidName(name))
    else if Trim(base) == "" || base[0] == '.' || base[|base| - 1] == '.' || base[|base| - 1] == ' ' then
      Err(InvalidName(name))
    else if Reserved(AsciiUpper(Before(base, '.'))) then Err(InvalidName(name))
    else Ok(base)
  }

  // --- What a name that passes looks like -------------------------------------------------------

  /** A name that means just a file in whatever directory it is joined to. */
  predicate SafeName(s: string) {
    && s != []
    && s[0] != '.'
    && s[|s| - 1] != '.' && s[|s| - 1] != ' '
    && (forall c <- s :: !Separator(c) && !IsControl(c))
    && (exists c <- s :: !IsWhitespace(c))
    && !Reserved(AsciiUpper(Before(s, '.')))
  }

  /** `base` is what stands after the last separator. */
  ghost predicate IsBase(name: string, base: string) {
    exists dirs: string :: name == dirs + base && (dirs == [] || Separator(dirs[|dirs| - 1])) && forall c <- base :: !Separator(c)
  }

  lemma {:induction false} BaseSplits(name: string) returns (dirs: string)
    ensures name == dirs + Base(name) && (dirs == [] || Separator(dirs[|dirs| - 1]))
    decreases |name|
  {
    if name == [] || Separator(name[|name| - 1]) {
      dirs := name;
    } else {
      dirs := BaseSplits(name[..|name| - 1]);
    }
  }

  lemma {:induction false} BaseOf(dirs: string, base: string)
    requires dirs == [] || Separator(dirs[|dirs| - 1])
    requires forall c <- base :: !Separator(c)
    ensures Base(dirs + base) == base
    decreases |base|
  {
    if base == [] {
      assert dirs + base == dirs;
    } else {
      var front := base[..|base| - 1];
      assert (dirs + base)[..|dirs + base| - 1] == dirs + front;
      assert base[|base| - 1] in base;
      BaseOf(dirs, front);
    }
  }

  lemma BaseExactly(name: string, base: string)
    ensures Base(name) == base <==> IsBase(name, base)
  {
    var dirs := BaseSplits(name);
    if IsBase(name, base) {
      var before: string :| name == before + base && (before == [] || Separator(before[|before| - 1]))
                            && forall c <- base :: !Separator(c);
      BaseOf(before, base);
    }
  }

  /** A name passes exactly if its last component is safe, and that component is what comes out. */
  lemma SanitizeExactly(name: string, safe: string)
    ensures SanitizeFilename(name) == Ok(safe) <==> SafeName(safe) && IsBase(name, safe)
  {
    BaseExactly(name, safe);
    TrimBlank(Base(name));
    if Base(name) == safe && SafeName(safe) {
      assert safe[0] in safe;
    }
  }

  /** What comes out goes through unchanged. */
  lemma SanitizeTwice(name: string)
    requires SanitizeFilename(name).Ok?
    ensures SanitizeFilename(SanitizeFilename(name).value) == SanitizeFilename(name)
  {
    var safe := SanitizeFilename(name).value;
    SanitizeExactly(name, safe);
    assert safe == "" + safe;
    SanitizeExactly(safe, safe);
  }

  lemma ReservedLetters(s: string, i: nat)
    requires Reserved(s) && i < |s|
    ensures 'A' <= s[i] <= 'Z' || '1' <= s[i] <= '9'
  {
    if |s| == 4 && i < 3 {
      assert s[i] == s[..3][i];
    }
  }

  lemma DeviceLetters(device: string)
    requires Reserved(AsciiUpper(device))
    ensures forall c <- device :: !Separator(c) && c != '.'
  {
    forall i | 0 <= i < |device| ensures !Separator(device[i]) && device[i] != '.' {
      ReservedLetters(AsciiUpper(device), i);
    }
  }

  lemma DeviceStemRefused(name: string)
    requires Reserved(AsciiUpper(Before(Base(name), '.')))
    ensures SanitizeFilename(name).Err?
  {
  }

  /** A device name is refused in any case and with any extension, behind any directories. */
  lemma DevicesRefused(dirs: string, device: string, extension: string)
    requires dirs == [] || Separator(dirs[|dirs| - 1])
    requires Reserved(AsciiUpper(device)) && forall c <- extension :: !Separator(c)
    ensures SanitizeFilename(dirs + device).Err? && SanitizeFilename(dirs + (device + "." + extension)).Err?
  {
    DeviceLetters(device);
    BaseOf(dirs, device);
    BaseOf(dirs, device + "." + extension);
    BeforeFirst(device, '.', extension);
    assert device + ['.'] + extension == device + "." + extension;
    DeviceStemRefused(dirs + device);
    DeviceStemRefused(dirs + (device + "." + extension));
  }

  // --- In plain characters ----------------------------------------------------------------------

  predicate Device(s: string) {
    || s == "CON" || s == "PRN" || s == "AUX" || s == "NUL"
    || s == "COM1" || s == "COM2" || s == "COM3" || s == "COM4" || s == "COM5"
    || s == "COM6" || s == "COM7" || s == "COM8" || s == "COM9"
    || s == "LPT1" || s == "LPT2" || s == "LPT3" || s == "LPT4" || s == "LPT5"
    || s == "LPT6" || s == "LPT7" || s == "LPT8" || s == "LPT9"
  }

  lemma PortDevice(s: string)
    requires |s| == 4 && (s[..3] == "COM" || s[..3] == "LPT") && '1' <= s[3] <= '9'
    ensures Device(s)
  {
    var c := s[3];
    assert c in "123456789" by { assert c == "123456789"[c as int - '1' as int]; }
    assert s == s[..3] + [c];
    if s[..3] == "COM" {
      assert s == ['C', 'O', 'M', c];
    } else {
      assert s == ['L', 'P', 'T', c];
    }
  }

  lemma ReservedDevices(s: string)
    ensures Reserved(s) <==> Device(s)
  {
    if Reserved(s) && |s| == 4 {
      PortDevice(s);
    }
  }

  /** This is a device's name in capitals, small letters or a mixture. */
  predicate Spelled(s: string, device: string) {
    && |s| == |device|
    && forall i :: 0 <= i < |s| ==> s[i] == device[i] || ('A' <= device[i] <= 'Z' && s[i] as int == device[i] as int + 32)
  }

  predicate InCapitals(s: string) {
    forall i :: 0 <= i < |s| ==> 'A' <= s[i] <= 'Z' || '1' <= s[i] <= '9'
  }

  lemma DevicesInCapitals(device: string)
    requires Reserved(device)
    ensures InCapitals(device)
  {
    forall i | 0 <= i < |device| ensures 'A' <= device[i] <= 'Z' || '1' <= device[i] <= '9' {
      ReservedLetters(device, i);
    }
  }

  lemma UpperSpells(s: string, device: string)
    requires InCapitals(device)
    ensures AsciiUpper(s) == device <==> Spelled(s, device)
  {
    if Spelled(s, device) {
      assert forall i :: 0 <= i < |s| ==> AsciiUpper(s)[i] == device[i];
    }
  }

  predicate DeviceSpelled(s: string, device: string) {
    Device(device) && Spelled(s, device)
  }

  ghost predicate IsDevice(s: string) {
    exists device :: DeviceSpelled(s, device)
  }

  lemma UpperDevice(s: string)
    ensures Reserved(AsciiUpper(s)) <==> IsDevice(s)
  {
    if Reserved(AsciiUpper(s)) {
      ReservedDevices(AsciiUpper(s));
      DevicesInCapitals(AsciiUpper(s));
      UpperSpells(s, AsciiUpper(s));
      assert DeviceSpelled(s, AsciiUpper(s));
    }
    if IsDevice(s) {
      var device :| DeviceSpelled(s, device);
      ReservedDevices(device);
      DevicesInCapitals(device);
      UpperSpells(s, device);
    }
  }

  ghost predicate Extends(s: string, stem: string) {
    s == stem || exists extension: string :: s == stem + "." + extension
  }

  /** The name is a device's, or one's with an extension. */
  ghost predicate NamesDevice(s: string) {
    exists stem :: Extends(s, stem) && IsDevice(stem)
  }

  lemma StemOf(s: string) returns (rest: string)
    ensures s == Before(s, '.') + rest && (rest == "" || rest[0] == '.')
  {
    rest := s[|Before(s, '.')|..];
  }

  lemma BeforeExtends(s: string)
    ensures Extends(s, Before(s, '.'))
  {
    var rest := StemOf(s);
    if rest != "" {
      assert rest == "." + rest[1..];
      assert s == Before(s, '.') + "." + rest[1..];
    }
  }

  lemma StemBefore(s: string, stem: string)
    requires Extends(s, stem) && '.' !in stem
    ensures Before(s, '.') == stem
  {
    BeforeFirst(stem, '.', "");
    if s != stem {
      var extension: string :| s == stem + "." + extension;
      BeforeFirst(stem, '.', extension);
      assert s == stem + ['.'] + extension;
    }
  }

  lemma DeviceHasNoDot(stem: string)
    requires Reserved(AsciiUpper(stem))
    ensures '.' !in stem
  {
    DeviceLetters(stem);
  }

  lemma ReservedNamesDevice(s: string)
    ensures Reserved(AsciiUpper(Before(s, '.'))) <==> NamesDevice(s)
  {
    BeforeExtends(s);
    UpperDevice(Before(s, '.'));
    if NamesDevice(s) {
      var stem :| Extends(s, stem) && IsDevice(stem);
      UpperDevice(stem);
      DeviceHasNoDot(stem);
      StemBefore(s, stem);
    }
  }

  /** A character that can stand in a name. */
  predicate Plain(c: char) {
    c != '/' && c != 0x5C as char && c != ':' && c as int >= 0x20 && !(0x7F <= c as int <= 0x9F)
  }

  /** Which names pass as they are. */
  ghost predicate Good(s: string) {
    && s != ""
    && (forall c <- s :: Plain(c))
    && (exists c <- s :: !IsWhitespace(c))
    && s[0] != '.' && s[|s| - 1] != '.' && s[|s| - 1] != ' '
    && !NamesDevice(s)
  }

  lemma PlainCharacters(s: string)
    ensures (forall c <- s :: Plain(c)) <==> forall c <- s :: !Separator(c) && !IsControl(c)
  {
    forall c ensures Plain(c) <==> !Separator(c) && !IsControl(c) {
    }
  }

  lemma SafeIsGood(s: string)
    ensures SafeName(s) <==> Good(s)
  {
    ReservedNamesDevice(s);
    PlainCharacters(s);
  }

  /** What comes out of a name is what stands behind the last slash, backslash or colon, if that is good by itself. */
  lemma PassesIfGood(dirs: string, base: string)
    requires forall c <- base :: c != '/' && c != 0x5C as char && c != ':'
    requires dirs == "" || dirs[|dirs| - 1] == '/' || dirs[|dirs| - 1] == 0x5C as char || dirs[|dirs| - 1] == ':'
    ensures SanitizeFilename(dirs + base) == if Good(base) then Ok(base) else Err(InvalidName(dirs + base))
  {
    SafeIsGood(base);
    BaseOf(dirs, base);
    SanitizeExactly(dirs + base, base);
    BaseExactly(dirs + base, base);
  }

  lemma HyphenedUnreserved(stem: string, i: nat)
    requires i < |stem| && stem[i] == '-'
    ensures !Reserved(AsciiUpper(stem))
  {
    if Reserved(AsciiUpper(stem)) {
      ReservedLetters(AsciiUpper(stem), i);
    }
  }

  lemma HyphenUnreserved(front: string, name: string)
    requires '.' !in front
    ensures !Reserved(AsciiUpper(Before(front + "-" + name, '.')))
  {
    BeforeBehind(front, "-" + name, '.');
    assert front + ("-" + name) == front + "-" + name;
    HyphenedUnreserved(Before(front + "-" + name, '.'), |front|);
  }

  predicate Digits(s: string) {
    forall c <- s :: '0' <= c <= '9'
  }

  lemma SafeParts(digits: string, name: string)
    requires Digits(digits) && digits != "" && SafeName(name)
    ensures forall c <- digits + "-" + name :: !Separator(c) && !IsControl(c)
    ensures exists c <- digits + "-" + name :: !IsWhitespace(c)
  {
    assert digits[0] in digits + "-" + name;
  }

  lemma NumberedEnds(digits: string, name: string)
    requires Digits(digits) && digits != "" && name != ""
    ensures var s := digits + "-" + name; s[0] != '.' && s[|s| - 1] == name[|name| - 1]
  {
    assert (digits + "-" + name)[0] == digits[0] && digits[0] in digits;
  }

  /** A safe name behind a number and a hyphen is safe. */
  lemma NumberedSafe(digits: string, name: string)
    requires Digits(digits) && digits != "" && SafeName(name)
    ensures SafeName(digits + "-" + name)
  {
    SafeParts(digits, name);
    HyphenUnreserved(digits, name);
    NumberedEnds(digits, name);
  }
}
