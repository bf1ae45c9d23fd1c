/**
  The hash-pinned Python lock file: the line parser of the dependency gate, against a
  grammar of lock files, and the normalization of package names (PEP 503).
 */
module PythonLock {
  import opened Texts
  import opened PyStrings

  // ----- characters -----

  predicate IsAlnum(c: int) {
    IsLetter(c) || IsDigit(c)
  }

  predicate IsSeparator(c: int) {
    c == '-' as int || c == '_' as int || c == '.' as int
  }

  const BACKSLASH: int := '\\' as int
  const EQUALS: int := '=' as int
  const HASHMARK: int := '#' as int
  const DASH: int := '-' as int

  // ----- package names -----

  /** [A-Za-z0-9](?:[A-Za-z0-9._-]*[A-Za-z0-9])? */
  predicate IsName(t: Text) {
    && t != [] && IsAlnum(t[0]) && IsAlnum(t[|t| - 1])
    && forall i :: 0 <= i < |t| ==> IsAlnum(t[i]) || IsSeparator(t[i])
  }

  /** PEP 503: runs of separators become one hyphen, letters become lower case. */
  function Normalize(t: Text): (r: Text)
    ensures |r| <= |t| && (t != [] ==> r != [])
  {
    if t == [] then []
    else if !IsSeparator(t[0]) then [LowerOne(t[0])] + Normalize(t[1..])
    else if |t| > 1 && IsSeparator(t[1]) then Normalize(t[1..])
    else [DASH] + Normalize(t[1..])
  }

  /** The shape of a normalized name: lower case, hyphens the only separators and never two together. */
  predicate IsNormal(t: Text) {
    && (forall i :: 0 <= i < |t| ==> (IsSeparator(t[i]) ==> t[i] == DASH) && LowerOne(t[i]) == t[i])
    && (forall i :: 0 <= i < |t| - 1 ==> !(t[i] == DASH && t[i + 1] == DASH))
  }

  lemma {:induction false} NormalizeHead(t: Text)
    requires t != []
    ensures Normalize(t)[0] == DASH <==> IsSeparator(t[0])
  {
    if |t| > 1 && IsSeparator(t[0]) && IsSeparator(t[1]) {
      NormalizeHead(t[1..]);
    }
  }

  lemma {:induction false} NormalizeIsNormal(t: Text)
    ensures IsNormal(Normalize(t))
  {
    if t != [] {
      NormalizeIsNormal(t[1..]);
      if t[1..] != [] {
        NormalizeHead(t[1..]);
      }
      var r, rest := Normalize(t), Normalize(t[1..]);
      if r != rest {
        forall i | 0 <= i < |r| ensures (IsSeparator(r[i]) ==> r[i] == DASH) && LowerOne(r[i]) == r[i] {
          if i > 0 {
            assert r[i] == rest[i - 1];
          }
        }
        forall i | 0 <= i < |r| - 1 ensures !(r[i] == DASH && r[i + 1] == DASH) {
          assert r[i + 1] == rest[i];
          if i > 0 {
            assert r[i] == rest[i - 1];
          }
        }
      }
    }
  }

  lemma {:induction false} NormalIsFixed(t: Text)
    requires IsNormal(t)
    ensures Normalize(t) == t
  {
    if t != [] {
      var rest := t[1..];
      assert forall i :: 0 <= i < |rest| ==> rest[i] == t[i + 1];
      assert forall i :: 0 <= i < |rest| - 1 ==> !(rest[i] == DASH && rest[i + 1] == DASH);
      NormalIsFixed(rest);
      assert t == [t[0]] + rest;
      if IsSeparator(t[0]) && |t| > 1 {
        assert t[1] != DASH;
      }
    }
  }

  /** Normalizing twice is normalizing once. */
  lemma NormalizeIdempotent(t: Text)
    ensures Normalize(Normalize(t)) == Normalize(t)
  {
    NormalizeIsNormal(t);
    NormalIsFixed(Normalize(t));
  }

  // ----- versions: [0-9]+(?:\.[0-9]+)*(?:(?:a|b|rc|\.post|\.dev)[0-9]+)* -----

  function SkipDigits(t: Text, i: nat): (j: nat)
    requires i <= |t|
    ensures i <= j <= |t|
    ensures forall k :: i <= k < j ==> IsDigit(t[k])
    ensures j < |t| ==> !IsDigit(t[j])
    decreases |t| - i
  {
    if i < |t| && IsDigit(t[i]) then SkipDigits(t, i + 1) else i
  }

  predicate At(t: Text, i: nat, word: string) {
    i + |word| <= |t| && forall k :: 0 <= k < |word| ==> t[i + k] == word[k] as int
  }

  function TagLength(t: Text, i: nat): (n: nat)
    requires i <= |t|
    ensures i + n <= |t|
  {
    if At(t, i, "a") || At(t, i, "b") then 1
    else if At(t, i, "rc") then 2
    else if At(t, i, ".post") then 5
    else if At(t, i, ".dev") then 4
    else 0
  }

  lemma WordHasNoSpace(t: Text, i: nat, word: string)
    requires At(t, i, word) && ' ' !in word
    ensures forall k :: i <= k < i + |word| ==> t[k] != SPACE
  {
    forall k | i <= k < i + |word| ensures t[k] != SPACE {
      assert t[i + (k - i)] == word[k - i] as int;
    }
  }

  lemma TagHasNoSpace(t: Text, i: nat)
    requires i <= |t|
    ensures forall k :: i <= k < i + TagLength(t, i) ==> t[k] != SPACE
  {
    if At(t, i, "a") {
      WordHasNoSpace(t, i, "a");
    } else if At(t, i, "b") {
      WordHasNoSpace(t, i, "b");
    } else if At(t, i, "rc") {
      WordHasNoSpace(t, i, "rc");
    } else if At(t, i, ".post") {
      WordHasNoSpace(t, i, ".post");
    } else if At(t, i, ".dev") {
      WordHasNoSpace(t, i, ".dev");
    }
  }

  predicate Suffixes(t: Text, i: nat)
    requires i <= |t|
    decreases |t| - i
  {
    i == |t| || (
      var n := TagLength(t, i);
      n > 0 && SkipDigits(t, i + n) > i + n && Suffixes(t, SkipDigits(t, i + n)))
  }

  predicate ReleaseParts(t: Text, i: nat)
    requires i <= |t|
    decreases |t| - i
  {
    if i + 1 < |t| && t[i] == '.' as int && IsDigit(t[i + 1]) then ReleaseParts(t, SkipDigits(t, i + 1))
    else Suffixes(t, i)
  }

  predicate IsVersion(t: Text) {
    SkipDigits(t, 0) > 0 && ReleaseParts(t, SkipDigits(t, 0))
  }

  lemma {:induction false} SuffixesHaveNoSpace(t: Text, i: nat)
    requires i <= |t| && Suffixes(t, i)
    ensures forall k :: i <= k < |t| ==> t[k] != SPACE
    decreases |t| - i
  {
    if i < |t| {
      TagHasNoSpace(t, i);
      SuffixesHaveNoSpace(t, SkipDigits(t, i + TagLength(t, i)));
    }
  }

  lemma {:induction false} PartsHaveNoSpace(t: Text, i: nat)
    requires i <= |t| && ReleaseParts(t, i)
    ensures forall k :: i <= k < |t| ==> t[k] != SPACE
    decreases |t| - i
  {
    if i + 1 < |t| && t[i] == '.' as int && IsDigit(t[i + 1]) {
      PartsHaveNoSpace(t, SkipDigits(t, i + 1));
    } else {
      SuffixesHaveNoSpace(t, i);
    }
  }

  lemma VersionHasNoSpace(t: Text)
    requires IsVersion(t)
    ensures t != [] && SPACE !in t
  {
    PartsHaveNoSpace(t, SkipDigits(t, 0));
  }

  // ----- entry lines -----

  predicate IsMarkerCharacter(c: int) {
    || IsAlnum(c) || c == '_' as int || c == SPACE || c == '.' as int || c == '\'' as int || c == '<' as int
    || c == '>' as int || c == EQUALS || c == '!' as int || c == '"' as int || c == DASH
  }

  predicate IsMarker(t: Text) {
    t != [] && forall i :: 0 <= i < |t| ==> IsMarkerCharacter(t[i])
  }

  datatype Pin = Pin(name: Text, version: Text)

  const MARK: Text := [SPACE, ';' as int, SPACE]
  const MORE: Text := [SPACE, BACKSLASH]

  function MarkerText(marker: Option<Text>): Text {
    if marker.Some? then MARK + marker.value else []
  }

  /** The text of an entry line: name==version, perhaps a marker, and the continuation. */
  function EntryText(pin: Pin, marker: Option<Text>): Text {
    pin.name + ([EQUALS, EQUALS] + (pin.version + (MarkerText(marker) + MORE)))
  }

  predicate IsPin(pin: Pin) {
    IsName(pin.name) && IsVersion(pin.version)
  }

  predicate MarkerAllowed(marker: Option<Text>) {
    marker.Some? ==> IsMarker(marker.value)
  }

  /** What follows the name: version, perhaps a marker, and the continuation. */
  function ParseTail(rest: Text): (r: Option<Text>) {
    if |rest| < 2 || rest[|rest| - 2..] != MORE then None
    else
      var core := rest[..|rest| - 2];
      var j := IndexOf(core, SPACE);
      if IsVersion(core[..j]) && (j < |core| ==> j + 3 <= |core| && core[j..j + 3] == MARK && IsMarker(core[j + 3..]))
      then Some(core[..j]) else None
  }

  /** LOCK_ENTRY_RE.fullmatch on a stripped line. */
  function ParseEntry(s: Text): (r: Option<Pin>) {
    var i := IndexOf(s, EQUALS);
    if i + 2 > |s| || s[i + 1] != EQUALS || !IsName(s[..i]) then None
    else
      var version := ParseTail(s[i + 2..]);
      if version.Some? then Some(Pin(s[..i], version.value)) else None
  }

  lemma TailTextOf(rest: Text)
    requires ParseTail(rest).Some?
    ensures IsVersion(ParseTail(rest).value)
    ensures exists marker :: MarkerAllowed(marker) && rest == ParseTail(rest).value + (MarkerText(marker) + MORE)
  {
    hide IsVersion;
    hide IsMarker;
    hide IndexOf;
    var core := rest[..|rest| - 2];
    var j := IndexOf(core, SPACE);
    assert rest == core + MORE;
    if j < |core| {
      var marker := Some(core[j + 3..]);
      assert core == core[..j] + MarkerText(marker);
      assert MarkerAllowed(marker) && rest == ParseTail(rest).value + (MarkerText(marker) + MORE);
    } else {
      assert core == core[..j] + MarkerText(None);
      assert MarkerAllowed(None) && rest == ParseTail(rest).value + (MarkerText(None) + MORE);
    }
  }

  lemma TailTextParses(version: Text, marker: Option<Text>)
    requires IsVersion(version) && MarkerAllowed(marker)
    ensures ParseTail(version + (MarkerText(marker) + MORE)) == Some(version)
  {
    hide IndexOf;
    hide MarkerText;
    hide IsVersion;
    hide IsMarker;
    VersionHasNoSpace(version);
    var rest := version + (MarkerText(marker) + MORE);
    var core := rest[..|rest| - 2];
    assert rest[|rest| - 2..] == MORE;
    assert core == version + MarkerText(marker);
    MarkerSpace(marker);
    IndexFound(version, SPACE, MarkerText(marker));
    var j := |version|;
    assert core[..j] == version;
    if marker.Some? {
      assert core[j..] == MARK + marker.value;
      assert core[j..j + 3] == core[j..][..3] == MARK && core[j + 3..] == core[j..][3..] == marker.value;
    }
  }

  lemma MarkerSpace(marker: Option<Text>)
    ensures MarkerText(marker) == (if marker.Some? then MARK + marker.value else [])
    ensures marker.Some? ==> MarkerText(marker) != [] && MarkerText(marker)[0] == SPACE
  {
  }

  /** The parser recognizes exactly the entry texts, and reads the pin back. */
  lemma ParseEntryExactly(s: Text, pin: Pin)
    ensures ParseEntry(s) == Some(pin) <==>
      IsPin(pin) && exists marker :: MarkerAllowed(marker) && s == EntryText(pin, marker)
  {
    hide IsVersion;
    hide IsName;
    if ParseEntry(s) == Some(pin) {
      EntryTextOf(s);
    }
    if marker :| IsPin(pin) && MarkerAllowed(marker) && s == EntryText(pin, marker) {
      EntryTextParses(pin, marker);
    }
  }

  lemma EntryTextOf(s: Text)
    requires ParseEntry(s).Some?
    ensures IsPin(ParseEntry(s).value)
    ensures exists marker :: MarkerAllowed(marker) && s == EntryText(ParseEntry(s).value, marker)
  {
    hide IsVersion;
    hide IsName;
    hide ParseTail;
    hide MarkerAllowed;
    hide MarkerText;
    var i := IndexOf(s, EQUALS);
    var rest := s[i + 2..];
    TailTextOf(rest);
    var marker :| MarkerAllowed(marker) && rest == ParseTail(rest).value + (MarkerText(marker) + MORE);
    assert s == s[..i] + ([EQUALS, EQUALS] + rest);
    assert s == EntryText(ParseEntry(s).value, marker);
  }

  lemma NameHasNoEquals(t: Text)
    requires IsName(t)
    ensures EQUALS !in t
  {
  }

  lemma EntryTextParses(pin: Pin, marker: Option<Text>)
    requires IsPin(pin) && MarkerAllowed(marker)
    ensures ParseEntry(EntryText(pin, marker)) == Some(pin)
  {
    hide IsVersion;
    hide IsName;
    hide ParseTail;
    hide MarkerAllowed;
    hide MarkerText;
    NameHasNoEquals(pin.name);
    var s := EntryText(pin, marker);
    var tail := pin.version + (MarkerText(marker) + MORE);
    var i := |pin.name|;
    assert ([EQUALS, EQUALS] + tail)[0] == EQUALS;
    IndexFound(pin.name, EQUALS, [EQUALS, EQUALS] + tail);
    assert s[..i] == pin.name && s[i + 1] == EQUALS && s[i + 2..] == tail;
    TailTextParses(pin.version, marker);
  }

  // ----- hash lines -----

  const HASH_PREFIX: Text := U("--hash=sha256:")

  /** HASH_RE.fullmatch on a stripped line: None, or whether the line continues. */
  function ParseHash(s: Text): (r: Option<bool>) {
    if |s| < 78 || s[..14] != HASH_PREFIX || !(forall i :: 14 <= i < 78 ==> IsLowerHex(s[i])) then None
    else if |s| == 78 then Some(false)
    else if s[78..] == MORE then Some(true)
    else None
  }

  const INDENT: Text := [SPACE, SPACE, SPACE, SPACE]

  function HashText(digest: Text, more: bool): Text {
    HASH_PREFIX + digest + (if more then MORE else [])
  }

  predicate IsDigest(t: Text) {
    IsHexText(t, 64)
  }

  lemma ParseHashExactly(s: Text, more: bool)
    ensures ParseHash(s) == Some(more) <==> exists digest :: IsDigest(digest) && s == HashText(digest, more)
  {
    assert |HASH_PREFIX| == 14;
    hide U;
    if ParseHash(s) == Some(more) {
      var digest := s[14..78];
      assert s == HASH_PREFIX + digest + (if more then MORE else []);
      assert IsDigest(digest);
    }
    if digest :| IsDigest(digest) && s == HashText(digest, more) {
      assert s[..14] == HASH_PREFIX;
      forall i | 14 <= i < 78 ensures IsLowerHex(s[i]) {
        assert s[i] == digest[i - 14];
      }
      if more {
        assert s[78..] == MORE;
      }
    }
  }

  // ----- the line loop -----

  datatype Entry = Entry(version: Text, hashes: nat)

  datatype Problem =
    | HeaderMissing
    | NoHash(name: Text)
    | ExpectedHash(line: nat)
    | Indented(line: nat)
    | Unsupported(line: nat)
    | Duplicate(line: nat, name: Text)
    | Truncated

  predicate IsFiller(raw: Text) {
    Strip(raw) == [] || Strip(raw)[0] == HASHMARK
  }

  /** A hash line: four spaces, the digest, and whether another line follows. */
  predicate IsHashLine(raw: Text, more: bool) {
    ParseHash(Strip(raw)) == Some(more) && INDENT <= raw
  }

  predicate IsEntryLine(raw: Text) {
    !IsFiller(raw) && raw != [] && !IsSpace(raw[0]) && ParseEntry(Strip(raw)).Some?
  }

  function PinOf(raw: Text): (pin: Pin) {
    var r := ParseEntry(Strip(raw));
    if r.Some? then r.value else Pin([], [])
  }

  function NameAt(raw: Text): Text {
    Normalize(PinOf(raw).name)
  }

  datatype State = State(
    entries: map<Text, Entry>, errors: seq<Problem>, current: Option<Text>, version: Text, hashes: nat, expecting: bool)

  const START: State := State(map[], [], None, [], 0, false)

  /** The nested close(). */
  function Close(s: State): (r: State) {
    if s.current.None? then s
    else s.(errors := s.errors + (if s.hashes == 0 then [NoHash(s.current.value)] else []),
            entries := s.entries[s.current.value := Entry(s.version, s.hashes)])
  }

  /** What one line does to the parser's variables. */
  function Step(s: State, number: nat, raw: Text): (r: State) {
    if s.expecting then
      if IsHashLine(raw, false) || IsHashLine(raw, true) then s.(hashes := s.hashes + 1, expecting := IsHashLine(raw, true))
      else s.(errors := s.errors + [ExpectedHash(number)], expecting := false)
    else if IsFiller(raw) then s
    else if raw == [] || IsSpace(raw[0]) then s.(errors := s.errors + [Indented(number)])
    else if ParseEntry(Strip(raw)).None? then s.(errors := s.errors + [Unsupported(number)])
    else
      var c, name := Close(s), NameAt(raw);
      if name in c.entries then
        c.(errors := c.errors + [Duplicate(number, name)], current := None, expecting := true, hashes := 0)
      else c.(current := Some(name), version := PinOf(raw).version, hashes := 0, expecting := true)
  }

  /** The state after some lines, numbered from offset + 1. */
  function RunFrom(s: State, offset: nat, lines: seq<Text>): (r: State) {
    if lines == [] then s
    else
      var n := |lines| - 1;
      Step(RunFrom(s, offset, lines[..n]), offset + n + 1, lines[n])
  }

  function Finish(s: State): (r: State) {
    Close(if s.expecting then s.(errors := s.errors + [Truncated]) else s)
  }

  function Outcome(header: bool, lines: seq<Text>): (r: State) {
    Finish(RunFrom(START.(errors := if header then [] else [HeaderMissing]), 0, lines))
  }

  /** parse_lock over the lines of the file; the flag tells whether the regenerate command is in the text. */
  method ParseLock(header: bool, lines: seq<Text>) returns (entries: map<Text, Entry>, errors: seq<Problem>)
    ensures entries == Outcome(header, lines).entries && errors == Outcome(header, lines).errors
  {
    hide IsFiller;
    hide IsHashLine;
    hide ParseEntry;
    hide NameAt;
    entries, errors := map[], if header then [] else [HeaderMissing];
    var current: Option<Text>, version: Text, hashes: nat, expecting := None, [], 0, false;
    ghost var start := START.(errors := errors);
    for number := 0 to |lines|
      invariant State(entries, errors, current, version, hashes, expecting) == RunFrom(start, 0, lines[..number])
    {
      var raw := lines[number];
      assert lines[..number + 1][..number] == lines[..number];
      if expecting {
        if !IsHashLine(raw, false) && !IsHashLine(raw, true) {
          errors, expecting := errors + [ExpectedHash(number + 1)], false;
          continue;
        }
        hashes, expecting := hashes + 1, IsHashLine(raw, true);
        continue;
      }
      if IsFiller(raw) {
        continue;
      }
      if raw == [] || IsSpace(raw[0]) {
        errors := errors + [Indented(number + 1)];
        continue;
      }
      if ParseEntry(Strip(raw)).None? {
        errors := errors + [Unsupported(number + 1)];
        continue;
      }
      if current.Some? {
        errors := errors + if hashes == 0 then [NoHash(current.value)] else [];
        entries := entries[current.value := Entry(version, hashes)];
      }
      var name := NameAt(raw);
      if name in entries {
        errors := errors + [Duplicate(number + 1, name)];
        current, expecting, hashes := None, true, 0;
        continue;
      }
      current, version, hashes, expecting := Some(name), PinOf(raw).version, 0, true;
    }
    assert lines[..|lines|] == lines;
    if expecting {
      errors := errors + [Truncated];
    }
    if current.Some? {
      errors := errors + if hashes == 0 then [NoHash(current.value)] else [];
      entries := entries[current.value := Entry(version, hashes)];
    }
  }

  // ----- the grammar of lock files -----

  /** An entry line, its hash lines, and the blank or comment lines after them. */
  datatype Block = Block(line: Text, hashes: seq<Text>, filler: seq<Text>)
  {
    function Name(): Text { NameAt(line) }
    function Lines(): seq<Text> { [line] + hashes + filler }

    /** At least one hash line, each but the last continued. */
    predicate Complete() {
      && IsEntryLine(line) && |hashes| > 0
      && (forall i :: 0 <= i < |hashes| ==> IsHashLine(hashes[i], i < |hashes| - 1))
      && forall i :: 0 <= i < |filler| ==> IsFiller(filler[i])
    }

    /** A block whose next line must be a hash. */
    predicate Open() {
      IsEntryLine(line) && filler == [] && forall i :: 0 <= i < |hashes| ==> IsHashLine(hashes[i], true)
    }
  }

  function Flatten(leading: seq<Text>, blocks: seq<Block>): (lines: seq<Text>) {
    if blocks == [] then leading
    else Flatten(leading, blocks[..|blocks| - 1]) + blocks[|blocks| - 1].Lines()
  }

  /** Blank and comment lines, then complete blocks with distinct normalized names; the last block may be open. */
  predicate IsLock(leading: seq<Text>, blocks: seq<Block>, open: bool) {
    && (forall i :: 0 <= i < |leading| ==> IsFiller(leading[i]))
    && (open ==> blocks != [] && blocks[|blocks| - 1].Open())
    && (forall i :: 0 <= i < |blocks| - (if open then 1 else 0) ==> blocks[i].Complete())
    && forall i, j :: 0 <= i < j < |blocks| ==> blocks[i].Name() != blocks[j].Name()
  }

  function EntriesOf(blocks: seq<Block>): (m: map<Text, Entry>)
    ensures forall name :: name in m <==> exists i :: 0 <= i < |blocks| && blocks[i].Name() == name
  {
    if blocks == [] then map[]
    else
      var n := |blocks| - 1;
      var m := EntriesOf(blocks[..n]);
      assert forall i :: 0 <= i < n ==> blocks[..n][i] == blocks[i];
      m[blocks[n].Name() := Entry(PinOf(blocks[n].line).version, |blocks[n].hashes|)]
  }

  /** Where the parser stands after reading the blocks without complaint. */
  function StateAfter(blocks: seq<Block>, open: bool): (s: State) {
    if blocks == [] then START
    else
      var n := |blocks| - 1;
      State(EntriesOf(blocks[..n]), [], Some(blocks[n].Name()), PinOf(blocks[n].line).version, |blocks[n].hashes|, open)
  }

  // ----- no errors exactly on lock files -----

  lemma FlattenSnoc(leading: seq<Text>, blocks: seq<Block>, b: Block)
    ensures Flatten(leading, blocks + [b]) == Flatten(leading, blocks) + b.Lines()
  {
    assert (blocks + [b])[..|blocks|] == blocks;
  }

  /** The last block's entry is added last. */
  lemma LastEntry(blocks: seq<Block>)
    requires blocks != []
    ensures var n := |blocks| - 1;
      EntriesOf(blocks) == EntriesOf(blocks[..n])[blocks[n].Name() := Entry(PinOf(blocks[n].line).version, |blocks[n].hashes|)]
  {
    hide NameAt;
    hide PinOf;
  }

  /** Closing the last block records it. */
  lemma CloseRecords(blocks: seq<Block>)
    requires blocks != [] ==> |blocks[|blocks| - 1].hashes| > 0
    ensures Close(StateAfter(blocks, false)).entries == EntriesOf(blocks) && Close(StateAfter(blocks, false)).errors == []
  {
  }

  lemma {:induction false} LastLine(leading: seq<Text>, blocks: seq<Block>, b: Block, b': Block, raw: Text)
    requires blocks != [] && blocks[|blocks| - 1] == b && b'.Lines() == b.Lines() + [raw]
    ensures Flatten(leading, blocks[..|blocks| - 1] + [b']) == Flatten(leading, blocks) + [raw]
  {
    FlattenSnoc(leading, blocks[..|blocks| - 1], b');
  }

  /** The blocks with one more hash line in the last. */
  function WithHash(blocks: seq<Block>, raw: Text): (blocks': seq<Block>)
    requires blocks != []
    ensures |blocks'| == |blocks|
  {
    var n := |blocks| - 1;
    blocks[..n] + [blocks[n].(hashes := blocks[n].hashes + [raw])]
  }

  lemma HashState(blocks: seq<Block>, number: nat, raw: Text)
    requires blocks != [] && (IsHashLine(raw, false) || IsHashLine(raw, true))
    ensures Step(StateAfter(blocks, true), number, raw) == StateAfter(WithHash(blocks, raw), IsHashLine(raw, true))
  {
    hide IsFiller;
    hide IsHashLine;
    hide ParseEntry;
    hide NameAt;
    hide PinOf;
    hide EntriesOf;
    var n := |blocks| - 1;
    assert WithHash(blocks, raw)[..n] == blocks[..n];
  }

  lemma HashLines(leading: seq<Text>, blocks: seq<Block>, raw: Text)
    requires blocks != [] && blocks[|blocks| - 1].filler == []
    ensures Flatten(leading, WithHash(blocks, raw)) == Flatten(leading, blocks) + [raw]
  {
    var b := blocks[|blocks| - 1];
    var b' := b.(hashes := b.hashes + [raw]);
    assert b'.Lines() == b.Lines() + [raw];
    LastLine(leading, blocks, b, b', raw);
  }

  lemma HashBlock(b: Block, raw: Text)
    requires b.Open() && (IsHashLine(raw, false) || IsHashLine(raw, true))
    ensures var b' := b.(hashes := b.hashes + [raw]); if IsHashLine(raw, true) then b'.Open() else b'.Complete()
  {
    hide IsFiller;
    hide IsHashLine;
    hide IsEntryLine;
    var b' := b.(hashes := b.hashes + [raw]);
    assert forall i :: 0 <= i < |b.hashes| ==> b'.hashes[i] == b.hashes[i];
  }

  /** A hash line extends the open block, and closes it when it is not continued. */
  lemma StepHash(leading: seq<Text>, blocks: seq<Block>, number: nat, raw: Text) returns (blocks': seq<Block>, open': bool)
    requires IsLock(leading, blocks, true) && (IsHashLine(raw, false) || IsHashLine(raw, true))
    ensures IsLock(leading, blocks', open') && Flatten(leading, blocks') == Flatten(leading, blocks) + [raw]
    ensures Step(StateAfter(blocks, true), number, raw) == StateAfter(blocks', open')
  {
    hide IsFiller;
    hide IsHashLine;
    hide IsEntryLine;
    hide NameAt;
    hide PinOf;
    hide Step;
    hide StateAfter;
    hide Flatten;
    blocks', open' := WithHash(blocks, raw), IsHashLine(raw, true);
    HashState(blocks, number, raw);
    HashLines(leading, blocks, raw);
    HashBlock(blocks[|blocks| - 1], raw);
    NamesKept(blocks, blocks');
  }

  lemma NamesKept(blocks: seq<Block>, blocks': seq<Block>)
    requires |blocks| == |blocks'| && forall i :: 0 <= i < |blocks| ==> blocks[i].Name() == blocks'[i].Name()
    requires forall i, j :: 0 <= i < j < |blocks| ==> blocks[i].Name() != blocks[j].Name()
    ensures forall i, j :: 0 <= i < j < |blocks'| ==> blocks'[i].Name() != blocks'[j].Name()
  {
    hide NameAt;
  }

  lemma StepFiller(leading: seq<Text>, blocks: seq<Block>, number: nat, raw: Text) returns (leading': seq<Text>, blocks': seq<Block>)
    requires IsLock(leading, blocks, false) && IsFiller(raw)
    ensures IsLock(leading', blocks', false) && Flatten(leading', blocks') == Flatten(leading, blocks) + [raw]
    ensures Step(StateAfter(blocks, false), number, raw) == StateAfter(blocks', false)
  {
    hide IsFiller;
    hide IsHashLine;
    hide IsEntryLine;
    hide ParseEntry;
    hide NameAt;
    hide PinOf;
    hide EntriesOf;
    if blocks == [] {
      leading', blocks' := leading + [raw], [];
    } else {
      leading', blocks' := leading, Trailing(leading, blocks, raw);
    }
  }

  /** The blocks with one more blank or comment line at the end. */
  function Trailing(leading: seq<Text>, blocks: seq<Block>, raw: Text): (blocks': seq<Block>)
    requires blocks != [] && IsLock(leading, blocks, false) && IsFiller(raw)
    ensures IsLock(leading, blocks', false) && Flatten(leading, blocks') == Flatten(leading, blocks) + [raw]
    ensures blocks' != [] && StateAfter(blocks', false) == StateAfter(blocks, false)
  {
    hide IsFiller;
    hide IsHashLine;
    hide IsEntryLine;
    hide NameAt;
    hide PinOf;
    hide EntriesOf;
    var n := |blocks| - 1;
    var b := blocks[n];
    var b' := b.(filler := b.filler + [raw]);
    var blocks' := blocks[..n] + [b'];
    assert blocks'[..n] == blocks[..n];
    assert b'.Lines() == b.Lines() + [raw];
    LastLine(leading, blocks, b, b', raw);
    NamesKept(blocks, blocks');
    blocks'
  }

  lemma StepEntry(leading: seq<Text>, blocks: seq<Block>, number: nat, raw: Text) returns (blocks': seq<Block>)
    requires IsLock(leading, blocks, false) && IsEntryLine(raw) && NameAt(raw) !in EntriesOf(blocks)
    ensures IsLock(leading, blocks', true) && Flatten(leading, blocks') == Flatten(leading, blocks) + [raw]
    ensures Step(StateAfter(blocks, false), number, raw) == StateAfter(blocks', true)
  {
    hide IsFiller;
    hide IsHashLine;
    hide ParseEntry;
    hide NameAt;
    hide PinOf;
    hide EntriesOf;
    hide IsLock;
    hide Flatten;
    Opened(leading, blocks, raw);
    OpensAfter(leading, blocks, number, raw);
    blocks' := blocks + [Block(raw, [], [])];
  }

  lemma Opened(leading: seq<Text>, blocks: seq<Block>, raw: Text)
    requires IsLock(leading, blocks, false) && IsEntryLine(raw) && NameAt(raw) !in EntriesOf(blocks)
    ensures var blocks' := blocks + [Block(raw, [], [])];
      IsLock(leading, blocks', true) && Flatten(leading, blocks') == Flatten(leading, blocks) + [raw]
  {
    hide IsFiller;
    hide IsHashLine;
    hide IsEntryLine;
    hide NameAt;
    hide PinOf;
    hide EntriesOf;
    var b := Block(raw, [], []);
    FlattenSnoc(leading, blocks, b);
    assert b.Lines() == [raw];
  }

  lemma OpensAfter(leading: seq<Text>, blocks: seq<Block>, number: nat, raw: Text)
    requires IsLock(leading, blocks, false) && IsEntryLine(raw) && NameAt(raw) !in EntriesOf(blocks)
    ensures Step(StateAfter(blocks, false), number, raw) == StateAfter(blocks + [Block(raw, [], [])], true)
  {
    hide IsFiller;
    hide IsHashLine;
    hide ParseEntry;
    hide NameAt;
    hide PinOf;
    hide EntriesOf;
    CloseRecords(blocks);
    var blocks' := blocks + [Block(raw, [], [])];
    assert blocks'[..|blocks|] == blocks;
  }

  lemma EntryRefused(leading: seq<Text>, blocks: seq<Block>, number: nat, raw: Text)
    requires IsLock(leading, blocks, false) && IsEntryLine(raw) && NameAt(raw) in EntriesOf(blocks)
    ensures Step(StateAfter(blocks, false), number, raw).errors != []
  {
    hide IsFiller;
    hide IsHashLine;
    hide ParseEntry;
    hide NameAt;
    hide PinOf;
    CloseRecords(blocks);
  }

  /** One line read without complaint extends the grammar's reading of the file. */
  lemma Advance(leading: seq<Text>, blocks: seq<Block>, open: bool, number: nat, raw: Text)
      returns (leading': seq<Text>, blocks': seq<Block>, open': bool)
    requires IsLock(leading, blocks, open) && Step(StateAfter(blocks, open), number, raw).errors == []
    ensures IsLock(leading', blocks', open') && Flatten(leading', blocks') == Flatten(leading, blocks) + [raw]
    ensures Step(StateAfter(blocks, open), number, raw) == StateAfter(blocks', open')
  {
    hide IsFiller;
    hide IsHashLine;
    hide ParseEntry;
    hide NameAt;
    hide PinOf;
    hide EntriesOf;
    hide Flatten;
    leading', blocks', open' := leading, blocks, open;
    if open {
      blocks', open' := StepHash(leading, blocks, number, raw);
    } else if IsFiller(raw) {
      leading', blocks' := StepFiller(leading, blocks, number, raw);
    } else {
      if NameAt(raw) in EntriesOf(blocks) && IsEntryLine(raw) {
        EntryRefused(leading, blocks, number, raw);
      }
      blocks' := StepEntry(leading, blocks, number, raw);
      open' := true;
    }
  }

  /** A run without complaint has read a lock file. */
  lemma {:induction false} CleanRunIsLock(lines: seq<Text>) returns (leading: seq<Text>, blocks: seq<Block>, open: bool)
    requires RunFrom(START, 0, lines).errors == []
    ensures IsLock(leading, blocks, open) && Flatten(leading, blocks) == lines
    ensures RunFrom(START, 0, lines) == StateAfter(blocks, open)
  {
    hide Step;
    hide IsLock;
    hide StateAfter;
    if lines == [] {
      leading, blocks, open := [], [], false;
      EmptyLock();
    } else {
      var n := |lines| - 1;
      OneMoreError(lines);
      leading, blocks, open := CleanRunIsLock(lines[..n]);
      leading, blocks, open := Advance(leading, blocks, open, n + 1, lines[n]);
      assert lines == lines[..n] + [lines[n]];
    }
  }

  lemma EmptyLock()
    ensures IsLock([], [], false) && StateAfter([], false) == START
  {
  }

  lemma StepGrows(s: State, number: nat, raw: Text)
    ensures s.errors <= Step(s, number, raw).errors
  {
    hide IsFiller;
    hide IsHashLine;
    hide ParseEntry;
    hide NameAt;
  }

  lemma OneMoreError(lines: seq<Text>)
    requires lines != [] && RunFrom(START, 0, lines).errors == []
    ensures RunFrom(START, 0, lines[..|lines| - 1]).errors == []
  {
    hide Step;
    var n := |lines| - 1;
    StepGrows(RunFrom(START, 0, lines[..n]), n + 1, lines[n]);
  }

  lemma RunSnoc(lines: seq<Text>, raw: Text)
    ensures RunFrom(START, 0, lines + [raw]) == Step(RunFrom(START, 0, lines), |lines| + 1, raw)
  {
    hide Step;
    assert (lines + [raw])[..|lines|] == lines;
  }

  lemma {:induction false} RunLeading(leading: seq<Text>)
    requires forall i :: 0 <= i < |leading| ==> IsFiller(leading[i])
    ensures RunFrom(START, 0, leading) == START
  {
    hide IsFiller;
    if leading != [] {
      RunLeading(leading[..|leading| - 1]);
    }
  }

  /** The parser's way through the hash lines of a block. */
  lemma {:induction false} RunHashes(before: seq<Text>, init: seq<Block>, b: Block, i: nat)
    requires RunFrom(START, 0, before + [b.line]) == StateAfter(init + [Block(b.line, [], [])], true)
    requires b.Complete() && i <= |b.hashes|
    ensures RunFrom(START, 0, before + [b.line] + b.hashes[..i]) ==
      StateAfter(init + [Block(b.line, b.hashes[..i], [])], i < |b.hashes|)
    decreases i
  {
    hide IsFiller;
    hide ParseEntry;
    hide ParseHash;
    hide Strip;
    hide NameAt;
    hide PinOf;
    hide EntriesOf;
    hide RunFrom;
    if i == 0 {
      assert before + [b.line] + b.hashes[..0] == before + [b.line];
      assert b.hashes[..0] == [];
    } else {
      RunHashes(before, init, b, i - 1);
      var lines := before + [b.line] + b.hashes[..i - 1];
      RunSnoc(lines, b.hashes[i - 1]);
      assert lines + [b.hashes[i - 1]] == before + [b.line] + b.hashes[..i];
      var old', new' := init + [Block(b.line, b.hashes[..i - 1], [])], init + [Block(b.line, b.hashes[..i], [])];
      assert old'[..|init|] == init && new'[..|init|] == init;
      assert IsHashLine(b.hashes[i - 1], i - 1 < |b.hashes| - 1);
    }
  }

  lemma {:induction false} RunFillerLines(before: seq<Text>, s: State, filler: seq<Text>)
    requires RunFrom(START, 0, before) == s && !s.expecting && forall i :: 0 <= i < |filler| ==> IsFiller(filler[i])
    ensures RunFrom(START, 0, before + filler) == s
  {
    hide IsFiller;
    hide RunFrom;
    hide ParseEntry;
    hide NameAt;
    if filler == [] {
      assert before + filler == before;
    } else {
      var n := |filler| - 1;
      RunFillerLines(before, s, filler[..n]);
      RunSnoc(before + filler[..n], filler[n]);
      assert before + filler[..n] + [filler[n]] == before + filler;
    }
  }

  lemma InitIsLock(leading: seq<Text>, blocks: seq<Block>)
    requires IsLock(leading, blocks, false) && blocks != []
    ensures var n := |blocks| - 1;
      && IsLock(leading, blocks[..n], false) && blocks[n].Complete() && NameAt(blocks[n].line) !in EntriesOf(blocks[..n])
  {
    hide IsFiller;
    hide IsHashLine;
    hide IsEntryLine;
    hide NameAt;
    hide PinOf;
    var init := blocks[..|blocks| - 1];
    assert forall i :: 0 <= i < |init| ==> init[i] == blocks[i];
  }

  /** The parser reads every lock file without complaint and knows its blocks. */
  lemma {:induction false} LockRunsClean(leading: seq<Text>, blocks: seq<Block>)
    requires IsLock(leading, blocks, false)
    ensures RunFrom(START, 0, Flatten(leading, blocks)) == StateAfter(blocks, false)
    decreases |blocks|
  {
    hide IsFiller;
    hide IsHashLine;
    hide IsEntryLine;
    hide NameAt;
    hide PinOf;
    hide EntriesOf;
    hide RunFrom;
    hide Step;
    hide IsLock;
    if blocks == [] {
      LeadingIsFiller(leading);
      RunLeading(leading);
    } else {
      var n := |blocks| - 1;
      var init, b := blocks[..n], blocks[n];
      InitIsLock(leading, blocks);
      LockRunsClean(leading, init);
      var before := Flatten(leading, init);
      RunSnoc(before, b.line);
      OpensAfter(leading, init, |before| + 1, b.line);
      RunHashes(before, init, b, |b.hashes|);
      assert b.hashes[..|b.hashes|] == b.hashes;
      SameState(init, b, blocks);
      RunFillerLines(before + [b.line] + b.hashes, StateAfter(blocks, false), b.filler);
      assert before + [b.line] + b.hashes + b.filler == before + b.Lines();
    }
  }

  lemma LeadingIsFiller(leading: seq<Text>)
    requires IsLock(leading, [], false)
    ensures forall i :: 0 <= i < |leading| ==> IsFiller(leading[i])
  {
    hide IsFiller;
  }

  lemma SameState(init: seq<Block>, b: Block, blocks: seq<Block>)
    requires blocks != [] && blocks[..|blocks| - 1] == init && blocks[|blocks| - 1] == b
    ensures StateAfter(init + [Block(b.line, b.hashes, [])], false) == StateAfter(blocks, false)
  {
    hide NameAt;
    hide PinOf;
    hide EntriesOf;
    assert (init + [Block(b.line, b.hashes, [])])[..|init|] == init;
  }

  /** parse_lock reports nothing exactly for the files of the grammar: blank and comment lines, and blocks
      with distinct normalized names, each an entry line followed by one or more hash lines. */
  lemma NoErrorsExactly(header: bool, lines: seq<Text>)
    ensures Outcome(header, lines).errors == [] <==>
      header && exists leading, blocks :: IsLock(leading, blocks, false) && lines == Flatten(leading, blocks)
  {
    hide IsFiller;
    hide IsHashLine;
    hide IsEntryLine;
    hide NameAt;
    hide PinOf;
    hide EntriesOf;
    hide RunFrom;
    hide Step;
    hide Flatten;
    if !header {
      HeaderStays(lines);
    } else {
      assert START.(errors := []) == START;
      if Outcome(header, lines).errors == [] {
        var leading, blocks, open := CleanRunIsLock(lines);
        assert !open;
      }
      if leading, blocks :| IsLock(leading, blocks, false) && lines == Flatten(leading, blocks) {
        LockRunsClean(leading, blocks);
        LockParses(leading, blocks);
      }
    }
  }

  lemma {:induction false} RunGrows(s: State, lines: seq<Text>)
    ensures s.errors <= RunFrom(s, 0, lines).errors
  {
    hide Step;
    if lines != [] {
      var n := |lines| - 1;
      RunGrows(s, lines[..n]);
      StepGrows(RunFrom(s, 0, lines[..n]), n + 1, lines[n]);
    }
  }

  lemma HeaderStays(lines: seq<Text>)
    ensures HeaderMissing in Outcome(false, lines).errors
  {
    hide RunFrom;
    var s := START.(errors := [HeaderMissing]);
    RunGrows(s, lines);
    assert RunFrom(s, 0, lines).errors[0] == HeaderMissing;
  }

  /** On a lock file the parser returns one entry per block: its version, and the number of hash lines
      between it and the next entry. */
  lemma LockParses(leading: seq<Text>, blocks: seq<Block>)
    requires IsLock(leading, blocks, false)
    ensures Outcome(true, Flatten(leading, blocks)).errors == []
    ensures Outcome(true, Flatten(leading, blocks)).entries == EntriesOf(blocks)
  {
    hide IsFiller;
    hide IsHashLine;
    hide IsEntryLine;
    hide NameAt;
    hide PinOf;
    hide RunFrom;
    hide Step;
    hide Flatten;
    LockRunsClean(leading, blocks);
    assert START.(errors := []) == START;
    CloseRecords(blocks);
  }

  lemma LockNames(leading: seq<Text>, blocks: seq<Block>, i: nat)
    requires IsLock(leading, blocks, false) && i < |blocks|
    ensures |blocks[i].hashes| > 0
    ensures i < |blocks| - 1 ==> blocks[i].Name() != blocks[|blocks| - 1].Name()
  {
    hide IsFiller;
    hide IsHashLine;
    hide IsEntryLine;
    hide NameAt;
  }

  /** Every block's entry is found under its name, with at least one hash. */
  lemma {:induction false} EntryOfBlock(leading: seq<Text>, blocks: seq<Block>, i: nat)
    requires IsLock(leading, blocks, false) && i < |blocks|
    ensures blocks[i].Name() in EntriesOf(blocks)
    ensures EntriesOf(blocks)[blocks[i].Name()] == Entry(PinOf(blocks[i].line).version, |blocks[i].hashes|)
    ensures |blocks[i].hashes| > 0
    decreases |blocks|
  {
    hide IsLock;
    hide EntriesOf;
    hide NameAt;
    hide PinOf;
    var n := |blocks| - 1;
    LockNames(leading, blocks, i);
    LastEntry(blocks);
    if i < n {
      InitIsLock(leading, blocks);
      assert blocks[..n][i] == blocks[i];
      EntryOfBlock(leading, blocks[..n], i);
    }
  }

  // ----- an entry without hashes is never the only complaint -----

  predicate Explained(errors: seq<Problem>) {
    exists i :: 0 <= i < |errors| && (errors[i].ExpectedHash? || errors[i].Truncated?)
  }

  predicate Unhashed(errors: seq<Problem>) {
    exists i :: 0 <= i < |errors| && errors[i].NoHash?
  }

  /** An entry still without hashes is one the parser waits on, or one it has already complained about. */
  predicate Accounted(s: State) {
    && (s.current.Some? && s.hashes == 0 && !s.expecting ==> Explained(s.errors))
    && (Unhashed(s.errors) ==> Explained(s.errors))
  }

  lemma AddError(errors: seq<Problem>, e: Problem)
    ensures Explained(errors + [e]) <==> Explained(errors) || e.ExpectedHash? || e.Truncated?
    ensures Unhashed(errors + [e]) <==> Unhashed(errors) || e.NoHash?
  {
    var more := errors + [e];
    assert forall i :: 0 <= i < |errors| ==> more[i] == errors[i];
    assert more[|errors|] == e;
  }

  lemma CloseAccounted(s: State)
    requires Accounted(s) && !s.expecting
    ensures Unhashed(Close(s).errors) ==> Explained(Close(s).errors)
  {
    hide Explained;
    hide Unhashed;
    if s.current.Some? && s.hashes == 0 {
      AddError(s.errors, NoHash(s.current.value));
    } else {
      assert s.errors + [] == s.errors;
    }
  }

  lemma StepAccounted(s: State, number: nat, raw: Text)
    requires Accounted(s)
    ensures Accounted(Step(s, number, raw))
  {
    hide IsFiller;
    hide IsHashLine;
    hide ParseEntry;
    hide NameAt;
    hide Explained;
    hide Unhashed;
    AddError(s.errors, ExpectedHash(number));
    AddError(s.errors, Indented(number));
    AddError(s.errors, Unsupported(number));
    if !s.expecting {
      CloseAccounted(s);
      AddError(Close(s).errors, Duplicate(number, NameAt(raw)));
    }
  }

  lemma {:induction false} RunAccounted(s: State, lines: seq<Text>)
    requires Accounted(s)
    ensures Accounted(RunFrom(s, 0, lines))
  {
    hide Step;
    hide Accounted;
    if lines != [] {
      var n := |lines| - 1;
      RunAccounted(s, lines[..n]);
      StepAccounted(RunFrom(s, 0, lines[..n]), n + 1, lines[n]);
    }
  }

  /** "has no sha256 hash" comes only with an expected-hash or truncation error. */
  lemma NoHashNeverAlone(header: bool, lines: seq<Text>)
    ensures Unhashed(Outcome(header, lines).errors) ==> Explained(Outcome(header, lines).errors)
  {
    hide RunFrom;
    var start := START.(errors := if header then [] else [HeaderMissing]);
    assert Accounted(start);
    RunAccounted(start, lines);
    var s := RunFrom(start, 0, lines);
    if s.expecting {
      AddError(s.errors, Truncated);
      if s.current.Some? && s.hashes == 0 {
        AddError(s.errors + [Truncated], NoHash(s.current.value));
      } else {
        assert s.errors + [Truncated] + [] == s.errors + [Truncated];
      }
    } else {
      CloseAccounted(s);
    }
  }

  // ----- printed locks -----

  datatype Locked = Locked(pin: Pin, marker: Option<Text>, digests: seq<Text>)

  predicate IsLocked(l: Locked) {
    IsPin(l.pin) && MarkerAllowed(l.marker) && |l.digests| > 0 && forall i :: 0 <= i < |l.digests| ==> IsDigest(l.digests[i])
  }

  function HashLine(digest: Text, more: bool): Text {
    INDENT + HashText(digest, more)
  }

  function PrintBlock(l: Locked): Block {
    Block(EntryText(l.pin, l.marker), seq(|l.digests|, i requires 0 <= i < |l.digests| => HashLine(l.digests[i], i < |l.digests| - 1)), [])
  }

  function Printed(header: seq<Text>, lock: seq<Locked>): seq<Text> {
    Flatten(header, seq(|lock|, i requires 0 <= i < |lock| => PrintBlock(lock[i])))
  }

  lemma TightIsStripped(t: Text)
    requires Tight(t)
    ensures Strip(t) == t
  {
    StripIndent(0, t);
    assert seq(0, _ => SPACE) + t == t;
  }

  lemma NameHead(t: Text)
    requires IsName(t)
    ensures t != [] && !IsSpace(t[0]) && t[0] != HASHMARK
  {
  }

  lemma PrintedEntryLine(pin: Pin, marker: Option<Text>)
    requires IsPin(pin) && MarkerAllowed(marker)
    ensures IsEntryLine(EntryText(pin, marker)) && PinOf(EntryText(pin, marker)) == pin
  {
    hide IsVersion;
    hide IsName;
    hide MarkerAllowed;
    hide MarkerText;
    hide Strip;
    NameHead(pin.name);
    var t := EntryText(pin, marker);
    assert t[0] == pin.name[0] && t[|t| - 1] == BACKSLASH;
    TightIsStripped(t);
    EntryTextParses(pin, marker);
  }

  lemma PrintedHashLine(digest: Text, more: bool)
    requires IsDigest(digest)
    ensures IsHashLine(HashLine(digest, more), more)
  {
    hide Strip;
    var t := HashText(digest, more);
    assert |HASH_PREFIX| == 14 && HASH_PREFIX[0] == DASH;
    hide U;
    assert t[0] == DASH;
    if !more {
      assert t[|t| - 1] == digest[63];
    }
    StripIndent(4, t);
    assert seq(4, _ => SPACE) == INDENT;
    ParseHashExactly(t, more);
  }

  lemma PrintedBlock(l: Locked)
    requires IsLocked(l)
    ensures PrintBlock(l).Complete() && PinOf(PrintBlock(l).line) == l.pin
  {
    hide IsHashLine;
    hide IsEntryLine;
    hide PinOf;
    hide HashLine;
    hide IsPin;
    hide MarkerAllowed;
    hide IsDigest;
    PrintedEntryLine(l.pin, l.marker);
    var b := PrintBlock(l);
    forall i | 0 <= i < |b.hashes| ensures IsHashLine(b.hashes[i], i < |b.hashes| - 1) {
      PrintedHashLine(l.digests[i], i < |l.digests| - 1);
    }
  }

  /** The entries give the version and the number of hashes of a locked package. */
  predicate Records(entries: map<Text, Entry>, l: Locked) {
    var name := Normalize(l.pin.name);
    name in entries && entries[name] == Entry(l.pin.version, |l.digests|)
  }

  /** Reading a printed lock returns its entries and no errors. */
  lemma PrintedLockParses(header: seq<Text>, lock: seq<Locked>)
    requires forall i :: 0 <= i < |header| ==> IsFiller(header[i])
    requires forall i :: 0 <= i < |lock| ==> IsLocked(lock[i])
    requires forall i, j :: 0 <= i < j < |lock| ==> Normalize(lock[i].pin.name) != Normalize(lock[j].pin.name)
    ensures Outcome(true, Printed(header, lock)).errors == []
    ensures forall name :: name in Outcome(true, Printed(header, lock)).entries <==>
      exists i :: 0 <= i < |lock| && Normalize(lock[i].pin.name) == name
    ensures forall i :: 0 <= i < |lock| ==> Records(Outcome(true, Printed(header, lock)).entries, lock[i])
  {
    hide IsLocked;
    hide IsFiller;
    hide Normalize;
    hide Outcome;
    hide EntryText;
    hide HashLine;
    hide PinOf;
    hide Flatten;
    hide EntriesOf;
    var blocks := seq(|lock|, i requires 0 <= i < |lock| => PrintBlock(lock[i]));
    forall i | 0 <= i < |blocks| ensures blocks[i].Complete() && PinOf(blocks[i].line) == lock[i].pin {
      PrintedBlock(lock[i]);
    }
    assert forall i :: 0 <= i < |blocks| ==> blocks[i].Name() == Normalize(lock[i].pin.name);
    assert IsLock(header, blocks, false);
    LockParses(header, blocks);
    forall i | 0 <= i < |lock| ensures Records(EntriesOf(blocks), lock[i]) {
      EntryOfBlock(header, blocks, i);
    }
  }
}
