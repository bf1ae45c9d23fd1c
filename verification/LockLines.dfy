/**
  The lines of a hash-pinned Python lock, spelled out: what an entry line, a hash line and a
  filler line look like character by character, and the name an entry is recorded under.
 */
module LockLines {
  import opened Texts
  import opened PyStrings
  import opened PythonLock

  // ----- characters -----

  const WHITE: set<int> := {
    0x09, 0x0A, 0x0B, 0x0C, 0x0D, 0x1C, 0x1D, 0x1E, 0x1F, 0x20, 0x85, 0xA0, 0x1680, 0x2000, 0x2001, 0x2002, 0x2003, 0x2004,
    0x2005, 0x2006, 0x2007, 0x2008, 0x2009, 0x200A, 0x2028, 0x2029, 0x202F, 0x205F, 0x3000
  }

  predicate Blank(t: Text) {
    forall i :: 0 <= i < |t| ==> t[i] in WHITE
  }

  predicate Digits(t: Text) {
    t != [] && forall i :: 0 <= i < |t| ==> 0x30 <= t[i] <= 0x39
  }

  predicate Alphanumeric(c: int) {
    0x30 <= c <= 0x39 || 0x41 <= c <= 0x5A || 0x61 <= c <= 0x7A
  }

  /** Letters, digits, dots, dashes and underscores, with a letter or digit at both ends. */
  predicate NameSays(t: Text) {
    && t != [] && Alphanumeric(t[0]) && Alphanumeric(t[|t| - 1])
    && forall i :: 0 <= i < |t| ==> Alphanumeric(t[i]) || t[i] in {0x2D, 0x2E, 0x5F}
  }

  predicate MarkerSays(t: Text) {
    t != [] && forall i :: 0 <= i < |t| ==> Alphanumeric(t[i]) || t[i] in {0x20, 0x21, 0x22, 0x27, 0x2D, 0x2E, 0x3C, 0x3D, 0x3E, 0x5F}
  }

  // ----- versions -----

  /** One pre-, post- or development-release segment. */
  datatype Segment = Segment(tag: string, number: Text)

  predicate IsTag(tag: string) {
    tag == "a" || tag == "b" || tag == "rc" || tag == ".post" || tag == ".dev"
  }

  function DottedText(numbers: seq<Text>): Text {
    if numbers == [] then [] else U(".") + (numbers[0] + DottedText(numbers[1..]))
  }

  function SegmentsText(segments: seq<Segment>): Text {
    if segments == [] then [] else U(segments[0].tag) + (segments[0].number + SegmentsText(segments[1..]))
  }

  predicate AreSegments(segments: seq<Segment>) {
    forall i :: 0 <= i < |segments| ==> IsTag(segments[i].tag) && Digits(segments[i].number)
  }

  predicate AreNumbers(numbers: seq<Text>) {
    forall i :: 0 <= i < |numbers| ==> Digits(numbers[i])
  }

  predicate VersionParts(t: Text, first: Text, numbers: seq<Text>, segments: seq<Segment>) {
    && Digits(first) && AreNumbers(numbers) && AreSegments(segments)
    && t == first + (DottedText(numbers) + SegmentsText(segments))
  }

  /** A dotted number followed by any segments. */
  ghost predicate VersionSays(t: Text) {
    exists first, numbers, segments :: VersionParts(t, first, numbers, segments)
  }

  /** What may stand after a run of digits. */
  predicate Breaks(t: Text) {
    t == [] || !IsDigit(t[0])
  }

  lemma {:induction false} DigitsSkipped(t: Text, i: nat, number: Text, rest: Text)
    requires i <= |t| && t[i..] == number + rest && Breaks(rest)
    requires forall k :: 0 <= k < |number| ==> IsDigit(number[k])
    ensures SkipDigits(t, i) == i + |number|
    decreases |number|
  {
    if number == [] {
      assert t[i..] == rest;
      assert i < |t| ==> t[i] == rest[0];
    } else {
      assert t[i] == t[i..][0] == number[0];
      assert t[i + 1..] == t[i..][1..] == number[1..] + rest;
      DigitsSkipped(t, i + 1, number[1..], rest);
    }
  }

  /** The digits SkipDigits passes over, cut out. */
  lemma DigitsCut(t: Text, i: nat)
    requires i <= |t| && SkipDigits(t, i) > i
    ensures Digits(t[i..SkipDigits(t, i)]) && t[i..] == t[i..SkipDigits(t, i)] + t[SkipDigits(t, i)..]
  {
  }

  lemma {:induction false} SegmentsBreak(segments: seq<Segment>)
    requires AreSegments(segments)
    ensures Breaks(SegmentsText(segments))
    ensures var t := SegmentsText(segments); |t| > 1 && t[0] == '.' as int ==> !IsDigit(t[1])
  {
    if segments != [] {
      var s := segments[0];
      assert IsTag(s.tag) && Digits(s.number);
      assert |U(s.tag)| == |s.tag| && forall k :: 0 <= k < |s.tag| ==> U(s.tag)[k] == s.tag[k] as int;
    }
  }

  lemma {:induction false} DottedBreaks(numbers: seq<Text>, segments: seq<Segment>)
    requires AreNumbers(numbers) && AreSegments(segments)
    ensures Breaks(DottedText(numbers) + SegmentsText(segments))
  {
    SegmentsBreak(segments);
    assert numbers == [] ==> DottedText(numbers) + SegmentsText(segments) == SegmentsText(segments);
    assert numbers != [] ==> (DottedText(numbers) + SegmentsText(segments))[0] == U(".")[0];
  }

  lemma TagIsShort(tag: string)
    requires IsTag(tag)
    ensures 0 < |tag| == |U(tag)|
  {
  }

  lemma TagFound(t: Text, i: nat, tag: string, rest: Text)
    requires i <= |t| && IsTag(tag) && t[i..] == U(tag) + rest
    ensures TagLength(t, i) == |tag|
  {
    assert |U(tag)| == |tag|;
    forall k | 0 <= k < |tag| ensures t[i + k] == tag[k] as int {
      assert t[i + k] == t[i..][k] == U(tag)[k];
    }
    assert At(t, i, tag);
    assert At(t, i, "a") ==> t[i + 0] == "a"[0] as int;
    assert At(t, i, "b") ==> t[i + 0] == "b"[0] as int;
    assert At(t, i, "rc") ==> t[i + 0] == "rc"[0] as int;
    assert At(t, i, ".post") ==> t[i + 0] == ".post"[0] as int && t[i + 1] == ".post"[1] as int;
  }

  lemma Advance(t: Text, i: nat, a: Text, b: Text)
    requires i <= |t| && t[i..] == a + b
    ensures i + |a| <= |t| && t[i + |a|..] == b
    ensures a != [] ==> t[i] == a[0]
  {
    assert t[i + |a|..] == t[i..][|a|..];
  }

  lemma SuffixStep(t: Text, i: nat)
    requires i < |t|
    ensures var j := i + TagLength(t, i);
      Suffixes(t, i) <==> j > i && SkipDigits(t, j) > j && Suffixes(t, SkipDigits(t, j))
  {
    hide TagLength;
  }

  lemma FirstSegment(segments: seq<Segment>)
    requires segments != [] && AreSegments(segments)
    ensures SegmentsText(segments) == U(segments[0].tag) + (segments[0].number + SegmentsText(segments[1..]))
    ensures IsTag(segments[0].tag) && Digits(segments[0].number) && AreSegments(segments[1..])
    ensures 0 < |segments[0].tag| == |U(segments[0].tag)|
  {
    hide Digits;
    TagIsShort(segments[0].tag);
    hide IsTag;
  }

  lemma NoSegments()
    ensures SegmentsText([]) == [] && AreSegments([])
  {
  }

  lemma SuffixEnd(t: Text)
    ensures Suffixes(t, |t|)
  {
  }

  lemma {:induction false} SegmentsMatch(t: Text, i: nat, segments: seq<Segment>)
    requires i <= |t| && AreSegments(segments) && t[i..] == SegmentsText(segments)
    ensures Suffixes(t, i)
    decreases |segments|
  {
    hide *;
    if segments == [] {
      NoSegments();
      SuffixEnd(t);
    } else {
      FirstSegment(segments);
      var s, more := segments[0], segments[1..];
      SegmentMatches(t, i, s, SegmentsText(more), more);
      SegmentsMatch(t, i + |s.tag| + |s.number|, more);
      SuffixStep(t, i);
    }
  }

  lemma SegmentMatches(t: Text, i: nat, s: Segment, rest: Text, more: seq<Segment>)
    requires i <= |t| && t[i..] == U(s.tag) + (s.number + rest) && rest == SegmentsText(more) && AreSegments(more)
    requires IsTag(s.tag) && Digits(s.number) && 0 < |s.tag| == |U(s.tag)|
    ensures TagLength(t, i) == |s.tag| && i + |s.tag| + |s.number| <= |t| && |s.number| > 0
    ensures SkipDigits(t, i + |s.tag|) == i + |s.tag| + |s.number| && t[i + |s.tag| + |s.number|..] == rest
  {
    hide U;
    hide IsTag;
    hide SegmentsText;
    hide AreSegments;
    hide TagLength;
    TagFound(t, i, s.tag, s.number + rest);
    Advance(t, i, U(s.tag), s.number + rest);
    var j := i + |s.tag|;
    SegmentsBreak(more);
    hide Breaks;
    DigitsSkipped(t, j, s.number, rest);
    Advance(t, j, s.number, rest);
  }

  lemma NoNumbers(segments: seq<Segment>)
    ensures DottedText([]) + SegmentsText(segments) == SegmentsText(segments)
  {
    hide SegmentsText;
  }

  lemma FirstNumber(numbers: seq<Text>, rest: Text)
    requires numbers != [] && AreNumbers(numbers)
    ensures DottedText(numbers) + rest == ['.' as int] + (numbers[0] + (DottedText(numbers[1..]) + rest))
    ensures Digits(numbers[0]) && AreNumbers(numbers[1..])
  {
    hide Digits;
    assert U(".") == ['.' as int];
    var a, b := numbers[0], DottedText(numbers[1..]);
    assert ['.' as int] + (a + b) + rest == ['.' as int] + (a + (b + rest));
  }

  lemma PartsEnd(t: Text, i: nat)
    requires i <= |t| && Suffixes(t, i) && (i + 1 < |t| && t[i] == '.' as int ==> !IsDigit(t[i + 1]))
    ensures ReleaseParts(t, i)
  {
  }

  lemma PartsStep(t: Text, i: nat)
    requires i + 1 < |t| && t[i] == '.' as int && IsDigit(t[i + 1]) && ReleaseParts(t, SkipDigits(t, i + 1))
    ensures ReleaseParts(t, i)
  {
  }

  lemma SuffixHead(t: Text, i: nat, rest: Text)
    requires i <= |t| && t[i..] == rest
    ensures i + 1 < |t| ==> |rest| > 1 && t[i] == rest[0] && t[i + 1] == rest[1]
  {
  }

  lemma DigitsHead(t: Text, i: nat, number: Text)
    requires Digits(number) && i < |t| && t[i] == number[0]
    ensures IsDigit(t[i]) && (forall k :: 0 <= k < |number| ==> IsDigit(number[k]))
  {
  }

  lemma {:induction false} PartsMatch(t: Text, i: nat, numbers: seq<Text>, segments: seq<Segment>)
    requires i <= |t| && AreNumbers(numbers) && AreSegments(segments) && t[i..] == DottedText(numbers) + SegmentsText(segments)
    ensures ReleaseParts(t, i)
    decreases |numbers|
  {
    hide *;
    if numbers == [] {
      NoNumbers(segments);
      SegmentsBreak(segments);
      SuffixHead(t, i, SegmentsText(segments));
      SegmentsMatch(t, i, segments);
      PartsEnd(t, i);
    } else {
      FirstNumber(numbers, SegmentsText(segments));
      var number, more := numbers[0], numbers[1..];
      var rest := DottedText(more) + SegmentsText(segments);
      NumberStep(t, i, number, more, segments, rest);
      PartsMatch(t, i + 1 + |number|, more, segments);
      PartsStep(t, i);
    }
  }

  lemma NumberStep(t: Text, i: nat, number: Text, more: seq<Text>, segments: seq<Segment>, rest: Text)
    requires i <= |t| && t[i..] == ['.' as int] + (number + rest) && Digits(number)
    requires AreNumbers(more) && AreSegments(segments) && rest == DottedText(more) + SegmentsText(segments)
    ensures i + 1 + |number| <= |t| && t[i] == '.' as int && i + 1 < |t| && IsDigit(t[i + 1])
    ensures SkipDigits(t, i + 1) == i + 1 + |number| && t[i + 1 + |number|..] == rest
  {
    hide *;
    Advance(t, i, ['.' as int], number + rest);
    Advance(t, i + 1, number, rest);
    DottedBreaks(more, segments);
    DigitsNonempty(number);
    DigitsHead(t, i + 1, number);
    DigitsSkipped(t, i + 1, number, rest);
  }

  lemma DigitsNonempty(number: Text)
    requires Digits(number)
    ensures number != []
  {
  }

  /** The tag TagLength finds, as one of the five words. */
  lemma TagCut(t: Text, i: nat) returns (tag: string)
    requires i <= |t| && TagLength(t, i) > 0
    ensures IsTag(tag) && |tag| == TagLength(t, i) && t[i..i + |tag|] == U(tag)
  {
    tag := if At(t, i, "a") then "a" else if At(t, i, "b") then "b" else if At(t, i, "rc") then "rc"
           else if At(t, i, ".post") then ".post" else ".dev";
    assert At(t, i, tag);
    assert |U(tag)| == |tag|;
    assert forall k :: 0 <= k < |tag| ==> t[i..i + |tag|][k] == t[i + k] == U(tag)[k];
  }

  lemma {:induction false} SegmentsCut(t: Text, i: nat) returns (segments: seq<Segment>)
    requires i <= |t| && Suffixes(t, i)
    ensures AreSegments(segments) && t[i..] == SegmentsText(segments)
    decreases |t| - i
  {
    hide *;
    segments := [];
    NoSegments();
    if i < |t| {
      SuffixStep(t, i);
      var tag := TagCut(t, i);
      var j := i + |tag|;
      var e := SkipDigits(t, j);
      DigitsCut(t, j);
      var more := SegmentsCut(t, e);
      segments := [Segment(tag, t[j..e])] + more;
      JoinSegment(segments[0], more);
      assert t[i..] == t[i..j] + t[j..];
    }
  }

  lemma JoinSegment(s: Segment, more: seq<Segment>)
    requires IsTag(s.tag) && Digits(s.number) && AreSegments(more)
    ensures AreSegments([s] + more) && SegmentsText([s] + more) == U(s.tag) + (s.number + SegmentsText(more))
  {
    hide IsTag;
    hide Digits;
    hide U;
    assert ([s] + more)[1..] == more;
  }

  lemma {:induction false} PartsCut(t: Text, i: nat) returns (numbers: seq<Text>, segments: seq<Segment>)
    requires i <= |t| && ReleaseParts(t, i)
    ensures AreNumbers(numbers) && AreSegments(segments) && t[i..] == DottedText(numbers) + SegmentsText(segments)
    decreases |t| - i
  {
    hide SegmentsText;
    hide AreSegments;
    hide AreNumbers;
    hide DottedText;
    hide Suffixes;
    hide Digits;
    hide U;
    if i + 1 < |t| && t[i] == '.' as int && IsDigit(t[i + 1]) {
      var e := SkipDigits(t, i + 1);
      DigitsCut(t, i + 1);
      var more, segments' := PartsCut(t, e);
      numbers, segments := [t[i + 1..e]] + more, segments';
      JoinNumber(t[i + 1..e], more, SegmentsText(segments));
      DotBefore(t, i, t[i + 1..e], t[e..]);
    } else {
      segments := SegmentsCut(t, i);
      numbers := [];
      NoNumbers(segments);
      NumbersNone();
    }
  }

  lemma NumbersNone()
    ensures AreNumbers([])
  {
  }

  lemma JoinNumber(number: Text, more: seq<Text>, rest: Text)
    requires Digits(number) && AreNumbers(more)
    ensures AreNumbers([number] + more)
    ensures DottedText([number] + more) + rest == ['.' as int] + (number + (DottedText(more) + rest))
  {
    var numbers := [number] + more;
    assert numbers[1..] == more;
    hide Digits;
    FirstNumber(numbers, rest);
  }

  lemma DotBefore(t: Text, i: nat, number: Text, rest: Text)
    requires i < |t| && t[i] == '.' as int && t[i + 1..] == number + rest
    ensures t[i..] == ['.' as int] + (number + rest)
  {
  }

  /** The greedy matcher accepts exactly the versions that come apart in some way. */
  lemma VersionExactly(t: Text)
    ensures IsVersion(t) <==> VersionSays(t)
  {
    if IsVersion(t) {
      DigitsCut(t, 0);
      var e := SkipDigits(t, 0);
      var numbers, segments := PartsCut(t, e);
      assert t[0..] == t;
      assert VersionParts(t, t[0..e], numbers, segments);
    }
    if first, numbers, segments :| VersionParts(t, first, numbers, segments) {
      var rest := DottedText(numbers) + SegmentsText(segments);
      assert t[0..] == first + rest;
      DottedBreaks(numbers, segments);
      DigitsSkipped(t, 0, first, rest);
      assert t[|first|..] == rest;
      PartsMatch(t, |first|, numbers, segments);
    }
  }

  // ----- lines -----

  lemma NameExactly(t: Text)
    ensures IsName(t) <==> NameSays(t)
  {
  }

  lemma MarkerExactly(t: Text)
    ensures IsMarker(t) <==> MarkerSays(t)
  {
  }

  lemma BlankExactly(t: Text)
    ensures AllSpace(t) <==> Blank(t)
  {
  }

  predicate CommentSays(raw: Text, lead: Text, rest: Text) {
    Blank(lead) && raw == lead + (U("#") + rest)
  }

  /** A filler line is blank, or a comment after white space. */
  lemma FillerExactly(raw: Text)
    ensures IsFiller(raw) <==> Blank(raw) || exists lead, rest :: CommentSays(raw, lead, rest)
  {
    hide IsSpace;
    hide Strip;
    assert U("#") == [HASHMARK];
    BlankExactly(raw);
    hide Blank;
    if IsFiller(raw) {
      var lead, tail := StripParts(raw);
      BlankExactly(lead);
      if Strip(raw) == [] {
        assert raw == lead + tail;
      } else {
        var core := Strip(raw);
        assert raw == lead + ([HASHMARK] + (core[1..] + tail));
        assert CommentSays(raw, lead, core[1..] + tail);
      }
    }
    if AllSpace(raw) {
      BlankStrips(raw);
    } else if lead, rest :| CommentSays(raw, lead, rest) {
      BlankExactly(lead);
      CommentStrips(lead, rest);
    }
  }

  lemma BlankStrips(raw: Text)
    requires AllSpace(raw)
    ensures Strip(raw) == []
  {
    assert raw == raw + [];
    StripLeftPadded(raw, []);
  }

  lemma CommentStrips(lead: Text, rest: Text)
    requires AllSpace(lead)
    ensures var s := Strip(lead + ([HASHMARK] + rest)); s != [] && s[0] == HASHMARK
  {
    var t := [HASHMARK] + rest;
    StripLeftPadded(lead, t);
    var tail := RightPart(t);
    assert t == StripRight(t) + tail;
  }

  predicate HashLineSays(raw: Text, more: bool, pad: Text, digest: Text, tail: Text) {
    && Blank(pad) && Blank(tail)
    && |digest| == 64 && (forall i :: 0 <= i < 64 ==> 0x30 <= digest[i] <= 0x39 || 0x61 <= digest[i] <= 0x66)
    && raw == U("    ") + (pad + ((U("--hash=sha256:") + digest + (if more then U(" \\") else [])) + tail))
  }

  lemma HashTextIsTight(digest: Text, more: bool)
    requires IsDigest(digest)
    ensures Tight(HashText(digest, more)) && HashText(digest, more)[0] == '-' as int
    ensures HashText(digest, more) == U("--hash=sha256:") + digest + (if more then U(" \\") else [])
  {
    assert U(" \\") == MORE;
    assert HASH_PREFIX[0] == '-' as int;
    var t := HashText(digest, more);
    assert t[|t| - 1] == if more then BACKSLASH else digest[63];
  }

  /** A hash line is four spaces, perhaps more white space, the digest and, when another follows, a backslash. */
  lemma HashLineExactly(raw: Text, more: bool)
    ensures IsHashLine(raw, more) <==> exists pad, digest, tail :: HashLineSays(raw, more, pad, digest, tail)
  {
    hide IsHashLine;
    hide HashLineSays;
    if IsHashLine(raw, more) {
      HashLineParts(raw, more);
    }
    if pad, digest, tail :| HashLineSays(raw, more, pad, digest, tail) {
      HashLineHolds(raw, more, pad, digest, tail);
    }
  }

  lemma HashLineHolds(raw: Text, more: bool, pad: Text, digest: Text, tail: Text)
    requires HashLineSays(raw, more, pad, digest, tail)
    ensures IsHashLine(raw, more)
  {
    hide IsSpace;
    hide Strip;
    hide ParseHash;
    hide HashText;
    hide Blank;
    assert U("    ") == INDENT;
    hide U;
    HashTextIsTight(digest, more);
    BlankExactly(pad);
    BlankExactly(tail);
    IndentIsSpace(pad);
    var core := HashText(digest, more);
    assert raw == INDENT + (pad + (core + tail)) == (INDENT + pad) + (core + tail);
    StripPadded(INDENT + pad, core, tail);
    ParseHashExactly(Strip(raw), more);
  }

  lemma HashLineParts(raw: Text, more: bool)
    requires IsHashLine(raw, more)
    ensures exists pad, digest, tail :: HashLineSays(raw, more, pad, digest, tail)
  {
    hide IsSpace;
    hide Strip;
    hide ParseHash;
    hide HashText;
    hide Blank;
    assert U("    ") == INDENT;
    hide U;
    ParseHashExactly(Strip(raw), more);
    var digest :| IsDigest(digest) && Strip(raw) == HashText(digest, more);
    var lead, tail := StripParts(raw);
    HashTextIsTight(digest, more);
    LeadCovers(lead, Strip(raw) + tail, raw);
    BlankExactly(lead[4..]);
    BlankExactly(tail);
    assert HashLineSays(raw, more, lead[4..], digest, tail);
  }

  lemma IndentIsSpace(pad: Text)
    requires AllSpace(pad)
    ensures AllSpace(INDENT + pad)
  {
  }

  /** White space before a word covers the indent. */
  lemma LeadCovers(lead: Text, rest: Text, raw: Text)
    requires INDENT <= raw && raw == lead + rest && rest != [] && rest[0] == '-' as int && AllSpace(lead)
    ensures |lead| >= 4 && lead == INDENT + lead[4..] && AllSpace(lead[4..]) && raw == INDENT + (lead[4..] + rest)
  {
    assert raw[..4] == INDENT;
    assert forall i :: 0 <= i < 4 ==> raw[i] == SPACE;
    assert raw[|lead|] == rest[0];
    assert lead[..4] == raw[..4];
  }

  ghost predicate EntryLineSays(raw: Text, pin: Pin, marker: Option<Text>, tail: Text) {
    && NameSays(pin.name) && VersionSays(pin.version) && (marker.Some? ==> MarkerSays(marker.value)) && Blank(tail)
    && raw == (pin.name + (U("==") + (pin.version + ((if marker.Some? then U(" ; ") + marker.value else []) + U(" \\"))))) + tail
  }

  lemma EntryTextIsTight(pin: Pin, marker: Option<Text>)
    requires IsPin(pin)
    ensures Tight(EntryText(pin, marker)) && EntryText(pin, marker)[0] == pin.name[0] && IsAlnum(pin.name[0])
    ensures EntryText(pin, marker) ==
      pin.name + (U("==") + (pin.version + ((if marker.Some? then U(" ; ") + marker.value else []) + U(" \\"))))
  {
    hide IsVersion;
    assert U(" \\") == MORE && U("==") == [EQUALS, EQUALS] && U(" ; ") == MARK;
    var t := EntryText(pin, marker);
    assert t[|t| - 1] == BACKSLASH;
  }

  /** An entry line starts in the first column with name==version, an optional marker and a backslash. */
  lemma EntryLineExactly(raw: Text, pin: Pin)
    ensures IsEntryLine(raw) && PinOf(raw) == pin <==> exists marker, tail :: EntryLineSays(raw, pin, marker, tail)
  {
    hide IsSpace;
    hide Strip;
    hide ParseEntry;
    hide EntryText;
    hide IsName;
    hide IsVersion;
    hide VersionSays;
    hide NameSays;
    hide MarkerSays;
    hide IsMarker;
    hide Blank;
    hide U;
    NameExactly(pin.name);
    VersionExactly(pin.version);
    ParseEntryExactly(Strip(raw), pin);
    if IsEntryLine(raw) && PinOf(raw) == pin {
      var marker :| MarkerAllowed(marker) && Strip(raw) == EntryText(pin, marker);
      var lead, tail := StripParts(raw);
      assert lead == [];
      assert raw == Strip(raw) + tail;
      EntryTextIsTight(pin, marker);
      BlankExactly(tail);
      if marker.Some? {
        MarkerExactly(marker.value);
      }
      assert EntryLineSays(raw, pin, marker, tail);
    }
    if marker, tail :| EntryLineSays(raw, pin, marker, tail) {
      EntryTextIsTight(pin, marker);
      BlankExactly(tail);
      if marker.Some? {
        MarkerExactly(marker.value);
      }
      assert raw == [] + (EntryText(pin, marker) + tail);
      StripPadded([], EntryText(pin, marker), tail);
      AlnumIsNoMark(pin.name[0]);
    }
  }

  lemma AlnumIsNoMark(c: int)
    requires IsAlnum(c)
    ensures c != HASHMARK && !IsSpace(c)
  {
  }

  // ----- the recorded name -----

  /** Some separators and the word after them. */
  datatype Piece = Piece(run: Text, word: Text)

  predicate IsWord(t: Text) {
    forall i :: 0 <= i < |t| ==> t[i] !in {0x2D, 0x2E, 0x5F}
  }

  predicate IsRun(t: Text) {
    t != [] && forall i :: 0 <= i < |t| ==> t[i] in {0x2D, 0x2E, 0x5F}
  }

  /** Only the first and the last word may be empty. */
  predicate ArePieces(pieces: seq<Piece>) {
    forall i :: 0 <= i < |pieces| ==> IsRun(pieces[i].run) && IsWord(pieces[i].word) && (i < |pieces| - 1 ==> pieces[i].word != [])
  }

  function PiecesText(pieces: seq<Piece>): Text {
    if pieces == [] then [] else pieces[0].run + (pieces[0].word + PiecesText(pieces[1..]))
  }

  function Small(t: Text): (r: Text)
    ensures |r| == |t| && forall i :: 0 <= i < |t| ==> r[i] == if 0x41 <= t[i] <= 0x5A then t[i] + 0x20 else t[i]
  {
    seq(|t|, i requires 0 <= i < |t| => if 0x41 <= t[i] <= 0x5A then t[i] + 0x20 else t[i])
  }

  function Dashed(pieces: seq<Piece>): Text {
    if pieces == [] then [] else U("-") + (Small(pieces[0].word) + Dashed(pieces[1..]))
  }

  lemma LetterNormalized(t: Text)
    requires t != [] && t[0] !in {0x2D, 0x2E, 0x5F}
    ensures Normalize(t) == Small([t[0]]) + Normalize(t[1..])
  {
    assert Small([t[0]]) == [LowerOne(t[0])];
  }

  lemma {:induction false} WordNormalized(word: Text, rest: Text)
    requires IsWord(word)
    ensures Normalize(word + rest) == Small(word) + Normalize(rest)
  {
    hide Normalize;
    if word == [] {
      assert word + rest == rest;
    } else {
      LetterNormalized(word + rest);
      assert (word + rest)[1..] == word[1..] + rest;
      WordNormalized(word[1..], rest);
      assert Small(word) == Small([word[0]]) + Small(word[1..]);
    }
  }

  lemma {:induction false} RunNormalized(run: Text, rest: Text)
    requires IsRun(run) && (rest == [] || IsWord([rest[0]]))
    ensures Normalize(run + rest) == U("-") + Normalize(rest)
  {
    assert U("-") == [DASH];
    var t := run + rest;
    assert t[0] == run[0] && t[1..] == run[1..] + rest;
    if |run| > 1 {
      assert t[1] == run[1];
      RunNormalized(run[1..], rest);
    } else {
      assert run[1..] + rest == rest;
      assert rest != [] ==> t[1] == rest[0] && [rest[0]][0] == rest[0];
    }
  }

  /** A name is recorded in lower case with one dash for every run of separators. */
  lemma {:induction false} NormalizeExactly(first: Text, pieces: seq<Piece>)
    requires IsWord(first) && ArePieces(pieces)
    ensures Normalize(first + PiecesText(pieces)) == Small(first) + Dashed(pieces)
    decreases |pieces|
  {
    hide Normalize;
    WordNormalized(first, PiecesText(pieces));
    if pieces == [] {
      NothingNormalized();
    } else {
      var p, more := pieces[0], pieces[1..];
      assert forall i :: 0 <= i < |more| ==> more[i] == pieces[i + 1];
      NormalizeExactly(p.word, more);
      var rest := p.word + PiecesText(more);
      assert p.word == [] ==> more == [] && rest == [];
      assert p.word != [] ==> rest[0] == p.word[0];
      RunNormalized(p.run, rest);
    }
  }

  lemma NothingNormalized()
    ensures Normalize([]) == []
  {
  }

  /** Every text comes apart into words and separators. */
  lemma {:induction false} NameComesApart(t: Text) returns (first: Text, pieces: seq<Piece>)
    ensures IsWord(first) && ArePieces(pieces) && t == first + PiecesText(pieces)
  {
    first, pieces := [], [];
    if t != [] {
      var word, more := NameComesApart(t[1..]);
      assert t == [t[0]] + (word + PiecesText(more));
      if IsWord([t[0]]) {
        first, pieces := [t[0]] + word, more;
        assert [t[0]][0] == t[0];
      } else if word == [] && more != [] {
        pieces := [Piece([t[0]] + more[0].run, more[0].word)] + more[1..];
        assert pieces[1..] == more[1..];
      } else {
        pieces := [Piece([t[0]], word)] + more;
        assert pieces[1..] == more;
      }
    }
  }
}
