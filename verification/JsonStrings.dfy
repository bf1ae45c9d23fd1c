/**
  String literals of json.dumps and json.loads (RFC 8259, section 7): the escape
  writer in its ensure_ascii and raw forms, and the strict scanner that joins an
  escaped surrogate pair into one code point.
 */
module JsonStrings {
  import opened Texts

  const QUOTE: CodePoint := '\"' as int
  const BACKSLASH: CodePoint := '\\' as int
  const LETTER_U: CodePoint := 'u' as int

  datatype Scan<+T> = Fail | Done(value: T, rest: Text)

  predicate High(c: int) { 0xD800 <= c <= 0xDBFF }
  predicate Low(c: int) { 0xDC00 <= c <= 0xDFFF }

  function Joined(high: int, low: int): (c: CodePoint)
    requires High(high) && Low(low)
    ensures c >= 0x1_0000
    ensures HighOf(c) == high && LowOf(c) == low
  {
    0x1_0000 + (high - 0xD800) * 0x400 + (low - 0xDC00)
  }

  function HighOf(c: CodePoint): (h: int)
    requires c >= 0x1_0000
    ensures High(h)
  {
    0xD800 + (c - 0x1_0000) / 0x400
  }

  function LowOf(c: CodePoint): (l: int)
    requires c >= 0x1_0000
    ensures Low(l)
  {
    0xDC00 + (c - 0x1_0000) % 0x400
  }

  lemma JoinedOf(c: CodePoint)
    requires c >= 0x1_0000
    ensures Joined(HighOf(c), LowOf(c)) == c
  {
  }

  // ----- hexadecimal escapes -----

  type Unit = u: int | 0 <= u < 0x1_0000

  function HexDigit(d: int): (c: CodePoint)
    requires 0 <= d < 16
    ensures IsHex(c) && HexOf(c) == d
  {
    if d < 10 then '0' as int + d else 'a' as int + (d - 10)
  }

  predicate IsHex(c: int) {
    IsLowerHex(c) || 'A' as int <= c <= 'F' as int
  }

  function HexOf(c: int): (d: int)
    requires IsHex(c)
    ensures 0 <= d < 16
  {
    if IsDigit(c) then c - '0' as int
    else if c >= 'a' as int then c - 'a' as int + 10
    else c - 'A' as int + 10
  }

  /** The six characters of one \uXXXX escape. */
  function UnitEscape(u: Unit): (t: Text)
    ensures |t| == 6
    ensures StartsUnit(t) && UnitAt(t) == u
  {
    [BACKSLASH, LETTER_U, HexDigit(u / 16 / 16 / 16), HexDigit(u / 16 / 16 % 16), HexDigit(u / 16 % 16), HexDigit(u % 16)]
  }

  predicate StartsUnit(s: Text) {
    && |s| >= 6 && s[0] == BACKSLASH && s[1] == LETTER_U
    && IsHex(s[2]) && IsHex(s[3]) && IsHex(s[4]) && IsHex(s[5])
  }

  function UnitAt(s: Text): (u: Unit)
    requires StartsUnit(s)
  {
    HexOf(s[2]) * 4096 + HexOf(s[3]) * 256 + HexOf(s[4]) * 16 + HexOf(s[5])
  }

  // ----- the writer -----

  /** The letter of a two-character escape, if the character has one. */
  function ShortEscape(c: CodePoint): (e: Option<CodePoint>)
    ensures e.Some? ==> ShortValue(e.value) == Some(c) && e.value != LETTER_U
  {
    if c == QUOTE then Some(QUOTE)
    else if c == BACKSLASH then Some(BACKSLASH)
    else if c == 0x0A then Some('n' as int)
    else if c == 0x0D then Some('r' as int)
    else if c == 0x09 then Some('t' as int)
    else if c == 0x0C then Some('f' as int)
    else if c == 0x08 then Some('b' as int)
    else None
  }

  /** What a backslash followed by this character stands for when it is read. */
  function ShortValue(e: CodePoint): (c: Option<CodePoint>) {
    if e == QUOTE then Some(QUOTE)
    else if e == BACKSLASH then Some(BACKSLASH)
    else if e == '/' as int then Some('/' as int)
    else if e == 'n' as int then Some(0x0A)
    else if e == 'r' as int then Some(0x0D)
    else if e == 't' as int then Some(0x09)
    else if e == 'f' as int then Some(0x0C)
    else if e == 'b' as int then Some(0x08)
    else None
  }

  function EscapeOne(c: CodePoint, ascii: bool): (t: Text)
    ensures |t| > 0
  {
    if ShortEscape(c).Some? then [BACKSLASH, ShortEscape(c).value]
    else if 0x20 <= c <= 0x7E || (!ascii && c >= 0x20) then [c]
    else if c < 0x1_0000 then UnitEscape(c)
    else UnitEscape(HighOf(c)) + UnitEscape(LowOf(c))
  }

  function Escape(t: Text, ascii: bool): (r: Text) {
    if t == [] then [] else EscapeOne(t[0], ascii) + Escape(t[1..], ascii)
  }

  // ----- the scanner -----

  /** Reads the rest of a literal whose opening quote is already consumed. */
  function ScanString(s: Text): (r: Scan<Text>)
    ensures r.Done? ==> |r.rest| < |s|
  {
    if s == [] then Fail
    else if s[0] == QUOTE then Done([], s[1..])
    else if s[0] == BACKSLASH then
      if StartsUnit(s) then
        if High(UnitAt(s)) && StartsUnit(s[6..]) && Low(UnitAt(s[6..])) then
          Prepend(Joined(UnitAt(s), UnitAt(s[6..])), ScanString(s[12..]))
        else
          Prepend(UnitAt(s), ScanString(s[6..]))
      else if |s| >= 2 && ShortValue(s[1]).Some? then
        Prepend(ShortValue(s[1]).value, ScanString(s[2..]))
      else Fail
    else if s[0] < 0x20 then Fail
    else Prepend(s[0], ScanString(s[1..]))
  }

  function Prepend(c: CodePoint, r: Scan<Text>): (r': Scan<Text>)
    ensures r'.Done? <==> r.Done?
    ensures r.Done? ==> r'.rest == r.rest && r'.value == [c] + r.value
  {
    match r
    case Fail => Fail
    case Done(t, rest) => Done([c] + t, rest)
  }

  // ----- what reading a written string gives -----

  /** Every adjacent high and low surrogate merged into the code point they encode. */
  function Join(t: Text): (r: Text) {
    if t == [] then []
    else if |t| >= 2 && High(t[0]) && Low(t[1]) then [Joined(t[0], t[1])] + Join(t[2..])
    else [t[0]] + Join(t[1..])
  }

  predicate NoPair(t: Text) {
    forall i :: 0 <= i < |t| - 1 ==> !(High(t[i]) && Low(t[i + 1]))
  }

  lemma {:induction false} JoinShortens(t: Text)
    ensures |Join(t)| <= |t|
  {
    if |t| >= 2 && High(t[0]) && Low(t[1]) {
      JoinShortens(t[2..]);
    } else if t != [] {
      JoinShortens(t[1..]);
    }
  }

  /** Joining changes nothing exactly when there is no adjacent pair to join. */
  lemma {:induction false} JoinFixes(t: Text)
    ensures Join(t) == t <==> NoPair(t)
  {
    if |t| >= 2 && High(t[0]) && Low(t[1]) {
      JoinShortens(t[2..]);
    } else if t != [] {
      JoinFixes(t[1..]);
      assert t == [t[0]] + t[1..];
      assert Join(t)[1..] == Join(t[1..]);
      if NoPair(t[1..]) {
        forall i | 0 <= i < |t| - 1 ensures !(High(t[i]) && Low(t[i + 1])) {
          if i > 0 {
            assert t[i] == t[1..][i - 1] && t[i + 1] == t[1..][i];
          }
        }
      } else {
        var i :| 0 <= i < |t[1..]| - 1 && High(t[1..][i]) && Low(t[1..][i + 1]);
        assert High(t[i + 1]) && Low(t[i + 1 + 1]);
      }
    }
  }

  /** One unit escape is read back, whatever follows, unless it opens a pair. */
  lemma ScanUnit(u: Unit, tail: Text)
    requires High(u) ==> !(StartsUnit(tail) && Low(UnitAt(tail)))
    ensures ScanString(UnitEscape(u) + tail) == Prepend(u, ScanString(tail))
  {
    var s := UnitEscape(u) + tail;
    assert s[6..] == tail;
    assert s[..6] == UnitEscape(u);
    assert StartsUnit(s) && UnitAt(s) == u;
  }

  lemma ScanPair(high: Unit, low: Unit, tail: Text)
    requires High(high) && Low(low)
    ensures ScanString(UnitEscape(high) + UnitEscape(low) + tail) == Prepend(Joined(high, low), ScanString(tail))
  {
    var s := UnitEscape(high) + UnitEscape(low) + tail;
    assert s[..6] == UnitEscape(high) && s[6..12] == UnitEscape(low) && s[12..] == tail;
    assert StartsUnit(s) && UnitAt(s) == high;
    var s6 := s[6..];
    assert s6[..6] == UnitEscape(low);
    assert StartsUnit(s6) && UnitAt(s6) == low;
  }

  /** The text after a written character never looks like a low-surrogate escape
      unless the next character is that surrogate. */
  lemma NextIsNotLow(t: Text, tail: Text)
    requires t == [] || !Low(t[0])
    ensures var s := Escape(t, true) + [QUOTE] + tail; !(StartsUnit(s) && Low(UnitAt(s)))
  {
    hide EscapeOne;
    hide UnitAt;
    if t == [] {
      QuoteIsNotUnit(tail);
      assert Escape(t, true) + [QUOTE] + tail == [QUOTE] + tail;
    } else {
      var after := Escape(t[1..], true) + [QUOTE] + tail;
      assert Escape(t, true) + [QUOTE] + tail == EscapeOne(t[0], true) + after;
      EscapeIsNotLow(t[0], after);
    }
  }

  lemma QuoteIsNotUnit(tail: Text)
    ensures !StartsUnit([QUOTE] + tail)
  {
  }

  lemma EscapeIsNotLow(c: CodePoint, tail: Text)
    requires !Low(c)
    ensures var s := EscapeOne(c, true) + tail; !(StartsUnit(s) && Low(UnitAt(s)))
  {
    hide UnitEscape;
    hide UnitAt;
    hide HighOf;
    hide LowOf;
    var e := EscapeOne(c, true);
    var s := e + tail;
    assert s[0] == e[0];
    if ShortEscape(c).Some? {
      assert s[1] == e[1];
    } else if !(0x20 <= c <= 0x7E) {
      var u := if c < 0x1_0000 then c else HighOf(c);
      assert e[..6] == UnitEscape(u);
      UnitPrefix(u, e[6..] + tail);
      assert s == e[..6] + (e[6..] + tail);
    }
  }

  lemma UnitPrefix(u: Unit, tail: Text)
    ensures var s := UnitEscape(u) + tail; StartsUnit(s) && UnitAt(s) == u
  {
    var s := UnitEscape(u) + tail;
    assert s[..6] == UnitEscape(u);
  }

  /** Reading one written character other than a lone high surrogate. */
  lemma ScanOne(c: CodePoint, ascii: bool, tail: Text)
    requires !(ascii && High(c))
    ensures ScanString(EscapeOne(c, ascii) + tail) == Prepend(c, ScanString(tail))
  {
    hide UnitEscape;
    hide UnitAt;
    hide HighOf;
    hide LowOf;
    var s := EscapeOne(c, ascii) + tail;
    if ShortEscape(c).Some? {
      assert s[2..] == tail;
    } else if 0x20 <= c <= 0x7E || (!ascii && c >= 0x20) {
      assert s[1..] == tail;
    } else if c < 0x1_0000 {
      ScanUnit(c, tail);
    } else {
      JoinedOf(c);
      ScanPair(HighOf(c), LowOf(c), tail);
    }
  }

  /**
    json.loads after json.dumps, for every string: the ASCII writer loses exactly the
    distinction between an adjacent surrogate pair and the code point it encodes, and
    the raw writer loses nothing.
   */
  lemma {:induction false} ScanEscaped(t: Text, ascii: bool, tail: Text)
    ensures ScanString(Escape(t, ascii) + [QUOTE] + tail) == Done(if ascii then Join(t) else t, tail)
    decreases |t|
  {
    hide UnitEscape;
    hide UnitAt;
    hide HighOf;
    hide LowOf;
    var s := Escape(t, ascii) + [QUOTE] + tail;
    if t == [] {
      assert s == [QUOTE] + tail;
      assert s[1..] == tail;
    } else {
      var c := t[0];
      var after := Escape(t[1..], ascii) + [QUOTE] + tail;
      assert s == EscapeOne(c, ascii) + after;
      assert t == [c] + t[1..];
      if !(ascii && High(c)) {
        ScanOne(c, ascii, after);
        ScanEscaped(t[1..], ascii, tail);
      } else if |t| >= 2 && Low(t[1]) {
        assert t[1..][0] == t[1] && t[1..][1..] == t[2..];
        var after2 := Escape(t[2..], ascii) + [QUOTE] + tail;
        assert Escape(t[1..], ascii) == UnitEscape(t[1]) + Escape(t[2..], ascii);
        assert s == UnitEscape(c) + UnitEscape(t[1]) + after2;
        ScanPair(c, t[1], after2);
        ScanEscaped(t[2..], ascii, tail);
      } else {
        NextIsNotLow(t[1..], tail);
        ScanUnit(c, after);
        ScanEscaped(t[1..], ascii, tail);
      }
    }
  }

  /** Two strings are written alike by the ASCII writer exactly when they join alike. */
  lemma EscapeInjectiveUpToJoin(a: Text, b: Text)
    ensures Escape(a, true) == Escape(b, true) ==> Join(a) == Join(b)
    ensures NoPair(a) && NoPair(b) && Escape(a, true) == Escape(b, true) ==> a == b
  {
    ScanEscaped(a, true, []);
    ScanEscaped(b, true, []);
    JoinFixes(a);
    JoinFixes(b);
  }

  /** Every adjacent pair is written exactly like the one code point it encodes. */
  lemma PairCollides(high: Unit, low: Unit)
    requires High(high) && Low(low)
    ensures !NoPair([high, low]) && [high, low] != [Joined(high, low)]
    ensures Escape([high, low], true) == Escape([Joined(high, low)], true)
  {
    var p: Text := [high, low];
    var q: Text := [Joined(high, low)];
    assert High(p[0]) && Low(p[0 + 1]);
    assert p[1..] == [low];
    assert Escape([low], true) == UnitEscape(low) + Escape([], true);
    assert Escape(p, true) == UnitEscape(high) + Escape([low], true);
    assert Escape(q, true) == UnitEscape(high) + UnitEscape(low) + Escape([], true);
  }

  // ----- decoded strings hold no adjacent pair -----

  predicate NoSurrogates(s: Text) {
    forall i :: 0 <= i < |s| ==> !(High(s[i]) || Low(s[i]))
  }

  lemma {:induction false} ScanLeadingLow(s: Text)
    requires NoSurrogates(s)
    ensures var r := ScanString(s); r.Done? && |r.value| > 0 && Low(r.value[0]) ==> StartsUnit(s) && Low(UnitAt(s))
  {
    if s != [] && s[0] == BACKSLASH && !StartsUnit(s) && |s| >= 2 && ShortValue(s[1]).Some? {
      assert !Low(ShortValue(s[1]).value);
    }
  }

  lemma PrependNoPair(c: CodePoint, t: Text)
    requires NoPair(t) && (t == [] || !(High(c) && Low(t[0])))
    ensures NoPair([c] + t)
  {
    var r := [c] + t;
    forall i | 0 <= i < |r| - 1 ensures !(High(r[i]) && Low(r[i + 1])) {
      if i > 0 {
        assert r[i] == t[i - 1] && r[i + 1] == t[i];
      } else {
        assert r[1] == t[0];
      }
    }
  }

  /** Text without raw surrogates, as UTF-8 decoding gives it, decodes to pair-free strings. */
  lemma {:induction false} ScannedHasNoPair(s: Text)
    requires NoSurrogates(s)
    ensures ScanString(s).Done? ==> NoPair(ScanString(s).value) && NoSurrogates(ScanString(s).rest)
    decreases |s|
  {
    hide UnitAt;
    var r := ScanString(s);
    if r.Done? && s[0] != QUOTE {
      var k := if s[0] != BACKSLASH then 1
      else if !StartsUnit(s) then 2
      else if High(UnitAt(s)) && StartsUnit(s[6..]) && Low(UnitAt(s[6..])) then 12
      else 6;
      ScannedHasNoPair(s[k..]);
      ScanLeadingLow(s[k..]);
      var tail := ScanString(s[k..]);
      var c := r.value[0];
      assert r.value == [c] + tail.value;
      assert High(c) ==> k == 6;
      PrependNoPair(c, tail.value);
    }
  }
}
