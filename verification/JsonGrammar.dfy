/**
  The JSON grammar, given apart from the loader: concrete syntax trees with all their white
  space, escapes and number forms, how a tree is spelled and what it means. The loader
  accepts exactly the spellings of trees, and returns their meanings.
 */
module JsonGrammar {
  import opened Texts
  import opened JsonStrings
  import opened JsonText

  predicate Blank(t: Text) {
    forall i :: 0 <= i < |t| ==> t[i] in {0x09, 0x0A, 0x0D, 0x20}
  }

  // ----- strings -----

  /** A character of a string literal: itself, a backslash and a letter, or a backslash, u and four digits. */
  datatype Char = Itself(c: CodePoint) | Short(letter: CodePoint) | Escaped(a: CodePoint, b: CodePoint, c: CodePoint, d: CodePoint)

  function ShortMeaning(letter: CodePoint): CodePoint {
    match letter
    case 0x62 => 0x08
    case 0x66 => 0x0C
    case 0x6E => 0x0A
    case 0x72 => 0x0D
    case 0x74 => 0x09
    case _ => letter
  }

  predicate HexLetter(c: int) {
    0x30 <= c <= 0x39 || 0x41 <= c <= 0x46 || 0x61 <= c <= 0x66
  }

  function HexMeaning(c: int): (d: int)
    requires HexLetter(c)
    ensures 0 <= d < 16
  {
    if c <= 0x39 then c - 0x30 else if c <= 0x46 then c - 0x37 else c - 0x57
  }

  predicate CharGood(x: Char) {
    match x
    case Itself(c) => c >= 0x20 && c != 0x22 && c != 0x5C
    case Short(letter) => letter in {0x22, 0x2F, 0x5C, 0x62, 0x66, 0x6E, 0x72, 0x74}
    case Escaped(a, b, c, d) => HexLetter(a) && HexLetter(b) && HexLetter(c) && HexLetter(d)
  }

  predicate CharsGood(xs: seq<Char>) {
    forall i :: 0 <= i < |xs| ==> CharGood(xs[i])
  }

  function CharText(x: Char): (t: Text)
    ensures |t| > 0
  {
    match x
    case Itself(c) => [c]
    case Short(letter) => [0x5C, letter]
    case Escaped(a, b, c, d) => [0x5C, 0x75, a, b, c, d]
  }

  function CharsText(xs: seq<Char>): Text {
    if xs == [] then [] else CharText(xs[0]) + CharsText(xs[1..])
  }

  function CharMeaning(x: Char): CodePoint
    requires CharGood(x)
  {
    match x
    case Itself(c) => c
    case Short(letter) => ShortMeaning(letter)
    case Escaped(a, b, c, d) => ((HexMeaning(a) * 16 + HexMeaning(b)) * 16 + HexMeaning(c)) * 16 + HexMeaning(d)
  }

  /** Two escapes that together write one character beyond U+FFFF. */
  predicate IsPair(xs: seq<Char>)
    requires CharsGood(xs)
  {
    && |xs| >= 2 && xs[0].Escaped? && xs[1].Escaped?
    && 0xD800 <= CharMeaning(xs[0]) <= 0xDBFF && 0xDC00 <= CharMeaning(xs[1]) <= 0xDFFF
  }

  function CharsMeaning(xs: seq<Char>): Text
    requires CharsGood(xs)
  {
    if xs == [] then []
    else if IsPair(xs) then
      [0x1_0000 + (CharMeaning(xs[0]) - 0xD800) * 0x400 + (CharMeaning(xs[1]) - 0xDC00)] + CharsMeaning(xs[2..])
    else [CharMeaning(xs[0])] + CharsMeaning(xs[1..])
  }

  lemma EscapeRead(x: Char, rest: Text)
    requires CharGood(x) && x.Escaped?
    ensures StartsUnit(CharText(x) + rest) && UnitAt(CharText(x) + rest) == CharMeaning(x)
  {
    var a, b, c, d := HexOf(x.a), HexOf(x.b), HexOf(x.c), HexOf(x.d);
    assert HexMeaning(x.a) == a && HexMeaning(x.b) == b && HexMeaning(x.c) == c && HexMeaning(x.d) == d;
    assert ((a * 16 + b) * 16 + c) * 16 + d == a * 4096 + b * 256 + c * 16 + d;
  }

  lemma EscapeOnly(x: Char, rest: Text)
    requires CharGood(x) && !x.Escaped?
    ensures !StartsUnit(CharText(x) + rest)
  {
    var t := CharText(x) + rest;
    assert t[0] == CharText(x)[0] && (x.Short? ==> t[1] == x.letter);
  }

  /** The text of a literal's characters and its closing quote. */
  function Closed(xs: seq<Char>, rest: Text): Text {
    CharsText(xs) + ([0x22] + rest)
  }

  lemma ClosedOne(xs: seq<Char>, rest: Text)
    requires xs != []
    ensures Closed(xs, rest) == CharText(xs[0]) + Closed(xs[1..], rest)
  {
    hide CharText;
    var t, more, end := CharText(xs[0]), CharsText(xs[1..]), [0x22] + rest;
    assert t + more + end == t + (more + end);
  }

  /** What follows an escape starts with a second escape exactly when the next character is one. */
  lemma EscapeFollows(xs: seq<Char>, rest: Text)
    requires CharsGood(xs)
    ensures StartsUnit(Closed(xs, rest)) <==> xs != [] && xs[0].Escaped?
    ensures xs != [] && xs[0].Escaped? ==> UnitAt(Closed(xs, rest)) == CharMeaning(xs[0])
  {
    hide CharText;
    hide CharMeaning;
    if xs == [] {
      assert Closed(xs, rest) == [0x22] + rest;
    } else {
      ClosedOne(xs, rest);
      if xs[0].Escaped? {
        EscapeRead(xs[0], Closed(xs[1..], rest));
      } else {
        EscapeOnly(xs[0], Closed(xs[1..], rest));
      }
    }
  }

  lemma ScanItself(c: CodePoint, rest: Text)
    requires CharGood(Itself(c))
    ensures ScanString([c] + rest) == Prepend(c, ScanString(rest))
  {
    assert ([c] + rest)[1..] == rest;
  }

  lemma ScanShort(letter: CodePoint, rest: Text)
    requires CharGood(Short(letter))
    ensures ScanString([0x5C, letter] + rest) == Prepend(ShortMeaning(letter), ScanString(rest))
  {
    var s := [0x5C, letter] + rest;
    assert s[2..] == rest && s[1] == letter;
  }

  lemma ScanEscape(x: Char, rest: Text)
    requires CharGood(x) && x.Escaped?
    requires !(High(CharMeaning(x)) && StartsUnit(rest) && Low(UnitAt(rest)))
    ensures ScanString(CharText(x) + rest) == Prepend(CharMeaning(x), ScanString(rest))
  {
    EscapeRead(x, rest);
    var s := CharText(x) + rest;
    assert s[6..] == rest && s[0] == 0x5C;
  }

  lemma ScanPair(x: Char, y: Char, rest: Text)
    requires CharGood(x) && x.Escaped? && CharGood(y) && y.Escaped? && High(CharMeaning(x)) && Low(CharMeaning(y))
    ensures ScanString(CharText(x) + (CharText(y) + rest)) == Prepend(Joined(CharMeaning(x), CharMeaning(y)), ScanString(rest))
  {
    EscapeRead(x, CharText(y) + rest);
    EscapeRead(y, rest);
    var s := CharText(x) + (CharText(y) + rest);
    assert s[6..] == CharText(y) + rest && s[12..] == rest && s[0] == 0x5C;
  }

  /** A string literal is read back as what it means. */
  lemma {:induction false} CharsScan(xs: seq<Char>, rest: Text)
    requires CharsGood(xs)
    ensures ScanString(Closed(xs, rest)) == Done(CharsMeaning(xs), rest)
    decreases |xs|
  {
    hide ScanString;
    hide CharText;
    hide CharMeaning;
    hide CharGood;
    if xs == [] {
      QuoteScans(rest);
    } else {
      ClosedOne(xs, rest);
      var x, more := xs[0], xs[1..];
      if IsPair(xs) {
        ClosedOne(more, rest);
        ScanPair(x, xs[1], Closed(xs[2..], rest));
        assert more[1..] == xs[2..];
        CharsScan(xs[2..], rest);
      } else {
        CharsScan(more, rest);
        CharScans(xs, rest);
      }
    }
  }

  lemma QuoteScans(rest: Text)
    ensures ScanString(Closed([], rest)) == Done([], rest)
  {
    var s := Closed([], rest);
    assert s == [0x22] + rest && s[1..] == rest;
  }

  lemma CharScans(xs: seq<Char>, rest: Text)
    requires CharsGood(xs) && xs != [] && !IsPair(xs)
    ensures ScanString(CharText(xs[0]) + Closed(xs[1..], rest)) == Prepend(CharMeaning(xs[0]), ScanString(Closed(xs[1..], rest)))
  {
    hide ScanString;
    hide Closed;
    var after := Closed(xs[1..], rest);
    match xs[0]
    case Itself(c) => ScanItself(c, after);
    case Short(letter) => ScanShort(letter, after);
    case Escaped(_, _, _, _) =>
      EscapeFollows(xs[1..], rest);
      ScanEscape(xs[0], after);
  }

  lemma CharJoins(x: Char, more: seq<Char>, rest: Text)
    requires CharGood(x) && CharsGood(more)
    ensures CharsGood([x] + more) && Closed([x] + more, rest) == CharText(x) + Closed(more, rest)
    ensures !IsPair([x] + more) ==> CharsMeaning([x] + more) == [CharMeaning(x)] + CharsMeaning(more)
  {
    hide CharGood;
    hide CharText;
    hide CharMeaning;
    hide Closed;
    var xs := [x] + more;
    assert xs[1..] == more;
    ClosedOne(xs, rest);
  }

  lemma PairJoins(x: Char, y: Char, more: seq<Char>, rest: Text)
    requires CharGood(x) && CharGood(y) && CharsGood(more) && IsPair([x, y])
    ensures CharsGood([x, y] + more) && Closed([x, y] + more, rest) == CharText(x) + (CharText(y) + Closed(more, rest))
    ensures CharsMeaning([x, y] + more) == [Joined(CharMeaning(x), CharMeaning(y))] + CharsMeaning(more)
  {
    hide CharGood;
    hide CharText;
    hide CharMeaning;
    var xs := [x, y] + more;
    assert xs[1..] == [y] + more && xs[2..] == more;
    CharJoins(y, more, rest);
    ClosedOne(xs, rest);
  }

  lemma {:induction false} ScannedChars(s: Text) returns (xs: seq<Char>)
    requires ScanString(s).Done?
    ensures CharsGood(xs) && s == Closed(xs, ScanString(s).rest) && CharsMeaning(xs) == ScanString(s).value
    decreases |s|
  {
    hide CharText;
    hide CharMeaning;
    hide CharGood;
    hide Closed;
    hide CharsMeaning;
    hide UnitAt;
    hide StartsUnit;
    var rest := ScanString(s).rest;
    if s[0] == QUOTE {
      xs := [];
      NoChars(s);
    } else if s[0] == BACKSLASH && StartsUnit(s) {
      UnitInside(s);
      var x := UnitChar(s);
      if High(UnitAt(s)) && StartsUnit(s[6..]) && Low(UnitAt(s[6..])) {
        UnitInside(s[6..]);
        var y := UnitChar(s[6..]);
        assert s[6..][6..] == s[12..];
        var more := ScannedChars(s[12..]);
        xs := [x, y] + more;
        PairJoins(x, y, more, rest);
      } else {
        var more := ScannedChars(s[6..]);
        xs := [x] + more;
        EscapeFollows(more, rest);
        CharJoins(x, more, rest);
      }
    } else if s[0] == BACKSLASH {
      var more := ScannedChars(s[2..]);
      xs := [Short(s[1])] + more;
      ShortSays(s);
      CharJoins(xs[0], more, rest);
    } else {
      var more := ScannedChars(s[1..]);
      xs := [Itself(s[0])] + more;
      ItselfSays(s);
      CharJoins(xs[0], more, rest);
    }
  }

  lemma UnitInside(s: Text)
    requires StartsUnit(s)
    ensures |s| >= 6
  {
  }

  lemma NoChars(s: Text)
    requires s != [] && s[0] == QUOTE
    ensures CharsGood([]) && s == Closed([], s[1..]) && CharsMeaning([]) == []
  {
    assert s == [0x22] + s[1..];
  }

  lemma UnitChar(s: Text) returns (x: Char)
    requires StartsUnit(s)
    ensures x.Escaped? && CharGood(x) && CharMeaning(x) == UnitAt(s) && s == CharText(x) + s[6..]
  {
    x := Escaped(s[2], s[3], s[4], s[5]);
    assert s == CharText(x) + s[6..];
    EscapeRead(x, s[6..]);
  }

  lemma ShortSays(s: Text)
    requires |s| >= 2 && s[0] == BACKSLASH && ShortValue(s[1]).Some?
    ensures CharGood(Short(s[1])) && CharMeaning(Short(s[1])) == ShortValue(s[1]).value && s == CharText(Short(s[1])) + s[2..]
  {
  }

  lemma ItselfSays(s: Text)
    requires |s| >= 1 && s[0] >= 0x20 && s[0] != QUOTE && s[0] != BACKSLASH
    ensures CharGood(Itself(s[0])) && CharMeaning(Itself(s[0])) == s[0] && s == CharText(Itself(s[0])) + s[1..]
  {
  }

  // ----- numbers -----

  predicate Digits(t: Text) {
    t != [] && forall i :: 0 <= i < |t| ==> 0x30 <= t[i] <= 0x39
  }

  /** No leading zero. */
  predicate Whole(t: Text) {
    Digits(t) && (t[0] == 0x30 ==> |t| == 1)
  }

  predicate Fraction(t: Text) {
    t == [] || (t[0] == 0x2E && Digits(t[1..]))
  }

  predicate Exponent(t: Text) {
    t == [] || (t[0] in {0x45, 0x65} && (Digits(t[1..]) || (|t| > 1 && t[1] in {0x2B, 0x2D} && Digits(t[2..]))))
  }

  datatype Numeral = Numeral(minus: bool, whole: Text, fraction: Text, exponent: Text)

  predicate NumeralGood(n: Numeral) {
    Whole(n.whole) && Fraction(n.fraction) && Exponent(n.exponent)
  }

  function NumeralText(n: Numeral): Text {
    (if n.minus then [0x2D] else []) + (n.whole + (n.fraction + n.exponent))
  }

  function NumeralMeaning(n: Numeral): Node
    requires NumeralGood(n)
  {
    var magnitude: int := NatValue(n.whole);
    if n.fraction == [] && n.exponent == [] then Int(if n.minus then -magnitude else magnitude) else Float(NumeralText(n))
  }

  /** A run of digits before something that is no digit. */
  lemma RunOf(d: Text, r: Text)
    requires (forall i :: 0 <= i < |d| ==> IsDigit(d[i])) && (r == [] || !IsDigit(r[0]))
    ensures DigitRun(d + r) == |d|
  {
    DigitRunBefore(d, r);
    AllDigits(d);
  }

  lemma ExponentOf(e: Text)
    requires Exponent(e)
    ensures ExponentRun(e) == |e|
  {
    if e != [] {
      var sign := if |e| >= 2 && (e[1] == '+' as int || e[1] == MINUS) then 1 else 0;
      var d := e[1 + sign..];
      assert |d| > 0 && d[0] == e[1 + sign];
      assert d + [] == d;
      RunOf(d, []);
    }
  }

  lemma FractionOf(f: Text, e: Text)
    requires Fraction(f) && Exponent(e)
    ensures FractionRun(f + e) == |f|
  {
    if f == [] {
      assert f + e == e;
    } else {
      assert (f + e)[1..] == f[1..] + e;
      assert (f + e)[0] == f[0] && (f + e)[1] == f[1..][0];
      RunOf(f[1..], e);
    }
  }

  lemma RunsOf(n: Numeral)
    requires NumeralGood(n)
    ensures NumberRuns(n.whole + (n.fraction + n.exponent)) == Runs(|n.whole|, |n.fraction|, |n.exponent|)
  {
    hide DigitRun;
    hide FractionRun;
    hide ExponentRun;
    var w, f, e := n.whole, n.fraction, n.exponent;
    var d := w + (f + e);
    assert d[0] == w[0];
    assert f + e == [] || !IsDigit((f + e)[0]);
    RunOf(w, f + e);
    assert d[|w|..] == f + e && d[|w| + |f|..] == e;
    FractionOf(f, e);
    ExponentOf(e);
  }

  lemma NumeralScans(n: Numeral)
    requires NumeralGood(n)
    ensures ScanNumber(NumeralText(n)) == Done(NumeralMeaning(n), [])
  {
    hide NumberRuns;
    hide NatValue;
    RunsOf(n);
    var s := NumeralText(n);
    var d := n.whole + (n.fraction + n.exponent);
    if n.minus {
      assert s[0] == MINUS && s[1..] == d;
    } else {
      assert s == d && s[0] == n.whole[0] && s[0..] == d;
    }
    assert d[..|n.whole|] == n.whole;
    assert s[..|s|] == s && s[|s|..] == [];
  }

  lemma ExponentCut(t: Text)
    ensures ExponentRun(t) <= |t| && Exponent(t[..ExponentRun(t)])
  {
    var e := t[..ExponentRun(t)];
    if e != [] {
      var sign := if |t| >= 2 && (t[1] == '+' as int || t[1] == MINUS) then 1 else 0;
      var digits := DigitRun(t[1 + sign..]);
      assert e[1 + sign..] == t[1 + sign..][..digits];
    }
  }

  lemma FractionCut(t: Text)
    ensures FractionRun(t) <= |t| && Fraction(t[..FractionRun(t)])
  {
    var f := t[..FractionRun(t)];
    if f != [] {
      assert f[1..] == t[1..][..DigitRun(t[1..])];
    }
  }

  lemma ThreeCut(d: Text, a: nat, b: nat, c: nat)
    requires a + b + c <= |d|
    ensures d == d[..a] + (d[a..][..b] + (d[a + b..][..c] + d[a + b + c..]))
    ensures d[..a + b + c] == d[..a] + (d[a..][..b] + d[a + b..][..c])
  {
  }

  /** The numeral at the head of a text. */
  lemma NumeralAt(d: Text, minus: bool) returns (n: Numeral)
    requires NumberRuns(d).whole > 0
    ensures NumeralGood(n) && n.minus == minus
    ensures var r := NumberRuns(d);
      && r.Total() <= |d| && n.whole == d[..r.whole] && d[..r.Total()] == n.whole + (n.fraction + n.exponent)
      && (r.fraction == 0 <==> n.fraction == []) && (r.exponent == 0 <==> n.exponent == [])
  {
    hide DigitRun;
    hide WholeRun;
    hide FractionRun;
    hide ExponentRun;
    hide Exponent;
    hide Fraction;
    hide Whole;
    var r := NumberRuns(d);
    FractionCut(d[r.whole..]);
    ExponentCut(d[r.whole + r.fraction..]);
    WholeCut(d);
    n := Numeral(minus, d[..r.whole], d[r.whole..][..r.fraction], d[r.whole + r.fraction..][..r.exponent]);
    ThreeCut(d, r.whole, r.fraction, r.exponent);
  }

  lemma ScannedNumeral(s: Text) returns (n: Numeral)
    requires ScanNumber(s).Done?
    ensures NumeralGood(n) && s == NumeralText(n) + ScanNumber(s).rest && NumeralMeaning(n) == ScanNumber(s).value
  {
    hide NatValue;
    hide NumberRuns;
    hide Exponent;
    hide Fraction;
    hide NumeralText;
    var minus := if s != [] && s[0] == MINUS then 1 else 0;
    n := NumeralAt(s[minus..], minus == 1);
    NumeralCut(s, minus, NumberRuns(s[minus..]).Total(), n);
  }

  lemma NumeralCut(s: Text, minus: nat, total: nat, n: Numeral)
    requires minus == if n.minus then 1 else 0
    requires minus + total <= |s| && (n.minus ==> s[0] == MINUS)
    requires s[minus..][..total] == n.whole + (n.fraction + n.exponent)
    ensures s == NumeralText(n) + s[minus + total..] && s[..minus + total] == NumeralText(n)
  {
    assert s == s[..minus] + (s[minus..][..total] + s[minus + total..]);
    assert s[..minus + total] == s[..minus] + s[minus..][..total];
    assert s[..minus] == if n.minus then [0x2D] else [];
    var front, digits, rest := s[..minus], s[minus..][..total], s[minus + total..];
    assert front + (digits + rest) == front + digits + rest;
  }

  lemma WholeCut(t: Text)
    ensures WholeRun(t) <= |t| && (WholeRun(t) > 0 ==> Whole(t[..WholeRun(t)]))
  {
  }

  // ----- syntax trees -----

  datatype Tree =
    | Word(k: nat)
    | Number(n: Numeral)
    | String(xs: seq<Char>)
    | Array(gap: Text, items: seq<Item>)
    | Object(gap: Text, entries: seq<Entry>)

  /** An item between its white space. */
  datatype Item = Item(before: Text, tree: Tree, after: Text)

  /** White space, the key, white space, a colon, white space, the value, white space. */
  datatype Entry = Entry(before: Text, key: seq<Char>, gap: Text, lead: Text, tree: Tree, after: Text)

  function WordText(k: nat): string {
    match k
    case 0 => "null"
    case 1 => "true"
    case 2 => "false"
    case 3 => "NaN"
    case 4 => "Infinity"
    case _ => "-Infinity"
  }

  function WordMeaning(k: nat): Node {
    match k
    case 0 => Null
    case 1 => Bool(true)
    case 2 => Bool(false)
    case _ => Float(U(WordText(k)))
  }

  predicate Good(t: Tree)
    decreases t
  {
    match t
    case Word(k) => k < 6
    case Number(n) => NumeralGood(n)
    case String(xs) => CharsGood(xs)
    case Array(gap, items) => Blank(gap) && ItemsGood(items)
    case Object(gap, entries) => Blank(gap) && EntriesGood(entries)
  }

  predicate ItemsGood(items: seq<Item>)
    decreases items
  {
    forall i :: 0 <= i < |items| ==> Blank(items[i].before) && Good(items[i].tree) && Blank(items[i].after)
  }

  predicate EntriesGood(entries: seq<Entry>)
    decreases entries
  {
    forall i :: 0 <= i < |entries| ==>
      && Blank(entries[i].before) && CharsGood(entries[i].key) && Blank(entries[i].gap) && Blank(entries[i].lead)
      && Good(entries[i].tree) && Blank(entries[i].after)
  }

  function Spell(t: Tree): Text
    decreases t
  {
    match t
    case Word(k) => U(WordText(k))
    case Number(n) => NumeralText(n)
    case String(xs) => [0x22] + (CharsText(xs) + [0x22])
    case Array(gap, items) => if items == [] then [0x5B] + (gap + [0x5D]) else [0x5B] + (items[0].before + SpellItems(items, []))
    case Object(gap, entries) => if entries == [] then [0x7B] + (gap + [0x7D]) else [0x7B] + (entries[0].before + SpellEntries(entries, []))
  }

  /** The items from the first one's value to the closing bracket, and what follows it. */
  function SpellItems(items: seq<Item>, rest: Text): Text
    requires items != []
    decreases items
  {
    Spell(items[0].tree) + (items[0].after +
      (if |items| == 1 then [0x5D] + rest else [0x2C] + (items[1].before + SpellItems(items[1..], rest))))
  }

  function SpellEntries(entries: seq<Entry>, rest: Text): Text
    requires entries != []
    decreases entries
  {
    [0x22] + (CharsText(entries[0].key) + ([0x22] + (entries[0].gap + ([0x3A] + (entries[0].lead +
      (Spell(entries[0].tree) + (entries[0].after +
      (if |entries| == 1 then [0x7D] + rest else [0x2C] + (entries[1].before + SpellEntries(entries[1..], rest))))))))))
  }

  function Meaning(t: Tree): Node
    requires Good(t)
    decreases t
  {
    match t
    case Word(k) => WordMeaning(k)
    case Number(n) => NumeralMeaning(n)
    case String(xs) => Str(CharsMeaning(xs))
    case Array(_, items) => Arr(ItemsMeaning(items))
    case Object(_, entries) => Obj(EntriesMeaning(entries))
  }

  function ItemsMeaning(items: seq<Item>): seq<Node>
    requires ItemsGood(items)
    decreases items
  {
    if items == [] then [] else [Meaning(items[0].tree)] + ItemsMeaning(items[1..])
  }

  function EntriesMeaning(entries: seq<Entry>): seq<Member>
    requires EntriesGood(entries)
    decreases entries
  {
    if entries == [] then []
    else [Member(CharsMeaning(entries[0].key), Meaning(entries[0].tree))] + EntriesMeaning(entries[1..])
  }

  // ----- every spelling is read as its meaning -----

  lemma BlankSkips(gap: Text, t: Text)
    requires Blank(gap) && (t == [] || !IsSpace(t[0]))
    ensures SkipSpace(gap + t) == t
  {
    SkipSpaceOver(gap, t);
  }

  /** White space or a closing sign ends a number. */
  lemma BlankStops(gap: Text, t: Text)
    requires Blank(gap) && (t == [] || t[0] in {0x2C, 0x5D, 0x7D})
    ensures Stops(gap + t)
  {
    if gap == [] {
      assert gap + t == t;
    } else {
      assert (gap + t)[0] == gap[0];
    }
  }

  lemma NumeralHead(n: Numeral)
    requires NumeralGood(n)
    ensures var t := NumeralText(n); t != [] && (IsDigit(t[0]) || t[0] == MINUS)
  {
  }

  /** A value starts with no white space and no closing bracket. */
  lemma SpellHead(t: Tree)
    requires Good(t)
    ensures var r := Spell(t); r != [] && !IsSpace(r[0]) && r[0] != RBRACE && r[0] != RBRACKET
  {
    hide NumeralGood;
    hide NumeralText;
    hide CharsText;
    hide SpellItems;
    hide SpellEntries;
    if t.Number? {
      NumeralHead(t.n);
    }
  }

  lemma WordParses(k: nat, rest: Text)
    requires k < 6
    ensures ParseValue(U(WordText(k)) + rest) == Done(WordMeaning(k), rest)
  {
    hide ScanNumber;
    hide ScanString;
    hide ParseItems;
    hide ParseMembers;
    var w := U(WordText(k));
    var s := w + rest;
    assert s[..|w|] == w && s[|w|..] == rest && s[0] == w[0];
    WordHeads(s);
    WordIsNotNumber(s);
  }

  lemma NumeralParses(n: Numeral, rest: Text)
    requires NumeralGood(n) && Stops(rest)
    ensures ParseValue(NumeralText(n) + rest) == Done(NumeralMeaning(n), rest)
  {
    hide NumeralText;
    hide NumeralMeaning;
    hide NumeralGood;
    hide ScanNumber;
    NumeralScans(n);
    NumberBefore(NumeralText(n), rest);
    NumberIsNotWord(NumeralText(n) + rest);
  }

  lemma StringParses(xs: seq<Char>, rest: Text)
    requires CharsGood(xs)
    ensures ParseValue([0x22] + (CharsText(xs) + [0x22]) + rest) == Done(Str(CharsMeaning(xs)), rest)
  {
    hide ParseScalar;
    hide ScanString;
    hide ParseItems;
    hide ParseMembers;
    hide CharsText;
    hide CharsMeaning;
    var s := [0x22] + (CharsText(xs) + [0x22]) + rest;
    assert s[1..] == CharsText(xs) + ([0x22] + rest);
    CharsScan(xs, rest);
  }

  lemma OpenArray(gap: Text, body: Text)
    requires Blank(gap) && body != [] && !IsSpace(body[0])
    ensures var r := ParseValue([0x5B] + (gap + body));
      if body[0] == RBRACKET then r == Done(Arr([]), body[1..])
      else if ParseItems(body).Fail? then r == Fail else r == Done(Arr(ParseItems(body).value), ParseItems(body).rest)
  {
    hide ParseScalar;
    hide ScanString;
    hide ParseItems;
    hide ParseMembers;
    var s := [0x5B] + (gap + body);
    assert s[1..] == gap + body;
    BlankSkips(gap, body);
  }

  lemma OpenObject(gap: Text, body: Text)
    requires Blank(gap) && body != [] && !IsSpace(body[0])
    ensures var r := ParseValue([0x7B] + (gap + body));
      if body[0] == RBRACE then r == Done(Obj([]), body[1..])
      else if ParseMembers(body).Fail? then r == Fail else r == Done(Obj(ParseMembers(body).value), ParseMembers(body).rest)
  {
    hide ParseScalar;
    hide ScanString;
    hide ParseItems;
    hide ParseMembers;
    var s := [0x7B] + (gap + body);
    assert s[1..] == gap + body;
    BlankSkips(gap, body);
  }

  /** What stands between one item and the next, or after the last. */
  function AfterItem(items: seq<Item>, rest: Text): (t: Text)
    requires items != []
    ensures t != [] && t[0] in {0x2C, 0x5D}
  {
    if |items| == 1 then [0x5D] + rest else [0x2C] + (items[1].before + SpellItems(items[1..], rest))
  }

  function AfterEntry(entries: seq<Entry>, rest: Text): (t: Text)
    requires entries != []
    ensures t != [] && t[0] in {0x2C, 0x7D}
  {
    if |entries| == 1 then [0x7D] + rest else [0x2C] + (entries[1].before + SpellEntries(entries[1..], rest))
  }

  lemma FirstItem(items: seq<Item>, rest: Text)
    requires items != []
    ensures SpellItems(items, rest) == Spell(items[0].tree) + (items[0].after + AfterItem(items, rest))
  {
    hide Spell;
  }

  /** The value of an entry and what follows it. */
  function EntryValue(entries: seq<Entry>, rest: Text): Text
    requires entries != []
  {
    Spell(entries[0].tree) + (entries[0].after + AfterEntry(entries, rest))
  }

  lemma FirstEntry(entries: seq<Entry>, rest: Text)
    requires entries != []
    ensures SpellEntries(entries, rest) ==
      [0x22] + Closed(entries[0].key, entries[0].gap + ([0x3A] + (entries[0].lead + EntryValue(entries, rest))))
  {
    hide Spell;
    hide CharsText;
  }

  lemma ItemRegrouped(p: Text, a: Text, m: Text, rest: Text)
    ensures p + (a + m) + rest == p + (a + (m + rest))
  {
  }

  lemma {:induction false} ItemsRest(items: seq<Item>, rest: Text)
    requires items != []
    ensures SpellItems(items, []) + rest == SpellItems(items, rest)
    decreases |items|
  {
    hide Spell;
    hide SpellItems;
    FirstItem(items, []);
    FirstItem(items, rest);
    ItemRegrouped(Spell(items[0].tree), items[0].after, AfterItem(items, []), rest);
    if |items| == 1 {
      assert [0x5D] + [] + rest == [0x5D] + rest;
    } else {
      ItemsRest(items[1..], rest);
      var b, m := items[1].before, SpellItems(items[1..], []);
      assert [0x2C] + (b + m) + rest == [0x2C] + (b + (m + rest));
    }
  }

  lemma Regrouped(key: Text, gap: Text, lead: Text, p: Text, a: Text, m: Text, rest: Text)
    ensures [0x22] + (key + ([0x22] + (gap + ([0x3A] + (lead + (p + (a + m))))))) + rest ==
      [0x22] + (key + ([0x22] + (gap + ([0x3A] + (lead + (p + (a + (m + rest))))))))
  {
  }

  lemma {:induction false} EntriesRest(entries: seq<Entry>, rest: Text)
    requires entries != []
    ensures SpellEntries(entries, []) + rest == SpellEntries(entries, rest)
    decreases |entries|
  {
    hide Spell;
    hide SpellEntries;
    hide CharsText;
    FirstEntry(entries, []);
    FirstEntry(entries, rest);
    var e := entries[0];
    Regrouped(CharsText(e.key), e.gap, e.lead, Spell(e.tree), e.after, AfterEntry(entries, []), rest);
    if |entries| == 1 {
      assert [0x7D] + [] + rest == [0x7D] + rest;
    } else {
      EntriesRest(entries[1..], rest);
      var b, m := entries[1].before, SpellEntries(entries[1..], []);
      assert [0x2C] + (b + m) + rest == [0x2C] + (b + (m + rest));
    }
  }

  lemma ItemRead(p: Text, x: Node, after: Text, tail: Text)
    requires ParseValue(p + (after + tail)) == Done(x, after + tail) && Blank(after) && tail != [] && tail[0] in {0x2C, 0x5D}
    ensures var r := ParseItems(p + (after + tail)); var more := ParseItems(SkipSpace(tail[1..]));
      if tail[0] == 0x5D then r == Done([x], tail[1..])
      else if more.Fail? then r == Fail else r == Done([x] + more.value, more.rest)
  {
    hide ParseValue;
    BlankSkips(after, tail);
    hide SkipSpace;
  }

  lemma MemberRead(key: seq<Char>, gap: Text, lead: Text, body: Text)
    requires CharsGood(key) && Blank(gap) && Blank(lead) && body != [] && !IsSpace(body[0])
    ensures var r := ParseMember([0x22] + Closed(key, gap + ([0x3A] + (lead + body))));
      if ParseValue(body).Fail? then r == Fail else r == Done(Member(CharsMeaning(key), ParseValue(body).value), ParseValue(body).rest)
  {
    hide ParseValue;
    hide ScanString;
    hide CharsText;
    hide CharsMeaning;
    hide CharsGood;
    hide Closed;
    var after := [0x3A] + (lead + body);
    var s := [0x22] + Closed(key, gap + after);
    assert s[1..] == Closed(key, gap + after);
    CharsScan(key, gap + after);
    BlankSkips(gap, after);
    assert after[1..] == lead + body;
    BlankSkips(lead, body);
    hide SkipSpace;
  }

  lemma EntryRead(s: Text, m: Member, after: Text, tail: Text)
    requires ParseMember(s) == Done(m, after + tail) && Blank(after) && tail != [] && tail[0] in {0x2C, 0x7D}
    ensures var r := ParseMembers(s); var more := ParseMembers(SkipSpace(tail[1..]));
      if tail[0] == 0x7D then r == Done([m], tail[1..])
      else if more.Fail? then r == Fail else r == Done([m] + more.value, more.rest)
  {
    hide ParseMember;
    BlankSkips(after, tail);
    hide SkipSpace;
  }

  /** A nonempty array, once its items are read. */
  lemma ArrayRead(gap: Text, items: seq<Item>, rest: Text)
    requires ItemsGood(items) && items != [] && ParseItems(SpellItems(items, rest)) == Done(ItemsMeaning(items), rest)
    ensures ParseValue(Spell(Array(gap, items)) + rest) == Done(Arr(ItemsMeaning(items)), rest)
  {
    hide ParseValue;
    hide ParseItems;
    hide SpellItems;
    hide ItemsMeaning;
    hide Good;
    var before, body := items[0].before, SpellItems(items, rest);
    ItemsRest(items, rest);
    FirstItem(items, rest);
    ItemsHead(items, rest);
    assert [0x5B] + (before + SpellItems(items, [])) + rest == [0x5B] + (before + body);
    OpenArray(before, body);
  }

  lemma ItemsHead(items: seq<Item>, rest: Text)
    requires ItemsGood(items) && items != []
    ensures var t := SpellItems(items, rest); t != [] && !IsSpace(t[0]) && t[0] != RBRACKET
  {
    hide Spell;
    hide SpellItems;
    hide Good;
    FirstItem(items, rest);
    SpellHead(items[0].tree);
  }

  lemma EmptyArrayRead(gap: Text, rest: Text)
    requires Blank(gap)
    ensures ParseValue(Spell(Array(gap, [])) + rest) == Done(Arr([]), rest)
  {
    hide ParseValue;
    var body := [0x5D] + rest;
    assert [0x5B] + (gap + [0x5D]) + rest == [0x5B] + (gap + body);
    assert body[1..] == rest;
    OpenArray(gap, body);
  }

  lemma EmptyObjectRead(gap: Text, rest: Text)
    requires Blank(gap)
    ensures ParseValue(Spell(Object(gap, [])) + rest) == Done(Obj([]), rest)
  {
    hide ParseValue;
    var body := [0x7D] + rest;
    assert [0x7B] + (gap + [0x7D]) + rest == [0x7B] + (gap + body);
    assert body[1..] == rest;
    OpenObject(gap, body);
  }

  lemma ObjectRead(gap: Text, entries: seq<Entry>, rest: Text)
    requires EntriesGood(entries) && entries != [] && ParseMembers(SpellEntries(entries, rest)) == Done(EntriesMeaning(entries), rest)
    ensures ParseValue(Spell(Object(gap, entries)) + rest) == Done(Obj(EntriesMeaning(entries)), rest)
  {
    hide ParseValue;
    hide ParseMembers;
    hide SpellEntries;
    hide EntriesMeaning;
    hide Good;
    hide CharsGood;
    hide Closed;
    var before, body := entries[0].before, SpellEntries(entries, rest);
    EntriesRest(entries, rest);
    FirstEntry(entries, rest);
    assert body[0] == 0x22;
    assert [0x7B] + (before + SpellEntries(entries, [])) + rest == [0x7B] + (before + body);
    OpenObject(before, body);
  }

  /** Every spelling, with a stop after it, is read as its meaning. */
  lemma {:induction false} TreeParses(t: Tree, rest: Text)
    requires Good(t) && Stops(rest)
    ensures ParseValue(Spell(t) + rest) == Done(Meaning(t), rest)
    decreases t, 1
  {
    hide ParseValue;
    hide ParseItems;
    hide ParseMembers;
    hide SpellItems;
    hide SpellEntries;
    match t
    case Word(k) => WordParses(k, rest);
    case Number(n) => NumeralParses(n, rest);
    case String(xs) => StringParses(xs, rest);
    case Array(gap, items) =>
      if items == [] {
        EmptyArrayRead(gap, rest);
      } else {
        ItemsParse(items, rest);
        ArrayRead(gap, items, rest);
      }
    case Object(gap, entries) =>
      if entries == [] {
        EmptyObjectRead(gap, rest);
      } else {
        EntriesParse(entries, rest);
        ObjectRead(gap, entries, rest);
      }
  }

  lemma ItemsTail(items: seq<Item>)
    requires ItemsGood(items) && items != []
    ensures Good(items[0].tree) && Blank(items[0].after) && ItemsGood(items[1..])
    ensures ItemsMeaning(items) == [Meaning(items[0].tree)] + ItemsMeaning(items[1..])
    ensures |items| > 1 ==> Blank(items[1].before)
  {
    hide Meaning;
    hide Good;
    hide Blank;
  }

  lemma {:induction false} ItemsParse(items: seq<Item>, rest: Text)
    requires ItemsGood(items) && items != []
    ensures ParseItems(SpellItems(items, rest)) == Done(ItemsMeaning(items), rest)
    decreases items
  {
    hide ParseValue;
    hide ParseItems;
    hide Spell;
    hide SpellItems;
    hide Meaning;
    hide ItemsMeaning;
    hide Good;
    hide ItemsGood;
    hide Stops;
    hide SkipSpace;
    hide Blank;
    ItemsTail(items);
    FirstItem(items, rest);
    var x, more := items[0], items[1..];
    var tail := AfterItem(items, rest);
    BlankStops(x.after, tail);
    TreeParses(x.tree, x.after + tail);
    ItemRead(Spell(x.tree), Meaning(x.tree), x.after, tail);
    if |items| == 1 {
      NoItems(more);
      assert tail[1..] == rest && [Meaning(x.tree)] + [] == [Meaning(x.tree)];
    } else {
      ItemsParse(more, rest);
      ItemsHead(more, rest);
      assert tail[1..] == items[1].before + SpellItems(more, rest);
      BlankSkips(items[1].before, SpellItems(more, rest));
    }
  }

  lemma NoItems(items: seq<Item>)
    requires items == []
    ensures ItemsGood(items) && ItemsMeaning(items) == []
  {
  }

  lemma EntriesTail(entries: seq<Entry>)
    requires EntriesGood(entries) && entries != []
    ensures var e := entries[0]; Good(e.tree) && CharsGood(e.key) && Blank(e.gap) && Blank(e.lead) && Blank(e.after)
    ensures EntriesGood(entries[1..]) && (|entries| > 1 ==> Blank(entries[1].before))
    ensures EntriesMeaning(entries) ==
      [Member(CharsMeaning(entries[0].key), Meaning(entries[0].tree))] + EntriesMeaning(entries[1..])
  {
    hide Meaning;
    hide CharsMeaning;
    hide CharsGood;
    hide Good;
    hide Blank;
  }

  lemma NoEntries(entries: seq<Entry>)
    requires entries == []
    ensures EntriesGood(entries) && EntriesMeaning(entries) == []
  {
  }

  lemma EntriesHead(entries: seq<Entry>, rest: Text)
    requires entries != []
    ensures var t := SpellEntries(entries, rest); t != [] && t[0] == 0x22 && !IsSpace(t[0])
  {
    hide Spell;
    hide CharsText;
  }

  lemma {:induction false} EntriesParse(entries: seq<Entry>, rest: Text)
    requires EntriesGood(entries) && entries != []
    ensures ParseMembers(SpellEntries(entries, rest)) == Done(EntriesMeaning(entries), rest)
    decreases entries
  {
    hide ParseValue;
    hide ParseMember;
    hide ParseMembers;
    hide Spell;
    hide SpellEntries;
    hide Meaning;
    hide EntriesMeaning;
    hide Good;
    hide EntriesGood;
    hide CharsGood;
    hide CharsMeaning;
    hide Closed;
    hide Stops;
    hide SkipSpace;
    hide Blank;
    EntriesTail(entries);
    FirstEntry(entries, rest);
    var e, more := entries[0], entries[1..];
    var tail := AfterEntry(entries, rest);
    BlankStops(e.after, tail);
    TreeParses(e.tree, e.after + tail);
    SpellHead(e.tree);
    MemberRead(e.key, e.gap, e.lead, EntryValue(entries, rest));
    EntryRead(SpellEntries(entries, rest), Member(CharsMeaning(e.key), Meaning(e.tree)), e.after, tail);
    if |entries| == 1 {
      NoEntries(more);
      var m := Member(CharsMeaning(e.key), Meaning(e.tree));
      assert tail[1..] == rest && [m] + [] == [m];
    } else {
      EntriesParse(more, rest);
      EntriesHead(more, rest);
      assert tail[1..] == entries[1].before + SpellEntries(more, rest);
      BlankSkips(entries[1].before, SpellEntries(more, rest));
    }
  }

  // ----- everything that is read is a spelling -----

  lemma {:induction false} SpaceBefore(s: Text) returns (gap: Text)
    ensures Blank(gap) && s == gap + SkipSpace(s)
  {
    gap := [];
    if s != [] && IsSpace(s[0]) {
      var more := SpaceBefore(s[1..]);
      gap := [s[0]] + more;
    }
  }

  lemma ScalarOf(s: Text) returns (t: Tree)
    requires ParseScalar(s).Done?
    ensures Good(t) && s == Spell(t) + ParseScalar(s).rest && Meaning(t) == ParseScalar(s).value
  {
    hide ScanNumber;
    if !ScanNumber(s).Done? || StartsWith(s, NULL_WORD) || StartsWith(s, TRUE_WORD) || StartsWith(s, FALSE_WORD) {
      var k := if StartsWith(s, NULL_WORD) then 0 else if StartsWith(s, TRUE_WORD) then 1 else if StartsWith(s, FALSE_WORD) then 2
               else if StartsWith(s, NAN_WORD) then 3 else if StartsWith(s, INFINITY_WORD) then 4 else 5;
      t := Word(k);
      var w := U(WordText(k));
      assert StartsWith(s, w) && s == w + s[|w|..];
    } else {
      var n := ScannedNumeral(s);
      t := Number(n);
    }
  }

  lemma StringOf(s: Text) returns (t: Tree)
    requires s != [] && s[0] == QUOTE && ScanString(s[1..]).Done?
    ensures Good(t) && s == Spell(t) + ScanString(s[1..]).rest && Meaning(t) == Str(ScanString(s[1..]).value)
  {
    hide ScanString;
    hide CharsText;
    hide CharsMeaning;
    hide CharsGood;
    var xs := ScannedChars(s[1..]);
    t := String(xs);
    var rest := ScanString(s[1..]).rest;
    assert [0x22] + (CharsText(xs) + ([0x22] + rest)) == [0x22] + (CharsText(xs) + [0x22]) + rest;
  }

  /** Items whose first one has this white space before it. */
  function Led(items: seq<Item>, gap: Text): seq<Item>
    requires items != []
  {
    [items[0].(before := gap)] + items[1..]
  }

  lemma LedItems(items: seq<Item>, gap: Text, rest: Text)
    requires ItemsGood(items) && items != [] && Blank(gap)
    ensures ItemsGood(Led(items, gap)) && ItemsMeaning(Led(items, gap)) == ItemsMeaning(items)
    ensures SpellItems(Led(items, gap), rest) == SpellItems(items, rest)
  {
    hide Good;
    hide Spell;
    hide Meaning;
    var led := Led(items, gap);
    assert led[1..] == items[1..];
  }

  function LedEntries(entries: seq<Entry>, gap: Text): seq<Entry>
    requires entries != []
  {
    [entries[0].(before := gap)] + entries[1..]
  }

  lemma LedEntriesHold(entries: seq<Entry>, gap: Text, rest: Text)
    requires EntriesGood(entries) && entries != [] && Blank(gap)
    ensures EntriesGood(LedEntries(entries, gap)) && EntriesMeaning(LedEntries(entries, gap)) == EntriesMeaning(entries)
    ensures SpellEntries(LedEntries(entries, gap), rest) == SpellEntries(entries, rest)
  {
    hide Good;
    hide Spell;
    hide Meaning;
    hide CharsGood;
    hide CharsText;
    hide CharsMeaning;
    var led := LedEntries(entries, gap);
    assert led[1..] == entries[1..];
  }

  lemma ArraySpelled(items: seq<Item>, gap: Text, s: Text, rest: Text)
    requires ItemsGood(items) && items != [] && Blank(gap) && s == [0x5B] + (gap + SpellItems(items, rest))
    ensures var t := Array([], Led(items, gap)); Good(t) && s == Spell(t) + rest && Meaning(t) == Arr(ItemsMeaning(items))
  {
    hide ItemsGood;
    hide SpellItems;
    hide ItemsMeaning;
    var led := Led(items, gap);
    LedItems(items, gap, rest);
    LedItems(items, gap, []);
    ItemsRest(items, rest);
    var body := SpellItems(items, []);
    assert [0x5B] + (gap + body) + rest == [0x5B] + (gap + (body + rest));
  }

  lemma ObjectSpelled(entries: seq<Entry>, gap: Text, s: Text, rest: Text)
    requires EntriesGood(entries) && entries != [] && Blank(gap) && s == [0x7B] + (gap + SpellEntries(entries, rest))
    ensures var t := Object([], LedEntries(entries, gap)); Good(t) && s == Spell(t) + rest && Meaning(t) == Obj(EntriesMeaning(entries))
  {
    hide EntriesGood;
    hide SpellEntries;
    hide EntriesMeaning;
    var led := LedEntries(entries, gap);
    LedEntriesHold(entries, gap, rest);
    LedEntriesHold(entries, gap, []);
    EntriesRest(entries, rest);
    var body := SpellEntries(entries, []);
    assert [0x7B] + (gap + body) + rest == [0x7B] + (gap + (body + rest));
  }

  lemma EmptySpelled(gap: Text, rest: Text)
    requires Blank(gap)
    ensures var t := Array(gap, []); Good(t) && [0x5B] + (gap + ([0x5D] + rest)) == Spell(t) + rest && Meaning(t) == Arr([])
    ensures var t := Object(gap, []); Good(t) && [0x7B] + (gap + ([0x7D] + rest)) == Spell(t) + rest && Meaning(t) == Obj([])
  {
    assert [0x5B] + (gap + ([0x5D] + rest)) == [0x5B] + (gap + [0x5D]) + rest;
    assert [0x7B] + (gap + ([0x7D] + rest)) == [0x7B] + (gap + [0x7D]) + rest;
  }

  lemma LastItemSpelled(t: Tree, gap: Text, rest: Text)
    requires Good(t) && Blank(gap)
    ensures var items := [Item([], t, gap)];
      ItemsGood(items) && SpellItems(items, rest) == Spell(t) + (gap + ([0x5D] + rest)) && ItemsMeaning(items) == [Meaning(t)]
  {
    hide Good;
    hide Spell;
    hide Meaning;
    var items := [Item([], t, gap)];
    assert items[1..] == [];
    NoItems(items[1..]);
    assert [Meaning(t)] + [] == [Meaning(t)];
  }

  lemma MoreItemsSpelled(t: Tree, gap: Text, gap': Text, more: seq<Item>, rest: Text)
    requires Good(t) && Blank(gap) && Blank(gap') && ItemsGood(more) && more != []
    ensures var items := [Item([], t, gap)] + Led(more, gap');
      && ItemsGood(items) && SpellItems(items, rest) == Spell(t) + (gap + ([0x2C] + (gap' + SpellItems(more, rest))))
      && ItemsMeaning(items) == [Meaning(t)] + ItemsMeaning(more)
  {
    hide Good;
    hide Spell;
    hide Meaning;
    LedItems(more, gap', rest);
    var items := [Item([], t, gap)] + Led(more, gap');
    assert items[1..] == Led(more, gap');
  }

  lemma LastEntrySpelled(key: seq<Char>, gap: Text, lead: Text, t: Tree, after: Text, rest: Text)
    requires CharsGood(key) && Blank(gap) && Blank(lead) && Good(t) && Blank(after)
    ensures var es := [Entry([], key, gap, lead, t, after)];
      && EntriesGood(es) && EntriesMeaning(es) == [Member(CharsMeaning(key), Meaning(t))]
      && SpellEntries(es, rest) == [0x22] + Closed(key, gap + ([0x3A] + (lead + (Spell(t) + (after + ([0x7D] + rest))))))
  {
    hide Good;
    hide Spell;
    hide Meaning;
    hide CharsGood;
    hide CharsText;
    hide CharsMeaning;
    var es := [Entry([], key, gap, lead, t, after)];
    assert es[1..] == [];
    NoEntries(es[1..]);
    var m := Member(CharsMeaning(key), Meaning(t));
    assert [m] + [] == [m];
  }

  lemma MoreEntriesSpelled(key: seq<Char>, gap: Text, lead: Text, t: Tree, after: Text, gap': Text, more: seq<Entry>, rest: Text)
    requires CharsGood(key) && Blank(gap) && Blank(lead) && Good(t) && Blank(after)
    requires Blank(gap') && EntriesGood(more) && more != []
    ensures var es := [Entry([], key, gap, lead, t, after)] + LedEntries(more, gap');
      && EntriesGood(es) && EntriesMeaning(es) == [Member(CharsMeaning(key), Meaning(t))] + EntriesMeaning(more)
      && SpellEntries(es, rest) ==
           [0x22] + Closed(key, gap + ([0x3A] + (lead + (Spell(t) + (after + ([0x2C] + (gap' + SpellEntries(more, rest))))))))
  {
    hide Good;
    hide Spell;
    hide Meaning;
    hide CharsGood;
    hide CharsText;
    hide CharsMeaning;
    LedEntriesHold(more, gap', rest);
    var es := [Entry([], key, gap, lead, t, after)] + LedEntries(more, gap');
    assert es[1..] == LedEntries(more, gap');
  }

  /** Everything the loader reads is the spelling of a tree. */
  lemma {:induction false} TreeOf(s: Text) returns (t: Tree)
    requires ParseValue(s).Done?
    ensures Good(t) && s == Spell(t) + ParseValue(s).rest && Meaning(t) == ParseValue(s).value
    decreases |s|, 0
  {
    hide Good;
    hide Spell;
    hide Meaning;
    hide ParseScalar;
    hide ScanString;
    hide ParseItems;
    hide ParseMembers;
    hide SkipSpace;
    if s[0] == QUOTE {
      t := StringOf(s);
    } else if s[0] == LBRACE || s[0] == LBRACKET {
      var gap := SpaceBefore(s[1..]);
      var body := SkipSpace(s[1..]);
      assert s == [s[0]] + (gap + body);
      if s[0] == LBRACE {
        if body[0] == RBRACE {
          EmptySpelled(gap, body[1..]);
          assert body == [0x7D] + body[1..];
          t := Object(gap, []);
        } else {
          var entries := EntriesOf(body);
          ObjectSpelled(entries, gap, s, ParseMembers(body).rest);
          t := Object([], LedEntries(entries, gap));
        }
      } else {
        if body[0] == RBRACKET {
          EmptySpelled(gap, body[1..]);
          assert body == [0x5D] + body[1..];
          t := Array(gap, []);
        } else {
          var items := ItemsOf(body);
          ArraySpelled(items, gap, s, ParseItems(body).rest);
          t := Array([], Led(items, gap));
        }
      }
    } else {
      t := ScalarOf(s);
    }
  }

  lemma {:induction false} ItemsOf(s: Text) returns (items: seq<Item>)
    requires ParseItems(s).Done?
    ensures items != [] && ItemsGood(items) && s == SpellItems(items, ParseItems(s).rest) && ItemsMeaning(items) == ParseItems(s).value
    decreases |s|, 1
  {
    hide Good;
    hide ItemsGood;
    hide Spell;
    hide SpellItems;
    hide Meaning;
    hide ItemsMeaning;
    hide ParseValue;
    hide SkipSpace;
    var t := TreeOf(s);
    var after := ParseValue(s).rest;
    var gap := SpaceBefore(after);
    var tail := SkipSpace(after);
    if tail[0] == RBRACKET {
      assert tail == [0x5D] + tail[1..];
      LastItemSpelled(t, gap, tail[1..]);
      items := [Item([], t, gap)];
    } else {
      assert tail == [0x2C] + tail[1..];
      var gap' := SpaceBefore(tail[1..]);
      var more := ItemsOf(SkipSpace(tail[1..]));
      MoreItemsSpelled(t, gap, gap', more, ParseItems(s).rest);
      items := [Item([], t, gap)] + Led(more, gap');
    }
  }

  /** A key, its colon and its value. */
  lemma {:induction false} MemberOf(s: Text) returns (key: seq<Char>, gap: Text, lead: Text, t: Tree)
    requires ParseMember(s).Done?
    ensures CharsGood(key) && Blank(gap) && Blank(lead) && Good(t)
    ensures ParseMember(s).value == Member(CharsMeaning(key), Meaning(t))
    ensures s == [0x22] + Closed(key, gap + ([0x3A] + (lead + (Spell(t) + ParseMember(s).rest))))
    decreases |s|, 0
  {
    hide Good;
    hide Spell;
    hide Meaning;
    hide CharsGood;
    hide CharsMeaning;
    hide Closed;
    hide ParseValue;
    hide ScanString;
    hide SkipSpace;
    key := ScannedChars(s[1..]);
    var rest := ScanString(s[1..]).rest;
    assert s == [0x22] + s[1..];
    gap := SpaceBefore(rest);
    var colon := SkipSpace(rest);
    assert colon == [0x3A] + colon[1..];
    lead := SpaceBefore(colon[1..]);
    t := TreeOf(SkipSpace(colon[1..]));
  }

  lemma {:induction false} EntriesOf(s: Text) returns (entries: seq<Entry>)
    requires ParseMembers(s).Done?
    ensures entries != [] && EntriesGood(entries)
    ensures s == SpellEntries(entries, ParseMembers(s).rest) && EntriesMeaning(entries) == ParseMembers(s).value
    decreases |s|, 1
  {
    hide Good;
    hide EntriesGood;
    hide Spell;
    hide SpellEntries;
    hide Meaning;
    hide EntriesMeaning;
    hide CharsGood;
    hide CharsMeaning;
    hide Closed;
    hide ParseMember;
    hide SkipSpace;
    var key, gap, lead, t := MemberOf(s);
    var rest := ParseMember(s).rest;
    var after := SpaceBefore(rest);
    var tail := SkipSpace(rest);
    if tail[0] == RBRACE {
      assert tail == [0x7D] + tail[1..];
      LastEntrySpelled(key, gap, lead, t, after, tail[1..]);
      entries := [Entry([], key, gap, lead, t, after)];
    } else {
      assert tail == [0x2C] + tail[1..];
      var gap' := SpaceBefore(tail[1..]);
      var more := EntriesOf(SkipSpace(tail[1..]));
      MoreEntriesSpelled(key, gap, lead, t, after, gap', more, ParseMembers(s).rest);
      entries := [Entry([], key, gap, lead, t, after)] + LedEntries(more, gap');
    }
  }

  // ----- the loader -----

  predicate IsText(s: Text, v: Node, lead: Text, t: Tree, tail: Text) {
    Blank(lead) && Blank(tail) && Good(t) && Meaning(t) == v && s == lead + (Spell(t) + tail)
  }

  /** json.loads reads exactly the texts of the grammar, each as what it means. */
  lemma LoadsExactly(s: Text, v: Node)
    ensures Loads(s) == Some(v) <==> exists lead, t, tail :: IsText(s, v, lead, t, tail)
  {
    hide Good;
    hide Spell;
    hide Meaning;
    hide ParseValue;
    hide SkipSpace;
    if Loads(s) == Some(v) {
      var lead := SpaceBefore(s);
      var t := TreeOf(SkipSpace(s));
      var rest := ParseValue(SkipSpace(s)).rest;
      var tail := SpaceBefore(rest);
      assert tail + [] == tail;
      assert IsText(s, v, lead, t, tail);
    }
    if lead, t, tail :| IsText(s, v, lead, t, tail) {
      SpellHead(t);
      BlankSkips(lead, Spell(t) + tail);
      assert tail + [] == tail;
      BlankStops(tail, []);
      TreeParses(t, tail);
      BlankSkips(tail, []);
    }
  }

  /** A text has one meaning. */
  lemma MeaningUnique(s: Text, v: Node, w: Node, lead: Text, t: Tree, tail: Text, lead': Text, t': Tree, tail': Text)
    requires IsText(s, v, lead, t, tail) && IsText(s, w, lead', t', tail')
    ensures v == w
  {
    hide IsText;
    LoadsExactly(s, v);
    LoadsExactly(s, w);
  }
}
