/**
  Documents as json.loads reads them and json.dumps writes them (RFC 8259). An object
  is kept as its member list in source order, which is what object_pairs_hook receives.
  The scanner is as lenient as Python's: whitespace between tokens, both hex cases,
  floats, NaN and the infinities, duplicate keys.
 */
module JsonText {
  import opened Texts
  import opened JsonStrings

  /** A float is carried by the characters it is written with. */
  datatype Node =
    | Null
    | Bool(b: bool)
    | Int(n: int)
    | Float(lexeme: Text)
    | Str(s: Text)
    | Arr(items: seq<Node>)
    | Obj(members: seq<Member>)

  datatype Member = Member(key: Text, value: Node)

  const COMMA: CodePoint := ',' as int
  const COLON: CodePoint := ':' as int
  const LBRACE: CodePoint := '{' as int
  const RBRACE: CodePoint := '}' as int
  const LBRACKET: CodePoint := '[' as int
  const RBRACKET: CodePoint := ']' as int
  const MINUS: CodePoint := '-' as int
  const TRUE_WORD: Text := U("true")
  const FALSE_WORD: Text := U("false")
  const NULL_WORD: Text := U("null")
  const NAN_WORD: Text := U("NaN")
  const INFINITY_WORD: Text := U("Infinity")
  const NEGATIVE_INFINITY_WORD: Text := U("-Infinity")

  // ----- tokens -----

  predicate IsSpace(c: int) {
    c == 0x20 || c == 0x09 || c == 0x0A || c == 0x0D
  }

  function SkipSpace(s: Text): (t: Text)
    ensures |t| <= |s|
    ensures t == [] || !IsSpace(t[0])
  {
    if s != [] && IsSpace(s[0]) then SkipSpace(s[1..]) else s
  }

  /** How many digits the text starts with. */
  function DigitRun(s: Text): (k: nat)
    ensures k <= |s|
    ensures forall i :: 0 <= i < k ==> IsDigit(s[i])
  {
    if s != [] && IsDigit(s[0]) then 1 + DigitRun(s[1..]) else 0
  }

  function WholeRun(s: Text): (k: nat)
    ensures k <= |s|
    ensures forall i :: 0 <= i < k ==> IsDigit(s[i])
  {
    if s != [] && s[0] == '0' as int then 1 else DigitRun(s)
  }

  function FractionRun(s: Text): (k: nat)
    ensures k <= |s|
    ensures forall i :: 0 <= i < k ==> s[i] < 0x80
  {
    if |s| >= 2 && s[0] == '.' as int && IsDigit(s[1]) then 1 + DigitRun(s[1..]) else 0
  }

  function ExponentRun(s: Text): (k: nat)
    ensures k <= |s|
    ensures forall i :: 0 <= i < k ==> s[i] < 0x80
  {
    if |s| >= 1 && (s[0] == 'e' as int || s[0] == 'E' as int) then
      var sign := if |s| >= 2 && (s[1] == '+' as int || s[1] == MINUS) then 1 else 0;
      if |s| > 1 + sign && IsDigit(s[1 + sign]) then
        var digits := DigitRun(s[1 + sign..]);
        assert forall i :: 1 + sign <= i < 1 + sign + digits ==> s[i] == s[1 + sign..][i - 1 - sign];
        1 + sign + digits
      else 0
    else 0
  }

  /** An integer without leading zeros, an optional fraction and an optional exponent. */
  datatype Runs = Runs(whole: nat, fraction: nat, exponent: nat) {
    function Total(): nat { whole + fraction + exponent }
  }

  function NumberRuns(d: Text): (r: Runs)
    ensures r.Total() <= |d|
  {
    var whole := WholeRun(d);
    var fraction := FractionRun(d[whole..]);
    Runs(whole, fraction, ExponentRun(d[whole + fraction..]))
  }

  function ScanNumber(s: Text): (r: Scan<Node>)
    ensures r.Done? ==> |r.rest| < |s|
  {
    var minus := if s != [] && s[0] == MINUS then 1 else 0;
    var d := s[minus..];
    var runs := NumberRuns(d);
    if runs.whole == 0 then Fail
    else
      var end := minus + runs.Total();
      if runs.fraction == 0 && runs.exponent == 0 then
        var magnitude: int := NatValue(d[..runs.whole]);
        Done(Int(if minus == 1 then -magnitude else magnitude), s[end..])
      else
        Done(Float(s[..end]), s[end..])
  }

  predicate StartsWith(s: Text, w: Text) {
    |w| <= |s| && s[..|w|] == w
  }

  // ----- the parser -----

  function ParseValue(s: Text): (r: Scan<Node>)
    ensures r.Done? ==> |r.rest| < |s|
    decreases |s|, 0
  {
    if s == [] then Fail
    else if s[0] == QUOTE then
      match ScanString(s[1..])
      case Fail => Fail
      case Done(t, rest) => Done(Str(t), rest)
    else if s[0] == LBRACE then
      var t := SkipSpace(s[1..]);
      if t != [] && t[0] == RBRACE then Done(Obj([]), t[1..])
      else
        match ParseMembers(t)
        case Fail => Fail
        case Done(ms, rest) => Done(Obj(ms), rest)
    else if s[0] == LBRACKET then
      var t := SkipSpace(s[1..]);
      if t != [] && t[0] == RBRACKET then Done(Arr([]), t[1..])
      else
        match ParseItems(t)
        case Fail => Fail
        case Done(xs, rest) => Done(Arr(xs), rest)
    else ParseScalar(s)
  }

  function ParseScalar(s: Text): (r: Scan<Node>)
    ensures r.Done? ==> |r.rest| < |s|
  {
    if StartsWith(s, NULL_WORD) then Done(Null, s[4..])
    else if StartsWith(s, TRUE_WORD) then Done(Bool(true), s[4..])
    else if StartsWith(s, FALSE_WORD) then Done(Bool(false), s[5..])
    else if ScanNumber(s).Done? then ScanNumber(s)
    else if StartsWith(s, NAN_WORD) then Done(Float(NAN_WORD), s[3..])
    else if StartsWith(s, INFINITY_WORD) then Done(Float(INFINITY_WORD), s[8..])
    else if StartsWith(s, NEGATIVE_INFINITY_WORD) then Done(Float(NEGATIVE_INFINITY_WORD), s[9..])
    else Fail
  }

  /** One or more array items up to and including the closing bracket. */
  function ParseItems(s: Text): (r: Scan<seq<Node>>)
    ensures r.Done? ==> |r.rest| < |s|
    decreases |s|, 1
  {
    match ParseValue(s)
    case Fail => Fail
    case Done(v, rest) =>
      var t := SkipSpace(rest);
      if t == [] then Fail
      else if t[0] == RBRACKET then Done([v], t[1..])
      else if t[0] != COMMA then Fail
      else
        match ParseItems(SkipSpace(t[1..]))
        case Fail => Fail
        case Done(vs, end) => Done([v] + vs, end)
  }

  /** One or more members up to and including the closing brace. */
  function ParseMembers(s: Text): (r: Scan<seq<Member>>)
    ensures r.Done? ==> |r.rest| < |s|
    decreases |s|, 1
  {
    match ParseMember(s)
    case Fail => Fail
    case Done(m, rest) =>
      var t := SkipSpace(rest);
      if t == [] then Fail
      else if t[0] == RBRACE then Done([m], t[1..])
      else if t[0] != COMMA then Fail
      else
        match ParseMembers(SkipSpace(t[1..]))
        case Fail => Fail
        case Done(ms, end) => Done([m] + ms, end)
  }

  function ParseMember(s: Text): (r: Scan<Member>)
    ensures r.Done? ==> |r.rest| < |s|
    decreases |s|, 0
  {
    if s == [] || s[0] != QUOTE then Fail
    else
      match ScanString(s[1..])
      case Fail => Fail
      case Done(key, rest) =>
        var t := SkipSpace(rest);
        if t == [] || t[0] != COLON then Fail
        else
          match ParseValue(SkipSpace(t[1..]))
          case Fail => Fail
          case Done(v, end) => Done(Member(key, v), end)
  }

  /** json.loads on text: one value with whitespace around it and nothing else. */
  function Loads(s: Text): (r: Option<Node>) {
    match ParseValue(SkipSpace(s))
    case Fail => None
    case Done(v, rest) => if SkipSpace(rest) == [] then Some(v) else None
  }

  // ----- the printer -----

  /** The forms of json.dumps in use: compact separators, or indent=2. */
  datatype Style = Compact(ascii: bool) | Indented(ascii: bool)

  const CANONICAL := Compact(true)

  function Spaces(k: nat): (t: Text)
    ensures |t| == k && forall i :: 0 <= i < k ==> t[i] == 0x20
  {
    seq(k, i => 0x20)
  }

  function Gap(st: Style, depth: nat): (t: Text)
    ensures forall i :: 0 <= i < |t| ==> IsSpace(t[i])
  {
    if st.Compact? then [] else [0x0A] + Spaces(2 * depth)
  }

  function KeyGap(st: Style): (t: Text)
    ensures forall i :: 0 <= i < |t| ==> IsSpace(t[i])
  {
    if st.Compact? then [] else [0x20]
  }

  function PrintString(t: Text, st: Style): (r: Text)
    ensures |r| > 0 && r[0] == QUOTE
  {
    [QUOTE] + Escape(t, st.ascii) + [QUOTE]
  }

  function Print(v: Node, st: Style, depth: nat): (r: Text)
    decreases v
  {
    match v
    case Null => NULL_WORD
    case Bool(b) => if b then TRUE_WORD else FALSE_WORD
    case Int(n) => IntText(n)
    case Float(l) => l
    case Str(s) => PrintString(s, st)
    case Arr(xs) =>
      if xs == [] then [LBRACKET, RBRACKET]
      else [LBRACKET] + Gap(st, depth + 1) + PrintItems(xs, st, depth + 1) + Gap(st, depth) + [RBRACKET]
    case Obj(ms) =>
      if ms == [] then [LBRACE, RBRACE]
      else [LBRACE] + Gap(st, depth + 1) + PrintMembers(ms, st, depth + 1) + Gap(st, depth) + [RBRACE]
  }

  function PrintItems(xs: seq<Node>, st: Style, depth: nat): (r: Text)
    requires xs != []
    decreases xs
  {
    Print(xs[0], st, depth) +
    (if |xs| == 1 then [] else [COMMA] + Gap(st, depth) + PrintItems(xs[1..], st, depth))
  }

  function PrintMembers(ms: seq<Member>, st: Style, depth: nat): (r: Text)
    requires ms != []
    ensures |r| > 0 && r[0] == QUOTE
    decreases ms
  {
    PrintMember(ms[0], st, depth) +
    (if |ms| == 1 then [] else [COMMA] + Gap(st, depth) + PrintMembers(ms[1..], st, depth))
  }

  function PrintMember(m: Member, st: Style, depth: nat): (r: Text)
    ensures |r| > 0 && r[0] == QUOTE
    decreases m
  {
    PrintString(m.key, st) + [COLON] + KeyGap(st) + Print(m.value, st, depth)
  }

  function Dumps(v: Node, st: Style): (r: Text) {
    Print(v, st, 0)
  }

  // ----- plain strings and ASCII output -----

  /** Printable ASCII that JSON writes unescaped. */
  predicate Plain(t: Text) {
    forall i :: 0 <= i < |t| ==> 0x20 <= t[i] <= 0x7E && t[i] != QUOTE && t[i] != BACKSLASH
  }

  lemma {:induction false} EscapePlain(t: Text, ascii: bool)
    requires Plain(t)
    ensures Escape(t, ascii) == t
  {
    if t != [] {
      EscapePlain(t[1..], ascii);
      assert t == [t[0]] + t[1..];
    }
  }

  lemma {:induction false} EscapeIsAscii(t: Text)
    ensures IsAscii(Escape(t, true))
  {
    if t != [] {
      EscapeOneIsAscii(t[0]);
      EscapeIsAscii(t[1..]);
    }
  }

  lemma EscapeOneIsAscii(c: CodePoint)
    ensures IsAscii(EscapeOne(c, true))
  {
    hide HighOf;
    hide LowOf;
    if c >= 0x1_0000 {
      UnitIsAscii(HighOf(c));
      UnitIsAscii(LowOf(c));
    } else {
      UnitIsAscii(c);
    }
    hide UnitEscape;
  }

  lemma UnitIsAscii(u: Unit)
    ensures IsAscii(UnitEscape(u))
  {
    assert forall d :: 0 <= d < 16 ==> HexDigit(d) < 0x80;
  }

  // ----- duplicate keys -----

  predicate DistinctKeys(ms: seq<Member>) {
    forall i, j :: 0 <= i < j < |ms| ==> ms[i].key != ms[j].key
  }

  /** No object anywhere in the document repeats a key. */
  predicate UniqueKeys(v: Node)
    decreases v
  {
    match v
    case Arr(xs) => forall i :: 0 <= i < |xs| ==> UniqueKeys(xs[i])
    case Obj(ms) => DistinctKeys(ms) && forall i :: 0 <= i < |ms| ==> UniqueKeys(ms[i].value)
    case _ => true
  }

  /** The pairs hook _reject_duplicate_keys: fills a dict and fails on the first repeated key. */
  method RejectDuplicateKeys(items: seq<Member>) returns (r: Option<map<Text, Node>>)
    ensures r.Some? <==> DistinctKeys(items)
    ensures r.Some? ==> forall i :: 0 <= i < |items| ==> items[i].key in r.value && r.value[items[i].key] == items[i].value
    ensures r.Some? ==> forall k :: k in r.value ==> exists i :: 0 <= i < |items| && items[i].key == k
  {
    var result: map<Text, Node> := map[];
    for i := 0 to |items|
      invariant DistinctKeys(items[..i])
      invariant forall j :: 0 <= j < i ==> items[j].key in result && result[items[j].key] == items[j].value
      invariant forall k :: k in result ==> exists j :: 0 <= j < i && items[j].key == k
    {
      if items[i].key in result {
        var j :| 0 <= j < i && items[j].key == items[i].key;
        return None;
      }
      result := result[items[i].key := items[i].value];
      assert items[..i + 1] == items[..i] + [items[i]];
    }
    assert items[..|items|] == items;
    return Some(result);
  }

  // ----- printable documents -----

  predicate FloatLexeme(l: Text) {
    l == NAN_WORD || l == INFINITY_WORD || l == NEGATIVE_INFINITY_WORD || ScanNumber(l) == Done(Float(l), [])
  }

  /** Strings the ASCII writer can represent, and floats spelled as numbers. */
  predicate Printable(v: Node)
    decreases v
  {
    match v
    case Float(l) => FloatLexeme(l)
    case Str(s) => NoPair(s)
    case Arr(xs) => forall i :: 0 <= i < |xs| ==> Printable(xs[i])
    case Obj(ms) => forall i :: 0 <= i < |ms| ==> NoPair(ms[i].key) && Printable(ms[i].value)
    case _ => true
  }

  // ----- round trip: tokens -----

  lemma {:induction false} SkipSpaceOver(g: Text, t: Text)
    requires forall i :: 0 <= i < |g| ==> IsSpace(g[i])
    requires t == [] || !IsSpace(t[0])
    ensures SkipSpace(g + t) == t
  {
    if g == [] {
      assert g + t == t;
    } else {
      assert (g + t)[1..] == g[1..] + t;
      SkipSpaceOver(g[1..], t);
    }
  }

  /** What may follow a number without changing how it is read. */
  predicate Stops(r: Text) {
    r == [] || !(IsDigit(r[0]) || r[0] == '.' as int || r[0] == 'e' as int || r[0] == 'E' as int)
  }

  lemma {:induction false} DigitRunBefore(s: Text, r: Text)
    requires r == [] || !IsDigit(r[0])
    ensures DigitRun(s + r) == DigitRun(s)
  {
    if s == [] {
      assert s + r == r;
    } else {
      assert (s + r)[1..] == s[1..] + r;
      DigitRunBefore(s[1..], r);
    }
  }

  lemma {:induction false} AllDigits(s: Text)
    requires forall i :: 0 <= i < |s| ==> IsDigit(s[i])
    ensures DigitRun(s) == |s|
  {
    if s != [] {
      AllDigits(s[1..]);
    }
  }

  /** A number read to the end of its text is read the same with a stop after it. */
  lemma NumberBefore(l: Text, r: Text)
    requires ScanNumber(l).Done? && ScanNumber(l).rest == [] && Stops(r)
    ensures ScanNumber(l + r) == Done(ScanNumber(l).value, r)
  {
    hide NumberRuns;
    hide NatValue;
    var s := l + r;
    var minus := if l[0] == MINUS then 1 else 0;
    var d := l[minus..];
    assert s[0] == l[0] && s[minus..] == d + r;
    RunsBefore(d, r);
    var whole := NumberRuns(d).whole;
    assert (d + r)[..whole] == d[..whole];
    assert s[..|l|] == l && s[|l|..] == r && l[..|l|] == l;
  }

  lemma RunsBefore(d: Text, r: Text)
    requires NumberRuns(d).Total() == |d| && d != [] && Stops(r)
    ensures NumberRuns(d + r) == NumberRuns(d)
  {
    hide DigitRun;
    hide FractionRun;
    hide ExponentRun;
    assert (d + r)[0] == d[0];
    DigitRunBefore(d, r);
    var whole := WholeRun(d);
    var d1 := d[whole..];
    LoneTail(d1);
    assert (d + r)[whole..] == d1 + r;
    FractionBefore(d1, r);
    var fraction := FractionRun(d1);
    assert (d + r)[whole + fraction..] == d[whole + fraction..] + r;
    ExponentBefore(d[whole + fraction..], r);
  }

  /** One character cannot be a fraction or an exponent. */
  lemma LoneTail(d: Text)
    ensures |d| == 1 ==> FractionRun(d) == 0 && ExponentRun(d) == 0
  {
  }

  lemma FractionBefore(d: Text, r: Text)
    requires Stops(r) && (|d| == 1 ==> d[0] != '.' as int)
    ensures FractionRun(d + r) == FractionRun(d)
  {
    if d == [] {
      assert d + r == r;
    } else if |d| >= 2 {
      assert (d + r)[1..] == d[1..] + r;
      DigitRunBefore(d[1..], r);
    }
  }

  lemma ExponentBefore(d: Text, r: Text)
    requires ExponentRun(d) == |d| && Stops(r)
    ensures ExponentRun(d + r) == ExponentRun(d)
  {
    if d == [] {
      assert d + r == r;
    } else {
      var sign := if |d| >= 2 && (d[1] == '+' as int || d[1] == MINUS) then 1 else 0;
      assert (d + r)[1 + sign..] == d[1 + sign..] + r;
      DigitRunBefore(d[1 + sign..], r);
    }
  }

  lemma DigitsRun(d: Text)
    requires d != [] && (forall i :: 0 <= i < |d| ==> IsDigit(d[i])) && (d[0] == '0' as int ==> |d| == 1)
    ensures NumberRuns(d) == Runs(|d|, 0, 0)
  {
    AllDigits(d);
    assert d[|d|..] == [];
  }

  lemma IntScans(n: int)
    ensures ScanNumber(IntText(n)) == Done(Int(n), [])
  {
    hide NumberRuns;
    hide NatText;
    hide NatValue;
    var s, magnitude := IntText(n), if n < 0 then -n else n;
    var d := NatText(magnitude);
    DigitsRun(d);
    NatTextValue(magnitude);
    assert d[..|d|] == d;
    if n < 0 {
      assert s[0] == MINUS && s[1..] == d;
    } else {
      assert s[0] != MINUS && s[0..] == d;
    }
  }

  // ----- round trip: values -----

  lemma FloatHead(l: Text)
    requires FloatLexeme(l)
    ensures l != [] && (l[0] == MINUS || IsDigit(l[0]) || l[0] == 'N' as int || l[0] == 'I' as int)
  {
    hide FractionRun;
    hide ExponentRun;
    hide NatValue;
  }

  lemma PrintHead(v: Node, st: Style, depth: nat)
    requires Printable(v)
    ensures var r := Print(v, st, depth);
      r != [] && !IsSpace(r[0]) && r[0] != RBRACE && r[0] != RBRACKET
  {
    hide FloatLexeme;
    hide Escape;
    hide PrintItems;
    hide PrintMembers;
    hide Gap;
    match v
    case Float(l) => FloatHead(l);
    case _ =>
  }

  lemma ScalarRoundTrip(v: Node, st: Style, depth: nat, rest: Text)
    requires v.Null? || v.Bool? || v.Int? || v.Float?
    requires Printable(v) && Stops(rest)
    ensures ParseValue(Print(v, st, depth) + rest) == Done(v, rest)
  {
    var p := Print(v, st, depth);
    var s := p + rest;
    assert s[..|p|] == p && s[|p|..] == rest;
    PrintHead(v, st, depth);
    assert s[0] == p[0];
    match v {
      case Int(n) =>
        IntScans(n);
        NumberBefore(p, rest);
        NumberIsNotWord(s);
      case Float(l) =>
        if ScanNumber(l) == Done(Float(l), []) {
          NumberBefore(p, rest);
          NumberIsNotWord(s);
        } else {
          WordIsNotNumber(s);
        }
      case _ =>
    }
  }

  lemma NumberIsNotWord(s: Text)
    requires ScanNumber(s).Done?
    ensures s != [] && (s[0] == MINUS || IsDigit(s[0]))
    ensures ParseScalar(s) == ScanNumber(s) && ParseValue(s) == ParseScalar(s)
  {
    hide FractionRun;
    hide ExponentRun;
    hide NatValue;
    hide ParseItems;
    hide ParseMembers;
    hide ScanString;
    WordHeads(s);
  }

  lemma WordIsNotNumber(s: Text)
    ensures StartsWith(s, NAN_WORD) ==> ParseValue(s) == Done(Float(NAN_WORD), s[3..])
    ensures StartsWith(s, INFINITY_WORD) ==> ParseValue(s) == Done(Float(INFINITY_WORD), s[8..])
    ensures StartsWith(s, NEGATIVE_INFINITY_WORD) ==> ParseValue(s) == Done(Float(NEGATIVE_INFINITY_WORD), s[9..])
  {
    hide NatValue;
    hide ParseItems;
    hide ParseMembers;
    hide ScanString;
    WordHeads(s);
    if StartsWith(s, NEGATIVE_INFINITY_WORD) {
      assert s[1] == s[..9][1] == NEGATIVE_INFINITY_WORD[1];
      assert s[1..][0] == s[1];
    }
  }

  lemma WordHeads(s: Text)
    ensures StartsWith(s, NULL_WORD) ==> s[0] == 'n' as int
    ensures StartsWith(s, TRUE_WORD) ==> s[0] == 't' as int
    ensures StartsWith(s, FALSE_WORD) ==> s[0] == 'f' as int
    ensures StartsWith(s, NAN_WORD) ==> s[0] == 'N' as int
    ensures StartsWith(s, INFINITY_WORD) ==> s[0] == 'I' as int
    ensures StartsWith(s, NEGATIVE_INFINITY_WORD) ==> s[0] == MINUS
  {
    forall w: Text | |w| > 0 && StartsWith(s, w) ensures s[0] == w[0] {
      assert s[0] == s[..|w|][0];
    }
  }

  lemma StringRoundTrip(t: Text, st: Style, rest: Text)
    requires NoPair(t)
    ensures var s := PrintString(t, st) + rest;
      s[0] == QUOTE && ScanString(s[1..]) == Done(t, rest)
  {
    var s := PrintString(t, st) + rest;
    assert s[1..] == Escape(t, st.ascii) + [QUOTE] + rest;
    ScanEscaped(t, st.ascii, rest);
    JoinFixes(t);
  }

  lemma StringValueRoundTrip(t: Text, st: Style, depth: nat, rest: Text)
    requires NoPair(t)
    ensures ParseValue(Print(Str(t), st, depth) + rest) == Done(Str(t), rest)
  {
    hide ParseScalar;
    hide ScanString;
    hide ParseItems;
    hide ParseMembers;
    hide PrintString;
    StringRoundTrip(t, st, rest);
  }

  /** Reading a printed value returns it and leaves what follows. */
  lemma {:induction false} ValueRoundTrip(v: Node, st: Style, depth: nat, rest: Text)
    requires Printable(v) && Stops(rest)
    ensures ParseValue(Print(v, st, depth) + rest) == Done(v, rest)
    decreases v, 1
  {
    hide ParseValue;
    hide Print;
    hide ParseItems;
    hide ParseMembers;
    hide PrintItems;
    hide PrintMembers;
    match v
    case Str(t) => StringValueRoundTrip(t, st, depth, rest);
    case Arr(xs) =>
      if xs != [] {
        ItemsRoundTrip(xs, st, depth + 1, Gap(st, depth), rest);
      }
      ArrayRoundTrip(xs, st, depth, rest);
    case Obj(ms) =>
      if ms != [] {
        MembersRoundTrip(ms, st, depth + 1, Gap(st, depth), rest);
      }
      ObjectRoundTrip(ms, st, depth, rest);
    case _ => ScalarRoundTrip(v, st, depth, rest);
  }

  /** The text after an opening bracket: a gap, the body, a gap, the closing bracket. */
  lemma Bracketed(open: CodePoint, g: Text, body: Text, h: Text, close: CodePoint, rest: Text)
    requires body != []
    ensures var s := [open] + g + body + h + [close] + rest;
      var b := body + h + [close] + rest;
      s[0] == open && s[1..] == g + b && b[0] == body[0]
  {
  }

  lemma ArrayRoundTrip(xs: seq<Node>, st: Style, depth: nat, rest: Text)
    requires forall i :: 0 <= i < |xs| ==> Printable(xs[i])
    requires xs != [] ==> ParseItems(PrintItems(xs, st, depth + 1) + Gap(st, depth) + [RBRACKET] + rest) == Done(xs, rest)
    ensures ParseValue(Print(Arr(xs), st, depth) + rest) == Done(Arr(xs), rest)
  {
    hide ParseScalar;
    hide ScanString;
    hide ParseItems;
    hide ParseMembers;
    hide Escape;
    hide Gap;
    var s := Print(Arr(xs), st, depth) + rest;
    if xs == [] {
      assert s[1..] == [RBRACKET] + rest && s[1..][1..] == rest;
    } else {
      var items := PrintItems(xs, st, depth + 1);
      PrintHead(xs[0], st, depth + 1);
      assert items[0] == Print(xs[0], st, depth + 1)[0];
      Bracketed(LBRACKET, Gap(st, depth + 1), items, Gap(st, depth), RBRACKET, rest);
      SkipSpaceOver(Gap(st, depth + 1), items + Gap(st, depth) + [RBRACKET] + rest);
    }
  }

  lemma ObjectRoundTrip(ms: seq<Member>, st: Style, depth: nat, rest: Text)
    requires ms != [] ==> ParseMembers(PrintMembers(ms, st, depth + 1) + Gap(st, depth) + [RBRACE] + rest) == Done(ms, rest)
    ensures ParseValue(Print(Obj(ms), st, depth) + rest) == Done(Obj(ms), rest)
  {
    hide ParseScalar;
    hide ScanString;
    hide ParseItems;
    hide ParseMembers;
    hide Escape;
    hide Gap;
    hide PrintMembers;
    var s := Print(Obj(ms), st, depth) + rest;
    if ms == [] {
      assert s[1..] == [RBRACE] + rest && s[1..][1..] == rest;
    } else {
      var members := PrintMembers(ms, st, depth + 1);
      Bracketed(LBRACE, Gap(st, depth + 1), members, Gap(st, depth), RBRACE, rest);
      SkipSpaceOver(Gap(st, depth + 1), members + Gap(st, depth) + [RBRACE] + rest);
    }
  }

  lemma LastItem(p: Text, x: Node, gap: Text, rest: Text)
    requires ParseValue(p + (gap + ([RBRACKET] + rest))) == Done(x, gap + ([RBRACKET] + rest))
    requires forall i :: 0 <= i < |gap| ==> IsSpace(gap[i])
    ensures ParseItems(p + (gap + ([RBRACKET] + rest))) == Done([x], rest)
  {
    hide ParseValue;
    hide SkipSpace;
    var close := [RBRACKET] + rest;
    assert close[1..] == rest;
    SkipSpaceOver(gap, close);
  }

  lemma MoreItems(p: Text, x: Node, gap: Text, body: Text, xs: seq<Node>, rest: Text)
    requires ParseValue(p + ([COMMA] + (gap + body))) == Done(x, [COMMA] + (gap + body))
    requires forall i :: 0 <= i < |gap| ==> IsSpace(gap[i])
    requires body != [] && !IsSpace(body[0]) && ParseItems(body) == Done(xs, rest)
    ensures ParseItems(p + ([COMMA] + (gap + body))) == Done([x] + xs, rest)
  {
    hide ParseValue;
    hide SkipSpace;
    var tail := [COMMA] + (gap + body);
    assert [] + tail == tail && tail[1..] == gap + body;
    SkipSpaceOver([], tail);
    SkipSpaceOver(gap, body);
  }

  lemma Regroup(a: Text, b: Text, c: CodePoint, rest: Text)
    ensures a + b + [c] + rest == a + (b + ([c] + rest))
  {
  }

  lemma RegroupMore(a: Text, c: CodePoint, g: Text, b: Text, h: Text, d: CodePoint, rest: Text)
    ensures a + ([c] + g + b) + h + [d] + rest == a + ([c] + (g + (b + h + [d] + rest)))
  {
  }

  lemma {:induction false} ItemsRoundTrip(xs: seq<Node>, st: Style, depth: nat, gap: Text, rest: Text)
    requires xs != [] && forall i :: 0 <= i < |xs| ==> Printable(xs[i])
    requires forall i :: 0 <= i < |gap| ==> IsSpace(gap[i])
    ensures ParseItems(PrintItems(xs, st, depth) + gap + [RBRACKET] + rest) == Done(xs, rest)
    decreases xs, 0
  {
    hide ParseValue;
    hide ParseItems;
    hide Print;
    hide Gap;
    var p := Print(xs[0], st, depth);
    if |xs| == 1 {
      assert p + [] == p;
      Regroup(p, gap, RBRACKET, rest);
      ValueRoundTrip(xs[0], st, depth, gap + ([RBRACKET] + rest));
      LastItem(p, xs[0], gap, rest);
      assert xs == [xs[0]];
    } else {
      var items := PrintItems(xs[1..], st, depth);
      RegroupMore(p, COMMA, Gap(st, depth), items, gap, RBRACKET, rest);
      var body := items + gap + [RBRACKET] + rest;
      ValueRoundTrip(xs[0], st, depth, [COMMA] + (Gap(st, depth) + body));
      PrintHead(xs[1], st, depth);
      assert body[0] == items[0] == Print(xs[1], st, depth)[0];
      ItemsRoundTrip(xs[1..], st, depth, gap, rest);
      MoreItems(p, xs[0], Gap(st, depth), body, xs[1..], rest);
      assert [xs[0]] + xs[1..] == xs;
    }
  }

  lemma LastMember(p: Text, m: Member, gap: Text, rest: Text)
    requires ParseMember(p + (gap + ([RBRACE] + rest))) == Done(m, gap + ([RBRACE] + rest))
    requires forall i :: 0 <= i < |gap| ==> IsSpace(gap[i])
    ensures ParseMembers(p + (gap + ([RBRACE] + rest))) == Done([m], rest)
  {
    hide ParseMember;
    hide SkipSpace;
    var close := [RBRACE] + rest;
    assert close[1..] == rest;
    SkipSpaceOver(gap, close);
  }

  lemma MoreMembers(p: Text, m: Member, gap: Text, body: Text, ms: seq<Member>, rest: Text)
    requires ParseMember(p + ([COMMA] + (gap + body))) == Done(m, [COMMA] + (gap + body))
    requires forall i :: 0 <= i < |gap| ==> IsSpace(gap[i])
    requires body != [] && !IsSpace(body[0]) && ParseMembers(body) == Done(ms, rest)
    ensures ParseMembers(p + ([COMMA] + (gap + body))) == Done([m] + ms, rest)
  {
    hide ParseMember;
    hide SkipSpace;
    var tail := [COMMA] + (gap + body);
    assert [] + tail == tail && tail[1..] == gap + body;
    SkipSpaceOver([], tail);
    SkipSpaceOver(gap, body);
  }

  lemma {:induction false} MembersRoundTrip(ms: seq<Member>, st: Style, depth: nat, gap: Text, rest: Text)
    requires ms != [] && forall i :: 0 <= i < |ms| ==> NoPair(ms[i].key) && Printable(ms[i].value)
    requires forall i :: 0 <= i < |gap| ==> IsSpace(gap[i])
    ensures ParseMembers(PrintMembers(ms, st, depth) + gap + [RBRACE] + rest) == Done(ms, rest)
    decreases ms, 0
  {
    hide ParseMember;
    hide ParseMembers;
    hide ParseValue;
    hide Print;
    hide PrintString;
    hide Gap;
    hide KeyGap;
    var p := PrintMember(ms[0], st, depth);
    if |ms| == 1 {
      assert p + [] == p;
      Regroup(p, gap, RBRACE, rest);
      ValueRoundTrip(ms[0].value, st, depth, gap + ([RBRACE] + rest));
      MemberRoundTrip(ms[0], st, depth, gap + ([RBRACE] + rest));
      LastMember(p, ms[0], gap, rest);
      assert ms == [ms[0]];
    } else {
      var members := PrintMembers(ms[1..], st, depth);
      RegroupMore(p, COMMA, Gap(st, depth), members, gap, RBRACE, rest);
      var body := members + gap + [RBRACE] + rest;
      var tail := [COMMA] + (Gap(st, depth) + body);
      ValueRoundTrip(ms[0].value, st, depth, tail);
      MemberRoundTrip(ms[0], st, depth, tail);
      assert body[0] == members[0];
      MembersRoundTrip(ms[1..], st, depth, gap, rest);
      MoreMembers(p, ms[0], Gap(st, depth), body, ms[1..], rest);
      assert [ms[0]] + ms[1..] == ms;
    }
  }

  lemma MemberRoundTrip(m: Member, st: Style, depth: nat, tail: Text)
    requires NoPair(m.key) && Printable(m.value)
    requires ParseValue(Print(m.value, st, depth) + tail) == Done(m.value, tail)
    ensures ParseMember(PrintMember(m, st, depth) + tail) == Done(m, tail)
  {
    hide ParseValue;
    hide Print;
    hide PrintString;
    hide ScanString;
    hide SkipSpace;
    hide KeyGap;
    var value := Print(m.value, st, depth) + tail;
    var after := [COLON] + (KeyGap(st) + value);
    assert PrintMember(m, st, depth) + tail == PrintString(m.key, st) + after;
    StringRoundTrip(m.key, st, after);
    assert [] + after == after && after[1..] == KeyGap(st) + value;
    SkipSpaceOver([], after);
    PrintHead(m.value, st, depth);
    assert value[0] == Print(m.value, st, depth)[0];
    SkipSpaceOver(KeyGap(st), value);
  }

  /** json.loads inverts json.dumps in every style, with whitespace allowed around the text. */
  lemma LoadsDumps(v: Node, st: Style, before: Text, after: Text)
    requires Printable(v)
    requires forall i :: 0 <= i < |before| ==> IsSpace(before[i])
    requires forall i :: 0 <= i < |after| ==> IsSpace(after[i])
    ensures Loads(before + Dumps(v, st) + after) == Some(v)
  {
    var body := Dumps(v, st) + after;
    PrintHead(v, st, 0);
    assert body[0] == Dumps(v, st)[0];
    assert before + Dumps(v, st) + after == before + body;
    SkipSpaceOver(before, body);
    ValueRoundTrip(v, st, 0, after);
    assert after + [] == after;
    SkipSpaceOver(after, []);
  }

  /** Printing in any one style is injective on printable documents. */
  lemma DumpsInjective(v: Node, w: Node, st: Style)
    requires Printable(v) && Printable(w) && Dumps(v, st) == Dumps(w, st)
    ensures v == w
  {
    LoadsDumps(v, st, [], []);
    LoadsDumps(w, st, [], []);
    assert [] + Dumps(v, st) + [] == Dumps(v, st);
    assert [] + Dumps(w, st) + [] == Dumps(w, st);
  }

  // ----- the ASCII writer writes ASCII -----

  lemma RunsAreAscii(d: Text)
    ensures IsAscii(d[..NumberRuns(d).Total()])
  {
    hide FractionRun;
    hide ExponentRun;
    hide WholeRun;
    var r := NumberRuns(d);
    var e := d[..r.Total()];
    forall i | 0 <= i < |e| ensures e[i] < 0x80 {
      if i < r.whole {
        assert IsDigit(d[i]);
      } else if i < r.whole + r.fraction {
        assert d[i] == d[r.whole..][i - r.whole];
      } else {
        assert d[i] == d[r.whole + r.fraction..][i - r.whole - r.fraction];
      }
    }
  }

  lemma NumberIsAscii(l: Text)
    requires ScanNumber(l) == Done(Float(l), [])
    ensures IsAscii(l)
  {
    hide NumberRuns;
    hide NatValue;
    var minus := if l[0] == MINUS then 1 else 0;
    var d := l[minus..];
    RunsAreAscii(d);
    assert d[..NumberRuns(d).Total()] == d;
    assert forall i :: minus <= i < |l| ==> l[i] == d[i - minus];
  }

  lemma FloatIsAscii(l: Text)
    requires FloatLexeme(l)
    ensures IsAscii(l)
  {
    hide ScanNumber;
    if ScanNumber(l) == Done(Float(l), []) {
      NumberIsAscii(l);
    }
  }

  lemma GapIsAscii(st: Style, depth: nat)
    ensures IsAscii(Gap(st, depth)) && IsAscii(KeyGap(st))
  {
    hide Spaces;
  }

  lemma BracketedIsAscii(open: CodePoint, a: Text, b: Text, c: Text, close: CodePoint)
    requires open < 0x80 && close < 0x80 && IsAscii(a) && IsAscii(b) && IsAscii(c)
    ensures IsAscii([open] + a + b + c + [close])
  {
  }

  lemma ScalarIsAscii(v: Node, st: Style, depth: nat)
    requires Printable(v) && st.ascii && !v.Arr? && !v.Obj?
    ensures IsAscii(Print(v, st, depth))
  {
    hide Escape;
    hide FloatLexeme;
    hide PrintItems;
    hide PrintMembers;
    match v
    case Float(l) => FloatIsAscii(l);
    case Str(s) => EscapeIsAscii(s);
    case _ =>
  }

  lemma {:induction false} PrintIsAscii(v: Node, st: Style, depth: nat)
    requires Printable(v) && st.ascii
    ensures IsAscii(Print(v, st, depth))
    decreases v, 1
  {
    hide IsAscii;
    hide PrintString;
    hide FloatLexeme;
    hide PrintItems;
    hide PrintMembers;
    hide Gap;
    hide U;
    GapIsAscii(st, depth);
    GapIsAscii(st, depth + 1);
    match v
    case Arr(xs) =>
      if xs == [] {
        PairIsAscii(LBRACKET, RBRACKET);
      } else {
        ItemsAreAscii(xs, st, depth + 1);
        BracketedIsAscii(LBRACKET, Gap(st, depth + 1), PrintItems(xs, st, depth + 1), Gap(st, depth), RBRACKET);
      }
    case Obj(ms) =>
      if ms == [] {
        PairIsAscii(LBRACE, RBRACE);
      } else {
        MembersAreAscii(ms, st, depth + 1);
        BracketedIsAscii(LBRACE, Gap(st, depth + 1), PrintMembers(ms, st, depth + 1), Gap(st, depth), RBRACE);
      }
    case _ => ScalarIsAscii(v, st, depth);
  }

  lemma PairIsAscii(a: CodePoint, b: CodePoint)
    requires a < 0x80 && b < 0x80
    ensures IsAscii([a, b])
  {
  }

  lemma {:induction false} ItemsAreAscii(xs: seq<Node>, st: Style, depth: nat)
    requires st.ascii && xs != [] && forall i :: 0 <= i < |xs| ==> Printable(xs[i])
    ensures IsAscii(PrintItems(xs, st, depth))
    decreases xs, 0
  {
    hide Print;
    PrintIsAscii(xs[0], st, depth);
    if |xs| > 1 {
      ItemsAreAscii(xs[1..], st, depth);
    }
  }

  lemma {:induction false} MembersAreAscii(ms: seq<Member>, st: Style, depth: nat)
    requires st.ascii && ms != [] && forall i :: 0 <= i < |ms| ==> Printable(ms[i].value)
    ensures IsAscii(PrintMembers(ms, st, depth))
    decreases ms, 0
  {
    hide Print;
    hide Escape;
    PrintIsAscii(ms[0].value, st, depth);
    EscapeIsAscii(ms[0].key);
    assert IsAscii(PrintMember(ms[0], st, depth));
    hide PrintMember;
    if |ms| > 1 {
      MembersAreAscii(ms[1..], st, depth);
    }
  }

  // ----- everything json.loads returns is printable -----

  lemma NumberIsPrintable(s: Text)
    requires NoSurrogates(s)
    ensures ScanNumber(s).Done? ==> Printable(ScanNumber(s).value) && NoSurrogates(ScanNumber(s).rest)
  {
    var r := ScanNumber(s);
    if r.Done? && r.value.Float? {
      LexemeRescans(s);
    }
  }

  /** The characters of a float, read on their own, are the same float. */
  lemma LexemeRescans(s: Text)
    requires ScanNumber(s).Done? && ScanNumber(s).value.Float?
    ensures var l := ScanNumber(s).value.lexeme; ScanNumber(l) == Done(Float(l), [])
  {
    hide NumberRuns;
    hide NatValue;
    var l := ScanNumber(s).value.lexeme;
    var minus := if s[0] == MINUS then 1 else 0;
    assert l[0] == s[0];
    var d := s[minus..];
    assert l[minus..] == d[..NumberRuns(d).Total()];
    RunsOfPrefix(d);
    assert l[..|l|] == l && l[|l|..] == [];
  }

  lemma RunsOfPrefix(d: Text)
    requires NumberRuns(d).whole > 0
    ensures NumberRuns(d[..NumberRuns(d).Total()]) == NumberRuns(d)
  {
    hide DigitRun;
    hide FractionRun;
    hide ExponentRun;
    var r := NumberRuns(d);
    var e := d[..r.Total()];
    assert e[0] == d[0];
    DigitRunOfPrefix(d, WholeRun(d), |e|);
    var d1 := d[r.whole..];
    assert e[r.whole..] == d1[..r.fraction + r.exponent];
    var d2 := d[r.whole + r.fraction..];
    assert d2 == d1[r.fraction..];
    FractionOfPrefix(d1);
    ExponentOfPrefix(d2);
    assert e[r.whole + r.fraction..] == d2[..r.exponent];
  }

  lemma FractionOfPrefix(d: Text)
    ensures var f := FractionRun(d); var x := ExponentRun(d[f..]); FractionRun(d[..f + x]) == f
  {
    var f := FractionRun(d);
    var k := f + ExponentRun(d[f..]);
    if f > 0 {
      assert d[..k][1..] == d[1..][..k - 1];
      DigitRunOfPrefix(d[1..], f - 1, k - 1);
    }
  }

  lemma ExponentOfPrefix(d: Text)
    ensures ExponentRun(d[..ExponentRun(d)]) == ExponentRun(d)
  {
    var k := ExponentRun(d);
    if k > 0 {
      var e := d[..k];
      var sign := if |d| >= 2 && (d[1] == '+' as int || d[1] == MINUS) then 1 else 0;
      assert e[1 + sign..] == d[1 + sign..][..k - 1 - sign];
      DigitRunOfPrefix(d[1 + sign..], k - 1 - sign, k - 1 - sign);
    }
  }

  /** A prefix that contains the first digits has as many of them. */
  lemma {:induction false} DigitRunOfPrefix(s: Text, run: nat, k: nat)
    requires run <= k <= |s|
    requires run == DigitRun(s) || (s != [] && s[0] == '0' as int)
    ensures run == DigitRun(s) ==> DigitRun(s[..k]) == run
  {
    if run == DigitRun(s) && s != [] && IsDigit(s[0]) {
      DigitRunOfPrefix(s[1..], run - 1, k - 1);
      assert s[..k][1..] == s[1..][..k - 1];
    }
  }

  lemma {:induction false} SkipSpaceHasNoSurrogates(s: Text)
    requires NoSurrogates(s)
    ensures NoSurrogates(SkipSpace(s))
  {
    if s != [] && IsSpace(s[0]) {
      SkipSpaceHasNoSurrogates(s[1..]);
    }
  }

  lemma {:induction false} ParsedIsPrintable(s: Text)
    requires NoSurrogates(s)
    ensures ParseValue(s).Done? ==> Printable(ParseValue(s).value) && NoSurrogates(ParseValue(s).rest)
    decreases |s|, 0
  {
    hide ScanString;
    hide ScanNumber;
    hide ParseMembers;
    hide ParseItems;
    if s == [] {
    } else if s[0] == QUOTE {
      ScannedHasNoPair(s[1..]);
    } else if s[0] == LBRACE {
      SkipSpaceHasNoSurrogates(s[1..]);
      var t := SkipSpace(s[1..]);
      if t != [] && t[0] != RBRACE {
        MembersArePrintable(t);
      }
    } else if s[0] == LBRACKET {
      SkipSpaceHasNoSurrogates(s[1..]);
      var t := SkipSpace(s[1..]);
      if t != [] && t[0] != RBRACKET {
        ItemsArePrintable(t);
      }
    } else {
      NumberIsPrintable(s);
    }
  }

  lemma {:induction false} ItemsArePrintable(s: Text)
    requires NoSurrogates(s)
    ensures var r := ParseItems(s); r.Done? ==>
      NoSurrogates(r.rest) && forall i :: 0 <= i < |r.value| ==> Printable(r.value[i])
    decreases |s|, 1
  {
    if ParseItems(s).Done? {
      ParsedIsPrintable(s);
      var t := SkipSpace(ParseValue(s).rest);
      SkipSpaceHasNoSurrogates(ParseValue(s).rest);
      if t[0] == COMMA {
        SkipSpaceHasNoSurrogates(t[1..]);
        ItemsArePrintable(SkipSpace(t[1..]));
      }
    }
  }

  lemma {:induction false} MembersArePrintable(s: Text)
    requires NoSurrogates(s)
    ensures var r := ParseMembers(s); r.Done? ==>
      NoSurrogates(r.rest) && forall i :: 0 <= i < |r.value| ==> NoPair(r.value[i].key) && Printable(r.value[i].value)
    decreases |s|, 1
  {
    if ParseMembers(s).Done? {
      MemberIsPrintable(s);
      var after := ParseMember(s).rest;
      var t := SkipSpace(after);
      SkipSpaceHasNoSurrogates(after);
      if t[0] == COMMA {
        SkipSpaceHasNoSurrogates(t[1..]);
        MembersArePrintable(SkipSpace(t[1..]));
      }
    }
  }

  lemma {:induction false} MemberIsPrintable(s: Text)
    requires NoSurrogates(s)
    ensures var r := ParseMember(s); r.Done? ==>
      NoSurrogates(r.rest) && NoPair(r.value.key) && Printable(r.value.value)
    decreases |s|, 0
  {
    if ParseMember(s).Done? {
      ScannedHasNoPair(s[1..]);
      var after := ScanString(s[1..]).rest;
      var t := SkipSpace(after);
      SkipSpaceHasNoSurrogates(after);
      SkipSpaceHasNoSurrogates(t[1..]);
      ParsedIsPrintable(SkipSpace(t[1..]));
    }
  }

  /** Whatever json.loads accepts from decoded UTF-8 can be printed and read back unchanged. */
  lemma LoadedRoundTrip(s: Text, st: Style)
    requires NoSurrogates(s) && Loads(s).Some?
    ensures Printable(Loads(s).value)
    ensures Loads(Dumps(Loads(s).value, st)) == Loads(s)
  {
    SkipSpaceHasNoSurrogates(s);
    ParsedIsPrintable(SkipSpace(s));
    LoadsDumps(Loads(s).value, st, [], []);
    assert [] + Dumps(Loads(s).value, st) + [] == Dumps(Loads(s).value, st);
  }
}
