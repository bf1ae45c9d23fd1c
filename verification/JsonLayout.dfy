/**
  What json.dumps writes, as a syntax tree of the JSON grammar: which characters it escapes
  and how, and the white space of its compact and its indented form.
 */
module JsonLayout {
  import opened Texts
  import opened JsonStrings
  import opened JsonText
  import opened JsonGrammar

  // ----- the specification -----

  /** Lower-case hexadecimal. */
  function DigitFor(d: int): CodePoint
    requires 0 <= d < 16
  {
    if d < 10 then 0x30 + d else 0x57 + d
  }

  function EscapeFor(u: int): Char
    requires 0 <= u < 0x1_0000
  {
    Escaped(DigitFor(u / 16 / 16 / 16), DigitFor(u / 16 / 16 % 16), DigitFor(u / 16 % 16), DigitFor(u % 16))
  }

  predicate HasShort(c: int) {
    c in {0x08, 0x09, 0x0A, 0x0C, 0x0D, 0x22, 0x5C}
  }

  function ShortFor(c: CodePoint): Char {
    match c
    case 0x08 => Short(0x62)
    case 0x09 => Short(0x74)
    case 0x0A => Short(0x6E)
    case 0x0C => Short(0x66)
    case 0x0D => Short(0x72)
    case _ => Short(c)
  }

  /** Control characters are always escaped, everything beyond the tilde in ASCII output only. */
  function CharsFor(c: CodePoint, ascii: bool): seq<Char> {
    if HasShort(c) then [ShortFor(c)]
    else if c >= 0x20 && (c <= 0x7E || !ascii) then [Itself(c)]
    else if c < 0x1_0000 then [EscapeFor(c)]
    else [EscapeFor(0xD800 + (c - 0x1_0000) / 0x400), EscapeFor(0xDC00 + (c - 0x1_0000) % 0x400)]
  }

  function LiteralFor(t: Text, ascii: bool): seq<Char> {
    if t == [] then [] else CharsFor(t[0], ascii) + LiteralFor(t[1..], ascii)
  }

  function Blanks(n: nat): Text {
    if n == 0 then [] else [0x20] + Blanks(n - 1)
  }

  /** Nothing, or a new line and two spaces for every level. */
  function LineFor(st: Style, depth: nat): Text {
    if st.Compact? then [] else [0x0A] + Blanks(2 * depth)
  }

  function NumeralFor(n: int): Numeral {
    Numeral(n < 0, NatText(if n < 0 then -n else n), [], [])
  }

  /** A float keeps its lexeme. */
  function FloatFor(l: Text): Tree {
    if l == U("NaN") then Word(3)
    else if l == U("Infinity") then Word(4)
    else if l == U("-Infinity") then Word(5)
    else
      var minus := l != [] && l[0] == 0x2D;
      var d := if minus then l[1..] else l;
      var r := NumberRuns(d);
      Number(Numeral(minus, d[..r.whole], d[r.whole..][..r.fraction], d[r.whole + r.fraction..][..r.exponent]))
  }

  function TreeFor(v: Node, st: Style, depth: nat): Tree
    decreases v
  {
    match v
    case Null => Word(0)
    case Bool(b) => Word(if b then 1 else 2)
    case Int(n) => Number(NumeralFor(n))
    case Float(l) => FloatFor(l)
    case Str(s) => String(LiteralFor(s, st.ascii))
    case Arr(xs) => Array([], ItemsFor(xs, st, depth + 1))
    case Obj(ms) => Object([], EntriesFor(ms, st, depth + 1))
  }

  /** Every item on a line of its own, the closing bracket one level further out. */
  function ItemsFor(xs: seq<Node>, st: Style, depth: nat): seq<Item>
    requires depth > 0
    decreases xs
  {
    if xs == [] then []
    else [Item(LineFor(st, depth), TreeFor(xs[0], st, depth), if |xs| == 1 then LineFor(st, depth - 1) else [])] + ItemsFor(xs[1..], st, depth)
  }

  /** After the colon a space, in the indented form only. */
  function EntriesFor(ms: seq<Member>, st: Style, depth: nat): seq<Entry>
    requires depth > 0
    decreases ms
  {
    if ms == [] then []
    else [Entry(LineFor(st, depth), LiteralFor(ms[0].key, st.ascii), [], if st.Compact? then [] else [0x20],
                TreeFor(ms[0].value, st, depth), if |ms| == 1 then LineFor(st, depth - 1) else [])] + EntriesFor(ms[1..], st, depth)
  }

  // ----- the writer meets it -----

  lemma EscapeExactly(u: int)
    requires 0 <= u < 0x1_0000
    ensures CharText(EscapeFor(u)) == UnitEscape(u)
  {
  }

  lemma {:induction false} CharsTextJoin(a: seq<Char>, b: seq<Char>)
    ensures CharsText(a + b) == CharsText(a) + CharsText(b)
  {
    if a == [] {
      assert a + b == b;
    } else {
      assert (a + b)[1..] == a[1..] + b;
      CharsTextJoin(a[1..], b);
    }
  }

  lemma OneChar(x: Char)
    ensures CharsText([x]) == CharText(x)
  {
    assert [x][1..] == [];
  }

  lemma CharExactly(c: CodePoint, ascii: bool)
    ensures CharsText(CharsFor(c, ascii)) == EscapeOne(c, ascii)
  {
    hide CharsText;
    hide CharText;
    hide EscapeFor;
    hide UnitEscape;
    if HasShort(c) {
      OneChar(ShortFor(c));
      ShortExactly(c);
    } else if c >= 0x20 && (c <= 0x7E || !ascii) {
      OneChar(Itself(c));
      ItselfText(c);
    } else if c < 0x1_0000 {
      OneChar(EscapeFor(c));
      EscapeExactly(c);
    } else {
      var high, low := EscapeFor(HighOf(c)), EscapeFor(LowOf(c));
      CharsTextJoin([high], [low]);
      assert [high] + [low] == [high, low];
      OneChar(high);
      OneChar(low);
      EscapeExactly(HighOf(c));
      EscapeExactly(LowOf(c));
    }
  }

  lemma ShortExactly(c: CodePoint)
    requires HasShort(c)
    ensures ShortEscape(c).Some? && CharText(ShortFor(c)) == [BACKSLASH, ShortEscape(c).value]
  {
  }

  lemma ItselfText(c: CodePoint)
    ensures CharText(Itself(c)) == [c]
  {
  }

  lemma {:induction false} LiteralExactly(t: Text, ascii: bool)
    ensures CharsText(LiteralFor(t, ascii)) == Escape(t, ascii)
  {
    if t != [] {
      CharsTextJoin(CharsFor(t[0], ascii), LiteralFor(t[1..], ascii));
      CharExactly(t[0], ascii);
      LiteralExactly(t[1..], ascii);
    }
  }

  lemma {:induction false} BlanksAre(n: nat)
    ensures Blanks(n) == Spaces(n)
  {
    if n > 0 {
      BlanksAre(n - 1);
      assert Spaces(n) == [0x20] + Spaces(n - 1);
    }
  }

  lemma LineExactly(st: Style, depth: nat)
    ensures LineFor(st, depth) == Gap(st, depth)
  {
    BlanksAre(2 * depth);
  }

  lemma NumeralExactly(n: int)
    ensures NumeralText(NumeralFor(n)) == IntText(n)
  {
    hide NatText;
    var t := NatText(if n < 0 then -n else n);
    assert t + ([] + []) == t && [] + t == t;
  }

  lemma LexemeRuns(l: Text)
    requires ScanNumber(l) == Done(Float(l), [])
    ensures l != [] && var minus := if l[0] == MINUS then 1 else 0; minus + NumberRuns(l[minus..]).Total() == |l|
  {
    hide NumberRuns;
    hide NatValue;
  }

  lemma LexemeCut(l: Text, minus: nat)
    requires l != [] && minus == (if l[0] == MINUS then 1 else 0) && minus + NumberRuns(l[minus..]).Total() == |l|
    requires l != NAN_WORD && l != INFINITY_WORD && l != NEGATIVE_INFINITY_WORD
    ensures Spell(FloatFor(l)) == l
  {
    hide *;
    var d := l[minus..];
    var r := NumberRuns(d);
    TotalIs(r);
    var n := Numeral(minus == 1, d[..r.whole], d[r.whole..][..r.fraction], d[r.whole + r.fraction..][..r.exponent]);
    FloatIs(l, minus, n);
    ThreeCut(d, r.whole, r.fraction, r.exponent);
    WholeText(d, r.Total());
    WholeText(l, minus + r.Total());
    NumeralCut(l, minus, r.Total(), n);
  }

  lemma TotalIs(r: Runs)
    ensures r.Total() == r.whole + r.fraction + r.exponent
  {
  }

  lemma FloatIs(l: Text, minus: nat, n: Numeral)
    requires l != [] && minus == if l[0] == MINUS then 1 else 0
    requires l != NAN_WORD && l != INFINITY_WORD && l != NEGATIVE_INFINITY_WORD
    requires var d := l[minus..]; var r := NumberRuns(d);
      n == Numeral(minus == 1, d[..r.whole], d[r.whole..][..r.fraction], d[r.whole + r.fraction..][..r.exponent])
    ensures Spell(FloatFor(l)) == NumeralText(n) && n.minus == (l[0] == MINUS)
  {
    hide NumberRuns;
    hide NumeralText;
    assert l[0..] == l;
  }

  lemma WholeText(t: Text, n: nat)
    requires n == |t|
    ensures t[..n] == t && t[n..] == []
  {
  }

  lemma FloatExactly(l: Text)
    requires FloatLexeme(l)
    ensures Spell(FloatFor(l)) == l
  {
    hide ScanNumber;
    hide Spell;
    hide U;
    if l != NAN_WORD && l != INFINITY_WORD && l != NEGATIVE_INFINITY_WORD {
      LexemeRuns(l);
      LexemeCut(l, if l[0] == MINUS then 1 else 0);
    } else {
      WordFloats();
    }
  }

  lemma WordFloats()
    ensures Spell(FloatFor(U("NaN"))) == U("NaN") && Spell(FloatFor(U("Infinity"))) == U("Infinity")
    ensures Spell(FloatFor(U("-Infinity"))) == U("-Infinity")
  {
    assert U("NaN") != U("Infinity") && U("NaN") != U("-Infinity") && U("Infinity") != U("-Infinity");
  }

  lemma StringExactly(t: Text, st: Style)
    ensures Spell(String(LiteralFor(t, st.ascii))) == PrintString(t, st)
  {
    hide CharsText;
    hide Escape;
    hide LiteralFor;
    LiteralExactly(t, st.ascii);
    var e := Escape(t, st.ascii);
    assert [0x22] + (e + [0x22]) == [0x22] + e + [0x22];
  }

  /** json.dumps writes the tree's spelling, in every style. */
  lemma {:induction false} PrintExactly(v: Node, st: Style, depth: nat)
    requires Printable(v)
    ensures Print(v, st, depth) == Spell(TreeFor(v, st, depth))
    decreases v, 1
  {
    hide CharsText;
    hide LiteralFor;
    hide NumeralText;
    hide NumeralFor;
    hide FloatFor;
    hide FloatLexeme;
    hide SpellItems;
    hide SpellEntries;
    hide PrintItems;
    hide PrintMembers;
    hide ItemsFor;
    hide EntriesFor;
    hide LineFor;
    hide Gap;
    match v
    case Int(n) => NumeralExactly(n);
    case Float(l) => FloatExactly(l);
    case Str(s) => StringExactly(s, st);
    case Arr(xs) =>
      if xs != [] {
        ItemsExactly(xs, st, depth + 1);
        ArrayExactly(xs, st, depth);
      } else {
        NothingFor(st, depth + 1);
      }
    case Obj(ms) =>
      if ms != [] {
        EntriesExactly(ms, st, depth + 1);
        ObjectExactly(ms, st, depth);
      } else {
        NothingFor(st, depth + 1);
      }
    case _ =>
  }

  lemma NothingFor(st: Style, depth: nat)
    requires depth > 0
    ensures ItemsFor([], st, depth) == [] && EntriesFor([], st, depth) == []
    ensures Spell(Array([], [])) == [0x5B, 0x5D] && Spell(Object([], [])) == [0x7B, 0x7D]
  {
  }

  lemma ArrayExactly(xs: seq<Node>, st: Style, depth: nat)
    requires xs != [] && ItemsFor(xs, st, depth + 1) != []
    requires SpellItems(ItemsFor(xs, st, depth + 1), []) == PrintItems(xs, st, depth + 1) + (Gap(st, depth) + [0x5D])
    ensures Print(Arr(xs), st, depth) == Spell(TreeFor(Arr(xs), st, depth))
  {
    hide SpellItems;
    hide PrintItems;
    hide Gap;
    hide LineFor;
    hide ItemsFor;
    LineExactly(st, depth + 1);
    FirstFor(xs, st, depth + 1);
    Enclosed(0x5B, Gap(st, depth + 1), PrintItems(xs, st, depth + 1), Gap(st, depth), 0x5D);
  }

  lemma Enclosed(open: CodePoint, g: Text, body: Text, h: Text, close: CodePoint)
    ensures [open] + g + body + h + [close] == [open] + (g + (body + (h + [close])))
  {
  }

  lemma FirstFor(xs: seq<Node>, st: Style, depth: nat)
    requires xs != [] && depth > 0
    ensures ItemsFor(xs, st, depth) != [] && ItemsFor(xs, st, depth)[0].before == LineFor(st, depth)
  {
  }

  lemma FirstEntryFor(ms: seq<Member>, st: Style, depth: nat)
    requires ms != [] && depth > 0
    ensures EntriesFor(ms, st, depth) != [] && EntriesFor(ms, st, depth)[0].before == LineFor(st, depth)
  {
  }

  lemma ObjectExactly(ms: seq<Member>, st: Style, depth: nat)
    requires ms != [] && EntriesFor(ms, st, depth + 1) != []
    requires SpellEntries(EntriesFor(ms, st, depth + 1), []) == PrintMembers(ms, st, depth + 1) + (Gap(st, depth) + [0x7D])
    ensures Print(Obj(ms), st, depth) == Spell(TreeFor(Obj(ms), st, depth))
  {
    hide SpellEntries;
    hide PrintMembers;
    hide Gap;
    hide LineFor;
    hide EntriesFor;
    LineExactly(st, depth + 1);
    FirstEntryFor(ms, st, depth + 1);
    Enclosed(0x7B, Gap(st, depth + 1), PrintMembers(ms, st, depth + 1), Gap(st, depth), 0x7D);
  }

  /** The first item, the sign after it, and the others. */
  lemma ItemsStep(xs: seq<Node>, st: Style, depth: nat)
    requires xs != [] && depth > 0
    ensures var items := ItemsFor(xs, st, depth); var p := Spell(TreeFor(xs[0], st, depth));
      && items != [] && |items| == |xs| && items[1..] == ItemsFor(xs[1..], st, depth)
      && SpellItems(items, []) == (if |xs| == 1 then p + (Gap(st, depth - 1) + [0x5D])
                                   else p + ([0x2C] + (Gap(st, depth) + SpellItems(items[1..], []))))
  {
    hide Spell;
    hide TreeFor;
    hide SpellItems;
    LineExactly(st, depth);
    LineExactly(st, depth - 1);
    hide LineFor;
    hide Gap;
    var items := ItemsFor(xs, st, depth);
    ItemsForLength(xs, st, depth);
    assert items[1..] == ItemsFor(xs[1..], st, depth);
    FirstItem(items, []);
    assert [0x5D] + [] == [0x5D];
    if |xs| > 1 {
      FirstFor(xs[1..], st, depth);
      assert items[1] == items[1..][0];
      assert [] + AfterItem(items, []) == AfterItem(items, []);
    }
  }

  lemma {:induction false} ItemsForLength(xs: seq<Node>, st: Style, depth: nat)
    requires depth > 0
    ensures |ItemsFor(xs, st, depth)| == |xs|
  {
    hide TreeFor;
    hide LineFor;
    if xs != [] {
      ItemsForLength(xs[1..], st, depth);
    }
  }

  lemma {:induction false} ItemsExactly(xs: seq<Node>, st: Style, depth: nat)
    requires xs != [] && depth > 0 && forall i :: 0 <= i < |xs| ==> Printable(xs[i])
    ensures ItemsFor(xs, st, depth) != []
    ensures SpellItems(ItemsFor(xs, st, depth), []) == PrintItems(xs, st, depth) + (Gap(st, depth - 1) + [0x5D])
    decreases xs
  {
    hide Spell;
    hide TreeFor;
    hide SpellItems;
    hide ItemsFor;
    hide Print;
    hide Printable;
    hide Gap;
    ItemsStep(xs, st, depth);
    PrintExactly(xs[0], st, depth);
    var p, g, close := Print(xs[0], st, depth), Gap(st, depth), Gap(st, depth - 1) + [0x5D];
    if |xs| == 1 {
      assert p + [] == p;
    } else {
      ItemsExactly(xs[1..], st, depth);
      var more := PrintItems(xs[1..], st, depth);
      assert p + ([0x2C] + (g + (more + close))) == p + ([0x2C] + g + more) + close;
    }
  }

  lemma {:induction false} EntriesForLength(ms: seq<Member>, st: Style, depth: nat)
    requires depth > 0
    ensures |EntriesFor(ms, st, depth)| == |ms|
  {
    hide TreeFor;
    hide LineFor;
    hide LiteralFor;
    if ms != [] {
      EntriesForLength(ms[1..], st, depth);
    }
  }

  /** One printed member. */
  lemma MemberExactly(m: Member, st: Style, depth: nat, rest: Text)
    requires Print(m.value, st, depth) == Spell(TreeFor(m.value, st, depth))
    ensures PrintMember(m, st, depth) + rest ==
      [0x22] + Closed(LiteralFor(m.key, st.ascii), [] + ([0x3A] + ((if st.Compact? then [] else [0x20]) + (Spell(TreeFor(m.value, st, depth)) + rest))))
  {
    hide Print;
    hide Spell;
    hide TreeFor;
    hide CharsText;
    hide LiteralFor;
    hide Escape;
    LiteralExactly(m.key, st.ascii);
    var e, g, p := Escape(m.key, st.ascii), KeyGap(st), Print(m.value, st, depth);
    MemberRegrouped(e, g, p, rest);
  }

  lemma MemberRegrouped(e: Text, g: Text, p: Text, rest: Text)
    ensures [0x22] + e + [0x22] + [0x3A] + g + p + rest == [0x22] + (e + ([0x22] + ([] + ([0x3A] + (g + (p + rest))))))
  {
  }

  /** The first entry, the sign after it, and the others. */
  lemma EntriesStep(ms: seq<Member>, st: Style, depth: nat, es: seq<Entry>, after: Text)
    requires ms != [] && depth > 0 && Print(ms[0].value, st, depth) == Spell(TreeFor(ms[0].value, st, depth))
    requires es == EntriesFor(ms, st, depth) && es != [] && after == es[0].after + AfterEntry(es, [])
    ensures SpellEntries(es, []) == PrintMember(ms[0], st, depth) + after
  {
    hide *;
    EntriesParts(ms, st, depth);
    FirstEntry(es, []);
    EntryValueIs(es);
    MemberExactly(ms[0], st, depth, after);
  }

  /** What stands after an entry. */
  lemma EntryAfter(ms: seq<Member>, st: Style, depth: nat, es: seq<Entry>)
    requires ms != [] && depth > 0 && es == EntriesFor(ms, st, depth)
    ensures es != [] && |es| == |ms|
    ensures es[0].after + AfterEntry(es, []) ==
      if |ms| == 1 then Gap(st, depth - 1) + [0x7D] else [0x2C] + (Gap(st, depth) + SpellEntries(es[1..], []))
  {
    hide *;
    EntriesParts(ms, st, depth);
    AfterEntryIs(es);
    LineExactly(st, depth);
    LineExactly(st, depth - 1);
    if |ms| > 1 {
      assert [] + AfterEntry(es, []) == AfterEntry(es, []);
    }
  }

  lemma EntryValueIs(es: seq<Entry>)
    requires es != []
    ensures EntryValue(es, []) == Spell(es[0].tree) + (es[0].after + AfterEntry(es, []))
  {
  }

  lemma AfterEntryIs(es: seq<Entry>)
    requires es != []
    ensures AfterEntry(es, []) == if |es| == 1 then [0x7D] else [0x2C] + (es[1].before + SpellEntries(es[1..], []))
  {
    hide SpellEntries;
    assert [0x7D] + [] == [0x7D];
  }

  /** The entries of a list of members, one by one. */
  lemma EntriesParts(ms: seq<Member>, st: Style, depth: nat)
    requires ms != [] && depth > 0
    ensures var es := EntriesFor(ms, st, depth);
      && |es| == |ms| && es[1..] == EntriesFor(ms[1..], st, depth) && (|ms| > 1 ==> es[1].before == LineFor(st, depth))
      && es[0] == Entry(LineFor(st, depth), LiteralFor(ms[0].key, st.ascii), [], if st.Compact? then [] else [0x20],
                        TreeFor(ms[0].value, st, depth), if |ms| == 1 then LineFor(st, depth - 1) else [])
  {
    hide TreeFor;
    hide LineFor;
    hide LiteralFor;
    EntriesForLength(ms, st, depth);
    var es := EntriesFor(ms, st, depth);
    assert es[1..] == EntriesFor(ms[1..], st, depth);
    if |ms| > 1 {
      FirstEntryFor(ms[1..], st, depth);
      assert es[1] == es[1..][0];
    }
  }

  lemma PrintMembersIs(ms: seq<Member>, st: Style, depth: nat)
    requires ms != []
    ensures PrintMembers(ms, st, depth) == PrintMember(ms[0], st, depth) +
      (if |ms| == 1 then [] else [0x2C] + Gap(st, depth) + PrintMembers(ms[1..], st, depth))
  {
    hide PrintMember;
    hide Gap;
  }

  lemma LastRegrouped(p: Text, close: Text)
    ensures p + close == p + [] + close
  {
  }

  lemma MoreRegrouped(p: Text, g: Text, more: Text, close: Text)
    ensures p + ([0x2C] + (g + (more + close))) == p + ([0x2C] + g + more) + close
  {
  }

  lemma {:induction false} EntriesExactly(ms: seq<Member>, st: Style, depth: nat)
    requires ms != [] && depth > 0 && forall i :: 0 <= i < |ms| ==> Printable(ms[i].value)
    ensures EntriesFor(ms, st, depth) != []
    ensures SpellEntries(EntriesFor(ms, st, depth), []) == PrintMembers(ms, st, depth) + (Gap(st, depth - 1) + [0x7D])
    decreases ms
  {
    hide *;
    PrintExactly(ms[0].value, st, depth);
    var es := EntriesFor(ms, st, depth);
    EntriesParts(ms, st, depth);
    EntryAfter(ms, st, depth, es);
    EntriesStep(ms, st, depth, es, es[0].after + AfterEntry(es, []));
    PrintMembersIs(ms, st, depth);
    var p, close := PrintMember(ms[0], st, depth), Gap(st, depth - 1) + [0x7D];
    if |ms| == 1 {
      LastRegrouped(p, close);
    } else {
      EntriesExactly(ms[1..], st, depth);
      MoreRegrouped(p, Gap(st, depth), PrintMembers(ms[1..], st, depth), close);
    }
  }
}
