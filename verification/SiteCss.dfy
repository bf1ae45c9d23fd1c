/**
  The style-sheet gate of the public pages: the brace scanner that collects top-level rules
  and skips @-blocks, and the search for properties declared twice for one selector.
 */
module SiteCss {
  import opened Texts
  import opened PyStrings

  const OPEN: int := '{' as int
  const CLOSE: int := '}' as int
  const AT: int := '@' as int
  const SEMICOLON: int := ';' as int
  const COLON: int := ':' as int
  const SLASH: int := '/' as int
  const STAR: int := '*' as int
  const DASH: int := '-' as int

  /** A selector, white space collapsed, and the text between its braces. */
  datatype Rule = Rule(selector: Text, body: Text)

  // ----- comments -----

  /** The rest after the first star-slash, if there is one. */
  function AfterComment(t: Text): (r: Option<Text>)
    ensures r.Some? ==> |r.value| < |t|
  {
    if |t| < 2 then None
    else if t[0] == STAR && t[1] == SLASH then Some(t[2..])
    else AfterComment(t[1..])
  }

  /** re.sub of every shortest comment, left to right; an unclosed one stays. */
  function StripComments(t: Text): (r: Text)
    decreases |t|
  {
    if t == [] then []
    else if |t| > 1 && t[0] == SLASH && t[1] == STAR && AfterComment(t[2..]).Some? then StripComments(AfterComment(t[2..]).value)
    else [t[0]] + StripComments(t[1..])
  }

  function Selector(t: Text): Text {
    Spaced(Words(StripComments(t)))
  }

  // ----- the scanner on text without comments -----

  /** AT_BLOCK_RE.match: white space, an at-sign, a letter or hyphen, then an opening brace before any semicolon. */
  predicate StartsAtBlock(t: Text) {
    Headed(StripLeft(t))
  }

  predicate Headed(s: Text) {
    && |s| > 1 && s[0] == AT && (IsLetter(s[1]) || s[1] == DASH)
    && IndexOf(s, OPEN) < |s| && SEMICOLON !in s[..IndexOf(s, OPEN)]
  }

  /** Where the brace is that closes a block at this depth, or the length. */
  function CloseAt(t: Text, depth: nat): (i: nat)
    requires depth > 0
    ensures i <= |t|
  {
    if t == [] then 0
    else if t[0] == OPEN then 1 + CloseAt(t[1..], depth + 1)
    else if t[0] == CLOSE then (if depth == 1 then 0 else 1 + CloseAt(t[1..], depth - 1))
    else 1 + CloseAt(t[1..], depth)
  }

  function Rest(t: Text, i: nat): (r: Text)
    ensures |r| == if i <= |t| then |t| - i else 0
  {
    if i <= |t| then t[i..] else []
  }

  datatype Move = Stop | Skip(rest: Text) | Take(rule: Rule, rest: Text)

  /** One turn of the outer loop on what is left of the text. */
  function Next(t: Text): (m: Move)
    ensures !m.Stop? ==> |m.rest| < |t|
  {
    var o := IndexOf(t, OPEN);
    if o == |t| then Stop
    else if StartsAtBlock(t) then Skip(Rest(t, o + 1 + CloseAt(t[o + 1..], 1) + 1))
    else
      var c := o + IndexOf(t[o..], CLOSE);
      if c == |t| then Stop else Take(Rule(Selector(t[..o]), t[o + 1..c]), t[c + 1..])
  }

  /** The top-level rules of a style sheet without comments. */
  function Scan(t: Text): (rules: seq<Rule>)
    decreases |t|
  {
    match Next(t)
    case Stop => []
    case Skip(rest) => Scan(rest)
    case Take(rule, rest) => [rule] + Scan(rest)
  }

  lemma {:induction false} StripKeepsOpen(t: Text)
    ensures IndexOf(t, OPEN) == |t| - |StripLeft(t)| + IndexOf(StripLeft(t), OPEN)
  {
    if t != [] && IsSpace(t[0]) {
      StripKeepsOpen(t[1..]);
    }
  }

  lemma AtBlockHasOpen(t: Text)
    requires StartsAtBlock(t)
    ensures IndexOf(t, OPEN) < |t|
  {
    StripKeepsOpen(t);
  }

  /** The inner loop: from the opening brace to the brace that closes it, or past the end. */
  method CloseOf(t: Text, open: nat) returns (cursor: nat)
    requires open < |t| && t[open] == OPEN
    ensures cursor == open + 1 + CloseAt(t[open + 1..], 1)
  {
    var depth := 0;
    cursor := open;
    while cursor < |t|
      invariant open <= cursor <= |t|
      invariant cursor == open ==> depth == 0
      invariant cursor > open ==> depth > 0 && open + 1 + CloseAt(t[open + 1..], 1) == cursor + CloseAt(t[cursor..], depth)
    {
      assert t[cursor..][1..] == t[cursor + 1..];
      if t[cursor] == OPEN {
        depth := depth + 1;
      } else if t[cursor] == CLOSE {
        depth := depth - 1;
        if depth == 0 {
          break;
        }
      }
      cursor := cursor + 1;
    }
  }

  /** top_level_rules. */
  method TopLevelRules(css: Text) returns (rules: seq<Rule>)
    ensures rules == Scan(StripComments(css))
  {
    hide StartsAtBlock;
    hide Selector;
    hide StripComments;
    hide CloseAt;
    hide IndexOf;
    hide Next;
    var t := StripComments(css);
    var index := 0;
    rules := [];
    assert Rest(t, 0) == t;
    while index < |t|
      invariant rules + Scan(Rest(t, index)) == Scan(t)
      decreases |t| + 1 - index
    {
      var rest := t[index..];
      var open := IndexOf(rest, OPEN);
      if StartsAtBlock(rest) {
        AtBlockHasOpen(rest);
        var cursor := CloseOf(rest, open);
        NextSkips(rest, cursor);
        assert Rest(rest, cursor + 1) == Rest(t, index + cursor + 1);
        index := index + cursor + 1;
        continue;
      }
      if open == |rest| {
        NextStops(rest);
        return;
      }
      var close := open + IndexOf(rest[open..], CLOSE);
      if close == |rest| {
        NextStops(rest);
        return;
      }
      NextTakes(rest, open, close);
      assert rest[close + 1..] == Rest(t, index + close + 1);
      rules := rules + [Rule(Selector(rest[..open]), rest[open + 1..close])];
      index := index + close + 1;
    }
    NothingNext();
  }

  lemma NothingNext()
    ensures Next([]) == Stop
  {
  }

  lemma NextSkips(t: Text, cursor: nat)
    requires StartsAtBlock(t) && IndexOf(t, OPEN) < |t|
    requires cursor == IndexOf(t, OPEN) + 1 + CloseAt(t[IndexOf(t, OPEN) + 1..], 1)
    ensures Next(t) == Skip(Rest(t, cursor + 1))
  {
    hide StartsAtBlock;
    hide IndexOf;
    hide Selector;
    hide CloseAt;
  }

  lemma NextStops(t: Text)
    requires !StartsAtBlock(t)
    requires IndexOf(t, OPEN) == |t| || IndexOf(t, OPEN) + IndexOf(t[IndexOf(t, OPEN)..], CLOSE) == |t|
    ensures Next(t) == Stop
  {
    hide StartsAtBlock;
    hide IndexOf;
    hide Selector;
    hide CloseAt;
  }

  lemma NextTakes(t: Text, open: nat, close: nat)
    requires !StartsAtBlock(t) && open == IndexOf(t, OPEN) < |t| && close == open + IndexOf(t[open..], CLOSE) < |t|
    ensures Next(t) == Take(Rule(Selector(t[..open]), t[open + 1..close]), t[close + 1..])
  {
    hide StartsAtBlock;
    hide IndexOf;
    hide Selector;
    hide CloseAt;
  }

  // ----- printed style sheets -----

  /** A style rule, or an @-block with whatever it holds. */
  datatype Item = Style(selector: Text, body: Text) | Block(head: Text, inner: Text)

  /** What the scanner takes for the head of an @-block. */
  predicate AtHead(h: Text) {
    var s := StripLeft(h);
    |s| > 1 && s[0] == AT && (IsLetter(s[1]) || s[1] == DASH) && SEMICOLON !in s
  }

  /** Braces that pair up, seen from inside a block of this depth. */
  predicate Inside(t: Text, depth: nat) {
    if t == [] then depth == 1
    else if t[0] == OPEN then Inside(t[1..], depth + 1)
    else if t[0] == CLOSE then depth > 1 && Inside(t[1..], depth - 1)
    else Inside(t[1..], depth)
  }

  predicate IsItem(x: Item) {
    match x
    case Style(selector, body) => OPEN !in selector && CLOSE !in body && !AtHead(selector)
    case Block(head, inner) => OPEN !in head && AtHead(head) && Inside(inner, 1)
  }

  function PrintItem(x: Item): Text {
    match x
    case Style(selector, body) => selector + ([OPEN] + (body + [CLOSE]))
    case Block(head, inner) => head + ([OPEN] + (inner + [CLOSE]))
  }

  function Print(xs: seq<Item>): Text {
    if xs == [] then [] else PrintItem(xs[0]) + Print(xs[1..])
  }

  /** The rules of the style items, in order. */
  function RulesOf(xs: seq<Item>): seq<Rule> {
    if xs == [] then []
    else (if xs[0].Style? then [Rule(Selector(xs[0].selector), xs[0].body)] else []) + RulesOf(xs[1..])
  }

  lemma StripNothing(t: Text)
    requires t == [] || !IsSpace(t[0])
    ensures StripLeft(t) == t
  {
  }

  lemma {:induction false} StripBeforeOpen(h: Text, r: Text)
    ensures StripLeft(h + ([OPEN] + r)) == StripLeft(h) + ([OPEN] + r)
  {
    var t := h + ([OPEN] + r);
    if h == [] {
      assert t == [OPEN] + r && t[0] == OPEN && !IsSpace(OPEN);
      StripNothing(t);
      StripNothing(h);
    } else {
      assert t[0] == h[0];
      if IsSpace(h[0]) {
        assert t[1..] == h[1..] + ([OPEN] + r);
        StripBeforeOpen(h[1..], r);
      }
    }
  }

  lemma {:induction false} StripKeepsFree(h: Text, c: int)
    requires c !in h
    ensures c !in StripLeft(h)
  {
    if h != [] && IsSpace(h[0]) {
      StripKeepsFree(h[1..], c);
    }
  }

  /** Whether an @-block starts is decided by the text before the first brace. */
  lemma HeadDecides(h: Text, r: Text)
    requires OPEN !in h
    ensures StartsAtBlock(h + ([OPEN] + r)) <==> AtHead(h)
    ensures IndexOf(h + ([OPEN] + r), OPEN) == |h|
  {
    hide Headed;
    hide IndexOf;
    hide StripLeft;
    hide IsSpace;
    StripBeforeOpen(h, r);
    StripKeepsFree(h, OPEN);
    IndexFound(h, OPEN, [OPEN] + r);
    HeadAlone(StripLeft(h), r);
  }

  lemma HeadAlone(s: Text, r: Text)
    requires OPEN !in s
    ensures Headed(s + ([OPEN] + r)) <==> |s| > 1 && s[0] == AT && (IsLetter(s[1]) || s[1] == DASH) && SEMICOLON !in s
  {
    hide IndexOf;
    var full := s + ([OPEN] + r);
    IndexFound(s, OPEN, [OPEN] + r);
    SameStart(s, r);
  }

  lemma SameStart(s: Text, r: Text)
    ensures var full := s + ([OPEN] + r);
      && full[..|s|] == s && full[|s|] == OPEN
      && (|s| > 0 ==> full[0] == s[0]) && (|s| > 1 ==> full[1] == s[1])
  {
  }

  lemma {:induction false} InsideCloses(inner: Text, depth: nat, r: Text)
    requires depth > 0 && Inside(inner, depth)
    ensures CloseAt(inner + ([CLOSE] + r), depth) == |inner|
  {
    var t := inner + ([CLOSE] + r);
    if inner == [] {
      assert t == [CLOSE] + r;
    } else {
      assert t[0] == inner[0] && t[1..] == inner[1..] + ([CLOSE] + r);
      if inner[0] == OPEN {
        InsideCloses(inner[1..], depth + 1, r);
      } else if inner[0] == CLOSE {
        InsideCloses(inner[1..], depth - 1, r);
      } else {
        InsideCloses(inner[1..], depth, r);
      }
    }
  }

  lemma ScanStyle(selector: Text, body: Text, r: Text)
    requires IsItem(Style(selector, body))
    ensures Next(selector + ([OPEN] + (body + ([CLOSE] + r)))) == Take(Rule(Selector(selector), body), r)
  {
    hide StartsAtBlock;
    hide AtHead;
    hide Selector;
    hide IndexOf;
    hide Next;
    var tail := body + ([CLOSE] + r);
    var t := selector + ([OPEN] + tail);
    HeadDecides(selector, tail);
    var o := |selector|;
    assert t[..o] == selector && t[o..] == [OPEN] + tail;
    assert [OPEN] + tail == ([OPEN] + body) + ([CLOSE] + r);
    IndexFound([OPEN] + body, CLOSE, [CLOSE] + r);
    var c := o + 1 + |body|;
    assert t[o + 1..c] == body && t[c + 1..] == r;
    NextTakes(t, o, c);
  }

  lemma ScanBlock(head: Text, inner: Text, r: Text)
    requires IsItem(Block(head, inner))
    ensures Next(head + ([OPEN] + (inner + ([CLOSE] + r)))) == Skip(r)
  {
    hide StartsAtBlock;
    hide AtHead;
    hide Inside;
    hide CloseAt;
    hide IndexOf;
    hide Next;
    var tail := inner + ([CLOSE] + r);
    var t := head + ([OPEN] + tail);
    HeadDecides(head, tail);
    var o := |head|;
    assert t[o + 1..] == tail;
    InsideCloses(inner, 1, r);
    NextSkips(t, o + 1 + |inner|);
    assert Rest(t, o + 1 + |inner| + 1) == r;
  }

  lemma ScanTail(t: Text)
    requires OPEN !in t
    ensures Scan(t) == []
  {
    hide StartsAtBlock;
    IndexFound(t, OPEN, []);
    assert t + [] == t;
  }

  lemma Regroup(a: Text, b: Text, r: Text)
    ensures a + ([OPEN] + (b + [CLOSE])) + r == a + ([OPEN] + (b + ([CLOSE] + r)))
  {
  }

  /** On any printed mix of rules and balanced @-blocks the scanner returns exactly the rules, in order. */
  lemma {:induction false} ScanPrinted(xs: seq<Item>, tail: Text)
    requires (forall i :: 0 <= i < |xs| ==> IsItem(xs[i])) && OPEN !in tail
    ensures Scan(Print(xs) + tail) == RulesOf(xs)
  {
    hide Next;
    hide IsItem;
    hide Selector;
    if xs == [] {
      assert Print(xs) + tail == tail;
      ScanTail(tail);
    } else {
      var r := Print(xs[1..]) + tail;
      ScanPrinted(xs[1..], tail);
      assert Print(xs) + tail == PrintItem(xs[0]) + r;
      match xs[0]
      case Style(selector, body) =>
        Regroup(selector, body, r);
        ScanStyle(selector, body, r);
      case Block(head, inner) =>
        Regroup(head, inner, r);
        ScanBlock(head, inner, r);
    }
  }

  // ----- printed style sheets with comments -----

  predicate NoOpening(t: Text) {
    forall i :: 0 <= i < |t| - 1 ==> !(t[i] == SLASH && t[i + 1] == STAR)
  }

  predicate NoClosing(t: Text) {
    forall i :: 0 <= i < |t| - 1 ==> !(t[i] == STAR && t[i + 1] == SLASH)
  }

  lemma StripOne(s: Text)
    requires s != [] && !(|s| > 1 && s[0] == SLASH && s[1] == STAR)
    ensures StripComments(s) == [s[0]] + StripComments(s[1..])
  {
  }

  /** Text without an opening comment mark is left as it is, whatever follows it. */
  lemma {:induction false} PlainKept(t: Text, r: Text)
    requires NoOpening(t) && (t == [] || t[|t| - 1] != SLASH || r == [] || r[0] != STAR)
    ensures StripComments(t + r) == t + StripComments(r)
  {
    hide StripComments;
    if t == [] {
      assert t + r == r && [] + StripComments(r) == StripComments(r);
    } else {
      var s, rest := t + r, t[1..];
      assert s[0] == t[0] && s[1..] == rest + r;
      assert |s| > 1 ==> s[1] == if |t| > 1 then t[1] else r[0];
      StripOne(s);
      assert forall i :: 0 <= i < |rest| ==> rest[i] == t[i + 1];
      assert rest != [] ==> rest[|rest| - 1] == t[|t| - 1];
      PlainKept(rest, r);
      assert [t[0]] + (rest + StripComments(r)) == t + StripComments(r);
    }
  }

  lemma {:induction false} CommentEnds(c: Text, r: Text)
    requires NoClosing(c)
    ensures AfterComment(c + ([STAR, SLASH] + r)) == Some(r)
  {
    var s := c + ([STAR, SLASH] + r);
    if c == [] {
      assert s == [STAR, SLASH] + r && s[2..] == r;
    } else {
      assert s[0] == c[0] && s[1..] == c[1..] + ([STAR, SLASH] + r);
      assert s[1] == if |c| > 1 then c[1] else STAR;
      assert forall i :: 0 <= i < |c[1..]| ==> c[1..][i] == c[i + 1];
      CommentEnds(c[1..], r);
    }
  }

  function CommentText(c: Text): Text {
    [SLASH, STAR] + (c + [STAR, SLASH])
  }

  lemma CommentGone(c: Text, r: Text)
    requires NoClosing(c)
    ensures StripComments(CommentText(c) + r) == StripComments(r)
  {
    var s := CommentText(c) + r;
    assert s == [SLASH, STAR] + (c + ([STAR, SLASH] + r));
    assert s[2..] == c + ([STAR, SLASH] + r);
    CommentEnds(c, r);
  }

  /** A comment and the text up to the next one. */
  datatype Part = Part(comment: Text, plain: Text)

  predicate IsPart(p: Part) {
    NoClosing(p.comment) && NoOpening(p.plain)
  }

  /** A sheet as an author writes it: text with comments anywhere in it. */
  function Commented(first: Text, ps: seq<Part>): Text
    decreases |ps|
  {
    if ps == [] then first else first + (CommentText(ps[0].comment) + Commented(ps[0].plain, ps[1..]))
  }

  /** The same sheet without its comments. */
  function Bare(first: Text, ps: seq<Part>): Text
    decreases |ps|
  {
    if ps == [] then first else first + Bare(ps[0].plain, ps[1..])
  }

  /** Stripping removes the comments, wherever they are, and nothing else. */
  lemma {:induction false} CommentsStripped(first: Text, ps: seq<Part>)
    requires NoOpening(first) && forall i :: 0 <= i < |ps| ==> IsPart(ps[i])
    ensures StripComments(Commented(first, ps)) == Bare(first, ps)
    decreases |ps|
  {
    hide StripComments;
    hide NoClosing;
    if ps == [] {
      PlainKept(first, []);
      NothingToStrip();
      assert first + [] == first;
    } else {
      var rest := Commented(ps[0].plain, ps[1..]);
      var r := CommentText(ps[0].comment) + rest;
      assert IsPart(ps[0]);
      PlainKept(first, r);
      CommentGone(ps[0].comment, rest);
      CommentsStripped(ps[0].plain, ps[1..]);
    }
  }

  lemma NothingToStrip()
    ensures StripComments([]) == []
  {
  }

  /** On a printed mix of rules and balanced @-blocks, with comments put anywhere in it, inside selectors,
      bodies and blocks too, top_level_rules returns exactly the rules, in order. */
  lemma SheetRules(first: Text, ps: seq<Part>, xs: seq<Item>, tail: Text)
    requires NoOpening(first) && (forall i :: 0 <= i < |ps| ==> IsPart(ps[i]))
    requires (forall i :: 0 <= i < |xs| ==> IsItem(xs[i])) && OPEN !in tail && Bare(first, ps) == Print(xs) + tail
    ensures Scan(StripComments(Commented(first, ps))) == RulesOf(xs)
  {
    hide StripComments;
    hide IsItem;
    hide IsPart;
    CommentsStripped(first, ps);
    ScanPrinted(xs, tail);
  }

  // ----- properties declared twice -----

  datatype Key = Key(selector: Text, property: Text)

  /** The property a declaration sets; None for fragments without a colon and for custom properties. */
  function Property(declaration: Text): (r: Option<Text>) {
    if COLON !in declaration || Strip(declaration) == [] then None
    else
      var name := Strip(declaration[..IndexOf(declaration, COLON)]);
      if [DASH, DASH] <= name then None else Some(name)
  }

  /** The keys that the pieces of one rule's body declare, in order. */
  function KeysOfPieces(selector: Text, pieces: seq<Text>): (ks: seq<Key>) {
    if pieces == [] then []
    else
      var n := |pieces| - 1;
      var name := Property(pieces[n]);
      KeysOfPieces(selector, pieces[..n]) + (if name.Some? then [Key(selector, name.value)] else [])
  }

  /** Every (selector, property) pair the rules declare, once per declaration. */
  function Declarations(rules: seq<Rule>): (ks: seq<Key>) {
    if rules == [] then []
    else
      var n := |rules| - 1;
      Declarations(rules[..n]) + KeysOfPieces(rules[n].selector, SplitAt(rules[n].body, SEMICOLON))
  }

  ghost predicate Tallies(declared: map<Key, nat>, ks: seq<Key>) {
    forall k :: (k in declared <==> k in ks) && (k in declared ==> declared[k] == multiset(ks)[k])
  }

  lemma TallyOne(declared: map<Key, nat>, ks: seq<Key>, k: Key)
    requires Tallies(declared, ks)
    ensures Tallies(declared[k := (if k in declared then declared[k] else 0) + 1], ks + [k])
  {
    var declared' := declared[k := (if k in declared then declared[k] else 0) + 1];
    forall q ensures (q in declared' <==> q in ks + [k]) && (q in declared' ==> declared'[q] == multiset(ks + [k])[q]) {
      assert multiset(ks + [k]) == multiset(ks) + multiset{k};
      assert q in ks <==> q in multiset(ks);
    }
  }

  /** The declaration counts of check_page. */
  method CountDeclarations(rules: seq<Rule>) returns (declared: map<Key, nat>)
    ensures Tallies(declared, Declarations(rules))
  {
    hide Tallies;
    hide Property;
    hide SplitAt;
    declared := map[];
    NoTallies();
    for i := 0 to |rules|
      invariant Tallies(declared, Declarations(rules[..i]))
    {
      var selector, pieces := rules[i].selector, SplitAt(rules[i].body, SEMICOLON);
      ghost var before := Declarations(rules[..i]);
      assert before + [] == before;
      for j := 0 to |pieces|
        invariant Tallies(declared, before + KeysOfPieces(selector, pieces[..j]))
      {
        assert pieces[..j + 1][..j] == pieces[..j];
        var name := Property(pieces[j]);
        ghost var keys := before + KeysOfPieces(selector, pieces[..j]);
        if name.Some? {
          var key := Key(selector, name.value);
          TallyOne(declared, keys, key);
          declared := declared[key := (if key in declared then declared[key] else 0) + 1];
          assert keys + [key] == before + KeysOfPieces(selector, pieces[..j + 1]);
        } else {
          assert keys == before + KeysOfPieces(selector, pieces[..j + 1]);
        }
      }
      assert pieces[..|pieces|] == pieces;
      assert rules[..i + 1][..i] == rules[..i];
    }
    assert rules[..|rules|] == rules;
  }

  lemma NoTallies()
    ensures Tallies(map[], [])
  {
  }

  datatype Redeclared = Redeclared(key: Key, times: nat)

  /** The re-declaration errors of check_page over the page's whole style sheet. */
  method CheckDeclarations(css: Text) returns (errors: seq<Redeclared>)
    ensures forall e :: e in errors <==>
      e.times == multiset(Declarations(Scan(StripComments(css))))[e.key] && e.times >= 2
  {
    hide Scan;
    hide StripComments;
    hide Declarations;
    var rules := TopLevelRules(css);
    var declared := CountDeclarations(rules);
    ghost var ks := Declarations(rules);
    var keys := declared.Keys;
    errors := [];
    while keys != {}
      invariant keys <= declared.Keys
      invariant forall e :: e in errors <==> e.key in declared.Keys - keys && e.times == declared[e.key] && e.times >= 2
      decreases |keys|
    {
      var key :| key in keys;
      if declared[key] > 1 {
        errors := errors + [Redeclared(key, declared[key])];
      }
      keys := keys - {key};
    }
    forall e ensures e in errors <==> e.times == multiset(ks)[e.key] && e.times >= 2 {
      assert e.key in ks <==> e.key in multiset(ks);
    }
  }

  /** The gate reports a re-declaration exactly when two declarations name one pair. */
  lemma {:induction false} TwiceExactly(ks: seq<Key>, k: Key)
    ensures multiset(ks)[k] >= 2 <==> exists i, j :: 0 <= i < j < |ks| && ks[i] == k && ks[j] == k
  {
    if ks != [] {
      var n := |ks| - 1;
      TwiceExactly(ks[..n], k);
      assert ks == ks[..n] + [ks[n]];
      assert multiset(ks) == multiset(ks[..n]) + multiset{ks[n]};
      assert k in ks[..n] <==> k in multiset(ks[..n]);
      if k in ks[..n] && ks[n] == k {
        var i :| 0 <= i < n && ks[..n][i] == k;
        assert ks[i] == k && ks[n] == k;
      }
      if i, j :| 0 <= i < j < |ks| && ks[i] == k && ks[j] == k {
        if j < n {
          assert ks[..n][i] == k && ks[..n][j] == k;
        } else {
          assert ks[..n][i] == k;
        }
      }
      if i, j :| 0 <= i < j < n && ks[..n][i] == k && ks[..n][j] == k {
        assert ks[i] == k && ks[j] == k;
      }
    }
  }

  // ----- declarations and selectors as an author writes them -----

  /** White space, a property, white space, a colon and a value. */
  datatype Declaration = Declaration(indent: Text, property: Text, gap: Text, value: Text)

  predicate IsDeclaration(d: Declaration) {
    && AllSpace(d.indent) && AllSpace(d.gap) && Tight(d.property)
    && COLON !in d.property && SEMICOLON !in d.property && SEMICOLON !in d.value
  }

  function DeclarationText(d: Declaration): Text {
    d.indent + (d.property + (d.gap + ([COLON] + d.value)))
  }

  /** The property of a printed declaration is the one printed; custom properties have none. */
  lemma PropertyPrinted(d: Declaration)
    requires IsDeclaration(d)
    ensures Property(DeclarationText(d)) == if U("--") <= d.property then None else Some(d.property)
  {
    hide Strip;
    var t, name := DeclarationText(d), d.indent + (d.property + d.gap);
    assert t == name + ([COLON] + d.value);
    assert COLON !in d.indent && COLON !in d.gap;
    IndexFound(name, COLON, [COLON] + d.value);
    assert t[..|name|] == name && t[|name|] == COLON;
    StripPadded(d.indent, d.property, d.gap);
    StripNotEmpty(t, |name|);
    assert U("--") == [DASH, DASH];
  }

  lemma {:induction false} StripLeftKeeps(t: Text, i: nat)
    requires i < |t| && !IsSpace(t[i])
    ensures StripLeft(t) != [] && t[i] in StripLeft(t)
  {
    if IsSpace(t[0]) {
      StripLeftKeeps(t[1..], i - 1);
    }
  }

  lemma {:induction false} StripRightKeeps(t: Text)
    requires t != [] && !IsSpace(t[0])
    ensures StripRight(t) != []
    decreases |t|
  {
    if IsSpace(t[|t| - 1]) {
      StripRightKeeps(t[..|t| - 1]);
    }
  }

  lemma StripNotEmpty(t: Text, i: nat)
    requires i < |t| && !IsSpace(t[i])
    ensures Strip(t) != []
  {
    StripLeftKeeps(t, i);
    StripRightKeeps(StripLeft(t));
  }

  /** Declarations with semicolons between them and perhaps one more text without a colon after the last. */
  function BodyText(ds: seq<Declaration>, last: Text): Text {
    if ds == [] then last else DeclarationText(ds[0]) + ([SEMICOLON] + BodyText(ds[1..], last))
  }

  function Pieces(ds: seq<Declaration>, last: Text): (ps: seq<Text>)
    ensures |ps| == |ds| + 1
  {
    seq(|ds| + 1, i requires 0 <= i <= |ds| => if i < |ds| then DeclarationText(ds[i]) else last)
  }

  lemma {:induction false} SplitFirst(a: Text, c: CodePoint, b: Text)
    requires c !in a
    ensures SplitAt(a + ([c] + b), c) == [a] + SplitAt(b, c)
  {
    var t := a + ([c] + b);
    if a == [] {
      assert t[1..] == b;
    } else {
      assert t[1..] == a[1..] + ([c] + b);
      SplitFirst(a[1..], c, b);
      assert a == [a[0]] + a[1..];
    }
  }

  lemma {:induction false} SplitNone(a: Text, c: CodePoint)
    requires c !in a
    ensures SplitAt(a, c) == [a]
  {
    if a != [] {
      SplitNone(a[1..], c);
      assert a == [a[0]] + a[1..];
    }
  }

  lemma {:induction false} BodySplits(ds: seq<Declaration>, last: Text)
    requires (forall i :: 0 <= i < |ds| ==> IsDeclaration(ds[i])) && SEMICOLON !in last
    ensures SplitAt(BodyText(ds, last), SEMICOLON) == Pieces(ds, last)
  {
    hide DeclarationText;
    hide IsDeclaration;
    hide SplitAt;
    if ds == [] {
      SplitNone(last, SEMICOLON);
    } else {
      DeclarationIsOne(ds[0]);
      SplitFirst(DeclarationText(ds[0]), SEMICOLON, BodyText(ds[1..], last));
      BodySplits(ds[1..], last);
      PiecesFirst(ds, last);
    }
  }

  lemma DeclarationIsOne(d: Declaration)
    requires IsDeclaration(d)
    ensures SEMICOLON !in DeclarationText(d)
  {
    assert SEMICOLON !in d.indent && SEMICOLON !in d.gap;
  }

  lemma PiecesFirst(ds: seq<Declaration>, last: Text)
    requires ds != []
    ensures Pieces(ds, last) == [DeclarationText(ds[0])] + Pieces(ds[1..], last)
  {
    hide DeclarationText;
  }

  /** The pairs a body declares: its properties in order, without the custom ones. */
  function DeclaredKeys(selector: Text, ds: seq<Declaration>): seq<Key> {
    if ds == [] then []
    else
      var d := ds[|ds| - 1];
      DeclaredKeys(selector, ds[..|ds| - 1]) + (if U("--") <= d.property then [] else [Key(selector, d.property)])
  }

  lemma {:induction false} PrefixKeys(selector: Text, ds: seq<Declaration>, ps: seq<Text>)
    requires (forall i :: 0 <= i < |ds| ==> IsDeclaration(ds[i])) && |ps| == |ds|
    requires forall i :: 0 <= i < |ds| ==> ps[i] == DeclarationText(ds[i])
    ensures KeysOfPieces(selector, ps) == DeclaredKeys(selector, ds)
  {
    hide Property;
    if ds != [] {
      var n := |ds| - 1;
      PrefixKeys(selector, ds[..n], ps[..n]);
      PropertyPrinted(ds[n]);
    }
  }

  /** A printed rule declares its selector with exactly its properties. */
  lemma RuleDeclares(selector: Text, ds: seq<Declaration>, last: Text)
    requires (forall i :: 0 <= i < |ds| ==> IsDeclaration(ds[i])) && SEMICOLON !in last && COLON !in last
    ensures Declarations([Rule(selector, BodyText(ds, last))]) == DeclaredKeys(selector, ds)
  {
    hide Property;
    hide SplitAt;
    BodySplits(ds, last);
    var ps := Pieces(ds, last);
    PrefixKeys(selector, ds, ps[..|ds|]);
    NoProperty(last);
    assert KeysOfPieces(selector, ps) == KeysOfPieces(selector, ps[..|ds|]) + [];
    var rules := [Rule(selector, BodyText(ds, last))];
    assert rules[..0] == [];
    assert Declarations(rules) == Declarations([]) + KeysOfPieces(selector, ps);
  }

  lemma NoProperty(t: Text)
    requires COLON !in t
    ensures Property(t) == None
  {
  }

  // ----- selectors -----

  /** Words with white space before each, none needed before the first. */
  function Laid(gaps: seq<Text>, words: seq<Text>, last: Text): Text
    requires |gaps| == |words|
  {
    if words == [] then last else gaps[0] + (words[0] + Laid(gaps[1..], words[1..], last))
  }

  predicate IsLaid(gaps: seq<Text>, words: seq<Text>, last: Text) {
    && |gaps| == |words| && AllSpace(last)
    && (forall i :: 0 <= i < |words| ==> words[i] != [] && NoSpace(words[i]))
    && forall i :: 0 <= i < |gaps| ==> AllSpace(gaps[i]) && (i > 0 ==> gaps[i] != [])
  }

  predicate NoSpace(t: Text) {
    forall i :: 0 <= i < |t| ==> !IsSpace(t[i])
  }

  lemma {:induction false} WordEnds(w: Text, r: Text)
    requires NoSpace(w) && (r == [] || IsSpace(r[0]))
    ensures WordEnd(w + r) == |w|
  {
    if w == [] {
      assert w + r == r;
    } else {
      assert (w + r)[1..] == w[1..] + r;
      WordEnds(w[1..], r);
    }
  }

  lemma {:induction false} WordsLaid(gaps: seq<Text>, words: seq<Text>, last: Text)
    requires IsLaid(gaps, words, last)
    ensures Words(Laid(gaps, words, last)) == words
    decreases |words|
  {
    if words == [] {
      StripLeftPadded(last, []);
      assert last + [] == last;
    } else {
      var r := Laid(gaps[1..], words[1..], last);
      var t := gaps[0] + (words[0] + r);
      StripLeftPadded(gaps[0], words[0] + r);
      if words[1..] != [] {
        assert gaps[1..][0] == gaps[1] && r[0] == gaps[1][0];
      } else if r != [] {
        assert r[0] == last[0];
      }
      WordEnds(words[0], r);
      assert (words[0] + r)[..|words[0]|] == words[0] && (words[0] + r)[|words[0]|..] == r;
      WordsLaid(gaps[1..], words[1..], last);
    }
  }

  /** Nothing before the first of n words, one blank before each of the others. */
  function Blanks(n: nat): (gaps: seq<Text>)
    ensures |gaps| == n && forall i :: 0 <= i < n ==> gaps[i] == if i == 0 then [] else [SPACE]
  {
    seq(n, i requires 0 <= i < n => if i == 0 then [] else [SPACE])
  }

  lemma {:induction false} SpacedIsLaid(words: seq<Text>)
    requires words != []
    ensures Spaced(words) == Laid(Blanks(|words|), words, [])
  {
    var gaps, rest := Blanks(|words|), words[1..];
    assert gaps[0] + (words[0] + Laid(gaps[1..], rest, [])) == words[0] + Laid(gaps[1..], rest, []);
    if |words| == 1 {
      assert Laid(gaps[1..], rest, []) == [];
      assert words[0] + [] == words[0];
    } else {
      SpacedIsLaid(rest);
      var inner := Blanks(|rest|);
      assert gaps[1..][1..] == inner[1..];
      var tail := rest[0] + Laid(inner[1..], rest[1..], []);
      assert Laid(inner, rest, []) == [] + tail == tail;
      assert Laid(gaps[1..], rest, []) == [SPACE] + tail;
      assert words[0] + [SPACE] + tail == words[0] + ([SPACE] + tail);
    }
  }

  /** However its words are laid out, with comments anywhere between and in them, a selector comes out without
      the comments and with one blank between the words. */
  lemma SelectorPrinted(first: Text, ps: seq<Part>, gaps: seq<Text>, words: seq<Text>, last: Text)
    requires NoOpening(first) && (forall i :: 0 <= i < |ps| ==> IsPart(ps[i]))
    requires IsLaid(gaps, words, last) && words != [] && Bare(first, ps) == Laid(gaps, words, last)
    ensures Selector(Commented(first, ps)) == Laid(Blanks(|words|), words, [])
  {
    hide Words;
    hide Spaced;
    hide StripComments;
    hide IsPart;
    CommentsStripped(first, ps);
    WordsLaid(gaps, words, last);
    SpacedIsLaid(words);
  }
}
