/** Python string methods the line and style-sheet parsers use. */
module PyStrings {
  import opened Texts

  const SPACE: int := ' ' as int

  /** str.isspace on one character. */
  predicate IsSpace(c: int) {
    || 0x09 <= c <= 0x0D || 0x1C <= c <= 0x20 || c == 0x85 || c == 0xA0 || c == 0x1680 || 0x2000 <= c <= 0x200A
    || c == 0x2028 || c == 0x2029 || c == 0x202F || c == 0x205F || c == 0x3000
  }

  predicate IsLetter(c: int) {
    'a' as int <= c <= 'z' as int || 'A' as int <= c <= 'Z' as int
  }

  function StripLeft(t: Text): (r: Text)
    ensures |r| <= |t| && (r != [] ==> !IsSpace(r[0]))
  {
    if t != [] && IsSpace(t[0]) then StripLeft(t[1..]) else t
  }

  function StripRight(t: Text): (r: Text) {
    if t != [] && IsSpace(t[|t| - 1]) then StripRight(t[..|t| - 1]) else t
  }

  /** str.strip. */
  function Strip(t: Text): (r: Text) {
    StripRight(StripLeft(t))
  }

  predicate Tight(t: Text) {
    t != [] && !IsSpace(t[0]) && !IsSpace(t[|t| - 1])
  }

  predicate AllSpace(t: Text) {
    forall i :: 0 <= i < |t| ==> IsSpace(t[i])
  }

  lemma {:induction false} StripLeftPadded(a: Text, t: Text)
    requires AllSpace(a) && (t == [] || !IsSpace(t[0]))
    ensures StripLeft(a + t) == t
  {
    if a == [] {
      assert a + t == t;
    } else {
      assert (a + t)[1..] == a[1..] + t;
      StripLeftPadded(a[1..], t);
    }
  }

  lemma {:induction false} StripRightPadded(t: Text, b: Text)
    requires AllSpace(b) && (t == [] || !IsSpace(t[|t| - 1]))
    ensures StripRight(t + b) == t
    decreases |b|
  {
    if b == [] {
      assert t + b == t;
    } else {
      assert (t + b)[..|t + b| - 1] == t + b[..|b| - 1];
      StripRightPadded(t, b[..|b| - 1]);
    }
  }

  lemma StripPadded(a: Text, t: Text, b: Text)
    requires AllSpace(a) && AllSpace(b) && Tight(t)
    ensures Strip(a + (t + b)) == t
  {
    StripLeftPadded(a, t + b);
    StripRightPadded(t, b);
  }

  lemma {:induction false} LeftPart(t: Text) returns (lead: Text)
    ensures AllSpace(lead) && t == lead + StripLeft(t)
  {
    lead := [];
    if t != [] && IsSpace(t[0]) {
      var rest := LeftPart(t[1..]);
      lead := [t[0]] + rest;
    }
  }

  lemma {:induction false} RightPart(t: Text) returns (tail: Text)
    ensures AllSpace(tail) && t == StripRight(t) + tail
    ensures StripRight(t) != [] ==> !IsSpace(StripRight(t)[|StripRight(t)| - 1]) && StripRight(t)[0] == t[0]
    decreases |t|
  {
    tail := [];
    if t != [] && IsSpace(t[|t| - 1]) {
      var rest := RightPart(t[..|t| - 1]);
      tail := rest + [t[|t| - 1]];
    }
  }

  /** Every text is its stripped text between white space. */
  lemma StripParts(t: Text) returns (lead: Text, tail: Text)
    ensures AllSpace(lead) && AllSpace(tail) && t == lead + (Strip(t) + tail)
    ensures Strip(t) == [] || Tight(Strip(t))
  {
    lead := LeftPart(t);
    tail := RightPart(StripLeft(t));
  }

  /** Strip takes an indent off and leaves the rest alone. */
  lemma {:induction false} StripIndent(n: nat, t: Text)
    requires Tight(t)
    ensures Strip(seq(n, _ => SPACE) + t) == t
    decreases n
  {
    var s := seq(n, _ => SPACE) + t;
    if n > 0 {
      assert s[0] == SPACE && s[1..] == seq(n - 1, _ => SPACE) + t;
      StripIndent(n - 1, t);
    } else {
      assert s == t;
    }
  }

  /** str.split(): the maximal runs of characters that are not white space. */
  function Words(t: Text): (ws: seq<Text>)
    decreases |t|
  {
    var s := StripLeft(t);
    if s == [] then []
    else
      var n := WordEnd(s);
      [s[..n]] + Words(s[n..])
  }

  function WordEnd(t: Text): (n: nat)
    ensures n <= |t| && (t != [] && !IsSpace(t[0]) ==> n > 0)
  {
    if t == [] || IsSpace(t[0]) then 0 else 1 + WordEnd(t[1..])
  }

  /** " ".join(...). */
  function Spaced(ws: seq<Text>): Text {
    if ws == [] then [] else if |ws| == 1 then ws[0] else ws[0] + [SPACE] + Spaced(ws[1..])
  }

  /** t.split(c) for a one-character separator: the pieces between the separators. */
  function SplitAt(t: Text, c: int): (ps: seq<Text>)
    ensures |ps| > 0
  {
    if t == [] then [[]]
    else
      var rest := SplitAt(t[1..], c);
      if t[0] == c then [[]] + rest else [[t[0]] + rest[0]] + rest[1..]
  }

  /** t.find(c): the first position of a character, or the length. */
  function IndexOf(t: Text, c: int): (i: nat)
    ensures i <= |t| && c !in t[..i] && (i < |t| ==> t[i] == c)
  {
    if t == [] || t[0] == c then 0
    else
      var i := 1 + IndexOf(t[1..], c);
      assert t[..i] == [t[0]] + t[1..][..i - 1];
      i
  }

  lemma {:induction false} IndexFound(a: Text, c: int, b: Text)
    requires c !in a && (b == [] || b[0] == c)
    ensures IndexOf(a + b, c) == |a|
  {
    if a == [] {
      assert a + b == b;
    } else {
      assert (a + b)[1..] == a[1..] + b;
      IndexFound(a[1..], c, b);
    }
  }
}
