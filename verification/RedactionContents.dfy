/**
  What the redaction filter refuses, by how a text comes apart: a fragment in any letter
  case, an address of four numbers, groups with colons, or a path.
 */
module RedactionContents {
  import opened Texts
  import opened RedactionPolicy

  // ----- the specification -----

  function Fragment(k: nat): string {
    match k
    case 0 => "/ip4/"
    case 1 => "/ip6/"
    case 2 => "/dns"
    case 3 => "/tcp/"
    case 4 => "/udp/"
    case 5 => "/quic"
    case 6 => "/p2p/"
    case 7 => "12D3Koo"
    case 8 => "kaspa:"
    case 9 => "kaspatest:"
    case 10 => "BEGIN PRIVATE KEY"
    case 11 => "BEGIN OPENSSH PRIVATE KEY"
    case 12 => "PRIVATE KEY"
    case 13 => "MNEMONIC"
    case 14 => "SEED PHRASE"
    case 15 => "SECRET"
    case 16 => "PASSWORD"
    case 17 => "KEYSTORE"
    case 18 => "WALLET"
    case _ => "SIGNATURE"
  }

  function Small(c: int): int {
    if 0x41 <= c <= 0x5A then c + 0x20 else c
  }

  /** The same letters, whatever their case. */
  predicate SameLetters(a: Text, b: string) {
    |a| == |b| && forall i :: 0 <= i < |a| ==> Small(a[i]) == Small(b[i] as int)
  }

  predicate FragmentIn(t: Text, k: nat, head: Text, word: Text, tail: Text) {
    k < 20 && SameLetters(word, Fragment(k)) && t == head + (word + tail)
  }

  predicate Number(t: Text) {
    1 <= |t| <= 3 && forall i :: 0 <= i < |t| ==> 0x30 <= t[i] <= 0x39
  }

  predicate Group(t: Text) {
    1 <= |t| <= 4 && forall i :: 0 <= i < |t| ==> 0x30 <= t[i] <= 0x39 || 0x41 <= t[i] <= 0x46 || 0x61 <= t[i] <= 0x66
  }

  predicate DigitFree(c: int) {
    c < 0x30 || c > 0x39
  }

  /** A number, a dot and what follows. */
  function Dotted(number: Text, rest: Text): Text {
    number + ([0x2E] + rest)
  }

  /** Four numbers with dots, between characters that are no digits. */
  predicate AddressIn(t: Text, head: Text, a: Text, b: Text, c: Text, d: Text, tail: Text) {
    && Number(a) && Number(b) && Number(c) && Number(d)
    && (head == [] || DigitFree(head[|head| - 1])) && (tail == [] || DigitFree(tail[0]))
    && t == head + Dotted(a, Dotted(b, Dotted(c, d + tail)))
  }

  predicate GroupsIn(t: Text, head: Text, a: Text, b: Text, tail: Text) {
    Group(a) && Group(b) && t == head + (a + ([0x3A] + (b + ([0x3A] + tail))))
  }

  predicate PathLike(t: Text) {
    0x2F in t || 0x5C in t || (t != [] && t[0] == 0x7E)
  }

  ghost predicate Discloses(t: Text) {
    || (exists k: nat, head, word, tail :: FragmentIn(t, k, head, word, tail))
    || (exists head, a, b, c, d, tail :: AddressIn(t, head, a, b, c, d, tail))
    || (!TimestampShape(t) && exists head, a, b, tail :: GroupsIn(t, head, a, b, tail))
    || (PathLike(t) && t != U("/prometheus/") + U("threat-hint/") + U("2.0.0"))
  }

  // ----- the filter meets it -----

  lemma FragmentRow(k: nat)
    requires k < 20
    ensures |FRAGMENTS| == 20 && FRAGMENTS[k] == Fragment(k)
  {
  }

  lemma FragmentSays(fold: Text -> Text, t: Text, k: nat)
    requires IsCasefold(fold) && IsAscii(t) && k < 20
    ensures |FRAGMENTS| == 20
    ensures Contains(fold(t), fold(U(FRAGMENTS[k]))) <==> exists head, word, tail :: FragmentIn(t, k, head, word, tail)
  {
    hide Fragment;
    hide FragmentIn;
    hide Contains;
    FragmentRow(k);
    FragmentIsAscii(k);
    assert fold(t) == Lower(t) && fold(U(FRAGMENTS[k])) == Lower(U(Fragment(k)));
    FragmentFound(t, k);
  }

  lemma FragmentFound(t: Text, k: nat)
    requires k < 20
    ensures Contains(Lower(t), Lower(U(Fragment(k)))) <==> exists head, word, tail :: FragmentIn(t, k, head, word, tail)
  {
    hide Fragment;
    hide SameLetters;
    hide OccursAt;
    hide Lower;
    hide U;
    var word := Fragment(k);
    var needle := Lower(U(word));
    forall i ensures OccursAt(Lower(t), needle, i) <==> 0 <= i <= |t| - |word| && SameLetters(t[i..i + |word|], word) {
      LettersFound(t, word, i);
    }
    if i :| 0 <= i <= |Lower(t)| && OccursAt(Lower(t), needle, i) {
      ThreeParts(t, i, i + |word|);
      assert FragmentIn(t, k, t[..i], t[i..i + |word|], t[i + |word|..]);
    }
    if head, found, tail :| FragmentIn(t, k, head, found, tail) {
      LettersLength(found, word);
      PartPlaced(t, head, found, tail);
      assert OccursAt(Lower(t), needle, |head|);
      assert |Lower(t)| == |t|;
    }
  }

  lemma ThreeParts(t: Text, i: int, e: int)
    requires 0 <= i <= e <= |t|
    ensures t == t[..i] + (t[i..e] + t[e..])
  {
  }

  lemma PartPlaced(t: Text, head: Text, part: Text, tail: Text)
    requires t == head + (part + tail)
    ensures |head| + |part| <= |t| && t[|head|..|head| + |part|] == part
  {
  }

  lemma LettersLength(a: Text, b: string)
    requires SameLetters(a, b)
    ensures |a| == |b|
  {
  }

  lemma LettersFound(t: Text, word: string, i: int)
    ensures OccursAt(Lower(t), Lower(U(word)), i) <==> 0 <= i <= |t| - |word| && SameLetters(t[i..i + |word|], word)
  {
    if 0 <= i <= |t| - |word| {
      var found, low := t[i..i + |word|], Lower(t)[i..i + |word|];
      assert forall j :: 0 <= j < |word| ==> low[j] == Small(found[j]) && Lower(U(word))[j] == Small(word[j] as int);
      if SameLetters(found, word) {
        assert low == Lower(U(word));
      }
    }
  }

  /** A text from one position on, cut at a later one. */
  lemma CutAt(t: Text, i: int, j: int)
    requires DigitGroup(t, i, j) && j < |t| && t[j] == 0x2E
    ensures t[i..] == Dotted(t[i..j], t[j + 1..]) && Number(t[i..j])
  {
  }

  lemma LastCut(t: Text, i: int, j: int)
    requires DigitGroup(t, i, j)
    ensures Number(t[i..j]) && t[i..] == t[i..j] + t[j..]
  {
  }

  lemma TwoCut(t: Text, q: int, r: int, e: int)
    requires DigitGroup(t, q, r) && r < |t| && t[r] == 0x2E && DigitGroup(t, r + 1, e)
    ensures 0 <= q < r && r + 1 < e <= |t| && t[q..] == Dotted(t[q..r], t[r + 1..e] + t[e..])
    ensures Number(t[q..r]) && Number(t[r + 1..e])
  {
    hide Number;
    hide Dotted;
    CutAt(t, q, r);
    LastCut(t, r + 1, e);
  }

  lemma AddressCut(t: Text, a: int, p: int, q: int, r: int, e: int)
    requires Ipv4At(t, a, p, q, r, e)
    ensures 0 <= a < p && p + 1 < q && q + 1 < r && r + 1 < e <= |t|
    ensures AddressIn(t, t[..a], t[a..p], t[p + 1..q], t[q + 1..r], t[r + 1..e], t[e..])
  {
    hide *;
    AddressInside(t, a, p, q, r, e);
    ThreeCut(t, p + 1, q, r, e);
    CutAt(t, a, p);
    EndsCut(t, a, e);
    AddressHolds(t, t[..a], t[a..p], t[p + 1..q], t[q + 1..r], t[r + 1..e], t[e..]);
  }

  lemma ThreeCut(t: Text, p: int, q: int, r: int, e: int)
    requires DigitGroup(t, p, q) && q < |t| && t[q] == 0x2E && DigitGroup(t, q + 1, r)
    requires r < |t| && t[r] == 0x2E && DigitGroup(t, r + 1, e)
    ensures 0 <= p < q && q + 1 < r && r + 1 < e <= |t|
    ensures t[p..] == Dotted(t[p..q], Dotted(t[q + 1..r], t[r + 1..e] + t[e..]))
    ensures Number(t[p..q]) && Number(t[q + 1..r]) && Number(t[r + 1..e])
  {
    hide Number;
    hide Dotted;
    TwoCut(t, q + 1, r, e);
    CutAt(t, p, q);
  }

  lemma AddressHolds(t: Text, head: Text, a: Text, b: Text, c: Text, d: Text, tail: Text)
    requires Number(a) && Number(b) && Number(c) && Number(d)
    requires (head == [] || !IsDigit(head[|head| - 1])) && (tail == [] || !IsDigit(tail[0]))
    requires t == head + Dotted(a, Dotted(b, Dotted(c, d + tail)))
    ensures AddressIn(t, head, a, b, c, d, tail)
  {
    hide Number;
    hide Dotted;
  }

  lemma EndsCut(t: Text, a: int, e: int)
    requires 0 <= a <= e <= |t|
    ensures t == t[..a] + t[a..] && (a > 0 ==> t[..a][|t[..a]| - 1] == t[a - 1]) && (e < |t| ==> t[e..][0] == t[e])
  {
  }

  /** What a text holds from one position on. */
  predicate From(t: Text, i: nat, rest: Text) {
    i <= |t| && t[i..] == rest
  }

  lemma NumberPlaced(t: Text, i: nat, g: Text, rest: Text)
    requires From(t, i, g + rest) && Number(g)
    ensures i + |g| <= |t| && DigitGroup(t, i, i + |g|) && From(t, i + |g|, rest)
  {
    assert forall k :: i <= k < i + |g| ==> t[k] == t[i..][k - i] == g[k - i];
    assert t[i + |g|..] == t[i..][|g|..];
  }

  lemma DottedPlaced(t: Text, i: nat, g: Text, rest: Text)
    requires From(t, i, Dotted(g, rest)) && Number(g)
    ensures i + |g| < |t| && DigitGroup(t, i, i + |g|) && t[i + |g|] == 0x2E && From(t, i + |g| + 1, rest)
  {
    NumberPlaced(t, i, g, [0x2E] + rest);
    assert t[i + |g| + 1..] == t[i + |g|..][1..];
  }

  lemma AddressPlaced(t: Text, head: Text, a: Text, b: Text, c: Text, d: Text, tail: Text)
    requires AddressIn(t, head, a, b, c, d, tail)
    ensures Ipv4Search(t)
  {
    hide *;
    var z := d + tail;
    AddressParts(t, head, a, b, c, d, tail, z);
    var i := |head|;
    DottedPlaced(t, i, a, Dotted(b, Dotted(c, z)));
    ThreePlaced(t, i, i + |a|, b, c, d, tail, z);
  }

  lemma ThreePlaced(t: Text, i: nat, p: nat, b: Text, c: Text, d: Text, tail: Text, z: Text)
    requires DigitGroup(t, i, p) && p < |t| && t[p] == 0x2E && (i == 0 || (i <= |t| && !IsDigit(t[i - 1])))
    requires From(t, p + 1, Dotted(b, Dotted(c, z))) && z == d + tail
    requires Number(b) && Number(c) && Number(d) && (tail == [] || !IsDigit(tail[0]))
    ensures Ipv4Search(t)
  {
    hide *;
    DottedPlaced(t, p + 1, b, Dotted(c, z));
    var q := p + 1 + |b|;
    DottedPlaced(t, q + 1, c, z);
    var r := q + 1 + |c|;
    NumberPlaced(t, r + 1, d, tail);
    TailPlaced(t, r + 1 + |d|, tail);
    AddressFound(t, i, p, q, r, r + 1 + |d|);
  }

  lemma AddressParts(t: Text, head: Text, a: Text, b: Text, c: Text, d: Text, tail: Text, z: Text)
    requires AddressIn(t, head, a, b, c, d, tail) && z == d + tail
    ensures Number(a) && Number(b) && Number(c) && Number(d) && From(t, |head|, Dotted(a, Dotted(b, Dotted(c, z))))
    ensures (|head| == 0 || !IsDigit(t[|head| - 1])) && (tail == [] || !IsDigit(tail[0]))
  {
    hide Number;
    hide Dotted;
    HeadPlaced(t, head, Dotted(a, Dotted(b, Dotted(c, z))));
  }

  lemma AddressFound(t: Text, a: nat, p: nat, q: nat, r: nat, e: nat)
    requires DigitGroup(t, a, p) && DigitGroup(t, p + 1, q) && DigitGroup(t, q + 1, r) && DigitGroup(t, r + 1, e)
    requires p < |t| && q < |t| && r < |t| && t[p] == t[q] == t[r] == 0x2E
    requires a == 0 || (a <= |t| && !IsDigit(t[a - 1]))
    requires e == |t| || (e < |t| && !IsDigit(t[e]))
    ensures Ipv4Search(t)
  {
    assert Ipv4At(t, a, p, q, r, e);
  }

  lemma HeadPlaced(t: Text, head: Text, rest: Text)
    requires t == head + rest
    ensures From(t, |head|, rest) && (head != [] ==> t[|head| - 1] == head[|head| - 1])
  {
  }

  lemma TailPlaced(t: Text, i: nat, tail: Text)
    requires From(t, i, tail)
    ensures i == |t| || (i < |t| && tail != [] && t[i] == tail[0])
  {
  }

  lemma AddressSays(t: Text)
    ensures Ipv4Search(t) <==> exists head, a, b, c, d, tail :: AddressIn(t, head, a, b, c, d, tail)
  {
    hide Ipv4At;
    hide AddressIn;
    if a, p, q, r, e :| Ipv4At(t, a, p, q, r, e) {
      AddressInside(t, a, p, q, r, e);
      AddressCut(t, a, p, q, r, e);
    }
    if head, a, b, c, d, tail :| AddressIn(t, head, a, b, c, d, tail) {
      AddressPlaced(t, head, a, b, c, d, tail);
    }
  }

  lemma AddressInside(t: Text, a: int, p: int, q: int, r: int, e: int)
    requires Ipv4At(t, a, p, q, r, e)
    ensures 0 <= a < p && p + 1 < q && q + 1 < r && r + 1 < e <= |t|
    ensures DigitGroup(t, a, p) && DigitGroup(t, p + 1, q) && DigitGroup(t, q + 1, r) && DigitGroup(t, r + 1, e)
    ensures t[p] == 0x2E && t[q] == 0x2E && t[r] == 0x2E && (a == 0 || !IsDigit(t[a - 1])) && (e == |t| || !IsDigit(t[e]))
  {
  }

  lemma GroupsSay(t: Text)
    ensures Ipv6Search(t) <==> exists head, a, b, tail :: GroupsIn(t, head, a, b, tail)
  {
    if a, p, q :| HexGroup(t, a, p) && p + 1 < q < |t| && HexGroup(t, p + 1, q) && t[p] == ':' as int && t[q] == ':' as int {
      assert t == t[..a] + (t[a..p] + ([0x3A] + (t[p + 1..q] + ([0x3A] + t[q + 1..]))));
      assert GroupsIn(t, t[..a], t[a..p], t[p + 1..q], t[q + 1..]);
    }
    if head, a, b, tail :| GroupsIn(t, head, a, b, tail) {
      GroupsPlaced(t, head, a, b, tail);
    }
  }

  lemma GroupsPlaced(t: Text, head: Text, a: Text, b: Text, tail: Text)
    requires GroupsIn(t, head, a, b, tail)
    ensures Ipv6Search(t)
  {
    var p := |head| + |a|;
    var q := p + 1 + |b|;
    assert forall i :: |head| <= i < p ==> t[i] == a[i - |head|];
    assert forall i :: p + 1 <= i < q ==> t[i] == b[i - p - 1];
    assert HexGroup(t, |head|, p) && HexGroup(t, p + 1, q);
  }

  /** On ASCII text the filter refuses exactly what discloses something. */
  lemma RefusedExactly(fold: Text -> Text, t: Text)
    requires IsCasefold(fold) && IsAscii(t)
    ensures !Passes(fold, t) <==> Discloses(t)
  {
    hide Contains;
    hide FragmentIn;
    hide Ipv4Search;
    hide Ipv6Search;
    hide AddressIn;
    hide GroupsIn;
    hide TimestampShape;
    hide IsCasefold;
    hide IsAscii;
    hide U;
    forall k: nat | k < 20 ensures |FRAGMENTS| == 20
      && (Contains(fold(t), fold(U(FRAGMENTS[k]))) <==> exists head, word, tail :: FragmentIn(t, k, head, word, tail)) {
      FragmentSays(fold, t, k);
    }
    AddressSays(t);
    GroupsSay(t);
    if k: nat, head, word, tail :| FragmentIn(t, k, head, word, tail) {
      FragmentRange(t, k, head, word, tail);
      assert Contains(fold(t), fold(U(FRAGMENTS[k])));
    }
  }

  lemma FragmentRange(t: Text, k: nat, head: Text, word: Text, tail: Text)
    requires FragmentIn(t, k, head, word, tail)
    ensures k < 20
  {
  }
}
