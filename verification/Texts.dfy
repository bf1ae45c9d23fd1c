/**
  Python text and byte strings. A str is a sequence of code points, surrogates
  included, because JSON escapes can put a lone surrogate into a decoded string;
  a bytes value is a sequence of octets.
 */
module Texts {
  type CodePoint = c: int | 0 <= c < 0x11_0000
  type Text = seq<CodePoint>
  type Byte = b: int | 0 <= b < 256
  type Bytes = seq<Byte>

  datatype Option<+T> = None | Some(value: T)

  /** A literal of the source as code points. */
  function U(s: string): (t: Text)
    ensures |t| == |s|
    ensures forall i :: 0 <= i < |s| ==> t[i] == s[i] as int
  {
    seq(|s|, i requires 0 <= i < |s| => s[i] as int)
  }

  predicate IsDigit(c: int) {
    '0' as int <= c <= '9' as int
  }

  predicate IsLowerHex(c: int) {
    IsDigit(c) || 'a' as int <= c <= 'f' as int
  }

  /** So many lower-case hexadecimal digits. */
  predicate IsHexText(t: Text, n: nat) {
    |t| == n && forall i :: 0 <= i < n ==> IsLowerHex(t[i])
  }

  predicate IsAscii(t: Text) {
    forall i :: 0 <= i < |t| ==> t[i] < 0x80
  }

  /** str.encode("ascii") of an ASCII text. */
  function AsciiBytes(t: Text): (b: Bytes)
    requires IsAscii(t)
    ensures |b| == |t| && forall i :: 0 <= i < |t| ==> b[i] == t[i]
  {
    t
  }

  /** The lower-case form of an ASCII letter; every other character is itself. */
  function LowerOne(c: CodePoint): CodePoint {
    if 'A' as int <= c <= 'Z' as int then c + 32 else c
  }

  /** Lexicographic order by code point, the order `sorted` uses on str. */
  predicate Before(a: Text, b: Text) {
    b != [] && (a == [] || a[0] < b[0] || (a[0] == b[0] && Before(a[1..], b[1..])))
  }

  lemma {:induction false} BeforeTotal(a: Text, b: Text)
    ensures a == b || Before(a, b) || Before(b, a)
  {
    if a != [] && b != [] && a[0] == b[0] {
      BeforeTotal(a[1..], b[1..]);
      assert a == [a[0]] + a[1..] && b == [b[0]] + b[1..];
    }
  }

  lemma {:induction false} BeforeTransitive(a: Text, b: Text, c: Text)
    requires Before(a, b) && Before(b, c)
    ensures Before(a, c)
  {
    if a != [] && a[0] == b[0] && b[0] == c[0] {
      BeforeTransitive(a[1..], b[1..], c[1..]);
    }
  }

  lemma {:induction false} BeforeIrreflexive(a: Text)
    ensures !Before(a, a)
  {
    if a != [] {
      BeforeIrreflexive(a[1..]);
    }
  }

  /** At the first place where the texts differ, the earlier one has the smaller code point, or has ended. */
  ghost predicate SmallerAt(a: Text, b: Text, i: nat) {
    i <= |a| && i < |b| && a[..i] == b[..i] && (i == |a| || a[i] < b[i])
  }

  lemma {:induction false} BeforeExactly(a: Text, b: Text)
    ensures Before(a, b) <==> exists i :: SmallerAt(a, b, i)
  {
    if Before(a, b) {
      var i := FirstSmaller(a, b);
    }
    if i :| SmallerAt(a, b, i) {
      SmallerIsBefore(a, b, i);
    }
  }

  lemma {:induction false} FirstSmaller(a: Text, b: Text) returns (i: nat)
    requires Before(a, b)
    ensures SmallerAt(a, b, i)
  {
    if a == [] || a[0] < b[0] {
      i := 0;
    } else {
      var j := FirstSmaller(a[1..], b[1..]);
      i := j + 1;
      assert a[..i] == [a[0]] + a[1..][..j] && b[..i] == [b[0]] + b[1..][..j];
    }
  }

  lemma {:induction false} SmallerIsBefore(a: Text, b: Text, i: nat)
    requires SmallerAt(a, b, i)
    ensures Before(a, b)
    decreases i
  {
    if i > 0 {
      assert a[0] == a[..i][0] && b[0] == b[..i][0];
      assert a[1..][..i - 1] == a[..i][1..] && b[1..][..i - 1] == b[..i][1..];
      SmallerIsBefore(a[1..], b[1..], i - 1);
    }
  }

  // ----- decimal integers, as str(n) prints them -----

  function NatText(n: nat): (t: Text)
    ensures |t| > 0
    ensures forall i :: 0 <= i < |t| ==> IsDigit(t[i])
    ensures t[0] == '0' as int ==> n == 0 && |t| == 1
    decreases n
  {
    if n < 10 then ['0' as int + n] else NatText(n / 10) + ['0' as int + n % 10]
  }

  function IntText(n: int): (t: Text) {
    if n < 0 then ['-' as int] + NatText(-n) else NatText(n)
  }

  function NatValue(t: Text): (n: nat)
    requires forall i :: 0 <= i < |t| ==> IsDigit(t[i])
  {
    if t == [] then 0
    else
      assert IsDigit(t[|t| - 1]);
      NatValue(t[..|t| - 1]) * 10 + (t[|t| - 1] - '0' as int)
  }

  lemma {:induction false} NatTextValue(n: nat)
    ensures NatValue(NatText(n)) == n
    decreases n
  {
    var t := NatText(n);
    if n < 10 {
      assert t[..0] == [];
    } else {
      assert t[..|t| - 1] == NatText(n / 10);
      NatTextValue(n / 10);
    }
  }

  lemma NatTextInjective(m: nat, n: nat)
    requires NatText(m) == NatText(n)
    ensures m == n
  {
    hide NatText;
    NatTextValue(m);
    NatTextValue(n);
  }

  /** str is injective on integers. */
  lemma {:induction false} IntTextInjective(m: int, n: int)
    requires IntText(m) == IntText(n)
    ensures m == n
  {
    hide NatText;
    assert IsDigit(NatText(if m < 0 then -m else m)[0]) && IsDigit(NatText(if n < 0 then -n else n)[0]);
    assert IntText(m)[0] == IntText(n)[0];
    if m < 0 {
      assert IntText(m)[1..] == NatText(-m) && IntText(n)[1..] == NatText(-n);
      NatTextInjective(-m, -n);
    } else {
      NatTextInjective(m, n);
    }
  }

  /** A number below 10^digits prints in at most that many characters. */
  lemma {:induction false} NatTextLength(n: nat, digits: nat)
    requires digits > 0 && n < Pow10(digits)
    ensures |NatText(n)| <= digits
    decreases n
  {
    if n >= 10 {
      assert digits > 1;
      NatTextLength(n / 10, digits - 1);
    }
  }

  function Pow10(e: nat): (p: nat)
    ensures p >= 1
  {
    if e == 0 then 1 else 10 * Pow10(e - 1)
  }

  // ----- big-endian 32-bit lengths, as struct.pack(">I", n) writes them -----

  type U32 = n: int | 0 <= n < 0x1_0000_0000

  function BigEndian(n: U32): (b: Bytes)
    ensures |b| == 4 && FromBigEndian(b) == n
  {
    [n / 256 / 256 / 256, n / 256 / 256 % 256, n / 256 % 256, n % 256]
  }

  function FromBigEndian(b: Bytes): (n: U32)
    requires |b| == 4
  {
    var b0: int, b1: int, b2: int, b3: int := b[0], b[1], b[2], b[3];
    ((b0 * 256 + b1) * 256 + b2) * 256 + b3
  }

  lemma BigEndianOfRead(b: Bytes)
    requires |b| == 4
    ensures BigEndian(FromBigEndian(b)) == b
  {
    var n := FromBigEndian(b);
    var b0: int, b1: int, b2: int := b[0], b[1], b[2];
    assert n / 256 == (b0 * 256 + b1) * 256 + b2;
    assert n / 256 / 256 == b0 * 256 + b1;
  }

  lemma UInjective(a: string, b: string)
    requires U(a) == U(b)
    ensures a == b
  {
    forall i | 0 <= i < |a| ensures a[i] == b[i] {
      assert U(a)[i] == U(b)[i];
    }
  }
}
