/**
  The UTF-8 decoder of the endpoint parser against the encoding itself: which bytes stand
  for a character, and that nothing else decodes.
 */
module Utf8Text {
  import opened Texts
  import opened EndpointObservation

  /** The characters UTF-8 can carry: all code points but the surrogates. */
  predicate IsScalar(c: int) {
    0 <= c < 0xD800 || 0xE000 <= c <= 0x10_FFFF
  }

  /** The bytes of one character: seven bits in one byte, or a lead byte and six bits in each byte after it. */
  function EncodeOne(c: CodePoint): (b: Bytes)
    requires IsScalar(c)
    ensures |b| > 0
  {
    if c < 0x80 then [c]
    else if c < 0x800 then [0xC0 + c / 64, 0x80 + c % 64]
    else if c < 0x1_0000 then [0xE0 + c / 64 / 64, 0x80 + c / 64 % 64, 0x80 + c % 64]
    else [0xF0 + c / 64 / 64 / 64, 0x80 + c / 64 / 64 % 64, 0x80 + c / 64 % 64, 0x80 + c % 64]
  }

  function Encode(t: Text): (b: Bytes)
    requires forall i :: 0 <= i < |t| ==> IsScalar(t[i])
  {
    if t == [] then [] else EncodeOne(t[0]) + Encode(t[1..])
  }

  lemma EncodedDecodes(c: CodePoint, rest: Bytes)
    requires IsScalar(c)
    ensures DecodeOne(EncodeOne(c) + rest) == Some((c, |EncodeOne(c)|))
  {
    var b := EncodeOne(c) + rest;
    var d: int := c / 64;
    var e: int := d / 64;
    assert c == d * 64 + c % 64 && d == e * 64 + d % 64;
    assert forall i :: 0 <= i < |EncodeOne(c)| ==> b[i] == EncodeOne(c)[i];
  }

  /** A number and its last six bits. */
  lemma SixBits(high: int, low: int)
    requires 0 <= low < 64
    ensures (high * 64 + low) / 64 == high && (high * 64 + low) % 64 == low
  {
  }

  lemma TwoBytes(x: int, y: int)
    requires 0xC2 <= x <= 0xDF && 0x80 <= y < 0xC0
    ensures var c := (x - 0xC0) * 64 + (y - 0x80); IsScalar(c) && EncodeOne(c) == [x, y]
  {
    SixBits(x - 0xC0, y - 0x80);
  }

  lemma ThreeBytes(x: int, y: int, z: int)
    requires 0xE0 <= x <= 0xEF && 0x80 <= y < 0xC0 && 0x80 <= z < 0xC0
    ensures var c := (x - 0xE0) * 4096 + (y - 0x80) * 64 + (z - 0x80); c >= 0x800 && IsScalar(c) ==> EncodeOne(c) == [x, y, z]
  {
    var d := (x - 0xE0) * 64 + (y - 0x80);
    SixBits(x - 0xE0, y - 0x80);
    SixBits(d, z - 0x80);
    assert d * 64 + (z - 0x80) == (x - 0xE0) * 4096 + (y - 0x80) * 64 + (z - 0x80);
  }

  lemma FourBytes(x: int, y: int, z: int, w: int)
    requires 0xF0 <= x <= 0xF4 && 0x80 <= y < 0xC0 && 0x80 <= z < 0xC0 && 0x80 <= w < 0xC0
    ensures var c := (x - 0xF0) * 0x4_0000 + (y - 0x80) * 4096 + (z - 0x80) * 64 + (w - 0x80);
      0x1_0000 <= c <= 0x10_FFFF ==> IsScalar(c) && EncodeOne(c) == [x, y, z, w]
  {
    var e := (x - 0xF0) * 64 + (y - 0x80);
    var d := e * 64 + (z - 0x80);
    SixBits(x - 0xF0, y - 0x80);
    SixBits(e, z - 0x80);
    SixBits(d, w - 0x80);
    assert d * 64 + (w - 0x80) == (x - 0xF0) * 0x4_0000 + (y - 0x80) * 4096 + (z - 0x80) * 64 + (w - 0x80);
  }

  lemma DecodedEncodes(b: Bytes)
    requires b != [] && DecodeOne(b).Some?
    ensures var (c, k) := DecodeOne(b).value; IsScalar(c) && k <= |b| && b[..k] == EncodeOne(c)
  {
    hide EncodeOne;
    if b[0] < 0x80 {
      OneByte(b[0]);
      assert b[..1] == [b[0]];
    } else if b[0] <= 0xDF {
      TwoBytes(b[0], b[1]);
      assert b[..2] == [b[0], b[1]];
    } else if b[0] <= 0xEF {
      ThreeBytes(b[0], b[1], b[2]);
      assert b[..3] == [b[0], b[1], b[2]];
    } else {
      FourBytes(b[0], b[1], b[2], b[3]);
      assert b[..4] == [b[0], b[1], b[2], b[3]];
    }
  }

  lemma OneByte(x: int)
    requires 0 <= x < 0x80
    ensures IsScalar(x) && EncodeOne(x) == [x]
  {
  }

  /** bytes.decode("utf-8") succeeds exactly on the encodings of texts, and gives the text back. */
  lemma {:induction false} DecodeExactly(b: Bytes, t: Text)
    ensures DecodeUtf8(b) == Some(t) <==> (forall i :: 0 <= i < |t| ==> IsScalar(t[i])) && b == Encode(t)
    decreases |b|
  {
    hide DecodeOne;
    hide EncodeOne;
    hide IsScalar;
    if DecodeUtf8(b) == Some(t) && b != [] {
      DecodedEncodes(b);
      var k := DecodeOne(b).value.1;
      DecodeExactly(b[k..], t[1..]);
      assert b == b[..k] + b[k..];
      assert forall i :: 0 < i < |t| ==> t[i] == t[1..][i - 1];
    }
    if (forall i :: 0 <= i < |t| ==> IsScalar(t[i])) && b == Encode(t) && t != [] {
      var one := EncodeOne(t[0]);
      EncodedDecodes(t[0], Encode(t[1..]));
      assert b[|one|..] == Encode(t[1..]);
      DecodeExactly(b[|one|..], t[1..]);
      assert t == [t[0]] + t[1..];
    }
  }
}
