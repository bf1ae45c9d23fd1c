/**
  The binary framing both execution attestations hash: a domain separator, a zero byte,
  a version byte, then every field behind its one-byte length. The first form binds five
  fields, the second eleven.
 */
module AttestationFraming {
  import opened Texts

  const DOMAIN_V1: Bytes := U("prometheus-gh229-execution-attestation")
  const DOMAIN_V2: Bytes := U("prometheus-gh238-v2-execution-attestation")
  const VERSION: Byte := 1

  predicate Fits(fields: seq<Bytes>) {
    forall i :: 0 <= i < |fields| ==> |fields[i]| <= 255
  }

  function Framed(fields: seq<Bytes>): (b: Bytes)
    requires Fits(fields)
  {
    if fields == [] then [] else [|fields[0]|] + fields[0] + Framed(fields[1..])
  }

  function Preimage(domain: Bytes, fields: seq<Bytes>): (b: Bytes)
    requires Fits(fields)
  {
    domain + [0, VERSION] + Framed(fields)
  }

  lemma FramedOne(fields: seq<Bytes>)
    requires Fits(fields) && fields != []
    ensures Framed(fields) == [|fields[0]|] + fields[0] + Framed(fields[1..])
  {
  }

  lemma {:induction false} FramedAppend(fields: seq<Bytes>, f: Bytes)
    requires Fits(fields) && |f| <= 255
    ensures Fits(fields + [f]) && Framed(fields + [f]) == Framed(fields) + ([|f|] + f)
  {
    hide Framed;
    var more := fields + [f];
    FramedOne(more);
    if fields == [] {
      assert more[1..] == [];
      FramedNone();
      assert [|f|] + f + [] == [] + ([|f|] + f);
    } else {
      assert more[1..] == fields[1..] + [f] && more[0] == fields[0];
      FramedAppend(fields[1..], f);
      FramedOne(fields);
      var head: Bytes := [|fields[0]|] + fields[0];
      assert head + (Framed(fields[1..]) + ([|f|] + f)) == head + Framed(fields[1..]) + ([|f|] + f);
    }
  }

  lemma FramedNone()
    ensures Framed([]) == []
  {
  }

  /** The frame is grown field by field; appending a length above 255 to a bytearray raises. */
  method BuildFrame(domain: Bytes, fields: seq<Bytes>) returns (r: Option<Bytes>)
    ensures r.Some? <==> Fits(fields)
    ensures r.Some? ==> r.value == Preimage(domain, fields)
  {
    var frame: Bytes := domain;
    frame := frame + [0];
    frame := frame + [VERSION];
    for i := 0 to |fields|
      invariant Fits(fields[..i])
      invariant frame == Preimage(domain, fields[..i])
    {
      var field := fields[i];
      if |field| > 255 {
        return None;
      }
      FramedAppend(fields[..i], field);
      assert fields[..i + 1] == fields[..i] + [field];
      frame := frame + [|field|];
      frame := frame + field;
    }
    assert fields[..|fields|] == fields;
    return Some(frame);
  }

  /** Framed field lists, of any lengths, are uniquely decodable. */
  lemma {:induction false} FramedInjective(fs: seq<Bytes>, gs: seq<Bytes>)
    requires Fits(fs) && Fits(gs) && Framed(fs) == Framed(gs)
    ensures fs == gs
  {
    if fs != [] && gs != [] {
      var a, b := Framed(fs), Framed(gs);
      var n := |fs[0]|;
      assert a[0] == n && b[0] == |gs[0]|;
      assert a[1..1 + n] == fs[0] && b[1..1 + n] == gs[0];
      assert a[1 + n..] == Framed(fs[1..]) && b[1 + n..] == Framed(gs[1..]);
      FramedInjective(fs[1..], gs[1..]);
      assert fs == [fs[0]] + fs[1..] && gs == [gs[0]] + gs[1..];
    }
  }

  lemma PreimageInjective(domain: Bytes, fs: seq<Bytes>, gs: seq<Bytes>)
    requires Fits(fs) && Fits(gs) && Preimage(domain, fs) == Preimage(domain, gs)
    ensures fs == gs
  {
    var k := |domain| + 2;
    assert Preimage(domain, fs)[k..] == Framed(fs);
    assert Preimage(domain, gs)[k..] == Framed(gs);
    FramedInjective(fs, gs);
  }

  // ----- the two attestations -----

  lemma AsciiInjective(a: Text, b: Text)
    requires IsAscii(a) && IsAscii(b) && AsciiBytes(a) == AsciiBytes(b)
    ensures a == b
  {
    forall i | 0 <= i < |a| ensures a[i] == b[i] {
      assert AsciiBytes(a)[i] == AsciiBytes(b)[i];
    }
  }

  datatype AttestationV1 = AttestationV1(
    role: Text, challenge: Bytes, commit: Bytes, artifactDigest: Bytes, payloadDigest: Bytes)
  {
    predicate Encodable() { IsAscii(role) && Fits(Fields()) }

    function Fields(): (fs: seq<Bytes>)
      ensures |fs| == 5
    {
      [if IsAscii(role) then AsciiBytes(role) else [], challenge, commit, artifactDigest, payloadDigest]
    }

    function Hashed(): Bytes
      requires Encodable()
    {
      Preimage(DOMAIN_V1, Fields())
    }
  }

  datatype AttestationV2 = AttestationV2(
    role: Text, challenge: Bytes, commit: Bytes, artifactDigest: Bytes, payloadDigest: Bytes,
    protocol: Text, observedAt: Text, observedStatus: Text, attempts: int, retries: int, persisted: bool)
  {
    predicate Encodable() {
      IsAscii(role) && IsAscii(protocol) && IsAscii(observedAt) && IsAscii(observedStatus) && Fits(Fields())
    }

    function Fields(): (fs: seq<Bytes>)
      ensures |fs| == 11
    {
      [ if IsAscii(role) then AsciiBytes(role) else [], challenge, commit, artifactDigest, payloadDigest,
        if IsAscii(protocol) then AsciiBytes(protocol) else [],
        if IsAscii(observedAt) then AsciiBytes(observedAt) else [],
        if IsAscii(observedStatus) then AsciiBytes(observedStatus) else [],
        DecimalBytes(attempts), DecimalBytes(retries), FlagBytes(persisted) ]
    }

    function Hashed(): Bytes
      requires Encodable()
    {
      Preimage(DOMAIN_V2, Fields())
    }
  }

  /** str(n).encode("ascii") */
  function DecimalBytes(n: int): (b: Bytes)
    ensures |b| == |IntText(n)| && forall i :: 0 <= i < |b| ==> b[i] == IntText(n)[i]
  {
    IntText(n)
  }

  /** str(flag).lower().encode("ascii") */
  function FlagBytes(b: bool): (r: Bytes)
    ensures |r| == if b then 4 else 5
  {
    if b then U("true") else U("false")
  }

  lemma DecimalBytesInjective(m: int, n: int)
    requires DecimalBytes(m) == DecimalBytes(n)
    ensures m == n
  {
    var a: Text, b: Text := IntText(m), IntText(n);
    assert forall i :: 0 <= i < |a| ==> a[i] == DecimalBytes(m)[i] == DecimalBytes(n)[i] == b[i];
    IntTextInjective(m, n);
  }

  lemma V1Injective(a: AttestationV1, b: AttestationV1)
    requires a.Encodable() && b.Encodable() && a.Hashed() == b.Hashed()
    ensures a == b
  {
    PreimageInjective(DOMAIN_V1, a.Fields(), b.Fields());
    assert forall i :: 0 <= i < 5 ==> a.Fields()[i] == b.Fields()[i];
    AsciiInjective(a.role, b.role);
  }

  /** Every one of the eleven bound values can be read off the preimage. */
  lemma V2Injective(a: AttestationV2, b: AttestationV2)
    requires a.Encodable() && b.Encodable() && a.Hashed() == b.Hashed()
    ensures a == b
  {
    hide Preimage;
    hide DecimalBytes;
    hide FlagBytes;
    hide AsciiBytes;
    PreimageInjective(DOMAIN_V2, a.Fields(), b.Fields());
    var f, g := a.Fields(), b.Fields();
    assert f[0] == g[0] && f[5] == g[5] && f[6] == g[6] && f[7] == g[7];
    AsciiInjective(a.role, b.role);
    AsciiInjective(a.protocol, b.protocol);
    AsciiInjective(a.observedAt, b.observedAt);
    AsciiInjective(a.observedStatus, b.observedStatus);
    DecimalBytesInjective(a.attempts, b.attempts);
    DecimalBytesInjective(a.retries, b.retries);
    assert |FlagBytes(a.persisted)| == |FlagBytes(b.persisted)|;
  }

  /** No preimage of one tool is a preimage of the other. */
  lemma DomainsSeparate(a: AttestationV1, b: AttestationV2)
    requires a.Encodable() && b.Encodable()
    ensures a.Hashed() != b.Hashed()
  {
    assert a.Hashed()[14] == DOMAIN_V1[14] == '2' as int;
    assert b.Hashed()[14] == DOMAIN_V2[14] == '3' as int;
  }

  // ----- the layout, byte for byte -----

  /** One unsigned length byte and the field; a longer field has no frame. */
  function Chunk(f: Bytes): Bytes {
    if |f| <= 255 then [|f|] + f else []
  }

  /** A field of a list, and those after it. */
  lemma FirstChunk(fs: seq<Bytes>, i: nat)
    requires Fits(fs) && i < |fs|
    ensures Fits(fs[i..]) && Fits(fs[i + 1..]) && Framed(fs[i..]) == Chunk(fs[i]) + Framed(fs[i + 1..])
  {
    hide Framed;
    FramedOne(fs[i..]);
    assert fs[i..][1..] == fs[i + 1..];
  }

  lemma LastChunk(fs: seq<Bytes>)
    requires Fits(fs) && fs != []
    ensures Fits(fs[|fs| - 1..]) && Framed(fs[|fs| - 1..]) == Chunk(fs[|fs| - 1])
  {
    hide Framed;
    FirstChunk(fs, |fs| - 1);
    FramedNone();
    assert fs[|fs|..] == [];
    assert Chunk(fs[|fs| - 1]) + [] == Chunk(fs[|fs| - 1]);
  }

  /** Five fields in a row. */
  lemma FiveChunks(fs: seq<Bytes>, i: nat)
    requires Fits(fs) && i + 5 <= |fs|
    ensures Fits(fs[i..]) && Fits(fs[i + 5..])
    ensures Framed(fs[i..]) ==
      Chunk(fs[i]) + (Chunk(fs[i + 1]) + (Chunk(fs[i + 2]) + (Chunk(fs[i + 3]) + (Chunk(fs[i + 4]) + Framed(fs[i + 5..])))))
  {
    hide Chunk;
    hide Framed;
    FirstChunk(fs, i);
    FirstChunk(fs, i + 1);
    FirstChunk(fs, i + 2);
    FirstChunk(fs, i + 3);
    FirstChunk(fs, i + 4);
  }

  /** The five fields of the first version, in order. */
  lemma V1Layout(a: AttestationV1)
    requires a.Encodable()
    ensures DOMAIN_V1 == U("prometheus-gh229-execution-attestation")
    ensures a.Hashed() == DOMAIN_V1 + [0, 1] +
      (Chunk(AsciiBytes(a.role)) + (Chunk(a.challenge) + (Chunk(a.commit) + (Chunk(a.artifactDigest) + Chunk(a.payloadDigest)))))
  {
    hide Chunk;
    hide Framed;
    hide AsciiBytes;
    hide U;
    var fs := a.Fields();
    FiveChunks(fs, 0);
    FramedNone();
    assert fs[0..] == fs && fs[5..] == [];
    assert Chunk(fs[4]) + [] == Chunk(fs[4]);
  }

  /** The eleven fields of the second version, in order. */
  lemma V2Layout(a: AttestationV2)
    requires a.Encodable()
    ensures DOMAIN_V2 == U("prometheus-gh238-v2-execution-attestation")
    ensures a.Hashed() == DOMAIN_V2 + [0, 1] +
      (Chunk(AsciiBytes(a.role)) + (Chunk(a.challenge) + (Chunk(a.commit) + (Chunk(a.artifactDigest) + (Chunk(a.payloadDigest) +
        (Chunk(AsciiBytes(a.protocol)) + (Chunk(AsciiBytes(a.observedAt)) + (Chunk(AsciiBytes(a.observedStatus)) +
          (Chunk(DecimalBytes(a.attempts)) + (Chunk(DecimalBytes(a.retries)) + Chunk(FlagBytes(a.persisted))))))))))))
  {
    hide Chunk;
    hide Framed;
    hide AsciiBytes;
    hide DecimalBytes;
    hide FlagBytes;
    hide U;
    var fs := a.Fields();
    FiveChunks(fs, 0);
    FiveChunks(fs, 5);
    LastChunk(fs);
    assert fs[0..] == fs;
  }

  /** Counts in decimal, flags as words. */
  lemma ScalarBytes(n: int, b: bool)
    ensures DecimalBytes(n) == IntText(n) && FlagBytes(b) == if b then U("true") else U("false")
  {
    var d: seq<int>, t: seq<int> := DecimalBytes(n), IntText(n);
    assert d == t;
  }
}
