/**
  The two texts the boundary writes, character by character: the receipt file and the
  acknowledgement.
 */
module BoundaryTexts {
  import opened Texts
  import opened JsonStrings
  import opened JsonText
  import opened Boundary

  /** "key": and a value, without white space. */
  function Entry(key: string, value: Text): Text {
    [0x22] + U(key) + [0x22, 0x3A] + value
  }

  function Quote(t: Text): Text {
    [0x22] + t + [0x22]
  }

  function Word(status: Status): string {
    if status.Rejected? then "rejected" else "busy"
  }

  function ReceiptLayout(status: Status, digest: Text, payloadBytes: nat): Text {
    [0x7B] + (Entry("schema_version", [0x31]) + ([0x2C] +
             (Entry("event", Quote(U("development-threat-hint-v1-boundary"))) + ([0x2C] +
             (Entry("status", Quote(U(Word(status)))) + ([0x2C] +
             (Entry("payload_sha256", Quote(digest)) + ([0x2C] +
              Entry("payload_bytes", NatText(payloadBytes)))))))))) + [0x7D]
  }

  /** A busy boundary acknowledges no payload. */
  function AckLayout(status: Status, digest: Text): Text {
    [0x7B] + (Entry("payload_digest", Quote(if status.Rejected? then digest else [])) + ([0x2C] +
             (Entry("protocol_version", [0x31]) + ([0x2C] +
              Entry("status", Quote(U(Word(status)))))))) + [0x7D]
  }

  lemma StringEntry(key: string, t: Text)
    requires Plain(U(key)) && Plain(t)
    ensures PrintMember(Member(U(key), Str(t)), CANONICAL, 1) == Entry(key, Quote(t))
  {
    hide U;
    hide Plain;
    PlainStringMember(U(key), t);
    assert [0x22] + U(key) + [0x22, 0x3A, 0x22] + t + [0x22] == Entry(key, Quote(t));
  }

  lemma IntEntry(key: string, n: nat)
    requires Plain(U(key))
    ensures PrintMember(Member(U(key), Int(n)), CANONICAL, 1) == Entry(key, NatText(n))
  {
    hide U;
    hide Plain;
    hide NatText;
    PlainIntMember(U(key), n);
  }

  lemma OneText()
    ensures NatText(1) == [0x31]
  {
  }

  lemma {:induction false} FiveMembers(a: Member, b: Member, c: Member, d: Member, e: Member)
    ensures Dumps(Obj([a, b, c, d, e]), CANONICAL) ==
      [0x7B] + (PrintMember(a, CANONICAL, 1) + ([0x2C] + (PrintMember(b, CANONICAL, 1) + ([0x2C] + (PrintMember(c, CANONICAL, 1) +
      ([0x2C] + (PrintMember(d, CANONICAL, 1) + ([0x2C] + PrintMember(e, CANONICAL, 1))))))))) + [0x7D]
  {
    hide PrintMember;
    hide PrintMembers;
    hide Dumps;
    var ms := [a, b, c, d, e];
    assert ms[1..] == [b, c, d, e] && [b, c, d, e][1..] == [c, d, e] && [c, d, e][1..] == [d, e] && [d, e][1..] == [e];
    MembersFollow(ms);
    MembersFollow([b, c, d, e]);
    MembersFollow([c, d, e]);
    MembersFollow([d, e]);
    MembersFollow([e]);
    ObjectFollows(ms);
    assert PrintMember(e, CANONICAL, 1) + [] == PrintMember(e, CANONICAL, 1);
  }

  lemma ReceiptKeysArePlain()
    ensures Plain(U("schema_version")) && Plain(U("event")) && Plain(U("status")) && Plain(U("payload_sha256")) && Plain(U("payload_bytes"))
  {
  }

  lemma EventIsPlain()
    ensures Plain(U("development-threat-hint-v1-boundary"))
  {
  }

  lemma WordExactly(status: Status)
    ensures StatusText(status) == U(Word(status)) && Plain(U(Word(status)))
  {
  }

  /** The receipt file, for every status, digest and payload length. */
  lemma ReceiptSays(status: Status, digest: Text, payloadBytes: nat)
    requires IsAscii(digest) && Plain(digest)
    ensures ReceiptBytes(status, digest, payloadBytes) == ReceiptLayout(status, digest, payloadBytes)
  {
    hide U;
    hide Plain;
    hide StatusText;
    hide Word;
    hide PrintMember;
    hide Dumps;
    hide NatText;
    hide Entry;
    hide Quote;
    ReceiptKeysArePlain();
    EventIsPlain();
    WordExactly(status);
    OneText();
    IntEntry("schema_version", 1);
    StringEntry("event", U("development-threat-hint-v1-boundary"));
    StringEntry("status", U(Word(status)));
    StringEntry("payload_sha256", digest);
    IntEntry("payload_bytes", payloadBytes);
    FiveMembers(Member(U("schema_version"), Int(1)), Member(U("event"), Str(U("development-threat-hint-v1-boundary"))),
      Member(U("status"), Str(StatusText(status))), Member(U("payload_sha256"), Str(digest)), Member(U("payload_bytes"), Int(payloadBytes)));
    var b: Text := ReceiptBytes(status, digest, payloadBytes);
    assert b == Dumps(ReceiptNode(status, digest, payloadBytes), CANONICAL);
  }

  lemma AckKeysArePlain()
    ensures Plain(U("payload_digest")) && Plain(U("protocol_version")) && Plain(U("status")) && Plain([])
  {
  }

  /** The acknowledgement, for every status and digest. */
  lemma AckSays(status: Status, digest: Text)
    requires Plain(digest)
    ensures AckBytes(status, digest) == AckLayout(status, digest)
  {
    hide U;
    hide Plain;
    hide StatusText;
    hide Word;
    hide PrintMember;
    hide Dumps;
    hide NatText;
    hide Entry;
    hide Quote;
    hide AckText;
    AckKeysArePlain();
    WordExactly(status);
    OneText();
    var d := if status.Rejected? then digest else [];
    StringEntry("payload_digest", d);
    IntEntry("protocol_version", 1);
    StringEntry("status", U(Word(status)));
    ThreeMembers(Member(U("payload_digest"), Str(d)), Member(U("protocol_version"), Int(1)), Member(U("status"), Str(StatusText(status))));
    AckIsCanonicalJson(status, digest);
    var b: Text := AckBytes(status, digest);
    assert b == AckText(status, digest);
  }
}
