/**
  The single-shot threat-hint boundary: one frame in, one published receipt, and only then
  an acknowledgement out.
 */
module Boundary {
  import opened Texts
  import opened JsonStrings
  import opened JsonText
  import Publishing
  import EvidenceStreams

  /** The only statuses the tool can acknowledge. */
  datatype Status = Rejected | Busy

  function StatusText(s: Status): Text {
    match s
    case Rejected => U("rejected")
    case Busy => U("busy")
  }

  // ----- the receipt -----

  function ReceiptNode(status: Status, digest: Text, payloadBytes: nat): Node {
    Obj([ Member(U("schema_version"), Int(1)),
          Member(U("event"), Str(U("development-threat-hint-v1-boundary"))),
          Member(U("status"), Str(StatusText(status))),
          Member(U("payload_sha256"), Str(digest)),
          Member(U("payload_bytes"), Int(payloadBytes)) ])
  }

  lemma AsciiHasNoPair(t: Text)
    requires IsAscii(t)
    ensures NoPair(t)
  {
  }

  lemma WordHasNoPair(s: string)
    ensures NoPair(U(s))
  {
    assert forall i :: 0 <= i < |s| ==> U(s)[i] == s[i] as int;
  }

  lemma ReceiptIsPrintable(status: Status, digest: Text, payloadBytes: nat)
    requires NoPair(digest)
    ensures Printable(ReceiptNode(status, digest, payloadBytes))
  {
    hide U;
    hide NoPair;
    WordHasNoPair("schema_version");
    WordHasNoPair("event");
    WordHasNoPair("development-threat-hint-v1-boundary");
    WordHasNoPair("status");
    WordHasNoPair("payload_sha256");
    WordHasNoPair("payload_bytes");
    WordHasNoPair("rejected");
    WordHasNoPair("busy");
  }

  /** The bytes of the receipt file; a digest is hexadecimal text. */
  function ReceiptBytes(status: Status, digest: Text, payloadBytes: nat): (b: Bytes)
    requires IsAscii(digest)
  {
    AsciiHasNoPair(digest);
    ReceiptIsPrintable(status, digest, payloadBytes);
    PrintIsAscii(ReceiptNode(status, digest, payloadBytes), CANONICAL, 0);
    AsciiBytes(Dumps(ReceiptNode(status, digest, payloadBytes), CANONICAL))
  }

  /** A receipt file says exactly which status, digest and payload length it was written for. */
  lemma ReceiptReadsBack(status: Status, digest: Text, payloadBytes: nat)
    requires IsAscii(digest)
    ensures Loads(ReceiptBytes(status, digest, payloadBytes)) == Some(ReceiptNode(status, digest, payloadBytes))
  {
    hide ReceiptNode;
    hide Loads;
    hide Dumps;
    hide Printable;
    AsciiHasNoPair(digest);
    ReceiptIsPrintable(status, digest, payloadBytes);
    var t := Dumps(ReceiptNode(status, digest, payloadBytes), CANONICAL);
    var b: Text := ReceiptBytes(status, digest, payloadBytes);
    assert b == t;
    LoadsDumps(ReceiptNode(status, digest, payloadBytes), CANONICAL, [], []);
    assert [] + t + [] == t;
  }

  // ----- the acknowledgement -----

  function AckDigest(status: Status, digest: Text): Text {
    if status.Busy? then [] else digest
  }

  /** canonical_ack: a format string, not a JSON writer. */
  function AckText(status: Status, digest: Text): Text {
    U("{\"payload_digest\":\"") + AckDigest(status, digest) + U("\",\"protocol_version\":") + IntText(1)
    + U(",\"status\":\"") + StatusText(status) + U("\"}")
  }

  function AckNode(status: Status, digest: Text): Node {
    Obj([ Member(U("payload_digest"), Str(AckDigest(status, digest))),
          Member(U("protocol_version"), Int(1)),
          Member(U("status"), Str(StatusText(status))) ])
  }

  lemma PlainAckDigest(status: Status, digest: Text)
    requires Plain(digest)
    ensures Plain(AckDigest(status, digest))
  {
  }

  lemma PlainString(t: Text)
    requires Plain(t)
    ensures PrintString(t, CANONICAL) == [QUOTE] + t + [QUOTE]
  {
    EscapePlain(t, true);
  }

  lemma NamesArePlain(status: Status)
    ensures Plain(U("payload_digest")) && Plain(U("protocol_version")) && Plain(U("status")) && Plain(StatusText(status))
  {
  }

  lemma AckHead()
    ensures U("{\"payload_digest\":\"") == [LBRACE, QUOTE] + U("payload_digest") + [QUOTE, COLON, QUOTE]
  {
  }

  lemma AckMiddle()
    ensures U("\",\"protocol_version\":") == [QUOTE, COMMA, QUOTE] + U("protocol_version") + [QUOTE, COLON]
  {
  }

  lemma AckStatus()
    ensures U(",\"status\":\"") == [COMMA, QUOTE] + U("status") + [QUOTE, COLON, QUOTE]
  {
  }

  lemma PlainStringMember(n: Text, t: Text)
    requires Plain(n) && Plain(t)
    ensures PrintMember(Member(n, Str(t)), CANONICAL, 1) == [QUOTE] + n + [QUOTE, COLON, QUOTE] + t + [QUOTE]
  {
    PlainString(n);
    PlainString(t);
    hide PrintString;
  }

  lemma PlainIntMember(n: Text, k: int)
    requires Plain(n)
    ensures PrintMember(Member(n, Int(k)), CANONICAL, 1) == [QUOTE] + n + [QUOTE, COLON] + IntText(k)
  {
    PlainString(n);
    hide PrintString;
  }

  /** An object of three plain members, written out. */
  lemma ThreeMembers(a: Member, b: Member, c: Member)
    ensures Dumps(Obj([a, b, c]), CANONICAL) ==
      [LBRACE] + (PrintMember(a, CANONICAL, 1) + ([COMMA] + (PrintMember(b, CANONICAL, 1) + ([COMMA] + PrintMember(c, CANONICAL, 1))))) + [RBRACE]
  {
    hide PrintMember;
    hide PrintMembers;
    hide Dumps;
    var ms := [a, b, c];
    assert ms[1..] == [b, c] && [b, c][1..] == [c];
    MembersFollow(ms);
    MembersFollow([b, c]);
    MembersFollow([c]);
    ObjectFollows(ms);
    assert PrintMember(c, CANONICAL, 1) + [] == PrintMember(c, CANONICAL, 1);
  }

  lemma MembersFollow(ms: seq<Member>)
    requires ms != []
    ensures PrintMembers(ms, CANONICAL, 1) ==
      PrintMember(ms[0], CANONICAL, 1) + if |ms| == 1 then [] else [COMMA] + PrintMembers(ms[1..], CANONICAL, 1)
  {
    hide PrintMember;
    if |ms| > 1 {
      var rest := PrintMembers(ms[1..], CANONICAL, 1);
      assert [COMMA] + [] + rest == [COMMA] + rest;
    }
  }

  lemma ObjectFollows(ms: seq<Member>)
    requires ms != []
    ensures Dumps(Obj(ms), CANONICAL) == [LBRACE] + PrintMembers(ms, CANONICAL, 1) + [RBRACE]
  {
    hide PrintMembers;
    var body := PrintMembers(ms, CANONICAL, 1);
    assert [LBRACE] + [] + body + [] + [RBRACE] == [LBRACE] + body + [RBRACE];
  }

  /** The format string writes exactly the canonical JSON of its three fields, keys in order. */
  lemma AckIsCanonicalJson(status: Status, digest: Text)
    requires Plain(digest)
    ensures AckText(status, digest) == Dumps(AckNode(status, digest), CANONICAL)
  {
    NamesArePlain(status);
    AckHead();
    AckMiddle();
    AckStatus();
    assert U("\"}") == [QUOTE, RBRACE];
    hide U;
    hide StatusText;
    hide Plain;
    hide IntText;
    hide Dumps;
    hide PrintMember;
    var d, s := AckDigest(status, digest), StatusText(status);
    var n0, n1, n2 := U("payload_digest"), U("protocol_version"), U("status");
    PlainAckDigest(status, digest);
    PlainStringMember(n0, d);
    PlainIntMember(n1, 1);
    PlainStringMember(n2, s);
    ThreeMembers(Member(n0, Str(d)), Member(n1, Int(1)), Member(n2, Str(s)));
    AckRegroup(n0, n1, n2, d, IntText(1), s);
  }

  lemma AckRegroup(n0: Text, n1: Text, n2: Text, d: Text, v: Text, s: Text)
    ensures ([LBRACE, QUOTE] + n0 + [QUOTE, COLON, QUOTE]) + d + ([QUOTE, COMMA, QUOTE] + n1 + [QUOTE, COLON]) + v
            + ([COMMA, QUOTE] + n2 + [QUOTE, COLON, QUOTE]) + s + [QUOTE, RBRACE]
         == [LBRACE] + (([QUOTE] + n0 + [QUOTE, COLON, QUOTE] + d + [QUOTE]) + ([COMMA] +
            (([QUOTE] + n1 + [QUOTE, COLON] + v) + ([COMMA] + ([QUOTE] + n2 + [QUOTE, COLON, QUOTE] + s + [QUOTE]))))) + [RBRACE]
  {
  }

  lemma AckIsPrintable(status: Status, digest: Text)
    requires Plain(digest)
    ensures Printable(AckNode(status, digest))
  {
    NamesArePlain(status);
    PlainAckDigest(status, digest);
    hide U;
    hide StatusText;
  }

  function AckBytes(status: Status, digest: Text): (b: Bytes)
    requires Plain(digest)
    ensures Loads(b) == Some(AckNode(status, digest))
  {
    AckIsCanonicalJson(status, digest);
    AckIsPrintable(status, digest);
    PrintIsAscii(AckNode(status, digest), CANONICAL, 0);
    LoadsDumps(AckNode(status, digest), CANONICAL, [], []);
    assert [] + AckText(status, digest) + [] == AckText(status, digest);
    var b := AsciiBytes(AckText(status, digest));
    assert b == AckText(status, digest);
    b
  }

  // ----- the run -----

  /** sha256(payload).hexdigest(), left abstract: 64 lowercase hexadecimal characters. */
  ghost predicate IsHexDigest(sha: Bytes -> Text) {
    forall b :: IsHexText(sha(b), 64)
  }

  lemma DigestIsPlain(sha: Bytes -> Text, b: Bytes)
    requires IsHexDigest(sha)
    ensures Plain(sha(b)) && IsAscii(sha(b)) && |sha(b)| == 64
  {
  }

  /** sendall on the connection: sends pieces until done or until the peer is gone. */
  method SendAll(data: Bytes) returns (sent: Bytes, ok: bool)
    ensures sent <= data && (ok ==> sent == data)
  {
    sent, ok := [], true;
    while |sent| < |data| && ok
      invariant sent <= data
      decreases |data| - |sent|, ok
    {
      var fault: bool := *;
      if fault {
        ok := false;
      } else {
        var k: nat :| 1 <= k <= |data| - |sent|;
        sent := data[..|sent| + k];
      }
    }
  }

  /** What must be on disk before a byte of acknowledgement leaves. */
  ghost predicate Justified(d: Publishing.Disk, before: Publishing.Disk, stream: Bytes, payload: Bytes,
                            path: Publishing.Name, expected: Text, status: Status, sha: Bytes -> Text) {
    && EvidenceStreams.IsFrameOf(stream, payload) && sha(payload) == expected && IsAscii(sha(payload))
    && Publishing.PublishedAlone(d, before, path, ReceiptBytes(status, sha(payload), |payload|))
  }

  /** The stream is the frame of a payload with the expected digest. */
  ghost predicate Expected(stream: Bytes, expected: Text, sha: Bytes -> Text) {
    exists p :: EvidenceStreams.IsFrameOf(stream, p) && sha(p) == expected
  }

  lemma OtherDigest(stream: Bytes, payload: Bytes, expected: Text, sha: Bytes -> Text)
    requires EvidenceStreams.IsFrameOf(stream, payload)
    ensures Expected(stream, expected, sha) <==> sha(payload) == expected
  {
    if p :| EvidenceStreams.IsFrameOf(stream, p) && sha(p) == expected {
      EvidenceStreams.FrameUnique(stream, payload, p);
    }
  }

  /** What happens on the accepted connection. `atSend` is the disk at the moment sendall starts. */
  method Serve(fs: Publishing.FileSystem, connection: EvidenceStreams.Connection,
               receiptPath: Publishing.Name, expected: Text, status: Status, sha: Bytes -> Text)
    returns (r: EvidenceStreams.Result<Status>, sent: Bytes, ghost atSend: Option<Publishing.Disk>, ghost payload: Bytes)
    requires Publishing.WellFormed(fs.disk) && !Publishing.IsTemporary(Publishing.RECEIPT_PREFIX, receiptPath) && IsHexDigest(sha)
    modifies fs, connection
    ensures atSend.None? ==> sent == [] && r.Err?
    ensures atSend.Some? ==> fs.disk == atSend.value
    ensures atSend.Some? ==>
      Justified(atSend.value, old(fs.disk), old(connection.pending), payload, receiptPath, expected, status, sha)
    ensures atSend.Some? ==> Plain(expected) && |AckBytes(status, expected)| < 0x1_0000_0000
    ensures atSend.Some? ==> sent <= EvidenceStreams.Frame(AckBytes(status, expected))
    ensures r.Ok? ==> r.value == status && atSend.Some? && sent == EvidenceStreams.Frame(AckBytes(status, expected))
    ensures !old(connection.faulted) && !connection.faulted && fs.faults == old(fs.faults) ==>
      (atSend.Some? <==> receiptPath !in old(fs.disk).names && Expected(old(connection.pending), expected, sha))
    ensures atSend.None? && fs.faults == old(fs.faults) ==> fs.disk.names == old(fs.disk).names
    ensures Publishing.WellFormed(fs.disk) && Kept(fs.disk, old(fs.disk)) && fs.faults >= old(fs.faults)
  {
    hide ReceiptBytes;
    hide Publishing.PublishedAlone;
    hide Publishing.HistorySafe;
    hide Publishing.NeverPartial;
    hide Publishing.WellFormed;
    hide EvidenceStreams.Frame;
    hide EvidenceStreams.IsFrameOf;
    hide IsHexText;
    hide Kept;
    KeptSelf(fs.disk);
    sent, atSend, payload := [], None, [];
    r := EvidenceStreams.Err(EvidenceStreams.FileFailure);
    var frame := connection.ReadFrame();
    if frame.Err? {
      assert frame == EvidenceStreams.Err(frame.error);
      assert frame.error.FramingFailure? || frame.error.TimeoutFailure? || frame.error.IoFailure?;
      r := EvidenceStreams.Err(frame.error);
      return;
    }
    payload := frame.value;
    OtherDigest(old(connection.pending), payload, expected, sha);
    DigestIsPlain(sha, frame.value);
    var digest := sha(frame.value);
    if digest != expected {
      return;
    }
    var published, _, _, _ := fs.WriteReceipt(receiptPath, ReceiptBytes(status, digest, |frame.value|));
    ReceiptKeeps(fs.disk, old(fs.disk), receiptPath, ReceiptBytes(status, digest, |frame.value|));
    if !published {
      return;
    }
    var ack := AckBytes(status, digest);
    AckIsShort(status, digest);
    atSend := Some(fs.disk);
    var out, ok := SendAll(EvidenceStreams.Frame(ack));
    sent := out;
    if ok {
      r := EvidenceStreams.Ok(status);
    }
  }

  /** Every earlier entry leads where it led, to a file that has not changed. */
  ghost predicate Kept(d: Publishing.Disk, before: Publishing.Disk) {
    && (forall n :: n in before.names ==> n in d.names && d.names[n] == before.names[n])
    && (forall i :: i in before.files ==> i in d.files && d.files[i] == before.files[i])
  }

  lemma ReceiptKeeps(d: Publishing.Disk, before: Publishing.Disk, path: Publishing.Name, blob: Bytes)
    requires Publishing.NeverPartial(d, before, path, blob)
    ensures Publishing.WellFormed(d) && Kept(d, before)
  {
  }

  /** The earlier disk with one new owner-only entry, the socket's. */
  ghost predicate ListensOn(d: Publishing.Disk, before: Publishing.Disk, socketPath: Publishing.Name) {
    && socketPath !in before.names && socketPath in d.names && d.names[socketPath] !in before.files
    && d.names == before.names[socketPath := d.names[socketPath]]
    && d.files == before.files[d.names[socketPath] := Publishing.File([], [], Publishing.OWNER_ONLY)]
  }

  /** bind, chmod and the check of the new socket; its identity is recorded only at the end. */
  method Listen(fs: Publishing.FileSystem, socketPath: Publishing.Name) returns (identity: Option<Publishing.Inode>)
    requires Publishing.WellFormed(fs.disk)
    modifies fs
    ensures identity.Some? ==> ListensOn(fs.disk, old(fs.disk), socketPath) && fs.disk.names[socketPath] == identity.value
    ensures identity.Some? <==> socketPath !in old(fs.disk).names && fs.faults == old(fs.faults)
    ensures socketPath in old(fs.disk).names ==> fs.disk == old(fs.disk)
    ensures Publishing.WellFormed(fs.disk) && Kept(fs.disk, old(fs.disk)) && fs.faults >= old(fs.faults)
  {
    identity := None;
    var bound := fs.Bind(socketPath);
    if !bound {
      return;
    }
    var changed := fs.Chmod(socketPath, Publishing.OWNER_ONLY);
    if !changed {
      return;
    }
    var metadata := fs.Lstat(socketPath);
    if metadata.None? || metadata.value.permissions != Publishing.OWNER_ONLY {
      return;
    }
    identity := Some(metadata.value.inode);
  }

  /** cleanup_socket: unlinks the name only while it leads to the recorded socket. */
  method CleanupSocket(fs: Publishing.FileSystem, socketPath: Publishing.Name, identity: Publishing.Inode)
    requires Publishing.WellFormed(fs.disk)
    modifies fs
    ensures fs.disk == old(fs.disk) || fs.disk == old(fs.disk).(names := old(fs.disk).names - {socketPath})
    ensures fs.disk != old(fs.disk) ==> socketPath in old(fs.disk).names && old(fs.disk).names[socketPath] == identity
    ensures fs.faults >= old(fs.faults)
    ensures socketPath in old(fs.disk).names && old(fs.disk).names[socketPath] == identity && fs.faults == old(fs.faults) ==>
      fs.disk == old(fs.disk).(names := old(fs.disk).names - {socketPath})
  {
    var metadata := fs.Lstat(socketPath);
    if metadata.Some? && metadata.value.inode == identity {
      var unlinked := fs.Unlink(socketPath);
    }
  }

  /** The same disk, with or without the socket's name. */
  ghost predicate SameButSocket(d: Publishing.Disk, at: Publishing.Disk, socketPath: Publishing.Name) {
    d.files == at.files && (d.names == at.names || d.names == at.names - {socketPath})
  }

  /**
    run. `targetsOk` says that both paths are canonical and their parents owner-only directories,
    `accepted` that a peer connects in time; `bound` is the disk once the socket listens, `atSend`
    the disk at the moment sendall starts.

    In every run, acknowledgement bytes are sent only if the whole stream was one frame whose
    payload has the expected digest and the complete receipt for exactly that payload and
    status is already published; what is sent is a prefix of the one canonical
    acknowledgement for it, and all of it when the run succeeds. The receipt outlasts the run,
    and no earlier entry or file is touched.

    Absent faults, the run gets that far exactly when both paths are free and different, a peer
    connects and the stream is such a frame: the one path given twice passes both checks, and
    the bound socket then makes the link refuse. Absent faults it leaves nothing but the receipt.
   */
  method Run(fs: Publishing.FileSystem, connection: EvidenceStreams.Connection, targetsOk: bool, accepted: bool,
             socketPath: Publishing.Name, receiptPath: Publishing.Name, expected: Text, status: Status, sha: Bytes -> Text)
    returns (r: EvidenceStreams.Result<Status>, sent: Bytes, ghost bound: Option<Publishing.Disk>,
             ghost atSend: Option<Publishing.Disk>, ghost payload: Bytes)
    requires Publishing.WellFormed(fs.disk) && !Publishing.IsTemporary(Publishing.RECEIPT_PREFIX, receiptPath) && IsHexDigest(sha)
    modifies fs, connection
    ensures atSend.None? ==> sent == [] && r.Err?
    ensures atSend.Some? ==> bound.Some? && ListensOn(bound.value, old(fs.disk), socketPath)
    ensures atSend.Some? ==>
      Justified(atSend.value, bound.value, old(connection.pending), payload, receiptPath, expected, status, sha)
    ensures atSend.Some? ==> SameButSocket(fs.disk, atSend.value, socketPath) && socketPath != receiptPath
    ensures atSend.Some? ==> Plain(expected) && |AckBytes(status, expected)| < 0x1_0000_0000
    ensures atSend.Some? ==> sent <= EvidenceStreams.Frame(AckBytes(status, expected))
    ensures r.Ok? ==> r.value == status && atSend.Some? && sent == EvidenceStreams.Frame(AckBytes(status, expected))
    ensures socketPath in old(fs.disk).names || receiptPath in old(fs.disk).names || !targetsOk ==>
      atSend.None? && fs.disk == old(fs.disk)
    ensures !old(connection.faulted) && !connection.faulted && fs.faults == old(fs.faults) ==>
      (atSend.Some? <==>
        && targetsOk && accepted && socketPath !in old(fs.disk).names && receiptPath !in old(fs.disk).names
        && socketPath != receiptPath && Expected(old(connection.pending), expected, sha))
    ensures atSend.None? && fs.faults == old(fs.faults) ==> fs.disk.names == old(fs.disk).names
    ensures atSend.Some? && fs.faults == old(fs.faults) ==> Adds(fs.disk, old(fs.disk), receiptPath)
    ensures Kept(fs.disk, old(fs.disk)) && fs.faults >= old(fs.faults)
  {
    hide Justified;
    hide ListensOn;
    hide Kept;
    hide Expected;
    hide AckBytes;
    hide EvidenceStreams.Frame;
    hide Plain;
    hide IsHexDigest;
    sent, bound, atSend, payload := [], None, None, [];
    r := EvidenceStreams.Err(EvidenceStreams.FileFailure);
    KeptSelf(fs.disk);
    if !targetsOk || socketPath in fs.disk.names || receiptPath in fs.disk.names {
      return;
    }
    var identity := Listen(fs, socketPath);
    if identity.None? {
      return;
    }
    bound := Some(fs.disk);
    ListensNames(fs.disk, old(fs.disk), socketPath);
    KeptSelf(fs.disk);
    if accepted {
      r, sent, atSend, payload := Serve(fs, connection, receiptPath, expected, status, sha);
      if atSend.Some? {
        JustifiedNames(atSend.value, bound.value, old(connection.pending), payload, receiptPath, expected, status, sha);
      }
    } else {
      r := EvidenceStreams.Err(EvidenceStreams.TimeoutFailure);
    }
    ghost var served := fs.disk;
    KeptName(served, bound.value, socketPath);
    CleanupSocket(fs, socketPath, identity.value);
    KeptThrough(fs.disk, served, bound.value, old(fs.disk), socketPath);
    if fs.faults == old(fs.faults) {
      NamesAfter(fs.disk, served, bound.value, old(fs.disk), socketPath, receiptPath);
    }
  }

  lemma ListensNames(d: Publishing.Disk, before: Publishing.Disk, socketPath: Publishing.Name)
    requires ListensOn(d, before, socketPath)
    ensures socketPath in d.names
    ensures forall n :: n in d.names <==> n in before.names || n == socketPath
  {
  }

  lemma KeptSelf(d: Publishing.Disk)
    ensures Kept(d, d)
  {
  }

  /** A kept entry is there. */
  lemma KeptName(d: Publishing.Disk, before: Publishing.Disk, n: Publishing.Name)
    requires Kept(d, before) && n in before.names
    ensures n in d.names && d.names[n] == before.names[n]
  {
  }

  /** Removing the socket's name leaves every entry that was there before it. */
  lemma KeptThrough(d: Publishing.Disk, served: Publishing.Disk, bound: Publishing.Disk, before: Publishing.Disk,
                    socketPath: Publishing.Name)
    requires ListensOn(bound, before, socketPath) && Kept(served, bound) && SameButSocket(d, served, socketPath)
    ensures Kept(d, before)
  {
  }

  ghost predicate Adds(d: Publishing.Disk, before: Publishing.Disk, n: Publishing.Name) {
    n in d.names && d.names == before.names[n := d.names[n]]
  }

  /** What is left once the socket's name is gone: the earlier names, and the receipt if it was published. */
  lemma NamesAfter(d: Publishing.Disk, served: Publishing.Disk, bound: Publishing.Disk, before: Publishing.Disk,
                   socketPath: Publishing.Name, receiptPath: Publishing.Name)
    requires ListensOn(bound, before, socketPath) && d.names == served.names - {socketPath}
    ensures served.names == bound.names ==> d.names == before.names
    ensures receiptPath !in bound.names && Adds(served, bound, receiptPath) ==> Adds(d, before, receiptPath)
    ensures Adds(d, before, receiptPath) && receiptPath != socketPath ==> served.names[receiptPath] == d.names[receiptPath]
  {
  }

  lemma JustifiedNames(d: Publishing.Disk, before: Publishing.Disk, stream: Bytes, payload: Bytes,
                       path: Publishing.Name, expected: Text, status: Status, sha: Bytes -> Text)
    requires Justified(d, before, stream, payload, path, expected, status, sha)
    ensures path !in before.names && Adds(d, before, path)
  {
  }

  /** One path for socket and receipt: both checks pass when it is free, nothing is ever acknowledged,
      and absent faults the directory is left as it was. */
  method RunOnOnePath(fs: Publishing.FileSystem, connection: EvidenceStreams.Connection, accepted: bool,
                      path: Publishing.Name, expected: Text, status: Status, sha: Bytes -> Text)
    returns (r: EvidenceStreams.Result<Status>, sent: Bytes)
    requires Publishing.WellFormed(fs.disk) && !Publishing.IsTemporary(Publishing.RECEIPT_PREFIX, path) && IsHexDigest(sha)
    modifies fs, connection
    ensures r.Err? && sent == [] && Kept(fs.disk, old(fs.disk))
    ensures fs.faults == old(fs.faults) ==> fs.disk.names == old(fs.disk).names
  {
    hide Justified;
    hide Kept;
    var outcome, out, _, _, _ := Run(fs, connection, true, accepted, path, path, expected, status, sha);
    r, sent := outcome, out;
  }

  lemma AckIsShort(status: Status, digest: Text)
    requires Plain(digest) && |digest| == 64
    ensures |AckBytes(status, digest)| < 0x1_0000_0000
  {
    assert |AckText(status, digest)| <= 19 + 64 + 21 + |IntText(1)| + 11 + 8 + 2;
    assert |IntText(1)| == 1;
  }
}
