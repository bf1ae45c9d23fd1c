/**
  The two-host record as a file: what the operator tool publishes is text, what the verifier
  loads is text, and the two meet on it.
 */
module RecordFiles {
  import opened Texts
  import opened JsonStrings
  import JsonText
  import opened CanonicalJson
  import opened RedactionPolicy
  import opened MultihostEvidence
  import opened Interning
  import opened RecordNames
  import Publishing

  // ----- a record that meets the schema can be written -----

  lemma AsciiNoPair(t: Text)
    requires IsAscii(t)
    ensures NoPair(t)
  {
  }

  lemma CalmWritable(v: Data)
    requires v.Str? && Calm(v.s)
    ensures Writable(NAMES, v)
  {
    AsciiNoPair(v.s);
  }

  lemma HexWritable(v: Data, n: nat)
    requires HexField(v, n)
    ensures Writable(NAMES, v)
  {
    HexIsCalm(v.s, n);
    CalmWritable(v);
  }

  lemma PlainWritable(v: Data)
    requires v.Int? || v.Bool?
    ensures Writable(NAMES, v)
  {
  }

  lemma ObjectWritable(m: Document)
    requires forall k :: k in m ==> !k.Other? && Writable(NAMES, m[k])
    ensures Writable(NAMES, Obj(m))
  {
    hide Spelling.Proper;
    forall k | k in m ensures NAMES.Proper(k) {
      NameIsProper(k);
    }
  }

  lemma ArtifactsWritable(v: Data)
    requires ArtifactsAccepted(v)
    ensures Writable(NAMES, v)
  {
    hide IsHexText;
    hide Calm;
    hide Writable;
    HexWritable(v.members[ClientSha256], 64);
    HexWritable(v.members[GuardianSha256], 64);
    ToolchainIsCalm(v.members[ToolchainField].s);
    CalmWritable(v.members[ToolchainField]);
    ObjectWritable(v.members);
  }

  lemma AttestationsWritable(v: Data)
    requires AttestationsAccepted(v)
    ensures Writable(NAMES, v)
  {
    hide IsHexText;
    hide Writable;
    HexWritable(v.members[SenderSha256], 64);
    HexWritable(v.members[GuardianSha256], 64);
    ObjectWritable(v.members);
  }

  lemma DeliveryWritable(v: Data)
    requires DeliveryAccepted(v)
    ensures Writable(NAMES, v)
  {
    hide IsHexText;
    hide Calm;
    hide Writable;
    var m := v.members;
    HexWritable(m[PayloadSha256], 64);
    RejectedIsCalm();
    AckScopeIsCalm();
    AckAuthorityIsCalm();
    CalmWritable(m[SenderStatus]);
    CalmWritable(m[AckScope]);
    CalmWritable(m[AckAuthority]);
    PlainWritable(m[Attempts]);
    PlainWritable(m[Retries]);
    PlainWritable(m[Persisted]);
    ObjectWritable(m);
  }

  lemma SafetyWritable(v: Data)
    requires SafetyAccepted(v)
    ensures Writable(NAMES, v)
  {
    ObjectWritable(v.members);
  }

  lemma FieldWritable(k: Field, v: Data)
    requires TopLevelKey(k) && FieldAccepted(k, v)
    ensures Writable(NAMES, v)
  {
    hide Calm;
    hide Writable;
    hide IsHexText;
    hide U;
    match k
    case SchemaVersion => PlainWritable(v);
    case Issue => PlainWritable(v);
    case EvidenceKind => KindIsCalm(); CalmWritable(v);
    case ObservedAtUtc => TimestampIsCalm(v.s); CalmWritable(v);
    case SourceCommit => HexWritable(v, 40);
    case Network => NetworkIsCalm(); CalmWritable(v);
    case Runtime => RuntimeIsCalm(); CalmWritable(v);
    case Transport => TransportIsCalm(); CalmWritable(v);
    case Protocol => ProtocolIsCalm(); CalmWritable(v);
    case RouteScope => ScopeIsCalm(); CalmWritable(v);
    case SeparationClaim => ClaimIsCalm(); CalmWritable(v);
    case ChallengeSha256 => HexWritable(v, 64);
    case Artifacts => ArtifactsWritable(v);
    case ExecutionAttestations => AttestationsWritable(v);
    case Delivery => DeliveryWritable(v);
    case Safety => SafetyWritable(v);
  }

  lemma RecordWritable(d: Document)
    requires SchemaAccepted(d)
    ensures Writable(NAMES, Obj(d))
  {
    hide FieldAccepted;
    hide Writable;
    forall k | k in d ensures Writable(NAMES, d[k]) {
      FieldWritable(k, d[k]);
    }
    ObjectWritable(d);
  }

  // ----- the verifier on text -----

  /** json.loads with the hook that refuses a repeated key in any object. */
  ghost function LoadStrict(text: Text): Option<Data> {
    var n := JsonText.Loads(text);
    NamesValid();
    if n.Some? && JsonText.UniqueKeys(n.value) then Some(Interned(NAMES, FromNode(n.value))) else None
  }

  /** load_and_verify. */
  ghost predicate TextAccepted(fold: Text -> Text, text: Text) {
    var v := LoadStrict(text);
    v.Some? && v.value.Obj? && EvidenceAccepted(fold, v.value.members)
  }

  /** The text is JSON, in whatever layout, for a record the operator tool can build. */
  ghost predicate IsRecordText(text: Text, sender: Document, guardian: Document, toolchain: Text, d: Document) {
    Produces(sender, guardian, toolchain, d) && LoadStrict(text) == Some(Obj(d))
  }

  /** The verifier accepts exactly the texts of records that the operator tool can build. */
  lemma AcceptedTextsExactly(fold: Text -> Text, text: Text)
    requires IsCasefold(fold)
    ensures TextAccepted(fold, text) <==>
      exists sender, guardian, toolchain, d :: IsRecordText(text, sender, guardian, toolchain, d)
  {
    hide LoadStrict;
    hide Produces;
    hide EvidenceAccepted;
    if TextAccepted(fold, text) {
      var d := LoadStrict(text).value.members;
      VerifierMatchesProducer(fold, d);
      var sender, guardian, toolchain :| Produces(sender, guardian, toolchain, d);
      assert IsRecordText(text, sender, guardian, toolchain, d);
    }
    if sender, guardian, toolchain, d :| IsRecordText(text, sender, guardian, toolchain, d) {
      VerifierMatchesProducer(fold, d);
    }
  }

  /** What write_record prints loads back as the record, without a repeated key. */
  lemma WrittenRecordLoads(d: Document)
    requires SchemaAccepted(d)
    ensures Writable(NAMES, Obj(d)) && LoadStrict(FileText(NAMES, Obj(d))) == Some(Obj(d))
  {
    hide SchemaAccepted;
    hide Writable;
    RecordWritable(d);
    NamesValid();
    var v := Interning.Spelled(NAMES, Obj(d));
    SpelledIsClean(NAMES, Obj(d));
    WrittenFileLoads(v);
    SortedIsUnique(v);
    InternedSpelled(NAMES, Obj(d));
  }

  /** Whatever record the tool builds, the verifier accepts the file it publishes. */
  lemma PublishedRecordVerifies(
      fold: Text -> Text, sender: Document, guardian: Document, toolchain: Text, d: Document, disk: Publishing.Disk,
      before: Publishing.Disk, path: Publishing.Name)
    requires IsCasefold(fold) && Produces(sender, guardian, toolchain, d)
    ensures Writable(NAMES, Obj(d)) && IsAscii(FileText(NAMES, Obj(d)))
    ensures Publishing.PublishedAlone(disk, before, path, AsciiBytes(FileText(NAMES, Obj(d)))) ==>
      TextAccepted(fold, disk.files[disk.names[path]].content)
  {
    hide Produces;
    hide EvidenceAccepted;
    hide Writable;
    hide LoadStrict;
    VerifierMatchesProducer(fold, d);
    AcceptedSchema(fold, d);
    WrittenRecordLoads(d);
    FileIsAscii(NAMES, Obj(d));
  }

  lemma AcceptedSchema(fold: Text -> Text, d: Document)
    requires EvidenceAccepted(fold, d)
    ensures SchemaAccepted(d)
  {
  }
}
