/**
  The public record of the controlled two-host run: what the operator tool builds from two
  attestation files, and the verifier written apart from it. Object keys are interned: the
  names the two programs use are constructors, and any further name is Other.
 */
module MultihostEvidence {
  import opened Texts
  import opened CanonicalJson
  import opened RedactionPolicy

  datatype Field =
    // attestation files
    | Role | SourceCommit | ChallengeSha256 | ArtifactSha256 | PayloadSha256 | Protocol | ObservedAtUtc
    | ObservedStatus | Attempts | Retries | Persisted | ExecutionAttestationSha256
    // the record
    | SchemaVersion | EvidenceKind | Issue | Network | Runtime | Transport | RouteScope | SeparationClaim
    | Artifacts | ExecutionAttestations | Delivery | Safety
    | ClientSha256 | GuardianSha256 | ToolchainField | SenderSha256
    | SenderStatus | GuardianReceiptStatus | AckScope | AckAuthority
    | ContainsNetworkIdentifiers | ContainsRawPayload | ContainsSecrets | ChainWrites | WalletOrSigning
    | IndependentHostProof | PublicNetworking | ProofValidity | ApprovalMembershipOrPrivacyAuthority
    | Deployment | Mainnet | Production
    | Other(name: Text)

  type Data = Json<Field>
  type Document = map<Field, Data>

  // ----- the operator tool -----

  predicate AttestationFileKey(k: Field) {
    k.Role? || k.SourceCommit? || k.ChallengeSha256? || k.ArtifactSha256? || k.PayloadSha256? ||
    k.Protocol? || k.ObservedAtUtc? || k.ObservedStatus? || k.Attempts? || k.Retries? ||
    k.Persisted? || k.ExecutionAttestationSha256?
  }

  ghost predicate AttestationKeyed(d: Document) {
    forall k :: k in d <==> AttestationFileKey(k)
  }

  predicate HexField(v: Data, n: nat) {
    v.Str? && IsHexText(v.s, n)
  }

  /** The check read_attestation makes of one member of the object. */
  predicate AttestationFieldAccepted(role: Text, k: Field, v: Data)
    requires AttestationFileKey(k)
  {
    match k
    case Role => v == Str(role)
    case SourceCommit => HexField(v, 40)
    case ChallengeSha256 => HexField(v, 64)
    case ArtifactSha256 => HexField(v, 64)
    case PayloadSha256 => HexField(v, 64)
    case ExecutionAttestationSha256 => HexField(v, 64)
    case Protocol => v == Str(PROTOCOL)
    case ObservedAtUtc => v.Str? && Observation(v.s)
    case ObservedStatus => v == Str(REJECTED)
    case Attempts => v == Int(1)
    case Retries => v == Int(0)
    case Persisted => v == Bool(false)
  }

  /** read_attestation, once the file's bytes have decoded to an object. */
  ghost predicate AttestationAccepted(d: Document, role: Text) {
    AttestationKeyed(d) && forall k :: AttestationFileKey(k) ==> AttestationFieldAccepted(role, k, d[k])
  }

  predicate SharedKey(k: Field) {
    k.SourceCommit? || k.ChallengeSha256? || k.PayloadSha256? || k.Protocol? || k.ObservedAtUtc? ||
    k.ObservedStatus? || k.Attempts? || k.Retries? || k.Persisted?
  }

  ghost predicate SharedAgree(sender: Document, guardian: Document)
    requires AttestationKeyed(sender) && AttestationKeyed(guardian)
  {
    forall f :: SharedKey(f) ==> sender[f] == guardian[f]
  }

  datatype Failure = BadToolchain | BadTimestamp | BadAttestation | Mismatch
  datatype Built = Record(document: Document) | Failed(why: Failure)

  function ArtifactsPart(sender: Document, guardian: Document, toolchain: Text): Document
    requires ArtifactSha256 in sender && ArtifactSha256 in guardian
  {
    map[ClientSha256 := sender[ArtifactSha256], GuardianSha256 := guardian[ArtifactSha256], ToolchainField := Str(toolchain)]
  }

  function AttestationsPart(sender: Document, guardian: Document): Document
    requires ExecutionAttestationSha256 in sender && ExecutionAttestationSha256 in guardian
  {
    map[SenderSha256 := sender[ExecutionAttestationSha256], GuardianSha256 := guardian[ExecutionAttestationSha256]]
  }

  ghost function DeliveryPart(sender: Document, guardian: Document): Document
    requires AttestationKeyed(sender) && ObservedStatus in guardian
  {
    map[PayloadSha256 := sender[PayloadSha256],
        SenderStatus := sender[ObservedStatus],
        GuardianReceiptStatus := guardian[ObservedStatus],
        AckScope := Str(ACK_SCOPE),
        AckAuthority := Str(ACK_AUTHORITY),
        Attempts := sender[Attempts],
        Retries := sender[Retries],
        Persisted := sender[Persisted]]
  }

  const SAFETY_PART: Document := map[
    ContainsNetworkIdentifiers := Bool(false),
    ContainsRawPayload := Bool(false),
    ContainsSecrets := Bool(false),
    ChainWrites := Bool(false),
    WalletOrSigning := Bool(false),
    IndependentHostProof := Bool(false),
    PublicNetworking := Bool(false),
    ProofValidity := Bool(false),
    ApprovalMembershipOrPrivacyAuthority := Bool(false),
    Deployment := Bool(false),
    Mainnet := Bool(false),
    Production := Bool(false)]

  const RECORD_KEYS: set<Field> := {
    SchemaVersion, EvidenceKind, Issue, ObservedAtUtc, SourceCommit, Network, Runtime, Transport, Protocol,
    RouteScope, SeparationClaim, ChallengeSha256, Artifacts, ExecutionAttestations, Delivery, Safety
  }

  /** The record's value under one of its keys. */
  ghost function RecordField(sender: Document, guardian: Document, toolchain: Text, k: Field): Data
    requires AttestationKeyed(sender) && AttestationKeyed(guardian) && TopLevelKey(k)
  {
    match k
    case SchemaVersion => Int(1)
    case EvidenceKind => Str(EVIDENCE_KIND)
    case Issue => Int(238)
    case ObservedAtUtc => sender[ObservedAtUtc]
    case SourceCommit => sender[SourceCommit]
    case Network => Str(NETWORK)
    case Runtime => Str(RUNTIME)
    case Transport => Str(TRANSPORT)
    case Protocol => Str(PROTOCOL)
    case RouteScope => Str(ROUTE_SCOPE)
    case SeparationClaim => Str(SEPARATION_CLAIM)
    case ChallengeSha256 => sender[ChallengeSha256]
    case Artifacts => Obj(ArtifactsPart(sender, guardian, toolchain))
    case ExecutionAttestations => Obj(AttestationsPart(sender, guardian))
    case Delivery => Obj(DeliveryPart(sender, guardian))
    case Safety => Obj(SAFETY_PART)
  }

  ghost function RecordDocument(sender: Document, guardian: Document, toolchain: Text): (d: Document)
    requires AttestationKeyed(sender) && AttestationKeyed(guardian)
    ensures TopLevelKeyed(d) && forall k :: TopLevelKey(k) ==> d[k] == RecordField(sender, guardian, toolchain, k)
  {
    hide RecordField;
    map k | k in RECORD_KEYS :: RecordField(sender, guardian, toolchain, k)
  }

  /** build_record_document, for any two objects with the attestation fields. */
  ghost function BuildRecord(sender: Document, guardian: Document, toolchain: Text): (r: Built)
    requires AttestationKeyed(sender) && AttestationKeyed(guardian)
    requires sender[ObservedAtUtc].Str?
  {
    if !Toolchain(toolchain) then Failed(BadToolchain)
    else if !Observation(sender[ObservedAtUtc].s) then Failed(BadTimestamp)
    else if sender[ObservedStatus] != Str(REJECTED) || sender[Attempts] != Int(1) || sender[Retries] != Int(0)
         || sender[Persisted] != Bool(false) then Failed(BadAttestation)
    else if !SharedAgree(sender, guardian) then Failed(Mismatch)
    else if sender[ArtifactSha256] == guardian[ArtifactSha256] then Failed(Mismatch)
    else if sender[ExecutionAttestationSha256] == guardian[ExecutionAttestationSha256] then Failed(Mismatch)
    else Record(RecordDocument(sender, guardian, toolchain))
  }

  // ----- the independent verifier -----

  predicate TopLevelKey(k: Field) {
    k.SchemaVersion? || k.EvidenceKind? || k.Issue? || k.ObservedAtUtc? || k.SourceCommit? ||
    k.Network? || k.Runtime? || k.Transport? || k.Protocol? || k.RouteScope? ||
    k.SeparationClaim? || k.ChallengeSha256? || k.Artifacts? || k.ExecutionAttestations? || k.Delivery? ||
    k.Safety?
  }

  ghost predicate TopLevelKeyed(d: Document) {
    forall k :: k in d <==> TopLevelKey(k)
  }

  predicate ArtifactKey(k: Field) {
    k.ClientSha256? || k.GuardianSha256? || k.ToolchainField?
  }

  predicate DigestKey(k: Field) {
    k.SenderSha256? || k.GuardianSha256?
  }

  predicate DeliveryKey(k: Field) {
    k.PayloadSha256? || k.SenderStatus? || k.GuardianReceiptStatus? || k.AckScope? || k.AckAuthority? ||
    k.Attempts? || k.Retries? || k.Persisted?
  }

  predicate SafetyKey(k: Field) {
    k.ContainsNetworkIdentifiers? || k.ContainsRawPayload? || k.ContainsSecrets? || k.ChainWrites? || k.WalletOrSigning? ||
    k.IndependentHostProof? || k.PublicNetworking? || k.ProofValidity? || k.ApprovalMembershipOrPrivacyAuthority? || k.Deployment? ||
    k.Mainnet? || k.Production?
  }

  /** _reject_sensitive_content: every string at any depth passes the filter, and there is no array. */
  ghost predicate Redacted(fold: Text -> Text, v: Data)
    decreases v
  {
    match v
    case Obj(m) => forall k :: k in m ==> Redacted(fold, m[k])
    case Arr(_) => false
    case Str(s) => Passes(fold, s)
    case _ => true
  }

  ghost predicate ArtifactsAccepted(v: Data) {
    && v.Obj? && (forall k :: k in v.members <==> ArtifactKey(k))
    && HexField(v.members[ClientSha256], 64) && HexField(v.members[GuardianSha256], 64)
    && v.members[ClientSha256] != v.members[GuardianSha256]
    && v.members[ToolchainField].Str? && Toolchain(v.members[ToolchainField].s)
  }

  ghost predicate AttestationsAccepted(v: Data) {
    && v.Obj? && (forall k :: k in v.members <==> DigestKey(k))
    && HexField(v.members[SenderSha256], 64) && HexField(v.members[GuardianSha256], 64)
    && v.members[SenderSha256] != v.members[GuardianSha256]
  }

  ghost predicate DeliveryAccepted(v: Data) {
    && v.Obj? && (forall k :: k in v.members <==> DeliveryKey(k))
    && HexField(v.members[PayloadSha256], 64)
    && v.members[SenderStatus] == Str(REJECTED) && v.members[GuardianReceiptStatus] == Str(REJECTED)
    && v.members[AckScope] == Str(ACK_SCOPE) && v.members[AckAuthority] == Str(ACK_AUTHORITY)
    && v.members[Attempts] == Int(1) && v.members[Retries] == Int(0) && v.members[Persisted] == Bool(false)
  }

  ghost predicate SafetyAccepted(v: Data) {
    && v.Obj? && (forall k :: k in v.members <==> SafetyKey(k))
    && forall k :: k in v.members ==> v.members[k] == Bool(false)
  }

  /** The verifier's check of the value under one top-level key. */
  ghost predicate FieldAccepted(k: Field, v: Data)
    requires TopLevelKey(k)
  {
    match k
    case SchemaVersion => v == Int(1)
    case Issue => v == Int(238)
    case EvidenceKind => v == Str(EVIDENCE_KIND)
    case ObservedAtUtc => v.Str? && Observation(v.s)
    case SourceCommit => HexField(v, 40)
    case Network => v == Str(NETWORK)
    case Runtime => v == Str(RUNTIME)
    case Transport => v == Str(TRANSPORT)
    case Protocol => v == Str(PROTOCOL)
    case RouteScope => v == Str(ROUTE_SCOPE)
    case SeparationClaim => v == Str(SEPARATION_CLAIM)
    case ChallengeSha256 => HexField(v, 64)
    case Artifacts => ArtifactsAccepted(v)
    case ExecutionAttestations => AttestationsAccepted(v)
    case Delivery => DeliveryAccepted(v)
    case Safety => SafetyAccepted(v)
  }

  /** The schema part of verify_evidence: the exact key set, and every value as it must be. */
  ghost predicate SchemaAccepted(d: Document) {
    TopLevelKeyed(d) && forall k :: TopLevelKey(k) ==> FieldAccepted(k, d[k])
  }

  /** verify_evidence. */
  ghost predicate EvidenceAccepted(fold: Text -> Text, d: Document) {
    SchemaAccepted(d) && Redacted(fold, Obj(d))
  }

  // ----- producer against verifier -----

  const SENDER: Text := U("sender")
  const GUARDIAN: Text := U("guardian")

  /** The document is what the operator tool prints from these inputs, as its main path reads them. */
  ghost predicate Produces(sender: Document, guardian: Document, toolchain: Text, d: Document) {
    && AttestationAccepted(sender, SENDER) && AttestationAccepted(guardian, GUARDIAN)
    && BuildRecord(sender, guardian, toolchain) == Record(d)
  }

  lemma StringPasses(fold: Text -> Text, v: Data)
    requires IsCasefold(fold) && v.Str? && Calm(v.s)
    ensures Redacted(fold, v)
  {
    CalmPasses(fold, v.s);
  }

  lemma HexPasses(fold: Text -> Text, v: Data, n: nat)
    requires IsCasefold(fold) && HexField(v, n)
    ensures Redacted(fold, v)
  {
    HexIsCalm(v.s, n);
    StringPasses(fold, v);
  }

  lemma ArtifactsPass(fold: Text -> Text, v: Data)
    requires IsCasefold(fold) && ArtifactsAccepted(v)
    ensures Redacted(fold, v)
  {
    hide IsHexText;
    hide Calm;
    hide Passes;
    HexPasses(fold, v.members[ClientSha256], 64);
    HexPasses(fold, v.members[GuardianSha256], 64);
    ToolchainIsCalm(v.members[ToolchainField].s);
    StringPasses(fold, v.members[ToolchainField]);
  }

  lemma AttestationsPass(fold: Text -> Text, v: Data)
    requires IsCasefold(fold) && AttestationsAccepted(v)
    ensures Redacted(fold, v)
  {
    hide IsHexText;
    hide Passes;
    HexPasses(fold, v.members[SenderSha256], 64);
    HexPasses(fold, v.members[GuardianSha256], 64);
  }

  lemma DeliveryPasses(fold: Text -> Text, v: Data)
    requires IsCasefold(fold) && DeliveryAccepted(v)
    ensures Redacted(fold, v)
  {
    hide IsHexText;
    hide Calm;
    hide Passes;
    HexPasses(fold, v.members[PayloadSha256], 64);
    RejectedIsCalm();
    AckScopeIsCalm();
    AckAuthorityIsCalm();
    StringPasses(fold, v.members[SenderStatus]);
    StringPasses(fold, v.members[AckScope]);
    StringPasses(fold, v.members[AckAuthority]);
  }

  lemma PlainPasses(fold: Text -> Text)
    ensures Redacted(fold, Int(1)) && Redacted(fold, Int(238))
  {
  }

  lemma SafetyPasses(fold: Text -> Text, v: Data)
    requires SafetyAccepted(v)
    ensures Redacted(fold, v)
  {
  }

  lemma FieldPasses(fold: Text -> Text, k: Field, v: Data)
    requires IsCasefold(fold) && TopLevelKey(k) && FieldAccepted(k, v)
    ensures Redacted(fold, v)
  {
    hide Calm;
    hide Redacted;
    hide IsHexText;
    hide U;
    match k
    case SchemaVersion => PlainPasses(fold);
    case Issue => PlainPasses(fold);
    case EvidenceKind => KindIsCalm(); StringPasses(fold, v);
    case ObservedAtUtc => TimestampIsCalm(v.s); StringPasses(fold, v);
    case SourceCommit => HexPasses(fold, v, 40);
    case Network => NetworkIsCalm(); StringPasses(fold, v);
    case Runtime => RuntimeIsCalm(); StringPasses(fold, v);
    case Transport => TransportIsCalm(); StringPasses(fold, v);
    case Protocol => ProtocolIsCalm(); StringPasses(fold, v);
    case RouteScope => ScopeIsCalm(); StringPasses(fold, v);
    case SeparationClaim => ClaimIsCalm(); StringPasses(fold, v);
    case ChallengeSha256 => HexPasses(fold, v, 64);
    case Artifacts => ArtifactsPass(fold, v);
    case ExecutionAttestations => AttestationsPass(fold, v);
    case Delivery => DeliveryPasses(fold, v);
    case Safety => SafetyPasses(fold, v);
  }

  /** The redaction filter objects to no record that meets the rest of the schema. */
  lemma SchemaImpliesRedaction(fold: Text -> Text, d: Document)
    requires IsCasefold(fold) && SchemaAccepted(d)
    ensures Redacted(fold, Obj(d))
  {
    hide FieldAccepted;
    forall k | k in d ensures Redacted(fold, d[k]) {
      FieldPasses(fold, k, d[k]);
    }
  }

  // ----- from attestations to an accepted record -----

  /** What a produced record holds, and what its attestations share. */
  lemma ProducedFields(s: Document, g: Document, t: Text, d: Document)
    requires Produces(s, g, t, d)
    ensures AttestationAccepted(s, SENDER) && AttestationAccepted(g, GUARDIAN)
    ensures TopLevelKeyed(d) && forall k :: TopLevelKey(k) ==> d[k] == RecordField(s, g, t, k)
    ensures forall f :: SharedKey(f) ==> s[f] == g[f]
    ensures Toolchain(t) && s[ArtifactSha256] != g[ArtifactSha256]
    ensures s[ExecutionAttestationSha256] != g[ExecutionAttestationSha256]
  {
    hide AttestationAccepted;
    hide RecordField;
    hide Toolchain;
    hide Observation;
    hide U;
  }

  lemma PartsProduced(s: Document, g: Document, t: Text)
    requires AttestationAccepted(s, SENDER) && AttestationAccepted(g, GUARDIAN) && Toolchain(t)
    requires s[ArtifactSha256] != g[ArtifactSha256]
    requires s[ExecutionAttestationSha256] != g[ExecutionAttestationSha256]
    ensures ArtifactsAccepted(Obj(ArtifactsPart(s, g, t))) && AttestationsAccepted(Obj(AttestationsPart(s, g)))
  {
    hide Toolchain;
    hide IsHexText;
    hide Observation;
    hide U;
    assert AttestationFieldAccepted(SENDER, ArtifactSha256, s[ArtifactSha256]);
    assert AttestationFieldAccepted(GUARDIAN, ArtifactSha256, g[ArtifactSha256]);
    assert AttestationFieldAccepted(SENDER, ExecutionAttestationSha256, s[ExecutionAttestationSha256]);
    assert AttestationFieldAccepted(GUARDIAN, ExecutionAttestationSha256, g[ExecutionAttestationSha256]);
  }

  /** What an accepted attestation says of the delivery. */
  lemma OutcomeFields(a: Document, role: Text)
    requires AttestationAccepted(a, role)
    ensures AttestationKeyed(a) && HexField(a[PayloadSha256], 64) && a[ObservedStatus] == Str(REJECTED)
    ensures a[Attempts] == Int(1) && a[Retries] == Int(0) && a[Persisted] == Bool(false)
  {
    hide HexField;
    hide Observation;
    hide U;
    assert AttestationFieldAccepted(role, PayloadSha256, a[PayloadSha256]);
    assert AttestationFieldAccepted(role, ObservedStatus, a[ObservedStatus]);
    assert AttestationFieldAccepted(role, Attempts, a[Attempts]);
    assert AttestationFieldAccepted(role, Retries, a[Retries]);
    assert AttestationFieldAccepted(role, Persisted, a[Persisted]);
  }

  lemma DeliveryProduced(s: Document, g: Document)
    requires AttestationAccepted(s, SENDER) && AttestationAccepted(g, GUARDIAN)
    ensures DeliveryAccepted(Obj(DeliveryPart(s, g)))
  {
    hide AttestationAccepted;
    hide HexField;
    hide U;
    OutcomeFields(s, SENDER);
    OutcomeFields(g, GUARDIAN);
  }

  lemma SafetyProduced()
    ensures SafetyAccepted(Obj(SAFETY_PART))
  {
  }

  lemma CopyProduced(s: Document, g: Document, t: Text, k: Field)
    requires AttestationAccepted(s, SENDER) && AttestationKeyed(g) && CopiedKey(k)
    ensures FieldAccepted(k, RecordField(s, g, t, k))
  {
    hide HexField;
    hide Observation;
    hide U;
    assert AttestationFieldAccepted(SENDER, k, s[k]);
  }

  lemma PartProduced(s: Document, g: Document, t: Text, k: Field)
    requires AttestationAccepted(s, SENDER) && AttestationAccepted(g, GUARDIAN) && Toolchain(t)
    requires s[ArtifactSha256] != g[ArtifactSha256]
    requires s[ExecutionAttestationSha256] != g[ExecutionAttestationSha256]
    requires PartKey(k)
    ensures FieldAccepted(k, RecordField(s, g, t, k))
  {
    hide Toolchain;
    hide U;
    hide AttestationFieldAccepted;
    hide ArtifactsPart;
    hide AttestationsPart;
    hide DeliveryPart;
    hide ArtifactsAccepted;
    hide AttestationsAccepted;
    hide DeliveryAccepted;
    hide SafetyAccepted;
    PartsProduced(s, g, t);
    DeliveryProduced(s, g);
    SafetyProduced();
  }

  lemma ConstantProduced(s: Document, g: Document, t: Text, k: Field)
    requires AttestationKeyed(s) && AttestationKeyed(g) && TopLevelKey(k) && !PartKey(k) && !CopiedKey(k)
    ensures FieldAccepted(k, RecordField(s, g, t, k))
  {
    hide U;
  }

  lemma FieldProduced(s: Document, g: Document, t: Text, k: Field)
    requires AttestationAccepted(s, SENDER) && AttestationAccepted(g, GUARDIAN) && Toolchain(t)
    requires s[ArtifactSha256] != g[ArtifactSha256]
    requires s[ExecutionAttestationSha256] != g[ExecutionAttestationSha256]
    requires TopLevelKey(k)
    ensures FieldAccepted(k, RecordField(s, g, t, k))
  {
    hide Toolchain;
    hide AttestationFieldAccepted;
    hide FieldAccepted;
    hide RecordField;
    hide TopLevelKey;
    if CopiedKey(k) {
      CopyProduced(s, g, t, k);
    } else if PartKey(k) {
      PartProduced(s, g, t, k);
    } else {
      ConstantProduced(s, g, t, k);
    }
  }

  /** Whatever the operator tool builds from accepted attestations, the verifier accepts. */
  lemma BuiltIsAccepted(fold: Text -> Text, sender: Document, guardian: Document, toolchain: Text, d: Document)
    requires IsCasefold(fold) && Produces(sender, guardian, toolchain, d)
    ensures EvidenceAccepted(fold, d)
  {
    hide Produces;
    hide FieldAccepted;
    hide RecordField;
    hide AttestationAccepted;
    hide Redacted;
    ProducedFields(sender, guardian, toolchain, d);
    forall k | TopLevelKey(k) ensures FieldAccepted(k, d[k]) {
      FieldProduced(sender, guardian, toolchain, k);
    }
    SchemaImpliesRedaction(fold, d);
  }

  // ----- from an accepted record to attestations -----

  /** An attestation file that would lead to the record. */
  ghost function AttestationBehind(d: Document, role: Text, artifact: Data, attestation: Data, payload: Data): (a: Document)
    requires TopLevelKeyed(d)
    ensures AttestationKeyed(a)
  {
    map[Role := Str(role), SourceCommit := d[SourceCommit], ChallengeSha256 := d[ChallengeSha256],
        ArtifactSha256 := artifact, PayloadSha256 := payload, Protocol := Str(PROTOCOL),
        ObservedAtUtc := d[ObservedAtUtc], ObservedStatus := Str(REJECTED),
        Attempts := Int(1), Retries := Int(0), Persisted := Bool(false),
        ExecutionAttestationSha256 := attestation]
  }

  lemma BehindAccepted(d: Document, role: Text, artifact: Data, attestation: Data, payload: Data)
    requires TopLevelKeyed(d)
    requires HexField(d[SourceCommit], 40) && HexField(d[ChallengeSha256], 64)
    requires d[ObservedAtUtc].Str? && Observation(d[ObservedAtUtc].s)
    requires HexField(artifact, 64) && HexField(attestation, 64) && HexField(payload, 64)
    ensures AttestationAccepted(AttestationBehind(d, role, artifact, attestation, payload), role)
  {
    hide HexField;
    hide Observation;
    hide U;
  }

  lemma AcceptedParts(d: Document)
    requires SchemaAccepted(d)
    ensures TopLevelKeyed(d)
    ensures HexField(d[SourceCommit], 40) && HexField(d[ChallengeSha256], 64)
    ensures d[ObservedAtUtc].Str? && Observation(d[ObservedAtUtc].s)
    ensures ArtifactsAccepted(d[Artifacts]) && AttestationsAccepted(d[ExecutionAttestations])
    ensures DeliveryAccepted(d[Delivery]) && SafetyAccepted(d[Safety])
  {
    hide ArtifactsAccepted;
    hide AttestationsAccepted;
    hide DeliveryAccepted;
    hide SafetyAccepted;
    hide IsHexText;
    hide Observation;
    hide U;
    assert FieldAccepted(SourceCommit, d[SourceCommit]) && FieldAccepted(ChallengeSha256, d[ChallengeSha256]);
    assert FieldAccepted(ObservedAtUtc, d[ObservedAtUtc]) && FieldAccepted(Artifacts, d[Artifacts]);
    assert FieldAccepted(ExecutionAttestations, d[ExecutionAttestations]);
    assert FieldAccepted(Delivery, d[Delivery]) && FieldAccepted(Safety, d[Safety]);
  }

  ghost function SenderBehind(d: Document): (a: Document)
    requires SchemaAccepted(d)
    ensures AttestationKeyed(a)
  {
    hide FieldAccepted;
    AcceptedParts(d);
    AttestationBehind(d, SENDER, d[Artifacts].members[ClientSha256], d[ExecutionAttestations].members[SenderSha256],
      d[Delivery].members[PayloadSha256])
  }

  ghost function GuardianBehind(d: Document): (a: Document)
    requires SchemaAccepted(d)
    ensures AttestationKeyed(a)
  {
    hide FieldAccepted;
    AcceptedParts(d);
    AttestationBehind(d, GUARDIAN, d[Artifacts].members[GuardianSha256], d[ExecutionAttestations].members[GuardianSha256],
      d[Delivery].members[PayloadSha256])
  }

  ghost function ToolchainBehind(d: Document): (t: Text)
    requires SchemaAccepted(d)
  {
    hide FieldAccepted;
    AcceptedParts(d);
    d[Artifacts].members[ToolchainField].s
  }

  /** The two attestation files behind an accepted record. */
  lemma BehindHolds(d: Document)
    requires SchemaAccepted(d)
    ensures AttestationAccepted(SenderBehind(d), SENDER) && AttestationAccepted(GuardianBehind(d), GUARDIAN)
  {
    hide SchemaAccepted;
    hide HexField;
    hide Observation;
    hide U;
    hide AttestationBehind;
    hide AttestationAccepted;
    AcceptedParts(d);
    var artifacts, attestations, payload :=
      d[Artifacts].members, d[ExecutionAttestations].members, d[Delivery].members[PayloadSha256];
    BehindAccepted(d, SENDER, artifacts[ClientSha256], attestations[SenderSha256], payload);
    BehindAccepted(d, GUARDIAN, artifacts[GuardianSha256], attestations[GuardianSha256], payload);
  }

  lemma BehindShares(d: Document)
    requires SchemaAccepted(d)
    ensures SharedAgree(SenderBehind(d), GuardianBehind(d))
    ensures SenderBehind(d)[ObservedAtUtc] == d[ObservedAtUtc] && SenderBehind(d)[SourceCommit] == d[SourceCommit]
    ensures SenderBehind(d)[ChallengeSha256] == d[ChallengeSha256]
  {
    hide SchemaAccepted;
    hide HexField;
    hide ArtifactsAccepted;
    hide AttestationsAccepted;
    hide DeliveryAccepted;
    hide SafetyAccepted;
    hide Observation;
    hide U;
    AcceptedParts(d);
  }

  lemma ArtifactsRebuilt(d: Document)
    requires SchemaAccepted(d)
    ensures d[Artifacts] == Obj(ArtifactsPart(SenderBehind(d), GuardianBehind(d), ToolchainBehind(d)))
    ensures SenderBehind(d)[ArtifactSha256] != GuardianBehind(d)[ArtifactSha256] && Toolchain(ToolchainBehind(d))
  {
    hide SchemaAccepted;
    hide HexField;
    hide AttestationsAccepted;
    hide DeliveryAccepted;
    hide SafetyAccepted;
    hide Toolchain;
    hide Observation;
    hide U;
    AcceptedParts(d);
    assert ArtifactsPart(SenderBehind(d), GuardianBehind(d), ToolchainBehind(d)) == d[Artifacts].members;
  }

  lemma AttestationsRebuilt(d: Document)
    requires SchemaAccepted(d)
    ensures d[ExecutionAttestations] == Obj(AttestationsPart(SenderBehind(d), GuardianBehind(d)))
    ensures SenderBehind(d)[ExecutionAttestationSha256] != GuardianBehind(d)[ExecutionAttestationSha256]
  {
    hide SchemaAccepted;
    hide HexField;
    hide ArtifactsAccepted;
    hide DeliveryAccepted;
    hide SafetyAccepted;
    hide Observation;
    hide U;
    AcceptedParts(d);
    assert AttestationsPart(SenderBehind(d), GuardianBehind(d)) == d[ExecutionAttestations].members;
  }

  lemma DeliveryRebuilt(d: Document)
    requires SchemaAccepted(d)
    ensures d[Delivery] == Obj(DeliveryPart(SenderBehind(d), GuardianBehind(d)))
  {
    hide SchemaAccepted;
    hide HexField;
    hide ArtifactsAccepted;
    hide AttestationsAccepted;
    hide SafetyAccepted;
    hide Observation;
    hide U;
    AcceptedParts(d);
    assert DeliveryPart(SenderBehind(d), GuardianBehind(d)) == d[Delivery].members;
  }

  lemma SafetyRebuilt(v: Data)
    requires SafetyAccepted(v)
    ensures v == Obj(SAFETY_PART)
  {
    assert v.members == SAFETY_PART;
  }

  predicate PartKey(k: Field) {
    k.Artifacts? || k.ExecutionAttestations? || k.Delivery? || k.Safety?
  }

  predicate CopiedKey(k: Field) {
    k.ObservedAtUtc? || k.SourceCommit? || k.ChallengeSha256?
  }

  lemma PartRebuilt(d: Document, k: Field)
    requires SchemaAccepted(d) && PartKey(k)
    ensures RecordField(SenderBehind(d), GuardianBehind(d), ToolchainBehind(d), k) == d[k]
  {
    hide SchemaAccepted;
    hide SenderBehind;
    hide GuardianBehind;
    hide ToolchainBehind;
    hide ArtifactsPart;
    hide AttestationsPart;
    hide DeliveryPart;
    hide ArtifactsAccepted;
    hide AttestationsAccepted;
    hide DeliveryAccepted;
    hide SafetyAccepted;
    hide Observation;
    hide U;
    ArtifactsRebuilt(d);
    AttestationsRebuilt(d);
    DeliveryRebuilt(d);
    AcceptedParts(d);
    SafetyRebuilt(d[Safety]);
  }

  lemma CopyRebuilt(d: Document, k: Field)
    requires SchemaAccepted(d) && CopiedKey(k)
    ensures RecordField(SenderBehind(d), GuardianBehind(d), ToolchainBehind(d), k) == d[k]
  {
    hide SchemaAccepted;
    hide SenderBehind;
    hide GuardianBehind;
    hide ToolchainBehind;
    hide SharedAgree;
    hide U;
    BehindShares(d);
  }

  lemma ConstantRebuilt(d: Document, s: Document, g: Document, t: Text, k: Field)
    requires SchemaAccepted(d) && TopLevelKey(k) && !PartKey(k) && !CopiedKey(k)
    requires AttestationKeyed(s) && AttestationKeyed(g)
    ensures RecordField(s, g, t, k) == d[k]
  {
    hide HexField;
    hide Observation;
    hide ArtifactsAccepted;
    hide AttestationsAccepted;
    hide DeliveryAccepted;
    hide SafetyAccepted;
    hide ArtifactsPart;
    hide AttestationsPart;
    hide DeliveryPart;
    hide U;
    assert FieldAccepted(k, d[k]);
  }

  /** Every field of an accepted record is the one the operator tool writes. */
  lemma FieldRebuilt(d: Document, k: Field)
    requires SchemaAccepted(d) && TopLevelKey(k)
    ensures RecordField(SenderBehind(d), GuardianBehind(d), ToolchainBehind(d), k) == d[k]
  {
    hide SchemaAccepted;
    hide SenderBehind;
    hide GuardianBehind;
    hide ToolchainBehind;
    hide RecordField;
    hide TopLevelKey;
    hide AttestationKeyed;
    if PartKey(k) {
      PartRebuilt(d, k);
    } else if CopiedKey(k) {
      CopyRebuilt(d, k);
    } else {
      ConstantRebuilt(d, SenderBehind(d), GuardianBehind(d), ToolchainBehind(d), k);
    }
  }

  lemma AgreementBuilds(s: Document, g: Document, t: Text, d: Document)
    requires AttestationAccepted(s, SENDER) && AttestationKeyed(g) && Toolchain(t) && SharedAgree(s, g)
    requires s[ArtifactSha256] != g[ArtifactSha256] && s[ExecutionAttestationSha256] != g[ExecutionAttestationSha256]
    requires TopLevelKeyed(d) && forall k :: TopLevelKey(k) ==> RecordField(s, g, t, k) == d[k]
    ensures BuildRecord(s, g, t) == Record(d)
  {
    hide AttestationAccepted;
    hide RecordField;
    hide SharedAgree;
    hide Toolchain;
    hide Observation;
    hide U;
    OutcomeAccepted(s);
    var e := RecordDocument(s, g, t);
    assert forall k :: k in d ==> d[k] == e[k];
    assert e == d;
    hide RecordDocument;
    hide TopLevelKeyed;
    hide AttestationFileKey;
  }

  /** Whatever the verifier accepts, the operator tool builds from some accepted attestations. */
  lemma AcceptedIsBuilt(d: Document)
    requires SchemaAccepted(d)
    ensures Produces(SenderBehind(d), GuardianBehind(d), ToolchainBehind(d), d)
  {
    hide SharedAgree;
    hide SenderBehind;
    hide GuardianBehind;
    hide ToolchainBehind;
    hide RecordField;
    hide FieldAccepted;
    hide Toolchain;
    hide BuildRecord;
    hide AttestationsPart;
    hide ArtifactsPart;
    hide U;
    hide AttestationFieldAccepted;
    BehindHolds(d);
    BehindShares(d);
    ArtifactsRebuilt(d);
    AttestationsRebuilt(d);
    forall k | TopLevelKey(k) ensures RecordField(SenderBehind(d), GuardianBehind(d), ToolchainBehind(d), k) == d[k] {
      FieldRebuilt(d, k);
    }
    AgreementBuilds(SenderBehind(d), GuardianBehind(d), ToolchainBehind(d), d);
  }

  lemma OutcomeAccepted(s: Document)
    requires AttestationAccepted(s, SENDER)
    ensures AttestationKeyed(s) && s[ObservedAtUtc].Str? && Observation(s[ObservedAtUtc].s)
    ensures s[ObservedStatus] == Str(REJECTED) && s[Attempts] == Int(1) && s[Retries] == Int(0)
    ensures s[Persisted] == Bool(false)
  {
    hide HexField;
    hide Observation;
    hide U;
    assert AttestationFieldAccepted(SENDER, ObservedAtUtc, s[ObservedAtUtc]);
    assert AttestationFieldAccepted(SENDER, ObservedStatus, s[ObservedStatus]);
    assert AttestationFieldAccepted(SENDER, Attempts, s[Attempts]);
    assert AttestationFieldAccepted(SENDER, Retries, s[Retries]);
    assert AttestationFieldAccepted(SENDER, Persisted, s[Persisted]);
  }

  /** verify_evidence accepts exactly what build_record_document produces over valid attestation
      pairs and toolchains. */
  lemma VerifierMatchesProducer(fold: Text -> Text, d: Document)
    requires IsCasefold(fold)
    ensures EvidenceAccepted(fold, d) <==> exists sender, guardian, toolchain :: Produces(sender, guardian, toolchain, d)
  {
    hide Produces;
    hide SchemaAccepted;
    hide Redacted;
    if EvidenceAccepted(fold, d) {
      AcceptedIsBuilt(d);
    }
    if sender, guardian, toolchain :| Produces(sender, guardian, toolchain, d) {
      BuiltIsAccepted(fold, sender, guardian, toolchain, d);
    }
  }

  // ----- a record pins down its attestations -----

  /** The fields an accepted attestation is free to choose. */
  predicate FreeKey(k: Field) {
    k.SourceCommit? || k.ChallengeSha256? || k.ArtifactSha256? || k.PayloadSha256? || k.ObservedAtUtc? || k.ExecutionAttestationSha256?
  }

  lemma AttestationDetermined(role: Text, a: Document, b: Document)
    requires AttestationAccepted(a, role) && AttestationAccepted(b, role)
    requires forall k :: FreeKey(k) ==> a[k] == b[k]
    ensures a == b
  {
    hide HexField;
    hide Observation;
    hide U;
    forall k | AttestationFileKey(k) ensures a[k] == b[k] {
      assert AttestationFieldAccepted(role, k, a[k]) && AttestationFieldAccepted(role, k, b[k]);
    }
  }

  function Member(v: Data, k: Field): Data {
    if v.Obj? && k in v.members then v.members[k] else Null
  }

  /** Where a free field of an attestation can be read off the record. */
  function ReadBack(d: Document, artifact: Field, attestation: Field, k: Field): Data {
    if k == ArtifactSha256 then Member(Member(Obj(d), Artifacts), artifact)
    else if k == ExecutionAttestationSha256 then Member(Member(Obj(d), ExecutionAttestations), attestation)
    else if k == PayloadSha256 then Member(Member(Obj(d), Delivery), PayloadSha256)
    else Member(Obj(d), k)
  }

  lemma ProducedParts(s: Document, g: Document, t: Text, d: Document)
    requires AttestationKeyed(s) && AttestationKeyed(g)
    requires TopLevelKeyed(d) && forall k :: TopLevelKey(k) ==> d[k] == RecordField(s, g, t, k)
    ensures d[Artifacts] == Obj(ArtifactsPart(s, g, t)) && d[ExecutionAttestations] == Obj(AttestationsPart(s, g))
    ensures d[Delivery] == Obj(DeliveryPart(s, g))
  {
    hide ArtifactsPart;
    hide AttestationsPart;
    hide DeliveryPart;
    hide U;
  }

  lemma PartsReadBack(s: Document, g: Document, t: Text, d: Document)
    requires Produces(s, g, t, d)
    ensures AttestationKeyed(s) && AttestationKeyed(g)
    ensures s[ArtifactSha256] == ReadBack(d, ClientSha256, SenderSha256, ArtifactSha256)
    ensures g[ArtifactSha256] == ReadBack(d, GuardianSha256, GuardianSha256, ArtifactSha256)
    ensures s[ExecutionAttestationSha256] == ReadBack(d, ClientSha256, SenderSha256, ExecutionAttestationSha256)
    ensures g[ExecutionAttestationSha256] == ReadBack(d, GuardianSha256, GuardianSha256, ExecutionAttestationSha256)
    ensures s[PayloadSha256] == ReadBack(d, ClientSha256, SenderSha256, PayloadSha256)
    ensures g[PayloadSha256] == ReadBack(d, GuardianSha256, GuardianSha256, PayloadSha256)
  {
    hide Produces;
    hide RecordField;
    hide AttestationFieldAccepted;
    hide Toolchain;
    hide U;
    ProducedFields(s, g, t, d);
    ProducedParts(s, g, t, d);
    assert SharedKey(PayloadSha256);
  }

  lemma FreeFieldReadBack(s: Document, g: Document, t: Text, d: Document, k: Field)
    requires Produces(s, g, t, d) && FreeKey(k)
    ensures AttestationKeyed(s) && AttestationKeyed(g)
    ensures s[k] == ReadBack(d, ClientSha256, SenderSha256, k) && g[k] == ReadBack(d, GuardianSha256, GuardianSha256, k)
  {
    hide Produces;
    hide AttestationFieldAccepted;
    hide AttestationKeyed;
    hide ReadBack;
    hide U;
    PartsReadBack(s, g, t, d);
    if k == SourceCommit || k == ChallengeSha256 || k == ObservedAtUtc {
      SharedReadBack(s, g, t, d, k);
    }
  }

  lemma SharedReadBack(s: Document, g: Document, t: Text, d: Document, k: Field)
    requires Produces(s, g, t, d) && (k == SourceCommit || k == ChallengeSha256 || k == ObservedAtUtc)
    ensures AttestationKeyed(s) && AttestationKeyed(g)
    ensures s[k] == ReadBack(d, ClientSha256, SenderSha256, k) && g[k] == ReadBack(d, GuardianSha256, GuardianSha256, k)
  {
    hide Produces;
    hide AttestationFieldAccepted;
    hide Toolchain;
    hide U;
    ProducedFields(s, g, t, d);
    assert TopLevelKey(k) && SharedKey(k) && d[k] == RecordField(s, g, t, k) == s[k];
  }

  lemma ToolchainReadBack(s: Document, g: Document, t: Text, d: Document)
    requires Produces(s, g, t, d)
    ensures Str(t) == Member(Member(Obj(d), Artifacts), ToolchainField)
  {
    hide Produces;
    hide AttestationFieldAccepted;
    hide Toolchain;
    hide U;
    ProducedFields(s, g, t, d);
    assert d[Artifacts] == RecordField(s, g, t, Artifacts);
  }

  /** Two accepted attestation pairs and toolchains with one record are the same. */
  lemma RecordDeterminesAttestations(
      s: Document, g: Document, t: Text, s': Document, g': Document, t': Text, d: Document)
    requires Produces(s, g, t, d) && Produces(s', g', t', d)
    ensures s == s' && g == g' && t == t'
  {
    hide ReadBack;
    hide Member;
    hide AttestationFieldAccepted;
    hide BuildRecord;
    hide U;
    forall k | FreeKey(k) ensures s[k] == s'[k] && g[k] == g'[k] {
      FreeFieldReadBack(s, g, t, d, k);
      FreeFieldReadBack(s', g', t', d, k);
    }
    ToolchainReadBack(s, g, t, d);
    ToolchainReadBack(s', g', t', d);
    AttestationDetermined(SENDER, s, s');
    AttestationDetermined(GUARDIAN, g, g');
  }
}
