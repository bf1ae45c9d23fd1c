/**
  What an accepted two-host record says, member by member and in its own words: the
  verifier's checks against a specification that shares no name with them.
 */
module RecordContents {
  import opened Texts
  import opened CanonicalJson
  import opened RedactionPolicy
  import opened MultihostEvidence
  import opened Calendar

  // ----- the specification -----

  predicate Hex(v: Data, n: nat) {
    v.Str? && |v.s| == n && forall i :: 0 <= i < n ==> 0x30 <= v.s[i] <= 0x39 || 0x61 <= v.s[i] <= 0x66
  }

  /** rustc 1.95.0 (nine hex digits, a date of this century), perhaps marked Homebrew. */
  function RustcText(hash: Text, year: nat, month: nat, day: nat, homebrew: bool): Text
    requires year < 100 && month < 100 && day < 100
  {
    U("rustc 1.95.0 (") + (hash + (U(" 20") + (Two(year) + (U("-") + (Two(month) + (U("-") + (Two(day) +
      (U(")") + (if homebrew then U(" (Homebrew)") else [])))))))))
  }

  predicate IsRustc(t: Text, hash: Text, year: nat, month: nat, day: nat, homebrew: bool) {
    && Hex(Str(hash), 9) && year < 100 && month < 100 && day < 100
    && t == RustcText(hash, year, month, day, homebrew)
  }

  ghost predicate ArtifactsSay(v: Data) {
    && v.Obj? && v.members.Keys == {ClientSha256, GuardianSha256, ToolchainField}
    && Hex(v.members[ClientSha256], 64) && Hex(v.members[GuardianSha256], 64)
    && v.members[ClientSha256] != v.members[GuardianSha256]
    && v.members[ToolchainField].Str?
    && exists hash, year, month, day, homebrew :: IsRustc(v.members[ToolchainField].s, hash, year, month, day, homebrew)
  }

  predicate AttestationsSay(v: Data) {
    && v.Obj? && v.members.Keys == {SenderSha256, GuardianSha256}
    && Hex(v.members[SenderSha256], 64) && Hex(v.members[GuardianSha256], 64)
    && v.members[SenderSha256] != v.members[GuardianSha256]
  }

  predicate DeliverySays(v: Data) {
    && v.Obj?
    && v.members.Keys == {PayloadSha256, SenderStatus, GuardianReceiptStatus, AckScope, AckAuthority, Attempts, Retries, Persisted}
    && Hex(v.members[PayloadSha256], 64)
    && v.members[SenderStatus] == Str(U("rejected")) && v.members[GuardianReceiptStatus] == Str(U("rejected"))
    && v.members[AckScope] == Str(U("remote-") + (U("local-") + (U("boundary-") + U("only"))))
    && v.members[AckAuthority] == Str(U("none"))
    && v.members[Attempts] == Int(1) && v.members[Retries] == Int(0) && v.members[Persisted] == Bool(false)
  }

  predicate SafetySays(v: Data) {
    && v.Obj?
    && v.members.Keys == {
         ContainsNetworkIdentifiers, ContainsRawPayload, ContainsSecrets, ChainWrites, WalletOrSigning, IndependentHostProof,
         PublicNetworking, ProofValidity, ApprovalMembershipOrPrivacyAuthority, Deployment, Mainnet, Production}
    && forall k :: k in v.members ==> v.members[k] == Bool(false)
  }

  const KEYS: set<Field> := {
    SchemaVersion, EvidenceKind, Issue, ObservedAtUtc, SourceCommit, Network, Runtime, Transport, Protocol, RouteScope,
    SeparationClaim, ChallengeSha256, Artifacts, ExecutionAttestations, Delivery, Safety
  }

  /** The constant members. */
  predicate WordsSay(d: Document)
    requires d.Keys == KEYS
  {
    && d[SchemaVersion] == Int(1) && d[Issue] == Int(238)
    && d[EvidenceKind] ==
         Str(U("operator_") + (U("attested_") + (U("controlled_") + (U("two_host_") + (U("threat_hint_") + U("v2_delivery"))))))
    && d[Network] == Str(U("testnet-10")) && d[Runtime] == Str(U("development-") + U("only"))
    && d[Transport] == Str(U("direct-quic-v1")) && d[Protocol] == Str(U("/prometheus/") + U("threat-hint/") + U("2.0.0"))
    && d[RouteScope] == Str(U("single-") + (U("static-") + (U("controlled-") + (U("remote-") + U("quic-peer")))))
    && d[SeparationClaim] == Str(U("operator-") + (U("attested-") + (U("not-") + (U("independently-") + U("proven")))))
  }

  ghost predicate RecordSays(d: Document) {
    && d.Keys == KEYS && WordsSay(d)
    && Hex(d[SourceCommit], 40) && Hex(d[ChallengeSha256], 64)
    && d[ObservedAtUtc].Str? && IsStamp(d[ObservedAtUtc].s) && !Before(d[ObservedAtUtc].s, U("2026-08-30T00:00:00Z"))
    && ArtifactsSay(d[Artifacts]) && AttestationsSay(d[ExecutionAttestations]) && DeliverySays(d[Delivery]) && SafetySays(d[Safety])
  }

  // ----- the checks meet it -----

  lemma HexSays(v: Data, n: nat)
    ensures HexField(v, n) <==> Hex(v, n)
  {
  }

  lemma RustcSlices(t: Text)
    requires |t| >= 35
    ensures t == t[..14] + (t[14..23] + (t[23..26] + (t[26..28] + (t[28..29] + (t[29..31] + (t[31..32] + (t[32..34] + (t[34..35] + t[35..]))))))))
  {
    hide *;
    assert t == t[..14] + t[14..];
    Cut(t, 14, 23);
    Cut(t, 23, 26);
    Cut(t, 26, 28);
    Cut(t, 28, 29);
    Cut(t, 29, 31);
    Cut(t, 31, 32);
    Cut(t, 32, 34);
    Cut(t, 34, 35);
  }

  function DateText(year: nat, month: nat, day: nat, end: Text): Text
    requires year < 100 && month < 100 && day < 100
  {
    Two(year) + (U("-") + (Two(month) + (U("-") + (Two(day) + (U(")") + end)))))
  }

  lemma DateParts(year: nat, month: nat, day: nat, end: Text)
    requires year < 100 && month < 100 && day < 100
    ensures var t := DateText(year, month, day, end);
      && |t| == 9 + |end| && t[0..2] == Two(year) && t[3..5] == Two(month) && t[6..8] == Two(day) && t[9..] == end
      && t[2] == t[5] == '-' as int && t[8] == ')' as int
  {
    assert U("-") == ['-' as int] && U(")") == [')' as int];
    hide U;
    TwoLengths(year, month, day);
    hide Two;
  }

  lemma RustcParts(hash: Text, year: nat, month: nat, day: nat, homebrew: bool)
    requires |hash| == 9 && year < 100 && month < 100 && day < 100
    ensures var t := RustcText(hash, year, month, day, homebrew);
      && |t| == (if homebrew then 46 else 35)
      && t[..14] == U("rustc 1.95.0 (") && t[14..23] == hash && t[23..26] == U(" 20")
      && t[26..] == DateText(year, month, day, if homebrew then U(" (Homebrew)") else [])
  {
    assert |U("rustc 1.95.0 (")| == 14 && |U(" 20")| == 3 && |U(" (Homebrew)")| == 11;
    DateParts(year, month, day, if homebrew then U(" (Homebrew)") else []);
    assert RustcText(hash, year, month, day, homebrew) ==
      U("rustc 1.95.0 (") + (hash + (U(" 20") + DateText(year, month, day, if homebrew then U(" (Homebrew)") else [])));
    hide U;
    hide DateText;
    hide RustcText;
  }

  lemma TwoLengths(a: nat, b: nat, c: nat)
    requires a < 100 && b < 100 && c < 100
    ensures |Two(a)| == |Two(b)| == |Two(c)| == 2
  {
  }

  lemma ToolchainSays(t: Text)
    ensures Toolchain(t) <==> exists hash, year, month, day, homebrew :: IsRustc(t, hash, year, month, day, homebrew)
  {
    if Toolchain(t) {
      ToolchainIsRustc(t);
    }
    if hash, year, month, day, homebrew :| IsRustc(t, hash, year, month, day, homebrew) {
      RustcIsToolchain(t, hash, year, month, day, homebrew);
    }
  }

  lemma ToolchainIsRustc(t: Text)
    requires Toolchain(t)
    ensures exists hash, year, month, day, homebrew :: IsRustc(t, hash, year, month, day, homebrew)
  {
    var hash, year, month, day := t[14..23], TwoDigits(t, 26), TwoDigits(t, 29), TwoDigits(t, 32);
    TwoShown(t, 26);
    TwoShown(t, 29);
    TwoShown(t, 32);
    assert t[23..26] == U(" 20") && t[28..29] == U("-") && t[31..32] == U("-") && t[34..35] == U(")");
    assert Hex(Str(hash), 9);
    RustcSlices(t);
    hide Two;
    hide U;
    assert IsRustc(t, hash, year, month, day, |t| == 46);
  }

  lemma RustcIsToolchain(t: Text, hash: Text, year: nat, month: nat, day: nat, homebrew: bool)
    requires IsRustc(t, hash, year, month, day, homebrew)
    ensures Toolchain(t)
  {
    RustcParts(hash, year, month, day, homebrew);
    var end := if homebrew then U(" (Homebrew)") else [];
    DateParts(year, month, day, end);
    assert U(" 20")[0] == ' ' as int && U(" 20")[1] == '2' as int && U(" 20")[2] == '0' as int;
    hide RustcText;
    hide DateText;
    hide U;
    var date := t[26..];
    assert forall i :: 14 <= i < 23 ==> t[i] == t[14..23][i - 14];
    assert t[23] == t[23..26][0] && t[24] == t[23..26][1] && t[25] == t[23..26][2];
    assert date[0] == date[0..2][0] && date[1] == date[0..2][1] && date[3] == date[3..5][0] && date[4] == date[3..5][1];
    assert date[6] == date[6..8][0] && date[7] == date[6..8][1] && t[35..] == date[9..];
  }

  lemma ArtifactsExactly(v: Data)
    ensures ArtifactsAccepted(v) <==> ArtifactsSay(v)
  {
    hide Toolchain;
    hide IsRustc;
    if v.Obj? && (forall k :: k in v.members <==> ArtifactKey(k)) {
      assert v.members.Keys == {ClientSha256, GuardianSha256, ToolchainField};
      HexSays(v.members[ClientSha256], 64);
      HexSays(v.members[GuardianSha256], 64);
      if v.members[ToolchainField].Str? {
        ToolchainSays(v.members[ToolchainField].s);
      }
    }
  }

  lemma AttestationsExactly(v: Data)
    ensures AttestationsAccepted(v) <==> AttestationsSay(v)
  {
    if v.Obj? && (forall k :: k in v.members <==> DigestKey(k)) {
      assert v.members.Keys == {SenderSha256, GuardianSha256};
    }
  }

  lemma DeliveryExactly(v: Data)
    ensures DeliveryAccepted(v) <==> DeliverySays(v)
  {
    hide U;
    hide IsHexText;
    hide Hex;
    if v.Obj? && (forall k :: k in v.members <==> DeliveryKey(k)) {
      assert v.members.Keys ==
        {PayloadSha256, SenderStatus, GuardianReceiptStatus, AckScope, AckAuthority, Attempts, Retries, Persisted};
      HexSays(v.members[PayloadSha256], 64);
    }
  }

  lemma SafetyExactly(v: Data)
    ensures SafetyAccepted(v) <==> SafetySays(v)
  {
    if SafetyAccepted(v) {
      assert v.members.Keys == {
        ContainsNetworkIdentifiers, ContainsRawPayload, ContainsSecrets, ChainWrites, WalletOrSigning, IndependentHostProof,
        PublicNetworking, ProofValidity, ApprovalMembershipOrPrivacyAuthority, Deployment, Mainnet, Production};
    }
  }

  lemma KeysExactly(d: Document)
    ensures TopLevelKeyed(d) <==> d.Keys == KEYS
  {
    if TopLevelKeyed(d) {
      assert forall k :: k in d.Keys <==> k in KEYS;
    }
  }

  // The checks of the sixteen members, one by one.

  ghost predicate EachWord(d: Document)
    requires TopLevelKeyed(d)
  {
    hide FieldAccepted;
    && FieldAccepted(SchemaVersion, d[SchemaVersion])
    && FieldAccepted(EvidenceKind, d[EvidenceKind])
    && FieldAccepted(Issue, d[Issue])
    && FieldAccepted(Network, d[Network])
    && FieldAccepted(Runtime, d[Runtime])
    && FieldAccepted(Transport, d[Transport])
    && FieldAccepted(Protocol, d[Protocol])
    && FieldAccepted(RouteScope, d[RouteScope])
    && FieldAccepted(SeparationClaim, d[SeparationClaim])
  }

  ghost predicate EachPart(d: Document)
    requires TopLevelKeyed(d)
  {
    hide FieldAccepted;
    && FieldAccepted(ObservedAtUtc, d[ObservedAtUtc])
    && FieldAccepted(SourceCommit, d[SourceCommit])
    && FieldAccepted(ChallengeSha256, d[ChallengeSha256])
    && FieldAccepted(Artifacts, d[Artifacts])
    && FieldAccepted(ExecutionAttestations, d[ExecutionAttestations])
    && FieldAccepted(Delivery, d[Delivery])
    && FieldAccepted(Safety, d[Safety])
  }

  lemma SchemaListed(d: Document)
    requires TopLevelKeyed(d)
    ensures SchemaAccepted(d) <==> EachWord(d) && EachPart(d)
  {
    hide FieldAccepted;
    if EachWord(d) && EachPart(d) {
      forall k | TopLevelKey(k) ensures FieldAccepted(k, d[k]) {
      }
    }
  }

  lemma KeysIn(d: Document)
    requires TopLevelKeyed(d)
    ensures SchemaVersion in d && EvidenceKind in d && Issue in d && ObservedAtUtc in d && SourceCommit in d && Network in d
    ensures Runtime in d && Transport in d && Protocol in d && RouteScope in d && SeparationClaim in d && ChallengeSha256 in d
    ensures Artifacts in d && ExecutionAttestations in d && Delivery in d && Safety in d
  {
  }

  lemma ScalarFields(v: Data)
    ensures FieldAccepted(ObservedAtUtc, v) <==> v.Str? && Observation(v.s)
    ensures (FieldAccepted(SourceCommit, v) <==> HexField(v, 40)) && (FieldAccepted(ChallengeSha256, v) <==> HexField(v, 64))
  {
    hide Observation;
    hide HexField;
    hide ArtifactsAccepted;
    hide AttestationsAccepted;
    hide DeliveryAccepted;
    hide SafetyAccepted;
    hide U;
  }

  lemma ArtifactsField(v: Data)
    ensures FieldAccepted(Artifacts, v) == ArtifactsAccepted(v)
  {
    hide ArtifactsAccepted;
    hide U;
  }

  lemma AttestationsField(v: Data)
    ensures FieldAccepted(ExecutionAttestations, v) == AttestationsAccepted(v)
  {
    hide AttestationsAccepted;
    hide U;
  }

  lemma DeliveryField(v: Data)
    ensures FieldAccepted(Delivery, v) == DeliveryAccepted(v)
  {
    hide DeliveryAccepted;
    hide U;
  }

  lemma SafetyField(v: Data)
    ensures FieldAccepted(Safety, v) == SafetyAccepted(v)
  {
    hide SafetyAccepted;
    hide U;
  }

  lemma WordFields(v: Data)
    ensures (FieldAccepted(SchemaVersion, v) <==> v == Int(1)) && (FieldAccepted(Issue, v) <==> v == Int(238))
    ensures (FieldAccepted(EvidenceKind, v) <==> v == Str(EVIDENCE_KIND)) && (FieldAccepted(Network, v) <==> v == Str(NETWORK))
    ensures (FieldAccepted(Runtime, v) <==> v == Str(RUNTIME)) && (FieldAccepted(Transport, v) <==> v == Str(TRANSPORT))
    ensures (FieldAccepted(Protocol, v) <==> v == Str(PROTOCOL)) && (FieldAccepted(RouteScope, v) <==> v == Str(ROUTE_SCOPE))
    ensures FieldAccepted(SeparationClaim, v) <==> v == Str(SEPARATION_CLAIM)
  {
    hide U;
  }

  lemma WordsExactly(d: Document)
    requires TopLevelKeyed(d)
    ensures d.Keys == KEYS && (EachWord(d) <==> WordsSay(d))
  {
    hide U;
    hide TopLevelKeyed;
    hide KEYS;
    hide FieldAccepted;
    KeysExactly(d);
    KeysIn(d);
    WordFields(d[SchemaVersion]);
    WordFields(d[Issue]);
    WordFields(d[EvidenceKind]);
    WordFields(d[Network]);
    WordFields(d[Runtime]);
    WordFields(d[Transport]);
    WordFields(d[Protocol]);
    WordFields(d[RouteScope]);
    WordFields(d[SeparationClaim]);
  }

  lemma EachExactly(d: Document)
    requires TopLevelKeyed(d)
    ensures EachWord(d) && EachPart(d) <==> RecordSays(d)
  {
    hide EachWord;
    hide WordsSay;
    hide FieldAccepted;
    hide HexField;
    hide U;
    hide Observation;
    hide IsStamp;
    hide Before;
    hide ArtifactsAccepted;
    hide ArtifactsSay;
    hide AttestationsAccepted;
    hide AttestationsSay;
    hide DeliveryAccepted;
    hide DeliverySays;
    hide SafetyAccepted;
    hide SafetySays;
    hide IsHexText;
    hide Hex;
    hide TopLevelKeyed;
    hide KEYS;
    WordsExactly(d);
    KeysIn(d);
    ScalarFields(d[ObservedAtUtc]);
    ScalarFields(d[SourceCommit]);
    ScalarFields(d[ChallengeSha256]);
    ArtifactsField(d[Artifacts]);
    AttestationsField(d[ExecutionAttestations]);
    DeliveryField(d[Delivery]);
    SafetyField(d[Safety]);
    HexSays(d[SourceCommit], 40);
    HexSays(d[ChallengeSha256], 64);
    if d[ObservedAtUtc].Str? {
      ObservationExactly(d[ObservedAtUtc].s);
    }
    ArtifactsExactly(d[Artifacts]);
    AttestationsExactly(d[ExecutionAttestations]);
    DeliveryExactly(d[Delivery]);
    SafetyExactly(d[Safety]);
  }

  /** verify_evidence accepts exactly the records that say this. */
  lemma AcceptedRecordsExactly(fold: Text -> Text, d: Document)
    requires IsCasefold(fold)
    ensures EvidenceAccepted(fold, d) <==> RecordSays(d)
  {
    hide FieldAccepted;
    hide EachWord;
    hide EachPart;
    hide Redacted;
    KeysExactly(d);
    if TopLevelKeyed(d) {
      SchemaListed(d);
      EachExactly(d);
      if RecordSays(d) {
        SchemaImpliesRedaction(fold, d);
      }
    }
  }

  /** An accepted record may show any later real moment as well. */
  lemma LaterRecordAccepted(fold: Text -> Text, d: Document, later: Text)
    requires IsCasefold(fold) && EvidenceAccepted(fold, d)
    requires IsStamp(later) && Get(d, ObservedAtUtc).Str? && Before(Get(d, ObservedAtUtc).s, later)
    ensures EvidenceAccepted(fold, d[ObservedAtUtc := Str(later)])
  {
    hide EvidenceAccepted;
    hide Before;
    hide IsStamp;
    hide U;
    hide ArtifactsSay;
    hide AttestationsSay;
    hide DeliverySays;
    hide SafetySays;
    hide KEYS;
    var d' := d[ObservedAtUtc := Str(later)];
    AcceptedRecordsExactly(fold, d);
    if Before(later, U("2026-08-30T00:00:00Z")) {
      BeforeTransitive(Get(d, ObservedAtUtc).s, later, U("2026-08-30T00:00:00Z"));
    }
    ObservedAmongKeys();
    assert d'.Keys == d.Keys;
    AcceptedRecordsExactly(fold, d');
  }

  lemma ObservedAmongKeys()
    ensures ObservedAtUtc in KEYS
  {
  }

  // ----- attestation files -----

  predicate AttestationSays(d: Document, role: Text) {
    && d.Keys == {
         Role, SourceCommit, ChallengeSha256, ArtifactSha256, PayloadSha256, Protocol, ObservedAtUtc, ObservedStatus, Attempts,
         Retries, Persisted, ExecutionAttestationSha256}
    && d[Role] == Str(role) && d[Protocol] == Str(U("/prometheus/") + U("threat-hint/") + U("2.0.0"))
    && Hex(d[SourceCommit], 40) && Hex(d[ChallengeSha256], 64) && Hex(d[ArtifactSha256], 64) && Hex(d[PayloadSha256], 64)
    && Hex(d[ExecutionAttestationSha256], 64)
    && d[ObservedStatus] == Str(U("rejected")) && d[Attempts] == Int(1) && d[Retries] == Int(0) && d[Persisted] == Bool(false)
  }

  /** read_attestation lets through exactly the objects that say this, with a timestamp of the right kind. */
  lemma AcceptedAttestationsExactly(d: Document, role: Text)
    ensures AttestationAccepted(d, role) <==>
      && AttestationSays(d, role)
      && d[ObservedAtUtc].Str? && IsStamp(d[ObservedAtUtc].s) && !Before(d[ObservedAtUtc].s, U("2026-08-30T00:00:00Z"))
  {
    hide U;
    hide Observation;
    hide IsStamp;
    hide Before;
    hide IsHexText;
    hide Hex;
    hide AttestationKeyed;
    hide AttestationFileKey;
    AttestationKeys(d);
    if AttestationKeyed(d) {
      AttestationListed(d, role);
      EachFieldSays(d, role);
    }
  }

  lemma AttestationKeys(d: Document)
    ensures AttestationKeyed(d) <==> d.Keys == {
      Role, SourceCommit, ChallengeSha256, ArtifactSha256, PayloadSha256, Protocol, ObservedAtUtc, ObservedStatus, Attempts,
      Retries, Persisted, ExecutionAttestationSha256}
  {
    if AttestationKeyed(d) {
      assert d.Keys == {
        Role, SourceCommit, ChallengeSha256, ArtifactSha256, PayloadSha256, Protocol, ObservedAtUtc, ObservedStatus, Attempts,
        Retries, Persisted, ExecutionAttestationSha256};
    }
  }

  lemma AttestationKeysIn(d: Document)
    requires AttestationKeyed(d)
    ensures Role in d && SourceCommit in d && ChallengeSha256 in d && ArtifactSha256 in d && PayloadSha256 in d && Protocol in d
    ensures ObservedAtUtc in d && ObservedStatus in d && Attempts in d && Retries in d && Persisted in d && ExecutionAttestationSha256 in d
  {
  }

  lemma EachFieldSays(d: Document, role: Text)
    requires AttestationKeyed(d)
    ensures ObservedAtUtc in d
    ensures EachFieldAccepted(d, role) <==>
      && AttestationSays(d, role)
      && d[ObservedAtUtc].Str? && IsStamp(d[ObservedAtUtc].s) && !Before(d[ObservedAtUtc].s, U("2026-08-30T00:00:00Z"))
  {
    hide U;
    hide Observation;
    hide IsStamp;
    hide Before;
    hide IsHexText;
    hide Hex;
    hide AttestationKeyed;
    AttestationKeys(d);
    AttestationKeysIn(d);
    HexSays(d[SourceCommit], 40);
    HexSays(d[ChallengeSha256], 64);
    HexSays(d[ArtifactSha256], 64);
    HexSays(d[PayloadSha256], 64);
    HexSays(d[ExecutionAttestationSha256], 64);
    if d[ObservedAtUtc].Str? {
      ObservationExactly(d[ObservedAtUtc].s);
    }
  }

  ghost predicate EachFieldAccepted(d: Document, role: Text)
    requires AttestationKeyed(d)
  {
    hide AttestationFieldAccepted;
    && AttestationFieldAccepted(role, Role, d[Role])
    && AttestationFieldAccepted(role, SourceCommit, d[SourceCommit])
    && AttestationFieldAccepted(role, ChallengeSha256, d[ChallengeSha256])
    && AttestationFieldAccepted(role, ArtifactSha256, d[ArtifactSha256])
    && AttestationFieldAccepted(role, PayloadSha256, d[PayloadSha256])
    && AttestationFieldAccepted(role, Protocol, d[Protocol])
    && AttestationFieldAccepted(role, ObservedAtUtc, d[ObservedAtUtc])
    && AttestationFieldAccepted(role, ObservedStatus, d[ObservedStatus])
    && AttestationFieldAccepted(role, Attempts, d[Attempts])
    && AttestationFieldAccepted(role, Retries, d[Retries])
    && AttestationFieldAccepted(role, Persisted, d[Persisted])
    && AttestationFieldAccepted(role, ExecutionAttestationSha256, d[ExecutionAttestationSha256])
  }

  lemma AttestationListed(d: Document, role: Text)
    requires AttestationKeyed(d)
    ensures AttestationAccepted(d, role) <==> EachFieldAccepted(d, role)
  {
    hide AttestationFieldAccepted;
    if EachFieldAccepted(d, role) {
      forall k | AttestationFileKey(k) ensures AttestationFieldAccepted(role, k, d[k]) {
      }
    }
  }

  // ----- what the builder copies -----

  /** Where every value of a record comes from. */
  predicate Copies(s: Document, g: Document, t: Text, d: Document) {
    && Get(s, Role) == Str(U("sender")) && Get(g, Role) == Str(U("guardian"))
    && Get(d, SourceCommit) == Get(s, SourceCommit) == Get(g, SourceCommit)
    && Get(d, ChallengeSha256) == Get(s, ChallengeSha256) == Get(g, ChallengeSha256)
    && Get(d, ObservedAtUtc) == Get(s, ObservedAtUtc) == Get(g, ObservedAtUtc)
    && Get(d, Artifacts).Obj? && Get(d, ExecutionAttestations).Obj? && Get(d, Delivery).Obj?
    && var artifacts, attestations, delivery := Get(d, Artifacts).members, Get(d, ExecutionAttestations).members, Get(d, Delivery).members;
       && Get(artifacts, ClientSha256) == Get(s, ArtifactSha256) && Get(artifacts, GuardianSha256) == Get(g, ArtifactSha256)
       && Get(artifacts, ToolchainField) == Str(t)
       && Get(attestations, SenderSha256) == Get(s, ExecutionAttestationSha256)
       && Get(attestations, GuardianSha256) == Get(g, ExecutionAttestationSha256)
       && Get(delivery, PayloadSha256) == Get(s, PayloadSha256) == Get(g, PayloadSha256)
  }

  lemma RoleSays(a: Document, role: Text)
    requires AttestationAccepted(a, role)
    ensures Get(a, Role) == Str(role)
  {
    hide HexField;
    hide Observation;
    hide U;
    assert AttestationFieldAccepted(role, Role, a[Role]);
  }

  lemma TopCopied(s: Document, g: Document, t: Text, d: Document)
    requires Produces(s, g, t, d)
    ensures Get(d, SourceCommit) == Get(s, SourceCommit) == Get(g, SourceCommit)
    ensures Get(d, ChallengeSha256) == Get(s, ChallengeSha256) == Get(g, ChallengeSha256)
    ensures Get(d, ObservedAtUtc) == Get(s, ObservedAtUtc) == Get(g, ObservedAtUtc)
    ensures Get(s, PayloadSha256) == Get(g, PayloadSha256)
  {
    hide Produces;
    hide AttestationFieldAccepted;
    hide ArtifactsPart;
    hide AttestationsPart;
    hide DeliveryPart;
    hide SAFETY_PART;
    hide U;
    ProducedFields(s, g, t, d);
    assert SharedKey(SourceCommit) && SharedKey(ChallengeSha256) && SharedKey(ObservedAtUtc) && SharedKey(PayloadSha256);
    assert TopLevelKey(SourceCommit) && TopLevelKey(ChallengeSha256) && TopLevelKey(ObservedAtUtc);
  }

  lemma PartsPlaced(s: Document, g: Document, t: Text, d: Document)
    requires Produces(s, g, t, d)
    ensures AttestationKeyed(s) && AttestationKeyed(g)
    ensures Get(d, Artifacts) == Obj(ArtifactsPart(s, g, t)) && Get(d, ExecutionAttestations) == Obj(AttestationsPart(s, g))
    ensures Get(d, Delivery) == Obj(DeliveryPart(s, g))
  {
    hide Produces;
    hide AttestationFieldAccepted;
    hide ArtifactsPart;
    hide AttestationsPart;
    hide DeliveryPart;
    hide SAFETY_PART;
    hide U;
    hide SharedKey;
    ProducedFields(s, g, t, d);
    assert TopLevelKey(Artifacts) && TopLevelKey(ExecutionAttestations) && TopLevelKey(Delivery);
  }

  lemma PartsCopied(s: Document, g: Document, t: Text)
    requires AttestationKeyed(s) && AttestationKeyed(g)
    ensures var p := ArtifactsPart(s, g, t);
      && Get(p, ClientSha256) == Get(s, ArtifactSha256) && Get(p, GuardianSha256) == Get(g, ArtifactSha256)
      && Get(p, ToolchainField) == Str(t)
    ensures var p := AttestationsPart(s, g);
      && Get(p, SenderSha256) == Get(s, ExecutionAttestationSha256) && Get(p, GuardianSha256) == Get(g, ExecutionAttestationSha256)
    ensures Get(DeliveryPart(s, g), PayloadSha256) == Get(s, PayloadSha256)
  {
    hide U;
  }

  /** Every value of a built record is taken from the attestation it belongs to. */
  lemma BuiltCopies(s: Document, g: Document, t: Text, d: Document)
    requires Produces(s, g, t, d)
    ensures Copies(s, g, t, d)
  {
    assert SENDER == U("sender") && GUARDIAN == U("guardian");
    hide U;
    hide BuildRecord;
    hide AttestationAccepted;
    hide ArtifactsPart;
    hide AttestationsPart;
    hide DeliveryPart;
    RoleSays(s, SENDER);
    RoleSays(g, GUARDIAN);
    TopCopied(s, g, t, d);
    PartsPlaced(s, g, t, d);
    PartsCopied(s, g, t);
  }
}
