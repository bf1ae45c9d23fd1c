/**
  How the names of the two-host record are written, and which name a written key is: the
  spelling that joins the interned record to its JSON file. A key's mark is a number from
  its length, its third character and its last; no two names share one.
 */
module RecordNames {
  import opened Texts
  import opened JsonStrings
  import opened MultihostEvidence
  import opened Interning

  // ----- the keys as the programs write them, in the order of their marks -----

  function Written0(k: Field): string {
    match k
    case Role => "role"
    case Issue => "issue"
    case Safety => "safety"
    case Mainnet => "mainnet"
    case Runtime => "runtime"
    case Network => "network"
    case Retries => "retries"
    case Delivery => "delivery"
    case Protocol => "protocol"
    case Attempts => "attempts"
    case Transport => "transport"
    case AckScope => "ack_scope"
    case ToolchainField => "toolchain"
    case Persisted => "persisted"
    case Artifacts => "artifacts"
    case _ => ""
  }

  function Mark0(k: Field): int {
    match k
    case Role => 0x46C65
    case Issue => 0x57365
    case Safety => 0x66679
    case Mainnet => 0x76974
    case Runtime => 0x76E65
    case Network => 0x7746B
    case Retries => 0x77473
    case Delivery => 0x86C79
    case Protocol => 0x86F6C
    case Attempts => 0x87473
    case Transport => 0x96174
    case AckScope => 0x96B65
    case ToolchainField => 0x96F6E
    case Persisted => 0x97264
    case Artifacts => 0x97473
    case _ => 0
  }

  function Marked0(mark: int): Field {
    match mark
    case 0x46C65 => Role
    case 0x57365 => Issue
    case 0x66679 => Safety
    case 0x76974 => Mainnet
    case 0x76E65 => Runtime
    case 0x7746B => Network
    case 0x77473 => Retries
    case 0x86C79 => Delivery
    case 0x86F6C => Protocol
    case 0x87473 => Attempts
    case 0x96174 => Transport
    case 0x96B65 => AckScope
    case 0x96F6E => ToolchainField
    case 0x97264 => Persisted
    case 0x97473 => Artifacts
    case _ => Other([])
  }

  function Written1(k: Field): string {
    match k
    case Production => "production"
    case Deployment => "deployment"
    case RouteScope => "route_scope"
    case ChainWrites => "chain_writes"
    case ClientSha256 => "client_sha256"
    case EvidenceKind => "evidence_kind"
    case AckAuthority => "ack_authority"
    case SenderSha256 => "sender_sha256"
    case SenderStatus => "sender_status"
    case SourceCommit => "source_commit"
    case SchemaVersion => "schema_version"
    case ProofValidity => "proof_validity"
    case PayloadSha256 => "payload_sha256"
    case GuardianSha256 => "guardian_sha256"
    case ObservedAtUtc => "observed_at_utc"
    case _ => ""
  }

  function Mark1(k: Field): int {
    match k
    case Production => 0xA6F6E
    case Deployment => 0xA7074
    case RouteScope => 0xB7565
    case ChainWrites => 0xC6173
    case ClientSha256 => 0xD6936
    case EvidenceKind => 0xD6964
    case AckAuthority => 0xD6B79
    case SenderSha256 => 0xD6E36
    case SenderStatus => 0xD6E73
    case SourceCommit => 0xD7574
    case SchemaVersion => 0xE686E
    case ProofValidity => 0xE6F79
    case PayloadSha256 => 0xE7936
    case GuardianSha256 => 0xF6136
    case ObservedAtUtc => 0xF7363
    case _ => 0
  }

  function Marked1(mark: int): Field {
    match mark
    case 0xA6F6E => Production
    case 0xA7074 => Deployment
    case 0xB7565 => RouteScope
    case 0xC6173 => ChainWrites
    case 0xD6936 => ClientSha256
    case 0xD6964 => EvidenceKind
    case 0xD6B79 => AckAuthority
    case 0xD6E36 => SenderSha256
    case 0xD6E73 => SenderStatus
    case 0xD7574 => SourceCommit
    case 0xE686E => SchemaVersion
    case 0xE6F79 => ProofValidity
    case 0xE7936 => PayloadSha256
    case 0xF6136 => GuardianSha256
    case 0xF7363 => ObservedAtUtc
    case _ => Other([])
  }

  function Written2(k: Field): string {
    match k
    case ObservedStatus => "observed_status"
    case ArtifactSha256 => "artifact_sha256"
    case ChallengeSha256 => "challenge_sha256"
    case ContainsSecrets => "contains_secrets"
    case SeparationClaim => "separation_claim"
    case PublicNetworking => "public_networking"
    case WalletOrSigning => "wallet_or_signing"
    case ContainsRawPayload => "contains_raw_payload"
    case IndependentHostProof => "independent_host_proof"
    case ExecutionAttestations => "execution_attestations"
    case GuardianReceiptStatus => "guardian_receipt_status"
    case ExecutionAttestationSha256 => "execution_attestation_sha256"
    case ContainsNetworkIdentifiers => "contains_network_identifiers"
    case ApprovalMembershipOrPrivacyAuthority => "approval_membership_or_privacy_authority"
    case _ => ""
  }

  function Mark2(k: Field): int {
    match k
    case ObservedStatus => 0xF7373
    case ArtifactSha256 => 0xF7436
    case ChallengeSha256 => 0x106136
    case ContainsSecrets => 0x106E73
    case SeparationClaim => 0x10706D
    case PublicNetworking => 0x116267
    case WalletOrSigning => 0x116C67
    case ContainsRawPayload => 0x146E64
    case IndependentHostProof => 0x166466
    case ExecutionAttestations => 0x166573
    case GuardianReceiptStatus => 0x176173
    case ExecutionAttestationSha256 => 0x1C6536
    case ContainsNetworkIdentifiers => 0x1C6E73
    case ApprovalMembershipOrPrivacyAuthority => 0x287079
    case _ => 0
  }

  function Marked2(mark: int): Field {
    match mark
    case 0xF7373 => ObservedStatus
    case 0xF7436 => ArtifactSha256
    case 0x106136 => ChallengeSha256
    case 0x106E73 => ContainsSecrets
    case 0x10706D => SeparationClaim
    case 0x116267 => PublicNetworking
    case 0x116C67 => WalletOrSigning
    case 0x146E64 => ContainsRawPayload
    case 0x166466 => IndependentHostProof
    case 0x166573 => ExecutionAttestations
    case 0x176173 => GuardianReceiptStatus
    case 0x1C6536 => ExecutionAttestationSha256
    case 0x1C6E73 => ContainsNetworkIdentifiers
    case 0x287079 => ApprovalMembershipOrPrivacyAuthority
    case _ => Other([])
  }

  function Written(k: Field): string {
    if Mark0(k) != 0 then Written0(k)
    else if Mark1(k) != 0 then Written1(k)
    else Written2(k)
  }

  function Marked(mark: int): Field {
    if mark < 0xA6F6E then Marked0(mark)
    else if mark < 0xF7373 then Marked1(mark)
    else Marked2(mark)
  }

  function Mark(n: int, third: int, last: int): int {
    n * 0x10000 + third * 0x100 + last
  }

  function Write(k: Field): Text {
    if k.Other? then k.name else U(Written(k))
  }

  function Read(t: Text): Field {
    if |t| < 3 then Other(t)
    else
      var k := Marked(Mark(|t|, t[2], t[|t| - 1]));
      if !k.Other? && U(Written(k)) == t then k else Other(t)
  }

  const NAMES: Spelling<Field> := Spelling(Write, Read)

  lemma NamesValid()
    ensures NAMES.Valid()
  {
    hide Written;
    hide Marked;
  }

  // ----- every name is read back as itself -----

  predicate Bears(s: string, mark: int) {
    |s| >= 3 && Mark(|s|, s[2] as int, s[|s| - 1] as int) == mark
  }

  lemma Literals0()
    ensures Bears("role", 0x46C65)
    ensures Bears("issue", 0x57365)
    ensures Bears("safety", 0x66679)
    ensures Bears("mainnet", 0x76974)
    ensures Bears("runtime", 0x76E65)
    ensures Bears("network", 0x7746B)
    ensures Bears("retries", 0x77473)
    ensures Bears("delivery", 0x86C79)
    ensures Bears("protocol", 0x86F6C)
    ensures Bears("attempts", 0x87473)
    ensures Bears("transport", 0x96174)
    ensures Bears("ack_scope", 0x96B65)
    ensures Bears("toolchain", 0x96F6E)
    ensures Bears("persisted", 0x97264)
    ensures Bears("artifacts", 0x97473)
  {
  }

  lemma Bears0(k: Field)
    requires Mark0(k) != 0
    ensures Bears(Written0(k), Mark0(k))
  {
    hide Bears;
    Literals0();
  }

  lemma Inverse0(k: Field)
    requires Mark0(k) != 0
    ensures Mark0(k) < 0xA6F6E && Marked0(Mark0(k)) == k
  {
  }

  lemma Literals1()
    ensures Bears("production", 0xA6F6E)
    ensures Bears("deployment", 0xA7074)
    ensures Bears("route_scope", 0xB7565)
    ensures Bears("chain_writes", 0xC6173)
    ensures Bears("client_sha256", 0xD6936)
    ensures Bears("evidence_kind", 0xD6964)
    ensures Bears("ack_authority", 0xD6B79)
    ensures Bears("sender_sha256", 0xD6E36)
    ensures Bears("sender_status", 0xD6E73)
    ensures Bears("source_commit", 0xD7574)
    ensures Bears("schema_version", 0xE686E)
    ensures Bears("proof_validity", 0xE6F79)
    ensures Bears("payload_sha256", 0xE7936)
    ensures Bears("guardian_sha256", 0xF6136)
    ensures Bears("observed_at_utc", 0xF7363)
  {
  }

  lemma Bears1(k: Field)
    requires Mark1(k) != 0
    ensures Bears(Written1(k), Mark1(k))
  {
    hide Bears;
    Literals1();
  }

  lemma Inverse1(k: Field)
    requires Mark1(k) != 0
    ensures 0xA6F6E <= Mark1(k) < 0xF7373 && Marked1(Mark1(k)) == k
  {
  }

  lemma Literals2()
    ensures Bears("observed_status", 0xF7373)
    ensures Bears("artifact_sha256", 0xF7436)
    ensures Bears("challenge_sha256", 0x106136)
    ensures Bears("contains_secrets", 0x106E73)
    ensures Bears("separation_claim", 0x10706D)
    ensures Bears("public_networking", 0x116267)
    ensures Bears("wallet_or_signing", 0x116C67)
    ensures Bears("contains_raw_payload", 0x146E64)
    ensures Bears("independent_host_proof", 0x166466)
    ensures Bears("execution_attestations", 0x166573)
    ensures Bears("guardian_receipt_status", 0x176173)
    ensures Bears("execution_attestation_sha256", 0x1C6536)
    ensures Bears("contains_network_identifiers", 0x1C6E73)
    ensures Bears("approval_membership_or_privacy_authority", 0x287079)
  {
  }

  lemma Bears2(k: Field)
    requires Mark2(k) != 0
    ensures Bears(Written2(k), Mark2(k))
  {
    hide Bears;
    Literals2();
  }

  lemma Inverse2(k: Field)
    requires Mark2(k) != 0
    ensures 0xF7373 <= Mark2(k) && Marked2(Mark2(k)) == k
  {
  }

  lemma SomeMark(k: Field)
    requires !k.Other?
    ensures Mark0(k) != 0 || Mark1(k) != 0 || Mark2(k) != 0
  {
  }

  lemma WrittenMark(k: Field) returns (mark: int)
    requires !k.Other?
    ensures Bears(Written(k), mark) && Marked(mark) == k
  {
    hide Written0;
    hide Mark0;
    hide Marked0;
    hide Written1;
    hide Mark1;
    hide Marked1;
    hide Written2;
    hide Mark2;
    hide Marked2;
    SomeMark(k);
    if Mark0(k) != 0 {
      Bears0(k);
      Inverse0(k);
      mark := Mark0(k);
    } else if Mark1(k) != 0 {
      Bears1(k);
      Inverse1(k);
      mark := Mark1(k);
    } else if Mark2(k) != 0 {
      Bears2(k);
      Inverse2(k);
      mark := Mark2(k);
    }
  }

  /** Every name the programs use is read back as itself. */
  lemma NameIsProper(k: Field)
    requires !k.Other?
    ensures NAMES.Proper(k)
  {
    hide Written;
    hide Marked;
    var mark := WrittenMark(k);
  }
}
