/**
  How the names of the release documents are written, and which name a written key is: the
  spelling that joins the interned documents to their JSON files. A key's mark is a number from
  its length, its third character and its last; no two names share one.
 */
module ReleaseNames {
  import opened Texts
  import opened JsonStrings
  import opened DeploymentProfiles
  import opened Interning

  // ----- the keys as the programs write them, in the order of their marks -----

  function Written0(k: Name): string {
    match k
    case Ref => "ref"
    case Abi => "abi"
    case File => "file"
    case ProfileName => "name"
    case Kind => "kind"
    case ProvenanceType => "type"
    case Order => "order"
    case Status => "status"
    case Safety => "safety"
    case Commit => "commit"
    case RpcUrl => "rpc_url"
    case Network => "network"
    case Receipts => "receipts"
    case Contract => "contract"
    case _ => ""
  }

  function Mark0(k: Name): int {
    match k
    case Ref => 0x36666
    case Abi => 0x36969
    case File => 0x46C65
    case ProfileName => 0x46D65
    case Kind => 0x46E64
    case ProvenanceType => 0x47065
    case Order => 0x56472
    case Status => 0x66173
    case Safety => 0x66679
    case Commit => 0x66D74
    case RpcUrl => 0x7636C
    case Network => 0x7746B
    case Receipts => 0x86373
    case Contract => 0x86E74
    case _ => 0
  }

  function Marked0(mark: int): Name {
    match mark
    case 0x36666 => Ref
    case 0x36969 => Abi
    case 0x46C65 => File
    case 0x46D65 => ProfileName
    case 0x46E64 => Kind
    case 0x47065 => ProvenanceType
    case 0x56472 => Order
    case 0x66173 => Status
    case 0x66679 => Safety
    case 0x66D74 => Commit
    case 0x7636C => RpcUrl
    case 0x7746B => Network
    case 0x86373 => Receipts
    case 0x86E74 => Contract
    case _ => Other([])
  }

  function Written1(k: Name): string {
    match k
    case Blockers => "blockers"
    case Requests => "requests"
    case Observer => "observer"
    case Fixtures => "fixtures"
    case Provenance => "provenance"
    case BlockHash => "block_hash"
    case ScriptLen => "script_len"
    case NetworkId => "network_id"
    case DeployedAt => "deployed_at"
    case ObservedAt => "observed_at"
    case SourceFile => "source_file"
    case StateLayout => "state_layout"
    case SafetyScope => "safety_scope"
    case Silverscript => "silverscript"
    case _ => ""
  }

  function Mark1(k: Name): int {
    match k
    case Blockers => 0x86F73
    case Requests => 0x87173
    case Observer => 0x87372
    case Fixtures => 0x87873
    case Provenance => 0xA6F65
    case BlockHash => 0xA6F68
    case ScriptLen => 0xA726E
    case NetworkId => 0xA7464
    case DeployedAt => 0xB7074
    case ObservedAt => 0xB7374
    case SourceFile => 0xB7565
    case StateLayout => 0xC6174
    case SafetyScope => 0xC6665
    case Silverscript => 0xC6C74
    case _ => 0
  }

  function Marked1(mark: int): Name {
    match mark
    case 0x86F73 => Blockers
    case 0x87173 => Requests
    case 0x87372 => Observer
    case 0x87873 => Fixtures
    case 0xA6F65 => Provenance
    case 0xA6F68 => BlockHash
    case 0xA726E => ScriptLen
    case 0xA7464 => NetworkId
    case 0xB7074 => DeployedAt
    case 0xB7374 => ObservedAt
    case 0xB7565 => SourceFile
    case 0xC6174 => StateLayout
    case 0xC6665 => SafetyScope
    case 0xC6C74 => Silverscript
    case _ => Other([])
  }

  function Written2(k: Name): string {
    match k
    case DeployTxId => "deploy_tx_id"
    case ExplorerUrl => "explorer_url"
    case RequestType => "request_type"
    case Observations => "observations"
    case ReceiptCount => "receipt_count"
    case EvidenceType => "evidence_type"
    case ContractName => "contract_name"
    case Confirmations => "confirmations"
    case RequestCount => "request_count"
    case ScriptSha256 => "script_sha256"
    case ArtifactFile => "artifact_file"
    case SourceSha256 => "source_sha256"
    case FixtureCount => "fixture_count"
    case SchemaVersion => "schema_version"
    case _ => ""
  }

  function Mark2(k: Name): int {
    match k
    case DeployTxId => 0xC7064
    case ExplorerUrl => 0xC706C
    case RequestType => 0xC7165
    case Observations => 0xC7373
    case ReceiptCount => 0xD6374
    case EvidenceType => 0xD6965
    case ContractName => 0xD6E65
    case Confirmations => 0xD6E73
    case RequestCount => 0xD7174
    case ScriptSha256 => 0xD7236
    case ArtifactFile => 0xD7465
    case SourceSha256 => 0xD7536
    case FixtureCount => 0xD7874
    case SchemaVersion => 0xE686E
    case _ => 0
  }

  function Marked2(mark: int): Name {
    match mark
    case 0xC7064 => DeployTxId
    case 0xC706C => ExplorerUrl
    case 0xC7165 => RequestType
    case 0xC7373 => Observations
    case 0xD6374 => ReceiptCount
    case 0xD6965 => EvidenceType
    case 0xD6E65 => ContractName
    case 0xD6E73 => Confirmations
    case 0xD7174 => RequestCount
    case 0xD7236 => ScriptSha256
    case 0xD7465 => ArtifactFile
    case 0xD7536 => SourceSha256
    case 0xD7874 => FixtureCount
    case 0xE686E => SchemaVersion
    case _ => Other([])
  }

  function Written3(k: Name): string {
    match k
    case ReleaseBundle => "release_bundle"
    case RequestSha256 => "request_sha256"
    case ReceiptsSha256 => "receipts_sha256"
    case BlockDaaScore => "block_daa_score"
    case ArtifactSha256 => "artifact_sha256"
    case SilverscriptRef => "silverscript_ref"
    case CompilerVersion => "compiler_version"
    case ConstructorArgs => "constructor_args"
    case DeployerAddress => "deployer_address"
    case DeploysContracts => "deploys_contracts"
    case SignsTransactions => "signs_transactions"
    case SelectedContracts => "selected_contracts"
    case DeploymentProfile => "deployment_profile"
    case RequestSetSha256 => "request_set_sha256"
    case _ => ""
  }

  function Mark3(k: Name): int {
    match k
    case ReleaseBundle => 0xE6C65
    case RequestSha256 => 0xE7136
    case ReceiptsSha256 => 0xF6336
    case BlockDaaScore => 0xF6F65
    case ArtifactSha256 => 0xF7436
    case SilverscriptRef => 0x106C66
    case CompilerVersion => 0x106D6E
    case ConstructorArgs => 0x106E73
    case DeployerAddress => 0x107073
    case DeploysContracts => 0x117073
    case SignsTransactions => 0x126773
    case SelectedContracts => 0x126C73
    case DeploymentProfile => 0x127065
    case RequestSetSha256 => 0x127136
    case _ => 0
  }

  function Marked3(mark: int): Name {
    match mark
    case 0xE6C65 => ReleaseBundle
    case 0xE7136 => RequestSha256
    case 0xF6336 => ReceiptsSha256
    case 0xF6F65 => BlockDaaScore
    case 0xF7436 => ArtifactSha256
    case 0x106C66 => SilverscriptRef
    case 0x106D6E => CompilerVersion
    case 0x106E73 => ConstructorArgs
    case 0x107073 => DeployerAddress
    case 0x117073 => DeploysContracts
    case 0x126773 => SignsTransactions
    case 0x126C73 => SelectedContracts
    case 0x127065 => DeploymentProfile
    case 0x127136 => RequestSetSha256
    case _ => Other([])
  }

  function Written4(k: Name): string {
    match k
    case SilverscriptCommit => "silverscript_commit"
    case AcceptsPrivateKeys => "accepts_private_keys"
    case UpdatesStatusFiles => "updates_status_files"
    case DeployedInstanceId => "deployed_instance_id"
    case MetricsOraclePubkey => "metrics_oracle_pubkey"
    case ConstructorArgsSha256 => "constructor_args_sha256"
    case BroadcastsTransactions => "broadcasts_transactions"
    case OrchestratorRequirements => "orchestrator_requirements"
    case FullBundleFixtureCount => "full_bundle_fixture_count"
    case FullBundleManifestSha256 => "full_bundle_manifest_sha256"
    case AssemblesChainTransaction => "assembles_chain_transaction"
    case _ => ""
  }

  function Mark4(k: Name): int {
    match k
    case SilverscriptCommit => 0x136C74
    case AcceptsPrivateKeys => 0x146373
    case UpdatesStatusFiles => 0x146473
    case DeployedInstanceId => 0x147064
    case MetricsOraclePubkey => 0x157479
    case ConstructorArgsSha256 => 0x176E36
    case BroadcastsTransactions => 0x176F73
    case OrchestratorRequirements => 0x196373
    case FullBundleFixtureCount => 0x196C74
    case FullBundleManifestSha256 => 0x1B6C36
    case AssemblesChainTransaction => 0x1B736E
    case _ => 0
  }

  function Marked4(mark: int): Name {
    match mark
    case 0x136C74 => SilverscriptCommit
    case 0x146373 => AcceptsPrivateKeys
    case 0x146473 => UpdatesStatusFiles
    case 0x147064 => DeployedInstanceId
    case 0x157479 => MetricsOraclePubkey
    case 0x176E36 => ConstructorArgsSha256
    case 0x176F73 => BroadcastsTransactions
    case 0x196373 => OrchestratorRequirements
    case 0x196C74 => FullBundleFixtureCount
    case 0x1B6C36 => FullBundleManifestSha256
    case 0x1B736E => AssemblesChainTransaction
    case _ => Other([])
  }

  function Written(k: Name): string {
    if Mark0(k) != 0 then Written0(k)
    else if Mark1(k) != 0 then Written1(k)
    else if Mark2(k) != 0 then Written2(k)
    else if Mark3(k) != 0 then Written3(k)
    else Written4(k)
  }

  function Marked(mark: int): Name {
    if mark < 0x86F73 then Marked0(mark)
    else if mark < 0xC7064 then Marked1(mark)
    else if mark < 0xE6C65 then Marked2(mark)
    else if mark < 0x136C74 then Marked3(mark)
    else Marked4(mark)
  }

  function Mark(n: int, third: int, last: int): int {
    n * 0x10000 + third * 0x100 + last
  }

  function Write(k: Name): Text {
    if k.Other? then k.name else U(Written(k))
  }

  function Read(t: Text): Name {
    if |t| < 3 then Other(t)
    else
      var k := Marked(Mark(|t|, t[2], t[|t| - 1]));
      if !k.Other? && U(Written(k)) == t then k else Other(t)
  }

  const NAMES: Spelling<Name> := Spelling(Write, Read)

  lemma NamesValid()
    ensures NAMES.Valid()
  {
    hide Written;
    hide Marked;
  }

  // ----- every name is read back as itself -----

  predicate Bears(s: string, mark: int) {
    |s| >= 3 && Mark(|s|, s[2] as int, s[|s| - 1] as int) == mark
  }

  lemma Literals0()
    ensures Bears("ref", 0x36666)
    ensures Bears("abi", 0x36969)
    ensures Bears("file", 0x46C65)
    ensures Bears("name", 0x46D65)
    ensures Bears("kind", 0x46E64)
    ensures Bears("type", 0x47065)
    ensures Bears("order", 0x56472)
    ensures Bears("status", 0x66173)
    ensures Bears("safety", 0x66679)
    ensures Bears("commit", 0x66D74)
    ensures Bears("rpc_url", 0x7636C)
    ensures Bears("network", 0x7746B)
    ensures Bears("receipts", 0x86373)
    ensures Bears("contract", 0x86E74)
  {
  }

  lemma Bears0(k: Name)
    requires Mark0(k) != 0
    ensures Bears(Written0(k), Mark0(k))
  {
    hide Bears;
    Literals0();
  }

  lemma Inverse0(k: Name)
    requires Mark0(k) != 0
    ensures Mark0(k) < 0x86F73 && Marked0(Mark0(k)) == k
  {
  }

  lemma Literals1()
    ensures Bears("blockers", 0x86F73)
    ensures Bears("requests", 0x87173)
    ensures Bears("observer", 0x87372)
    ensures Bears("fixtures", 0x87873)
    ensures Bears("provenance", 0xA6F65)
    ensures Bears("block_hash", 0xA6F68)
    ensures Bears("script_len", 0xA726E)
    ensures Bears("network_id", 0xA7464)
    ensures Bears("deployed_at", 0xB7074)
    ensures Bears("observed_at", 0xB7374)
    ensures Bears("source_file", 0xB7565)
    ensures Bears("state_layout", 0xC6174)
    ensures Bears("safety_scope", 0xC6665)
    ensures Bears("silverscript", 0xC6C74)
  {
  }

  lemma Bears1(k: Name)
    requires Mark1(k) != 0
    ensures Bears(Written1(k), Mark1(k))
  {
    hide Bears;
    Literals1();
  }

  lemma Inverse1(k: Name)
    requires Mark1(k) != 0
    ensures 0x86F73 <= Mark1(k) < 0xC7064 && Marked1(Mark1(k)) == k
  {
  }

  lemma Literals2()
    ensures Bears("deploy_tx_id", 0xC7064)
    ensures Bears("explorer_url", 0xC706C)
    ensures Bears("request_type", 0xC7165)
    ensures Bears("observations", 0xC7373)
    ensures Bears("receipt_count", 0xD6374)
    ensures Bears("evidence_type", 0xD6965)
    ensures Bears("contract_name", 0xD6E65)
    ensures Bears("confirmations", 0xD6E73)
    ensures Bears("request_count", 0xD7174)
    ensures Bears("script_sha256", 0xD7236)
    ensures Bears("artifact_file", 0xD7465)
    ensures Bears("source_sha256", 0xD7536)
    ensures Bears("fixture_count", 0xD7874)
    ensures Bears("schema_version", 0xE686E)
  {
  }

  lemma Bears2(k: Name)
    requires Mark2(k) != 0
    ensures Bears(Written2(k), Mark2(k))
  {
    hide Bears;
    Literals2();
  }

  lemma Inverse2(k: Name)
    requires Mark2(k) != 0
    ensures 0xC7064 <= Mark2(k) < 0xE6C65 && Marked2(Mark2(k)) == k
  {
  }

  lemma Literals3()
    ensures Bears("release_bundle", 0xE6C65)
    ensures Bears("request_sha256", 0xE7136)
    ensures Bears("receipts_sha256", 0xF6336)
    ensures Bears("block_daa_score", 0xF6F65)
    ensures Bears("artifact_sha256", 0xF7436)
    ensures Bears("silverscript_ref", 0x106C66)
    ensures Bears("compiler_version", 0x106D6E)
    ensures Bears("constructor_args", 0x106E73)
    ensures Bears("deployer_address", 0x107073)
    ensures Bears("deploys_contracts", 0x117073)
    ensures Bears("signs_transactions", 0x126773)
    ensures Bears("selected_contracts", 0x126C73)
    ensures Bears("deployment_profile", 0x127065)
    ensures Bears("request_set_sha256", 0x127136)
  {
  }

  lemma Bears3(k: Name)
    requires Mark3(k) != 0
    ensures Bears(Written3(k), Mark3(k))
  {
    hide Bears;
    Literals3();
  }

  lemma Inverse3(k: Name)
    requires Mark3(k) != 0
    ensures 0xE6C65 <= Mark3(k) < 0x136C74 && Marked3(Mark3(k)) == k
  {
  }

  lemma Literals4()
    ensures Bears("silverscript_commit", 0x136C74)
    ensures Bears("accepts_private_keys", 0x146373)
    ensures Bears("updates_status_files", 0x146473)
    ensures Bears("deployed_instance_id", 0x147064)
    ensures Bears("metrics_oracle_pubkey", 0x157479)
    ensures Bears("constructor_args_sha256", 0x176E36)
    ensures Bears("broadcasts_transactions", 0x176F73)
    ensures Bears("orchestrator_requirements", 0x196373)
    ensures Bears("full_bundle_fixture_count", 0x196C74)
    ensures Bears("full_bundle_manifest_sha256", 0x1B6C36)
    ensures Bears("assembles_chain_transaction", 0x1B736E)
  {
  }

  lemma Bears4(k: Name)
    requires Mark4(k) != 0
    ensures Bears(Written4(k), Mark4(k))
  {
    hide Bears;
    Literals4();
  }

  lemma Inverse4(k: Name)
    requires Mark4(k) != 0
    ensures 0x136C74 <= Mark4(k) && Marked4(Mark4(k)) == k
  {
  }

  lemma SomeMark(k: Name)
    requires !k.Other?
    ensures Mark0(k) != 0 || Mark1(k) != 0 || Mark2(k) != 0 || Mark3(k) != 0 || Mark4(k) != 0
  {
  }

  lemma WrittenMark(k: Name) returns (mark: int)
    requires !k.Other?
    ensures Bears(Written(k), mark) && Marked(mark) == k
  {
    hide Written0;
    hide Mark0;
    hide Marked0;
    hide Written1;
    hide Mark1;
    hide Marked1;
    hide Written2;
    hide Mark2;
    hide Marked2;
    hide Written3;
    hide Mark3;
    hide Marked3;
    hide Written4;
    hide Mark4;
    hide Marked4;
    SomeMark(k);
    if Mark0(k) != 0 {
      Bears0(k);
      Inverse0(k);
      mark := Mark0(k);
    } else if Mark1(k) != 0 {
      Bears1(k);
      Inverse1(k);
      mark := Mark1(k);
    } else if Mark2(k) != 0 {
      Bears2(k);
      Inverse2(k);
      mark := Mark2(k);
    } else if Mark3(k) != 0 {
      Bears3(k);
      Inverse3(k);
      mark := Mark3(k);
    } else if Mark4(k) != 0 {
      Bears4(k);
      Inverse4(k);
      mark := Mark4(k);
    }
  }

  /** Every name the programs use is read back as itself. */
  lemma NameIsProper(k: Name)
    requires !k.Other?
    ensures NAMES.Proper(k)
  {
    hide Written;
    hide Marked;
    var mark := WrittenMark(k);
  }
}
