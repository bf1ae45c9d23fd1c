/**
  The keys of every JSON file that the release audit reads: the literals the release tools
  write, table by table. What a tool copies from an operator's document into these files is
  text and numbers, never an object, so no other key occurs in them.
 */
module ToolKeys {
  import opened AuditKeys

  /** A deployment profile, as expected_profile writes it. */
  const PROFILE: seq<JsonKey> := [
    Flat([Name]), Flat([Full, Bundle, Fixture, Count]), Flat([Full, Bundle, Manifest, Sha256]), Flat([Kind]),
    Flat([Network, Id]), Flat([Selected, Contracts])
  ]

  /** GENESIS_PROFILE of the deploy-operator procedure. */
  const GENESIS: seq<JsonKey> := [
    Flat([Transaction, Version]), Flat([Funding, Input, Compute, Budget]), Flat([Storage, Mass, Commitment]),
    Flat([Script, Public, Key, Builder]), Flat([Script, Public, Key, Source]), Flat([Covenant, Id, Builder]),
    Flat([Covenant, Id, Preimage]), Flat([Authorizing, Input, Source]), Flat([Binding, Order]), Flat([Runtime, Ref])
  ]

  /** The safety flags. */
  const FLAGS: seq<JsonKey> := [
    PrivateKeysFlag, RawTransactionsFlag, Flat([Signs, Transactions]), Flat([Assembles, Chain, Transaction]),
    Flat([Broadcasts, Transactions]), Flat([Deploys, Contracts]), Flat([Updates, Status, Files])
  ]

  /** The arguments of reportMetrics. */
  const ARGUMENTS: seq<JsonKey> := [
    Flat([New, Active, Validators]), Flat([New, Active, Guardians]), Flat([New, Proposals, Per, Day]),
    Flat([New, Fp, Rate]), Flat([Block, Height]), Flat([Oracle, Sig])
  ]

  /** Where a transaction was seen. */
  const TRANSACTION: seq<JsonKey> := [
    Flat([Tx, Id]), Flat([Block, Hash]), Flat([Block, Daa, Score])
  ]

  /** deploy-preflight.json */
  const PREFLIGHT: seq<JsonKey> := PROFILE + [
    Flat([Schema, Version]), Flat([Network]), Flat([Deployment, Profile]), Flat([Bundle]), Flat([Operator, Inputs]),
    Flat([Tooling]), Flat([Deploy, Supported]), Flat([Deploy, Blockers]), Flat([Silverscript, Ref]),
    Flat([Silverscript, Commit]), Flat([Fixture, Count]), Flat([Contracts]), Flat([Rpc, Url, Present]),
    Flat([Deployer, Address, Present]), Flat([Metrics, Oracle, Pubkey, Present]), Flat([Missing]),
    Flat([Silverc, Path]), Flat([Upstream, Silverc, Has, Network, Deploy, Command]),
    Flat([Repository, Operator, Manifest]), Flat([Has, Repository, Toccata, V1, Genesis, Operator])
  ]

  /** deploy-request-set.json */
  const REQUEST_SET: seq<JsonKey> := PROFILE + [
    Flat([Request, Set, Sha256]), Flat([Schema, Version]), Flat([Status]), Flat([Network]), Flat([Rpc, Url]),
    Flat([Deployer, Address]), Flat([Deployment, Profile]), Flat([Silverscript, Ref]), Flat([Silverscript, Commit]),
    Flat([Request, Count]), Flat([Requests]), Flat([Blockers]), Flat([Safety]), Flat([Safety, Scope]),
    Flat([Metrics, Oracle, Pubkey]), PrivateKeysFlag, Flat([Signs, Transactions]),
    Flat([Assembles, Chain, Transaction]), Flat([Broadcasts, Transactions]), Flat([Deploys, Contracts]),
    Flat([Updates, Status, Files]), Flat([Order]), Flat([Contract, Name]), Flat([File]), Flat([Request, Sha256]),
    Flat([Artifact, Sha256]), Flat([Script, Sha256])
  ]

  /** deploy-request-verification.json */
  const REQUEST_CHECK: seq<JsonKey> := PROFILE + [
    Flat([Schema, Version]), Flat([Status]), Flat([Network]), Flat([Deployment, Profile]),
    Flat([Silverscript, Commit]), Flat([Request, Count]), Flat([Request, Set, Sha256]), Flat([Requests]),
    Flat([Blockers]), Flat([Safety]), Flat([Safety, Scope]), PrivateKeysFlag, Flat([Signs, Transactions]),
    Flat([Assembles, Chain, Transaction]), Flat([Broadcasts, Transactions]), Flat([Deploys, Contracts]),
    Flat([Updates, Status, Files]), Flat([Order]), Flat([Contract, Name]), Flat([File]), Flat([Request, Sha256]),
    Flat([Artifact, Sha256]), Flat([Script, Sha256])
  ]

  /** deploy-operator-procedure.json */
  const PROCEDURE: seq<JsonKey> := PROFILE + GENESIS + FLAGS + [
    Flat([Schema, Version]), Flat([Status]), Flat([Network]), Flat([Deployment, Profile]),
    Flat([Request, Set, Sha256]), Flat([Silverscript, Commit]), Flat([Request, Count]),
    Flat([Required, Genesis, Profile]), Flat([Contracts]), Flat([Execution, Boundary]), Flat([Execution, Sequence]),
    Flat([Required, Public, Result, Fields]), Flat([Safety]), Flat([Safety, Scope]), Flat([Blockers]),
    Flat([Repository, Operator]), Flat([External, Signer]), Flat([Public, Evidence, Path]),
    Flat([Forbidden, Material]), Flat([Result, Type]), Dotted([Provenance], [Type]),
    Dotted([Release, Bundle], [Silverscript, Commit]), Dotted([Release, Bundle], [Fixture, Count]),
    Listed([Results], [Status]), Listed([Results], [Contract, Name]), Listed([Results], [Request, Sha256]),
    Listed([Results], [Deployed, Instance, Id]), Listed([Results], [Deploy, Tx, Id]),
    Listed([Results], [Block, Hash]), Listed([Results], [Deployer, Address]), Listed([Results], [Confirmations]),
    Listed([Results], [Block, Daa, Score]), Listed([Results], [Deployed, At]), Flat([Order]), Flat([Contract, Name]),
    Flat([File]), Flat([Request, Sha256]), Flat([Artifact, Sha256]), Flat([Script, Sha256])
  ]

  /** ci-fixture-receipt-summary.json and operator-receipt-summary.json */
  const RECEIPT_SUMMARY: seq<JsonKey> := PROFILE + [
    Flat([Receipts, Sha256]), Flat([Schema, Version]), Flat([Status]), Flat([Network]), Flat([Provenance, Type]),
    Flat([Deployment, Profile]), Flat([Silverscript, Commit]), Flat([Receipt, Count]), Flat([Contracts]),
    Flat([Safety]), Flat([Operator, Next, Steps]), PrivateKeysFlag, Flat([Signs, Transactions]),
    Flat([Broadcasts, Transactions]), Flat([Updates, Status, Files]), Flat([Contract, Name]),
    Flat([Deployed, Instance, Id]), Flat([Deploy, Tx, Id]), Flat([Block, Hash]), Flat([Block, Daa, Score]),
    Flat([Confirmations]), Flat([Artifact, Sha256]), Flat([Script, Sha256])
  ]

  /** metrics-oracle-report-preflight.json */
  const REPORT: seq<JsonKey> := ARGUMENTS + [
    Flat([Schema, Version]), Flat([Status]), Flat([Network]), Flat([Contract]), Flat([Entrypoint]),
    Flat([Payload, Sha256]), Flat([Entrypoint, Args]), Flat([Safety]), Flat([Operator, Next, Steps]), PrivateKeysFlag,
    Flat([Signs, Transactions]), Flat([Broadcasts, Transactions])
  ]

  /** metrics-oracle-tx-request.json */
  const TX_REQUEST: seq<JsonKey> := ARGUMENTS + [
    Flat([Request, Sha256]), Flat([Schema, Version]), Flat([Kind]), Flat([Status]), Flat([Network]), Flat([Contract]),
    Flat([Release, Bundle]), Flat([Metrics, Report]), Flat([Entrypoint, Args]), Flat([Signature]), Flat([Safety]),
    Flat([Safety, Scope]), Flat([Repository, Operator]), Flat([Blockers]), Flat([Operator, Next, Steps]),
    Flat([Name]), Flat([Entrypoint]), Flat([Abi, Entrypoint]), Flat([Instance, Id]), Flat([Silverscript, Ref]),
    Flat([Silverscript, Commit]), Flat([Artifact, File]), Flat([Source, File]), Flat([Source, Sha256]),
    Flat([Constructor, Args, Sha256]), Flat([Artifact, Sha256]), Flat([Script, Sha256]), Flat([Script, Len]),
    Flat([Payload, Sha256]), Flat([Metrics, Oracle, Pubkey]), Flat([Previous, State]), Flat([Metrics]),
    Flat([Sources, Count]), Flat([Required]), Flat([Signer]), Flat([Signer, Pubkey]), Flat([Signature, Field]),
    Flat([Signature, Placeholder]), Flat([Repository, Must, Not, Hold, Signing, Material]), PrivateKeysFlag,
    Flat([Signs, Transactions]), Flat([Assembles, Chain, Transaction]), Flat([Broadcasts, Transactions]),
    Flat([Assembles, Transaction, In, Memory]), Flat([Requires, External, Oracle, Signature]),
    Flat([Requires, External, Fee, Sponsor, Signature]),
    Flat([Broadcast, Requires, Exact, Signing, Request, Hash, Acknowledgement]), Flat([Last, Metrics, Block]),
    Flat([Active, Validators]), Flat([Active, Guardians]), Flat([Proposals, Per, Day]), Flat([Fp, Rate])
  ]

  /** metrics-oracle-operator-procedure.json */
  const METRICS_PROCEDURE: seq<JsonKey> := FLAGS + [
    Flat([Schema, Version]), Flat([Kind]), Flat([Status]), Flat([Network]), Flat([Tx, Request, Sha256]),
    Flat([Silverscript, Commit]), Flat([Contract]), Flat([Metrics, Report]), Flat([Repository, Boundary]),
    Flat([Operator, Sequence]), Flat([Repository, Operator]), Flat([Required, Public, Result, Fields]),
    Flat([Safety]), Flat([Safety, Scope]), Flat([Blockers]), Flat([Name]), Flat([Entrypoint]), Flat([Instance, Id]),
    Flat([Artifact, Sha256]), Flat([Script, Sha256]), Flat([Payload, Sha256]), Flat([Entrypoint, Args, Sha256]),
    Flat([Role]), Flat([Forbidden, Material]), Flat([Assembles, Transaction, In, Memory]),
    Flat([Requires, External, Oracle, Signature]), Flat([Requires, External, Fee, Sponsor, Signature]),
    Flat([Broadcast, Requires, Exact, Signing, Request, Hash, Acknowledgement]),
    Flat([Preserves, Covenant, State, Value]), Flat([Fee, Paid, By, Separate, P2pk, Sponsor]), Flat([Result, Type]),
    Dotted([Provenance], [Type]), Dotted([Contract], [Instance, Id]), Dotted([Metrics, Report], [Payload, Sha256]),
    Dotted([Transaction], [Tx, Id]), Dotted([Transaction], [Block, Hash]), Dotted([Transaction], [Confirmations])
  ]

  /** operator-receipts-import-summary.json */
  const IMPORT_SUMMARY: seq<JsonKey> := PROFILE + [
    Flat([Schema, Version]), Flat([Status]), Flat([Network]), Flat([Provenance, Type]), Flat([Deployment, Profile]),
    Flat([Orchestrator]), Flat([Silverscript, Commit]), Flat([Request, Set, Sha256]), Flat([Source, Result, Sha256]),
    Flat([Receipts, Sha256]), Flat([Receipt, Count]), Flat([Contracts]), Flat([Operator, Next, Steps]),
    Flat([Safety]), PrivateKeysFlag, Flat([Signs, Transactions]), Flat([Assembles, Chain, Transaction]),
    Flat([Broadcasts, Transactions]), Flat([Deploys, Contracts]), Flat([Updates, Status, Files]), Flat([Order]),
    Flat([Contract, Name]), Flat([Deployed, Instance, Id]), Flat([Deploy, Tx, Id]), Flat([Block, Hash]),
    Flat([Block, Daa, Score]), Flat([Confirmations]), Flat([Request, Sha256]), Flat([Artifact, Sha256]),
    Flat([Script, Sha256])
  ]

  /** deploy-receipt-public-evidence-summary.json */
  const EVIDENCE_SUMMARY: seq<JsonKey> := PROFILE + FLAGS + [
    Flat([Schema, Version]), Flat([Status]), Flat([Network]), Flat([Deployment, Profile]), Flat([Provenance, Type]),
    Flat([Observer]), Flat([Observed, At]), Flat([Silverscript, Commit]), Flat([Receipts, Sha256]),
    Flat([Evidence, Sha256]), Flat([Receipt, Count]), Flat([Contracts]), Flat([Safety]),
    Flat([Operator, Next, Steps]), Flat([Order]), Flat([Contract, Name]), Flat([Deployed, Instance, Id]),
    Flat([Deploy, Tx, Id]), Flat([Block, Hash]), Flat([Receipt, Confirmations]), Flat([Evidence, Confirmations]),
    Flat([Block, Daa, Score])
  ]

  /** metrics-oracle-tx-result-summary.json */
  const TX_RESULT: seq<JsonKey> := TRANSACTION + [
    Flat([Schema, Version]), Flat([Status]), Flat([Network]), Flat([Provenance, Type]), Flat([Assembler]),
    Flat([Recorded, At]), Flat([Silverscript, Commit]), Flat([Tx, Request, Sha256]), Flat([Tx, Result, Sha256]),
    Flat([Contract]), Flat([Metrics, Report]), Flat([Transaction]), Flat([Safety]), Flat([Operator, Next, Steps]),
    Flat([Name]), Flat([Entrypoint]), Flat([Instance, Id]), Flat([Artifact, Sha256]), Flat([Script, Sha256]),
    Flat([Payload, Sha256]), Flat([Entrypoint, Args, Sha256]), Flat([Confirmations]), Flat([Broadcast, At]),
    Flat([Confirmed, At]), PrivateKeysFlag, RawTransactionsFlag, Flat([Signs, Transactions]),
    Flat([Assembles, Chain, Transaction]), Flat([Broadcasts, Transactions]), Flat([Updates, Status, Files])
  ]

  /** metrics-oracle-tx-public-evidence-summary.json */
  const TX_EVIDENCE: seq<JsonKey> := FLAGS + TRANSACTION + [
    Flat([Schema, Version]), Flat([Status]), Flat([Network]), Flat([Provenance, Type]), Flat([Observer]),
    Flat([Observed, At]), Flat([Silverscript, Commit]), Flat([Tx, Request, Sha256]), Flat([Tx, Result, Sha256]),
    Flat([Evidence, Sha256]), Flat([Contract]), Flat([Metrics, Report]), Flat([Transaction]), Flat([Safety]),
    Flat([Operator, Next, Steps]), Flat([Name]), Flat([Entrypoint]), Flat([Instance, Id]), Flat([Artifact, Sha256]),
    Flat([Script, Sha256]), Flat([Payload, Sha256]), Flat([Entrypoint, Args, Sha256]), Flat([Result, Confirmations]),
    Flat([Evidence, Confirmations])
  ]

  /** metrics-oracle-status-draft.json */
  const DRAFT: seq<JsonKey> := FLAGS + TRANSACTION + [
    Flat([Schema, Version]), Flat([Status]), Flat([Network]), Flat([Provenance, Type]), Flat([Assembler]),
    Flat([Recorded, At]), Flat([Silverscript, Commit]), Flat([Tx, Request, Sha256]), Flat([Tx, Result, Sha256]),
    Flat([Contract]), Flat([Metrics, Report]), Flat([Transaction]), Flat([Manual, Checks]), Flat([Safety]),
    Flat([Name]), Flat([Entrypoint]), Flat([Instance, Id]), Flat([Artifact, Sha256]), Flat([Script, Sha256]),
    Flat([Payload, Sha256]), Flat([Entrypoint, Args, Sha256]), Flat([Confirmations]), Flat([Broadcast, At]),
    Flat([Confirmed, At])
  ]

  /** external-operator-capability-summary.json */
  const CAPABILITY: seq<JsonKey> := GENESIS + FLAGS + [
    Flat([Schema, Version]), Flat([Status]), Flat([Network]), Flat([Operator, Id]), Flat([Operator, Recorded, At]),
    Flat([Capability, Sha256]), Flat([Deploy, Operator, Status]), Flat([Deploy, Procedure, Sha256]),
    Flat([Request, Set, Sha256]), Flat([Request, Count]), Flat([Genesis, Profile]), Flat([Metrics, Operator, Status]),
    Flat([Metrics, Procedure, Sha256]), Flat([Tx, Request, Sha256]), Flat([Contract, Instance, Id]), Flat([Safety]),
    Flat([Safety, Scope]), Flat([Blockers])
  ]

  /** release-hardening-evidence-summary.json */
  const HARDENING: seq<JsonKey> := FLAGS + [
    Flat([Schema, Version]), Flat([Status]), Flat([Repository]), Flat([Provenance, Type]), Flat([Observer]),
    Flat([Observed, At]), Flat([Evidence, Sha256]), Flat([Required, Workflows]), Flat([Branch, Rules]),
    Flat([Release, Controls]), Flat([Safety]), Flat([Operator, Next, Steps]), Flat([Full, Name]),
    Flat([Protected, Branch]), Flat([Commit, Sha]), Flat([Pull, Request, Required]),
    Flat([Required, Status, Checks, Enforced]), Flat([Force, Pushes, Blocked]), Flat([Branch, Deletions, Blocked]),
    Flat([Admin, Bypass, For, Release]), Flat([Operator, Handoff, Review, Required]),
    Flat([Rollback, Plan, Documented]), Flat([Status, Updates, Manual, After, Evidence]),
    Flat([Public, Pages, Verified]), Flat([Release, Notes, Required]), Flat([Changes, Repository, Settings])
  ]

  /** operator-handoff-summary.json */
  const HANDOFF: seq<JsonKey> := FLAGS + [
    Flat([Included, Files]), Flat([Schema, Version]), Flat([Status]), Flat([Network]),
    Flat([Release, Archive, Sha256]), Flat([Silverscript, Commit]), Flat([Deploy, Supported]),
    Flat([Deploy, Requests, Status]), Flat([Deploy, Request, Count]), Flat([Deploy, Request, Verification, Status]),
    Flat([Deploy, Operator, Procedure, Status]), Flat([Operator, Receipt, Import, Status]),
    Flat([Ci, Receipts, Status]), Flat([Operator, Receipts, Status]), Flat([Deploy, Receipt, Evidence, Status]),
    Flat([Metrics, Report, Status]), Flat([Metrics, Tx, Request, Status]),
    Flat([Metrics, Operator, Procedure, Status]), Flat([Metrics, Tx, Result, Status]),
    Flat([Metrics, Tx, Evidence, Status]), Flat([Metrics, Oracle, Status, Draft, Status]),
    Flat([External, Operator, Capability, Status]), Flat([External, Operator, Id]),
    Flat([Release, Hardening, Status]), Flat([Safety]), Flat([Blockers])
  ]
}
