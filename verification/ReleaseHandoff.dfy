/**
  The operator handoff package and the audit of it: the builder runs the release tools,
  collects their statuses and blockers, and lists the files it wrote; the audit reads the
  package back and decides rollout readiness on its own.
 */
module ReleaseHandoff {
  import opened Texts
  import opened CanonicalJson
  import opened DeploymentProfiles
  import opened ReleaseReceipts
  import AuditKeys
  import ToolKeys

  /** The status strings of the pipeline, interned; any further string is OtherStatus. */
  datatype ReleaseStatus =
    | HandoffBlocked | ReadyForOperatorDeploy
    | ReadyForStatusRecording | CiFixtureValid | CanaryReceiptsVerified | CanaryCiFixtureValid
    | DeployEvidenceVerified | CanaryEvidenceVerified
    | GenesisOperationReady | MetricsOperatorReady | MetricsOperationReady
    | TxResultVerified | TxEvidenceVerified | OracleDraftReady | CapabilityVerified | HardeningVerified
    | NotProvided | MissingOperatorRecord | TxRequestBlocked
    | OtherStatus(text: Text)

  /** receipt_verification_status. */
  function ReceiptStatus(canary: bool, operatorRecord: bool): ReleaseStatus {
    if canary then (if operatorRecord then CanaryReceiptsVerified else CanaryCiFixtureValid)
    else (if operatorRecord then ReadyForStatusRecording else CiFixtureValid)
  }

  /** evidence_status. */
  function EvidenceStatus(canary: bool): ReleaseStatus {
    if canary then CanaryEvidenceVerified else DeployEvidenceVerified
  }

  // ----- the package on disk -----

  datatype File =
    | SummaryJson | HandoffMd | Archive
    | PreflightJson | PreflightMd | RequestSetJson | RequestsMd | RequestFile(name: Text)
    | RequestCheckJson | RequestCheckMd | ProcedureJson | ProcedureMd
    | CiSummaryJson | CiRunbookMd | ReportJson | ReportMd | TxRequestJson | TxRequestMd
    | OperatorSummaryJson | OperatorRunbookMd
    | ImportedReceiptsJson | ImportSummaryJson | ImportMd
    | EvidenceJson | EvidenceSummaryJson | EvidenceMd
    | TxResultJson | TxResultMd | TxEvidenceJson | TxEvidenceSummaryJson | TxEvidenceMd | DraftJson | DraftMd
    | MetricsProcedureJson | MetricsProcedureMd
    | CapabilityJson | CapabilitySummaryJson | CapabilityMd
    | HardeningJson | HardeningSummaryJson | HardeningMd

  /** What the audit can see of a JSON file besides its keys: its status, whether its seven safety flags
      are all false, and the two other fields it compares. */
  datatype Doc = Doc(status: ReleaseStatus, safe: bool, supported: bool, operatorId: Text)

  datatype Blocker =
    | SandboxOnly
    | DeployBlocked(why: Text)
    | MissingReceipts
    | MissingDeployEvidence
    | TxBlocked(why: Text)
    | MissingTxResult
    | MissingTxEvidence
    | MissingHardening

  datatype Handoff = Handoff(
    status: ReleaseStatus, supported: bool, requests: ReleaseStatus, requestCheck: ReleaseStatus, procedure: ReleaseStatus,
    receiptImport: ReleaseStatus, ciReceipts: ReleaseStatus, operatorReceipts: ReleaseStatus, deployEvidence: ReleaseStatus,
    report: ReleaseStatus, txRequest: ReleaseStatus, metricsProcedure: ReleaseStatus, txResult: ReleaseStatus,
    txEvidence: ReleaseStatus, draft: ReleaseStatus, capability: ReleaseStatus, operatorId: Text, hardening: ReleaseStatus,
    safe: bool, blockers: seq<Blocker>, included: set<File>)

  /** `keys` gives the keys that occur anywhere in a JSON file. */
  datatype Root = Root(files: set<File>, doc: File -> Doc, keys: File -> set<Text>, summary: Handoff)

  /** reject_forbidden_json_keys over all keys of a file. */
  predicate CleanKeys(keys: set<Text>) {
    forall k :: k in keys ==> !AuditKeys.IsForbidden(k)
  }

  // ----- the audit -----

  datatype Verdict = RolloutReady | RolloutBlocked | Refused

  const BASE_FILES: set<File> := {
    SummaryJson, HandoffMd, Archive, PreflightJson, PreflightMd, RequestSetJson, RequestsMd, RequestCheckJson,
    RequestCheckMd, ProcedureJson, ProcedureMd, CiSummaryJson, CiRunbookMd, ReportJson, ReportMd, TxRequestJson, TxRequestMd
  }
  const OPERATOR_RECEIPT_FILES: set<File> := {OperatorSummaryJson, OperatorRunbookMd}
  const DEPLOY_EVIDENCE_FILES: set<File> := {EvidenceJson, EvidenceSummaryJson, EvidenceMd}
  const IMPORT_FILES: set<File> := {ImportedReceiptsJson, ImportSummaryJson, ImportMd}
  const TX_RESULT_FILES: set<File> := {
    TxResultJson, TxResultMd, TxEvidenceJson, TxEvidenceSummaryJson, TxEvidenceMd, DraftJson, DraftMd
  }
  const METRICS_PROCEDURE_FILES: set<File> := {MetricsProcedureJson, MetricsProcedureMd}
  const CAPABILITY_FILES: set<File> := {CapabilityJson, CapabilitySummaryJson, CapabilityMd}
  const HARDENING_FILES: set<File> := {HardeningJson, HardeningSummaryJson, HardeningMd}

  /** When the audit asks for a file. */
  predicate Required(h: Handoff, f: File) {
    || f in BASE_FILES
    || (f in OPERATOR_RECEIPT_FILES && h.operatorReceipts == ReadyForStatusRecording)
    || (f in DEPLOY_EVIDENCE_FILES && h.deployEvidence == DeployEvidenceVerified)
    || (f in IMPORT_FILES && h.receiptImport != NotProvided)
    || (f in TX_RESULT_FILES && h.txResult == TxResultVerified)
    || (f in METRICS_PROCEDURE_FILES && h.txRequest == MetricsOperatorReady)
    || (f in CAPABILITY_FILES && h.capability == CapabilityVerified)
    || (f in HARDENING_FILES && h.hardening == HardeningVerified)
  }

  /** required_files_for_summary: a set grown by one group of files per status. */
  method RequiredFiles(h: Handoff) returns (required: set<File>)
    ensures forall f :: f in required <==> Required(h, f)
  {
    required := BASE_FILES;
    if h.operatorReceipts == ReadyForStatusRecording {
      required := required + OPERATOR_RECEIPT_FILES;
    }
    if h.deployEvidence == DeployEvidenceVerified {
      required := required + DEPLOY_EVIDENCE_FILES;
    }
    if h.receiptImport != NotProvided {
      required := required + IMPORT_FILES;
    }
    if h.txResult == TxResultVerified {
      required := required + TX_RESULT_FILES;
    }
    if h.txRequest == MetricsOperatorReady {
      required := required + METRICS_PROCEDURE_FILES;
    }
    if h.capability == CapabilityVerified {
      required := required + CAPABILITY_FILES;
    }
    if h.hardening == HardeningVerified {
      required := required + HARDENING_FILES;
    }
  }

  predicate Agrees(root: Root, f: File, status: ReleaseStatus) {
    f in root.files && CleanKeys(root.keys(f)) && root.doc(f).status == status
  }

  predicate AgreesSafely(root: Root, f: File, status: ReleaseStatus) {
    Agrees(root, f, status) && root.doc(f).safe
  }

  /** validate_component_summaries: every component file tells the status the summary reports. */
  predicate ComponentsAgree(root: Root) {
    var h := root.summary;
    && PreflightJson in root.files && CleanKeys(root.keys(PreflightJson)) && root.doc(PreflightJson).supported == h.supported
    && Agrees(root, RequestSetJson, h.requests)
    && Agrees(root, RequestCheckJson, h.requestCheck)
    && AgreesSafely(root, ProcedureJson, h.procedure)
    && Agrees(root, CiSummaryJson, h.ciReceipts)
    && Agrees(root, ReportJson, h.report)
    && Agrees(root, TxRequestJson, h.txRequest)
    && (h.txRequest == MetricsOperatorReady ==> AgreesSafely(root, MetricsProcedureJson, h.metricsProcedure))
    && (h.operatorReceipts == ReadyForStatusRecording ==> Agrees(root, OperatorSummaryJson, ReadyForStatusRecording))
    && (h.deployEvidence == DeployEvidenceVerified ==> AgreesSafely(root, EvidenceSummaryJson, DeployEvidenceVerified))
    && (h.receiptImport != NotProvided ==> Agrees(root, ImportSummaryJson, h.receiptImport))
    && (h.txResult == TxResultVerified ==>
          && Agrees(root, TxResultJson, TxResultVerified)
          && AgreesSafely(root, TxEvidenceSummaryJson, TxEvidenceVerified) && h.txEvidence == TxEvidenceVerified
          && AgreesSafely(root, DraftJson, h.draft))
    && (h.capability == CapabilityVerified ==>
          AgreesSafely(root, CapabilitySummaryJson, CapabilityVerified) && root.doc(CapabilitySummaryJson).operatorId == h.operatorId)
    && (h.hardening == HardeningVerified ==> AgreesSafely(root, HardeningSummaryJson, HardeningVerified))
  }

  /** The conjunction the verdict rests on. */
  predicate ReadyStatuses(h: Handoff) {
    && h.status == ReadyForOperatorDeploy && h.supported
    && h.procedure == GenesisOperationReady
    && h.operatorReceipts == ReadyForStatusRecording
    && h.deployEvidence == DeployEvidenceVerified
    && h.txRequest == MetricsOperatorReady
    && h.metricsProcedure == MetricsOperationReady
    && h.txResult == TxResultVerified
    && h.txEvidence == TxEvidenceVerified
    && h.draft == OracleDraftReady
    && h.hardening == HardeningVerified
    && h.blockers == []
  }

  /** What validate_handoff refuses outright. */
  ghost predicate Acceptable(root: Root) {
    var h := root.summary;
    && SummaryJson in root.files && CleanKeys(root.keys(SummaryJson))
    && (h.status == HandoffBlocked || h.status == ReadyForOperatorDeploy) && h.safe
    && h.included == root.files
    && (forall f :: Required(h, f) ==> f in root.files)
    && ComponentsAgree(root)
    && (h.status == HandoffBlocked <==> h.blockers != [])
  }

  /** validate_handoff. */
  method Audit(root: Root) returns (v: Verdict)
    ensures v == Refused <==> !Acceptable(root)
    ensures v == RolloutReady <==> Acceptable(root) && ReadyStatuses(root.summary)
  {
    hide Required;
    hide ComponentsAgree;
    hide ReadyStatuses;
    var h := root.summary;
    if SummaryJson !in root.files || !CleanKeys(root.keys(SummaryJson)) {
      return Refused;
    }
    if h.status != HandoffBlocked && h.status != ReadyForOperatorDeploy {
      return Refused;
    }
    if !h.safe || h.included != root.files {
      return Refused;
    }
    var required := RequiredFiles(h);
    if !(required <= root.files) {
      return Refused;
    }
    if !ComponentsAgree(root) {
      return Refused;
    }
    if (h.status == HandoffBlocked && h.blockers == []) || (h.status == ReadyForOperatorDeploy && h.blockers != []) {
      return Refused;
    }
    return if ReadyStatuses(h) then RolloutReady else RolloutBlocked;
  }

  // ----- the builder -----

  /** Which optional inputs the operator gave. */
  datatype Options = Options(
    orchestratorResults: bool, operatorReceipts: bool, deployEvidence: bool, txResult: bool, txEvidence: bool,
    capability: bool, hardening: bool)

  datatype Plan = Plan(sandbox: bool, supported: bool, blockers: seq<Text>)

  /** What the release tools return for these inputs; None where a tool fails. */
  datatype Tools = Tools(
    plan: Plan, requestNames: set<Text>, requests: Doc, requestCheck: Doc, procedure: Doc, receiptImport: Option<Doc>,
    ciReceipts: ReceiptSummary, operatorReceipts: Option<ReceiptSummary>, deployEvidence: Option<EvidenceSummary>,
    report: Doc, txRequest: Doc, txBlockers: seq<Text>, metricsProcedure: Option<Doc>, txResult: Option<Doc>,
    txEvidence: Option<Doc>, draft: Option<Doc>, capability: Option<Doc>, hardening: Option<Doc>,
    keys: File -> set<Text>)
  {
    predicate TxReady() {
      txRequest.status == MetricsOperatorReady
    }
  }

  function StatusOr(d: Option<Doc>, given: bool, otherwise: ReleaseStatus): ReleaseStatus {
    if given && d.Some? then d.value.status else otherwise
  }

  /** When status_from_components finds nothing missing. */
  predicate Complete(t: Tools, receipts: bool, evidence: bool, txResult: bool, txEvidence: bool, hardening: bool) {
    && !t.plan.sandbox && (t.plan.supported || t.plan.blockers == [])
    && receipts && evidence
    && (if t.TxReady() then txResult && txEvidence else t.txBlockers == [])
    && hardening
  }

  function DeployReasons(why: seq<Text>): (es: seq<Blocker>)
    ensures |es| == |why| && forall e :: e in es <==> e.DeployBlocked? && e.why in why
  {
    if why == [] then [] else [DeployBlocked(why[0])] + DeployReasons(why[1..])
  }

  function TxReasons(why: seq<Text>): (es: seq<Blocker>)
    ensures |es| == |why| && forall e :: e in es <==> e.TxBlocked? && e.why in why
  {
    if why == [] then [] else [TxBlocked(why[0])] + TxReasons(why[1..])
  }

  /** What status_from_components lists. */
  predicate Blocks(t: Tools, receipts: bool, evidence: bool, txResult: bool, txEvidence: bool, hardening: bool, e: Blocker) {
    match e
    case SandboxOnly => t.plan.sandbox
    case DeployBlocked(why) => !t.plan.supported && why in t.plan.blockers
    case MissingReceipts => !receipts
    case MissingDeployEvidence => receipts && !evidence
    case TxBlocked(why) => !t.TxReady() && why in t.txBlockers
    case MissingTxResult => t.TxReady() && !txResult
    case MissingTxEvidence => t.TxReady() && txResult && !txEvidence
    case MissingHardening => !hardening
  }

  /** status_from_components. */
  method StatusFromComponents(t: Tools, receipts: bool, evidence: bool, txResult: bool, txEvidence: bool, hardening: bool)
      returns (status: ReleaseStatus, blockers: seq<Blocker>)
    ensures forall e :: e in blockers <==> Blocks(t, receipts, evidence, txResult, txEvidence, hardening, e)
    ensures blockers == [] <==> Complete(t, receipts, evidence, txResult, txEvidence, hardening)
    ensures status == if blockers == [] then ReadyForOperatorDeploy else HandoffBlocked
  {
    var deploy := DeployBlockers(t, receipts, evidence);
    var oracle := OracleBlockers(t, txResult, txEvidence);
    blockers := deploy + oracle;
    if !hardening {
      blockers := blockers + [MissingHardening];
    }
    status := if blockers == [] then ReadyForOperatorDeploy else HandoffBlocked;
  }

  /** Its first half: the deploy plan and the receipts. */
  method DeployBlockers(t: Tools, receipts: bool, evidence: bool) returns (blockers: seq<Blocker>)
    ensures forall e :: e in blockers <==>
      (e.SandboxOnly? || e.DeployBlocked? || e.MissingReceipts? || e.MissingDeployEvidence?) &&
      Blocks(t, receipts, evidence, false, false, false, e)
    ensures blockers == [] <==> !t.plan.sandbox && (t.plan.supported || t.plan.blockers == []) && receipts && evidence
  {
    blockers := [];
    if t.plan.sandbox {
      blockers := blockers + [SandboxOnly];
    }
    if !t.plan.supported {
      blockers := blockers + DeployReasons(t.plan.blockers);
    }
    if !receipts {
      blockers := blockers + [MissingReceipts];
    } else if !evidence {
      blockers := blockers + [MissingDeployEvidence];
    }
  }

  /** Its second half: the oracle transaction. */
  method OracleBlockers(t: Tools, txResult: bool, txEvidence: bool) returns (blockers: seq<Blocker>)
    ensures forall e :: e in blockers <==>
      (e.TxBlocked? || e.MissingTxResult? || e.MissingTxEvidence?) && Blocks(t, false, false, txResult, txEvidence, false, e)
    ensures blockers == [] <==> if t.TxReady() then txResult && txEvidence else t.txBlockers == []
  {
    blockers := [];
    if !t.TxReady() {
      blockers := TxReasons(t.txBlockers);
    } else if !txResult {
      blockers := [MissingTxResult];
    } else if !txEvidence {
      blockers := [MissingTxEvidence];
    }
  }

  /** The tools the builder runs, in its terms. */
  datatype Tool =
    | Packaging | Preflight | Requesting | RequestChecking | ProcedureWriting | Importing | CiChecking | ReceiptChecking
    | EvidenceChecking | Reporting | TxRequesting | MetricsProcedureWriting | TxResultChecking | TxEvidenceChecking
    | Drafting | CapabilityChecking | HardeningChecking | Summarizing

  /** The files a tool leaves in the package. */
  function FilesOf(t: Tools, tool: Tool): (fs: set<File>)
    ensures TxEvidenceJson in fs <==> tool == TxEvidenceChecking
  {
    match tool
    case Packaging => {Archive}
    case Preflight => {PreflightJson, PreflightMd}
    case Requesting => {RequestSetJson, RequestsMd} + set n | n in t.requestNames :: RequestFile(n)
    case RequestChecking => {RequestCheckJson, RequestCheckMd}
    case ProcedureWriting => {ProcedureJson, ProcedureMd}
    case Importing => {ImportedReceiptsJson, ImportSummaryJson, ImportMd}
    case CiChecking => {CiSummaryJson, CiRunbookMd}
    case ReceiptChecking => {OperatorSummaryJson, OperatorRunbookMd}
    case EvidenceChecking => {EvidenceJson, EvidenceSummaryJson, EvidenceMd}
    case Reporting => {ReportJson, ReportMd}
    case TxRequesting => {TxRequestJson, TxRequestMd}
    case MetricsProcedureWriting => {MetricsProcedureJson, MetricsProcedureMd}
    case TxResultChecking => {TxResultJson, TxResultMd}
    case TxEvidenceChecking => {TxEvidenceJson, TxEvidenceSummaryJson, TxEvidenceMd}
    case Drafting => {DraftJson, DraftMd}
    case CapabilityChecking => {CapabilityJson, CapabilitySummaryJson, CapabilityMd}
    case HardeningChecking => {HardeningJson, HardeningSummaryJson, HardeningMd}
    case Summarizing => {SummaryJson, HandoffMd}
  }

  /** What the audit will read in each JSON file. The receipt and evidence summaries and the preflight
      plan have fixed keys and safety flags. */
  function Written(t: Tools, f: File): Doc {
    match f
    case PreflightJson => Doc(NotProvided, false, t.plan.supported, [])
    case RequestSetJson => t.requests
    case RequestCheckJson => t.requestCheck
    case ProcedureJson => t.procedure
    case CiSummaryJson => SummaryDoc(ReceiptStatus(IsCanary(t.ciReceipts.profile), t.ciReceipts.operatorRecord))
    case ReportJson => t.report
    case TxRequestJson => t.txRequest
    case MetricsProcedureJson => OrEmpty(t.metricsProcedure)
    case OperatorSummaryJson =>
      if t.operatorReceipts.Some?
      then SummaryDoc(ReceiptStatus(IsCanary(t.operatorReceipts.value.profile), t.operatorReceipts.value.operatorRecord))
      else SummaryDoc(NotProvided)
    case EvidenceSummaryJson =>
      if t.deployEvidence.Some? then SummaryDoc(EvidenceStatus(IsCanary(t.deployEvidence.value.profile))) else SummaryDoc(NotProvided)
    case ImportSummaryJson => OrEmpty(t.receiptImport)
    case TxResultJson => OrEmpty(t.txResult)
    case TxEvidenceSummaryJson => OrEmpty(t.txEvidence)
    case DraftJson => OrEmpty(t.draft)
    case CapabilitySummaryJson => OrEmpty(t.capability)
    case HardeningSummaryJson => OrEmpty(t.hardening)
    case _ => SummaryDoc(NotProvided)
  }

  function SummaryDoc(status: ReleaseStatus): Doc {
    Doc(status, true, false, [])
  }

  function OrEmpty(d: Option<Doc>): Doc {
    if d.Some? then d.value else SummaryDoc(NotProvided)
  }

  /** Receipts are checked when given, or imported from orchestrator results. */
  predicate ChecksReceipts(o: Options) {
    o.operatorReceipts || o.orchestratorResults
  }

  /** When the builder gets to the end: every tool it runs succeeds, and evidence comes with what it is about. */
  predicate Runs(o: Options, t: Tools) {
    && (o.orchestratorResults ==> t.receiptImport.Some?)
    && (ChecksReceipts(o) ==> t.operatorReceipts.Some?)
    && (o.deployEvidence ==> ChecksReceipts(o) && t.deployEvidence.Some?)
    && (t.TxReady() ==> t.metricsProcedure.Some?)
    && (o.txResult ==> t.txResult.Some? && t.draft.Some?)
    && (o.txEvidence ==> o.txResult && t.txEvidence.Some?)
    && (o.capability ==> t.capability.Some?)
    && (o.hardening ==> t.hardening.Some?)
  }

  predicate RunsTool(o: Options, t: Tools, tool: Tool) {
    match tool
    case Importing => o.orchestratorResults
    case ReceiptChecking => ChecksReceipts(o)
    case EvidenceChecking => o.deployEvidence
    case MetricsProcedureWriting => t.TxReady()
    case TxResultChecking => o.txResult
    case TxEvidenceChecking => o.txEvidence
    case Drafting => o.txResult
    case CapabilityChecking => o.capability
    case HardeningChecking => o.hardening
    case _ => true
  }

  /** The package holds exactly what the tools that ran wrote. */
  ghost predicate HoldsFiles(o: Options, t: Tools, files: set<File>) {
    forall f :: f in files <==> exists tool :: RunsTool(o, t, tool) && f in FilesOf(t, tool)
  }

  function SummaryOf(o: Options, t: Tools, status: ReleaseStatus, blockers: seq<Blocker>, included: set<File>): Handoff
    requires Runs(o, t)
  {
    Handoff(status, t.plan.supported, t.requests.status, t.requestCheck.status, t.procedure.status,
      StatusOr(t.receiptImport, o.orchestratorResults, NotProvided),
      Written(t, CiSummaryJson).status,
      if ChecksReceipts(o) then Written(t, OperatorSummaryJson).status else MissingOperatorRecord,
      if o.deployEvidence then Written(t, EvidenceSummaryJson).status else NotProvided,
      t.report.status, t.txRequest.status,
      if t.TxReady() then t.metricsProcedure.value.status else TxRequestBlocked,
      StatusOr(t.txResult, o.txResult, NotProvided),
      StatusOr(t.txEvidence, o.txEvidence, NotProvided),
      StatusOr(t.draft, o.txResult, NotProvided),
      StatusOr(t.capability, o.capability, NotProvided),
      if o.capability then t.capability.value.operatorId else U("NOT_PROVIDED"),
      StatusOr(t.hardening, o.hardening, NotProvided),
      true, blockers, included)
  }

  ghost predicate Collected(t: Tools, done: set<Tool>, files: set<File>) {
    forall f :: f in files <==> exists tool :: tool in done && f in FilesOf(t, tool)
  }

  /** One tool's run: its files join the package. */
  method Run(t: Tools, tool: Tool, files: set<File>, ghost done: set<Tool>) returns (now: set<File>, ghost did: set<Tool>)
    requires Collected(t, done, files)
    ensures Collected(t, did, now) && did == done + {tool}
  {
    hide FilesOf;
    now, did := files + FilesOf(t, tool), done + {tool};
  }

  /** The builder runs its tools in three stretches. */
  predicate DeployTool(tool: Tool) {
    tool.Packaging? || tool.Preflight? || tool.Requesting? || tool.RequestChecking? || tool.ProcedureWriting? ||
    tool.Importing? || tool.CiChecking? || tool.ReceiptChecking? || tool.EvidenceChecking?
  }

  predicate MetricsTool(tool: Tool) {
    tool.Reporting? || tool.TxRequesting? || tool.MetricsProcedureWriting? || tool.TxResultChecking? ||
    tool.TxEvidenceChecking? || tool.Drafting?
  }

  predicate ClosingTool(tool: Tool) {
    tool.CapabilityChecking? || tool.HardeningChecking?
  }

  predicate RunsDeploy(o: Options, t: Tools) {
    && (o.orchestratorResults ==> t.receiptImport.Some?)
    && (ChecksReceipts(o) ==> t.operatorReceipts.Some?)
    && (o.deployEvidence ==> ChecksReceipts(o) && t.deployEvidence.Some?)
  }

  predicate RunsMetrics(o: Options, t: Tools) {
    && (t.TxReady() ==> t.metricsProcedure.Some?)
    && (o.txResult ==> t.txResult.Some? && t.draft.Some?)
    && (o.txEvidence ==> o.txResult && t.txEvidence.Some?)
  }

  method RunDeployTools(o: Options, t: Tools) returns (ok: bool, files: set<File>, ghost done: set<Tool>)
    ensures ok <==> RunsDeploy(o, t)
    ensures ok ==> Collected(t, done, files) && forall tool :: tool in done <==> DeployTool(tool) && RunsTool(o, t, tool)
  {
    hide Collected;
    hide FilesOf;
    Nothing(t);
    files, done := {}, {};
    files, done := Run(t, Packaging, files, done);
    files, done := Run(t, Preflight, files, done);
    files, done := Run(t, Requesting, files, done);
    files, done := Run(t, RequestChecking, files, done);
    files, done := Run(t, ProcedureWriting, files, done);
    if o.orchestratorResults {
      if t.receiptImport.None? {
        return false, {}, {};
      }
      files, done := Run(t, Importing, files, done);
    }
    files, done := Run(t, CiChecking, files, done);
    if ChecksReceipts(o) {
      if t.operatorReceipts.None? {
        return false, {}, {};
      }
      files, done := Run(t, ReceiptChecking, files, done);
    }
    if o.deployEvidence {
      if !ChecksReceipts(o) || t.deployEvidence.None? {
        return false, {}, {};
      }
      files, done := Run(t, EvidenceChecking, files, done);
    }
    ok := true;
  }

  method RunMetricsTools(o: Options, t: Tools, before: set<File>, ghost did: set<Tool>)
      returns (ok: bool, files: set<File>, ghost done: set<Tool>)
    requires Collected(t, did, before)
    ensures ok <==> RunsMetrics(o, t)
    ensures ok ==> Collected(t, done, files)
    ensures ok ==> forall tool :: tool in done <==> tool in did || (MetricsTool(tool) && RunsTool(o, t, tool))
  {
    hide Collected;
    hide FilesOf;
    files, done := Run(t, Reporting, before, did);
    files, done := Run(t, TxRequesting, files, done);
    if t.TxReady() {
      if t.metricsProcedure.None? {
        return false, {}, {};
      }
      files, done := Run(t, MetricsProcedureWriting, files, done);
    }
    if o.txResult {
      if t.txResult.None? {
        return false, {}, {};
      }
      files, done := Run(t, TxResultChecking, files, done);
      if o.txEvidence {
        if t.txEvidence.None? {
          return false, {}, {};
        }
        files, done := Run(t, TxEvidenceChecking, files, done);
      }
      if t.draft.None? {
        return false, {}, {};
      }
      files, done := Run(t, Drafting, files, done);
    } else if o.txEvidence {
      return false, {}, {};
    }
    ok := true;
  }

  method RunClosingTools(o: Options, t: Tools, before: set<File>, ghost did: set<Tool>)
      returns (ok: bool, files: set<File>, ghost done: set<Tool>)
    requires Collected(t, did, before)
    ensures ok <==> (o.capability ==> t.capability.Some?) && (o.hardening ==> t.hardening.Some?)
    ensures ok ==> Collected(t, done, files)
    ensures ok ==> forall tool :: tool in done <==> tool in did || (ClosingTool(tool) && RunsTool(o, t, tool))
  {
    hide Collected;
    hide FilesOf;
    files, done := before, did;
    if o.capability {
      if t.capability.None? {
        return false, {}, {};
      }
      files, done := Run(t, CapabilityChecking, files, done);
    }
    if o.hardening {
      if t.hardening.None? {
        return false, {}, {};
      }
      files, done := Run(t, HardeningChecking, files, done);
    }
    ok := true;
  }

  /** Every tool belongs to one stretch or writes the summary. */
  lemma AllRan(o: Options, t: Tools, done: set<Tool>)
    requires forall tool :: tool in done <==>
      tool == Summarizing || ((DeployTool(tool) || MetricsTool(tool) || ClosingTool(tool)) && RunsTool(o, t, tool))
    ensures forall tool :: tool in done <==> RunsTool(o, t, tool)
  {
  }

  /** build_silverc_operator_handoff: the tools in order, then the summary, the runbook and the final file list. */
  method BuildHandoff(o: Options, t: Tools) returns (r: Option<Root>)
    ensures r.Some? <==> Runs(o, t)
    ensures r.Some? ==> IsHandoff(o, t, r.value)
  {
    hide Collected;
    hide FilesOf;
    hide Written;
    hide SummaryOf;
    hide Complete;
    hide Blocks;
    hide RunsTool;
    hide DeployTool;
    hide MetricsTool;
    hide ClosingTool;
    hide U;
    var ok, files, done := RunDeployTools(o, t);
    if !ok {
      return None;
    }
    ok, files, done := RunMetricsTools(o, t, files, done);
    if !ok {
      return None;
    }
    ok, files, done := RunClosingTools(o, t, files, done);
    if !ok {
      return None;
    }
    var status, blockers := StatusFromComponents(t, ChecksReceipts(o), o.deployEvidence, o.txResult, o.txEvidence, o.hardening);
    files, done := Run(t, Summarizing, files, done);
    AllRan(o, t, done);
    AllCollected(o, t, done, files);
    r := Some(Root(files, (f: File) => Written(t, f), t.keys, SummaryOf(o, t, status, blockers, files)));
    SummaryFields(o, t, status, blockers, files);
  }

  lemma Nothing(t: Tools)
    ensures Collected(t, {}, {})
  {
  }

  lemma AllCollected(o: Options, t: Tools, done: set<Tool>, files: set<File>)
    requires Collected(t, done, files) && forall tool :: tool in done <==> RunsTool(o, t, tool)
    ensures HoldsFiles(o, t, files)
  {
    hide FilesOf;
    hide RunsTool;
  }

  lemma SummaryFields(o: Options, t: Tools, status: ReleaseStatus, blockers: seq<Blocker>, included: set<File>)
    requires Runs(o, t)
    ensures var h := SummaryOf(o, t, status, blockers, included); h.status == status && h.blockers == blockers && h.included == included
  {
  }

  /** A package the builder can leave behind. */
  ghost predicate IsHandoff(o: Options, t: Tools, root: Root) {
    && Runs(o, t)
    && HoldsFiles(o, t, root.files) && (forall f :: root.doc(f) == Written(t, f)) && root.keys == t.keys
    && root.summary == SummaryOf(o, t, root.summary.status, root.summary.blockers, root.files)
    && (forall e :: e in root.summary.blockers <==>
          Blocks(t, ChecksReceipts(o), o.deployEvidence, o.txResult, o.txEvidence, o.hardening, e))
    && (root.summary.blockers == [] <==> Complete(t, ChecksReceipts(o), o.deployEvidence, o.txResult, o.txEvidence, o.hardening))
    && root.summary.status == if root.summary.blockers == [] then ReadyForOperatorDeploy else HandoffBlocked
  }

  // ----- builder against audit -----

  /** What the tools promise about their own results. */
  ghost predicate Sound(t: Tools) {
    && (!t.plan.supported ==> t.plan.blockers != [])
    && (t.txBlockers == [] <==> t.TxReady())
    && t.procedure.status == GenesisOperationReady && t.procedure.safe
    && (t.metricsProcedure.Some? ==> t.metricsProcedure.value.status == MetricsOperationReady && t.metricsProcedure.value.safe)
    && (t.txResult.Some? ==> t.txResult.value.status == TxResultVerified && t.TxReady())
    && (t.txEvidence.Some? ==> t.txEvidence.value.status == TxEvidenceVerified && t.txEvidence.value.safe)
    && (t.draft.Some? ==> t.draft.value.status == OracleDraftReady && t.draft.value.safe)
    && (t.capability.Some? ==> t.capability.value.status == CapabilityVerified && t.capability.value.safe)
    && (t.hardening.Some? ==> t.hardening.value.status == HardeningVerified && t.hardening.value.safe)
    && (t.receiptImport.Some? ==> t.receiptImport.value.status != NotProvided)
    && (t.operatorReceipts.Some? ==> t.operatorReceipts.value.operatorRecord)
    && (t.deployEvidence.Some? && t.operatorReceipts.Some? ==>
          PyEqual(Obj(t.deployEvidence.value.profile), Obj(t.operatorReceipts.value.profile)))
  }

  /** The files the audit reads with require_json. */
  predicate AuditReads(f: File) {
    f.SummaryJson? || f.PreflightJson? || f.RequestSetJson? || f.RequestCheckJson? || f.ProcedureJson? || f.CiSummaryJson? ||
    f.ReportJson? || f.TxRequestJson? || f.MetricsProcedureJson? || f.OperatorSummaryJson? || f.EvidenceSummaryJson? ||
    f.ImportSummaryJson? || f.TxResultJson? || f.TxEvidenceSummaryJson? || f.DraftJson? || f.CapabilitySummaryJson? ||
    f.HardeningSummaryJson?
  }

  /** The literal keys the tools write into those files. */
  function KeysOf(f: File): seq<AuditKeys.JsonKey> {
    match f
    case SummaryJson => ToolKeys.HANDOFF
    case PreflightJson => ToolKeys.PREFLIGHT
    case RequestSetJson => ToolKeys.REQUEST_SET
    case RequestCheckJson => ToolKeys.REQUEST_CHECK
    case ProcedureJson => ToolKeys.PROCEDURE
    case CiSummaryJson => ToolKeys.RECEIPT_SUMMARY
    case ReportJson => ToolKeys.REPORT
    case TxRequestJson => ToolKeys.TX_REQUEST
    case MetricsProcedureJson => ToolKeys.METRICS_PROCEDURE
    case OperatorSummaryJson => ToolKeys.RECEIPT_SUMMARY
    case EvidenceSummaryJson => ToolKeys.EVIDENCE_SUMMARY
    case ImportSummaryJson => ToolKeys.IMPORT_SUMMARY
    case TxResultJson => ToolKeys.TX_RESULT
    case TxEvidenceSummaryJson => ToolKeys.TX_EVIDENCE
    case DraftJson => ToolKeys.DRAFT
    case CapabilitySummaryJson => ToolKeys.CAPABILITY
    case HardeningSummaryJson => ToolKeys.HARDENING
    case _ => []
  }

  function KeyTexts(f: File): set<Text> {
    set k | k in KeysOf(f) :: AuditKeys.KeyText(k)
  }

  /** The files the audit reads have no key but those the tools write. */
  ghost predicate KeysKnown(t: Tools) {
    forall f :: AuditReads(f) ==> t.keys(f) <= KeyTexts(f)
  }

  lemma CleanFile(t: Tools, f: File)
    requires KeysKnown(t) && AuditReads(f)
    ensures CleanKeys(t.keys(f))
  {
    hide AuditKeys.IsForbidden;
    hide AuditKeys.KeyText;
    hide KeysOf;
    forall k | k in t.keys(f) ensures !AuditKeys.IsForbidden(k) {
      var key :| key in KeysOf(f) && k == AuditKeys.KeyText(key);
      AuditKeys.KeyIsAllowed(key);
    }
  }

  lemma SameKind(a: Document, b: Document)
    requires PyEqual(Obj(a), Obj(b))
    ensures IsCanary(a) <==> IsCanary(b)
  {
    hide U;
    hide Canary;
    hide CanaryKind;
    assert ProfileName in a.Keys <==> ProfileName in b.Keys;
    assert Kind in a.Keys <==> Kind in b.Keys;
    assert ProfileName in a ==> PyEqual(a[ProfileName], b[ProfileName]);
    assert Kind in a ==> PyEqual(a[Kind], b[Kind]);
  }

  lemma HasFiles(o: Options, t: Tools, files: set<File>, tool: Tool)
    requires HoldsFiles(o, t, files) && RunsTool(o, t, tool)
    ensures FilesOf(t, tool) <= files
  {
    hide FilesOf;
  }

  lemma HasBaseFiles(o: Options, t: Tools, files: set<File>)
    requires HoldsFiles(o, t, files)
    ensures BASE_FILES <= files
  {
    hide HoldsFiles;
    HasFiles(o, t, files, Packaging);
    HasFiles(o, t, files, Preflight);
    HasFiles(o, t, files, Requesting);
    HasFiles(o, t, files, RequestChecking);
    HasFiles(o, t, files, ProcedureWriting);
    HasFiles(o, t, files, CiChecking);
    HasFiles(o, t, files, Reporting);
    HasFiles(o, t, files, TxRequesting);
    HasFiles(o, t, files, Summarizing);
  }

  lemma HasOptionalFiles(o: Options, t: Tools, files: set<File>)
    requires HoldsFiles(o, t, files)
    ensures ChecksReceipts(o) ==> OPERATOR_RECEIPT_FILES <= files
    ensures o.deployEvidence ==> DEPLOY_EVIDENCE_FILES <= files
    ensures o.orchestratorResults ==> IMPORT_FILES <= files
    ensures t.TxReady() ==> METRICS_PROCEDURE_FILES <= files
    ensures o.capability ==> CAPABILITY_FILES <= files
    ensures o.hardening ==> HARDENING_FILES <= files
  {
    hide HoldsFiles;
    if ChecksReceipts(o) { HasFiles(o, t, files, ReceiptChecking); }
    if o.deployEvidence { HasFiles(o, t, files, EvidenceChecking); }
    if o.orchestratorResults { HasFiles(o, t, files, Importing); }
    if t.TxReady() { HasFiles(o, t, files, MetricsProcedureWriting); }
    if o.capability { HasFiles(o, t, files, CapabilityChecking); }
    if o.hardening { HasFiles(o, t, files, HardeningChecking); }
  }

  lemma HasTxFiles(o: Options, t: Tools, files: set<File>)
    requires HoldsFiles(o, t, files)
    ensures o.txResult && o.txEvidence ==> TX_RESULT_FILES <= files
    ensures TxEvidenceJson in files <==> o.txEvidence
  {
    hide HoldsFiles;
    EvidencePresent(o, t, files);
    if o.txResult && o.txEvidence {
      HasFiles(o, t, files, TxResultChecking);
      HasFiles(o, t, files, TxEvidenceChecking);
      HasFiles(o, t, files, Drafting);
    }
  }

  lemma EvidencePresent(o: Options, t: Tools, files: set<File>)
    requires HoldsFiles(o, t, files)
    ensures TxEvidenceJson in files <==> o.txEvidence
  {
    hide FilesOf;
    assert TxEvidenceJson in FilesOf(t, TxEvidenceChecking);
    assert RunsTool(o, t, TxEvidenceChecking) == o.txEvidence;
  }

  /** The statuses a package's summary reports, given what the tools promise. */
  lemma ReportedStatuses(o: Options, t: Tools, root: Root)
    requires Sound(t) && IsHandoff(o, t, root)
    ensures var h := root.summary;
      && h.procedure == GenesisOperationReady && h.supported == t.plan.supported && h.safe
      && (h.receiptImport != NotProvided <==> o.orchestratorResults)
      && (h.txRequest == MetricsOperatorReady <==> t.TxReady())
      && (t.TxReady() ==> h.metricsProcedure == MetricsOperationReady)
      && (h.txResult == TxResultVerified <==> o.txResult) && (h.txEvidence == TxEvidenceVerified <==> o.txEvidence)
      && (o.txResult ==> h.draft == OracleDraftReady)
      && (h.capability == CapabilityVerified <==> o.capability) && (h.hardening == HardeningVerified <==> o.hardening)
  {
    hide CleanKeys;
    hide KeysKnown;
    hide IsCanary;
    hide HoldsFiles;
    hide Written;
    hide Complete;
    hide U;
    hide PyEqual;
  }

  /** What the receipt and evidence summaries say. */
  lemma ReceiptStatuses(t: Tools)
    requires Sound(t)
    ensures t.operatorReceipts.Some? ==>
      Written(t, OperatorSummaryJson).status == ReceiptStatus(IsCanary(t.operatorReceipts.value.profile), true)
    ensures t.operatorReceipts.Some? && t.deployEvidence.Some? ==>
      Written(t, EvidenceSummaryJson).status == EvidenceStatus(IsCanary(t.operatorReceipts.value.profile))
  {
    hide KeysKnown;
    hide IsCanary;
    hide ReceiptStatus;
    hide EvidenceStatus;
    hide PyEqual;
    if t.operatorReceipts.Some? && t.deployEvidence.Some? {
      SameKind(t.deployEvidence.value.profile, t.operatorReceipts.value.profile);
    }
  }

  /** Receipt and evidence statuses tell a full release from a canary. */
  lemma ReportedReceipts(o: Options, t: Tools, root: Root)
    requires Sound(t) && IsHandoff(o, t, root)
    ensures var h := root.summary;
      && (h.operatorReceipts == ReadyForStatusRecording <==> ChecksReceipts(o) && !IsCanary(t.operatorReceipts.value.profile))
      && (h.deployEvidence == DeployEvidenceVerified <==> o.deployEvidence && !IsCanary(t.operatorReceipts.value.profile))
  {
    hide Sound;
    hide IsHandoff;
    hide HoldsFiles;
    hide Written;
    hide IsCanary;
    hide U;
    DocAt(o, t, root, Archive);
    ReceiptStatuses(t);
  }

  lemma RequiredPresent(o: Options, t: Tools, root: Root)
    requires Sound(t) && IsHandoff(o, t, root)
    ensures (forall f :: Required(root.summary, f) ==> f in root.files) <==> (o.txResult ==> o.txEvidence)
  {
    hide CleanKeys;
    hide KeysKnown;
    hide IsHandoff;
    HandoffHoldsFiles(o, t, root);
    hide HoldsFiles;
    hide Sound;
    hide IsCanary;
    hide Runs;
    ReportedStatuses(o, t, root);
    ReportedReceipts(o, t, root);
    HasBaseFiles(o, t, root.files);
    HasOptionalFiles(o, t, root.files);
    HasTxFiles(o, t, root.files);
    if o.txResult && !o.txEvidence {
      assert Required(root.summary, TxEvidenceJson);
    }
  }

  lemma HandoffHoldsFiles(o: Options, t: Tools, root: Root)
    requires IsHandoff(o, t, root)
    ensures HoldsFiles(o, t, root.files) && Runs(o, t)
  {
  }

  lemma DocAt(o: Options, t: Tools, root: Root, f: File)
    requires IsHandoff(o, t, root)
    ensures root.doc(f) == Written(t, f)
    ensures Runs(o, t) && HoldsFiles(o, t, root.files)
    ensures root.summary == SummaryOf(o, t, root.summary.status, root.summary.blockers, root.files)
  {
    hide Written;
    hide HoldsFiles;
    hide SummaryOf;
    hide Runs;
    hide Complete;
  }

  /** The component files of a package agree with its summary exactly when a
      transaction result came with its public evidence. */
  lemma BuiltComponentsAgree(o: Options, t: Tools, root: Root)
    requires Sound(t) && KeysKnown(t) && IsHandoff(o, t, root)
    ensures ComponentsAgree(root) <==> (o.txResult ==> o.txEvidence)
  {
    hide CleanKeys;
    hide KeysKnown;
    hide HoldsFiles;
    hide IsCanary;
    hide Complete;
    hide U;
    hide PyEqual;
    BaseComponents(o, t, root);
    ReceiptComponents(o, t, root);
    OtherComponents(o, t, root);
    TxComponents(o, t, root);
    ReportedStatuses(o, t, root);
    ReportedReceipts(o, t, root);
    hide Agrees;
    hide AgreesSafely;
    hide SummaryOf;
    hide Written;
    hide Sound;
  }

  lemma PlacedBase(t: Tools)
    ensures PreflightJson in FilesOf(t, Preflight) && RequestSetJson in FilesOf(t, Requesting)
    ensures RequestCheckJson in FilesOf(t, RequestChecking) && ProcedureJson in FilesOf(t, ProcedureWriting)
    ensures CiSummaryJson in FilesOf(t, CiChecking) && ReportJson in FilesOf(t, Reporting)
    ensures TxRequestJson in FilesOf(t, TxRequesting)
  {
  }

  lemma PlacedReceipts(t: Tools)
    ensures OperatorSummaryJson in FilesOf(t, ReceiptChecking)
    ensures EvidenceSummaryJson in FilesOf(t, EvidenceChecking) && ImportSummaryJson in FilesOf(t, Importing)
  {
  }

  lemma PlacedOthers(t: Tools)
    ensures MetricsProcedureJson in FilesOf(t, MetricsProcedureWriting)
    ensures CapabilitySummaryJson in FilesOf(t, CapabilityChecking)
    ensures HardeningSummaryJson in FilesOf(t, HardeningChecking)
  {
  }

  lemma PlacedTx(t: Tools)
    ensures TxResultJson in FilesOf(t, TxResultChecking) && DraftJson in FilesOf(t, Drafting)
    ensures TxEvidenceSummaryJson in FilesOf(t, TxEvidenceChecking)
  {
  }

  /** A file a tool wrote, as the audit finds it. */
  lemma Component(o: Options, t: Tools, root: Root, tool: Tool, f: File)
    requires KeysKnown(t) && IsHandoff(o, t, root) && RunsTool(o, t, tool) && f in FilesOf(t, tool) && AuditReads(f)
    ensures f in root.files && root.doc(f) == Written(t, f) && CleanKeys(root.keys(f))
  {
    hide CleanKeys;
    hide KeysKnown;
    CleanFile(t, f);
    hide FilesOf;
    hide Written;
    hide SummaryOf;
    hide RunsTool;
    hide Runs;
    hide Complete;
  }

  /** The component files hold what the tools returned. */
  lemma WrittenBase(t: Tools)
    ensures Written(t, PreflightJson).supported == t.plan.supported
    ensures Written(t, RequestSetJson) == t.requests && Written(t, RequestCheckJson) == t.requestCheck
    ensures Written(t, ProcedureJson) == t.procedure && Written(t, ReportJson) == t.report
    ensures Written(t, TxRequestJson) == t.txRequest
  {
    hide IsCanary;
    hide ReceiptStatus;
  }

  lemma WrittenReceipts(t: Tools)
    ensures Written(t, EvidenceSummaryJson).safe
    ensures t.receiptImport.Some? ==> Written(t, ImportSummaryJson) == t.receiptImport.value
  {
    hide IsCanary;
    hide ReceiptStatus;
    hide EvidenceStatus;
  }

  lemma WrittenOthers(t: Tools)
    ensures t.metricsProcedure.Some? ==> Written(t, MetricsProcedureJson) == t.metricsProcedure.value
    ensures t.capability.Some? ==> Written(t, CapabilitySummaryJson) == t.capability.value
    ensures t.hardening.Some? ==> Written(t, HardeningSummaryJson) == t.hardening.value
  {
  }

  lemma WrittenTx(t: Tools)
    ensures t.txResult.Some? ==> Written(t, TxResultJson) == t.txResult.value
    ensures t.txEvidence.Some? ==> Written(t, TxEvidenceSummaryJson) == t.txEvidence.value
    ensures t.draft.Some? ==> Written(t, DraftJson) == t.draft.value
  {
  }

  lemma BaseComponents(o: Options, t: Tools, root: Root)
    requires Sound(t) && KeysKnown(t) && IsHandoff(o, t, root)
    ensures var h := root.summary;
      && PreflightJson in root.files && CleanKeys(root.keys(PreflightJson)) && root.doc(PreflightJson).supported == h.supported
      && Agrees(root, RequestSetJson, h.requests)
      && Agrees(root, RequestCheckJson, h.requestCheck)
      && AgreesSafely(root, ProcedureJson, h.procedure)
      && Agrees(root, CiSummaryJson, h.ciReceipts)
      && Agrees(root, ReportJson, h.report)
      && Agrees(root, TxRequestJson, h.txRequest)
  {
    hide CleanKeys;
    hide KeysKnown;
    hide IsHandoff;
    hide FilesOf;
    hide HoldsFiles;
    hide IsCanary;
    hide Written;
    hide U;
    hide PyEqual;
    PlacedBase(t);
    WrittenBase(t);
    DocAt(o, t, root, Archive);
    Component(o, t, root, Preflight, PreflightJson);
    Component(o, t, root, Requesting, RequestSetJson);
    Component(o, t, root, RequestChecking, RequestCheckJson);
    Component(o, t, root, ProcedureWriting, ProcedureJson);
    Component(o, t, root, CiChecking, CiSummaryJson);
    Component(o, t, root, Reporting, ReportJson);
    Component(o, t, root, TxRequesting, TxRequestJson);
  }

  lemma ReceiptComponents(o: Options, t: Tools, root: Root)
    requires Sound(t) && KeysKnown(t) && IsHandoff(o, t, root)
    ensures ChecksReceipts(o) && !IsCanary(t.operatorReceipts.value.profile) ==> Agrees(root, OperatorSummaryJson, ReadyForStatusRecording)
    ensures o.deployEvidence && !IsCanary(t.operatorReceipts.value.profile) ==>
      AgreesSafely(root, EvidenceSummaryJson, DeployEvidenceVerified)
    ensures o.orchestratorResults ==>
      Agrees(root, ImportSummaryJson, root.summary.receiptImport)
  {
    hide CleanKeys;
    hide KeysKnown;
    hide IsHandoff;
    hide FilesOf;
    hide HoldsFiles;
    hide IsCanary;
    hide Written;
    hide Sound;
    hide U;
    hide PyEqual;
    PlacedReceipts(t);
    WrittenReceipts(t);
    DocAt(o, t, root, Archive);
    ReportedReceipts(o, t, root);
    if ChecksReceipts(o) {
      Component(o, t, root, ReceiptChecking, OperatorSummaryJson);
    }
    if o.deployEvidence {
      Component(o, t, root, EvidenceChecking, EvidenceSummaryJson);
    }
    if o.orchestratorResults {
      Component(o, t, root, Importing, ImportSummaryJson);
    }
  }

  lemma OtherComponents(o: Options, t: Tools, root: Root)
    requires Sound(t) && KeysKnown(t) && IsHandoff(o, t, root)
    ensures var h := root.summary;
      && (t.TxReady() ==> AgreesSafely(root, MetricsProcedureJson, h.metricsProcedure))
      && (o.capability ==> root.doc(CapabilitySummaryJson).operatorId == h.operatorId)
      && (o.capability ==> AgreesSafely(root, CapabilitySummaryJson, CapabilityVerified))
      && (o.hardening ==> AgreesSafely(root, HardeningSummaryJson, HardeningVerified))
  {
    hide CleanKeys;
    hide KeysKnown;
    hide IsHandoff;
    hide FilesOf;
    hide HoldsFiles;
    hide IsCanary;
    hide Written;
    hide U;
    hide PyEqual;
    PlacedOthers(t);
    WrittenOthers(t);
    DocAt(o, t, root, Archive);
    if t.TxReady() {
      Component(o, t, root, MetricsProcedureWriting, MetricsProcedureJson);
    }
    if o.capability {
      Component(o, t, root, CapabilityChecking, CapabilitySummaryJson);
    }
    if o.hardening {
      Component(o, t, root, HardeningChecking, HardeningSummaryJson);
    }
  }

  lemma TxComponents(o: Options, t: Tools, root: Root)
    requires Sound(t) && KeysKnown(t) && IsHandoff(o, t, root)
    ensures var h := root.summary;
      && (o.txResult && o.txEvidence ==>
            && Agrees(root, TxResultJson, TxResultVerified)
            && AgreesSafely(root, TxEvidenceSummaryJson, TxEvidenceVerified)
            && AgreesSafely(root, DraftJson, h.draft))
  {
    hide CleanKeys;
    hide KeysKnown;
    hide IsHandoff;
    hide FilesOf;
    hide HoldsFiles;
    hide IsCanary;
    hide Written;
    hide U;
    hide PyEqual;
    PlacedTx(t);
    WrittenTx(t);
    DocAt(o, t, root, Archive);
    if o.txResult && o.txEvidence {
      Component(o, t, root, TxResultChecking, TxResultJson);
      Component(o, t, root, TxEvidenceChecking, TxEvidenceSummaryJson);
      Component(o, t, root, Drafting, DraftJson);
    }
  }

  /** The audit of a package the builder made. It refuses exactly when a transaction result came without
      public evidence; it says ready exactly when the builder said ready and the receipts are for the full
      profile. */
  lemma AuditOfBuilt(o: Options, t: Tools, root: Root)
    requires Sound(t) && KeysKnown(t) && IsHandoff(o, t, root)
    ensures Acceptable(root) <==> (o.txResult ==> o.txEvidence)
    ensures Acceptable(root) && ReadyStatuses(root.summary) <==>
      root.summary.status == ReadyForOperatorDeploy && !IsCanary(t.operatorReceipts.value.profile)
  {
    hide CleanKeys;
    hide KeysKnown;
    hide HoldsFiles;
    hide IsCanary;
    hide U;
    hide PyEqual;
    hide Required;
    hide ComponentsAgree;
    hide Written;
    CleanFile(t, SummaryJson);
    RequiredPresent(o, t, root);
    BuiltComponentsAgree(o, t, root);
    ReportedStatuses(o, t, root);
    ReportedReceipts(o, t, root);
    HasBaseFiles(o, t, root.files);
    assert SummaryJson in BASE_FILES;
  }

  /** A blocked package with a verified transaction result and no evidence for it: the builder reports
      blockers, and the audit gives no verdict at all, whatever else the package holds. */
  lemma UnevidencedResultIsRefused(o: Options, t: Tools, root: Root)
    requires Sound(t) && IsHandoff(o, t, root) && o.txResult && !o.txEvidence
    ensures root.summary.status == HandoffBlocked && !Acceptable(root)
  {
    hide HoldsFiles;
    hide IsCanary;
    hide U;
    hide PyEqual;
    hide Required;
    hide ComponentsAgree;
    hide CleanKeys;
    hide Written;
    hide SummaryOf;
    RequiredPresent(o, t, root);
  }

  /** Tools that promise nothing beyond their sources and write every key of the tables. */
  function CompleteTools(): Tools {
    var done := (status: ReleaseStatus) => Doc(status, true, true, []);
    var receipts := ReceiptSummary(Null, true, map[], [], []);
    Tools(Plan(false, true, []), {}, done(OtherStatus([])), done(OtherStatus([])), done(GenesisOperationReady), None,
      receipts, Some(receipts), Some(EvidenceSummary(Null, map[], [], [], [])), done(OtherStatus([])), done(MetricsOperatorReady), [],
      Some(done(MetricsOperationReady)), Some(done(TxResultVerified)), Some(done(TxEvidenceVerified)), Some(done(OracleDraftReady)),
      Some(done(CapabilityVerified)), Some(done(HardeningVerified)), KeyTexts)
  }

  lemma CompleteToolsAreSound()
    ensures Sound(CompleteTools()) && KeysKnown(CompleteTools())
  {
    hide KeyTexts;
    PyEqualReflexive(Obj(CompleteTools().operatorReceipts.value.profile));
  }

  /** A package with every optional input, every tool successful and every key of the tables is built,
      and the audit finds it ready. */
  method BuildReadyPackage() returns (root: Root, v: Verdict)
    ensures IsHandoff(Options(false, true, true, true, true, true, true), CompleteTools(), root)
    ensures v == RolloutReady
  {
    hide KeyTexts;
    hide Sound;
    hide KeysKnown;
    hide HoldsFiles;
    hide Written;
    hide SummaryOf;
    hide Acceptable;
    hide ReadyStatuses;
    hide U;
    var o, t := Options(false, true, true, true, true, true, true), CompleteTools();
    CompleteToolsAreSound();
    var r := BuildHandoff(o, t);
    root := r.value;
    AuditOfBuilt(o, t, root);
    v := Audit(root);
  }

  // ----- what a ready verdict says of the package -----

  /** A file that says this status, with no forbidden key and, where asked, all its safety flags false. */
  predicate FileSays(root: Root, f: File, status: ReleaseStatus, safe: bool) {
    && f in root.files && root.doc(f).status == status && (safe ==> root.doc(f).safe)
    && forall k :: k in root.keys(f) ==> !AuditKeys.IsForbidden(k)
  }

  /** The files of a ready package: every component says that it is ready. */
  predicate ReadyFiles(root: Root) {
    && PreflightJson in root.files && root.doc(PreflightJson).supported && CleanKeys(root.keys(PreflightJson))
    && FileSays(root, ProcedureJson, GenesisOperationReady, true)
    && FileSays(root, OperatorSummaryJson, ReadyForStatusRecording, false)
    && FileSays(root, EvidenceSummaryJson, DeployEvidenceVerified, true)
    && FileSays(root, TxRequestJson, MetricsOperatorReady, false)
    && FileSays(root, MetricsProcedureJson, MetricsOperationReady, true)
    && FileSays(root, TxResultJson, TxResultVerified, false)
    && FileSays(root, TxEvidenceSummaryJson, TxEvidenceVerified, true)
    && FileSays(root, DraftJson, OracleDraftReady, true)
    && FileSays(root, HardeningSummaryJson, HardeningVerified, true)
    && READY_FILES <= root.files
  }

  const READY_FILES: set<File> := {
    SummaryJson, HandoffMd, Archive, PreflightJson, PreflightMd, RequestSetJson, RequestsMd, RequestCheckJson, RequestCheckMd,
    ProcedureJson, ProcedureMd, CiSummaryJson, CiRunbookMd, ReportJson, ReportMd, TxRequestJson, TxRequestMd,
    OperatorSummaryJson, OperatorRunbookMd, EvidenceJson, EvidenceSummaryJson, EvidenceMd, TxResultJson, TxResultMd,
    TxEvidenceJson, TxEvidenceSummaryJson, TxEvidenceMd, DraftJson, DraftMd, MetricsProcedureJson, MetricsProcedureMd,
    HardeningJson, HardeningSummaryJson, HardeningMd
  }

  /** Its summary: ready without a blocker, with the same statuses, and an exact list of the files. */
  predicate ReadySummary(root: Root) {
    var h := root.summary;
    && SummaryJson in root.files && CleanKeys(root.keys(SummaryJson)) && h.safe && h.included == root.files
    && h.status == ReadyForOperatorDeploy && h.blockers == [] && h.supported
    && h.procedure == GenesisOperationReady && h.operatorReceipts == ReadyForStatusRecording
    && h.deployEvidence == DeployEvidenceVerified && h.txRequest == MetricsOperatorReady
    && h.metricsProcedure == MetricsOperationReady && h.txResult == TxResultVerified && h.txEvidence == TxEvidenceVerified
    && h.draft == OracleDraftReady && h.hardening == HardeningVerified
    && FileSays(root, RequestSetJson, h.requests, false) && FileSays(root, RequestCheckJson, h.requestCheck, false)
    && FileSays(root, CiSummaryJson, h.ciReceipts, false) && FileSays(root, ReportJson, h.report, false)
  }

  /** What comes with the two inputs a ready package may lack. */
  predicate OptionalFiles(root: Root) {
    var h := root.summary;
    && (h.receiptImport != NotProvided ==>
          {ImportedReceiptsJson, ImportSummaryJson, ImportMd} <= root.files && FileSays(root, ImportSummaryJson, h.receiptImport, false))
    && (h.capability == CapabilityVerified ==>
          && {CapabilityJson, CapabilitySummaryJson, CapabilityMd} <= root.files && FileSays(root, CapabilitySummaryJson, CapabilityVerified, true)
          && root.doc(CapabilitySummaryJson).operatorId == h.operatorId)
  }

  lemma FileSaysExactly(root: Root, f: File, status: ReleaseStatus)
    ensures FileSays(root, f, status, false) == Agrees(root, f, status) && FileSays(root, f, status, true) == AgreesSafely(root, f, status)
  {
    hide AuditKeys.IsForbidden;
  }

  /** The component checks of a ready summary, file by file. */
  predicate ReadyComponents(root: Root) {
    var h := root.summary;
    && PreflightJson in root.files && root.doc(PreflightJson).supported && CleanKeys(root.keys(PreflightJson))
    && FileSays(root, RequestSetJson, h.requests, false) && FileSays(root, RequestCheckJson, h.requestCheck, false)
    && FileSays(root, CiSummaryJson, h.ciReceipts, false) && FileSays(root, ReportJson, h.report, false)
    && FileSays(root, ProcedureJson, GenesisOperationReady, true)
    && FileSays(root, OperatorSummaryJson, ReadyForStatusRecording, false)
    && FileSays(root, EvidenceSummaryJson, DeployEvidenceVerified, true)
    && FileSays(root, TxRequestJson, MetricsOperatorReady, false)
    && FileSays(root, MetricsProcedureJson, MetricsOperationReady, true)
    && FileSays(root, TxResultJson, TxResultVerified, false)
    && FileSays(root, TxEvidenceSummaryJson, TxEvidenceVerified, true)
    && FileSays(root, DraftJson, OracleDraftReady, true)
    && FileSays(root, HardeningSummaryJson, HardeningVerified, true)
    && (h.receiptImport != NotProvided ==> FileSays(root, ImportSummaryJson, h.receiptImport, false))
    && (h.capability == CapabilityVerified ==>
          FileSays(root, CapabilitySummaryJson, CapabilityVerified, true) && root.doc(CapabilitySummaryJson).operatorId == h.operatorId)
  }

  lemma ReadyComponentsExactly(root: Root)
    requires ReadyStatuses(root.summary)
    ensures ComponentsAgree(root) <==> ReadyComponents(root)
  {
    hide FileSays;
    hide Agrees;
    hide AgreesSafely;
    hide CleanKeys;
    var h := root.summary;
    FileSaysExactly(root, RequestSetJson, h.requests);
    FileSaysExactly(root, RequestCheckJson, h.requestCheck);
    FileSaysExactly(root, CiSummaryJson, h.ciReceipts);
    FileSaysExactly(root, ReportJson, h.report);
    FileSaysExactly(root, ProcedureJson, GenesisOperationReady);
    FileSaysExactly(root, OperatorSummaryJson, ReadyForStatusRecording);
    FileSaysExactly(root, EvidenceSummaryJson, DeployEvidenceVerified);
    FileSaysExactly(root, TxRequestJson, MetricsOperatorReady);
    FileSaysExactly(root, MetricsProcedureJson, MetricsOperationReady);
    FileSaysExactly(root, TxResultJson, TxResultVerified);
    FileSaysExactly(root, TxEvidenceSummaryJson, TxEvidenceVerified);
    FileSaysExactly(root, DraftJson, OracleDraftReady);
    FileSaysExactly(root, HardeningSummaryJson, HardeningVerified);
    FileSaysExactly(root, ImportSummaryJson, h.receiptImport);
    FileSaysExactly(root, CapabilitySummaryJson, CapabilityVerified);
  }

  /** Whoever wrote the package, the audit says ROLLOUT_READY exactly when summary and files all say so. */
  lemma ReadyExactly(root: Root)
    ensures Acceptable(root) && ReadyStatuses(root.summary) <==> ReadySummary(root) && ReadyFiles(root) && OptionalFiles(root)
  {
    hide FileSays;
    hide CleanKeys;
    hide ComponentsAgree;
    hide Required;
    hide READY_FILES;
    SummaryListed();
    if ReadyStatuses(root.summary) {
      ReadyComponentsExactly(root);
      RequiredReady(root);
    }
  }

  lemma SummaryListed()
    ensures SummaryJson in READY_FILES
  {
  }

  lemma RequiredReady(root: Root)
    requires ReadyStatuses(root.summary)
    ensures (forall f :: Required(root.summary, f) ==> f in root.files) <==>
      && READY_FILES <= root.files
      && (root.summary.receiptImport != NotProvided ==> {ImportedReceiptsJson, ImportSummaryJson, ImportMd} <= root.files)
      && (root.summary.capability == CapabilityVerified ==> {CapabilityJson, CapabilitySummaryJson, CapabilityMd} <= root.files)
  {
  }

  // ----- what a ready verdict rests on -----

  /** The receipts and evidence in a package come from documents the verifiers accepted. */
  ghost predicate Verified(
      pats: Patterns, digest: Hexdigest, m: Document, names: seq<Text>, receipts: Document, evidence: Document, t: Tools)
    requires IsManifest(m, names)
  {
    && t.operatorReceipts.Some? && t.deployEvidence.Some?
    && ReceiptsAccepted(pats, digest, receipts, m, names, true)
    && IsSummary(t.operatorReceipts.value, digest, receipts, m, names)
    && EvidenceAccepted(pats, digest, evidence, receipts, t.operatorReceipts.value, m, names)
    && IsEvidenceSummary(t.deployEvidence.value, digest, evidence, t.operatorReceipts.value)
  }

  /** One evidence line per receipt line, with at least its confirmations, of which there is one. */
  ghost predicate EvidenceConfirms(e: EvidenceSummary, s: ReceiptSummary, n: nat) {
    && |e.contracts| == |s.contracts| == n
    && forall i :: 0 <= i < n ==>
         e.contracts[i].receipt == s.contracts[i] && e.contracts[i].evidenceConfirmations >= s.contracts[i].confirmations >= 1
  }

  /** The ready statuses are those of full-profile operator records. */
  lemma ReadyReceipts(o: Options, t: Tools, root: Root)
    requires Sound(t) && IsHandoff(o, t, root) && ReadyStatuses(root.summary) && t.operatorReceipts.Some?
    ensures t.operatorReceipts.value.operatorRecord && !IsCanary(t.operatorReceipts.value.profile)
  {
    hide HoldsFiles;
    hide IsCanary;
    hide U;
    hide PyEqual;
    hide Written;
    hide SummaryOf;
    ReportedReceipts(o, t, root);
  }

  /** If the audit says ROLLOUT_READY, the receipts are operator records under the full profile, one per
      manifest contract in manifest order with the manifest's hashes, and the evidence repeats every
      receipt's own instance, transaction, block and score with at least as many confirmations as the
      receipt's, which are at least one. */
  lemma ReadyRestsOnFullReceipts(
      o: Options, t: Tools, root: Root, pats: Patterns, digest: Hexdigest, m: Document, names: seq<Text>, receipts: Document,
      evidence: Document)
    requires Sound(t) && IsHandoff(o, t, root) && Acceptable(root) && ReadyStatuses(root.summary)
    requires IsManifest(m, names) && Distinct(names) && Verified(pats, digest, m, names, receipts, evidence, t)
    ensures var s, e := t.operatorReceipts.value, t.deployEvidence.value;
      && s.operatorRecord && !IsCanary(s.profile) && CoversRelease(s, receipts, m, names)
      && e.receiptsSha == digest(Obj(receipts)) && EvidenceConfirms(e, s, |names|) && EvidenceRepeats(evidence, receipts)
  {
    hide EvidenceRepeats;
    hide EvidenceHeader;
    hide IsCanary;
    hide Acceptable;
    hide ReadyStatuses;
    hide IsManifest;
    hide Distinct;
    hide ReceiptsAccepted;
    hide EvidenceAccepted;
    hide IsSummary;
    hide IsEvidenceSummary;
    hide CoversRelease;
    hide EvidenceConfirms;
    hide Sound;
    hide IsHandoff;
    ReadyReceipts(o, t, root);
    FullReceiptsCover(pats, digest, receipts, m, names, true, t.operatorReceipts.value);
    EvidenceOfCovered(digest, m, names, receipts, evidence, t.operatorReceipts.value, t.deployEvidence.value);
    AcceptedEvidenceRepeats(pats, digest, evidence, receipts, t.operatorReceipts.value, m, names, true);
  }

  /** Evidence accepted for receipts that cover the release confirms each of them. */
  lemma EvidenceOfCovered(
      digest: Hexdigest, m: Document, names: seq<Text>, receipts: Document, evidence: Document, s: ReceiptSummary,
      e: EvidenceSummary)
    requires IsManifest(m, names) && IsSummary(s, digest, receipts, m, names) && CoversRelease(s, receipts, m, names)
    requires IsEvidenceSummary(e, digest, evidence, s)
    ensures e.receiptsSha == digest(Obj(receipts)) && EvidenceConfirms(e, s, |names|)
  {
    hide IsManifest;
    hide PyEqual;
    hide KeysAllowed;
    hide U;
    hide IsLine;
    hide ReceiptMatches;
    hide LineSays;
  }
}
