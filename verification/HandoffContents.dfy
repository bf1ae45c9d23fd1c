/**
  The handoff package as a reader finds it: for every file when it is there, and for every
  status of the summary what decided it.
 */
module HandoffContents {
  import opened Texts
  import opened CanonicalJson
  import opened DeploymentProfiles
  import opened ReleaseReceipts
  import opened ReleaseHandoff
  import AuditKeys

  /** When a file is part of the package, file by file. */
  predicate FileMade(o: Options, t: Tools, f: File) {
    match f
    case ImportedReceiptsJson | ImportSummaryJson | ImportMd => o.orchestratorResults
    case OperatorSummaryJson | OperatorRunbookMd => o.operatorReceipts || o.orchestratorResults
    case EvidenceJson | EvidenceSummaryJson | EvidenceMd => o.deployEvidence
    case MetricsProcedureJson | MetricsProcedureMd => t.txRequest.status == MetricsOperatorReady
    case TxResultJson | TxResultMd | DraftJson | DraftMd => o.txResult
    case TxEvidenceJson | TxEvidenceSummaryJson | TxEvidenceMd => o.txEvidence
    case CapabilityJson | CapabilitySummaryJson | CapabilityMd => o.capability
    case HardeningJson | HardeningSummaryJson | HardeningMd => o.hardening
    case RequestFile(name) => name in t.requestNames
    case _ => true
  }

  predicate ClaimsCanary(profile: Document) {
    Get(profile, ProfileName) == Str(U("testnet-10-") + U("validator-staking-h001")) && Get(profile, Kind) == Str(U("canary"))
  }

  /** The status a receipt check ends with. */
  predicate ReceiptsEnd(s: ReceiptSummary, status: ReleaseStatus) {
    && (s.operatorRecord && !ClaimsCanary(s.profile) ==> status == ReadyForStatusRecording)
    && (s.operatorRecord && ClaimsCanary(s.profile) ==> status == CanaryReceiptsVerified)
    && (!s.operatorRecord && !ClaimsCanary(s.profile) ==> status == CiFixtureValid)
    && (!s.operatorRecord && ClaimsCanary(s.profile) ==> status == CanaryCiFixtureValid)
  }

  predicate EvidenceEnds(e: EvidenceSummary, status: ReleaseStatus) {
    && (ClaimsCanary(e.profile) ==> status == CanaryEvidenceVerified)
    && (!ClaimsCanary(e.profile) ==> status == DeployEvidenceVerified)
  }

  /** A status taken from an optional tool's document, or the word for its absence. */
  predicate Taken(given: bool, d: Option<Doc>, status: ReleaseStatus) {
    (given ==> d.Some? && status == d.value.status) && (!given ==> status == NotProvided)
  }

  /** The tools that always run, and the procedure that a ready transaction request adds. */
  predicate CoreSays(t: Tools, h: Handoff) {
    && h.supported == t.plan.supported && h.requests == t.requests.status && h.requestCheck == t.requestCheck.status
    && h.procedure == t.procedure.status && h.report == t.report.status && h.txRequest == t.txRequest.status && h.safe
    && (t.txRequest.status == MetricsOperatorReady ==> t.metricsProcedure.Some? && h.metricsProcedure == t.metricsProcedure.value.status)
    && (t.txRequest.status != MetricsOperatorReady ==> h.metricsProcedure == TxRequestBlocked)
  }

  predicate ReceiptsSay(o: Options, t: Tools, h: Handoff) {
    && ReceiptsEnd(t.ciReceipts, h.ciReceipts)
    && (o.operatorReceipts || o.orchestratorResults ==> t.operatorReceipts.Some? && ReceiptsEnd(t.operatorReceipts.value, h.operatorReceipts))
    && (!(o.operatorReceipts || o.orchestratorResults) ==> h.operatorReceipts == MissingOperatorRecord)
    && (o.deployEvidence ==> t.deployEvidence.Some? && EvidenceEnds(t.deployEvidence.value, h.deployEvidence))
    && (!o.deployEvidence ==> h.deployEvidence == NotProvided)
  }

  predicate OptionsSay(o: Options, t: Tools, h: Handoff) {
    && Taken(o.orchestratorResults, t.receiptImport, h.receiptImport) && Taken(o.txResult, t.txResult, h.txResult)
    && Taken(o.txEvidence, t.txEvidence, h.txEvidence) && Taken(o.txResult, t.draft, h.draft)
    && Taken(o.capability, t.capability, h.capability) && Taken(o.hardening, t.hardening, h.hardening)
    && (o.capability ==> h.operatorId == t.capability.value.operatorId) && (!o.capability ==> h.operatorId == U("NOT_PROVIDED"))
  }

  /** The tool that writes a file. */
  function MakerOf(f: File): Tool {
    match f
    case SummaryJson | HandoffMd => Summarizing
    case Archive => Packaging
    case PreflightJson | PreflightMd => Preflight
    case RequestSetJson | RequestsMd | RequestFile(_) => Requesting
    case RequestCheckJson | RequestCheckMd => RequestChecking
    case ProcedureJson | ProcedureMd => ProcedureWriting
    case CiSummaryJson | CiRunbookMd => CiChecking
    case ReportJson | ReportMd => Reporting
    case TxRequestJson | TxRequestMd => TxRequesting
    case OperatorSummaryJson | OperatorRunbookMd => ReceiptChecking
    case ImportedReceiptsJson | ImportSummaryJson | ImportMd => Importing
    case EvidenceJson | EvidenceSummaryJson | EvidenceMd => EvidenceChecking
    case TxResultJson | TxResultMd => TxResultChecking
    case TxEvidenceJson | TxEvidenceSummaryJson | TxEvidenceMd => TxEvidenceChecking
    case DraftJson | DraftMd => Drafting
    case MetricsProcedureJson | MetricsProcedureMd => MetricsProcedureWriting
    case CapabilityJson | CapabilitySummaryJson | CapabilityMd => CapabilityChecking
    case HardeningJson | HardeningSummaryJson | HardeningMd => HardeningChecking
  }

  lemma MakerMakes(t: Tools, f: File)
    ensures f in FilesOf(t, MakerOf(f)) <==> (f.RequestFile? ==> f.name in t.requestNames)
  {
  }

  lemma DeployMaker(t: Tools, tool: Tool, f: File)
    requires DeployTool(tool) && !tool.Requesting? && f in FilesOf(t, tool)
    ensures tool == MakerOf(f)
  {
  }

  lemma RequestMaker(t: Tools, f: File)
    requires f in FilesOf(t, Requesting)
    ensures MakerOf(f) == Requesting
  {
  }

  lemma MetricsMaker(t: Tools, tool: Tool, f: File)
    requires MetricsTool(tool) && f in FilesOf(t, tool)
    ensures tool == MakerOf(f)
  {
  }

  lemma ClosingMaker(t: Tools, tool: Tool, f: File)
    requires (ClosingTool(tool) || tool.Summarizing?) && f in FilesOf(t, tool)
    ensures tool == MakerOf(f)
  {
  }

  lemma OneMaker(t: Tools, tool: Tool, f: File)
    requires f in FilesOf(t, tool)
    ensures tool == MakerOf(f)
  {
    hide FilesOf;
    hide MakerOf;
    if tool.Requesting? {
      RequestMaker(t, f);
    } else if DeployTool(tool) {
      DeployMaker(t, tool, f);
    } else if MetricsTool(tool) {
      MetricsMaker(t, tool, f);
    } else {
      ClosingMaker(t, tool, f);
    }
  }

  lemma MakerRuns(o: Options, t: Tools, f: File)
    ensures FileMade(o, t, f) <==> RunsTool(o, t, MakerOf(f)) && (f.RequestFile? ==> f.name in t.requestNames)
  {
  }

  /** A built package holds exactly the files its options and its tools call for. */
  lemma FilesExactly(o: Options, t: Tools, root: Root, f: File)
    requires IsHandoff(o, t, root)
    ensures f in root.files <==> FileMade(o, t, f)
  {
    hide FilesOf;
    hide RunsTool;
    hide FileMade;
    hide MakerOf;
    hide SummaryOf;
    hide Written;
    hide Runs;
    hide Blocks;
    hide Complete;
    MakerRuns(o, t, f);
    MakerMakes(t, f);
    forall tool | f in FilesOf(t, tool) ensures tool == MakerOf(f) {
      OneMaker(t, tool, f);
    }
  }

  lemma CanaryExactly(profile: Document)
    ensures IsCanary(profile) <==> ClaimsCanary(profile)
  {
  }

  /** The summary of a built package reports what its tools found. */
  lemma SummaryExactly(o: Options, t: Tools, root: Root)
    requires IsHandoff(o, t, root)
    ensures CoreSays(t, root.summary) && ReceiptsSay(o, t, root.summary) && OptionsSay(o, t, root.summary)
  {
    hide *;
    SummaryIs(o, t, root);
    CoreExactly(o, t, root.summary, root);
    ReceiptsExactly(o, t, root.summary, root);
    OptionsExactly(o, t, root.summary, root);
  }

  lemma SummaryIs(o: Options, t: Tools, root: Root)
    requires IsHandoff(o, t, root)
    ensures Runs(o, t) && root.summary == SummaryOf(o, t, root.summary.status, root.summary.blockers, root.files)
  {
    hide HoldsFiles;
    hide Blocks;
    hide Complete;
    hide Runs;
    hide SummaryOf;
    hide Written;
  }

  lemma CoreExactly(o: Options, t: Tools, h: Handoff, root: Root)
    requires Runs(o, t) && h == SummaryOf(o, t, h.status, h.blockers, root.files)
    ensures CoreSays(t, h)
  {
    hide U;
    hide Written;
    hide StatusOr;
  }

  lemma OptionsExactly(o: Options, t: Tools, h: Handoff, root: Root)
    requires Runs(o, t) && h == SummaryOf(o, t, h.status, h.blockers, root.files)
    ensures OptionsSay(o, t, h)
  {
    hide U;
    hide Written;
  }

  lemma ReceiptsExactly(o: Options, t: Tools, h: Handoff, root: Root)
    requires Runs(o, t) && h == SummaryOf(o, t, h.status, h.blockers, root.files)
    ensures ReceiptsSay(o, t, h)
  {
    hide U;
    hide StatusOr;
    hide Written;
    hide ReceiptsEnd;
    hide EvidenceEnds;
    WrittenEnds(t);
  }

  lemma WrittenEnds(t: Tools)
    ensures ReceiptsEnd(t.ciReceipts, Written(t, CiSummaryJson).status)
    ensures t.operatorReceipts.Some? ==> ReceiptsEnd(t.operatorReceipts.value, Written(t, OperatorSummaryJson).status)
    ensures t.deployEvidence.Some? ==> EvidenceEnds(t.deployEvidence.value, Written(t, EvidenceSummaryJson).status)
  {
    hide IsCanary;
    hide ClaimsCanary;
    CanaryExactly(t.ciReceipts.profile);
    if t.operatorReceipts.Some? {
      CanaryExactly(t.operatorReceipts.value.profile);
    }
    if t.deployEvidence.Some? {
      CanaryExactly(t.deployEvidence.value.profile);
    }
  }

  // ----- what the audit accepts -----

  /** A file that is there, without a refused key and with this status. */
  predicate Reads(root: Root, f: File, status: ReleaseStatus) {
    f in root.files && root.doc(f).status == status && forall k :: k in root.keys(f) ==> !AuditKeys.IsForbidden(k)
  }

  /** What the audit asks of each file, given what the summary says. */
  predicate FilePasses(root: Root, f: File) {
    var h := root.summary;
    match f
    case SummaryJson => f in root.files && forall k :: k in root.keys(f) ==> !AuditKeys.IsForbidden(k)
    case PreflightJson =>
      && f in root.files && root.doc(f).supported == h.supported
      && forall k :: k in root.keys(f) ==> !AuditKeys.IsForbidden(k)
    case RequestSetJson => Reads(root, f, h.requests)
    case RequestCheckJson => Reads(root, f, h.requestCheck)
    case ProcedureJson => Reads(root, f, h.procedure) && root.doc(f).safe
    case CiSummaryJson => Reads(root, f, h.ciReceipts)
    case ReportJson => Reads(root, f, h.report)
    case TxRequestJson => Reads(root, f, h.txRequest)
    case MetricsProcedureJson => h.txRequest == MetricsOperatorReady ==> Reads(root, f, h.metricsProcedure) && root.doc(f).safe
    case MetricsProcedureMd => h.txRequest == MetricsOperatorReady ==> f in root.files
    case OperatorSummaryJson => h.operatorReceipts == ReadyForStatusRecording ==> Reads(root, f, ReadyForStatusRecording)
    case OperatorRunbookMd => h.operatorReceipts == ReadyForStatusRecording ==> f in root.files
    case EvidenceSummaryJson => h.deployEvidence == DeployEvidenceVerified ==> Reads(root, f, DeployEvidenceVerified) && root.doc(f).safe
    case EvidenceJson | EvidenceMd => h.deployEvidence == DeployEvidenceVerified ==> f in root.files
    case ImportSummaryJson => h.receiptImport != NotProvided ==> Reads(root, f, h.receiptImport)
    case ImportedReceiptsJson | ImportMd => h.receiptImport != NotProvided ==> f in root.files
    case TxResultJson => h.txResult == TxResultVerified ==> Reads(root, f, TxResultVerified)
    case TxEvidenceSummaryJson => h.txResult == TxResultVerified ==> Reads(root, f, TxEvidenceVerified) && root.doc(f).safe
    case DraftJson => h.txResult == TxResultVerified ==> Reads(root, f, h.draft) && root.doc(f).safe
    case TxResultMd | TxEvidenceJson | TxEvidenceMd | DraftMd => h.txResult == TxResultVerified ==> f in root.files
    case CapabilitySummaryJson =>
      h.capability == CapabilityVerified ==>
        Reads(root, f, CapabilityVerified) && root.doc(f).safe && root.doc(f).operatorId == h.operatorId
    case CapabilityJson | CapabilityMd => h.capability == CapabilityVerified ==> f in root.files
    case HardeningSummaryJson => h.hardening == HardeningVerified ==> Reads(root, f, HardeningVerified) && root.doc(f).safe
    case HardeningJson | HardeningMd => h.hardening == HardeningVerified ==> f in root.files
    case RequestFile(_) => true
    case _ => f in root.files
  }

  ghost predicate PackageSays(root: Root) {
    var h := root.summary;
    && h.safe && h.included == root.files
    && ((h.status == HandoffBlocked && |h.blockers| > 0) || (h.status == ReadyForOperatorDeploy && |h.blockers| == 0))
    && (h.txResult == TxResultVerified ==> h.txEvidence == TxEvidenceVerified)
    && forall f :: FilePasses(root, f)
  }

  /** One file's part in the audit's checks. */
  lemma FileExactly(root: Root, f: File)
    requires Acceptable(root)
    ensures FilePasses(root, f)
  {
    hide AuditKeys.IsForbidden;
  }

  lemma FilesSuffice(root: Root)
    requires PackageSays(root)
    ensures Acceptable(root)
  {
    hide AuditKeys.IsForbidden;
    hide FilePasses;
    forall f | Required(root.summary, f) ensures f in root.files {
      RequiredPasses(root, f);
    }
    ComponentsPass(root);
    SummaryPasses(root);
  }

  lemma SummaryPasses(root: Root)
    requires FilePasses(root, SummaryJson)
    ensures SummaryJson in root.files && CleanKeys(root.keys(SummaryJson))
  {
    hide AuditKeys.IsForbidden;
  }

  lemma RequiredPasses(root: Root, f: File)
    requires FilePasses(root, f) && Required(root.summary, f)
    ensures f in root.files
  {
    hide AuditKeys.IsForbidden;
  }

  /** The components that are always read. */
  lemma AlwaysRead(root: Root)
    requires FilePasses(root, PreflightJson) && FilePasses(root, RequestSetJson) && FilePasses(root, RequestCheckJson)
    requires FilePasses(root, ProcedureJson) && FilePasses(root, CiSummaryJson) && FilePasses(root, ReportJson) && FilePasses(root, TxRequestJson)
    ensures var h := root.summary;
      && PreflightJson in root.files && CleanKeys(root.keys(PreflightJson)) && root.doc(PreflightJson).supported == h.supported
      && Agrees(root, RequestSetJson, h.requests) && Agrees(root, RequestCheckJson, h.requestCheck)
      && AgreesSafely(root, ProcedureJson, h.procedure) && Agrees(root, CiSummaryJson, h.ciReceipts)
      && Agrees(root, ReportJson, h.report) && Agrees(root, TxRequestJson, h.txRequest)
  {
    hide AuditKeys.IsForbidden;
  }

  lemma DeployRead(root: Root)
    requires FilePasses(root, MetricsProcedureJson) && FilePasses(root, OperatorSummaryJson) && FilePasses(root, EvidenceSummaryJson)
    requires FilePasses(root, ImportSummaryJson)
    ensures var h := root.summary;
      && (h.txRequest == MetricsOperatorReady ==> AgreesSafely(root, MetricsProcedureJson, h.metricsProcedure))
      && (h.operatorReceipts == ReadyForStatusRecording ==> Agrees(root, OperatorSummaryJson, ReadyForStatusRecording))
      && (h.deployEvidence == DeployEvidenceVerified ==> AgreesSafely(root, EvidenceSummaryJson, DeployEvidenceVerified))
      && (h.receiptImport != NotProvided ==> Agrees(root, ImportSummaryJson, h.receiptImport))
  {
    hide AuditKeys.IsForbidden;
  }

  lemma MetricsRead(root: Root)
    requires FilePasses(root, TxResultJson) && FilePasses(root, TxEvidenceSummaryJson) && FilePasses(root, DraftJson)
    ensures var h := root.summary;
      h.txResult == TxResultVerified ==>
        && Agrees(root, TxResultJson, TxResultVerified) && AgreesSafely(root, TxEvidenceSummaryJson, TxEvidenceVerified)
        && AgreesSafely(root, DraftJson, h.draft)
  {
    hide AuditKeys.IsForbidden;
  }

  lemma ClosingRead(root: Root)
    requires FilePasses(root, CapabilitySummaryJson) && FilePasses(root, HardeningSummaryJson)
    ensures var h := root.summary;
      && (h.capability == CapabilityVerified ==>
            AgreesSafely(root, CapabilitySummaryJson, CapabilityVerified) && root.doc(CapabilitySummaryJson).operatorId == h.operatorId)
      && (h.hardening == HardeningVerified ==> AgreesSafely(root, HardeningSummaryJson, HardeningVerified))
  {
    hide AuditKeys.IsForbidden;
  }

  lemma ComponentsPass(root: Root)
    requires forall f :: FilePasses(root, f)
    requires root.summary.txResult == TxResultVerified ==> root.summary.txEvidence == TxEvidenceVerified
    ensures ComponentsAgree(root)
  {
    hide FilePasses;
    hide Agrees;
    hide AgreesSafely;
    hide CleanKeys;
    AlwaysRead(root);
    DeployRead(root);
    MetricsRead(root);
    ClosingRead(root);
  }

  /** The audit gives a verdict, ready or blocked, exactly for the packages of which every file passes. */
  lemma AcceptableExactly(root: Root)
    ensures Acceptable(root) <==> PackageSays(root)
  {
    hide FilePasses;
    hide ComponentsAgree;
    hide Required;
    if Acceptable(root) {
      forall f ensures FilePasses(root, f) {
        FileExactly(root, f);
      }
      AcceptedResult(root);
    }
    if PackageSays(root) {
      FilesSuffice(root);
    }
  }

  lemma AcceptedResult(root: Root)
    requires Acceptable(root)
    ensures root.summary.txResult == TxResultVerified ==> root.summary.txEvidence == TxEvidenceVerified
  {
    hide CleanKeys;
    hide Required;
  }
}
