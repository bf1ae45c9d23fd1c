/**
  Public deploy requests: the builder that prints one sealed request per selected contract
  and a sealed request set, and the verifier that checks them against the release manifest.
 */
module DeployRequests {
  import opened Texts
  import opened CanonicalJson
  import opened DeploymentProfiles
  import AuditKeys
  import ReleaseNames
  import SecretNames

  /** What the library regexes and URL parsing decide, left abstract: URLs and addresses; and the fixed
      sentences of the documents, about which nothing but their being fixed matters. */
  datatype Rules = Rules(
    url: Text -> bool, address: Text -> bool, requirements: seq<Text>, blocker: Text, canaryNotice: Text)

  datatype Inputs = Inputs(profile: Text, network: Text, rpc: Text, deployer: Text, key: Option<Text>)

  // ----- secret-like keys -----

  /** SECRET_LIKE_RE.search on a key as it is written. */
  predicate SecretLike(k: Name) {
    AuditKeys.IsSecret(ReleaseNames.Write(k))
  }

  function BuilderFilter(): (Name, Data) -> bool {
    (k: Name, v: Data) => SecretLike(k)
  }

  /** The verifier lets the safety flag accepts_private_keys through. */
  predicate RefusedText(key: Text) {
    AuditKeys.IsSecret(key) && key != AuditKeys.AcceptsPrivateKeys()
  }

  predicate RefusedName(k: Name) {
    RefusedText(ReleaseNames.Write(k))
  }

  function VerifierFilter(): (Name, Data) -> bool {
    (k: Name, v: Data) => RefusedName(k)
  }

  /** The verifier refuses none of the names the programs use. */
  lemma NamedPasses(k: Name)
    requires !k.Other?
    ensures !RefusedName(k)
  {
    hide AuditKeys.IsSecret;
    SecretNames.NamedSecret(k);
    if k.AcceptsPrivateKeys? {
      SecretNames.PrivateKeysWritten();
    }
  }

  // ----- shared wording -----

  function RequestTypeText(): Text { U("prometheus_") + U("silverc_deploy_request") }
  function Scope(): Text { U("deploy_request_builder_only") }

  function RequestStatus(canary: bool): Text {
    if canary then U("CANARY_READY_FOR_KEYLESS_GENESIS_OPERATOR") else U("READY_FOR_KEYLESS_GENESIS_OPERATOR")
  }

  function SetStatus(canary: bool): Text {
    if canary then U("CANARY_REQUEST_READY_FOR_KEYLESS_GENESIS_OPERATOR") else U("REQUESTS_READY_FOR_KEYLESS_GENESIS_OPERATOR")
  }

  function SafetyFlags(): Document {
    map[AcceptsPrivateKeys := Bool(false), SignsTransactions := Bool(false), AssemblesChainTransaction := Bool(false),
        BroadcastsTransactions := Bool(false), DeploysContracts := Bool(false), UpdatesStatusFiles := Bool(false)]
  }

  /** f"{order:02d}-{name}.deploy-request.json". */
  function FileName(order: nat, name: Text): Text {
    Padded(order) + (['-' as int] + (name + U(".deploy-request.json")))
  }

  function Padded(order: nat): (t: Text)
    ensures forall i :: 0 <= i < |t| ==> IsDigit(t[i])
  {
    if order < 10 then ['0' as int] + NatText(order) else NatText(order)
  }

  lemma PaddedValue(order: nat)
    ensures NatValue(Padded(order)) == order
  {
    NatTextValue(order);
    if order < 10 {
      var t := Padded(order);
      assert t[..1] == ['0' as int] && t[..1][..0] == [];
    }
  }

  /** Files of different orders have different names, whatever the contracts are called. */
  lemma FileNamesDiffer(m: nat, a: Text, n: nat, b: Text)
    requires FileName(m, a) == FileName(n, b)
    ensures m == n
  {
    var p, q := Padded(m), Padded(n);
    var f, g := FileName(m, a), FileName(n, b);
    assert f[|p|] == '-' as int && g[|q|] == '-' as int;
    assert forall i :: 0 <= i < |p| ==> f[i] == p[i];
    assert forall i :: 0 <= i < |q| ==> g[i] == q[i];
    assert |p| == |q|;
    assert p == f[..|p|] && q == g[..|q|];
    PaddedValue(m);
    PaddedValue(n);
  }

  // ----- the builder -----

  /** validate_public_inputs. */
  predicate InputsAccepted(rules: Rules, args: Inputs) {
    && RpcAllowed(rules.url, Str(args.rpc), Str(args.network))
    && InputsAllowed(args.profile, Str(args.network), Str(args.rpc), KeyData(args))
    && rules.address(args.deployer)
  }

  function KeyData(args: Inputs): Data {
    if args.key.Some? then Str(args.key.value) else Null
  }

  function ContractPart(e: Document, name: Text, order: nat): Document
    requires IsEntry(e, name)
  {
    map[Order := Int(order),
        ProfileName := e[ContractName],
        SourceFile := e[SourceFile],
        ArtifactFile := e[ArtifactFile],
        CompilerVersion := e[CompilerVersion],
        Abi := e[Abi],
        StateLayout := e[StateLayout],
        ScriptLen := e[ScriptLen],
        SourceSha256 := e[SourceSha256],
        ConstructorArgsSha256 := e[ConstructorArgsSha256],
        ArtifactSha256 := e[ArtifactSha256],
        ScriptSha256 := e[ScriptSha256]]
  }

  function WithKey(d: Document, args: Inputs): Document {
    if args.key.Some? then d[MetricsOraclePubkey := Str(args.key.value)] else d
  }

  datatype RequestParts = RequestParts(
    status: Data, network: Data, rpc: Data, deployer: Data, profile: Data, silverscript: Data, contract: Data,
    constructorArgs: Data, requirements: Data)

  /** The dict literal of a request. */
  function RequestFields(p: RequestParts): Document {
    map[SchemaVersion := Int(1),
        RequestType := Str(RequestTypeText()),
        Status := p.status,
        Network := p.network,
        RpcUrl := p.rpc,
        DeployerAddress := p.deployer,
        DeploymentProfile := p.profile,
        Silverscript := p.silverscript,
        Contract := p.contract,
        ConstructorArgs := p.constructorArgs,
        OrchestratorRequirements := p.requirements,
        Safety := Obj(SafetyFlags()),
        SafetyScope := Str(Scope())]
  }

  datatype SetParts = SetParts(
    status: Data, network: Data, rpc: Data, deployer: Data, profile: Data, ref: Data, commit: Data, lines: seq<Data>,
    blockers: Data)

  /** The dict literal of a request set. */
  function SetFields(p: SetParts): Document {
    map[SchemaVersion := Int(1),
        Status := p.status,
        Network := p.network,
        RpcUrl := p.rpc,
        DeployerAddress := p.deployer,
        DeploymentProfile := p.profile,
        SilverscriptRef := p.ref,
        SilverscriptCommit := p.commit,
        RequestCount := Int(|p.lines|),
        Requests := Arr(p.lines),
        Blockers := p.blockers,
        Safety := Obj(SafetyFlags()),
        SafetyScope := Str(Scope())]
  }

  function Revision(m: Document): Data {
    Obj(map[Ref := Get(m, SilverscriptRef), Commit := Get(m, SilverscriptCommit)])
  }

  datatype Planned = Planned(order: nat, name: Text, entry: Document)

  /** The contracts a profile builds requests for, with their position in the manifest. */
  function Plan(entries: seq<Document>, names: seq<Text>, selected: seq<Text>): (ps: seq<Planned>)
    requires |entries| == |names| && forall i :: 0 <= i < |names| ==> IsEntry(entries[i], names[i])
    ensures forall i :: 0 <= i < |ps| ==> IsEntry(ps[i].entry, ps[i].name) && 1 <= ps[i].order <= |names|
    ensures forall i :: 0 <= i < |ps| ==> names[ps[i].order - 1] == ps[i].name && ps[i].entry == entries[ps[i].order - 1]
    ensures forall i, j :: 0 <= i < j < |ps| ==> ps[i].order < ps[j].order
  {
    hide IsEntry;
    if names == [] then []
    else
      var n := |names| - 1;
      Plan(entries[..n], names[..n], selected) + (if names[n] in selected then [Planned(n + 1, names[n], entries[n])] else [])
  }

  /** Everything one run of the builder works from. */
  datatype Job = Job(digest: Hexdigest, rules: Rules, args: Inputs, manifest: Document, names: seq<Text>, constructorArgs: map<Text, Data>)
  {
    ghost predicate Valid() {
      IsHexDigest(digest) && IsManifest(manifest, names) && Distinct(names)
    }

    predicate Selects() {
      Selection(args.profile, names).Some?
    }

    function Profile(): Document
      requires IsManifest(manifest, names) && Selects()
    {
      ExpectedProfile(digest, args.profile, manifest, names)
    }

    function Planned(): seq<Planned>
      requires IsManifest(manifest, names) && Selects()
    {
      Plan(Entries(manifest, names), names, Selection(args.profile, names).value)
    }

    /** The part of the plan that the first n manifest entries give. */
    function PlanTo(n: nat): (ps: seq<Planned>)
      requires IsManifest(manifest, names) && Selects() && n <= |names|
      ensures forall i :: 0 <= i < |ps| ==> ps[i].order <= n && IsEntry(ps[i].entry, ps[i].name)
    {
      Plan(Entries(manifest, names)[..n], names[..n], Selection(args.profile, names).value)
    }

    predicate ArgsAllowed(name: Text) {
      name in constructorArgs && KeysAllowed(constructorArgs[name], BuilderFilter())
    }

    /** When the builder runs to its end. */
    predicate Builds()
      requires IsManifest(manifest, names)
    {
      InputsAccepted(rules, args) && Selects() && forall i :: 0 <= i < |Planned()| ==> ArgsAllowed(Planned()[i].name)
    }

    predicate Fits(p: Planned) {
      IsManifest(manifest, names) && Selects() && IsEntry(p.entry, p.name) && p.name in constructorArgs
    }

    function Parts(p: Planned): RequestParts
      requires Fits(p)
    {
      RequestParts(
        Str(RequestStatus(IsCanary(Profile()))), Str(args.network), Str(args.rpc), Str(args.deployer), Obj(Profile()),
        Revision(manifest), Obj(ContractPart(p.entry, p.name, p.order)), constructorArgs[p.name],
        Strings(rules.requirements))
    }

    /** One sealed request. */
    function Request(p: Planned): Document
      requires Fits(p)
    {
      Seal(digest, WithKey(RequestFields(Parts(p)), args), RequestSha256)
    }

    /** The line a request gets in the request set. */
    function Line(p: Planned): Document
      requires Fits(p)
    {
      map[Order := Int(p.order),
          ContractName := p.entry[ContractName],
          File := Str(FileName(p.order, p.name)),
          RequestSha256 := Get(Request(p), RequestSha256),
          ArtifactSha256 := p.entry[ArtifactSha256],
          ScriptSha256 := p.entry[ScriptSha256]]
    }

    function SetPartsOf(lines: seq<Data>): SetParts
      requires IsManifest(manifest, names) && Selects()
    {
      SetParts(
        Str(SetStatus(IsCanary(Profile()))), Str(args.network), Str(args.rpc), Str(args.deployer), Obj(Profile()),
        manifest[SilverscriptRef], manifest[SilverscriptCommit], lines, Warnings())
    }

    function Warnings(): Data {
      Strings([rules.blocker] + (if args.profile == Canary() then [rules.canaryNotice] else []))
    }

    /** The sealed request set. */
    function Set(lines: seq<Data>): Document
      requires IsManifest(manifest, names) && Selects()
    {
      Seal(digest, WithKey(SetFields(SetPartsOf(lines)), args), RequestSetSha256)
    }
  }

  datatype Built = Built(requestSet: Document, files: map<Text, Data>)

  /** build_silverc_deploy_requests: checks the inputs, then writes one file per selected contract. */
  method Build(job: Job) returns (r: Option<Built>)
    requires IsManifest(job.manifest, job.names)
    ensures r.Some? <==> job.Builds()
    ensures r.Some? ==> IsOutput(job, r.value)
  {
    hide IsEntry;
    hide IsManifest;
    hide Progress;
    hide FileName;
    hide IsOutput;
    hide InputsAccepted;
    hide Seal;
    hide KeysAllowed;
    hide Plan;
    hide Job.Line;
    hide Job.Request;
    hide Job.Set;
    if !InputsAccepted(job.rules, job.args) || !job.Selects() {
      return None;
    }
    var entries, names := Entries(job.manifest, job.names), job.names;
    var selected := Selection(job.args.profile, names).value;
    var lines: seq<Data>, files: map<Text, Data> := [], map[];
    NoProgress(job);
    for n := 0 to |names|
      invariant Progress(job, n, lines, files)
    {
      if names[n] !in selected {
        ProgressSkip(job, n, lines, files);
        continue;
      }
      var p := Planned(n + 1, names[n], entries[n]);
      if !job.ArgsAllowed(p.name) {
        Stuck(job, n);
        return None;
      }
      ProgressStep(job, n, lines, files);
      lines, files := lines + [Obj(job.Line(p))], files[FileName(p.order, p.name) := Obj(job.Request(p))];
    }
    ProgressDone(job, lines, files);
    return Some(Built(job.Set(lines), files));
  }

  /** The builder's state after the first n manifest entries. */
  ghost predicate Progress(job: Job, n: nat, lines: seq<Data>, files: map<Text, Data>)
    requires IsManifest(job.manifest, job.names) && job.Selects() && n <= |job.names|
  {
    var plan := job.PlanTo(n);
    && FilesOf(job, plan, files) && |lines| == |plan|
    && forall i :: 0 <= i < |plan| ==> job.ArgsAllowed(plan[i].name) && lines[i] == Obj(job.Line(plan[i]))
  }

  lemma NoProgress(job: Job)
    requires IsManifest(job.manifest, job.names) && job.Selects()
    ensures Progress(job, 0, [], map[])
  {
    assert job.PlanTo(0) == [];
  }

  lemma ProgressSkip(job: Job, n: nat, lines: seq<Data>, files: map<Text, Data>)
    requires IsManifest(job.manifest, job.names) && job.Selects() && n < |job.names| && Progress(job, n, lines, files)
    requires job.names[n] !in Selection(job.args.profile, job.names).value
    ensures Progress(job, n + 1, lines, files)
  {
    PlanStep(Entries(job.manifest, job.names), job.names, Selection(job.args.profile, job.names).value, n);
    assert job.PlanTo(n + 1) == job.PlanTo(n);
  }

  lemma ProgressStep(job: Job, n: nat, lines: seq<Data>, files: map<Text, Data>)
    requires IsManifest(job.manifest, job.names) && job.Selects() && n < |job.names| && Progress(job, n, lines, files)
    requires job.names[n] in Selection(job.args.profile, job.names).value && job.ArgsAllowed(job.names[n])
    ensures var p := Planned(n + 1, job.names[n], Entries(job.manifest, job.names)[n]);
      Progress(job, n + 1, lines + [Obj(job.Line(p))], files[FileName(p.order, p.name) := Obj(job.Request(p))])
  {
    hide IsEntry;
    hide IsManifest;
    hide FileName;
    hide Seal;
    hide KeysAllowed;
    hide FilesOf;
    hide Selection;
    hide Job.Line;
    hide Job.Request;
    var p := Planned(n + 1, job.names[n], Entries(job.manifest, job.names)[n]);
    PlanStep(Entries(job.manifest, job.names), job.names, Selection(job.args.profile, job.names).value, n);
    assert job.PlanTo(n + 1) == job.PlanTo(n) + [p];
    FilesStep(job, job.PlanTo(n), files, p);
  }

  /** A contract whose constructor arguments are missing or refused stops the builder. */
  lemma Stuck(job: Job, n: nat)
    requires IsManifest(job.manifest, job.names) && job.Selects() && n < |job.names|
    requires job.names[n] in Selection(job.args.profile, job.names).value && !job.ArgsAllowed(job.names[n])
    ensures !job.Builds()
  {
    hide IsEntry;
    hide IsManifest;
    hide KeysAllowed;
    hide Selection;
    var entries, names, selected := Entries(job.manifest, job.names), job.names, Selection(job.args.profile, job.names).value;
    PlanStep(entries, names, selected, n);
    PlanKeeps(entries, names, selected, n + 1);
    var k := |job.PlanTo(n)|;
    assert job.PlanTo(n + 1)[k].name == names[n];
    assert job.Planned()[k].name == names[n];
  }

  lemma ProgressDone(job: Job, lines: seq<Data>, files: map<Text, Data>)
    requires IsManifest(job.manifest, job.names) && job.Selects() && InputsAccepted(job.rules, job.args)
    requires Progress(job, |job.names|, lines, files)
    ensures job.Builds() && IsOutput(job, Built(job.Set(lines), files))
  {
    hide IsEntry;
    hide IsManifest;
    hide KeysAllowed;
    hide Selection;
    hide FilesOf;
    hide InputsAccepted;
    hide Job.Line;
    hide Job.Request;
    hide Job.Set;
    var entries, names := Entries(job.manifest, job.names), job.names;
    assert entries[..|names|] == entries && names[..|names|] == names;
    assert job.PlanTo(|names|) == job.Planned();
    assert lines == Lines(job);
  }

  /** The plan's files, each under its own name, and no other. */
  ghost predicate FilesOf(job: Job, plan: seq<Planned>, files: map<Text, Data>) {
    && (forall i :: 0 <= i < |plan| ==> job.Fits(plan[i]) && FileName(plan[i].order, plan[i].name) in files)
    && (forall i :: 0 <= i < |plan| ==> files[FileName(plan[i].order, plan[i].name)] == Obj(job.Request(plan[i])))
    && (forall f :: f in files ==> exists i :: 0 <= i < |plan| && f == FileName(plan[i].order, plan[i].name))
  }

  ghost predicate IsOutput(job: Job, built: Built)
    requires IsManifest(job.manifest, job.names) && job.Builds()
  {
    && FilesOf(job, job.Planned(), built.files)
    && built.requestSet == job.Set(Lines(job))
  }

  function Lines(job: Job): (lines: seq<Data>)
    requires IsManifest(job.manifest, job.names) && job.Builds()
  {
    var plan := job.Planned();
    seq(|plan|, i requires 0 <= i < |plan| => Obj(job.Line(plan[i])))
  }

  lemma PlanStep(entries: seq<Document>, names: seq<Text>, selected: seq<Text>, n: nat)
    requires |entries| == |names| && n < |names| && forall i :: 0 <= i < |names| ==> IsEntry(entries[i], names[i])
    ensures Plan(entries[..n + 1], names[..n + 1], selected) ==
      Plan(entries[..n], names[..n], selected) + (if names[n] in selected then [Planned(n + 1, names[n], entries[n])] else [])
  {
    assert entries[..n + 1][..n] == entries[..n] && names[..n + 1][..n] == names[..n];
  }

  /** What is planned for a prefix of the manifest stays planned. */
  lemma {:induction false} PlanKeeps(entries: seq<Document>, names: seq<Text>, selected: seq<Text>, n: nat)
    requires |entries| == |names| && n <= |names| && forall i :: 0 <= i < |names| ==> IsEntry(entries[i], names[i])
    ensures Plan(entries[..n], names[..n], selected) <= Plan(entries, names, selected)
    decreases |names| - n
  {
    hide IsEntry;
    if n == |names| {
      assert entries[..n] == entries && names[..n] == names;
    } else {
      PlanStep(entries, names, selected, n);
      PlanKeeps(entries, names, selected, n + 1);
    }
  }

  lemma FilesStep(job: Job, plan: seq<Planned>, files: map<Text, Data>, p: Planned)
    requires FilesOf(job, plan, files) && job.Fits(p)
    requires forall i :: 0 <= i < |plan| ==> plan[i].order < p.order
    ensures FilesOf(job, plan + [p], files[FileName(p.order, p.name) := Obj(job.Request(p))])
  {
    hide FileName;
    hide IsEntry;
    hide IsManifest;
    hide Seal;
    hide Job.Request;
    hide ExpectedProfile;
    var plan', files' := plan + [p], files[FileName(p.order, p.name) := Obj(job.Request(p))];
    forall i | 0 <= i < |plan'| ensures
      FileName(plan'[i].order, plan'[i].name) in files' &&
      files'[FileName(plan'[i].order, plan'[i].name)] == Obj(job.Request(plan'[i]))
    {
      if i < |plan| && FileName(plan[i].order, plan[i].name) == FileName(p.order, p.name) {
        FileNamesDiffer(plan[i].order, plan[i].name, p.order, p.name);
      }
    }
    forall f | f in files' ensures exists i :: 0 <= i < |plan'| && f == FileName(plan'[i].order, plan'[i].name) {
      if f == FileName(p.order, p.name) {
        assert plan'[|plan|] == p;
      } else {
        var i :| 0 <= i < |plan| && f == FileName(plan[i].order, plan[i].name);
        assert plan'[i] == plan[i];
      }
    }
  }
}
