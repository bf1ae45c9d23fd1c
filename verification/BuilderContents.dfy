/**
  When the deploy-request builder runs to its end and what it then writes, said over its
  inputs: the operator's arguments, the manifest and the constructor arguments.
 */
module BuilderContents {
  import opened Texts
  import opened CanonicalJson
  import opened DeploymentProfiles
  import opened DeployRequests
  import opened DeployRequestVerification
  import opened RequestContents
  import AuditKeys
  import ReleaseNames
  import ReceiptContents

  // ----- the specification -----

  ghost predicate SecretIn(v: Data, path: seq<Step<Name>>, k: Name) {
    var at := At(v, path);
    at.Some? && at.value.Obj? && k in at.value.members && AuditKeys.IsSecret(ReleaseNames.Write(k))
  }

  /** Constructor arguments are at hand and hold no secret-like key at any depth. */
  ghost predicate ArgsSay(job: Job, name: Text) {
    name in job.constructorArgs && forall path, k :: !SecretIn(job.constructorArgs[name], path, k)
  }

  predicate Picks(name: Text, canary: bool) {
    canary ==> name == U("ValidatorStakingH001")
  }

  ghost predicate JobSays(job: Job, canary: bool) {
    && RpcSays(job.rules, Str(job.args.rpc), Str(job.args.network)) && job.rules.address(job.args.deployer)
    && (canary ==>
          && job.args.profile == U("testnet-10-") + U("validator-staking-h001") && job.args.network == U("testnet")
          && job.args.rpc == U("kaspa-resolver://public") && job.args.key.None? && U("ValidatorStakingH001") in job.names)
    && (!canary ==> job.args.profile == U("full") && job.args.key.Some? && ReceiptContents.Hex32(job.args.key.value))
    && forall j :: 0 <= j < |job.names| && Picks(job.names[j], canary) ==> ArgsSay(job, job.names[j])
  }

  // ----- the builder meets it -----

  lemma ArgsExactly(job: Job, name: Text)
    ensures job.ArgsAllowed(name) <==> ArgsSay(job, name)
  {
    hide AuditKeys.IsSecret;
    hide KeysAllowed;
    hide At;
    hide ReleaseNames.Write;
    if name in job.constructorArgs {
      var v := job.constructorArgs[name];
      KeysAllowedMissesNothing(v, BuilderFilter());
      forall path, k ensures BadAt(v, BuilderFilter(), path, k) <==> SecretIn(v, path, k) {
      }
    }
  }

  lemma {:induction false} PlanSelects(entries: seq<Document>, names: seq<Text>, selected: seq<Text>)
    requires |entries| == |names| && forall i :: 0 <= i < |names| ==> IsEntry(entries[i], names[i])
    ensures forall i :: 0 <= i < |Plan(entries, names, selected)| ==> Plan(entries, names, selected)[i].name in selected
  {
    hide IsEntry;
    if names != [] {
      PlanSelects(entries[..|names| - 1], names[..|names| - 1], selected);
    }
  }

  /** The plan has a place for every selected contract. */
  lemma PlannedAt(job: Job, j: nat) returns (i: nat)
    requires IsManifest(job.manifest, job.names) && job.Selects() && j < |job.names|
    requires job.names[j] in Selection(job.args.profile, job.names).value
    ensures i < |job.Planned()| && job.Planned()[i] == Planned(j + 1, job.names[j], Entries(job.manifest, job.names)[j])
  {
    hide IsEntry;
    hide IsManifest;
    hide Selection;
    var entries, names, selected := Entries(job.manifest, job.names), job.names, Selection(job.args.profile, job.names).value;
    PlanStep(entries, names, selected, j);
    PlanKeeps(entries, names, selected, j + 1);
    i := |job.PlanTo(j)|;
    assert job.PlanTo(j + 1)[i] == Planned(j + 1, names[j], entries[j]);
  }

  /** The builder's walk over the plan is a walk over the selected names. */
  lemma PlanArgs(job: Job)
    requires IsManifest(job.manifest, job.names) && job.Selects()
    ensures (forall i :: 0 <= i < |job.Planned()| ==> job.ArgsAllowed(job.Planned()[i].name)) <==>
      forall j :: 0 <= j < |job.names| && job.names[j] in Selection(job.args.profile, job.names).value ==> job.ArgsAllowed(job.names[j])
  {
    hide IsEntry;
    hide IsManifest;
    hide Selection;
    hide KeysAllowed;
    PlanSelects(Entries(job.manifest, job.names), job.names, Selection(job.args.profile, job.names).value);
    forall j: nat | j < |job.names| && job.names[j] in Selection(job.args.profile, job.names).value
      ensures exists i :: 0 <= i < |job.Planned()| && job.Planned()[i].name == job.names[j]
    {
      var i := PlannedAt(job, j);
      assert job.Planned()[i].name == job.names[j];
    }
  }

  lemma SelectedExactly(job: Job, canary: bool)
    requires job.args.profile == if canary then Canary() else Full()
    ensures job.Selects() <==> (canary ==> U("ValidatorStakingH001") in job.names)
    ensures job.Selects() ==>
      forall j :: 0 <= j < |job.names| ==> (job.names[j] in Selection(job.args.profile, job.names).value <==> Picks(job.names[j], canary))
  {
    ProfilesDiffer();
    assert H001() == U("ValidatorStakingH001");
    hide U;
    hide H001;
  }

  lemma InputsExactlySaid(job: Job, canary: bool)
    requires job.args.profile == if canary then Canary() else Full()
    ensures InputsAccepted(job.rules, job.args) <==>
      && RpcSays(job.rules, Str(job.args.rpc), Str(job.args.network)) && job.rules.address(job.args.deployer)
      && (canary ==> job.args.network == U("testnet") && job.args.rpc == U("kaspa-resolver://public") && job.args.key.None?)
      && (!canary ==> job.args.key.Some? && ReceiptContents.Hex32(job.args.key.value))
  {
    ProfilesDiffer();
    hide U;
    hide IsHex32;
    hide ReceiptContents.Hex32;
    if job.args.key.Some? {
      ReceiptContents.Hex32Says(job.args.key.value);
    }
  }

  lemma BuildsCase(job: Job, canary: bool)
    requires IsManifest(job.manifest, job.names) && job.args.profile == if canary then Canary() else Full()
    ensures job.Builds() <==> JobSays(job, canary)
  {
    hide IsManifest;
    hide InputsAccepted;
    hide RpcSays;
    hide ReceiptContents.Hex32;
    hide ArgsSay;
    hide Selection;
    hide KeysAllowed;
    assert Canary() == U("testnet-10-") + U("validator-staking-h001") && Full() == U("full");
    hide U;
    hide Canary;
    hide Full;
    InputsExactlySaid(job, canary);
    SelectedExactly(job, canary);
    if job.Selects() {
      PlanArgs(job);
      forall j | 0 <= j < |job.names| ensures job.ArgsAllowed(job.names[j]) <==> ArgsSay(job, job.names[j]) {
        ArgsExactly(job, job.names[j]);
      }
    }
  }

  /** The builder runs to its end exactly on these inputs. */
  lemma BuildsExactly(job: Job)
    requires IsManifest(job.manifest, job.names)
    ensures job.Builds() <==> JobSays(job, false) || JobSays(job, true)
  {
    hide IsManifest;
    ProfilesDiffer();
    if job.args.profile == Full() {
      BuildsCase(job, false);
      OtherProfile(job, true);
    } else if job.args.profile == Canary() {
      BuildsCase(job, true);
      OtherProfile(job, false);
    } else {
      OtherProfile(job, true);
      OtherProfile(job, false);
      NothingBuilds(job);
    }
  }

  lemma NothingBuilds(job: Job)
    requires IsManifest(job.manifest, job.names) && job.args.profile != Full() && job.args.profile != Canary()
    ensures !job.Builds()
  {
  }

  lemma OtherProfile(job: Job, canary: bool)
    requires job.args.profile != if canary then Canary() else Full()
    ensures !JobSays(job, canary)
  {
  }

  // ----- what it writes -----

  /** The part of a set or a request that comes from the operator's arguments. */
  predicate ArgumentsSaid(d: Document, args: Inputs) {
    && Get(d, Network) == Str(args.network) && Get(d, RpcUrl) == Str(args.rpc) && Get(d, DeployerAddress) == Str(args.deployer)
    && (args.key.Some? ==> Get(d, MetricsOraclePubkey) == Str(args.key.value)) && (args.key.None? ==> MetricsOraclePubkey !in d)
  }

  /** The warnings: the fixed blocker, and the notice when the run is a canary. */
  predicate WarningsSaid(v: Data, rules: Rules, canary: bool) {
    v == Arr(if canary then [Str(rules.blocker), Str(rules.canaryNotice)] else [Str(rules.blocker)])
  }

  predicate RequirementsSaid(v: Data, rules: Rules) {
    v.Arr? && |v.items| == |rules.requirements| && forall i :: 0 <= i < |rules.requirements| ==> v.items[i] == Str(rules.requirements[i])
  }

  /** The file of entry j. */
  ghost predicate FileSaid(job: Job, built: Built, j: nat)
    requires j < |job.names|
  {
    var file := FileText(j + 1, job.names[j]);
    && file in built.files && built.files[file].Obj? && ArgumentsSaid(built.files[file].members, job.args)
    && RequirementsSaid(Get(built.files[file].members, OrchestratorRequirements), job.rules)
  }

  lemma KeySaid(d: Document, body: Document, digest: Hexdigest, args: Inputs, seal: Name)
    requires seal != MetricsOraclePubkey && MetricsOraclePubkey !in body && seal !in body && d == Seal(digest, WithKey(body, args), seal)
    ensures args.key.Some? ==> Get(d, MetricsOraclePubkey) == Str(args.key.value)
    ensures args.key.None? ==> MetricsOraclePubkey !in d
  {
    hide Seal;
    hide WithKey;
    SealedGet(digest, body, args, seal, MetricsOraclePubkey);
  }

  lemma RequestSaid(job: Job, p: Planned)
    requires job.Fits(p)
    ensures ArgumentsSaid(job.Request(p), job.args)
    ensures RequirementsSaid(Get(job.Request(p), OrchestratorRequirements), job.rules)
  {
    hide Seal;
    hide WithKey;
    hide RequestFields;
    hide IsManifest;
    hide IsEntry;
    hide ExpectedProfile;
    hide ContractPart;
    hide Revision;
    hide RequestStatus;
    var parts := job.Parts(p);
    RequestHolds(job.digest, parts, job.args);
    FieldsKeyed(parts, MetricsOraclePubkey);
    FieldsKeyed(parts, RequestSha256);
    KeySaid(job.Request(p), RequestFields(parts), job.digest, job.args, RequestSha256);
  }

  lemma SetSaid(job: Job, lines: seq<Data>)
    requires IsManifest(job.manifest, job.names) && job.Selects()
    ensures ArgumentsSaid(job.Set(lines), job.args)
    ensures WarningsSaid(Get(job.Set(lines), Blockers), job.rules, job.args.profile == Canary())
  {
    hide Seal;
    hide WithKey;
    hide SetFields;
    hide IsManifest;
    hide IsEntry;
    hide ExpectedProfile;
    hide SetStatus;
    var parts := job.SetPartsOf(lines);
    SetHolds(job.digest, parts, job.args);
    SetFieldsKeyed(parts, MetricsOraclePubkey);
    SetFieldsKeyed(parts, RequestSetSha256);
    KeySaid(job.Set(lines), SetFields(parts), job.digest, job.args, RequestSetSha256);
    WarningItems(job);
  }

  lemma WarningItems(job: Job)
    ensures WarningsSaid(job.Warnings(), job.rules, job.args.profile == Canary())
  {
    hide Canary;
    var ts := [job.rules.blocker] + (if job.args.profile == Canary() then [job.rules.canaryNotice] else []);
    assert Strings(ts).items == if job.args.profile == Canary() then [Str(job.rules.blocker), Str(job.rules.canaryNotice)] else [Str(job.rules.blocker)];
  }

  /** The set and every file repeat the operator's arguments; the set carries the warnings, the files the requirements. */
  lemma BuiltSays(job: Job, built: Built)
    requires IsManifest(job.manifest, job.names) && job.Builds() && IsOutput(job, built)
    ensures ArgumentsSaid(built.requestSet, job.args)
    ensures WarningsSaid(Get(built.requestSet, Blockers), job.rules, job.args.profile == U("testnet-10-") + U("validator-staking-h001"))
    ensures forall j :: 0 <= j < |job.names| && Picks(job.names[j], job.args.profile != U("full")) ==> FileSaid(job, built, j)
  {
    hide ArgumentsSaid;
    hide WarningsSaid;
    hide FileSaid;
    hide IsManifest;
    hide KeysAllowed;
    hide InputsAccepted;
    hide Selection;
    hide Plan;
    hide Job.Set;
    hide Job.ArgsAllowed;
    hide FilesOf;
    ProfileKnown(job);
    hide U;
    hide Canary;
    hide Full;
    SetSaid(job, Lines(job));
    var canary := job.args.profile == Canary();
    SelectedExactly(job, canary);
    forall j: nat | j < |job.names| && Picks(job.names[j], canary) ensures FileSaid(job, built, j) {
      FileBuilt(job, built, j);
    }
  }

  lemma FileBuilt(job: Job, built: Built, j: nat)
    requires IsManifest(job.manifest, job.names) && job.Selects() && FilesOf(job, job.Planned(), built.files)
    requires j < |job.names| && job.names[j] in Selection(job.args.profile, job.names).value
    ensures FileSaid(job, built, j)
  {
    hide ArgumentsSaid;
    hide RequirementsSaid;
    hide IsManifest;
    hide IsEntry;
    hide Selection;
    hide Job.Request;
    hide FileName;
    hide FileText;
    var i := PlannedAt(job, j);
    var p := job.Planned()[i];
    FileExactly(j + 1, job.names[j]);
    RequestSaid(job, p);
    assert built.files[FileName(p.order, p.name)] == Obj(job.Request(p));
  }

  lemma ProfileKnown(job: Job)
    requires IsManifest(job.manifest, job.names) && job.Builds()
    ensures Canary() == U("testnet-10-") + U("validator-staking-h001") && Full() == U("full")
    ensures job.args.profile == Full() || job.args.profile == Canary()
    ensures Full() != Canary()
  {
    ProfilesDiffer();
    hide U;
  }
}
