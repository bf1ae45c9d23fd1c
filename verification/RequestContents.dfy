/**
  What an accepted deploy-request set says: every value of the set, of its lines and of its
  request files, against the manifest and in words the verifier does not share.
 */
module RequestContents {
  import opened Texts
  import opened CanonicalJson
  import opened DeploymentProfiles
  import opened DeployRequests
  import opened DeployRequestVerification
  import AuditKeys
  import ReleaseNames
  import RedactionPolicy
  import ReceiptContents

  // ----- the specification -----

  /** A key at some depth is spelled with a secret-like word and is not the one flag that may be. */
  ghost predicate SecretAt(d: Document, path: seq<Step<Name>>, k: Name) {
    var at := At(Obj(d), path);
    && at.Some? && at.value.Obj? && k in at.value.members
    && AuditKeys.IsSecret(ReleaseNames.Write(k)) && ReleaseNames.Write(k) != U("accepts_private_keys")
  }

  ghost predicate HoldsSecret(d: Document) {
    exists path, k :: SecretAt(d, path, k)
  }

  predicate FlagsSay(v: Data) {
    && v.Obj?
    && v.members.Keys == {
         AcceptsPrivateKeys, SignsTransactions, AssemblesChainTransaction, BroadcastsTransactions, DeploysContracts,
         UpdatesStatusFiles}
    && forall k :: k in v.members ==> v.members[k] == Bool(false)
  }

  predicate RpcSays(rules: Rules, rpc: Data, network: Data) {
    && rpc.Str? && rpc.s != []
    && (rpc.s == U("kaspa-resolver://public") ==> network == Str(U("testnet")))
    && (rpc.s != U("kaspa-resolver://public") ==> rules.url(rpc.s))
  }

  /** The canary runs on the test network through the public resolver and has no oracle key; the full release has one. */
  predicate InputsSay(d: Document, canary: bool) {
    && (canary ==>
          && Get(d, Network) == Str(U("testnet")) && Get(d, RpcUrl) == Str(U("kaspa-resolver://public"))
          && Get(d, MetricsOraclePubkey) == Null)
    && (!canary ==> Get(d, MetricsOraclePubkey).Str? && ReceiptContents.Hex32(Get(d, MetricsOraclePubkey).s))
  }

  predicate ClaimSays(c: Check, v: Data, canary: bool) {
    v.Obj? && ProfileSays(c.digest, v.members, c.manifest, c.names, canary) && (canary ==> U("ValidatorStakingH001") in c.names)
  }

  predicate MentionsBlocker(v: Data, blocker: Text) {
    || (v.Arr? && Str(blocker) in v.items)
    || (v.Str? && RedactionPolicy.Contains(v.s, blocker))
    || (v.Obj? && Other(blocker) in v.members)
  }

  ghost predicate HeaderSays(c: Check, d: Document, canary: bool) {
    && !HoldsSecret(d) && SealMatches(c.digest, d, RequestSetSha256)
    && RpcSays(c.rules, Get(d, RpcUrl), Get(d, Network)) && InputsSay(d, canary)
    && ClaimSays(c, Get(d, DeploymentProfile), canary)
    && Number(Get(d, SchemaVersion)) == Some(1)
    && Get(d, Status) == Str(if canary then U("CANARY_REQUEST_READY_FOR_KEYLESS_GENESIS_OPERATOR")
                             else U("REQUESTS_READY_FOR_KEYLESS_GENESIS_OPERATOR"))
    && Get(d, SilverscriptRef) == Get(c.manifest, SilverscriptRef)
    && Get(d, SilverscriptCommit) == Get(c.manifest, SilverscriptCommit)
    && MentionsBlocker(Get(d, Blockers), c.rules.blocker) && FlagsSay(Get(d, Safety))
    && Get(d, SafetyScope) == Str(U("deploy_request_builder_only"))
    && Get(d, Requests).Arr? && |Get(d, Requests).items| == (if canary then 1 else |c.names|)
    && Number(Get(d, RequestCount)) == Some(|Get(d, Requests).items|)
  }

  /** The order in two digits or more, a hyphen, the name and the suffix. */
  function FileText(order: nat, name: Text): Text {
    (if order < 10 then U("0") else []) + NatText(order) + (U("-") + (name + U(".deploy-request.json")))
  }

  predicate LineSays(v: Data, r: Document, e: Document, name: Text, order: nat) {
    && v.Obj? && Number(Get(v.members, Order)) == Some(order) && Get(v.members, File) == Str(FileText(order, name))
    && Get(v.members, ContractName) == Str(name) && Get(v.members, RequestSha256) == Get(r, RequestSha256)
    && Get(v.members, ArtifactSha256) == Get(e, ArtifactSha256) && Get(v.members, ScriptSha256) == Get(e, ScriptSha256)
  }

  /** The contract part repeats the manifest entry. */
  predicate ContractSays(v: Data, e: Document, name: Text, order: nat) {
    && v.Obj? && Get(v.members, Order) == Int(order) && Get(v.members, ProfileName) == Str(name)
    && Get(v.members, SourceFile) == Get(e, SourceFile) && Get(v.members, ArtifactFile) == Get(e, ArtifactFile)
    && Get(v.members, SourceSha256) == Get(e, SourceSha256)
    && Get(v.members, ConstructorArgsSha256) == Get(e, ConstructorArgsSha256)
    && Get(v.members, ArtifactSha256) == Get(e, ArtifactSha256) && Get(v.members, ScriptSha256) == Get(e, ScriptSha256)
    && Number(Get(v.members, ScriptLen)) == Number(Get(e, ScriptLen)) && Number(Get(e, ScriptLen)).Some?
    && PyEqual(Get(v.members, CompilerVersion), Get(e, CompilerVersion))
    && PyEqual(Get(v.members, Abi), Get(e, Abi)) && PyEqual(Get(v.members, StateLayout), Get(e, StateLayout))
  }

  /** The request repeats its set. */
  predicate SharesSay(r: Document, d: Document, canary: bool) {
    && Network in d && PyEqual(Get(r, Network), d[Network]) && Get(r, RpcUrl) == Get(d, RpcUrl)
    && DeployerAddress in d && PyEqual(Get(r, DeployerAddress), d[DeployerAddress])
    && (canary ==> MetricsOraclePubkey !in r) && (!canary ==> Get(r, MetricsOraclePubkey) == Get(d, MetricsOraclePubkey))
    && Get(r, Silverscript).Obj?
    && Get(Get(r, Silverscript).members, Ref) == Get(d, SilverscriptRef)
    && Get(Get(r, Silverscript).members, Commit) == Get(d, SilverscriptCommit)
  }

  ghost predicate RequestSays(c: Check, r: Document, d: Document, e: Document, name: Text, order: nat, canary: bool) {
    && !HoldsSecret(r) && SealMatches(c.digest, r, RequestSha256)
    && Number(Get(r, SchemaVersion)) == Some(1)
    && Get(r, RequestType) == Str(U("prometheus_") + U("silverc_deploy_request"))
    && Get(r, Status) == Str(if canary then U("CANARY_READY_FOR_KEYLESS_GENESIS_OPERATOR") else U("READY_FOR_KEYLESS_GENESIS_OPERATOR"))
    && Get(r, SafetyScope) == Str(U("deploy_request_builder_only")) && FlagsSay(Get(r, Safety))
    && SharesSay(r, d, canary) && ClaimSays(c, Get(r, DeploymentProfile), canary)
    && ContractSays(Get(r, Contract), e, name, order)
    && name in c.constructorArgs && PyEqual(Get(r, ConstructorArgs), c.constructorArgs[name])
  }

  /** Line i of the set and its file are for entry j of the manifest. */
  ghost predicate ItemSays(c: Check, d: Document, files: map<Text, Data>, i: nat, j: nat, canary: bool)
    requires IsManifest(c.manifest, c.names) && j < |c.names|
  {
    var name, e, file := c.names[j], Entries(c.manifest, c.names)[j], FileText(j + 1, c.names[j]);
    && file in files && files[file].Obj?
    && LineSays(Line(d, i), files[file].members, e, name, j + 1)
    && RequestSays(c, files[file].members, d, e, name, j + 1, canary)
  }

  ghost predicate SetSays(c: Check, d: Document, files: map<Text, Data>, canary: bool)
    requires IsManifest(c.manifest, c.names)
  {
    && HeaderSays(c, d, canary)
    && (!canary ==> forall j :: 0 <= j < |c.names| ==> ItemSays(c, d, files, j, j, canary))
    && (canary ==> exists j :: 0 <= j < |c.names| && c.names[j] == U("ValidatorStakingH001") && ItemSays(c, d, files, 0, j, canary))
  }

  // ----- the verifier meets it -----

  lemma SecretExactly(d: Document)
    ensures KeysAllowed(Obj(d), VerifierFilter()) <==> !HoldsSecret(d)
  {
    hide AuditKeys.IsSecret;
    hide KeysAllowed;
    hide At;
    hide ReleaseNames.Write;
    KeysAllowedMissesNothing(Obj(d), VerifierFilter());
    forall path, k ensures BadAt(Obj(d), VerifierFilter(), path, k) <==> SecretAt(d, path, k) {
    }
  }

  lemma FlagsExactly(v: Data)
    ensures FlagsAccepted(v) <==> FlagsSay(v)
  {
  }

  lemma FileExactly(order: nat, name: Text)
    ensures FileName(order, name) == FileText(order, name)
  {
    assert U("0") == ['0' as int] && U("-") == ['-' as int];
  }

  lemma BlockerExactly(v: Data, t: Text)
    ensures In(t, v) <==> MentionsBlocker(v, t)
  {
    if v.Str? {
      forall i ensures IsAt(v.s, t, i) <==> RedactionPolicy.OccursAt(v.s, t, i) {
      }
    }
  }

  lemma ScalarEqual(v: Data, w: Data)
    ensures w.Str? ==> (PyEqual(v, w) <==> v == w)
    ensures Number(w).Some? ==> (PyEqual(v, w) <==> Number(v) == Number(w))
  {
  }

  lemma ContractExactly(v: Data, e: Document, name: Text, order: nat)
    requires IsEntry(e, name)
    ensures ContractAccepted(v, e, name, order) <==> ContractSays(v, e, name, order)
  {
    hide PyEqual;
    hide IsHexText;
    hide Truthy;
    if v.Obj? {
      var m := v.members;
      ScalarEqual(Get(m, ProfileName), e[ContractName]);
      ScalarEqual(Get(m, SourceFile), e[SourceFile]);
      ScalarEqual(Get(m, ArtifactFile), e[ArtifactFile]);
      ScalarEqual(Get(m, SourceSha256), e[SourceSha256]);
      ScalarEqual(Get(m, ConstructorArgsSha256), e[ConstructorArgsSha256]);
      ScalarEqual(Get(m, ArtifactSha256), e[ArtifactSha256]);
      ScalarEqual(Get(m, ScriptSha256), e[ScriptSha256]);
      ScalarEqual(Get(m, ScriptLen), e[ScriptLen]);
    }
  }

  function ProfileText(canary: bool): Text {
    if canary then Canary() else Full()
  }

  /** The profile in force, as a claim gives it. */
  ghost predicate InForce(c: Check, profile: Document, canary: bool)
    requires IsManifest(c.manifest, c.names)
  {
    && Selection(ProfileText(canary), c.names).Some?
    && profile == ExpectedProfile(c.digest, ProfileText(canary), c.manifest, c.names)
  }

  lemma InForceFacts(c: Check, profile: Document, canary: bool)
    requires IsManifest(c.manifest, c.names) && InForce(c, profile, canary)
    ensures Get(profile, ProfileName) == Str(ProfileText(canary)) && (Get(profile, ProfileName) == Str(Full()) <==> !canary)
    ensures IsCanary(profile) <==> canary
    ensures canary ==> U("ValidatorStakingH001") in c.names
  {
    hide U;
    hide IsManifest;
    hide ExpectedProfile;
    ProfilesDiffer();
  }

  lemma ClaimExactly(c: Check, v: Data, profile: Document, canary: bool)
    requires IsManifest(c.manifest, c.names) && InForce(c, profile, canary)
    ensures PyEqual(v, Obj(profile)) <==> ClaimSays(c, v, canary)
  {
    hide U;
    hide IsManifest;
    hide ExpectedProfile;
    hide ProfileSays;
    hide PyEqual;
    InForceFacts(c, profile, canary);
    ProfilesDiffer();
    if v.Obj? {
      ExpectedSays(c.digest, v.members, ProfileText(canary), c.manifest, c.names);
    } else if PyEqual(v, Obj(profile)) {
      ObjectOnly(v, profile);
    }
  }

  lemma SharesExactly(r: Document, d: Document, profile: Document, canary: bool)
    requires Get(profile, ProfileName) == Str(Full()) <==> !canary
    requires Get(d, RpcUrl).Str? && Get(d, SilverscriptRef).Str? && Get(d, SilverscriptCommit).Str?
    requires !canary ==> Get(d, MetricsOraclePubkey).Str?
    ensures SharedAccepted(r, d, profile) <==> SharesSay(r, d, canary)
  {
    hide U;
    hide PyEqual;
    ScalarEqual(Get(r, RpcUrl), Get(d, RpcUrl));
    ScalarEqual(Get(r, MetricsOraclePubkey), Get(d, MetricsOraclePubkey));
    if Get(r, Silverscript).Obj? {
      ScalarEqual(Get(Get(r, Silverscript).members, Ref), Get(d, SilverscriptRef));
      ScalarEqual(Get(Get(r, Silverscript).members, Commit), Get(d, SilverscriptCommit));
    }
  }

  /** What the header leaves for the requests to rely on. */
  ghost predicate Grounded(c: Check, d: Document, canary: bool) {
    && Get(d, RpcUrl).Str? && Get(d, SilverscriptRef).Str? && Get(d, SilverscriptCommit).Str?
    && (!canary ==> Get(d, MetricsOraclePubkey).Str?)
  }

  lemma RequestExactly(c: Check, r: Document, d: Document, profile: Document, e: Document, name: Text, order: nat, canary: bool)
    requires IsManifest(c.manifest, c.names) && InForce(c, profile, canary) && Grounded(c, d, canary)
    requires IsEntry(e, name) && name in c.constructorArgs
    ensures RequestAccepted(c, r, d, profile, e, name, order) <==> RequestSays(c, r, d, e, name, order, canary)
  {
    hide U;
    hide IsManifest;
    hide IsEntry;
    hide KeysAllowed;
    hide HoldsSecret;
    hide PyEqual;
    hide InForce;
    hide SharedAccepted;
    hide SharesSay;
    hide ContractAccepted;
    hide ContractSays;
    hide FlagsAccepted;
    hide FlagsSay;
    hide ClaimSays;
    hide IsCanary;
    hide SealMatches;
    hide Get;
    InForceFacts(c, profile, canary);
    SecretExactly(r);
    FlagsExactly(Get(r, Safety));
    SharesExactly(r, d, profile, canary);
    ClaimExactly(c, Get(r, DeploymentProfile), profile, canary);
    ContractExactly(Get(r, Contract), e, name, order);
    var one: Data := Int(1);
    ScalarEqual(Get(r, SchemaVersion), one);
  }

  lemma LineExactly(v: Data, r: Document, e: Document, name: Text, order: nat)
    requires IsEntry(e, name) && Get(r, RequestSha256).Str?
    ensures LineAccepted(v, r, e, name, order) <==> LineSays(v, r, e, name, order)
  {
    hide PyEqual;
    hide FileName;
    hide FileText;
    hide Truthy;
    hide IsHexText;
    FileExactly(order, name);
    if v.Obj? {
      var n: Data := Int(order);
      ScalarEqual(Get(v.members, Order), n);
      ScalarEqual(Get(v.members, RequestSha256), Get(r, RequestSha256));
    }
  }

  lemma ArgsListed(c: Check, r: Document, d: Document, e: Document, name: Text, order: nat, canary: bool)
    requires RequestSays(c, r, d, e, name, order, canary)
    ensures name in c.constructorArgs
  {
    hide U;
    hide HoldsSecret;
    hide SharesSay;
    hide ContractSays;
    hide FlagsSay;
    hide ClaimSays;
  }

  lemma AcceptedSeal(c: Check, r: Document, d: Document, profile: Document, e: Document, name: Text, order: nat, canary: bool)
    requires IsEntry(e, name)
    requires (name in c.constructorArgs && RequestAccepted(c, r, d, profile, e, name, order)) || RequestSays(c, r, d, e, name, order, canary)
    ensures Get(r, RequestSha256).Str?
  {
    hide U;
    hide IsEntry;
    hide KeysAllowed;
    hide PyEqual;
    hide HoldsSecret;
    hide SharedAccepted;
    hide SharesSay;
    hide ContractAccepted;
    hide ContractSays;
    hide FlagsAccepted;
    hide FlagsSay;
    hide ClaimSays;
    hide IsCanary;
  }

  lemma ItemExactly(c: Check, d: Document, files: map<Text, Data>, profile: Document, i: nat, j: nat, canary: bool)
    requires IsManifest(c.manifest, c.names) && Distinct(c.names) && InForce(c, profile, canary) && Grounded(c, d, canary)
    requires j < |c.names|
    ensures ItemAccepted(c, d, files, profile, Line(d, i), Entries(c.manifest, c.names)[j], c.names[j]) <==>
      ItemSays(c, d, files, i, j, canary)
  {
    hide U;
    hide IsManifest;
    hide IsEntry;
    hide InForce;
    hide Grounded;
    hide Distinct;
    hide LineAccepted;
    hide LineSays;
    hide FileName;
    hide FileText;
    hide Line;
    hide RequestAccepted;
    hide RequestSays;
    hide Get;
    var name, e := c.names[j], Entries(c.manifest, c.names)[j];
    OrderFound(c.names, j + 1);
    FileExactly(j + 1, name);
    var file := FileText(j + 1, name);
    if file in files && files[file].Obj? {
      var r := files[file].members;
      if name in c.constructorArgs {
        RequestExactly(c, r, d, profile, e, name, j + 1, canary);
      }
      if RequestSays(c, r, d, e, name, j + 1, canary) {
        ArgsListed(c, r, d, e, name, j + 1, canary);
        AcceptedSeal(c, r, d, profile, e, name, j + 1, canary);
        LineExactly(Line(d, i), r, e, name, j + 1);
      }
    }
  }

  /** The manifest entries of an accepted claim are those of the contracts it selects. */
  lemma ClaimGives(c: Check, d: Document, canary: bool)
    requires IsManifest(c.manifest, c.names) && Distinct(c.names) && ClaimSays(c, Get(d, DeploymentProfile), canary)
    ensures var p := ClaimedProfile(c, d);
      && p.Profile? && InForce(c, p.expected, canary) && p.selected == ReceiptContents.Claimed(c.names, canary)
  {
    hide U;
    hide IsManifest;
    hide ExpectedProfile;
    hide ProfileSays;
    hide PyEqual;
    hide Entries;
    hide Chosen;
    hide ChosenNames;
    hide Distinct;
    ProfilesDiffer();
    var v := Get(d, DeploymentProfile);
    AcceptedProfileSays(c.digest, v, c.manifest, c.names);
    ReceiptContents.ProfileNamed(c.digest, v, c.manifest, c.names, canary);
    SaysName(c, v.members, canary);
  }

  lemma SaysName(c: Check, d: Document, canary: bool)
    requires ProfileSays(c.digest, d, c.manifest, c.names, canary)
    ensures Get(d, ProfileName) == Str(ProfileText(canary))
  {
    hide U;
  }

  lemma EntriesPlaced(entries: seq<Document>, names: seq<Text>, selected: seq<Text>, i: nat)
    requires |entries| == |names| && Distinct(names) && forall j :: 0 <= j < |names| ==> IsEntry(entries[j], names[j])
    requires i < |ChosenNames(names, selected)|
    ensures |Chosen(entries, names, selected)| == |ChosenNames(names, selected)|
    ensures var name := ChosenNames(names, selected)[i];
      name in names && Chosen(entries, names, selected)[i] == entries[ManifestOrder(names, name) - 1]
  {
    hide IsEntry;
    hide Plan;
    hide Chosen;
    hide ChosenNames;
    PlanIsChosen(entries, names, selected);
    var p := Plan(entries, names, selected)[i];
    OrderFound(names, p.order);
  }

  lemma EntriesOfClaim(c: Check, d: Document, i: nat)
    requires IsManifest(c.manifest, c.names) && Distinct(c.names) && ClaimedProfile(c, d).Profile?
    requires i < |ClaimedProfile(c, d).selected|
    ensures var p := ClaimedProfile(c, d);
      && |p.entries| == |p.selected| && p.selected[i] in c.names
      && p.entries[i] == Entries(c.manifest, c.names)[ManifestOrder(c.names, p.selected[i]) - 1]
  {
    hide U;
    hide IsManifest;
    hide IsEntry;
    hide ExpectedProfile;
    hide PyEqual;
    hide Chosen;
    hide ChosenNames;
    hide Distinct;
    var p := ClaimedProfile(c, d);
    EntriesPlaced(Entries(c.manifest, c.names), c.names, p.selected, i);
  }

  lemma InputsExactly(c: Check, d: Document, canary: bool)
    ensures InputsAllowed(ProfileText(canary), Get(d, Network), Get(d, RpcUrl), Get(d, MetricsOraclePubkey)) <==> InputsSay(d, canary)
  {
    hide U;
    hide IsHex32;
    hide ReceiptContents.Hex32;
    ProfilesDiffer();
    if Get(d, MetricsOraclePubkey).Str? {
      ReceiptContents.Hex32Says(Get(d, MetricsOraclePubkey).s);
    }
  }

  lemma ManifestTexts(c: Check)
    requires IsManifest(c.manifest, c.names)
    ensures Get(c.manifest, SilverscriptRef).Str? && Get(c.manifest, SilverscriptCommit).Str?
    ensures SilverscriptRef in c.manifest && SilverscriptCommit in c.manifest
  {
    hide IsEntry;
  }

  lemma RpcExactly(rules: Rules, rpc: Data, network: Data)
    ensures RpcAllowed(rules.url, rpc, network) <==> RpcSays(rules, rpc, network)
  {
    hide U;
  }

  lemma HeaderExactly(c: Check, d: Document, canary: bool)
    requires IsManifest(c.manifest, c.names) && Distinct(c.names) && ClaimSays(c, Get(d, DeploymentProfile), canary)
    ensures HeaderAccepted(c, d) <==> HeaderSays(c, d, canary)
  {
    hide U;
    hide IsManifest;
    hide KeysAllowed;
    hide HoldsSecret;
    hide SealMatches;
    hide PyEqual;
    hide ClaimedProfile;
    hide ClaimSays;
    hide InForce;
    hide InputsAllowed;
    hide InputsSay;
    hide In;
    hide MentionsBlocker;
    hide FlagsAccepted;
    hide FlagsSay;
    hide IsCanary;
    hide Distinct;
    hide Get;
    hide RpcAllowed;
    hide RpcSays;
    RpcExactly(c.rules, Get(d, RpcUrl), Get(d, Network));
    var p := ClaimedProfile(c, d);
    ClaimGives(c, d, canary);
    InForceFacts(c, p.expected, canary);
    ClaimCount(c, d, canary);
    SecretExactly(d);
    InputsExactly(c, d, canary);
    BlockerExactly(Get(d, Blockers), c.rules.blocker);
    FlagsExactly(Get(d, Safety));
    ManifestTexts(c);
    ManifestGets(c);
    var one: Data, count: Data := Int(1), Int(|p.entries|);
    ScalarEqual(Get(d, SchemaVersion), one);
    ScalarEqual(Get(d, RequestCount), count);
  }

  lemma ManifestGets(c: Check)
    requires SilverscriptRef in c.manifest && SilverscriptCommit in c.manifest
    ensures Get(c.manifest, SilverscriptRef) == c.manifest[SilverscriptRef] && Get(c.manifest, SilverscriptCommit) == c.manifest[SilverscriptCommit]
  {
  }

  lemma ClaimCount(c: Check, d: Document, canary: bool)
    requires IsManifest(c.manifest, c.names) && Distinct(c.names) && ClaimSays(c, Get(d, DeploymentProfile), canary)
    ensures ClaimedProfile(c, d).Profile? && |ClaimedProfile(c, d).entries| == (if canary then 1 else |c.names|)
    ensures |ClaimedProfile(c, d).entries| == |ClaimedProfile(c, d).selected|
  {
    hide U;
    hide IsManifest;
    hide ClaimSays;
    hide InForce;
    ClaimGives(c, d, canary);
    ClaimedAligned(c, d);
  }

  lemma HeaderGrounds(c: Check, d: Document, canary: bool)
    requires IsManifest(c.manifest, c.names) && HeaderSays(c, d, canary)
    ensures Grounded(c, d, canary) && ClaimSays(c, Get(d, DeploymentProfile), canary)
  {
    hide U;
    hide IsManifest;
    hide HoldsSecret;
    hide ClaimSays;
    hide MentionsBlocker;
    hide FlagsSay;
    hide SealMatches;
    ManifestTexts(c);
  }

  /** Line i is for the manifest entry of the i-th selected contract. */
  lemma ItemPlaced(c: Check, d: Document, files: map<Text, Data>, i: nat, j: nat, canary: bool)
    requires IsManifest(c.manifest, c.names) && Distinct(c.names) && HeaderSays(c, d, canary)
    requires ClaimedProfile(c, d).Profile? && i < |ClaimedProfile(c, d).selected| && i < |ClaimedProfile(c, d).entries|
    requires j < |c.names| && ClaimedProfile(c, d).selected[i] == c.names[j]
    ensures var p := ClaimedProfile(c, d);
      ItemAccepted(c, d, files, p.expected, Line(d, i), p.entries[i], p.selected[i]) <==> ItemSays(c, d, files, i, j, canary)
  {
    hide U;
    hide IsManifest;
    hide IsEntry;
    hide Distinct;
    hide HeaderSays;
    hide ClaimSays;
    hide ClaimedProfile;
    hide InForce;
    hide Grounded;
    hide ItemAccepted;
    hide ItemSays;
    HeaderGrounds(c, d, canary);
    ClaimGives(c, d, canary);
    EntriesOfClaim(c, d, i);
    OrderFound(c.names, j + 1);
    ItemExactly(c, d, files, ClaimedProfile(c, d).expected, i, j, canary);
  }

  lemma SetExactly(c: Check, d: Document, files: map<Text, Data>, canary: bool)
    requires IsManifest(c.manifest, c.names) && Distinct(c.names) && ClaimSays(c, Get(d, DeploymentProfile), canary)
    ensures SetAccepted(c, d, files) <==> SetSays(c, d, files, canary)
  {
    hide U;
    hide IsManifest;
    hide IsEntry;
    hide Distinct;
    hide HeaderAccepted;
    hide HeaderSays;
    hide ClaimSays;
    hide ClaimedProfile;
    hide InForce;
    hide ItemAccepted;
    hide ItemSays;
    hide Line;
    hide Get;
    HeaderExactly(c, d, canary);
    ClaimGives(c, d, canary);
    ClaimCount(c, d, canary);
    var p := ClaimedProfile(c, d);
    if HeaderSays(c, d, canary) {
      if canary {
        CanaryNamed(c, d);
        forall j | 0 <= j < |c.names| && c.names[j] == U("ValidatorStakingH001") ensures
          ItemAccepted(c, d, files, p.expected, Line(d, 0), p.entries[0], p.selected[0]) <==> ItemSays(c, d, files, 0, j, canary)
        {
          ItemPlaced(c, d, files, 0, j, canary);
        }
      } else {
        forall j | 0 <= j < |c.names| ensures
          ItemAccepted(c, d, files, p.expected, Line(d, j), p.entries[j], p.selected[j]) <==> ItemSays(c, d, files, j, j, canary)
        {
          ItemPlaced(c, d, files, j, j, canary);
        }
      }
    }
  }

  lemma CanaryNamed(c: Check, d: Document)
    requires ClaimSays(c, Get(d, DeploymentProfile), true)
    ensures exists j :: 0 <= j < |c.names| && c.names[j] == U("ValidatorStakingH001")
  {
    hide U;
    hide ProfileSays;
  }

  /** validate_request_set accepts exactly the sets and files that say this, for the full release or the canary. */
  lemma AcceptedSetsExactly(c: Check, d: Document, files: map<Text, Data>)
    requires IsManifest(c.manifest, c.names) && Distinct(c.names)
    ensures SetAccepted(c, d, files) <==> exists canary :: SetSays(c, d, files, canary)
  {
    hide U;
    hide IsManifest;
    hide Distinct;
    hide SetAccepted;
    hide SetSays;
    hide ProfileSays;
    hide Get;
    if SetAccepted(c, d, files) {
      var canary := AcceptedClaim(c, d, files);
      SetExactly(c, d, files, canary);
    }
    if canary :| SetSays(c, d, files, canary) {
      SaidClaim(c, d, files, canary);
      SetExactly(c, d, files, canary);
    }
  }

  lemma AcceptedClaim(c: Check, d: Document, files: map<Text, Data>) returns (canary: bool)
    requires IsManifest(c.manifest, c.names) && Distinct(c.names) && SetAccepted(c, d, files)
    ensures ClaimSays(c, Get(d, DeploymentProfile), canary)
  {
    hide U;
    hide IsManifest;
    hide Distinct;
    hide ItemAccepted;
    hide ProfileFieldsAccepted;
    hide KeysAllowed;
    hide RpcAllowed;
    hide SealMatches;
    hide ProfileSays;
    hide ValidateProfile;
    hide Get;
    AcceptedProfileSays(c.digest, Get(d, DeploymentProfile), c.manifest, c.names);
    canary := !ProfileSays(c.digest, Get(d, DeploymentProfile).members, c.manifest, c.names, false);
  }

  lemma SaidClaim(c: Check, d: Document, files: map<Text, Data>, canary: bool)
    requires IsManifest(c.manifest, c.names) && SetSays(c, d, files, canary)
    ensures ClaimSays(c, Get(d, DeploymentProfile), canary)
  {
    hide U;
    hide IsManifest;
    hide ItemSays;
    hide HeaderSays;
    HeaderGrounds(c, d, canary);
  }
}
