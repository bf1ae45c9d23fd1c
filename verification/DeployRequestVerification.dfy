/**
  The deploy-request verifier, written apart from the builder, and the theorem that joins
  them: what the builder prints is accepted, with the same order, files and hashes, exactly
  when no selected manifest entry hides a secret-like key.
 */
module DeployRequestVerification {
  import opened Texts
  import opened CanonicalJson
  import opened DeploymentProfiles
  import opened DeployRequests
  import AuditKeys
  import ReleaseNames
  import RedactionPolicy
  import SecretNames

  /** What the verifier works from besides the documents it checks. */
  datatype Check = Check(digest: Hexdigest, rules: Rules, manifest: Document, names: seq<Text>, constructorArgs: map<Text, Data>)

  datatype Verified = Verified(order: nat, name: Text, file: Text, requestSha: Data, artifactSha: Data, scriptSha: Data)

  const FLAGS: set<Name> := {
    AcceptsPrivateKeys, SignsTransactions, AssemblesChainTransaction, BroadcastsTransactions, DeploysContracts,
    UpdatesStatusFiles
  }

  /** require_false_flags: exactly the six flags, each false. */
  predicate FlagsAccepted(v: Data) {
    v.Obj? && v.members.Keys == FLAGS && forall k :: k in v.members ==> v.members[k] == Bool(false)
  }

  predicate IsAt(t: Text, needle: Text, i: int) {
    0 <= i <= |t| - |needle| && t[i..i + |needle|] == needle
  }

  /** The in operator: list membership, substring, or dict key, whichever the document holds. */
  predicate In(needle: Text, v: Data) {
    match v
    case Arr(xs) => Str(needle) in xs
    case Str(s) => exists i :: 0 <= i <= |s| && IsAt(s, needle, i)
    case Obj(m) => Other(needle) in m
    case _ => false
  }

  // ----- the request set -----

  /** The checks that need the profile the set claims. */
  predicate ProfileFieldsAccepted(c: Check, d: Document, profile: Document, count: nat)
    requires SilverscriptRef in c.manifest && SilverscriptCommit in c.manifest && Get(profile, ProfileName).Str?
  {
    hide U;
    hide SetStatus;
    hide Scope;
    hide InputsAllowed;
    && InputsAllowed(Get(profile, ProfileName).s, Get(d, Network), Get(d, RpcUrl), Get(d, MetricsOraclePubkey))
    && PyEqual(Get(d, SchemaVersion), Int(1))
    && Get(d, Status) == Str(SetStatus(IsCanary(profile)))
    && Get(d, SilverscriptRef) == c.manifest[SilverscriptRef]
    && Get(d, SilverscriptCommit) == c.manifest[SilverscriptCommit]
    && PyEqual(Get(d, RequestCount), Int(count))
    && In(c.rules.blocker, Get(d, Blockers))
    && FlagsAccepted(Get(d, Safety))
    && Get(d, SafetyScope) == Str(Scope())
    && Get(d, Requests).Arr? && |Get(d, Requests).items| == count
  }

  function ClaimedProfile(c: Check, d: Document): (p: ProfileCheck)
    requires IsManifest(c.manifest, c.names)
    ensures p.Profile? ==> Get(p.expected, ProfileName).Str?
  {
    ValidateProfile(c.digest, Get(d, DeploymentProfile), c.manifest, c.names)
  }

  /** validate_request_set up to its loop. */
  predicate HeaderAccepted(c: Check, d: Document)
    requires IsManifest(c.manifest, c.names)
  {
    && KeysAllowed(Obj(d), VerifierFilter())
    && SealMatches(c.digest, d, RequestSetSha256)
    && RpcAllowed(c.rules.url, Get(d, RpcUrl), Get(d, Network))
    && ClaimedProfile(c, d).Profile?
    && ProfileFieldsAccepted(c, d, ClaimedProfile(c, d).expected, |ClaimedProfile(c, d).entries|)
  }

  // ----- one request -----

  /** validate_contract_payload. */
  predicate ContractAccepted(v: Data, e: Document, name: Text, order: nat)
    requires IsEntry(e, name)
  {
    && v.Obj? && Get(v.members, Order) == Int(order)
    && PyEqual(Get(v.members, ProfileName), e[ContractName])
    && PyEqual(Get(v.members, SourceFile), e[SourceFile])
    && PyEqual(Get(v.members, ArtifactFile), e[ArtifactFile])
    && PyEqual(Get(v.members, CompilerVersion), e[CompilerVersion])
    && PyEqual(Get(v.members, ScriptLen), e[ScriptLen])
    && PyEqual(Get(v.members, SourceSha256), e[SourceSha256])
    && PyEqual(Get(v.members, ConstructorArgsSha256), e[ConstructorArgsSha256])
    && PyEqual(Get(v.members, ArtifactSha256), e[ArtifactSha256])
    && PyEqual(Get(v.members, ScriptSha256), e[ScriptSha256])
    && PyEqual(Get(v.members, Abi), e[Abi])
    && PyEqual(Get(v.members, StateLayout), e[StateLayout])
  }

  /** The fields a request must share with its request set. */
  predicate SharedAccepted(r: Document, d: Document, profile: Document) {
    && Network in d && PyEqual(Get(r, Network), d[Network])
    && RpcUrl in d && PyEqual(Get(r, RpcUrl), d[RpcUrl])
    && DeployerAddress in d && PyEqual(Get(r, DeployerAddress), d[DeployerAddress])
    && (if Get(profile, ProfileName) == Str(Full())
        then MetricsOraclePubkey in d && PyEqual(Get(r, MetricsOraclePubkey), d[MetricsOraclePubkey])
        else MetricsOraclePubkey !in r)
    && Get(r, Silverscript).Obj?
    && PyEqual(Get(Get(r, Silverscript).members, Ref), Get(d, SilverscriptRef))
    && PyEqual(Get(Get(r, Silverscript).members, Commit), Get(d, SilverscriptCommit))
  }

  /** validate_request_file, the checks on the request itself. */
  predicate RequestAccepted(c: Check, r: Document, d: Document, profile: Document, e: Document, name: Text, order: nat)
    requires IsEntry(e, name) && name in c.constructorArgs
  {
    && KeysAllowed(Obj(r), VerifierFilter())
    && SealMatches(c.digest, r, RequestSha256)
    && PyEqual(Get(r, SchemaVersion), Int(1))
    && Get(r, RequestType) == Str(RequestTypeText())
    && Get(r, Status) == Str(RequestStatus(IsCanary(profile)))
    && Get(r, SafetyScope) == Str(Scope())
    && SharedAccepted(r, d, profile)
    && PyEqual(Get(r, DeploymentProfile), Obj(profile))
    && ContractAccepted(Get(r, Contract), e, name, order)
    && PyEqual(Get(r, ConstructorArgs), c.constructorArgs[name])
    && FlagsAccepted(Get(r, Safety))
  }

  /** The request set's line for a request. */
  predicate LineAccepted(v: Data, r: Document, e: Document, name: Text, order: nat)
    requires IsEntry(e, name)
  {
    && v.Obj? && PyEqual(Get(v.members, Order), Int(order))
    && Get(v.members, File) == Str(FileName(order, name))
    && Get(v.members, ContractName) == Str(name)
    && RequestSha256 in r && PyEqual(Get(v.members, RequestSha256), r[RequestSha256])
    && Get(v.members, ArtifactSha256) == e[ArtifactSha256]
    && Get(v.members, ScriptSha256) == e[ScriptSha256]
  }

  /** One turn of the loop over request lines and manifest entries. */
  predicate ItemAccepted(c: Check, d: Document, files: map<Text, Data>, profile: Document, line: Data, e: Document, name: Text) {
    && name in c.names && IsEntry(e, name) && name in c.constructorArgs
    && var order := ManifestOrder(c.names, name);
       var file := FileName(order, name);
       && file in files && files[file].Obj?
       && LineAccepted(line, files[file].members, e, name, order)
       && RequestAccepted(c, files[file].members, d, profile, e, name, order)
  }

  /** The line of the verification summary for an accepted item. */
  function VerifiedItem(c: Check, files: map<Text, Data>, e: Document, name: Text): Verified {
    var order := if name in c.names then ManifestOrder(c.names, name) else 0;
    var file := FileName(order, name);
    var request := if file in files && files[file].Obj? then files[file].members else map[];
    Verified(order, name, file, Get(request, RequestSha256), Get(e, ArtifactSha256), Get(e, ScriptSha256))
  }

  function Line(d: Document, i: nat): Data {
    var requests := Get(d, Requests);
    if requests.Arr? && i < |requests.items| then requests.items[i] else Null
  }

  predicate SetAccepted(c: Check, d: Document, files: map<Text, Data>)
    requires IsManifest(c.manifest, c.names)
  {
    hide ItemAccepted;
    hide ProfileFieldsAccepted;
    hide ClaimedProfile;
    && HeaderAccepted(c, d)
    && var p := ClaimedProfile(c, d);
       && |p.selected| == |p.entries|
       && forall i :: 0 <= i < |p.entries| ==> ItemAccepted(c, d, files, p.expected, Line(d, i), p.entries[i], p.selected[i])
  }

  /** The lines of the verification summary, one per selected contract. */
  function Summary(c: Check, files: map<Text, Data>, p: ProfileCheck): (vs: seq<Verified>) {
    if p.Profile? && |p.selected| == |p.entries|
    then seq(|p.entries|, i requires 0 <= i < |p.entries| => VerifiedItem(c, files, p.entries[i], p.selected[i]))
    else []
  }

  /** validate_request_set. */
  method Validate(c: Check, d: Document, files: map<Text, Data>) returns (r: Option<seq<Verified>>)
    requires IsManifest(c.manifest, c.names)
    ensures r.Some? <==> SetAccepted(c, d, files)
    ensures r.Some? ==> r.value == Summary(c, files, ClaimedProfile(c, d))
  {
    hide ProfileFieldsAccepted;
    hide SealMatches;
    hide KeysAllowed;
    hide RpcAllowed;
    hide ItemAccepted;
    hide IsManifest;
    hide ClaimedProfile;
    hide VerifiedItem;
    if !HeaderAccepted(c, d) {
      return None;
    }
    var p := ClaimedProfile(c, d);
    ClaimedAligned(c, d);
    var verified: seq<Verified> := [];
    for i := 0 to |p.entries|
      invariant |verified| == i
      invariant forall j :: 0 <= j < i ==> ItemAccepted(c, d, files, p.expected, Line(d, j), p.entries[j], p.selected[j])
      invariant forall j :: 0 <= j < i ==> verified[j] == VerifiedItem(c, files, p.entries[j], p.selected[j])
    {
      if !ItemAccepted(c, d, files, p.expected, Line(d, i), p.entries[i], p.selected[i]) {
        return None;
      }
      verified := verified + [VerifiedItem(c, files, p.entries[i], p.selected[i])];
    }
    return Some(verified);
  }

  lemma ClaimedAligned(c: Check, d: Document)
    requires IsManifest(c.manifest, c.names) && ClaimedProfile(c, d).Profile?
    ensures var p := ClaimedProfile(c, d);
      |p.selected| == |p.entries| && forall i :: 0 <= i < |p.entries| ==> IsEntry(p.entries[i], p.selected[i]) && p.selected[i] in c.names
  {
    hide IsEntry;
    hide IsManifest;
    hide ExpectedProfile;
    hide PyEqual;
    ChosenAligned(Entries(c.manifest, c.names), c.names, ClaimedProfile(c, d).selected);
  }

  lemma {:induction false} ChosenAligned(entries: seq<Document>, names: seq<Text>, selected: seq<Text>)
    requires |entries| == |names| && forall i :: 0 <= i < |names| ==> IsEntry(entries[i], names[i])
    ensures |Chosen(entries, names, selected)| == |ChosenNames(names, selected)|
    ensures forall i :: 0 <= i < |ChosenNames(names, selected)| ==>
      IsEntry(Chosen(entries, names, selected)[i], ChosenNames(names, selected)[i]) && ChosenNames(names, selected)[i] in names
  {
    hide IsEntry;
    if names != [] {
      var n := |names| - 1;
      ChosenAligned(entries[..n], names[..n], selected);
      assert forall t :: t in names[..n] ==> t in names;
    }
  }

  // ----- builder against verifier -----

  function CheckOf(job: Job): Check {
    Check(job.digest, job.rules, job.manifest, job.names, job.constructorArgs)
  }

  /** No secret-like key inside the parts of a manifest entry that a request copies as they are. */
  predicate NothingSecret(e: Document) {
    && KeysAllowed(Get(e, Abi), VerifierFilter())
    && KeysAllowed(Get(e, StateLayout), VerifierFilter())
    && KeysAllowed(Get(e, CompilerVersion), VerifierFilter())
  }

  /** The verifier's filtered manifest entries are the builder's plan. */
  lemma {:induction false} PlanIsChosen(entries: seq<Document>, names: seq<Text>, selected: seq<Text>)
    requires |entries| == |names| && forall i :: 0 <= i < |names| ==> IsEntry(entries[i], names[i])
    ensures var plan := Plan(entries, names, selected);
      && |plan| == |Chosen(entries, names, selected)| == |ChosenNames(names, selected)|
      && forall i :: 0 <= i < |plan| ==>
           Chosen(entries, names, selected)[i] == plan[i].entry && ChosenNames(names, selected)[i] == plan[i].name
  {
    hide IsEntry;
    if names != [] {
      PlanIsChosen(entries[..|names| - 1], names[..|names| - 1], selected);
    }
  }

  lemma SealBuilt(digest: Hexdigest, body: Document, key: Name)
    requires IsHexDigest(digest) && key !in body
    ensures SealMatches(digest, Seal(digest, body, key), key)
  {
    assert Seal(digest, body, key) - {key} == body;
  }

  /** The verifier's filter is the laxer one. */
  lemma {:induction false} BuilderFilterIsStricter(v: Data)
    requires KeysAllowed(v, BuilderFilter())
    ensures KeysAllowed(v, VerifierFilter())
    decreases v
  {
    match v
    case Arr(xs) =>
      forall i | 0 <= i < |xs| ensures KeysAllowed(xs[i], VerifierFilter()) {
        BuilderFilterIsStricter(xs[i]);
      }
    case Obj(m) =>
      forall k | k in m ensures !VerifierFilter()(k, m[k]) && KeysAllowed(m[k], VerifierFilter()) {
        BuilderFilterIsStricter(m[k]);
      }
    case _ =>
  }

  lemma ScalarAllowed(v: Data, filter: (Name, Data) -> bool)
    requires !v.Arr? && !v.Obj?
    ensures KeysAllowed(v, filter)
  {
  }

  lemma ObjectAllowed(m: Document, filter: (Name, Data) -> bool)
    ensures KeysAllowed(Obj(m), filter) <==> forall k :: k in m ==> !filter(k, m[k]) && KeysAllowed(m[k], filter)
  {
  }

  /** An object of the programs' own names passes when its values do. */
  lemma NamedAllowed(m: Document)
    requires forall k :: k in m ==> !k.Other? && KeysAllowed(m[k], VerifierFilter())
    ensures KeysAllowed(Obj(m), VerifierFilter())
  {
    hide RefusedName;
    hide KeysAllowed;
    forall k | k in m ensures !VerifierFilter()(k, m[k]) {
      NamedPasses(k);
    }
    ObjectAllowed(m, VerifierFilter());
  }

  lemma FlagsBuilt()
    ensures FlagsAccepted(Obj(SafetyFlags())) && KeysAllowed(Obj(SafetyFlags()), VerifierFilter())
  {
    hide RefusedName;
    NamedAllowed(SafetyFlags());
  }

  lemma StringsAllowed(ts: seq<Text>)
    ensures KeysAllowed(Strings(ts), VerifierFilter())
  {
  }

  lemma ProfileAllowed(job: Job)
    requires IsManifest(job.manifest, job.names) && job.Selects()
    ensures KeysAllowed(Obj(job.Profile()), VerifierFilter())
  {
    hide U;
    hide Selection;
    hide RefusedName;
    StringsAllowed(Selection(job.args.profile, job.names).value);
    NamedAllowed(job.Profile());
  }

  lemma ContractBuilt(e: Document, name: Text, order: nat)
    requires IsEntry(e, name)
    ensures ContractAccepted(Obj(ContractPart(e, name, order)), e, name, order)
  {
    hide PyEqual;
    PyEqualReflexive(e[ContractName]);
    PyEqualReflexive(e[SourceFile]);
    PyEqualReflexive(e[ArtifactFile]);
    PyEqualReflexive(e[CompilerVersion]);
    PyEqualReflexive(e[ScriptLen]);
    PyEqualReflexive(e[SourceSha256]);
    PyEqualReflexive(e[ConstructorArgsSha256]);
    PyEqualReflexive(e[ArtifactSha256]);
    PyEqualReflexive(e[ScriptSha256]);
    PyEqualReflexive(e[Abi]);
    PyEqualReflexive(e[StateLayout]);
  }

  lemma ContractKeys(e: Document, name: Text, order: nat)
    requires IsEntry(e, name)
    ensures KeysAllowed(Obj(ContractPart(e, name, order)), VerifierFilter()) <==> NothingSecret(e)
  {
    hide RefusedName;
    var part := ContractPart(e, name, order);
    assert part[Abi] == e[Abi] && part[StateLayout] == e[StateLayout] && part[CompilerVersion] == e[CompilerVersion];
    forall k | k in part && k !in {Abi, StateLayout, CompilerVersion} ensures KeysAllowed(part[k], VerifierFilter()) {
      assert part[k].Str? || IsNumber(part[k]);
    }
    if NothingSecret(e) {
      NamedAllowed(part);
    }
  }

  predicate RequestKey(k: Name) {
    k.SchemaVersion? || k.RequestType? || k.Status? || k.Network? || k.RpcUrl? || k.DeployerAddress? ||
    k.DeploymentProfile? || k.Silverscript? || k.Contract? || k.ConstructorArgs? || k.OrchestratorRequirements? ||
    k.Safety? || k.SafetyScope?
  }

  /** The fields of a request with these parts. */
  ghost predicate HoldsRequest(r: Document, p: RequestParts) {
    && Get(r, SchemaVersion) == Int(1) && Get(r, RequestType) == Str(RequestTypeText()) && Get(r, Status) == p.status
    && Get(r, Network) == p.network && Get(r, RpcUrl) == p.rpc && Get(r, DeployerAddress) == p.deployer
    && Get(r, DeploymentProfile) == p.profile && Get(r, Silverscript) == p.silverscript && Get(r, Contract) == p.contract
    && Get(r, ConstructorArgs) == p.constructorArgs && Get(r, OrchestratorRequirements) == p.requirements
    && Get(r, Safety) == Obj(SafetyFlags()) && Get(r, SafetyScope) == Str(Scope())
  }

  lemma FieldsHold(p: RequestParts)
    ensures HoldsRequest(RequestFields(p), p)
  {
    hide RequestTypeText;
    hide SafetyFlags;
    hide Strings;
    hide Scope;
  }

  lemma FieldsHave(p: RequestParts, k: Name)
    requires RequestKey(k)
    ensures k in RequestFields(p)
  {
    hide SafetyFlags;
    hide Scope;
    hide RequestTypeText;
  }

  lemma FieldsOnly(p: RequestParts, k: Name)
    requires k in RequestFields(p)
    ensures RequestKey(k)
  {
    hide SafetyFlags;
    hide Scope;
    hide RequestTypeText;
  }

  lemma FieldsKeyed(p: RequestParts, k: Name)
    ensures k in RequestFields(p) <==> RequestKey(k)
  {
    hide RequestFields;
    hide RequestKey;
    if RequestKey(k) {
      FieldsHave(p, k);
    }
    if k in RequestFields(p) {
      FieldsOnly(p, k);
    }
  }

  /** Adding the oracle key and the seal leaves the other fields alone. */
  lemma SealedGet(digest: Hexdigest, body: Document, args: Inputs, seal: Name, k: Name)
    requires seal != MetricsOraclePubkey && MetricsOraclePubkey !in body && seal !in body
    ensures var d := Seal(digest, WithKey(body, args), seal);
      && (k in d <==> k in body || k == seal || (k == MetricsOraclePubkey && args.key.Some?))
      && Get(d, k) == if k == seal then Str(digest(Obj(WithKey(body, args)))) else if k == MetricsOraclePubkey then KeyData(args) else Get(body, k)
  {
    hide Seal;
    hide WithKey;
    KeyedGet(body, args, k);
    KeyedGet(body, args, seal);
    SealGet(digest, WithKey(body, args), seal, k);
  }

  lemma KeyedGet(body: Document, args: Inputs, k: Name)
    requires MetricsOraclePubkey !in body
    ensures k in WithKey(body, args) <==> k in body || (k == MetricsOraclePubkey && args.key.Some?)
    ensures Get(WithKey(body, args), k) == if k == MetricsOraclePubkey then KeyData(args) else Get(body, k)
  {
  }

  lemma SealGet(digest: Hexdigest, body: Document, seal: Name, k: Name)
    ensures k in Seal(digest, body, seal) <==> k in body || k == seal
    ensures Get(Seal(digest, body, seal), k) == if k == seal then Str(digest(Obj(body))) else Get(body, k)
  {
  }

  lemma RequestGet(digest: Hexdigest, p: RequestParts, args: Inputs, k: Name)
    ensures var d := Seal(digest, WithKey(RequestFields(p), args), RequestSha256);
      && (k in d <==> RequestKey(k) || k.RequestSha256? || (k.MetricsOraclePubkey? && args.key.Some?))
      && Get(d, k) == if k.RequestSha256? then Str(digest(Obj(WithKey(RequestFields(p), args))))
           else if k.MetricsOraclePubkey? then KeyData(args) else Get(RequestFields(p), k)
  {
    hide RequestFields;
    hide WithKey;
    hide Seal;
    FieldsKeyed(p, MetricsOraclePubkey);
    FieldsKeyed(p, RequestSha256);
    FieldsKeyed(p, k);
    SealedGet(digest, RequestFields(p), args, RequestSha256, k);
  }

  lemma RequestHolds(digest: Hexdigest, p: RequestParts, args: Inputs)
    ensures HoldsRequest(Seal(digest, WithKey(RequestFields(p), args), RequestSha256), p)
  {
    hide RequestTypeText;
    hide SafetyFlags;
    hide Strings;
    hide Scope;
    hide RequestFields;
    hide WithKey;
    hide Seal;
    hide Get;
    FieldsHold(p);
    RequestGet(digest, p, args, SchemaVersion);
    RequestGet(digest, p, args, RequestType);
    RequestGet(digest, p, args, Status);
    RequestGet(digest, p, args, Network);
    RequestGet(digest, p, args, RpcUrl);
    RequestGet(digest, p, args, DeployerAddress);
    RequestGet(digest, p, args, DeploymentProfile);
    RequestGet(digest, p, args, Silverscript);
    RequestGet(digest, p, args, Contract);
    RequestGet(digest, p, args, ConstructorArgs);
    RequestGet(digest, p, args, OrchestratorRequirements);
    RequestGet(digest, p, args, Safety);
    RequestGet(digest, p, args, SafetyScope);
  }

  /** The parts of a request, apart from its contract, that are not scalars. */
  predicate IsPart(p: RequestParts, v: Data) {
    v == p.profile || v == p.silverscript || v == p.constructorArgs || v == p.requirements || v == Obj(SafetyFlags())
  }

  lemma FieldKinds(p: RequestParts, k: Name)
    requires p.status.Str? && p.network.Str? && p.rpc.Str? && p.deployer.Str?
    requires RequestKey(k) && k != Contract
    ensures var v := Get(RequestFields(p), k); IsPart(p, v) || (!v.Arr? && !v.Obj?)
  {
    hide RequestTypeText;
    hide SafetyFlags;
    hide Scope;
    hide RequestFields;
    hide Get;
    FieldsHold(p);
  }

  /** Every field of a request but its contract part passes the secret filter. */
  lemma RequestFieldAllowed(digest: Hexdigest, p: RequestParts, args: Inputs, k: Name)
    requires p.status.Str? && p.network.Str? && p.rpc.Str? && p.deployer.Str?
    requires KeysAllowed(p.profile, VerifierFilter()) && KeysAllowed(p.silverscript, VerifierFilter())
    requires KeysAllowed(p.constructorArgs, VerifierFilter()) && KeysAllowed(p.requirements, VerifierFilter())
    requires k in Seal(digest, WithKey(RequestFields(p), args), RequestSha256) && k != Contract
    ensures var r := Seal(digest, WithKey(RequestFields(p), args), RequestSha256);
      !VerifierFilter()(k, r[k]) && KeysAllowed(r[k], VerifierFilter())
  {
    hide KeysAllowed;
    hide SafetyFlags;
    hide RequestFields;
    hide RequestKey;
    hide WithKey;
    hide Seal;
    hide RefusedName;
    var r := Seal(digest, WithKey(RequestFields(p), args), RequestSha256);
    RequestGet(digest, p, args, k);
    FlagsBuilt();
    RequestKeyIsNamed(k);
    NamedPasses(k);
    if !k.RequestSha256? && !k.MetricsOraclePubkey? {
      FieldKinds(p, k);
    }
    if !IsPart(p, r[k]) {
      ScalarAllowed(r[k], VerifierFilter());
    }
  }

  lemma RequestKeyIsNamed(k: Name)
    ensures RequestKey(k) ==> !k.Other?
  {
  }

  /** A request passes the secret filter exactly when its contract part does. */
  lemma RequestKeys(digest: Hexdigest, p: RequestParts, args: Inputs)
    requires p.status.Str? && p.network.Str? && p.rpc.Str? && p.deployer.Str?
    requires KeysAllowed(p.profile, VerifierFilter()) && KeysAllowed(p.silverscript, VerifierFilter())
    requires KeysAllowed(p.constructorArgs, VerifierFilter()) && KeysAllowed(p.requirements, VerifierFilter())
    ensures KeysAllowed(Obj(Seal(digest, WithKey(RequestFields(p), args), RequestSha256)), VerifierFilter()) <==>
      KeysAllowed(p.contract, VerifierFilter())
  {
    hide KeysAllowed;
    hide RequestFields;
    hide WithKey;
    hide Seal;
    hide SafetyFlags;
    hide Scope;
    hide RequestTypeText;
    hide RefusedName;
    NamedPasses(Contract);
    var r, filter := Seal(digest, WithKey(RequestFields(p), args), RequestSha256), VerifierFilter();
    forall k | k in r && k != Contract ensures !filter(k, r[k]) && KeysAllowed(r[k], filter) {
      RequestFieldAllowed(digest, p, args, k);
    }
    ObjectAllowed(r, filter);
    FieldsHold(p);
    RequestGet(digest, p, args, Contract);
    assert Contract in r && r[Contract] == p.contract;
  }

  /** What the verifier says of a request built in this job, on its own line of the plan. */
  lemma RequestBuilt(job: Job, p: Planned, d: Document)
    requires job.Valid() && job.Fits(p) && job.ArgsAllowed(p.name) && InputsAccepted(job.rules, job.args)
    requires Get(d, Network) == Str(job.args.network) && Get(d, RpcUrl) == Str(job.args.rpc)
    requires Get(d, DeployerAddress) == Str(job.args.deployer) && Get(d, MetricsOraclePubkey) == KeyData(job.args)
    requires Get(d, SilverscriptRef) == job.manifest[SilverscriptRef]
    requires Get(d, SilverscriptCommit) == job.manifest[SilverscriptCommit]
    ensures RequestAccepted(CheckOf(job), job.Request(p), d, job.Profile(), p.entry, p.name, p.order) <==>
      NothingSecret(p.entry)
  {
    hide KeysAllowed;
    hide NothingSecret;
    hide ContractPart;
    hide ContractAccepted;
    hide SharedAccepted;
    hide SealMatches;
    hide FlagsAccepted;
    hide RequestTypeText;
    hide RequestStatus;
    hide Scope;
    hide IsEntry;
    hide U;
    hide Get;
    hide IsCanary;
    hide PyEqual;
    var parts := job.Parts(p);
    ProfileAllowed(job);
    RevisionAllowed(job.manifest, job.names);
    StringsAllowed(job.rules.requirements);
    BuilderFilterIsStricter(job.constructorArgs[p.name]);
    RequestKeys(job.digest, parts, job.args);
    ContractKeys(p.entry, p.name, p.order);
    RequestHolds(job.digest, parts, job.args);
    RequestGet(job.digest, parts, job.args, RequestSha256);
    FieldsKeyed(parts, RequestSha256);
    UnsealedKey(parts, job.args);
    SealBuilt(job.digest, WithKey(RequestFields(parts), job.args), RequestSha256);
    SharedBuilt(job, p, d);
    ContractBuilt(p.entry, p.name, p.order);
    FlagsBuilt();
    var one: Data := Int(1);
    PyEqualReflexive(one);
    PyEqualReflexive(Obj(job.Profile()));
    PyEqualReflexive(job.constructorArgs[p.name]);
  }

  lemma RevisionAllowed(m: Document, names: seq<Text>)
    requires IsManifest(m, names)
    ensures KeysAllowed(Revision(m), VerifierFilter())
  {
    hide RefusedName;
    NamedAllowed(Revision(m).members);
  }

  lemma UnsealedKey(p: RequestParts, args: Inputs)
    ensures RequestSha256 !in WithKey(RequestFields(p), args)
  {
    hide RequestFields;
    FieldsKeyed(p, RequestSha256);
  }

  lemma SharedBuilt(job: Job, p: Planned, d: Document)
    requires IsManifest(job.manifest, job.names) && job.Fits(p) && InputsAccepted(job.rules, job.args)
    requires Get(d, Network) == Str(job.args.network) && Get(d, RpcUrl) == Str(job.args.rpc)
    requires Get(d, DeployerAddress) == Str(job.args.deployer) && Get(d, MetricsOraclePubkey) == KeyData(job.args)
    requires Get(d, SilverscriptRef) == job.manifest[SilverscriptRef]
    requires Get(d, SilverscriptCommit) == job.manifest[SilverscriptCommit]
    ensures SharedAccepted(job.Request(p), d, job.Profile())
  {
    hide RequestTypeText;
    hide SafetyFlags;
    hide Scope;
    hide RequestFields;
    hide WithKey;
    hide Seal;
    hide IsEntry;
    hide U;
    hide IsHex32;
    hide ContractPart;
    hide ExpectedProfile;
    hide SharedAccepted;
    hide Get;
    RequestHolds(job.digest, job.Parts(p), job.args);
    RequestGet(job.digest, job.Parts(p), job.args, MetricsOraclePubkey);
    SameShared(job.Request(p), d, job.Profile(), job.args, job.manifest, job.names);
  }

  /** Two documents written from the same inputs share what they must share. */
  lemma SameShared(r: Document, d: Document, profile: Document, args: Inputs, m: Document, names: seq<Text>)
    requires IsManifest(m, names) && Get(profile, ProfileName) == Str(args.profile)
    requires Get(r, Network) == Get(d, Network) == Str(args.network) && Get(r, RpcUrl) == Get(d, RpcUrl) == Str(args.rpc)
    requires Get(r, DeployerAddress) == Get(d, DeployerAddress) == Str(args.deployer)
    requires Get(r, MetricsOraclePubkey) == Get(d, MetricsOraclePubkey) == KeyData(args)
    requires MetricsOraclePubkey in r <==> args.key.Some?
    requires args.key.Some? <==> args.profile == Full()
    requires Get(r, Silverscript) == Revision(m)
    requires Get(d, SilverscriptRef) == m[SilverscriptRef] && Get(d, SilverscriptCommit) == m[SilverscriptCommit]
    ensures SharedAccepted(r, d, profile)
  {
    hide IsEntry;
    hide Full;
    var revision := Revision(m).members;
    assert Get(revision, Ref) == m[SilverscriptRef] && Get(revision, Commit) == m[SilverscriptCommit];
  }

  // ----- the built request set -----

  predicate SetKey(k: Name) {
    k.SchemaVersion? || k.Status? || k.Network? || k.RpcUrl? || k.DeployerAddress? || k.DeploymentProfile? ||
    k.SilverscriptRef? || k.SilverscriptCommit? || k.RequestCount? || k.Requests? || k.Blockers? || k.Safety? ||
    k.SafetyScope?
  }

  ghost predicate HoldsSet(d: Document, p: SetParts) {
    && Get(d, SchemaVersion) == Int(1) && Get(d, Status) == p.status && Get(d, Network) == p.network
    && Get(d, RpcUrl) == p.rpc && Get(d, DeployerAddress) == p.deployer && Get(d, DeploymentProfile) == p.profile
    && Get(d, SilverscriptRef) == p.ref && Get(d, SilverscriptCommit) == p.commit
    && Get(d, RequestCount) == Int(|p.lines|) && Get(d, Requests) == Arr(p.lines) && Get(d, Blockers) == p.blockers
    && Get(d, Safety) == Obj(SafetyFlags()) && Get(d, SafetyScope) == Str(Scope())
  }

  lemma SetFieldsHold(p: SetParts)
    ensures HoldsSet(SetFields(p), p)
  {
    hide SafetyFlags;
    hide Scope;
  }

  lemma SetFieldsHave(p: SetParts, k: Name)
    requires SetKey(k)
    ensures k in SetFields(p)
  {
    hide SafetyFlags;
    hide Scope;
  }

  lemma SetFieldsOnly(p: SetParts, k: Name)
    requires k in SetFields(p)
    ensures SetKey(k)
  {
    hide SafetyFlags;
    hide Scope;
  }

  lemma SetFieldsKeyed(p: SetParts, k: Name)
    ensures k in SetFields(p) <==> SetKey(k)
  {
    hide SetFields;
    hide SetKey;
    if SetKey(k) {
      SetFieldsHave(p, k);
    }
    if k in SetFields(p) {
      SetFieldsOnly(p, k);
    }
  }

  lemma SetGet(digest: Hexdigest, p: SetParts, args: Inputs, k: Name)
    ensures var d := Seal(digest, WithKey(SetFields(p), args), RequestSetSha256);
      && (k in d <==> SetKey(k) || k.RequestSetSha256? || (k.MetricsOraclePubkey? && args.key.Some?))
      && Get(d, k) == if k.RequestSetSha256? then Str(digest(Obj(WithKey(SetFields(p), args))))
           else if k.MetricsOraclePubkey? then KeyData(args) else Get(SetFields(p), k)
    ensures RequestSetSha256 !in WithKey(SetFields(p), args)
  {
    hide SetFields;
    hide Seal;
    SetFieldsKeyed(p, MetricsOraclePubkey);
    SetFieldsKeyed(p, RequestSetSha256);
    SetFieldsKeyed(p, k);
    SealedGet(digest, SetFields(p), args, RequestSetSha256, k);
  }

  lemma SetHolds(digest: Hexdigest, p: SetParts, args: Inputs)
    ensures HoldsSet(Seal(digest, WithKey(SetFields(p), args), RequestSetSha256), p)
  {
    hide SafetyFlags;
    hide Scope;
    hide SetFields;
    hide WithKey;
    hide Seal;
    hide Get;
    SetFieldsHold(p);
    SetGet(digest, p, args, SchemaVersion);
    SetGet(digest, p, args, Status);
    SetGet(digest, p, args, Network);
    SetGet(digest, p, args, RpcUrl);
    SetGet(digest, p, args, DeployerAddress);
    SetGet(digest, p, args, DeploymentProfile);
    SetGet(digest, p, args, SilverscriptRef);
    SetGet(digest, p, args, SilverscriptCommit);
    SetGet(digest, p, args, RequestCount);
    SetGet(digest, p, args, Requests);
    SetGet(digest, p, args, Blockers);
    SetGet(digest, p, args, Safety);
    SetGet(digest, p, args, SafetyScope);
  }

  lemma SetKeys(digest: Hexdigest, p: SetParts, args: Inputs)
    requires p.status.Str? && p.network.Str? && p.rpc.Str? && p.deployer.Str? && p.ref.Str? && p.commit.Str?
    requires KeysAllowed(p.profile, VerifierFilter()) && KeysAllowed(Arr(p.lines), VerifierFilter())
    requires KeysAllowed(p.blockers, VerifierFilter())
    ensures KeysAllowed(Obj(Seal(digest, WithKey(SetFields(p), args), RequestSetSha256)), VerifierFilter())
  {
    hide KeysAllowed;
    hide SafetyFlags;
    hide Scope;
    hide SetFields;
    hide WithKey;
    hide Seal;
    hide RefusedName;
    var d, filter := Seal(digest, WithKey(SetFields(p), args), RequestSetSha256), VerifierFilter();
    SetHolds(digest, p, args);
    FlagsBuilt();
    forall k | k in d ensures !k.Other? && KeysAllowed(d[k], filter) {
      SetGet(digest, p, args, k);
      if !d[k].Arr? && !d[k].Obj? {
        ScalarAllowed(d[k], filter);
      }
    }
    NamedAllowed(d);
  }

  lemma LineBuilt(job: Job, p: Planned)
    requires job.Fits(p)
    ensures LineAccepted(Obj(job.Line(p)), job.Request(p), p.entry, p.name, p.order)
  {
    hide FileName;
    hide Job.Request;
    hide IsManifest;
    RequestSeal(job, p);
  }

  lemma LineKeys(job: Job, p: Planned)
    requires job.Fits(p)
    ensures KeysAllowed(Obj(job.Line(p)), VerifierFilter())
  {
    hide FileName;
    hide Job.Request;
    hide IsManifest;
    hide RefusedName;
    RequestSeal(job, p);
    NamedAllowed(job.Line(p));
  }

  lemma RequestSeal(job: Job, p: Planned)
    requires job.Fits(p)
    ensures RequestSha256 in job.Request(p) && Get(job.Request(p), RequestSha256).Str?
  {
    hide RequestFields;
    hide WithKey;
    hide Seal;
    hide IsEntry;
    hide IsManifest;
    RequestGet(job.digest, job.Parts(p), job.args, RequestSha256);
  }

  /** The profile in a built set is recognized, and selects exactly the planned contracts. */
  lemma ClaimedBuilt(job: Job, d: Document)
    requires job.Valid() && job.Selects() && Get(d, DeploymentProfile) == Obj(job.Profile())
    ensures var c := ClaimedProfile(CheckOf(job), d);
      && c.Profile? && c.expected == job.Profile() && |c.entries| == |c.selected| == |job.Planned()|
      && forall i :: 0 <= i < |c.entries| ==> c.entries[i] == job.Planned()[i].entry && c.selected[i] == job.Planned()[i].name
  {
    hide IsManifest;
    hide IsEntry;
    hide ExpectedProfile;
    hide U;
    hide PyEqual;
    hide Full;
    hide Canary;
    hide H001;
    PyEqualReflexive(Obj(job.Profile()));
    OrderMismatchUnreachable(job.digest, Obj(job.Profile()), job.manifest, job.names);
    PlanIsChosen(Entries(job.manifest, job.names), job.names, Selection(job.args.profile, job.names).value);
  }

  lemma LinesAllowed(job: Job)
    requires job.Valid() && job.Builds()
    ensures KeysAllowed(Arr(Lines(job)), VerifierFilter())
  {
    hide IsManifest;
    hide IsEntry;
    hide Job.Line;
    hide InputsAccepted;
    forall i | 0 <= i < |Lines(job)| ensures KeysAllowed(Lines(job)[i], VerifierFilter()) {
      LineKeys(job, job.Planned()[i]);
    }
  }

  lemma WarningsIn(job: Job)
    ensures In(job.rules.blocker, job.Warnings())
  {
    hide Canary;
    assert job.Warnings().items[0] == Str(job.rules.blocker);
  }

  lemma InputsCarryOver(job: Job, d: Document)
    requires InputsAccepted(job.rules, job.args)
    requires Get(d, Network) == Str(job.args.network) && Get(d, RpcUrl) == Str(job.args.rpc)
    requires Get(d, MetricsOraclePubkey) == KeyData(job.args)
    ensures RpcAllowed(job.rules.url, Get(d, RpcUrl), Get(d, Network))
    ensures InputsAllowed(job.args.profile, Get(d, Network), Get(d, RpcUrl), Get(d, MetricsOraclePubkey))
  {
    hide RpcAllowed;
    hide InputsAllowed;
  }

  /** Everything before the verifier's loop passes. */
  lemma HeaderBuilt(job: Job)
    requires job.Valid() && job.Builds()
    ensures HeaderAccepted(CheckOf(job), job.Set(Lines(job)))
  {
    hide IsManifest;
    hide IsEntry;
    hide KeysAllowed;
    hide Lines;
    hide SetStatus;
    hide Scope;
    hide IsCanary;
    hide U;
    hide Get;
    hide ClaimedProfile;
    hide SafetyFlags;
    hide FlagsAccepted;
    hide SealMatches;
    hide RpcAllowed;
    hide InputsAllowed;
    hide In;
    hide ExpectedProfile;
    hide Plan;
    hide PyEqual;
    var lines := Lines(job);
    var parts := job.SetPartsOf(lines);
    SetHolds(job.digest, parts, job.args);
    SetGet(job.digest, parts, job.args, MetricsOraclePubkey);
    SealBuilt(job.digest, WithKey(SetFields(parts), job.args), RequestSetSha256);
    ProfileAllowed(job);
    LinesAllowed(job);
    StringsAllowed([job.rules.blocker] + (if job.args.profile == Canary() then [job.rules.canaryNotice] else []));
    ManifestStrings(job.manifest, job.names);
    SetKeys(job.digest, parts, job.args);
    ClaimedBuilt(job, job.Set(lines));
    InputsCarryOver(job, job.Set(lines));
    WarningsIn(job);
    FlagsBuilt();
    LinesCount(job);
    var one: Data, count: Data := Int(1), Int(|lines|);
    PyEqualReflexive(one);
    PyEqualReflexive(count);
  }

  lemma LinesCount(job: Job)
    requires job.Valid() && job.Builds()
    ensures |Lines(job)| == |job.Planned()|
    ensures forall i :: 0 <= i < |Lines(job)| ==> job.Fits(job.Planned()[i]) && Lines(job)[i] == Obj(job.Line(job.Planned()[i]))
  {
    hide IsManifest;
    hide IsEntry;
    hide Job.Line;
    hide InputsAccepted;
  }

  lemma ManifestStrings(m: Document, names: seq<Text>)
    requires IsManifest(m, names)
    ensures m[SilverscriptRef].Str? && m[SilverscriptCommit].Str?
  {
  }

  lemma FileBuilt(job: Job, built: Built, i: nat)
    requires job.Valid() && job.Builds() && IsOutput(job, built) && i < |job.Planned()|
    ensures var p := job.Planned()[i];
      && job.Fits(p) && job.ArgsAllowed(p.name) && 1 <= p.order <= |job.names| && job.names[p.order - 1] == p.name
      && FileName(p.order, p.name) in built.files
      && built.files[FileName(p.order, p.name)] == Obj(job.Request(p))
  {
    hide IsManifest;
    hide IsEntry;
    hide Job.Request;
    hide Job.Set;
    hide InputsAccepted;
    hide FileName;
    hide KeysAllowed;
  }

  lemma LineAt(job: Job, i: nat)
    requires job.Valid() && job.Builds() && i < |job.Planned()|
    ensures Line(job.Set(Lines(job)), i) == Lines(job)[i] == Obj(job.Line(job.Planned()[i]))
  {
    hide IsManifest;
    hide IsEntry;
    hide Job.Line;
    hide InputsAccepted;
    hide SetFields;
    hide Seal;
    hide WithKey;
    hide Get;
    hide U;
    LinesCount(job);
    SetHolds(job.digest, job.SetPartsOf(Lines(job)), job.args);
  }

  /** One turn of the verifier's loop over what the builder wrote. */
  lemma ItemBuilt(job: Job, built: Built, i: nat)
    requires job.Valid() && job.Builds() && IsOutput(job, built) && i < |job.Planned()|
    ensures var p := job.Planned()[i];
      ItemAccepted(CheckOf(job), built.requestSet, built.files, job.Profile(), Line(built.requestSet, i), p.entry, p.name) <==>
      NothingSecret(p.entry)
  {
    hide IsManifest;
    hide IsEntry;
    hide Job.Line;
    hide Job.Request;
    hide Job.Profile;
    hide InputsAccepted;
    hide FileName;
    hide NothingSecret;
    hide LineAccepted;
    hide RequestAccepted;
    hide SetFields;
    hide Seal;
    hide WithKey;
    hide Lines;
    hide Line;
    hide U;
    hide KeysAllowed;
    hide FilesOf;
    hide Get;
    hide Plan;
    hide Job.Set;
    hide Job.SetPartsOf;
    hide Entries;
    hide Selection;
    hide Distinct;
    var p := job.Planned()[i];
    FileBuilt(job, built, i);
    LineAt(job, i);
    OrderFound(job.names, p.order);
    SetShares(job);
    LineBuilt(job, p);
    RequestBuilt(job, p, built.requestSet);
  }

  lemma SetShares(job: Job)
    requires job.Valid() && job.Builds()
    ensures var d := job.Set(Lines(job));
      && Get(d, Network) == Str(job.args.network) && Get(d, RpcUrl) == Str(job.args.rpc)
      && Get(d, DeployerAddress) == Str(job.args.deployer) && Get(d, MetricsOraclePubkey) == KeyData(job.args)
      && Get(d, SilverscriptRef) == job.manifest[SilverscriptRef]
      && Get(d, SilverscriptCommit) == job.manifest[SilverscriptCommit]
  {
    hide IsEntry;
    hide SetFields;
    hide WithKey;
    hide Seal;
    hide Get;
    hide Lines;
    hide Job.Profile;
    hide U;
    var parts := job.SetPartsOf(Lines(job));
    SetHolds(job.digest, parts, job.args);
    SetGet(job.digest, parts, job.args, MetricsOraclePubkey);
  }

  /** A line of the request set, read as a line of the verification summary. */
  function Recorded(line: Data): Verified {
    var m := if line.Obj? then line.members else map[];
    var order, name, file := Get(m, Order), Get(m, ContractName), Get(m, File);
    Verified(if order.Int? && order.n >= 0 then order.n else 0, if name.Str? then name.s else [],
      if file.Str? then file.s else [], Get(m, RequestSha256), Get(m, ArtifactSha256), Get(m, ScriptSha256))
  }

  /** A line reads back as the contract it was written for. */
  lemma LineRecorded(job: Job, p: Planned)
    requires job.Fits(p)
    ensures Recorded(Obj(job.Line(p))) ==
      Verified(p.order, p.name, FileName(p.order, p.name), Get(job.Request(p), RequestSha256), Get(p.entry, ArtifactSha256),
        Get(p.entry, ScriptSha256))
  {
    hide IsManifest;
    hide Job.Request;
    hide FileName;
  }

  lemma ItemRecorded(job: Job, built: Built, i: nat)
    requires job.Valid() && job.Builds() && IsOutput(job, built) && i < |job.Planned()|
    ensures VerifiedItem(CheckOf(job), built.files, job.Planned()[i].entry, job.Planned()[i].name) ==
      Recorded(Line(built.requestSet, i))
  {
    hide IsManifest;
    hide IsEntry;
    hide Job.Request;
    hide Job.Set;
    hide Job.Line;
    hide InputsAccepted;
    hide FileName;
    hide Line;
    hide Lines;
    hide FilesOf;
    hide Plan;
    hide Entries;
    hide Selection;
    hide Distinct;
    hide Recorded;
    hide Get;
    hide KeysAllowed;
    hide IsHexDigest;
    var p := job.Planned()[i];
    FileBuilt(job, built, i);
    LineAt(job, i);
    OrderFound(job.names, p.order);
    LineRecorded(job, p);
  }

  /** Every request set built from a manifest with distinct names is accepted exactly when no selected
      entry holds a secret-like key; the verification summary then repeats the order, contract, file and
      hashes of the request set, line by line. */
  lemma BuiltSetVerifies(job: Job, built: Built)
    requires job.Valid() && job.Builds() && IsOutput(job, built)
    ensures SetAccepted(CheckOf(job), built.requestSet, built.files) <==>
      forall i :: 0 <= i < |job.Planned()| ==> NothingSecret(job.Planned()[i].entry)
    ensures var summary := Summary(CheckOf(job), built.files, ClaimedProfile(CheckOf(job), built.requestSet));
      |summary| == |job.Planned()| && forall i :: 0 <= i < |summary| ==> summary[i] == Recorded(Line(built.requestSet, i))
  {
    hide IsManifest;
    hide IsEntry;
    hide Job.Line;
    hide Job.Request;
    hide Job.Profile;
    hide Job.Set;
    hide InputsAccepted;
    hide NothingSecret;
    hide HeaderAccepted;
    hide ItemAccepted;
    hide ClaimedProfile;
    hide VerifiedItem;
    hide Recorded;
    hide Line;
    hide U;
    hide KeysAllowed;
    hide Get;
    hide FilesOf;
    HeaderBuilt(job);
    SetProfile(job);
    ClaimedBuilt(job, built.requestSet);
    forall i | 0 <= i < |job.Planned()| ensures
      && (ItemAccepted(CheckOf(job), built.requestSet, built.files, job.Profile(), Line(built.requestSet, i),
            job.Planned()[i].entry, job.Planned()[i].name) == NothingSecret(job.Planned()[i].entry))
      && VerifiedItem(CheckOf(job), built.files, job.Planned()[i].entry, job.Planned()[i].name) ==
           Recorded(Line(built.requestSet, i))
    {
      ItemBuilt(job, built, i);
      ItemRecorded(job, built, i);
    }
  }

  lemma SetProfile(job: Job)
    requires job.Valid() && job.Builds()
    ensures Get(job.Set(Lines(job)), DeploymentProfile) == Obj(job.Profile())
  {
    hide IsManifest;
    hide Lines;
    hide SetFields;
    hide Seal;
    hide WithKey;
    hide Get;
    SetHolds(job.digest, job.SetPartsOf(Lines(job)), job.args);
  }

  // ----- a key added to a state layout -----

  /** The manifest entry with one more key in its state layout, as it is read from a file. */
  function Leaked(e: Document, name: Text, key: Text): (r: Document)
    requires IsEntry(e, name)
    ensures IsEntry(r, name)
  {
    e[StateLayout := Obj(e[StateLayout].members[ReleaseNames.Read(key) := Null])]
  }

  /** The same job over a manifest whose entry i has that key. */
  function Leaky(job: Job, i: nat, key: Text): (leaky: Job)
    requires IsManifest(job.manifest, job.names) && i < |job.names|
    ensures IsManifest(leaky.manifest, leaky.names)
  {
    hide IsEntry;
    var items := job.manifest[Fixtures].items;
    job.(manifest := job.manifest[Fixtures := Arr(items[i := Obj(Leaked(items[i].members, job.names[i], key))])])
  }

  /** The name a key is read as is written as the key. */
  lemma ReadIsWritten(key: Text)
    ensures ReleaseNames.Write(ReleaseNames.Read(key)) == key
  {
    hide ReleaseNames.Written;
    hide ReleaseNames.Marked;
  }

  /** A refused key spoils the entry; any other key leaves it as good as it was. */
  lemma LeakedSecret(e: Document, name: Text, key: Text)
    requires IsEntry(e, name)
    ensures RefusedText(key) ==> !NothingSecret(Leaked(e, name, key))
    ensures !RefusedText(key) && NothingSecret(e) ==> NothingSecret(Leaked(e, name, key))
  {
    hide RefusedText;
    hide ReleaseNames.Read;
    hide ReleaseNames.Write;
    ReadIsWritten(key);
    var k, filter := ReleaseNames.Read(key), VerifierFilter();
    var layout, leaked := e[StateLayout].members, Leaked(e, name, key)[StateLayout].members;
    assert k in leaked && filter(k, leaked[k]) == RefusedText(key);
    ScalarAllowed(Null, filter);
    ObjectAllowed(layout, filter);
    ObjectAllowed(leaked, filter);
  }

  /** Planning looks at names only. */
  lemma LeakyBuilds(job: Job, i: nat, key: Text)
    requires job.Valid() && job.Builds() && i < |job.names|
    ensures Leaky(job, i, key).Valid() && Leaky(job, i, key).Builds()
  {
    hide IsManifest;
    hide IsEntry;
    hide InputsAccepted;
    hide KeysAllowed;
    hide Selection;
    hide Plan;
    hide Entries;
    hide Leaked;
    var leaky, selected := Leaky(job, i, key), Selection(job.args.profile, job.names).value;
    PlanIsChosen(Entries(job.manifest, job.names), job.names, selected);
    PlanIsChosen(Entries(leaky.manifest, leaky.names), leaky.names, selected);
    forall j | 0 <= j < |leaky.Planned()| ensures leaky.ArgsAllowed(leaky.Planned()[j].name) {
      assert job.ArgsAllowed(job.Planned()[j].name);
    }
  }

  lemma LeakyEntries(job: Job, i: nat, key: Text)
    requires IsManifest(job.manifest, job.names) && i < |job.names|
    ensures var entries := Entries(job.manifest, job.names);
      Entries(Leaky(job, i, key).manifest, job.names) == entries[i := Leaked(entries[i], job.names[i], key)]
  {
    hide IsEntry;
  }

  /** A selected entry of the manifest is planned. */
  lemma SelectedIsPlanned(job: Job, i: nat) returns (j: nat)
    requires IsManifest(job.manifest, job.names) && job.Selects() && i < |job.names|
    requires job.names[i] in Selection(job.args.profile, job.names).value
    ensures j < |job.Planned()| && job.Planned()[j].entry == Entries(job.manifest, job.names)[i]
  {
    hide IsManifest;
    hide IsEntry;
    hide Selection;
    var entries, names, selected := Entries(job.manifest, job.names), job.names, Selection(job.args.profile, job.names).value;
    PlanStep(entries, names, selected, i);
    PlanKeeps(entries, names, selected, i + 1);
    j := |job.PlanTo(i)|;
    assert job.PlanTo(i + 1)[j].entry == entries[i];
  }

  /** A planned contract is a selected one. */
  lemma PlannedIsSelected(job: Job, j: nat)
    requires IsManifest(job.manifest, job.names) && job.Selects() && j < |job.Planned()|
    ensures job.Planned()[j].name in Selection(job.args.profile, job.names).value
  {
    hide IsManifest;
    hide IsEntry;
    hide Selection;
    hide Plan;
    var entries, selected := Entries(job.manifest, job.names), Selection(job.args.profile, job.names).value;
    PlanIsChosen(entries, job.names, selected);
    assert ChosenNames(job.names, selected)[j] in ChosenNames(job.names, selected);
  }

  ghost predicate AllClear(job: Job)
    requires IsManifest(job.manifest, job.names) && job.Selects()
  {
    forall j :: 0 <= j < |job.Planned()| ==> NothingSecret(job.Planned()[j].entry)
  }

  /** Adding a key to a selected entry spoils the plan exactly when the key is refused. */
  lemma LeakyPlan(job: Job, i: nat, key: Text)
    requires job.Valid() && job.Builds() && i < |job.names| && Leaky(job, i, key).Selects()
    requires job.names[i] in Selection(job.args.profile, job.names).value
    ensures RefusedText(key) ==> !AllClear(Leaky(job, i, key))
    ensures !RefusedText(key) && AllClear(job) ==> AllClear(Leaky(job, i, key))
  {
    hide IsManifest;
    hide IsEntry;
    hide InputsAccepted;
    hide KeysAllowed;
    hide RefusedText;
    hide NothingSecret;
    hide Selection;
    hide Leaked;
    hide Plan;
    hide Entries;
    var leaky, entries := Leaky(job, i, key), Entries(job.manifest, job.names);
    LeakyEntries(job, i, key);
    LeakedSecret(entries[i], job.names[i], key);
    var at := SelectedIsPlanned(leaky, i);
    if !RefusedText(key) && AllClear(job) {
      forall j | 0 <= j < |leaky.Planned()| ensures NothingSecret(leaky.Planned()[j].entry) {
        PlannedIsSelected(leaky, j);
        var o := leaky.Planned()[j].order - 1;
        var before := SelectedIsPlanned(job, o);
        assert NothingSecret(entries[o]);
      }
    }
  }

  /** Whatever the builder can build, it still builds with one more key in the state layout of a selected
      contract. The verifier refuses the result if the key is secret-like and not the flag it lets through,
      and if the set was acceptable before, only then. */
  lemma LayoutKeyDecides(job: Job, i: nat, key: Text, built: Built)
    requires job.Valid() && job.Builds() && i < |job.names|
    requires job.names[i] in Selection(job.args.profile, job.names).value
    ensures Leaky(job, i, key).Valid() && Leaky(job, i, key).Builds()
    ensures IsOutput(Leaky(job, i, key), built) && RefusedText(key) ==>
      !SetAccepted(CheckOf(Leaky(job, i, key)), built.requestSet, built.files)
    ensures IsOutput(Leaky(job, i, key), built) && !RefusedText(key) && AllClear(job) ==>
      SetAccepted(CheckOf(Leaky(job, i, key)), built.requestSet, built.files)
  {
    hide IsManifest;
    hide IsEntry;
    hide InputsAccepted;
    hide KeysAllowed;
    hide Selection;
    hide Plan;
    hide NothingSecret;
    hide RefusedText;
    hide SetAccepted;
    hide Leaked;
    hide FilesOf;
    hide Job.Set;
    LeakyBuilds(job, i, key);
    LeakyPlan(job, i, key);
    if IsOutput(Leaky(job, i, key), built) {
      BuiltSetVerifies(Leaky(job, i, key), built);
    }
  }

  // ----- one manifest of the refused family -----

  function Zeros(): (t: Text)
    ensures IsHexText(t, 64)
  {
    seq(64, _ => '0' as int)
  }

  function SampleEntry(name: Text): (e: Document)
    ensures IsEntry(e, name)
  {
    var hash: Data := Str(Zeros());
    map[ContractName := Str(name), SourceFile := Str(U("contract.sil")), ArtifactFile := Str(U("artifact.json")), SourceSha256 := hash,
        ConstructorArgsSha256 := hash, ArtifactSha256 := hash, ScriptSha256 := hash, ScriptLen := Int(1),
        Abi := Arr([Str(U("verify"))]), StateLayout := Obj(map[]), CompilerVersion := Str(U("0.1.0"))]
  }

  /** A manifest of the release's contracts, with placeholder file names and hashes. */
  function SampleManifest(): (m: Document)
    ensures IsManifest(m, FixtureNames())
  {
    hide SampleEntry;
    hide IsEntry;
    hide FixtureNames;
    var names := FixtureNames();
    var pin: Data := Str(Zeros()[..40]);
    map[SchemaVersion := Int(1), FixtureCount := Int(|names|), SilverscriptRef := pin, SilverscriptCommit := pin,
        Fixtures := Arr(seq(|names|, i requires 0 <= i < |names| => Obj(SampleEntry(names[i]))))]
  }

  function Expression(kind: string, data: Data): Data {
    Obj(map[Kind := Str(U(kind)), Other(U("data")) := data])
  }

  /** The constructor arguments of the canary contract: one array of 32 zero bytes. */
  function H001Args(): Data {
    Arr([Expression("array", Arr(seq(32, _ => Expression("byte", Int(0)))))])
  }

  lemma ExpressionAllowed(kind: string, data: Data)
    requires KeysAllowed(data, BuilderFilter())
    ensures KeysAllowed(Expression(kind, data), BuilderFilter())
  {
    hide SecretLike;
    hide U;
    DataIsNotSecret();
    NamedNotSecret(Kind);
    var text: Data := Str(U(kind));
    ScalarAllowed(text, BuilderFilter());
    ObjectAllowed(Expression(kind, data).members, BuilderFilter());
  }

  lemma DataIsNotSecret()
    ensures !SecretLike(Other(U("data")))
  {
    hide AuditKeys.IsSecret;
    assert AuditKeys.Quiet("data", 0);
    AuditKeys.QuietIsPlain("data");
    AuditKeys.PlainIsAllowed(U("data"));
  }

  lemma NamedNotSecret(k: Name)
    requires !k.Other? && !k.AcceptsPrivateKeys?
    ensures !SecretLike(k)
  {
    hide AuditKeys.IsSecret;
    SecretNames.NamedSecret(k);
  }

  lemma H001ArgsAllowed()
    ensures KeysAllowed(H001Args(), BuilderFilter())
  {
    hide Expression;
    hide SecretLike;
    var zero: Data := Int(0);
    ScalarAllowed(zero, BuilderFilter());
    ExpressionAllowed("byte", zero);
    var bytes: Data := Arr(seq(32, _ => Expression("byte", Int(0))));
    assert KeysAllowed(bytes, BuilderFilter());
    ExpressionAllowed("array", bytes);
  }

  /** The canary over a release manifest. */
  function CanaryJob(digest: Hexdigest, rules: Rules, deployer: Text, m: Document, args: map<Text, Data>): (job: Job)
    ensures job.rules == rules && job.manifest == m && job.constructorArgs == args && job.names == FixtureNames()
    ensures job.names[0] == H001() && Selection(job.args.profile, job.names) == Some([H001()])
  {
    hide U;
    ProfilesDiffer();
    assert FixtureNames()[0] == H001();
    Job(digest, rules, Inputs(Canary(), Testnet(), PublicResolver(), deployer, None), m, FixtureNames(), args)
  }

  lemma CanaryInputs(rules: Rules, deployer: Text)
    requires rules.address(deployer)
    ensures InputsAccepted(rules, Inputs(Canary(), Testnet(), PublicResolver(), deployer, None))
  {
    hide U;
    ProfilesDiffer();
    assert |PublicResolver()| == 23;
  }

  /** Every release manifest gives a canary that builds. */
  lemma CanaryBuilds(digest: Hexdigest, rules: Rules, deployer: Text, m: Document, args: map<Text, Data>)
    requires IsHexDigest(digest) && rules.address(deployer) && IsManifest(m, FixtureNames())
    requires H001() in args && KeysAllowed(args[H001()], BuilderFilter())
    ensures CanaryJob(digest, rules, deployer, m, args).Valid() && CanaryJob(digest, rules, deployer, m, args).Builds()
  {
    hide U;
    hide IsManifest;
    hide IsEntry;
    hide InputsAccepted;
    hide KeysAllowed;
    hide FixtureNames;
    hide H001;
    hide Selection;
    hide Plan;
    hide Entries;
    hide Distinct;
    hide IsHexDigest;
    var job := CanaryJob(digest, rules, deployer, m, args);
    FixtureNamesDistinct();
    CanaryInputs(rules, deployer);
    assert job.Selects();
    forall j | 0 <= j < |job.Planned()| ensures job.ArgsAllowed(job.Planned()[j].name) {
      PlannedIsSelected(job, j);
    }
  }

  /** The canary of the release, with a secret-like key in the state layout of its contract, is built and refused. */
  lemma CanaryWithSecretLayout(digest: Hexdigest, rules: Rules, deployer: Text, args: map<Text, Data>, key: Text, built: Built)
    requires IsHexDigest(digest) && rules.address(deployer) && H001() in args && args[H001()] == H001Args() && RefusedText(key)
    ensures var job := Leaky(CanaryJob(digest, rules, deployer, SampleManifest(), args), 0, key);
      job.Valid() && job.Builds() && (IsOutput(job, built) ==> !SetAccepted(CheckOf(job), built.requestSet, built.files))
  {
    hide U;
    hide IsEntry;
    hide IsManifest;
    hide SampleManifest;
    hide CanaryJob;
    hide FixtureNames;
    hide H001;
    hide H001Args;
    hide Leaky;
    hide KeysAllowed;
    hide RefusedText;
    H001ArgsAllowed();
    CanaryBuilds(digest, rules, deployer, SampleManifest(), args);
    LayoutKeyDecides(CanaryJob(digest, rules, deployer, SampleManifest(), args), 0, key, built);
  }

  /** For one, the key seed_phrase. */
  lemma SeedPhraseIsRefused()
    ensures RefusedText(U("seed_phrase"))
  {
    var t := AuditKeys.Fold(U("seed_phrase"));
    assert t[0..4] == U("seed");
    assert RedactionPolicy.OccursAt(t, U(AuditKeys.SECRETS[2]), 0);
    assert RedactionPolicy.Contains(t, U(AuditKeys.SECRETS[2]));
    assert |U("seed_phrase")| == 11 && |AuditKeys.AcceptsPrivateKeys()| == 20;
  }
}
