/**
  The release manifest and the two closed deployment profiles: the full release, and the
  testnet-10 canary of one contract. Object keys are interned as in the evidence record.
 */
module DeploymentProfiles {
  import opened Texts
  import opened CanonicalJson

  datatype Name =
    // the manifest and its entries
    | SchemaVersion | Fixtures | FixtureCount | SilverscriptRef | SilverscriptCommit | ContractName | SourceFile
    | ArtifactFile | CompilerVersion | Abi | StateLayout | ScriptLen | SourceSha256 | ConstructorArgsSha256
    | ArtifactSha256 | ScriptSha256
    // deployment profiles
    | ProfileName | FullBundleFixtureCount | FullBundleManifestSha256 | Kind | NetworkId | SelectedContracts
    // deploy requests
    | RequestType | Status | Network | RpcUrl | DeployerAddress | DeploymentProfile | Silverscript | Ref | Commit
    | Contract | Order | ConstructorArgs | OrchestratorRequirements | Safety | SafetyScope | MetricsOraclePubkey
    | RequestSha256 | RequestCount | Requests | Blockers | RequestSetSha256 | File
    | AcceptsPrivateKeys | SignsTransactions | AssemblesChainTransaction | BroadcastsTransactions | DeploysContracts
    | UpdatesStatusFiles
    // receipts and evidence
    | Provenance | ProvenanceType | ReleaseBundle | Receipts | DeployedInstanceId | DeployTxId | BlockHash
    | Confirmations | BlockDaaScore | DeployedAt | EvidenceType | Observer | ObservedAt | ReceiptsSha256
    | ReceiptCount | Observations | ExplorerUrl
    | Other(name: Text)

  type Data = Json<Name>
  type Document = map<Name, Data>

  /** sha256(canonical_json_bytes(value)).hexdigest(), left abstract. */
  type Hexdigest = Data -> Text

  ghost predicate IsHexDigest(digest: Hexdigest) {
    forall v :: IsHexText(digest(v), 64)
  }

  // ----- the manifest, as validate_manifest lets it through -----

  predicate IsNumber(v: Data) {
    v.Int? || v.Bool?
  }

  /** The digest of a file or value that is not modelled here: 64 lower-case hexadecimal digits. */
  predicate IsHash(v: Data) {
    v.Str? && IsHexText(v.s, 64)
  }

  /** bool(value); a float is zero when no digit before its exponent is. */
  predicate Truthy(v: Data) {
    match v
    case Null => false
    case Bool(b) => b
    case Int(n) => n != 0
    case Float(l) => exists i :: 0 <= i < |l| && '1' as int <= l[i] <= '9' as int && 'e' as int !in l[..i] && 'E' as int !in l[..i]
    case Str(t) => t != []
    case Arr(xs) => xs != []
    case Obj(m) => m != map[]
  }

  /** One manifest entry as validate_manifest_entry lets it through. That the hashes and the length are those
      of the artifact and source files is not modelled. */
  predicate IsEntry(e: Document, name: Text) {
    && ContractName in e && e[ContractName] == Str(name)
    && SourceFile in e && e[SourceFile].Str? && ArtifactFile in e && e[ArtifactFile].Str? && '/' as int !in e[ArtifactFile].s
    && SourceSha256 in e && IsHash(e[SourceSha256]) && ConstructorArgsSha256 in e && IsHash(e[ConstructorArgsSha256])
    && ArtifactSha256 in e && IsHash(e[ArtifactSha256]) && ScriptSha256 in e && IsHash(e[ScriptSha256])
    && ScriptLen in e && IsNumber(e[ScriptLen]) && Number(e[ScriptLen]).value >= 1
    && Abi in e && e[Abi].Arr? && e[Abi].items != [] && StateLayout in e && e[StateLayout].Obj?
    && CompilerVersion in e && Truthy(e[CompilerVersion])
  }

  /** A manifest whose entries carry these names in this order; the source has FixtureNames. */
  predicate IsManifest(m: Document, names: seq<Text>) {
    && SchemaVersion in m && Number(m[SchemaVersion]) == Some(1)
    && FixtureCount in m && Number(m[FixtureCount]) == Some(|names|)
    && SilverscriptRef in m && m[SilverscriptRef].Str?
    && SilverscriptCommit in m && m[SilverscriptCommit] == m[SilverscriptRef]
    && Fixtures in m && m[Fixtures].Arr? && |m[Fixtures].items| == |names|
    && forall i :: 0 <= i < |names| ==> m[Fixtures].items[i].Obj? && IsEntry(m[Fixtures].items[i].members, names[i])
  }

  /** The contract names of FIXTURES. */
  function FixtureNames(): seq<Text> {
    [H001(), U("ValidatorStakingState"), U("GuardianReputationState"), U("RuleStorageState"), U("CommunityDonationsState"),
     U("DevIncentivePoolState"), U("GovernanceAutoTuningState")]
  }

  lemma FixtureNamesDistinct()
    ensures Distinct(FixtureNames())
  {
    var names := FixtureNames();
    assert |names[0]| == 20 && |names[1]| == 21 && |names[2]| == 23 && |names[3]| == 16;
    assert |names[4]| == 23 && |names[5]| == 21 && |names[6]| == 25;
    assert names[1][0] != names[5][0] && names[2][0] != names[4][0];
  }

  function Entries(m: Document, names: seq<Text>): (es: seq<Document>)
    requires IsManifest(m, names)
    ensures |es| == |names| && forall i :: 0 <= i < |es| ==> IsEntry(es[i], names[i])
  {
    seq(|names|, i requires 0 <= i < |names| => m[Fixtures].items[i].members)
  }

  predicate Distinct(names: seq<Text>) {
    forall i, j :: 0 <= i < j < |names| ==> names[i] != names[j]
  }

  /** Position in the manifest, from the dict that maps each name to its last index. */
  function ManifestOrder(names: seq<Text>, name: Text): (order: nat)
    requires name in names
    ensures 1 <= order <= |names| && names[order - 1] == name
  {
    var n := |names| - 1;
    if names[n] == name then n + 1
    else
      assert names == names[..n] + [names[n]];
      ManifestOrder(names[..n], name)
  }

  /** With distinct names the dict of positions finds the entry itself. */
  lemma OrderFound(names: seq<Text>, order: nat)
    requires Distinct(names) && 1 <= order <= |names|
    ensures names[order - 1] in names && ManifestOrder(names, names[order - 1]) == order
  {
    var found := ManifestOrder(names, names[order - 1]);
    assert names[found - 1] == names[order - 1];
  }

  // ----- profiles -----

  function Full(): Text { U("full") }
  function Canary(): Text { U("testnet-10-") + U("validator-staking-h001") }
  function CanaryKind(): Text { U("canary") }
  function H001(): Text { U("ValidatorStakingH001") }
  function PublicResolver(): Text { U("kaspa-resolver://public") }
  function Testnet(): Text { U("testnet") }

  lemma ProfilesDiffer()
    ensures Full() != Canary() && Full() != CanaryKind()
  {
    assert |Full()| == 4 && |Canary()| == 33 && |CanaryKind()| == 6;
  }

  function Strings(ts: seq<Text>): (v: Data)
    ensures v.Arr? && |v.items| == |ts| && forall i :: 0 <= i < |ts| ==> v.items[i] == Str(ts[i])
  {
    Arr(seq(|ts|, i requires 0 <= i < |ts| => Str(ts[i])))
  }

  /** The contracts a profile deploys; None where expected_profile raises. */
  function Selection(profile: Text, names: seq<Text>): (r: Option<seq<Text>>) {
    if profile == Full() then Some(names)
    else if profile == Canary() && H001() in names then Some([H001()])
    else None
  }

  /** expected_profile, for a profile with a selection. */
  function ExpectedProfile(digest: Hexdigest, profile: Text, m: Document, names: seq<Text>): (d: Document)
    requires IsManifest(m, names) && Selection(profile, names).Some?
    ensures Get(d, ProfileName) == Str(profile)
    ensures Get(d, Kind) == Str(CanaryKind()) <==> profile == Canary()
  {
    ProfilesDiffer();
    hide U;
    map[ProfileName := Str(profile),
        FullBundleFixtureCount := m[FixtureCount],
        FullBundleManifestSha256 := Str(digest(Obj(m))),
        Kind := Str(if profile == Full() then Full() else CanaryKind()),
        NetworkId := Str(if profile == Full() then U("operator-selected") else U("testnet-10")),
        SelectedContracts := Strings(Selection(profile, names).value)]
  }

  /** is_canary. */
  predicate IsCanary(profile: Document) {
    Get(profile, ProfileName) == Str(Canary()) && Get(profile, Kind) == Str(CanaryKind())
  }

  /** The manifest entries whose name is selected, in manifest order. */
  function Chosen(entries: seq<Document>, names: seq<Text>, selected: seq<Text>): (es: seq<Document>)
    requires |entries| == |names|
  {
    if entries == [] then []
    else
      var n := |names| - 1;
      Chosen(entries[..n], names[..n], selected) + (if names[n] in selected then [entries[n]] else [])
  }

  function ChosenNames(names: seq<Text>, selected: seq<Text>): (ns: seq<Text>)
    ensures forall t :: t in ns <==> t in names && t in selected
  {
    if names == [] then []
    else
      var n := |names| - 1;
      assert forall t :: t in names <==> t in names[..n] || t == names[n];
      ChosenNames(names[..n], selected) + (if names[n] in selected then [names[n]] else [])
  }

  datatype ProfileCheck =
    | Profile(expected: Document, entries: seq<Document>, selected: seq<Text>)
    | NotAnObject
    | Unsupported
    | MissingH001
    | BindingMismatch
    | OrderMismatch

  /** validate_profile_document. */
  function ValidateProfile(digest: Hexdigest, profile: Data, m: Document, names: seq<Text>): (r: ProfileCheck)
    requires IsManifest(m, names)
    ensures r.Profile? ==> Get(r.expected, ProfileName).Str?
  {
    if !profile.Obj? then NotAnObject
    else
      var name := Get(profile.members, ProfileName);
      if name != Str(Full()) && name != Str(Canary()) then Unsupported
      else if Selection(name.s, names).None? then MissingH001
      else
        var expected := ExpectedProfile(digest, name.s, m, names);
        var selected := Selection(name.s, names).value;
        if !PyEqual(profile, Obj(expected)) then BindingMismatch
        else if ChosenNames(names, selected) != selected then OrderMismatch
        else Profile(expected, Chosen(Entries(m, names), names, selected), selected)
  }

  lemma {:induction false} ChooseAll(names: seq<Text>, selected: seq<Text>)
    requires forall t :: t in names ==> t in selected
    ensures ChosenNames(names, selected) == names
  {
    if names != [] {
      var n := |names| - 1;
      ChooseAll(names[..n], selected);
      assert names == names[..n] + [names[n]];
    }
  }

  function Count(names: seq<Text>, name: Text): (c: nat)
    ensures c > 0 <==> name in names
  {
    if names == [] then 0
    else
      var n := |names| - 1;
      assert name in names <==> name in names[..n] || name == names[n];
      Count(names[..n], name) + if names[n] == name then 1 else 0
  }

  /** Choosing one name keeps one copy of it per occurrence. */
  lemma {:induction false} ChooseOne(names: seq<Text>, name: Text)
    ensures ChosenNames(names, [name]) == seq(Count(names, name), _ => name)
  {
    if names != [] {
      ChooseOne(names[..|names| - 1], name);
    }
  }

  lemma {:induction false} DistinctCountsOnce(names: seq<Text>, name: Text)
    requires Distinct(names)
    ensures Count(names, name) <= 1
  {
    if names != [] {
      var n := |names| - 1;
      DistinctCountsOnce(names[..n], name);
      assert forall i :: 0 <= i < n ==> names[..n][i] != names[n];
    }
  }

  lemma ChooseOneExactly(names: seq<Text>, name: Text)
    ensures ChosenNames(names, [name]) == [name] <==> Count(names, name) == 1
  {
    ChooseOne(names, name);
    var c := Count(names, name);
    assert |ChosenNames(names, [name])| == c;
    if c == 1 {
      assert ChosenNames(names, [name])[0] == name;
    }
  }

  /** The manifest-order error is raised exactly for a canary profile that matches its manifest
      when the manifest lists the canary contract more than once. */
  lemma OrderMismatchExactly(digest: Hexdigest, profile: Data, m: Document, names: seq<Text>)
    requires IsManifest(m, names)
    ensures ValidateProfile(digest, profile, m, names) == OrderMismatch <==>
      Count(names, H001()) >= 2 && PyEqual(profile, Obj(ExpectedProfile(digest, Canary(), m, names)))
  {
    hide U;
    hide Full;
    hide Canary;
    hide H001;
    hide CanaryKind;
    hide ExpectedProfile;
    hide ChosenNames;
    hide Count;
    hide IsManifest;
    hide Entries;
    hide Chosen;
    ProfilesDiffer();
    ChooseAll(names, names);
    ChooseOneExactly(names, H001());
    if profile.Obj? && H001() in names && PyEqual(profile, Obj(ExpectedProfile(digest, Canary(), m, names))) {
      PyEqualName(profile.members, ExpectedProfile(digest, Canary(), m, names));
    }
  }

  /** With distinct contract names it is never raised. */
  lemma OrderMismatchUnreachable(digest: Hexdigest, profile: Data, m: Document, names: seq<Text>)
    requires IsManifest(m, names) && Distinct(names)
    ensures ValidateProfile(digest, profile, m, names) != OrderMismatch
  {
    OrderMismatchExactly(digest, profile, m, names);
    DistinctCountsOnce(names, H001());
  }

  lemma PyEqualName(a: Document, b: Document)
    requires PyEqual(Obj(a), Obj(b)) && Get(b, ProfileName).Str?
    ensures Get(a, ProfileName) == Get(b, ProfileName)
  {
    assert ProfileName in a.Keys <==> ProfileName in b.Keys;
    if ProfileName in a {
      assert PyEqual(a[ProfileName], b[ProfileName]);
    }
  }

  /** A profile document passes exactly when it equals the one the builder would write. */
  lemma ProfileAcceptedExactly(digest: Hexdigest, profile: Data, m: Document, names: seq<Text>)
    requires IsManifest(m, names) && Distinct(names)
    ensures ValidateProfile(digest, profile, m, names).Profile? <==>
      exists name :: Selection(name, names).Some? && PyEqual(profile, Obj(ExpectedProfile(digest, name, m, names)))
  {
    hide U;
    hide ExpectedProfile;
    OrderMismatchUnreachable(digest, profile, m, names);
    if name :| Selection(name, names).Some? && PyEqual(profile, Obj(ExpectedProfile(digest, name, m, names))) {
      PyEqualName(profile.members, ExpectedProfile(digest, name, m, names));
    }
  }

  // ----- what an accepted profile says -----

  /** The document's values, one by one; the canary's name is spelled in two parts. */
  predicate ProfileSays(digest: Hexdigest, d: Document, m: Document, names: seq<Text>, canary: bool) {
    && d.Keys == PROFILE_KEYS
    && d[ProfileName] == Str(if canary then U("testnet-10-") + U("validator-staking-h001") else U("full"))
    && d[Kind] == Str(if canary then U("canary") else U("full"))
    && d[NetworkId] == Str(if canary then U("testnet-10") else U("operator-selected"))
    && Number(d[FullBundleFixtureCount]) == Some(|names|)
    && d[FullBundleManifestSha256] == Str(digest(Obj(m)))
    && d[SelectedContracts].Arr?
    && (if canary then d[SelectedContracts].items == [Str(U("ValidatorStakingH001"))]
        else |d[SelectedContracts].items| == |names| && forall i :: 0 <= i < |names| ==> d[SelectedContracts].items[i] == Str(names[i]))
  }

  lemma StringsEqual(v: Data, ts: seq<Text>)
    ensures PyEqual(v, Strings(ts)) <==>
      v.Arr? && |v.items| == |ts| && forall i :: 0 <= i < |ts| ==> v.items[i] == Str(ts[i])
  {
  }

  const PROFILE_KEYS: set<Name> := {ProfileName, FullBundleFixtureCount, FullBundleManifestSha256, Kind, NetworkId, SelectedContracts}

  lemma ExpectedFields(digest: Hexdigest, profile: Text, m: Document, names: seq<Text>)
    requires IsManifest(m, names) && Selection(profile, names).Some?
    ensures var e := ExpectedProfile(digest, profile, m, names);
      && e.Keys == PROFILE_KEYS && e[ProfileName] == Str(profile) && Number(e[FullBundleFixtureCount]) == Some(|names|)
      && e[FullBundleManifestSha256] == Str(digest(Obj(m)))
      && e[Kind] == Str(if profile == Full() then U("full") else U("canary"))
      && e[NetworkId] == Str(if profile == Full() then U("operator-selected") else U("testnet-10"))
      && e[SelectedContracts] == Strings(Selection(profile, names).value)
  {
    hide U;
    hide IsEntry;
    hide Strings;
    hide Selection;
    ProfilesDiffer();
    var e := ExpectedProfile(digest, profile, m, names);
    assert e.Keys == PROFILE_KEYS;
  }

  lemma SixEqual(d: Document, e: Document)
    requires e.Keys == PROFILE_KEYS
    ensures PyEqual(Obj(d), Obj(e)) <==>
      && d.Keys == PROFILE_KEYS
      && PyEqual(d[ProfileName], e[ProfileName]) && PyEqual(d[FullBundleFixtureCount], e[FullBundleFixtureCount])
      && PyEqual(d[FullBundleManifestSha256], e[FullBundleManifestSha256]) && PyEqual(d[Kind], e[Kind])
      && PyEqual(d[NetworkId], e[NetworkId]) && PyEqual(d[SelectedContracts], e[SelectedContracts])
  {
  }

  lemma ScalarEqual(v: Data, w: Data)
    ensures w.Str? ==> (PyEqual(v, w) <==> v == w)
    ensures Number(w).Some? ==> (PyEqual(v, w) <==> Number(v) == Number(w))
  {
  }

  /** A document equals the expected one exactly when it says this. */
  lemma ExpectedSays(digest: Hexdigest, d: Document, profile: Text, m: Document, names: seq<Text>)
    requires IsManifest(m, names) && Selection(profile, names).Some?
    ensures PyEqual(Obj(d), Obj(ExpectedProfile(digest, profile, m, names))) <==>
      ProfileSays(digest, d, m, names, profile != Full())
  {
    hide U;
    hide IsManifest;
    hide Strings;
    hide PyEqual;
    hide ExpectedProfile;
    ExpectedFields(digest, profile, m, names);
    var e := ExpectedProfile(digest, profile, m, names);
    SixEqual(d, e);
    if d.Keys == PROFILE_KEYS {
      ScalarEqual(d[ProfileName], e[ProfileName]);
      ScalarEqual(d[FullBundleFixtureCount], e[FullBundleFixtureCount]);
      ScalarEqual(d[FullBundleManifestSha256], e[FullBundleManifestSha256]);
      ScalarEqual(d[Kind], e[Kind]);
      ScalarEqual(d[NetworkId], e[NetworkId]);
      StringsEqual(d[SelectedContracts], Selection(profile, names).value);
    }
  }

  /** validate_profile_document accepts exactly a document that says this, the canary only when the manifest
      lists its contract. */
  lemma AcceptedProfileSays(digest: Hexdigest, profile: Data, m: Document, names: seq<Text>)
    requires IsManifest(m, names) && Distinct(names)
    ensures ValidateProfile(digest, profile, m, names).Profile? <==>
      && profile.Obj?
      && (ProfileSays(digest, profile.members, m, names, false) ||
          (U("ValidatorStakingH001") in names && ProfileSays(digest, profile.members, m, names, true)))
  {
    hide U;
    hide IsManifest;
    hide PyEqual;
    hide ExpectedProfile;
    hide ProfileSays;
    ProfilesDiffer();
    ProfileAcceptedExactly(digest, profile, m, names);
    if profile.Obj? {
      ExpectedSays(digest, profile.members, Full(), m, names);
      if H001() in names {
        ExpectedSays(digest, profile.members, Canary(), m, names);
      }
    }
    if name :| Selection(name, names).Some? && PyEqual(profile, Obj(ExpectedProfile(digest, name, m, names))) {
      ObjectOnly(profile, ExpectedProfile(digest, name, m, names));
      assert name == Full() || name == Canary();
    }
  }

  lemma ObjectOnly(v: Data, e: Document)
    requires PyEqual(v, Obj(e))
    ensures v.Obj?
  {
  }

  /** Without a collision, a profile document is accepted under one manifest only. */
  lemma ProfilePinsManifest(digest: Hexdigest, profile: Data, m: Document, names: seq<Text>, m': Document, names': seq<Text>)
    requires IsManifest(m, names) && Distinct(names) && IsManifest(m', names') && Distinct(names')
    requires ValidateProfile(digest, profile, m, names).Profile? && ValidateProfile(digest, profile, m', names').Profile?
    requires digest(Obj(m)) == digest(Obj(m')) ==> m == m'
    ensures m == m'
  {
    hide U;
    hide IsManifest;
    hide ValidateProfile;
    AcceptedProfileSays(digest, profile, m, names);
    AcceptedProfileSays(digest, profile, m', names');
  }

  // ----- the operator's inputs -----

  /** Without the newline that $ lets through, and without a 0x. */
  function HexDigits(t: Text): Text {
    var body := if t != [] && t[|t| - 1] == 0x0A then t[..|t| - 1] else t;
    if |body| >= 2 && body[..2] == U("0x") then body[2..] else body
  }

  /** HEX_32_BYTES_RE.match: 64 hex digits. */
  predicate IsHex32(t: Text) {
    var digits := HexDigits(t);
    |digits| == 64 && forall i :: 0 <= i < 64 ==>
      IsLowerHex(digits[i]) || 'A' as int <= digits[i] <= 'F' as int
  }

  /** validate_profile_inputs; the key argument is None or a value that may be falsy. */
  predicate InputsAllowed(profile: Text, network: Data, rpc: Data, key: Data) {
    if profile == Full() then key.Str? && IsHex32(key.s)
    else profile == Canary() && network == Str(Testnet()) && rpc == Str(PublicResolver()) && key == Null
  }

  /** validate_deploy_rpc_url: the public resolver on testnet only, else what the URL rules allow. */
  predicate RpcAllowed(url: Text -> bool, rpc: Data, network: Data) {
    && rpc.Str? && rpc.s != []
    && if rpc.s == PublicResolver() then network == Str(Testnet()) else url(rpc.s)
  }
}
