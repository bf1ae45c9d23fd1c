/**
  Deployment receipts and the public evidence for them, each checked against the release
  manifest; the statuses they end in are what the release audit relies on.
 */
module ReleaseReceipts {
  import opened Texts
  import opened CanonicalJson
  import opened DeploymentProfiles
  import AuditKeys
  import ReleaseNames

  /** What the library regexes decide, left abstract: identifiers, addresses and UTC timestamps. */
  datatype Patterns = Patterns(publicId: Text -> bool, address: Text -> bool, timestamp: Text -> bool)

  /** SECRET_KEY_RE or RAW_TX_KEY_RE on a key as it is written. */
  predicate IsForbiddenName(k: Name) {
    AuditKeys.IsSecret(ReleaseNames.Write(k)) || AuditKeys.IsRaw(ReleaseNames.Write(k))
  }

  function ForbiddenKey(): (Name, Data) -> bool {
    (k: Name, v: Data) => IsForbiddenName(k)
  }

  function Sandbox(): Text { U("sandbox") }
  function Mainnet(): Text { U("mainnet") }
  function CiFixture(): Text { U("ci_fixture") }
  function OperatorRecord(): Text { U("operator_record") }
  function Confirmed(): Text { U("confirmed") }
  function ReceiptEvidence(): Text { U("prometheus_silverc_") + (U("deploy_receipt_") + U("public_evidence")) }
  function ExplorerSnapshot(): Text { U("public_explorer_") + U("snapshot") }
  function NodeSnapshot(): Text { U("public_node_") + U("snapshot") }

  predicate IsNetwork(v: Data) {
    v == Str(Sandbox()) || v == Str(Testnet()) || v == Str(Mainnet())
  }

  /** require_str: a non-empty string. */
  predicate HasText(d: Document, k: Name) {
    Get(d, k).Str? && Get(d, k).s != []
  }

  /** require_int with a minimum of one: an int that is not a bool. */
  predicate HasPositive(d: Document, k: Name) {
    Get(d, k).Int? && Get(d, k).n >= 1
  }

  // ----- receipts -----

  datatype ReceiptLine = ReceiptLine(
    name: Text, instance: Text, txId: Text, blockHash: Text, daaScore: int, confirmations: int, artifactSha: Data, scriptSha: Data)

  datatype ReceiptSummary = ReceiptSummary(
    network: Data, operatorRecord: bool, profile: Document, contracts: seq<ReceiptLine>, receiptsSha: Text)

  /** value.lower().removeprefix("0x") on text that is ASCII. */
  function NormalizeHex(t: Text): Text {
    var lower := seq(|t|, i requires 0 <= i < |t| => LowerOne(t[i]));
    if |t| >= 2 && lower[..2] == U("0x") then lower[2..] else lower
  }

  /** validate_receipt apart from the duplicate check, against the manifest entry of the same name. */
  predicate ReceiptAccepted(pats: Patterns, r: Document, names: seq<Text>, entries: seq<Document>)
    requires |entries| == |names| && forall i :: 0 <= i < |names| ==> IsEntry(entries[i], names[i])
  {
    hide IsEntry;
    && HasText(r, ContractName) && Get(r, ContractName).s in names
    && HashesAccepted(r, entries[ManifestOrder(names, Get(r, ContractName).s) - 1])
    && Get(r, Status) == Str(Confirmed())
    && HasText(r, DeployedInstanceId) && pats.publicId(Get(r, DeployedInstanceId).s)
    && HasText(r, DeployTxId) && IsHex32(Get(r, DeployTxId).s)
    && HasText(r, BlockHash) && IsHex32(Get(r, BlockHash).s)
    && HasText(r, DeployerAddress) && pats.address(Get(r, DeployerAddress).s)
    && HasPositive(r, Confirmations) && HasPositive(r, BlockDaaScore)
    && HasText(r, DeployedAt) && pats.timestamp(Get(r, DeployedAt).s)
  }

  /** The receipt repeats the entry's hashes and script length. */
  predicate HashesAccepted(r: Document, e: Document) {
    && PyEqual(Get(r, SourceSha256), Get(e, SourceSha256))
    && PyEqual(Get(r, ConstructorArgsSha256), Get(e, ConstructorArgsSha256))
    && PyEqual(Get(r, ArtifactSha256), Get(e, ArtifactSha256))
    && PyEqual(Get(r, ScriptSha256), Get(e, ScriptSha256))
    && PyEqual(Get(r, ScriptLen), Get(e, ScriptLen))
  }

  function Normalized(r: Document, names: seq<Text>, entries: seq<Document>): ReceiptLine
    requires |entries| == |names|
    requires HasText(r, ContractName) && Get(r, ContractName).s in names
    requires Get(r, DeployedInstanceId).Str? && Get(r, DeployTxId).Str? && Get(r, BlockHash).Str?
    requires Get(r, BlockDaaScore).Int? && Get(r, Confirmations).Int?
  {
    var e := entries[ManifestOrder(names, Get(r, ContractName).s) - 1];
    ReceiptLine(Get(r, ContractName).s, Get(r, DeployedInstanceId).s, NormalizeHex(Get(r, DeployTxId).s),
      NormalizeHex(Get(r, BlockHash).s), Get(r, BlockDaaScore).n, Get(r, Confirmations).n,
      Get(e, ArtifactSha256), Get(e, ScriptSha256))
  }

  /** The profile receipts or evidence claim; none means the full release. */
  function ClaimedProfile(digest: Hexdigest, d: Document, m: Document, names: seq<Text>): (p: ProfileCheck)
    requires IsManifest(m, names)
  {
    if Get(d, DeploymentProfile) == Null then Profile(ExpectedProfile(digest, Full(), m, names), Entries(m, names), names)
    else ValidateProfile(digest, Get(d, DeploymentProfile), m, names)
  }

  predicate BundleAccepted(v: Data, m: Document) {
    && v.Obj?
    && PyEqual(Get(v.members, SilverscriptRef), Get(m, SilverscriptRef))
    && PyEqual(Get(v.members, SilverscriptCommit), Get(m, SilverscriptCommit))
    && PyEqual(Get(v.members, FixtureCount), Get(m, FixtureCount))
  }

  /** validate_receipts_document up to its loop. */
  predicate ReceiptsHeader(pats: Patterns, digest: Hexdigest, d: Document, m: Document, names: seq<Text>, requireOperator: bool)
    requires IsManifest(m, names)
  {
    && KeysAllowed(Obj(d), ForbiddenKey())
    && PyEqual(Get(d, SchemaVersion), Int(1))
    && IsNetwork(Get(d, Network))
    && Get(d, Provenance).Obj?
    && (Source(d) == Str(OperatorRecord()) || (!requireOperator && Source(d) == Str(CiFixture())))
    && BundleAccepted(Get(d, ReleaseBundle), m)
    && ClaimedProfile(digest, d, m, names).Profile?
    && Get(d, Receipts).Arr?
    && |Get(d, Receipts).items| == |ClaimedProfile(digest, d, m, names).selected|
  }

  function Source(d: Document): Data {
    if Get(d, Provenance).Obj? then Get(Get(d, Provenance).members, ProvenanceType) else Null
  }

  /** Every receipt is accepted, no contract twice, and the contracts are the selected ones in order. */
  ghost predicate ReceiptsAccepted(pats: Patterns, digest: Hexdigest, d: Document, m: Document, names: seq<Text>, requireOperator: bool)
    requires IsManifest(m, names)
  {
    && ReceiptsHeader(pats, digest, d, m, names, requireOperator)
    && var items, selected := Get(d, Receipts).items, ClaimedProfile(digest, d, m, names).selected;
       forall i :: 0 <= i < |items| ==>
         && items[i].Obj? && ReceiptAccepted(pats, items[i].members, names, Entries(m, names))
         && Get(items[i].members, ContractName) == Str(selected[i])
         && selected[i] !in selected[..i]
  }

  predicate Normalizable(r: Document, names: seq<Text>) {
    && HasText(r, ContractName) && Get(r, ContractName).s in names
    && Get(r, DeployedInstanceId).Str? && Get(r, DeployTxId).Str? && Get(r, BlockHash).Str?
    && Get(r, BlockDaaScore).Int? && Get(r, Confirmations).Int?
  }

  /** The summary of accepted receipts. */
  ghost predicate IsSummary(s: ReceiptSummary, digest: Hexdigest, d: Document, m: Document, names: seq<Text>)
    requires IsManifest(m, names)
  {
    && ClaimedProfile(digest, d, m, names).Profile? && Get(d, Receipts).Arr?
    && s.network == Get(d, Network) && s.operatorRecord == (Source(d) == Str(OperatorRecord()))
    && s.profile == ClaimedProfile(digest, d, m, names).expected
    && s.receiptsSha == digest(Obj(d))
    && |s.contracts| == |Get(d, Receipts).items|
    && forall i :: 0 <= i < |s.contracts| ==> IsLine(s.contracts[i], Get(d, Receipts).items[i], names, Entries(m, names))
  }

  predicate IsLine(line: ReceiptLine, item: Data, names: seq<Text>, entries: seq<Document>)
    requires |entries| == |names|
  {
    item.Obj? && Normalizable(item.members, names) && line == Normalized(item.members, names, entries)
  }

  /** validate_receipts_document. */
  method ValidateReceipts(pats: Patterns, digest: Hexdigest, d: Document, m: Document, names: seq<Text>, requireOperator: bool)
      returns (r: Option<ReceiptSummary>)
    requires IsManifest(m, names)
    ensures r.Some? <==> ReceiptsAccepted(pats, digest, d, m, names, requireOperator)
    ensures r.Some? ==> IsSummary(r.value, digest, d, m, names)
  {
    hide IsManifest;
    hide IsEntry;
    hide KeysAllowed;
    hide PyEqual;
    hide BundleAccepted;
    hide ClaimedProfile;
    hide ReceiptAccepted;
    hide Get;
    hide IsLine;
    hide Normalized;
    hide Source;
    hide IsNetwork;
    hide U;
    if !ReceiptsHeader(pats, digest, d, m, names, requireOperator) {
      return None;
    }
    var entries, items := Entries(m, names), Get(d, Receipts).items;
    var profile := ClaimedProfile(digest, d, m, names);
    var seen: set<Text>, lines: seq<ReceiptLine>, actual: seq<Text> := {}, [], [];
    for i := 0 to |items|
      invariant |lines| == |actual| == i
      invariant forall j :: 0 <= j < i ==> items[j].Obj? && ReceiptAccepted(pats, items[j].members, names, entries)
      invariant forall j :: 0 <= j < i ==> Get(items[j].members, ContractName) == Str(actual[j]) && actual[j] !in actual[..j]
      invariant forall j :: 0 <= j < i ==> IsLine(lines[j], items[j], names, entries)
      invariant forall t :: t in seen <==> t in actual
    {
      if !items[i].Obj? {
        return None;
      }
      var receipt := items[i].members;
      if !ReceiptAccepted(pats, receipt, names, entries) {
        return None;
      }
      AcceptedIsLine(pats, receipt, names, entries);
      var name := Get(receipt, ContractName).s;
      if name in seen {
        DuplicateRefused(pats, digest, d, m, names, requireOperator, actual, i);
        return None;
      }
      Extended(actual, name);
      seen, lines, actual := seen + {name}, lines + [Normalized(receipt, names, entries)], actual + [name];
    }
    if actual != profile.selected {
      NamesDecide(pats, digest, d, m, names, requireOperator, actual);
      return None;
    }
    return Some(ReceiptSummary(Get(d, Network), Source(d) == Str(OperatorRecord()), profile.expected, lines, digest(Obj(d))));
  }

  lemma Extended(ts: seq<Text>, t: Text)
    ensures forall j :: 0 <= j <= |ts| ==> (ts + [t])[..j] == ts[..j]
    ensures forall u :: u in ts + [t] <==> u in ts || u == t
  {
  }

  lemma AcceptedIsLine(pats: Patterns, r: Document, names: seq<Text>, entries: seq<Document>)
    requires |entries| == |names| && forall i :: 0 <= i < |names| ==> IsEntry(entries[i], names[i])
    requires ReceiptAccepted(pats, r, names, entries)
    ensures Normalizable(r, names) && IsLine(Normalized(r, names, entries), Obj(r), names, entries)
    ensures Get(r, ContractName).Str?
  {
    hide IsEntry;
    hide HashesAccepted;
    hide IsHex32;
  }

  /** Names that differ from the selection, or that repeat, are refused. */
  lemma NamesDecide(pats: Patterns, digest: Hexdigest, d: Document, m: Document, names: seq<Text>, requireOperator: bool, actual: seq<Text>)
    requires IsManifest(m, names) && ReceiptsHeader(pats, digest, d, m, names, requireOperator)
    requires |actual| == |Get(d, Receipts).items|
    requires forall j :: 0 <= j < |actual| ==> Get(d, Receipts).items[j].Obj? && Get(Get(d, Receipts).items[j].members, ContractName) == Str(actual[j])
    requires actual != ClaimedProfile(digest, d, m, names).selected
    ensures !ReceiptsAccepted(pats, digest, d, m, names, requireOperator)
  {
    hide IsManifest;
    hide IsEntry;
    hide KeysAllowed;
    hide BundleAccepted;
    hide ClaimedProfile;
    hide ReceiptAccepted;
    hide U;
    hide Get;
    var selected := ClaimedProfile(digest, d, m, names).selected;
    var i :| 0 <= i < |actual| && actual[i] != selected[i];
  }

  lemma DuplicateRefused(
      pats: Patterns, digest: Hexdigest, d: Document, m: Document, names: seq<Text>, requireOperator: bool, actual: seq<Text>, i: nat)
    requires IsManifest(m, names) && ReceiptsHeader(pats, digest, d, m, names, requireOperator)
    requires |actual| == i < |Get(d, Receipts).items|
    requires forall j :: 0 <= j < i ==> Get(d, Receipts).items[j].Obj? && Get(Get(d, Receipts).items[j].members, ContractName) == Str(actual[j])
    requires Get(d, Receipts).items[i].Obj? && Get(Get(d, Receipts).items[i].members, ContractName).Str?
    requires Get(Get(d, Receipts).items[i].members, ContractName).s in actual
    ensures !ReceiptsAccepted(pats, digest, d, m, names, requireOperator)
  {
    hide IsManifest;
    hide IsEntry;
    hide KeysAllowed;
    hide BundleAccepted;
    hide ClaimedProfile;
    hide ReceiptAccepted;
    hide U;
    hide Get;
    var selected := ClaimedProfile(digest, d, m, names).selected;
    if forall j :: 0 <= j <= i ==> Get(Get(d, Receipts).items[j].members, ContractName) == Str(selected[j]) {
      assert forall j :: 0 <= j < i ==> actual[j] == selected[..i][j];
      assert selected[i] in selected[..i];
    }
  }

  // ----- public evidence -----

  datatype EvidenceLine = EvidenceLine(order: nat, receipt: ReceiptLine, evidenceConfirmations: int)

  datatype EvidenceSummary = EvidenceSummary(
    network: Data, profile: Document, receiptsSha: Text, evidenceSha: Text, contracts: seq<EvidenceLine>)

  /** validate_evidence_document up to its loop. */
  predicate EvidenceHeader(
      pats: Patterns, digest: Hexdigest, d: Document, receipts: Document, s: ReceiptSummary, m: Document, names: seq<Text>)
    requires IsManifest(m, names)
  {
    hide IsManifest;
    hide ReceiptEvidence;
    hide ExplorerSnapshot;
    hide NodeSnapshot;
    hide ClaimedProfile;
    hide PyEqual;
    && KeysAllowed(Obj(d), ForbiddenKey())
    && PyEqual(Get(d, SchemaVersion), Int(1))
    && Get(d, EvidenceType) == Str(ReceiptEvidence())
    && IsNetwork(Get(d, Network)) && Get(d, Network) == s.network
    && Get(d, Provenance).Obj?
    && (Source(d) == Str(ExplorerSnapshot()) || Source(d) == Str(NodeSnapshot()))
    && HasText(Get(d, Provenance).members, Observer)
    && HasText(Get(d, Provenance).members, ObservedAt) && pats.timestamp(Get(Get(d, Provenance).members, ObservedAt).s)
    && BundleAccepted(Get(d, ReleaseBundle), m)
    && ClaimedProfile(digest, d, m, names).Profile?
    && PyEqual(Obj(ClaimedProfile(digest, d, m, names).expected), Obj(s.profile))
    && Get(d, ReceiptsSha256) == Str(s.receiptsSha)
    && PyEqual(Get(d, ReceiptCount), Int(|s.contracts|))
    && Get(d, Observations).Arr? && Get(receipts, Receipts).Arr?
    && |Get(d, Observations).items| == |Get(receipts, Receipts).items|
  }

  predicate ObservationAccepted(v: Data, line: ReceiptLine) {
    hide Confirmed;
    && v.Obj? && Get(v.members, Status) == Str(Confirmed())
    && PyEqual(Get(v.members, ContractName), Str(line.name))
    && PyEqual(Get(v.members, DeployedInstanceId), Str(line.instance))
    && PyEqual(Get(v.members, DeployTxId), Str(line.txId))
    && PyEqual(Get(v.members, BlockHash), Str(line.blockHash))
    && PyEqual(Get(v.members, BlockDaaScore), Int(line.daaScore))
    && HasPositive(v.members, Confirmations) && Get(v.members, Confirmations).n >= line.confirmations
    && (Get(v.members, ExplorerUrl) == Null || IsHttps(Get(v.members, ExplorerUrl)))
  }

  predicate IsHttps(v: Data) {
    v.Str? && U("https://") <= v.s
  }

  ghost predicate EvidenceAccepted(
      pats: Patterns, digest: Hexdigest, d: Document, receipts: Document, s: ReceiptSummary, m: Document, names: seq<Text>)
    requires IsManifest(m, names) && IsSummary(s, digest, receipts, m, names)
  {
    && EvidenceHeader(pats, digest, d, receipts, s, m, names)
    && forall i :: 0 <= i < |s.contracts| ==> ObservationAccepted(Get(d, Observations).items[i], s.contracts[i])
  }

  /** The confirmations an observation reports. */
  function ObservedConfirmations(d: Document, i: nat): int {
    var v := Get(d, Observations);
    if v.Arr? && i < |v.items| && v.items[i].Obj? && Get(v.items[i].members, Confirmations).Int?
    then Get(v.items[i].members, Confirmations).n else 0
  }

  /** What an accepted evidence document is summarized as. */
  ghost predicate IsEvidenceSummary(
      e: EvidenceSummary, digest: Hexdigest, d: Document, s: ReceiptSummary)
  {
    && e.network == s.network && PyEqual(Obj(e.profile), Obj(s.profile)) && e.receiptsSha == s.receiptsSha
    && e.evidenceSha == digest(Obj(d))
    && |e.contracts| == |s.contracts|
    && forall i :: 0 <= i < |e.contracts| ==>
         && e.contracts[i].order == i + 1 && e.contracts[i].receipt == s.contracts[i]
         && e.contracts[i].evidenceConfirmations == ObservedConfirmations(d, i) >= s.contracts[i].confirmations
  }

  /** validate_evidence_document, for the summary of the same receipts. */
  method ValidateEvidence(
      pats: Patterns, digest: Hexdigest, d: Document, receipts: Document, s: ReceiptSummary, m: Document, names: seq<Text>)
      returns (r: Option<EvidenceSummary>)
    requires IsManifest(m, names) && IsSummary(s, digest, receipts, m, names)
    ensures r.Some? <==> EvidenceAccepted(pats, digest, d, receipts, s, m, names)
    ensures r.Some? ==> IsEvidenceSummary(r.value, digest, d, s)
    ensures r.Some? ==> r.value.profile == ClaimedProfile(digest, d, m, names).expected
  {
    hide IsManifest;
    hide KeysAllowed;
    hide PyEqual;
    hide BundleAccepted;
    hide ClaimedProfile;
    hide IsLine;
    hide U;
    hide Get;
    if !EvidenceHeader(pats, digest, d, receipts, s, m, names) {
      return None;
    }
    var observations := Get(d, Observations).items;
    var contracts: seq<EvidenceLine> := [];
    for i := 0 to |observations|
      invariant |contracts| == i
      invariant forall j :: 0 <= j < i ==> ObservationAccepted(observations[j], s.contracts[j])
      invariant forall j :: 0 <= j < i ==>
        contracts[j] == EvidenceLine(j + 1, s.contracts[j], Get(observations[j].members, Confirmations).n)
    {
      if !ObservationAccepted(observations[i], s.contracts[i]) {
        return None;
      }
      contracts := contracts + [EvidenceLine(i + 1, s.contracts[i], Get(observations[i].members, Confirmations).n)];
    }
    return Some(EvidenceSummary(s.network, ClaimedProfile(digest, d, m, names).expected, s.receiptsSha, digest(Obj(d)), contracts));
  }

  // ----- receipts and observations, read from the documents -----

  function Small(c: CodePoint): CodePoint {
    if 0x41 <= c <= 0x5A then c + 0x20 else c
  }

  /** The first text is the second in small letters, without its 0x if it has one. */
  predicate IsHexOf(o: Text, r: Text) {
    var digits := if |r| >= 2 && r[0] == 0x30 && r[1] == 0x78 then r[2..] else r;
    |o| == |digits| && forall i :: 0 <= i < |o| ==> o[i] == Small(digits[i])
  }

  lemma NormalizedIsHexOf(o: Text, r: Text)
    requires IsHex32(r)
    ensures o == NormalizeHex(r) <==> IsHexOf(o, r)
  {
    var lower := seq(|r|, i requires 0 <= i < |r| => LowerOne(r[i]));
    assert U("0x")[0] == 0x30 && U("0x")[1] == 0x78;
    PrefixIsSmall(r);
    assert |r| >= 2 && (lower[..2] == U("0x") <==> lower[0] == 0x30 && lower[1] == 0x78);
    if IsHexOf(o, r) {
      assert o == NormalizeHex(r);
    }
  }

  /** The pattern lets a hexadecimal text begin with 0x, but not with 0X. */
  lemma PrefixIsSmall(r: Text)
    requires IsHex32(r)
    ensures |r| >= 64 && r[1] != 0x58
  {
    var body := if r != [] && r[|r| - 1] == 0x0A then r[..|r| - 1] else r;
    assert U("0x")[1] == 0x78;
    if |body| >= 2 && body[..2] == U("0x") {
      assert body[1] == body[..2][1];
    } else {
      assert IsLowerHex(body[1]) || 'A' as int <= body[1] <= 'F' as int;
    }
  }

  /** What a summary line repeats of its receipt. */
  predicate LineSays(line: ReceiptLine, r: Document) {
    && Get(r, ContractName) == Str(line.name) && Get(r, DeployedInstanceId) == Str(line.instance)
    && Get(r, DeployTxId).Str? && IsHexOf(line.txId, Get(r, DeployTxId).s)
    && Get(r, BlockHash).Str? && IsHexOf(line.blockHash, Get(r, BlockHash).s)
    && Get(r, BlockDaaScore) == Int(line.daaScore) && line.daaScore >= 1
    && Get(r, Confirmations) == Int(line.confirmations) && line.confirmations >= 1
  }

  /** A receipt for a manifest entry: the entry's four hashes and its script length. */
  predicate ReceiptMatches(r: Document, e: Document) {
    && Get(r, SourceSha256) == Get(e, SourceSha256) && Get(r, ConstructorArgsSha256) == Get(e, ConstructorArgsSha256)
    && Get(r, ArtifactSha256) == Get(e, ArtifactSha256) && Get(r, ScriptSha256) == Get(e, ScriptSha256)
    && Number(Get(r, ScriptLen)) == Number(Get(e, ScriptLen)) && Number(Get(e, ScriptLen)).Some?
    && Get(r, Status) == Str(U("confirmed"))
  }

  /** What an observation repeats of a receipt. */
  predicate ObservationSays(r: Document, o: Data) {
    && o.Obj? && Get(o.members, Status) == Str(U("confirmed"))
    && Get(o.members, ContractName) == Get(r, ContractName) && Get(o.members, DeployedInstanceId) == Get(r, DeployedInstanceId)
    && Get(r, DeployTxId).Str? && Get(o.members, DeployTxId).Str? && IsHexOf(Get(o.members, DeployTxId).s, Get(r, DeployTxId).s)
    && Get(r, BlockHash).Str? && Get(o.members, BlockHash).Str? && IsHexOf(Get(o.members, BlockHash).s, Get(r, BlockHash).s)
    && Get(r, BlockDaaScore).Int? && Number(Get(o.members, BlockDaaScore)) == Some(Get(r, BlockDaaScore).n)
    && Get(r, Confirmations).Int? && Get(o.members, Confirmations).Int?
    && Get(o.members, Confirmations).n >= Get(r, Confirmations).n >= 1
    && (Get(o.members, ExplorerUrl) == Null || (Get(o.members, ExplorerUrl).Str? && U("https://") <= Get(o.members, ExplorerUrl).s))
  }

  lemma AcceptedLineSays(pats: Patterns, line: ReceiptLine, r: Document, names: seq<Text>, entries: seq<Document>)
    requires |entries| == |names| && forall i :: 0 <= i < |names| ==> IsEntry(entries[i], names[i])
    requires ReceiptAccepted(pats, r, names, entries) && IsLine(line, Obj(r), names, entries)
    ensures LineSays(line, r) && IsHex32(Get(r, DeployTxId).s) && IsHex32(Get(r, BlockHash).s)
  {
    hide IsEntry;
    hide HashesAccepted;
    hide IsHex32;
    hide NormalizeHex;
    hide IsHexOf;
    hide U;
    NormalizedIsHexOf(line.txId, Get(r, DeployTxId).s);
    NormalizedIsHexOf(line.blockHash, Get(r, BlockHash).s);
  }

  lemma TextEqual(v: Data, t: Text)
    ensures PyEqual(v, Str(t)) <==> v == Str(t)
  {
  }

  lemma NumberEqual(v: Data, n: int)
    ensures PyEqual(v, Int(n)) <==> Number(v) == Some(n)
  {
  }

  /** An observation is accepted for a line exactly when it repeats the line's receipt. */
  lemma ObservationExactly(line: ReceiptLine, r: Document, o: Data)
    requires LineSays(line, r) && IsHex32(Get(r, DeployTxId).s) && IsHex32(Get(r, BlockHash).s)
    ensures ObservationAccepted(o, line) <==> ObservationSays(r, o)
  {
    hide IsHex32;
    hide NormalizeHex;
    hide IsHexOf;
    hide PyEqual;
    hide U;
    if o.Obj? {
      var m := o.members;
      TextEqual(Get(m, ContractName), line.name);
      TextEqual(Get(m, DeployedInstanceId), line.instance);
      TextEqual(Get(m, DeployTxId), line.txId);
      TextEqual(Get(m, BlockHash), line.blockHash);
      NumberEqual(Get(m, BlockDaaScore), line.daaScore);
      NormalizedIsHexOf(line.txId, Get(r, DeployTxId).s);
      NormalizedIsHexOf(line.blockHash, Get(r, BlockHash).s);
      if Get(m, DeployTxId).Str? {
        NormalizedIsHexOf(Get(m, DeployTxId).s, Get(r, DeployTxId).s);
      }
      if Get(m, BlockHash).Str? {
        NormalizedIsHexOf(Get(m, BlockHash).s, Get(r, BlockHash).s);
      }
    }
  }

  lemma MatchedHashes(r: Document, e: Document, name: Text)
    requires IsEntry(e, name) && HashesAccepted(r, e) && Get(r, Status) == Str(Confirmed())
    ensures ReceiptMatches(r, e)
  {
    hide U;
    hide IsHexText;
  }

  /** Every observation of the evidence repeats the receipt at its place. */
  ghost predicate EvidenceRepeats(evidence: Document, receipts: Document) {
    && Get(evidence, Observations).Arr? && Get(receipts, Receipts).Arr?
    && |Get(evidence, Observations).items| == |Get(receipts, Receipts).items|
    && forall i :: 0 <= i < |Get(receipts, Receipts).items| ==>
         Get(receipts, Receipts).items[i].Obj? &&
         ObservationSays(Get(receipts, Receipts).items[i].members, Get(evidence, Observations).items[i])
  }

  /** For accepted receipts, evidence with a good header is accepted exactly when it repeats them. */
  lemma AcceptedEvidenceRepeats(
      pats: Patterns, digest: Hexdigest, evidence: Document, receipts: Document, s: ReceiptSummary, m: Document, names: seq<Text>,
      requireOperator: bool)
    requires IsManifest(m, names) && IsSummary(s, digest, receipts, m, names)
    requires ReceiptsAccepted(pats, digest, receipts, m, names, requireOperator)
    ensures EvidenceAccepted(pats, digest, evidence, receipts, s, m, names) <==>
      EvidenceHeader(pats, digest, evidence, receipts, s, m, names) && EvidenceRepeats(evidence, receipts)
  {
    hide IsManifest;
    hide IsEntry;
    hide KeysAllowed;
    hide BundleAccepted;
    hide PyEqual;
    hide ClaimedProfile;
    hide ReceiptAccepted;
    hide ObservationAccepted;
    hide ObservationSays;
    hide LineSays;
    hide IsLine;
    hide U;
    hide Get;
    var items := Get(receipts, Receipts).items;
    forall i | 0 <= i < |items| ensures items[i].Obj? {
    }
    forall i, o | 0 <= i < |items| ensures ObservationAccepted(o, s.contracts[i]) <==> ObservationSays(items[i].members, o) {
      AcceptedLineSays(pats, s.contracts[i], items[i].members, names, Entries(m, names));
      ObservationExactly(s.contracts[i], items[i].members, o);
    }
  }

  // ----- what an accepted release rests on -----

  /** One confirmed receipt per manifest contract, in manifest order, with the manifest's hashes, each
      summarized with its own identifiers. */
  ghost predicate CoversRelease(s: ReceiptSummary, d: Document, m: Document, names: seq<Text>)
    requires IsManifest(m, names)
  {
    && |s.contracts| == |names|
    && Get(d, Receipts).Arr? && |Get(d, Receipts).items| == |names|
    && forall i :: 0 <= i < |names| ==>
         && s.contracts[i].name == names[i] && s.contracts[i].confirmations >= 1 && s.contracts[i].daaScore >= 1
         && s.contracts[i].artifactSha == Get(Entries(m, names)[i], ArtifactSha256)
         && s.contracts[i].scriptSha == Get(Entries(m, names)[i], ScriptSha256)
         && Get(d, Receipts).items[i].Obj? && ReceiptMatches(Get(d, Receipts).items[i].members, Entries(m, names)[i])
         && LineSays(s.contracts[i], Get(d, Receipts).items[i].members)
  }

  /** A profile that is not the canary selects the whole manifest. */
  lemma FullSelection(digest: Hexdigest, d: Document, m: Document, names: seq<Text>)
    requires IsManifest(m, names) && ClaimedProfile(digest, d, m, names).Profile?
    requires !IsCanary(ClaimedProfile(digest, d, m, names).expected)
    ensures ClaimedProfile(digest, d, m, names).selected == names
  {
    hide IsManifest;
    hide IsEntry;
    hide PyEqual;
    hide ExpectedProfile;
    hide ChosenNames;
    hide Chosen;
    hide U;
    hide Canary;
    hide Full;
    hide CanaryKind;
  }

  /** The canary selects one contract. */
  lemma CanarySelection(digest: Hexdigest, d: Document, m: Document, names: seq<Text>)
    requires IsManifest(m, names) && ClaimedProfile(digest, d, m, names).Profile?
    requires IsCanary(ClaimedProfile(digest, d, m, names).expected)
    ensures ClaimedProfile(digest, d, m, names).selected == [H001()]
  {
    hide IsManifest;
    hide IsEntry;
    hide PyEqual;
    hide ExpectedProfile;
    hide ChosenNames;
    hide Chosen;
    hide U;
    hide H001;
    hide Canary;
    hide Full;
    hide CanaryKind;
    ProfilesDiffer();
  }

  lemma LineBinds(pats: Patterns, line: ReceiptLine, r: Document, names: seq<Text>, entries: seq<Document>, i: nat)
    requires |entries| == |names| && Distinct(names) && i < |names|
    requires forall j :: 0 <= j < |names| ==> IsEntry(entries[j], names[j])
    requires ReceiptAccepted(pats, r, names, entries) && IsLine(line, Obj(r), names, entries)
    requires Get(r, ContractName) == Str(names[i])
    ensures line.name == names[i] && line.confirmations >= 1 && line.daaScore >= 1
    ensures line.artifactSha == Get(entries[i], ArtifactSha256) && line.scriptSha == Get(entries[i], ScriptSha256)
    ensures ReceiptMatches(r, entries[i]) && LineSays(line, r)
  {
    hide IsEntry;
    hide HashesAccepted;
    hide IsHex32;
    hide U;
    hide NormalizeHex;
    hide IsHexOf;
    hide ReceiptMatches;
    OrderFound(names, i + 1);
    MatchedHashes(r, entries[i], names[i]);
    AcceptedLineSays(pats, line, r, names, entries);
  }

  /** Receipts whose profile is not the canary cover the whole release. */
  lemma FullReceiptsCover(
      pats: Patterns, digest: Hexdigest, d: Document, m: Document, names: seq<Text>, requireOperator: bool, s: ReceiptSummary)
    requires IsManifest(m, names) && Distinct(names)
    requires ReceiptsAccepted(pats, digest, d, m, names, requireOperator) && IsSummary(s, digest, d, m, names)
    requires !IsCanary(s.profile)
    ensures CoversRelease(s, d, m, names)
    ensures requireOperator ==> s.operatorRecord
  {
    hide IsManifest;
    hide IsEntry;
    hide KeysAllowed;
    hide BundleAccepted;
    hide PyEqual;
    hide ClaimedProfile;
    hide ReceiptAccepted;
    hide ReceiptMatches;
    hide LineSays;
    hide IsLine;
    hide IsCanary;
    hide Distinct;
    hide U;
    hide Get;
    FullSelection(digest, d, m, names);
    var items := Get(d, Receipts).items;
    forall i | 0 <= i < |names| ensures
      && s.contracts[i].name == names[i] && s.contracts[i].confirmations >= 1 && s.contracts[i].daaScore >= 1
      && s.contracts[i].artifactSha == Get(Entries(m, names)[i], ArtifactSha256)
      && s.contracts[i].scriptSha == Get(Entries(m, names)[i], ScriptSha256)
      && items[i].Obj? && ReceiptMatches(items[i].members, Entries(m, names)[i]) && LineSays(s.contracts[i], items[i].members)
    {
      LineBinds(pats, s.contracts[i], items[i].members, names, Entries(m, names), i);
    }
  }

  /** Canary receipts are for the one canary contract only. */
  lemma CanaryReceiptsCoverOne(
      pats: Patterns, digest: Hexdigest, d: Document, m: Document, names: seq<Text>, requireOperator: bool, s: ReceiptSummary)
    requires IsManifest(m, names)
    requires ReceiptsAccepted(pats, digest, d, m, names, requireOperator) && IsSummary(s, digest, d, m, names)
    requires IsCanary(s.profile)
    ensures |s.contracts| == 1 && s.contracts[0].name == H001()
  {
    hide IsManifest;
    hide IsEntry;
    hide KeysAllowed;
    hide BundleAccepted;
    hide ClaimedProfile;
    hide ReceiptAccepted;
    hide IsCanary;
    hide U;
    hide H001;
    CanarySelection(digest, d, m, names);
    assert IsLine(s.contracts[0], Get(d, Receipts).items[0], names, Entries(m, names));
  }
}
