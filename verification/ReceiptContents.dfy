/**
  What accepted deployment receipts and their public evidence say, document against
  manifest, in words that the validators do not share.
 */
module ReceiptContents {
  import opened Texts
  import opened CanonicalJson
  import opened DeploymentProfiles
  import opened ReleaseReceipts
  import AuditKeys
  import ReleaseNames

  // ----- the specification -----

  /** 64 hexadecimal digits, perhaps after 0x, perhaps before a line feed. */
  predicate Hex32(t: Text) {
    var n := if t != [] && t[|t| - 1] == 0x0A then |t| - 1 else |t|;
    var from := n - 64;
    && (from == 0 || (from == 2 && t[0] == 0x30 && t[1] == 0x78))
    && forall i :: from <= i < n ==> 0x30 <= t[i] <= 0x39 || 0x61 <= t[i] <= 0x66 || 0x41 <= t[i] <= 0x46
  }

  /** Some key, at any depth, is spelled with a forbidden word. */
  ghost predicate Forbids(d: Document) {
    exists path, k :: ForbidsAt(d, path, k)
  }

  ghost predicate ForbidsAt(d: Document, path: seq<Step<Name>>, k: Name) {
    var at := At(Obj(d), path);
    && at.Some? && at.value.Obj? && k in at.value.members
    && (AuditKeys.IsSecret(ReleaseNames.Write(k)) || AuditKeys.IsRaw(ReleaseNames.Write(k)))
  }

  predicate NetworkSays(v: Data) {
    v == Str(U("sandbox")) || v == Str(U("testnet")) || v == Str(U("mainnet"))
  }

  predicate BundleSays(v: Data, m: Document, names: seq<Text>) {
    && v.Obj? && Get(v.members, SilverscriptRef) == Get(m, SilverscriptRef)
    && Get(v.members, SilverscriptCommit) == Get(m, SilverscriptCommit) && Number(Get(v.members, FixtureCount)) == Some(|names|)
  }

  /** No profile means the full release. */
  predicate ClaimSays(digest: Hexdigest, v: Data, m: Document, names: seq<Text>, canary: bool) {
    if v == Null then !canary
    else v.Obj? && ProfileSays(digest, v.members, m, names, canary) && (canary ==> U("ValidatorStakingH001") in names)
  }

  predicate ReceiptSays(pats: Patterns, v: Data, e: Document, name: Text) {
    && v.Obj? && name != [] && Get(v.members, ContractName) == Str(name) && ReceiptMatches(v.members, e)
    && Get(v.members, DeployedInstanceId).Str? && Get(v.members, DeployedInstanceId).s != []
    && pats.publicId(Get(v.members, DeployedInstanceId).s)
    && Get(v.members, DeployTxId).Str? && Hex32(Get(v.members, DeployTxId).s)
    && Get(v.members, BlockHash).Str? && Hex32(Get(v.members, BlockHash).s)
    && Get(v.members, DeployerAddress).Str? && Get(v.members, DeployerAddress).s != []
    && pats.address(Get(v.members, DeployerAddress).s)
    && Get(v.members, Confirmations).Int? && Get(v.members, Confirmations).n > 0
    && Get(v.members, BlockDaaScore).Int? && Get(v.members, BlockDaaScore).n > 0
    && Get(v.members, DeployedAt).Str? && Get(v.members, DeployedAt).s != [] && pats.timestamp(Get(v.members, DeployedAt).s)
  }

  ghost predicate HeaderSays(digest: Hexdigest, d: Document, m: Document, names: seq<Text>, requireOperator: bool, canary: bool) {
    && !Forbids(d) && Number(Get(d, SchemaVersion)) == Some(1) && NetworkSays(Get(d, Network))
    && Get(d, Provenance).Obj?
    && (Get(Get(d, Provenance).members, ProvenanceType) == Str(U("operator_record")) ||
        (!requireOperator && Get(Get(d, Provenance).members, ProvenanceType) == Str(U("ci_fixture"))))
    && BundleSays(Get(d, ReleaseBundle), m, names)
    && ClaimSays(digest, Get(d, DeploymentProfile), m, names, canary)
  }

  /** One receipt per selected contract, in order: all of the manifest's, or the canary's alone. */
  ghost predicate ReceiptsSay(
      pats: Patterns, digest: Hexdigest, d: Document, m: Document, names: seq<Text>, requireOperator: bool, canary: bool)
    requires IsManifest(m, names)
  {
    && HeaderSays(digest, d, m, names, requireOperator, canary)
    && Get(d, Receipts).Arr? && |Get(d, Receipts).items| == (if canary then 1 else |names|)
    && (canary ==> exists j :: 0 <= j < |names| && CanaryReceiptSays(pats, Get(d, Receipts).items[0], Entries(m, names), names, j))
    && (!canary ==> forall i :: 0 <= i < |names| ==> ReceiptSays(pats, Get(d, Receipts).items[i], Entries(m, names)[i], names[i]))
  }

  predicate CanaryReceiptSays(pats: Patterns, v: Data, entries: seq<Document>, names: seq<Text>, j: nat)
    requires |entries| == |names|
  {
    j < |names| && names[j] == U("ValidatorStakingH001") && ReceiptSays(pats, v, entries[j], names[j])
  }

  // ----- the validators meet it -----

  predicate AllHex(t: Text) {
    forall i :: 0 <= i < |t| ==> 0x30 <= t[i] <= 0x39 || 0x61 <= t[i] <= 0x66 || 0x41 <= t[i] <= 0x46
  }

  function EndOf(t: Text): nat {
    if t != [] && t[|t| - 1] == 0x0A then |t| - 1 else |t|
  }

  lemma DigitsPlace(t: Text)
    ensures var n := EndOf(t);
      HexDigits(t) == if n >= 2 && t[0] == 0x30 && t[1] == 0x78 then t[2..n] else t[..n]
  {
    PrefixExactly(t[..EndOf(t)]);
    hide U;
    assert t[..|t|] == t;
  }

  lemma SliceIsHex(t: Text, from: nat, n: nat)
    requires from <= n <= |t|
    ensures AllHex(t[from..n]) <==> forall i :: from <= i < n ==> 0x30 <= t[i] <= 0x39 || 0x61 <= t[i] <= 0x66 || 0x41 <= t[i] <= 0x46
  {
    var digits := t[from..n];
    if AllHex(digits) {
      forall i | from <= i < n ensures 0x30 <= t[i] <= 0x39 || 0x61 <= t[i] <= 0x66 || 0x41 <= t[i] <= 0x46 {
        assert t[i] == digits[i - from];
      }
    }
  }

  lemma Hex32Says(t: Text)
    ensures IsHex32(t) <==> Hex32(t)
    ensures Hex32(t) ==> t != []
  {
    hide HexDigits;
    DigitsPlace(t);
    var n, digits := EndOf(t), HexDigits(t);
    assert IsHex32(t) <==> |digits| == 64 && AllHex(digits);
    hide IsHex32;
    hide AllHex;
    var from := n - |digits|;
    assert digits == t[from..n];
    SliceIsHex(t, from, n);
  }

  lemma PrefixExactly(t: Text)
    ensures |t| >= 2 && t[..2] == U("0x") <==> |t| >= 2 && t[0] == 0x30 && t[1] == 0x78
  {
    assert U("0x") == [0x30, 0x78];
    if |t| >= 2 {
      assert t[..2] == [t[0], t[1]];
    }
  }

  lemma ForbidsExactly(d: Document)
    ensures KeysAllowed(Obj(d), ForbiddenKey()) <==> !Forbids(d)
  {
    hide AuditKeys.IsSecret;
    hide AuditKeys.IsRaw;
    hide KeysAllowed;
    hide At;
    hide ReleaseNames.Write;
    KeysAllowedMissesNothing(Obj(d), ForbiddenKey());
    forall path, k ensures BadAt(Obj(d), ForbiddenKey(), path, k) <==> ForbidsAt(d, path, k) {
    }
  }

  lemma BundleExactly(v: Data, m: Document, names: seq<Text>)
    requires IsManifest(m, names)
    ensures BundleAccepted(v, m) <==> BundleSays(v, m, names)
  {
    hide IsEntry;
  }

  lemma MatchesExactly(r: Document, e: Document, name: Text)
    requires IsEntry(e, name)
    ensures HashesAccepted(r, e) && Get(r, Status) == Str(Confirmed()) <==> ReceiptMatches(r, e)
  {
    hide U;
    hide IsHexText;
  }

  lemma ReceiptExactly(pats: Patterns, r: Document, names: seq<Text>, entries: seq<Document>, j: nat)
    requires |entries| == |names| && Distinct(names) && forall i :: 0 <= i < |names| ==> IsEntry(entries[i], names[i])
    requires j < |names| && Get(r, ContractName) == Str(names[j])
    ensures ReceiptAccepted(pats, r, names, entries) <==> ReceiptSays(pats, Obj(r), entries[j], names[j])
  {
    hide IsEntry;
    hide HashesAccepted;
    hide ReceiptMatches;
    hide IsHex32;
    hide Hex32;
    hide U;
    hide Distinct;
    OrderFound(names, j + 1);
    MatchesExactly(r, entries[j], names[j]);
    if Get(r, DeployTxId).Str? {
      Hex32Says(Get(r, DeployTxId).s);
    }
    if Get(r, BlockHash).Str? {
      Hex32Says(Get(r, BlockHash).s);
    }
  }

  /** The contracts a claim stands for. */
  function Claimed(names: seq<Text>, canary: bool): seq<Text> {
    if canary then [U("ValidatorStakingH001")] else names
  }

  lemma ClaimExactly(digest: Hexdigest, d: Document, m: Document, names: seq<Text>, canary: bool)
    requires IsManifest(m, names) && Distinct(names)
    ensures ClaimSays(digest, Get(d, DeploymentProfile), m, names, canary) ==>
      ClaimedProfile(digest, d, m, names).Profile? && ClaimedProfile(digest, d, m, names).selected == Claimed(names, canary)
  {
    hide U;
    hide IsManifest;
    hide PyEqual;
    hide ExpectedProfile;
    hide Entries;
    hide Chosen;
    hide ChosenNames;
    hide Get;
    var v := Get(d, DeploymentProfile);
    if v != Null && ClaimSays(digest, v, m, names, canary) {
      hide ValidateProfile;
      AcceptedProfileSays(digest, v, m, names);
      ProfileNamed(digest, v, m, names, canary);
    }
  }

  lemma ProfileNamed(digest: Hexdigest, v: Data, m: Document, names: seq<Text>, canary: bool)
    requires IsManifest(m, names) && v.Obj? && ProfileSays(digest, v.members, m, names, canary)
    requires ValidateProfile(digest, v, m, names).Profile?
    ensures ValidateProfile(digest, v, m, names).selected == Claimed(names, canary)
  {
    hide IsManifest;
    hide PyEqual;
    hide ExpectedProfile;
    hide Entries;
    hide Chosen;
    hide ChosenNames;
    ProfilesDiffer();
    hide U;
  }

  /** Every accepted claim is one of the two. */
  lemma ClaimIsSaid(digest: Hexdigest, d: Document, m: Document, names: seq<Text>)
    requires IsManifest(m, names) && Distinct(names) && ClaimedProfile(digest, d, m, names).Profile?
    ensures exists canary :: ClaimSays(digest, Get(d, DeploymentProfile), m, names, canary)
  {
    hide U;
    hide IsManifest;
    hide ValidateProfile;
    hide ExpectedProfile;
    hide ProfileSays;
    hide Get;
    var v := Get(d, DeploymentProfile);
    if v == Null {
      assert ClaimSays(digest, v, m, names, false);
    } else {
      AcceptedProfileSays(digest, v, m, names);
      assert ClaimSays(digest, v, m, names, false) || ClaimSays(digest, v, m, names, true);
    }
  }

  lemma HeaderExactly(
      pats: Patterns, digest: Hexdigest, d: Document, m: Document, names: seq<Text>, requireOperator: bool, canary: bool)
    requires IsManifest(m, names) && Distinct(names)
    requires Get(d, Receipts).Arr? && |Get(d, Receipts).items| == |Claimed(names, canary)|
    requires ClaimSays(digest, Get(d, DeploymentProfile), m, names, canary)
    ensures ReceiptsHeader(pats, digest, d, m, names, requireOperator) <==> HeaderSays(digest, d, m, names, requireOperator, canary)
  {
    hide U;
    hide IsManifest;
    hide KeysAllowed;
    hide Forbids;
    hide PyEqual;
    hide ClaimedProfile;
    hide BundleAccepted;
    hide BundleSays;
    hide ClaimSays;
    hide Get;
    ClaimExactly(digest, d, m, names, canary);
    ForbidsExactly(d);
    BundleExactly(Get(d, ReleaseBundle), m, names);
    NumberEqual(Get(d, SchemaVersion), 1);
  }

  /** validate_receipts_document accepts exactly the documents that say this, for the full release or the canary. */
  lemma AcceptedReceiptsExactly(pats: Patterns, digest: Hexdigest, d: Document, m: Document, names: seq<Text>, requireOperator: bool)
    requires IsManifest(m, names) && Distinct(names)
    ensures ReceiptsAccepted(pats, digest, d, m, names, requireOperator) <==>
      exists canary :: ReceiptsSay(pats, digest, d, m, names, requireOperator, canary)
  {
    hide U;
    hide IsManifest;
    hide ReceiptsAccepted;
    hide ReceiptsSay;
    if ReceiptsAccepted(pats, digest, d, m, names, requireOperator) {
      AcceptedSays(pats, digest, d, m, names, requireOperator);
    }
    if canary :| ReceiptsSay(pats, digest, d, m, names, requireOperator, canary) {
      SaidIsAccepted(pats, digest, d, m, names, requireOperator, canary);
    }
  }

  lemma AcceptedSays(pats: Patterns, digest: Hexdigest, d: Document, m: Document, names: seq<Text>, requireOperator: bool)
    requires IsManifest(m, names) && Distinct(names) && ReceiptsAccepted(pats, digest, d, m, names, requireOperator)
    ensures exists canary :: ReceiptsSay(pats, digest, d, m, names, requireOperator, canary)
  {
    hide U;
    hide IsManifest;
    hide KeysAllowed;
    hide PyEqual;
    hide ClaimedProfile;
    hide BundleAccepted;
    hide ReceiptAccepted;
    hide ReceiptSays;
    hide HeaderSays;
    hide ClaimSays;
    hide Distinct;
    hide Get;
    ClaimIsSaid(digest, d, m, names);
    var canary :| ClaimSays(digest, Get(d, DeploymentProfile), m, names, canary);
    ClaimExactly(digest, d, m, names, canary);
    HeaderExactly(pats, digest, d, m, names, requireOperator, canary);
    var items, entries := Get(d, Receipts).items, Entries(m, names);
    if canary {
      CanaryListed(digest, d, m, names);
      var j :| 0 <= j < |names| && names[j] == U("ValidatorStakingH001");
      ReceiptExactly(pats, items[0].members, names, entries, j);
      assert CanaryReceiptSays(pats, items[0], entries, names, j);
    } else {
      forall i | 0 <= i < |names| ensures ReceiptSays(pats, items[i], entries[i], names[i]) {
        ReceiptExactly(pats, items[i].members, names, entries, i);
      }
    }
    assert ReceiptsSay(pats, digest, d, m, names, requireOperator, canary);
  }

  lemma CanaryListed(digest: Hexdigest, d: Document, m: Document, names: seq<Text>)
    requires ClaimSays(digest, Get(d, DeploymentProfile), m, names, true)
    ensures U("ValidatorStakingH001") in names
  {
    hide U;
    hide ProfileSays;
  }

  lemma SaidIsAccepted(
      pats: Patterns, digest: Hexdigest, d: Document, m: Document, names: seq<Text>, requireOperator: bool, canary: bool)
    requires IsManifest(m, names) && Distinct(names) && ReceiptsSay(pats, digest, d, m, names, requireOperator, canary)
    ensures ReceiptsAccepted(pats, digest, d, m, names, requireOperator)
  {
    hide U;
    hide IsManifest;
    hide KeysAllowed;
    hide PyEqual;
    hide ClaimedProfile;
    hide BundleAccepted;
    hide ReceiptsHeader;
    hide ReceiptAccepted;
    hide ReceiptMatches;
    hide Hex32;
    hide ClaimSays;
    hide Forbids;
    hide BundleSays;
    hide NetworkSays;
    hide Get;
    ClaimExactly(digest, d, m, names, canary);
    HeaderExactly(pats, digest, d, m, names, requireOperator, canary);
    HeaderParts(pats, digest, d, m, names, requireOperator);
    var items, entries, selected := Get(d, Receipts).items, Entries(m, names), Claimed(names, canary);
    forall i | 0 <= i < |items| ensures
      && items[i].Obj? && ReceiptAccepted(pats, items[i].members, names, entries)
      && Get(items[i].members, ContractName) == Str(selected[i]) && selected[i] !in selected[..i]
    {
      if canary {
        var j :| 0 <= j < |names| && CanaryReceiptSays(pats, items[0], entries, names, j);
        ReceiptExactly(pats, items[0].members, names, entries, j);
      } else {
        ReceiptExactly(pats, items[i].members, names, entries, i);
      }
    }
  }

  lemma HeaderParts(pats: Patterns, digest: Hexdigest, d: Document, m: Document, names: seq<Text>, requireOperator: bool)
    requires IsManifest(m, names) && ReceiptsHeader(pats, digest, d, m, names, requireOperator)
    ensures ClaimedProfile(digest, d, m, names).Profile? && Get(d, Receipts).Arr?
    ensures |Get(d, Receipts).items| == |ClaimedProfile(digest, d, m, names).selected|
  {
    hide U;
    hide IsManifest;
    hide KeysAllowed;
    hide PyEqual;
    hide ClaimedProfile;
  }

  // ----- evidence -----

  /** What the evidence says before its observations, for receipts of the full release or of the canary. */
  ghost predicate EvidenceSays(
      pats: Patterns, digest: Hexdigest, d: Document, receipts: Document, m: Document, names: seq<Text>, canary: bool)
  {
    && !Forbids(d) && Number(Get(d, SchemaVersion)) == Some(1)
    && Get(d, EvidenceType) == Str(U("prometheus_silverc_") + (U("deploy_receipt_") + U("public_evidence")))
    && NetworkSays(Get(d, Network)) && Get(d, Network) == Get(receipts, Network)
    && Get(d, Provenance).Obj? && ProvenanceSays(pats, Get(d, Provenance).members)
    && BundleSays(Get(d, ReleaseBundle), m, names) && ClaimSays(digest, Get(d, DeploymentProfile), m, names, canary)
    && Get(d, ReceiptsSha256) == Str(digest(Obj(receipts)))
    && Get(receipts, Receipts).Arr? && Number(Get(d, ReceiptCount)) == Some(|Get(receipts, Receipts).items|)
  }

  predicate ProvenanceSays(pats: Patterns, p: Document) {
    && (Get(p, ProvenanceType) == Str(U("public_explorer_") + U("snapshot")) ||
        Get(p, ProvenanceType) == Str(U("public_node_") + U("snapshot")))
    && Get(p, Observer).Str? && Get(p, Observer).s != []
    && Get(p, ObservedAt).Str? && Get(p, ObservedAt).s != [] && pats.timestamp(Get(p, ObservedAt).s)
  }

  /** The profile a claim stands for. */
  lemma ClaimedExpected(digest: Hexdigest, d: Document, m: Document, names: seq<Text>, canary: bool)
    requires IsManifest(m, names) && Distinct(names) && ClaimSays(digest, Get(d, DeploymentProfile), m, names, canary)
    ensures ClaimedProfile(digest, d, m, names).Profile?
    ensures Get(ClaimedProfile(digest, d, m, names).expected, ProfileName) == Str(if canary then Canary() else Full())
    ensures Selection(if canary then Canary() else Full(), names).Some?
    ensures ClaimedProfile(digest, d, m, names).expected == ExpectedProfile(digest, if canary then Canary() else Full(), m, names)
  {
    hide IsManifest;
    hide PyEqual;
    hide ExpectedProfile;
    hide Entries;
    hide Chosen;
    hide ChosenNames;
    ProfilesDiffer();
    hide U;
    ClaimExactly(digest, d, m, names, canary);
  }

  /** Two accepted claims give equal profiles exactly when they are of one kind. */
  lemma SameClaims(digest: Hexdigest, a: Document, b: Document, m: Document, names: seq<Text>, canaryA: bool, canaryB: bool)
    requires IsManifest(m, names) && Distinct(names)
    requires ClaimSays(digest, Get(a, DeploymentProfile), m, names, canaryA) && ClaimSays(digest, Get(b, DeploymentProfile), m, names, canaryB)
    ensures ClaimedProfile(digest, a, m, names).Profile? && ClaimedProfile(digest, b, m, names).Profile?
    ensures PyEqual(Obj(ClaimedProfile(digest, a, m, names).expected), Obj(ClaimedProfile(digest, b, m, names).expected)) <==> canaryA == canaryB
  {
    hide IsManifest;
    hide ClaimSays;
    hide ClaimedProfile;
    hide ExpectedProfile;
    hide U;
    hide PyEqual;
    ProfilesDiffer();
    ClaimedExpected(digest, a, m, names, canaryA);
    ClaimedExpected(digest, b, m, names, canaryB);
    var x, y := ClaimedProfile(digest, a, m, names).expected, ClaimedProfile(digest, b, m, names).expected;
    if PyEqual(Obj(x), Obj(y)) {
      PyEqualName(x, y);
    } else if canaryA == canaryB {
      PyEqualReflexive(Obj(x));
    }
  }

  lemma EvidenceHeaderExactly(
      pats: Patterns, digest: Hexdigest, d: Document, receipts: Document, s: ReceiptSummary, m: Document, names: seq<Text>, canary: bool)
    requires IsManifest(m, names) && Distinct(names) && IsSummary(s, digest, receipts, m, names)
    requires ClaimSays(digest, Get(receipts, DeploymentProfile), m, names, canary)
    requires Get(d, Observations).Arr? && |Get(d, Observations).items| == |Get(receipts, Receipts).items|
    ensures EvidenceHeader(pats, digest, d, receipts, s, m, names) <==> EvidenceSays(pats, digest, d, receipts, m, names, canary)
  {
    hide U;
    hide IsManifest;
    hide KeysAllowed;
    hide Forbids;
    hide PyEqual;
    hide ClaimedProfile;
    hide BundleAccepted;
    hide BundleSays;
    hide ClaimSays;
    hide IsLine;
    hide Get;
    ForbidsExactly(d);
    BundleExactly(Get(d, ReleaseBundle), m, names);
    NumberEqual(Get(d, SchemaVersion), 1);
    NumberEqual(Get(d, ReceiptCount), |s.contracts|);
    if ClaimedProfile(digest, d, m, names).Profile? {
      ClaimIsSaid(digest, d, m, names);
      var of :| ClaimSays(digest, Get(d, DeploymentProfile), m, names, of);
      SameClaims(digest, d, receipts, m, names, of, canary);
    }
    if ClaimSays(digest, Get(d, DeploymentProfile), m, names, canary) {
      SameClaims(digest, d, receipts, m, names, canary, canary);
    }
  }

  /** validate_evidence_document accepts, for accepted receipts, exactly the documents that say this and repeat
      every receipt. */
  lemma AcceptedEvidenceExactly(
      pats: Patterns, digest: Hexdigest, d: Document, receipts: Document, s: ReceiptSummary, m: Document, names: seq<Text>,
      requireOperator: bool, canary: bool)
    requires IsManifest(m, names) && Distinct(names) && IsSummary(s, digest, receipts, m, names)
    requires ReceiptsSay(pats, digest, receipts, m, names, requireOperator, canary)
    ensures EvidenceAccepted(pats, digest, d, receipts, s, m, names) <==>
      EvidenceSays(pats, digest, d, receipts, m, names, canary) && EvidenceRepeats(d, receipts)
  {
    hide U;
    hide IsManifest;
    hide IsSummary;
    hide EvidenceAccepted;
    hide EvidenceHeader;
    hide EvidenceSays;
    hide ReceiptSays;
    hide BundleSays;
    hide Forbids;
    hide ReceiptsAccepted;
    hide ClaimSays;
    hide ObservationSays;
    AcceptedReceiptsExactly(pats, digest, receipts, m, names, requireOperator);
    AcceptedEvidenceRepeats(pats, digest, d, receipts, s, m, names, requireOperator);
    if EvidenceRepeats(d, receipts) {
      EvidenceHeaderExactly(pats, digest, d, receipts, s, m, names, canary);
    }
  }
}
