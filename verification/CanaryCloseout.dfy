/**
  The H-001 canary closeout gate: one summary bound by canonical SHA-256 to one receipts
  document and one public-evidence document.
 */
module CanaryCloseout {
  import opened Texts
  import opened CanonicalJson

  function Field(d: Dict, key: string): Value {
    Get(d, U(key))
  }

  function Sub(d: Dict, key: string): Dict {
    if Field(d, key).Obj? then Field(d, key).members else map[]
  }

  function Word(s: string): Value { Str(U(s)) }

  /** reject_nonpublic_fields: a forbidden key may only hold an explicit false. */
  predicate Public(forbidden: Text -> bool, v: Value) {
    KeysAllowed(v, (k: Text, child: Value) => forbidden(k) && child != Bool(false))
  }

  function SummaryKind(): Value { Word("prometheus.silverc.h001_confirmed_canary_evidence") }
  function SummaryStatus(): Value { Word("PUBLIC_CANARY_DEPLOY_EVIDENCE_VERIFIED") }
  function EvidenceType(): Value { Word("prometheus_silverc_deploy_receipt_public_evidence") }
  function Canonicalization(): Value {
    Word("UTF-8 JSON with sorted keys and compact separators (comma and colon), without trailing newline")
  }

  predicate SchemasAgree(summary: Dict, receipts: Dict, evidence: Dict) {
    && PyEqual(Field(summary, "schema_version"), Int(1))
    && PyEqual(Field(summary, "kind"), SummaryKind())
    && PyEqual(Field(summary, "status"), SummaryStatus())
    && PyEqual(Field(receipts, "schema_version"), Int(1))
    && PyEqual(Field(evidence, "schema_version"), Int(1))
    && PyEqual(Field(evidence, "evidence_type"), EvidenceType())
    && Field(summary, "verification").Obj? && Field(summary, "hash_binding").Obj?
    && PyEqual(Field(Sub(summary, "hash_binding"), "canonicalization"), Canonicalization())
    && PyEqual(Field(Sub(summary, "hash_binding"), "summary_self_hash"), Bool(false))
  }

  /** The three digests the summary and the evidence carry. */
  ghost predicate HashesBind(sha: Digest, summary: Dict, receipts: Dict, evidence: Dict) {
    var verification := Sub(summary, "verification");
    var r, e := sha(Canonical(Obj(receipts))), sha(Canonical(Obj(evidence)));
    && IsHexText(r, 64) && PyEqual(Field(verification, "operator_receipts_sha256"), Str(r))
    && IsHexText(e, 64) && PyEqual(Field(verification, "public_evidence_sha256"), Str(e))
    && PyEqual(Field(evidence, "receipts_sha256"), Str(r))
  }

  predicate ProfilesAgree(summary: Dict, receipts: Dict, evidence: Dict) {
    && Field(receipts, "deployment_profile").Obj?
    && PyEqual(Field(evidence, "deployment_profile"), Field(receipts, "deployment_profile"))
    && PyEqual(Field(summary, "deployment_profile"), Field(Sub(receipts, "deployment_profile"), "name"))
    && PyEqual(Field(summary, "network"), Field(receipts, "network"))
    && PyEqual(Field(evidence, "network"), Field(receipts, "network"))
  }

  predicate OneRecord(v: Value) {
    v.Arr? && |v.items| == 1 && v.items[0].Obj?
  }

  predicate TransactionAgrees(summary: Dict, receipts: Dict, evidence: Dict) {
    && OneRecord(Field(receipts, "receipts")) && OneRecord(Field(evidence, "observations"))
    && Field(summary, "transaction").Obj?
    && var receipt := Field(receipts, "receipts").items[0].members;
       var observation := Field(evidence, "observations").items[0].members;
       var transaction := Sub(summary, "transaction");
       && PyEqual(Field(observation, "deploy_tx_id"), Field(receipt, "deploy_tx_id"))
       && PyEqual(Field(observation, "deployed_instance_id"), Field(receipt, "deployed_instance_id"))
       && PyEqual(Field(observation, "block_hash"), Field(receipt, "block_hash"))
       && PyEqual(Field(transaction, "transaction_id"), Field(receipt, "deploy_tx_id"))
       && PyEqual(Field(transaction, "block_hash"), Field(receipt, "block_hash"))
       && PyEqual(Field(transaction, "accepted"), Bool(true))
       && PyEqual(Field(receipt, "status"), Word("confirmed"))
       && PyEqual(Field(observation, "status"), Word("confirmed"))
  }

  predicate ScopeIsClosed(summary: Dict) {
    && Field(summary, "safety").Obj? && Sub(summary, "safety") != map[]
    && (forall k :: k in Sub(summary, "safety") ==> Sub(summary, "safety")[k] == Bool(false))
    && Field(summary, "scope").Obj?
    && var scope := Sub(summary, "scope");
       && PyEqual(Field(scope, "canary_complete"), Bool(true))
       && PyEqual(Field(scope, "promotes_full_rollout"), Bool(false))
       && PyEqual(Field(scope, "remaining_gates_complete"), Bool(true))
       && Field(scope, "remaining_gates").Arr? && |Field(scope, "remaining_gates").items| == 6
       && forall i :: 0 <= i < 6 ==> Field(scope, "remaining_gates").items[i].Str?
  }

  /** verify_documents returns without raising. */
  ghost predicate Accepts(sha: Digest, forbidden: Text -> bool, summary: Dict, receipts: Dict, evidence: Dict) {
    && Public(forbidden, Obj(summary)) && Public(forbidden, Obj(receipts)) && Public(forbidden, Obj(evidence))
    && SchemasAgree(summary, receipts, evidence)
    && HashesBind(sha, summary, receipts, evidence)
    && ProfilesAgree(summary, receipts, evidence)
    && TransactionAgrees(summary, receipts, evidence)
    && ScopeIsClosed(summary)
  }

  lemma PyEqualText(v: Value, a: Text, b: Text)
    requires PyEqual(v, Str(a)) && PyEqual(v, Str(b))
    ensures a == b
  {
  }

  lemma AcceptedBinds(sha: Digest, forbidden: Text -> bool, summary: Dict, receipts: Dict, evidence: Dict)
    requires Accepts(sha, forbidden, summary, receipts, evidence)
    ensures HashesBind(sha, summary, receipts, evidence)
  {
  }

  /** An accepted summary determines its receipts and its evidence, unless SHA-256 collides
      on the very documents: no second pair passes under the same summary. */
  lemma SummaryDetermines(sha: Digest, forbidden: Text -> bool, summary: Dict,
                          receipts: Dict, evidence: Dict, receipts': Dict, evidence': Dict)
    requires Accepts(sha, forbidden, summary, receipts, evidence)
    requires Accepts(sha, forbidden, summary, receipts', evidence')
    requires Clean(Obj(receipts)) && Clean(Obj(receipts')) && Clean(Obj(evidence)) && Clean(Obj(evidence'))
    requires NoCollision(sha, Obj(receipts), Obj(receipts')) && NoCollision(sha, Obj(evidence), Obj(evidence'))
    ensures receipts == receipts' && evidence == evidence'
  {
    hide Accepts;
    hide Canonical;
    hide PyEqual;
    hide Clean;
    hide U;
    hide Field;
    AcceptedBinds(sha, forbidden, summary, receipts, evidence);
    AcceptedBinds(sha, forbidden, summary, receipts', evidence');
    var verification := Sub(summary, "verification");
    PyEqualText(Field(verification, "operator_receipts_sha256"), sha(Canonical(Obj(receipts))), sha(Canonical(Obj(receipts'))));
    PyEqualText(Field(verification, "public_evidence_sha256"), sha(Canonical(Obj(evidence))), sha(Canonical(Obj(evidence'))));
    DigestDetermines(sha, Obj(receipts), Obj(receipts'));
    DigestDetermines(sha, Obj(evidence), Obj(evidence'));
  }

  /** Even evidence alone pins the receipts: no receipts document can be swapped under an
      accepted evidence document, whatever the summary says. */
  lemma EvidenceDeterminesReceipts(sha: Digest, forbidden: Text -> bool, summary: Dict, summary': Dict,
                                   receipts: Dict, receipts': Dict, evidence: Dict)
    requires Accepts(sha, forbidden, summary, receipts, evidence)
    requires Accepts(sha, forbidden, summary', receipts', evidence)
    requires Clean(Obj(receipts)) && Clean(Obj(receipts')) && NoCollision(sha, Obj(receipts), Obj(receipts'))
    ensures receipts == receipts'
  {
    hide Accepts;
    hide Canonical;
    hide PyEqual;
    hide Clean;
    hide U;
    hide Field;
    AcceptedBinds(sha, forbidden, summary, receipts, evidence);
    AcceptedBinds(sha, forbidden, summary', receipts', evidence);
    PyEqualText(Field(evidence, "receipts_sha256"), sha(Canonical(Obj(receipts))), sha(Canonical(Obj(receipts'))));
    DigestDetermines(sha, Obj(receipts), Obj(receipts'));
  }
}
