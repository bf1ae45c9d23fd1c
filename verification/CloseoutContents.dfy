/**
  What an accepted canary closeout says, place by place in its three documents.
 */
module CloseoutContents {
  import opened Texts
  import opened CanonicalJson
  import opened CanaryCloseout

  // ----- the specification -----

  /** The value at the end of a path of keys; null where there is none. */
  function ValueAt(v: Value, path: seq<string>): Value
    decreases |path|
  {
    if path == [] then v
    else ValueAt(if v.Obj? && U(path[0]) in v.members then v.members[U(path[0])] else Null, path[1..])
  }

  /** The only item of a list; null for anything else. */
  function OnlyOne(v: Value): Value {
    if v.Arr? && |v.items| == 1 then v.items[0] else Null
  }

  predicate Same(v: Value, w: Value) {
    AsNumbers(v) == AsNumbers(w)
  }

  predicate Counts(v: Value, n: int) {
    AsNumbers(v) == Int(n)
  }

  function KindText(): Text { U("prometheus.silverc.h001_confirmed_canary_evidence") }
  function StatusText(): Text { U("PUBLIC_CANARY_DEPLOY_EVIDENCE_VERIFIED") }
  function TypeText(): Text { U("prometheus_silverc_deploy_receipt_public_evidence") }
  function FormText(): Text { U("UTF-8 JSON with sorted keys and compact separators (comma and colon), without trailing newline") }

  predicate HeadersSay(summary: Value, receipts: Value, evidence: Value) {
    && Counts(ValueAt(summary, ["schema_version"]), 1) && Counts(ValueAt(receipts, ["schema_version"]), 1)
    && Counts(ValueAt(evidence, ["schema_version"]), 1)
    && ValueAt(summary, ["kind"]) == Str(KindText()) && ValueAt(summary, ["status"]) == Str(StatusText())
    && ValueAt(evidence, ["evidence_type"]) == Str(TypeText())
    && ValueAt(summary, ["hash_binding", "canonicalization"]) == Str(FormText())
    && Counts(ValueAt(summary, ["hash_binding", "summary_self_hash"]), 0)
  }

  ghost predicate DigestsSay(sha: Digest, summary: Value, receipts: Value, evidence: Value) {
    && ValueAt(summary, ["verification", "operator_receipts_sha256"]) == Str(sha(Canonical(receipts)))
    && ValueAt(summary, ["verification", "public_evidence_sha256"]) == Str(sha(Canonical(evidence)))
    && ValueAt(evidence, ["receipts_sha256"]) == Str(sha(Canonical(receipts)))
    && IsHexText(sha(Canonical(receipts)), 64) && IsHexText(sha(Canonical(evidence)), 64)
  }

  predicate ProfilesSay(summary: Value, receipts: Value, evidence: Value) {
    && ValueAt(receipts, ["deployment_profile"]).Obj?
    && Same(ValueAt(evidence, ["deployment_profile"]), ValueAt(receipts, ["deployment_profile"]))
    && Same(ValueAt(summary, ["deployment_profile"]), ValueAt(receipts, ["deployment_profile", "name"]))
    && Same(ValueAt(summary, ["network"]), ValueAt(receipts, ["network"]))
    && Same(ValueAt(evidence, ["network"]), ValueAt(receipts, ["network"]))
  }

  /** One receipt, one observation and the summary's transaction tell the same story. */
  predicate TransactionSays(summary: Value, receipt: Value, observation: Value) {
    && receipt.Obj? && observation.Obj? && ValueAt(summary, ["transaction"]).Obj?
    && ValueAt(receipt, ["status"]) == Str(U("confirmed")) && ValueAt(observation, ["status"]) == Str(U("confirmed"))
    && Same(ValueAt(observation, ["deploy_tx_id"]), ValueAt(receipt, ["deploy_tx_id"]))
    && Same(ValueAt(observation, ["deployed_instance_id"]), ValueAt(receipt, ["deployed_instance_id"]))
    && Same(ValueAt(observation, ["block_hash"]), ValueAt(receipt, ["block_hash"]))
    && Same(ValueAt(summary, ["transaction", "transaction_id"]), ValueAt(receipt, ["deploy_tx_id"]))
    && Same(ValueAt(summary, ["transaction", "block_hash"]), ValueAt(receipt, ["block_hash"]))
    && Counts(ValueAt(summary, ["transaction", "accepted"]), 1)
  }

  predicate SafetySays(v: Value) {
    v.Obj? && |v.members| > 0 && forall k :: k in v.members ==> v.members[k] == Bool(false)
  }

  predicate ScopeSays(summary: Value) {
    && SafetySays(ValueAt(summary, ["safety"]))
    && Counts(ValueAt(summary, ["scope", "canary_complete"]), 1) && Counts(ValueAt(summary, ["scope", "promotes_full_rollout"]), 0)
    && Counts(ValueAt(summary, ["scope", "remaining_gates_complete"]), 1)
    && var gates := ValueAt(summary, ["scope", "remaining_gates"]);
       gates.Arr? && |gates.items| == 6 && forall g :: g in gates.items ==> g.Str?
  }

  ghost predicate CloseoutSays(sha: Digest, summary: Value, receipts: Value, evidence: Value) {
    && HeadersSay(summary, receipts, evidence) && DigestsSay(sha, summary, receipts, evidence)
    && ProfilesSay(summary, receipts, evidence)
    && TransactionSays(summary, OnlyOne(ValueAt(receipts, ["receipts"])), OnlyOne(ValueAt(evidence, ["observations"])))
    && ScopeSays(summary)
  }

  // ----- the gate meets it -----

  lemma OneKey(d: Dict, key: string)
    ensures ValueAt(Obj(d), [key]) == Field(d, key)
  {
    hide U;
    assert [key][1..] == [];
  }

  lemma OneKeyOf(v: Value, key: string)
    ensures v.Obj? ==> ValueAt(v, [key]) == Field(v.members, key)
    ensures !v.Obj? ==> ValueAt(v, [key]) == Null
  {
    hide U;
    assert [key][1..] == [];
  }

  lemma TwoKeys(d: Dict, key: string, inner: string)
    ensures ValueAt(Obj(d), [key, inner]) == Field(Sub(d, key), inner)
    ensures ValueAt(Obj(d), [key, inner]) != Null ==> Field(d, key).Obj?
  {
    hide U;
    assert [key, inner][1..] == [inner];
    OneKeyOf(Field(d, key), inner);
  }

  lemma EqualText(v: Value, t: Text)
    ensures PyEqual(v, Str(t)) <==> v == Str(t)
  {
  }

  lemma EqualCount(v: Value, n: int, w: Value)
    requires w == Int(n) || (w == Bool(true) && n == 1) || (w == Bool(false) && n == 0)
    ensures PyEqual(v, w) <==> Counts(v, n)
    ensures Counts(v, n) ==> v != Null
  {
  }

  lemma HeaderWords()
    ensures SummaryKind() == Str(KindText()) && SummaryStatus() == Str(StatusText())
    ensures EvidenceType() == Str(TypeText()) && Canonicalization() == Str(FormText())
  {
    hide U;
  }

  lemma HeadersExactly(summary: Dict, receipts: Dict, evidence: Dict)
    ensures SchemasAgree(summary, receipts, evidence) <==>
      HeadersSay(Obj(summary), Obj(receipts), Obj(evidence)) && Field(summary, "verification").Obj?
  {
    hide KindText;
    hide StatusText;
    hide TypeText;
    hide FormText;
    hide SummaryKind;
    hide SummaryStatus;
    hide EvidenceType;
    hide Canonicalization;
    hide U;
    hide PyEqual;
    hide Field;
    hide Sub;
    hide ValueAt;
    hide Counts;
    OneKey(summary, "schema_version");
    OneKey(receipts, "schema_version");
    OneKey(evidence, "schema_version");
    OneKey(summary, "kind");
    OneKey(summary, "status");
    OneKey(evidence, "evidence_type");
    TwoKeys(summary, "hash_binding", "canonicalization");
    TwoKeys(summary, "hash_binding", "summary_self_hash");
    EqualCount(Field(summary, "schema_version"), 1, Int(1));
    EqualCount(Field(receipts, "schema_version"), 1, Int(1));
    EqualCount(Field(evidence, "schema_version"), 1, Int(1));
    EqualText(Field(summary, "kind"), KindText());
    EqualText(Field(summary, "status"), StatusText());
    EqualText(Field(evidence, "evidence_type"), TypeText());
    EqualText(Field(Sub(summary, "hash_binding"), "canonicalization"), FormText());
    HeaderWords();
    EqualCount(Field(Sub(summary, "hash_binding"), "summary_self_hash"), 0, Bool(false));
  }

  lemma DigestsExactly(sha: Digest, summary: Dict, receipts: Dict, evidence: Dict)
    ensures HashesBind(sha, summary, receipts, evidence) <==> DigestsSay(sha, Obj(summary), Obj(receipts), Obj(evidence))
    ensures DigestsSay(sha, Obj(summary), Obj(receipts), Obj(evidence)) ==> Field(summary, "verification").Obj?
  {
    hide U;
    hide PyEqual;
    hide Field;
    hide Sub;
    hide ValueAt;
    hide Canonical;
    hide IsHexText;
    var r, e := sha(Canonical(Obj(receipts))), sha(Canonical(Obj(evidence)));
    TwoKeys(summary, "verification", "operator_receipts_sha256");
    TwoKeys(summary, "verification", "public_evidence_sha256");
    OneKey(evidence, "receipts_sha256");
    EqualText(Field(Sub(summary, "verification"), "operator_receipts_sha256"), r);
    EqualText(Field(Sub(summary, "verification"), "public_evidence_sha256"), e);
    EqualText(Field(evidence, "receipts_sha256"), r);
  }

  lemma ProfilesExactly(summary: Dict, receipts: Dict, evidence: Dict)
    ensures ProfilesAgree(summary, receipts, evidence) <==> ProfilesSay(Obj(summary), Obj(receipts), Obj(evidence))
  {
    hide U;
    hide PyEqual;
    hide Field;
    hide Sub;
    hide ValueAt;
    hide AsNumbers;
    OneKey(receipts, "deployment_profile");
    OneKey(evidence, "deployment_profile");
    OneKey(summary, "deployment_profile");
    TwoKeys(receipts, "deployment_profile", "name");
    OneKey(summary, "network");
    OneKey(receipts, "network");
    OneKey(evidence, "network");
    PyEqualExactly(Field(evidence, "deployment_profile"), Field(receipts, "deployment_profile"));
    PyEqualExactly(Field(summary, "deployment_profile"), Field(Sub(receipts, "deployment_profile"), "name"));
    PyEqualExactly(Field(summary, "network"), Field(receipts, "network"));
    PyEqualExactly(Field(evidence, "network"), Field(receipts, "network"));
  }

  lemma RecordExactly(d: Dict, key: string)
    ensures OneRecord(Field(d, key)) <==> OnlyOne(ValueAt(Obj(d), [key])).Obj?
    ensures OneRecord(Field(d, key)) ==> OnlyOne(ValueAt(Obj(d), [key])) == Field(d, key).items[0]
  {
    hide U;
    hide Field;
    hide ValueAt;
    OneKey(d, key);
  }

  /** The comparisons of the three records, once there are three. */
  predicate RecordsAgree(receipt: Dict, observation: Dict, transaction: Dict) {
    && PyEqual(Field(observation, "deploy_tx_id"), Field(receipt, "deploy_tx_id"))
    && PyEqual(Field(observation, "deployed_instance_id"), Field(receipt, "deployed_instance_id"))
    && PyEqual(Field(observation, "block_hash"), Field(receipt, "block_hash"))
    && PyEqual(Field(transaction, "transaction_id"), Field(receipt, "deploy_tx_id"))
    && PyEqual(Field(transaction, "block_hash"), Field(receipt, "block_hash"))
    && PyEqual(Field(transaction, "accepted"), Bool(true))
    && PyEqual(Field(receipt, "status"), Word("confirmed"))
    && PyEqual(Field(observation, "status"), Word("confirmed"))
  }

  lemma RecordsExactly(summary: Dict, receipt: Dict, observation: Dict)
    requires Field(summary, "transaction").Obj?
    ensures RecordsAgree(receipt, observation, Sub(summary, "transaction")) <==> TransactionSays(Obj(summary), Obj(receipt), Obj(observation))
  {
    hide U;
    hide PyEqual;
    hide Field;
    hide Sub;
    hide ValueAt;
    hide AsNumbers;
    hide Counts;
    var transaction := Sub(summary, "transaction");
    OneKey(summary, "transaction");
    OneKey(receipt, "status");
    OneKey(observation, "status");
    OneKey(receipt, "deploy_tx_id");
    OneKey(observation, "deploy_tx_id");
    OneKey(receipt, "deployed_instance_id");
    OneKey(observation, "deployed_instance_id");
    OneKey(receipt, "block_hash");
    OneKey(observation, "block_hash");
    TwoKeys(summary, "transaction", "transaction_id");
    TwoKeys(summary, "transaction", "block_hash");
    TwoKeys(summary, "transaction", "accepted");
    EqualText(Field(receipt, "status"), U("confirmed"));
    EqualText(Field(observation, "status"), U("confirmed"));
    EqualCount(Field(transaction, "accepted"), 1, Bool(true));
    PyEqualExactly(Field(observation, "deploy_tx_id"), Field(receipt, "deploy_tx_id"));
    PyEqualExactly(Field(observation, "deployed_instance_id"), Field(receipt, "deployed_instance_id"));
    PyEqualExactly(Field(observation, "block_hash"), Field(receipt, "block_hash"));
    PyEqualExactly(Field(transaction, "transaction_id"), Field(receipt, "deploy_tx_id"));
    PyEqualExactly(Field(transaction, "block_hash"), Field(receipt, "block_hash"));
  }

  lemma TransactionExactly(summary: Dict, receipts: Dict, evidence: Dict)
    ensures TransactionAgrees(summary, receipts, evidence) <==>
      TransactionSays(Obj(summary), OnlyOne(ValueAt(Obj(receipts), ["receipts"])), OnlyOne(ValueAt(Obj(evidence), ["observations"])))
  {
    hide U;
    hide PyEqual;
    hide Field;
    hide Sub;
    hide ValueAt;
    hide AsNumbers;
    hide OnlyOne;
    RecordExactly(receipts, "receipts");
    RecordExactly(evidence, "observations");
    OneKey(summary, "transaction");
    if OneRecord(Field(receipts, "receipts")) && OneRecord(Field(evidence, "observations")) && Field(summary, "transaction").Obj? {
      RecordsExactly(summary, Field(receipts, "receipts").items[0].members, Field(evidence, "observations").items[0].members);
    }
  }

  lemma ScopeExactly(summary: Dict)
    ensures ScopeIsClosed(summary) <==> ScopeSays(Obj(summary))
  {
    hide U;
    hide PyEqual;
    hide Field;
    hide ValueAt;
    hide Counts;
    OneKey(summary, "safety");
    TwoKeys(summary, "scope", "canary_complete");
    TwoKeys(summary, "scope", "promotes_full_rollout");
    TwoKeys(summary, "scope", "remaining_gates_complete");
    TwoKeys(summary, "scope", "remaining_gates");
    var scope := Sub(summary, "scope");
    EqualCount(Field(scope, "canary_complete"), 1, Bool(true));
    EqualCount(Field(scope, "promotes_full_rollout"), 0, Bool(false));
    EqualCount(Field(scope, "remaining_gates_complete"), 1, Bool(true));
  }

  /** verify_documents passes exactly the documents without nonpublic fields that say all this. */
  lemma AcceptedExactly(sha: Digest, forbidden: Text -> bool, summary: Dict, receipts: Dict, evidence: Dict)
    ensures Accepts(sha, forbidden, summary, receipts, evidence) <==>
      && Public(forbidden, Obj(summary)) && Public(forbidden, Obj(receipts)) && Public(forbidden, Obj(evidence))
      && CloseoutSays(sha, Obj(summary), Obj(receipts), Obj(evidence))
  {
    hide *;
    AcceptsIs(sha, forbidden, summary, receipts, evidence);
    CloseoutIs(sha, Obj(summary), Obj(receipts), Obj(evidence));
    HeadersExactly(summary, receipts, evidence);
    DigestsExactly(sha, summary, receipts, evidence);
    ProfilesExactly(summary, receipts, evidence);
    TransactionExactly(summary, receipts, evidence);
    ScopeExactly(summary);
  }

  lemma AcceptsIs(sha: Digest, forbidden: Text -> bool, summary: Dict, receipts: Dict, evidence: Dict)
    ensures Accepts(sha, forbidden, summary, receipts, evidence) <==>
      && Public(forbidden, Obj(summary)) && Public(forbidden, Obj(receipts)) && Public(forbidden, Obj(evidence))
      && SchemasAgree(summary, receipts, evidence) && HashesBind(sha, summary, receipts, evidence)
      && ProfilesAgree(summary, receipts, evidence) && TransactionAgrees(summary, receipts, evidence) && ScopeIsClosed(summary)
  {
    hide SchemasAgree;
    hide HashesBind;
    hide ProfilesAgree;
    hide TransactionAgrees;
    hide ScopeIsClosed;
    hide Public;
  }

  lemma CloseoutIs(sha: Digest, summary: Value, receipts: Value, evidence: Value)
    ensures CloseoutSays(sha, summary, receipts, evidence) <==>
      && HeadersSay(summary, receipts, evidence) && DigestsSay(sha, summary, receipts, evidence)
      && ProfilesSay(summary, receipts, evidence)
      && TransactionSays(summary, OnlyOne(ValueAt(receipts, ["receipts"])), OnlyOne(ValueAt(evidence, ["observations"])))
      && ScopeSays(summary)
  {
    hide HeadersSay;
    hide DigestsSay;
    hide ProfilesSay;
    hide TransactionSays;
    hide ScopeSays;
    hide ValueAt;
  }
}
