/**
  The key names the release audit and the deploy-request tools refuse, and why no key the
  release tools write is one of them: keys are spelled from a fixed vocabulary, and every
  refused name has three letters in a row that no word of the vocabulary has.
 */
module AuditKeys {
  import opened Texts
  import opened RedactionPolicy

  function AcceptsPrivateKeys(): Text { U("accepts_private_keys") }
  function AcceptsRawTransactions(): Text { U("accepts_raw_transactions") }

  const SECRETS: seq<string> := ["private", "secret", "seed", "mnemonic", "password", "passwd", "wallet", "keystore", "token"]
  const RAWS: seq<string> := ["raw", "signed", "serialized"]

  /** What re.IGNORECASE takes a character for, as far as the letters of the patterns go: besides the
      capitals, the dotted and the dotless i, the long s and the Kelvin sign. */
  function FoldOne(c: CodePoint): CodePoint {
    if c == 0x130 || c == 0x131 then 'i' as int
    else if c == 0x17F then 's' as int
    else if c == 0x212A then 'k' as int
    else LowerOne(c)
  }

  function Fold(t: Text): (r: Text)
    ensures |r| == |t| && forall i :: 0 <= i < |t| ==> r[i] == FoldOne(t[i])
  {
    seq(|t|, i requires 0 <= i < |t| => FoldOne(t[i]))
  }

  /** One of the secret-like words in a folded text. */
  predicate HasSecret(t: Text) {
    exists k :: 0 <= k < |SECRETS| && Contains(t, U(SECRETS[k]))
  }

  /** SECRET_KEY_RE.search and SECRET_LIKE_RE.search. */
  predicate IsSecret(key: Text) {
    HasSecret(Fold(key))
  }

  /** A word with "transaction" somewhere after it on the same line. */
  predicate RawThenTransaction(t: Text, word: Text, i: int, j: int) {
    OccursAt(t, word, i) && i + |word| <= j && OccursAt(t, U("transaction"), j) && 0x0A !in t[i + |word|..j]
  }

  predicate HasRaw(t: Text) {
    || (exists k, i, j :: 0 <= k < |RAWS| && 0 <= i <= |t| && i <= j <= |t| && RawThenTransaction(t, U(RAWS[k]), i, j))
    || Contains(t, U("transaction_hex")) || Contains(t, U("transaction_bytes"))
  }

  /** RAW_TX_KEY_RE.search. */
  predicate IsRaw(key: Text) {
    HasRaw(Fold(key))
  }

  /** reject_forbidden_json_keys on one key. */
  predicate IsForbidden(key: Text) {
    || (key != AcceptsPrivateKeys() && IsSecret(key))
    || (key != AcceptsRawTransactions() && IsRaw(key))
  }

  // ----- telling letters -----

  /** Three letters that a secret-like word has. */
  predicate SecretTriple(a: int, b: int, c: int) {
    (a == 'p' as int && b == 'r' as int && c == 'i' as int) ||
    (a == 's' as int && b == 'e' as int && c == 'c' as int) ||
    (a == 's' as int && b == 'e' as int && c == 'e' as int) ||
    (a == 'm' as int && b == 'n' as int && c == 'e' as int) ||
    (a == 's' as int && b == 's' as int && c == 'w' as int) ||
    (a == 'w' as int && b == 'a' as int && c == 'l' as int) ||
    (a == 'y' as int && b == 's' as int && c == 't' as int) ||
    (a == 't' as int && b == 'o' as int && c == 'k' as int)
  }

  /** Three letters that a word for raw transaction material has. */
  predicate RawTriple(a: int, b: int, c: int) {
    (a == 'r' as int && b == 'a' as int && c == 'w' as int) ||
    (a == 'n' as int && b == 'e' as int && c == 'd' as int) ||
    (a == 'i' as int && b == 'z' as int && c == 'e' as int) ||
    (a == 'h' as int && b == 'e' as int && c == 'x' as int) ||
    (a == 'b' as int && b == 'y' as int && c == 't' as int)
  }

  predicate NoSecretTriple(t: Text) {
    forall i :: 0 <= i < |t| - 2 ==> !SecretTriple(t[i], t[i + 1], t[i + 2])
  }

  predicate NoRawTriple(t: Text) {
    forall i :: 0 <= i < |t| - 2 ==> !RawTriple(t[i], t[i + 1], t[i + 2])
  }

  function SecretAt(k: nat): nat
    requires k < |SECRETS|
  {
    [0, 0, 0, 0, 2, 2, 0, 2, 0][k]
  }

  function RawAt(k: nat): nat
    requires k < |RAWS|
  {
    [0, 3, 6][k]
  }

  lemma SecretTells(k: nat)
    requires k < |SECRETS|
    ensures var s, j := SECRETS[k], SecretAt(k);
      j + 2 < |s| && SecretTriple(s[j] as int, s[j + 1] as int, s[j + 2] as int)
  {
  }

  lemma RawTells(k: nat)
    requires k < |RAWS|
    ensures var s, j := RAWS[k], RawAt(k); j + 2 < |s| && RawTriple(s[j] as int, s[j + 1] as int, s[j + 2] as int)
  {
  }

  lemma OccurrenceShows(t: Text, s: string, i: int, j: nat)
    requires OccursAt(t, U(s), i) && j < |s|
    ensures 0 <= i + j < |t| && t[i + j] == s[j] as int
  {
    assert t[i..i + |U(s)|][j] == t[i + j];
  }

  lemma SecretHasTriple(t: Text)
    requires HasSecret(t)
    ensures !NoSecretTriple(t)
  {
    hide Contains;
    hide U;
    var k :| 0 <= k < |SECRETS| && Contains(t, U(SECRETS[k]));
    SecretTells(k);
    var s, j := SECRETS[k], SecretAt(k);
    var i := Occurrence(t, U(s));
    OccurrenceShows(t, s, i, j);
    OccurrenceShows(t, s, i, j + 1);
    OccurrenceShows(t, s, i, j + 2);
    hide SecretTriple;
    hide SecretAt;
    assert SecretTriple(t[i + j], t[i + j + 1], t[i + j + 2]);
  }

  lemma Occurrence(t: Text, needle: Text) returns (i: int)
    requires Contains(t, needle)
    ensures OccursAt(t, needle, i)
  {
    i :| 0 <= i <= |t| && OccursAt(t, needle, i);
  }

  lemma MarkedHasTriple(t: Text, s: string, i: int, j: nat)
    requires OccursAt(t, U(s), i) && j + 2 < |s| && RawTriple(s[j] as int, s[j + 1] as int, s[j + 2] as int)
    ensures !NoRawTriple(t)
  {
    hide U;
    hide RawTriple;
    OccurrenceShows(t, s, i, j);
    OccurrenceShows(t, s, i, j + 1);
    OccurrenceShows(t, s, i, j + 2);
    assert RawTriple(t[i + j], t[i + j + 1], t[i + j + 2]);
  }

  lemma RawHasTriple(t: Text)
    requires HasRaw(t)
    ensures !NoRawTriple(t)
  {
    hide Contains;
    hide NoRawTriple;
    hide U;
    if k, i, j :| 0 <= k < |RAWS| && 0 <= i <= |t| && i <= j <= |t| && RawThenTransaction(t, U(RAWS[k]), i, j) {
      RawTells(k);
      MarkedHasTriple(t, RAWS[k], i, RawAt(k));
    } else if Contains(t, U("transaction_hex")) {
      var i := Occurrence(t, U("transaction_hex"));
      MarkedHasTriple(t, "transaction_hex", i, 12);
    } else {
      var i := Occurrence(t, U("transaction_bytes"));
      MarkedHasTriple(t, "transaction_bytes", i, 12);
    }
  }

  predicate IsLower(c: int) {
    'a' as int <= c <= 'z' as int
  }

  lemma TripleIsLower(a: int, b: int, c: int)
    requires SecretTriple(a, b, c) || RawTriple(a, b, c)
    ensures IsLower(a) && IsLower(b) && IsLower(c)
  {
  }

  /** Folded already, and without three telling letters in a row. */
  predicate IsPlain(t: Text) {
    NoSecretTriple(t) && NoRawTriple(t) && Fold(t) == t
  }

  lemma PlainIsAllowed(t: Text)
    requires IsPlain(t)
    ensures !IsSecret(t) && !IsRaw(t)
  {
    hide HasSecret;
    hide HasRaw;
    hide NoSecretTriple;
    hide NoRawTriple;
    if HasSecret(t) {
      SecretHasTriple(t);
    }
    if HasRaw(t) {
      RawHasTriple(t);
    }
  }

  /** Plain texts stay plain when a mark is put between them. */
  lemma PlainAround(a: Text, c: CodePoint, b: Text)
    requires IsPlain(a) && IsPlain(b) && !IsLower(c) && FoldOne(c) == c
    ensures IsPlain(a + ([c] + b))
  {
    hide SecretTriple;
    hide RawTriple;
    hide FoldOne;
    var t := a + ([c] + b);
    assert t[|a|] == c;
    forall i | 0 <= i < |t| - 2 ensures !SecretTriple(t[i], t[i + 1], t[i + 2]) && !RawTriple(t[i], t[i + 1], t[i + 2]) {
      if i + 2 < |a| {
        assert t[i] == a[i] && t[i + 1] == a[i + 1] && t[i + 2] == a[i + 2];
      } else if i > |a| {
        var j := i - |a| - 1;
        assert t[i] == b[j] && t[i + 1] == b[j + 1] && t[i + 2] == b[j + 2];
      } else if SecretTriple(t[i], t[i + 1], t[i + 2]) || RawTriple(t[i], t[i + 1], t[i + 2]) {
        TripleIsLower(t[i], t[i + 1], t[i + 2]);
      }
    }
    forall i | 0 <= i < |t| ensures FoldOne(t[i]) == t[i] {
      if i < |a| {
        assert Fold(a)[i] == FoldOne(a[i]);
      } else if i > |a| {
        assert Fold(b)[i - |a| - 1] == FoldOne(b[i - |a| - 1]);
      }
    }
    assert Fold(t) == t;
  }

  /** No capital and no triple of either kind, character by character. */
  predicate Quiet(s: string, i: nat)
    decreases |s| - i
  {
    i >= |s| || (
      && FoldOne(s[i] as int) == s[i] as int
      && (i + 2 >= |s| || (
            && !SecretTriple(s[i] as int, s[i + 1] as int, s[i + 2] as int)
            && !RawTriple(s[i] as int, s[i + 1] as int, s[i + 2] as int)))
      && Quiet(s, i + 1))
  }

  lemma {:induction false} QuietAt(s: string, i: nat, j: nat)
    requires Quiet(s, i) && i <= j < |s|
    ensures FoldOne(s[j] as int) == s[j] as int
    ensures j + 2 < |s| ==> !SecretTriple(s[j] as int, s[j + 1] as int, s[j + 2] as int)
    ensures j + 2 < |s| ==> !RawTriple(s[j] as int, s[j + 1] as int, s[j + 2] as int)
    decreases j - i
  {
    hide SecretTriple;
    hide RawTriple;
    hide FoldOne;
    if i < j {
      QuietAt(s, i + 1, j);
    }
  }

  lemma QuietIsPlain(s: string)
    requires Quiet(s, 0)
    ensures IsPlain(U(s))
  {
    hide SecretTriple;
    hide RawTriple;
    hide FoldOne;
    hide Quiet;
    var t := U(s);
    forall i | 0 <= i < |t| ensures
      && FoldOne(t[i]) == t[i]
      && (i + 2 < |t| ==> !SecretTriple(t[i], t[i + 1], t[i + 2]) && !RawTriple(t[i], t[i + 1], t[i + 2]))
    {
      QuietAt(s, 0, i);
    }
    assert Fold(t) == t;
  }

  // ----- the vocabulary of the release documents -----

  datatype Word =
    | At | By | Ci | Fp | Id | In | Tx | V1 | Abi | Daa | Day | Fee | For | Has | Key | Len | New | Not | Per | Ref
    | Rpc | Set | Sha | Sig | Url | Args | File | Full | Hash | Hold | Kind | Last | Mass | Must | Name | Next
    | P2pk | Paid | Path | Plan | Pull | Rate | Role | Type | Admin | After | Block | Chain | Count | Draft | Exact
    | Field | Files | Force | Input | Notes | Order | Pages | Rules | Scope | Score | Signs | State | Steps | Value
    | Active | Branch | Budget | Bundle | Bypass | Checks | Commit | Deploy | Fields | Height | Import | Inputs
    | Manual | Memory | Oracle | Pubkey | Public | Pushes | Report | Result | Review | Safety | Schema | Script
    | Sha256 | Signer | Source | Status | Address | Archive | Binding | Blocked | Builder | Changes | Command
    | Compute | Deploys | Fixture | Funding | Genesis | Handoff | Metrics | Missing | Network | Payload | Present
    | Profile | Receipt | Release | Request | Results | Runtime | Signing | Silverc | Sources | Sponsor | Storage
    | Toccata | Tooling | Updates | Version | Artifact | Blockers | Boundary | Contract | Controls | Covenant
    | Deployed | Deployer | Enforced | Evidence | External | Included | Instance | Manifest | Material | Observed
    | Observer | Operator | Preimage | Previous | Receipts | Recorded | Requests | Required | Requires | Rollback
    | Selected | Separate | Sequence | Settings | Upstream | Verified | Assembler | Assembles | Broadcast
    | Confirmed | Contracts | Deletions | Execution | Forbidden | Guardians | Hardening | Preserves | Procedure
    | Proposals | Protected | Signature | Supported | Workflows | Broadcasts | Capability | Commitment | Deployment
    | Documented | Entrypoint | Provenance | Repository | Validators | Authorizing | Constructor | Placeholder
    | Transaction | Orchestrator | Silverscript | Transactions | Verification | Confirmations | Acknowledgement

  // The words in groups, shortest first, so that each proof stays a small case split.

  function Spelling0(w: Word): string {
    match w
    case At => "at"
    case By => "by"
    case Ci => "ci"
    case Fp => "fp"
    case Id => "id"
    case In => "in"
    case Tx => "tx"
    case V1 => "v1"
    case Abi => "abi"
    case Daa => "daa"
    case Day => "day"
    case Fee => "fee"
    case For => "for"
    case Has => "has"
    case Key => "key"
    case Len => "len"
    case _ => ""
  }

  function Spelling1(w: Word): string {
    match w
    case New => "new"
    case Not => "not"
    case Per => "per"
    case Ref => "ref"
    case Rpc => "rpc"
    case Set => "set"
    case Sha => "sha"
    case Sig => "sig"
    case Url => "url"
    case Args => "args"
    case File => "file"
    case Full => "full"
    case Hash => "hash"
    case Hold => "hold"
    case Kind => "kind"
    case Last => "last"
    case _ => ""
  }

  function Spelling2(w: Word): string {
    match w
    case Mass => "mass"
    case Must => "must"
    case Name => "name"
    case Next => "next"
    case P2pk => "p2pk"
    case Paid => "paid"
    case Path => "path"
    case Plan => "plan"
    case Pull => "pull"
    case Rate => "rate"
    case Role => "role"
    case Type => "type"
    case Admin => "admin"
    case After => "after"
    case Block => "block"
    case Chain => "chain"
    case _ => ""
  }

  function Spelling3(w: Word): string {
    match w
    case Count => "count"
    case Draft => "draft"
    case Exact => "exact"
    case Field => "field"
    case Files => "files"
    case Force => "force"
    case Input => "input"
    case Notes => "notes"
    case Order => "order"
    case Pages => "pages"
    case Rules => "rules"
    case Scope => "scope"
    case Score => "score"
    case Signs => "signs"
    case State => "state"
    case Steps => "steps"
    case _ => ""
  }

  function Spelling4(w: Word): string {
    match w
    case Value => "value"
    case Active => "active"
    case Branch => "branch"
    case Budget => "budget"
    case Bundle => "bundle"
    case Bypass => "bypass"
    case Checks => "checks"
    case Commit => "commit"
    case Deploy => "deploy"
    case Fields => "fields"
    case Height => "height"
    case Import => "import"
    case Inputs => "inputs"
    case Manual => "manual"
    case Memory => "memory"
    case _ => ""
  }

  function Spelling5(w: Word): string {
    match w
    case Oracle => "oracle"
    case Pubkey => "pubkey"
    case Public => "public"
    case Pushes => "pushes"
    case Report => "report"
    case Result => "result"
    case Review => "review"
    case Safety => "safety"
    case Schema => "schema"
    case Script => "script"
    case Sha256 => "sha256"
    case Signer => "signer"
    case Source => "source"
    case Status => "status"
    case _ => ""
  }

  function Spelling6(w: Word): string {
    match w
    case Address => "address"
    case Archive => "archive"
    case Binding => "binding"
    case Blocked => "blocked"
    case Builder => "builder"
    case Changes => "changes"
    case Command => "command"
    case Compute => "compute"
    case Deploys => "deploys"
    case Fixture => "fixture"
    case Funding => "funding"
    case Genesis => "genesis"
    case _ => ""
  }

  function Spelling7(w: Word): string {
    match w
    case Handoff => "handoff"
    case Metrics => "metrics"
    case Missing => "missing"
    case Network => "network"
    case Payload => "payload"
    case Present => "present"
    case Profile => "profile"
    case Receipt => "receipt"
    case Release => "release"
    case Request => "request"
    case Results => "results"
    case Runtime => "runtime"
    case _ => ""
  }

  function Spelling8(w: Word): string {
    match w
    case Signing => "signing"
    case Silverc => "silverc"
    case Sources => "sources"
    case Sponsor => "sponsor"
    case Storage => "storage"
    case Toccata => "toccata"
    case Tooling => "tooling"
    case Updates => "updates"
    case Version => "version"
    case Artifact => "artifact"
    case Blockers => "blockers"
    case Boundary => "boundary"
    case _ => ""
  }

  function Spelling9(w: Word): string {
    match w
    case Contract => "contract"
    case Controls => "controls"
    case Covenant => "covenant"
    case Deployed => "deployed"
    case Deployer => "deployer"
    case Enforced => "enforced"
    case Evidence => "evidence"
    case External => "external"
    case Included => "included"
    case Instance => "instance"
    case Manifest => "manifest"
    case _ => ""
  }

  function Spelling10(w: Word): string {
    match w
    case Material => "material"
    case Observed => "observed"
    case Observer => "observer"
    case Operator => "operator"
    case Preimage => "preimage"
    case Previous => "previous"
    case Receipts => "receipts"
    case Recorded => "recorded"
    case Requests => "requests"
    case Required => "required"
    case Requires => "requires"
    case _ => ""
  }

  function Spelling11(w: Word): string {
    match w
    case Rollback => "rollback"
    case Selected => "selected"
    case Separate => "separate"
    case Sequence => "sequence"
    case Settings => "settings"
    case Upstream => "upstream"
    case Verified => "verified"
    case Assembler => "assembler"
    case Assembles => "assembles"
    case Broadcast => "broadcast"
    case _ => ""
  }

  function Spelling12(w: Word): string {
    match w
    case Confirmed => "confirmed"
    case Contracts => "contracts"
    case Deletions => "deletions"
    case Execution => "execution"
    case Forbidden => "forbidden"
    case Guardians => "guardians"
    case Hardening => "hardening"
    case Preserves => "preserves"
    case Procedure => "procedure"
    case Proposals => "proposals"
    case _ => ""
  }

  function Spelling13(w: Word): string {
    match w
    case Protected => "protected"
    case Signature => "signature"
    case Supported => "supported"
    case Workflows => "workflows"
    case Broadcasts => "broadcasts"
    case Capability => "capability"
    case Commitment => "commitment"
    case Deployment => "deployment"
    case Documented => "documented"
    case _ => ""
  }

  function Spelling14(w: Word): string {
    match w
    case Entrypoint => "entrypoint"
    case Provenance => "provenance"
    case Repository => "repository"
    case Validators => "validators"
    case Authorizing => "authorizing"
    case Constructor => "constructor"
    case Placeholder => "placeholder"
    case Transaction => "transaction"
    case _ => ""
  }

  function Spelling15(w: Word): string {
    match w
    case Orchestrator => "orchestrator"
    case Silverscript => "silverscript"
    case Transactions => "transactions"
    case Verification => "verification"
    case Confirmations => "confirmations"
    case Acknowledgement => "acknowledgement"
    case _ => ""
  }

  function Spelling(w: Word): string {
    if Spelling0(w) != "" then Spelling0(w)
    else if Spelling1(w) != "" then Spelling1(w)
    else if Spelling2(w) != "" then Spelling2(w)
    else if Spelling3(w) != "" then Spelling3(w)
    else if Spelling4(w) != "" then Spelling4(w)
    else if Spelling5(w) != "" then Spelling5(w)
    else if Spelling6(w) != "" then Spelling6(w)
    else if Spelling7(w) != "" then Spelling7(w)
    else if Spelling8(w) != "" then Spelling8(w)
    else if Spelling9(w) != "" then Spelling9(w)
    else if Spelling10(w) != "" then Spelling10(w)
    else if Spelling11(w) != "" then Spelling11(w)
    else if Spelling12(w) != "" then Spelling12(w)
    else if Spelling13(w) != "" then Spelling13(w)
    else if Spelling14(w) != "" then Spelling14(w)
    else Spelling15(w)
  }

  lemma Literals0a()
    ensures Quiet("at", 0)
    ensures Quiet("by", 0)
    ensures Quiet("ci", 0)
    ensures Quiet("fp", 0)
    ensures Quiet("id", 0)
    ensures Quiet("in", 0)
    ensures Quiet("tx", 0)
    ensures Quiet("v1", 0)
    ensures Quiet("abi", 0)
    ensures Quiet("daa", 0)
    ensures Quiet("day", 0)
    ensures Quiet("fee", 0)
    ensures Quiet("for", 0)
    ensures Quiet("has", 0)
    ensures Quiet("key", 0)
    ensures Quiet("len", 0)
  {
  }

  lemma Quiet0(w: Word)
    ensures Quiet(Spelling0(w), 0)
  {
    hide Quiet;
    Literals0a();
    NothingIsQuiet();
  }

  lemma Literals1a()
    ensures Quiet("new", 0)
    ensures Quiet("not", 0)
    ensures Quiet("per", 0)
    ensures Quiet("ref", 0)
    ensures Quiet("rpc", 0)
    ensures Quiet("set", 0)
    ensures Quiet("sha", 0)
    ensures Quiet("sig", 0)
    ensures Quiet("url", 0)
    ensures Quiet("args", 0)
    ensures Quiet("file", 0)
    ensures Quiet("full", 0)
    ensures Quiet("hash", 0)
  {
  }

  lemma Literals1b()
    ensures Quiet("hold", 0)
    ensures Quiet("kind", 0)
    ensures Quiet("last", 0)
  {
  }

  lemma Quiet1(w: Word)
    ensures Quiet(Spelling1(w), 0)
  {
    hide Quiet;
    Literals1a();
    Literals1b();
    NothingIsQuiet();
  }

  lemma Literals2a()
    ensures Quiet("mass", 0)
    ensures Quiet("must", 0)
    ensures Quiet("name", 0)
    ensures Quiet("next", 0)
    ensures Quiet("p2pk", 0)
    ensures Quiet("paid", 0)
    ensures Quiet("path", 0)
    ensures Quiet("plan", 0)
    ensures Quiet("pull", 0)
    ensures Quiet("rate", 0)
    ensures Quiet("role", 0)
  {
  }

  lemma Literals2b()
    ensures Quiet("type", 0)
    ensures Quiet("admin", 0)
    ensures Quiet("after", 0)
    ensures Quiet("block", 0)
    ensures Quiet("chain", 0)
  {
  }

  lemma Quiet2(w: Word)
    ensures Quiet(Spelling2(w), 0)
  {
    hide Quiet;
    Literals2a();
    Literals2b();
    NothingIsQuiet();
  }

  lemma Literals3a()
    ensures Quiet("count", 0)
    ensures Quiet("draft", 0)
    ensures Quiet("exact", 0)
    ensures Quiet("field", 0)
    ensures Quiet("files", 0)
    ensures Quiet("force", 0)
    ensures Quiet("input", 0)
    ensures Quiet("notes", 0)
    ensures Quiet("order", 0)
  {
  }

  lemma Literals3b()
    ensures Quiet("pages", 0)
    ensures Quiet("rules", 0)
    ensures Quiet("scope", 0)
    ensures Quiet("score", 0)
    ensures Quiet("signs", 0)
    ensures Quiet("state", 0)
    ensures Quiet("steps", 0)
  {
  }

  lemma Quiet3(w: Word)
    ensures Quiet(Spelling3(w), 0)
  {
    hide Quiet;
    Literals3a();
    Literals3b();
    NothingIsQuiet();
  }

  lemma Literals4a()
    ensures Quiet("value", 0)
    ensures Quiet("active", 0)
    ensures Quiet("branch", 0)
    ensures Quiet("budget", 0)
    ensures Quiet("bundle", 0)
    ensures Quiet("bypass", 0)
    ensures Quiet("checks", 0)
  {
  }

  lemma Literals4b()
    ensures Quiet("commit", 0)
    ensures Quiet("deploy", 0)
    ensures Quiet("fields", 0)
    ensures Quiet("height", 0)
    ensures Quiet("import", 0)
    ensures Quiet("inputs", 0)
    ensures Quiet("manual", 0)
  {
  }

  lemma Literals4c()
    ensures Quiet("memory", 0)
  {
  }

  lemma Quiet4(w: Word)
    ensures Quiet(Spelling4(w), 0)
  {
    hide Quiet;
    Literals4a();
    Literals4b();
    Literals4c();
    NothingIsQuiet();
  }

  lemma Literals5a()
    ensures Quiet("oracle", 0)
    ensures Quiet("pubkey", 0)
    ensures Quiet("public", 0)
    ensures Quiet("pushes", 0)
    ensures Quiet("report", 0)
    ensures Quiet("result", 0)
    ensures Quiet("review", 0)
  {
  }

  lemma Literals5b()
    ensures Quiet("safety", 0)
    ensures Quiet("schema", 0)
    ensures Quiet("script", 0)
    ensures Quiet("sha256", 0)
    ensures Quiet("signer", 0)
    ensures Quiet("source", 0)
    ensures Quiet("status", 0)
  {
  }

  lemma Quiet5(w: Word)
    ensures Quiet(Spelling5(w), 0)
  {
    hide Quiet;
    Literals5a();
    Literals5b();
    NothingIsQuiet();
  }

  lemma Literals6a()
    ensures Quiet("address", 0)
    ensures Quiet("archive", 0)
    ensures Quiet("binding", 0)
    ensures Quiet("blocked", 0)
    ensures Quiet("builder", 0)
    ensures Quiet("changes", 0)
  {
  }

  lemma Literals6b()
    ensures Quiet("command", 0)
    ensures Quiet("compute", 0)
    ensures Quiet("deploys", 0)
    ensures Quiet("fixture", 0)
    ensures Quiet("funding", 0)
    ensures Quiet("genesis", 0)
  {
  }

  lemma Quiet6(w: Word)
    ensures Quiet(Spelling6(w), 0)
  {
    hide Quiet;
    Literals6a();
    Literals6b();
    NothingIsQuiet();
  }

  lemma Literals7a()
    ensures Quiet("handoff", 0)
    ensures Quiet("metrics", 0)
    ensures Quiet("missing", 0)
    ensures Quiet("network", 0)
    ensures Quiet("payload", 0)
    ensures Quiet("present", 0)
  {
  }

  lemma Literals7b()
    ensures Quiet("profile", 0)
    ensures Quiet("receipt", 0)
    ensures Quiet("release", 0)
    ensures Quiet("request", 0)
    ensures Quiet("results", 0)
    ensures Quiet("runtime", 0)
  {
  }

  lemma Quiet7(w: Word)
    ensures Quiet(Spelling7(w), 0)
  {
    hide Quiet;
    Literals7a();
    Literals7b();
    NothingIsQuiet();
  }

  lemma Literals8a()
    ensures Quiet("signing", 0)
    ensures Quiet("silverc", 0)
    ensures Quiet("sources", 0)
    ensures Quiet("sponsor", 0)
    ensures Quiet("storage", 0)
    ensures Quiet("toccata", 0)
  {
  }

  lemma Literals8b()
    ensures Quiet("tooling", 0)
    ensures Quiet("updates", 0)
    ensures Quiet("version", 0)
    ensures Quiet("artifact", 0)
  {
  }

  lemma Literals8c()
    ensures Quiet("blockers", 0)
    ensures Quiet("boundary", 0)
  {
  }

  lemma Quiet8(w: Word)
    ensures Quiet(Spelling8(w), 0)
  {
    hide Quiet;
    Literals8a();
    Literals8b();
    Literals8c();
    NothingIsQuiet();
  }

  lemma Literals9a()
    ensures Quiet("contract", 0)
    ensures Quiet("controls", 0)
    ensures Quiet("covenant", 0)
    ensures Quiet("deployed", 0)
  {
  }

  lemma Literals9b()
    ensures Quiet("deployer", 0)
    ensures Quiet("enforced", 0)
    ensures Quiet("evidence", 0)
    ensures Quiet("external", 0)
  {
  }

  lemma Literals9c()
    ensures Quiet("included", 0)
    ensures Quiet("instance", 0)
    ensures Quiet("manifest", 0)
  {
  }

  lemma Quiet9(w: Word)
    ensures Quiet(Spelling9(w), 0)
  {
    hide Quiet;
    Literals9a();
    Literals9b();
    Literals9c();
    NothingIsQuiet();
  }

  lemma Literals10a()
    ensures Quiet("material", 0)
    ensures Quiet("observed", 0)
    ensures Quiet("observer", 0)
    ensures Quiet("operator", 0)
  {
  }

  lemma Literals10b()
    ensures Quiet("preimage", 0)
    ensures Quiet("previous", 0)
    ensures Quiet("receipts", 0)
    ensures Quiet("recorded", 0)
  {
  }

  lemma Literals10c()
    ensures Quiet("requests", 0)
    ensures Quiet("required", 0)
    ensures Quiet("requires", 0)
  {
  }

  lemma Quiet10(w: Word)
    ensures Quiet(Spelling10(w), 0)
  {
    hide Quiet;
    Literals10a();
    Literals10b();
    Literals10c();
    NothingIsQuiet();
  }

  lemma Literals11a()
    ensures Quiet("rollback", 0)
    ensures Quiet("selected", 0)
    ensures Quiet("separate", 0)
    ensures Quiet("sequence", 0)
  {
  }

  lemma Literals11b()
    ensures Quiet("settings", 0)
    ensures Quiet("upstream", 0)
    ensures Quiet("verified", 0)
    ensures Quiet("assembler", 0)
  {
  }

  lemma Literals11c()
    ensures Quiet("assembles", 0)
    ensures Quiet("broadcast", 0)
  {
  }

  lemma Quiet11(w: Word)
    ensures Quiet(Spelling11(w), 0)
  {
    hide Quiet;
    Literals11a();
    Literals11b();
    Literals11c();
    NothingIsQuiet();
  }

  lemma Literals12a()
    ensures Quiet("confirmed", 0)
    ensures Quiet("contracts", 0)
    ensures Quiet("deletions", 0)
  {
  }

  lemma Literals12b()
    ensures Quiet("execution", 0)
    ensures Quiet("forbidden", 0)
    ensures Quiet("guardians", 0)
  {
  }

  lemma Literals12c()
    ensures Quiet("hardening", 0)
    ensures Quiet("preserves", 0)
    ensures Quiet("procedure", 0)
  {
  }

  lemma Literals12d()
    ensures Quiet("proposals", 0)
  {
  }

  lemma Quiet12(w: Word)
    ensures Quiet(Spelling12(w), 0)
  {
    hide Quiet;
    Literals12a();
    Literals12b();
    Literals12c();
    Literals12d();
    NothingIsQuiet();
  }

  lemma Literals13a()
    ensures Quiet("protected", 0)
    ensures Quiet("signature", 0)
    ensures Quiet("supported", 0)
  {
  }

  lemma Literals13b()
    ensures Quiet("workflows", 0)
    ensures Quiet("broadcasts", 0)
    ensures Quiet("capability", 0)
  {
  }

  lemma Literals13c()
    ensures Quiet("commitment", 0)
    ensures Quiet("deployment", 0)
    ensures Quiet("documented", 0)
  {
  }

  lemma Quiet13(w: Word)
    ensures Quiet(Spelling13(w), 0)
  {
    hide Quiet;
    Literals13a();
    Literals13b();
    Literals13c();
    NothingIsQuiet();
  }

  lemma Literals14a()
    ensures Quiet("entrypoint", 0)
    ensures Quiet("provenance", 0)
    ensures Quiet("repository", 0)
  {
  }

  lemma Literals14b()
    ensures Quiet("validators", 0)
    ensures Quiet("authorizing", 0)
    ensures Quiet("constructor", 0)
  {
  }

  lemma Literals14c()
    ensures Quiet("placeholder", 0)
    ensures Quiet("transaction", 0)
  {
  }

  lemma Quiet14(w: Word)
    ensures Quiet(Spelling14(w), 0)
  {
    hide Quiet;
    Literals14a();
    Literals14b();
    Literals14c();
    NothingIsQuiet();
  }

  lemma Literals15a()
    ensures Quiet("orchestrator", 0)
    ensures Quiet("silverscript", 0)
  {
  }

  lemma Literals15b()
    ensures Quiet("transactions", 0)
    ensures Quiet("verification", 0)
  {
  }

  lemma Literals15c()
    ensures Quiet("confirmations", 0)
    ensures Quiet("acknowledgement", 0)
  {
  }

  lemma Quiet15(w: Word)
    ensures Quiet(Spelling15(w), 0)
  {
    hide Quiet;
    Literals15a();
    Literals15b();
    Literals15c();
    NothingIsQuiet();
  }

  lemma NothingIsQuiet()
    ensures Quiet("", 0)
  {
  }

  lemma WordIsPlain(w: Word)
    ensures IsPlain(U(Spelling(w)))
  {
    hide Spelling0;
    hide Spelling1;
    hide Spelling2;
    hide Spelling3;
    hide Spelling4;
    hide Spelling5;
    hide Spelling6;
    hide Spelling7;
    hide Spelling8;
    hide Spelling9;
    hide Spelling10;
    hide Spelling11;
    hide Spelling12;
    hide Spelling13;
    hide Spelling14;
    hide Spelling15;
    hide Quiet;
    hide U;
    hide IsPlain;
    Quiet0(w);
    Quiet1(w);
    Quiet2(w);
    Quiet3(w);
    Quiet4(w);
    Quiet5(w);
    Quiet6(w);
    Quiet7(w);
    Quiet8(w);
    Quiet9(w);
    Quiet10(w);
    Quiet11(w);
    Quiet12(w);
    Quiet13(w);
    Quiet14(w);
    Quiet15(w);
    QuietIsPlain(Spelling(w));
  }

  // ----- keys -----

  /** A key of a release document: words with underscores between them, perhaps a path of two such names,
      or one of the two flags that are let through although they match. */
  datatype JsonKey =
    | Flat(words: seq<Word>)
    | Dotted(head: seq<Word>, last: seq<Word>)
    | Listed(head: seq<Word>, last: seq<Word>)
    | PrivateKeysFlag
    | RawTransactionsFlag

  const UNDERSCORE: CodePoint := '_' as int
  const DOT: CodePoint := '.' as int

  function Joined(ws: seq<Word>): Text {
    if ws == [] then []
    else if |ws| == 1 then U(Spelling(ws[0]))
    else U(Spelling(ws[0])) + ([UNDERSCORE] + Joined(ws[1..]))
  }

  /** The key as it is written; a path goes through a member, or through the elements of a list. */
  function KeyText(k: JsonKey): Text {
    match k
    case Flat(ws) => Joined(ws)
    case Dotted(head, last) => Joined(head) + ([DOT] + Joined(last))
    case Listed(head, last) => Joined(head) + (['[' as int] + ([] + ([']' as int] + ([] + ([DOT] + Joined(last))))))
    case PrivateKeysFlag => AcceptsPrivateKeys()
    case RawTransactionsFlag => AcceptsRawTransactions()
  }

  lemma {:induction false} JoinedIsPlain(ws: seq<Word>)
    ensures IsPlain(Joined(ws))
  {
    hide Spelling;
    hide IsPlain;
    hide U;
    if ws == [] {
      EmptyIsPlain();
    } else {
      WordIsPlain(ws[0]);
      if |ws| > 1 {
        JoinedIsPlain(ws[1..]);
        PlainAround(U(Spelling(ws[0])), UNDERSCORE, Joined(ws[1..]));
      }
    }
  }

  lemma EmptyIsPlain()
    ensures IsPlain([])
  {
  }

  lemma PathIsPlain(head: seq<Word>, last: seq<Word>)
    ensures IsPlain(KeyText(Dotted(head, last))) && IsPlain(KeyText(Listed(head, last)))
  {
    hide IsPlain;
    hide Joined;
    JoinedIsPlain(head);
    JoinedIsPlain(last);
    EmptyIsPlain();
    PlainAround(Joined(head), DOT, Joined(last));
    PlainAround([], DOT, Joined(last));
    PlainAround([], ']' as int, [] + ([DOT] + Joined(last)));
    PlainAround(Joined(head), '[' as int, [] + ([']' as int] + ([] + ([DOT] + Joined(last)))));
  }

  /** No capital and no triple of one kind, character by character. */
  predicate Free(s: string, i: nat, raw: bool)
    decreases |s| - i
  {
    i >= |s| || (
      && FoldOne(s[i] as int) == s[i] as int
      && (i + 2 >= |s| || !(if raw then RawTriple(s[i] as int, s[i + 1] as int, s[i + 2] as int)
                            else SecretTriple(s[i] as int, s[i + 1] as int, s[i + 2] as int)))
      && Free(s, i + 1, raw))
  }

  lemma {:induction false} FreeAt(s: string, i: nat, j: nat, raw: bool)
    requires Free(s, i, raw) && i <= j < |s|
    ensures FoldOne(s[j] as int) == s[j] as int
    ensures j + 2 < |s| && raw ==> !RawTriple(s[j] as int, s[j + 1] as int, s[j + 2] as int)
    ensures j + 2 < |s| && !raw ==> !SecretTriple(s[j] as int, s[j + 1] as int, s[j + 2] as int)
    decreases j - i
  {
    hide SecretTriple;
    hide RawTriple;
    hide FoldOne;
    if i < j {
      FreeAt(s, i + 1, j, raw);
    }
  }

  lemma FreeLiteral(s: string, raw: bool)
    requires Free(s, 0, raw)
    ensures Fold(U(s)) == U(s)
    ensures raw ==> NoRawTriple(U(s))
    ensures !raw ==> NoSecretTriple(U(s))
  {
    hide SecretTriple;
    hide RawTriple;
    hide FoldOne;
    var t := U(s);
    forall i | 0 <= i < |t| ensures
      && FoldOne(t[i]) == t[i]
      && (i + 2 < |t| && raw ==> !RawTriple(t[i], t[i + 1], t[i + 2]))
      && (i + 2 < |t| && !raw ==> !SecretTriple(t[i], t[i + 1], t[i + 2]))
    {
      FreeAt(s, 0, i, raw);
    }
    assert Fold(t) == t;
  }

  lemma PrivateKeysFree()
    ensures Free("accepts_private_keys", 0, true)
  {
    assert Free("accepts_private_keys", 14, true);
    assert Free("accepts_private_keys", 7, true);
  }

  lemma RawTransactionsFree()
    ensures Free("accepts_raw_transactions", 0, false)
  {
    assert Free("accepts_raw_transactions", 18, false);
    assert Free("accepts_raw_transactions", 12, false);
    assert Free("accepts_raw_transactions", 6, false);
  }

  /** The flag does match the pattern; it is let through by name. */
  lemma PrivateKeysSecret()
    ensures IsSecret(AcceptsPrivateKeys())
  {
    var t := Fold(AcceptsPrivateKeys());
    assert t[8..15] == U("private");
    assert OccursAt(t, U(SECRETS[0]), 8);
    assert Contains(t, U(SECRETS[0]));
  }

  /** No key the release tools write is refused. */
  lemma KeyIsAllowed(k: JsonKey)
    ensures !IsForbidden(KeyText(k))
  {
    hide Free;
    hide U;
    hide HasSecret;
    hide HasRaw;
    hide IsPlain;
    hide Joined;
    hide NoSecretTriple;
    hide NoRawTriple;
    match k
    case Flat(ws) =>
      JoinedIsPlain(ws);
      PlainIsAllowed(KeyText(k));
    case Dotted(head, last) =>
      PathIsPlain(head, last);
      PlainIsAllowed(KeyText(k));
    case Listed(head, last) =>
      PathIsPlain(head, last);
      PlainIsAllowed(KeyText(k));
    case PrivateKeysFlag =>
      PrivateKeysFree();
      FreeLiteral("accepts_private_keys", true);
      if HasRaw(KeyText(k)) {
        RawHasTriple(KeyText(k));
      }
    case RawTransactionsFlag =>
      RawTransactionsFree();
      FreeLiteral("accepts_raw_transactions", false);
      if HasSecret(KeyText(k)) {
        SecretHasTriple(KeyText(k));
      }
  }
}
