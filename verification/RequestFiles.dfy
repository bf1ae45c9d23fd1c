/**
  Deploy requests as files: what the builder writes as JSON text is what the verifier loads,
  so the two programs meet on the text, and one seal pins every file of a request set.
 */
module RequestFiles {
  import opened Texts
  import opened JsonStrings
  import opened CanonicalJson
  import opened DeploymentProfiles
  import opened DeployRequests
  import opened DeployRequestVerification
  import opened Interning
  import opened ReleaseNames

  /** The inputs of the builder as a run has them: decoded documents and command-line texts. */
  ghost predicate InputsWritable(job: Job) {
    && Writable(NAMES, Obj(job.manifest))
    && (forall name :: name in job.constructorArgs ==> Writable(NAMES, job.constructorArgs[name]))
    && NoPair(job.args.network) && NoPair(job.args.rpc) && NoPair(job.args.deployer)
    && (job.args.key.Some? ==> NoPair(job.args.key.value))
    && NoPair(job.rules.blocker) && NoPair(job.rules.canaryNotice)
    && forall i :: 0 <= i < |job.rules.requirements| ==> NoPair(job.rules.requirements[i])
  }

  // ----- what the builder writes can be written -----

  lemma ObjectWritable(m: Document)
    ensures Writable(NAMES, Obj(m)) <==> forall k :: k in m ==> NAMES.Proper(k) && Writable(NAMES, m[k])
  {
  }

  lemma NamedWritable(m: Document)
    requires forall k :: k in m ==> !k.Other? && Writable(NAMES, m[k])
    ensures Writable(NAMES, Obj(m))
  {
    hide Spelling.Proper;
    forall k | k in m ensures NAMES.Proper(k) {
      NameIsProper(k);
    }
    ObjectWritable(m);
  }

  lemma StringsWritable(ts: seq<Text>)
    requires forall i :: 0 <= i < |ts| ==> NoPair(ts[i])
    ensures Writable(NAMES, Strings(ts))
  {
  }

  lemma HexNoPair(t: Text, n: nat)
    requires IsHexText(t, n)
    ensures NoPair(t)
  {
  }

  lemma LiteralNoPair(s: string)
    ensures NoPair(U(s))
  {
  }

  lemma NoPairAppend(a: Text, b: Text)
    requires NoPair(a) && NoPair(b) && (a == [] || !High(a[|a| - 1]))
    ensures NoPair(a + b)
  {
  }

  lemma FileNameNoPair(order: nat, name: Text)
    requires NoPair(name)
    ensures NoPair(FileName(order, name))
  {
    hide U;
    LiteralNoPair(".deploy-request.json");
    var tail := U(".deploy-request.json");
    assert tail[0] == '.' as int;
    forall i | 0 <= i < |name + tail| - 1 ensures !(High((name + tail)[i]) && Low((name + tail)[i + 1])) {
      if i + 1 == |name| {
        assert (name + tail)[i + 1] == tail[0];
      }
    }
    NoPairAppend(['-' as int], name + tail);
    NoPairAppend(Padded(order), ['-' as int] + (name + tail));
  }

  lemma FlagsWritable()
    ensures Writable(NAMES, Obj(SafetyFlags()))
  {
    NamedWritable(SafetyFlags());
  }

  lemma TextWritable(t: Text)
    requires NoPair(t)
    ensures Writable(NAMES, Str(t))
  {
  }

  lemma NumberWritable(v: Data)
    requires IsNumber(v)
    ensures Writable(NAMES, v)
  {
  }

  /** A member of a document that can be written can be written. */
  lemma MemberWritable(m: Document, k: Name)
    requires Writable(NAMES, Obj(m)) && k in m
    ensures Writable(NAMES, m[k])
  {
  }

  lemma EntryWritable(job: Job, i: nat)
    requires IsManifest(job.manifest, job.names) && InputsWritable(job) && i < |job.names|
    ensures Writable(NAMES, Obj(Entries(job.manifest, job.names)[i])) && NoPair(job.names[i])
  {
    hide IsEntry;
    hide IsManifest;
    hide InputsWritable;
    FixturesWritable(job);
    var e := Entries(job.manifest, job.names)[i];
    assert Writable(NAMES, job.manifest[Fixtures].items[i]);
    NamedEntry(e, job.names[i]);
    MemberWritable(e, ContractName);
  }

  lemma FixturesWritable(job: Job)
    requires IsManifest(job.manifest, job.names) && InputsWritable(job)
    ensures Fixtures in job.manifest && job.manifest[Fixtures].Arr? && Writable(NAMES, job.manifest[Fixtures])
    ensures |job.manifest[Fixtures].items| == |job.names|
    ensures forall i :: 0 <= i < |job.names| ==> job.manifest[Fixtures].items[i] == Obj(Entries(job.manifest, job.names)[i])
  {
    hide IsEntry;
    hide Writable;
    MemberWritable(job.manifest, Fixtures);
  }

  lemma NamedEntry(e: Document, name: Text)
    requires IsEntry(e, name)
    ensures ContractName in e && e[ContractName] == Str(name)
  {
  }

  lemma CanaryNoPair()
    ensures NoPair(Canary())
  {
    hide U;
    LiteralNoPair("testnet-10-");
    LiteralNoPair("validator-staking-h001");
    NoPairAppend(U("testnet-10-"), U("validator-staking-h001"));
  }

  lemma SelectionWritable(job: Job)
    requires IsManifest(job.manifest, job.names) && job.Selects() && InputsWritable(job)
    ensures Writable(NAMES, Strings(Selection(job.args.profile, job.names).value))
  {
    hide Writable;
    hide IsManifest;
    hide InputsWritable;
    hide U;
    var selected := Selection(job.args.profile, job.names).value;
    forall i | 0 <= i < |selected| ensures NoPair(selected[i]) {
      if job.args.profile == Full() {
        EntryWritable(job, i);
      } else {
        LiteralNoPair("ValidatorStakingH001");
      }
    }
    StringsWritable(selected);
  }

  lemma ProfileWritable(job: Job)
    requires job.Valid() && job.Selects() && InputsWritable(job)
    ensures Writable(NAMES, Obj(job.Profile()))
  {
    hide Writable;
    hide U;
    hide IsEntry;
    hide Strings;
    hide NoPair;
    SelectionWritable(job);
    LiteralNoPair("full");
    TextWritable(Full());
    LiteralNoPair("canary");
    TextWritable(CanaryKind());
    CanaryNoPair();
    TextWritable(Canary());
    LiteralNoPair("operator-selected");
    TextWritable(U("operator-selected"));
    LiteralNoPair("testnet-10");
    TextWritable(U("testnet-10"));
    var sha := job.digest(Obj(job.manifest));
    HexNoPair(sha, 64);
    TextWritable(sha);
    MemberWritable(job.manifest, FixtureCount);
    NamedWritable(job.Profile());
  }

  lemma RevisionWritable(job: Job)
    requires IsManifest(job.manifest, job.names) && InputsWritable(job)
    ensures Writable(NAMES, Revision(job.manifest))
  {
    hide Writable;
    hide IsEntry;
    MemberWritable(job.manifest, SilverscriptRef);
    MemberWritable(job.manifest, SilverscriptCommit);
    NamedWritable(Revision(job.manifest).members);
  }

  lemma ContractWritable(e: Document, name: Text, order: nat)
    requires IsEntry(e, name) && Writable(NAMES, Obj(e))
    ensures Writable(NAMES, Obj(ContractPart(e, name, order)))
  {
    hide Writable;
    var part := ContractPart(e, name, order);
    var n: Data := Int(order);
    NumberWritable(n);
    forall k | k in e ensures Writable(NAMES, e[k]) {
      MemberWritable(e, k);
    }
    NamedWritable(part);
  }

  ghost predicate PartsWritable(p: RequestParts) {
    && Writable(NAMES, p.status) && Writable(NAMES, p.network) && Writable(NAMES, p.rpc) && Writable(NAMES, p.deployer)
    && Writable(NAMES, p.profile) && Writable(NAMES, p.silverscript) && Writable(NAMES, p.contract)
    && Writable(NAMES, p.constructorArgs) && Writable(NAMES, p.requirements)
  }

  lemma RequestWritable(digest: Hexdigest, p: RequestParts, args: Inputs)
    requires IsHexDigest(digest) && PartsWritable(p) && (args.key.Some? ==> NoPair(args.key.value))
    ensures Writable(NAMES, Obj(Seal(digest, WithKey(RequestFields(p), args), RequestSha256)))
  {
    hide Writable;
    hide RequestTypeText;
    hide SafetyFlags;
    hide Scope;
    hide RequestFields;
    hide WithKey;
    hide Seal;
    hide NoPair;
    hide IsHexText;
    var r := Seal(digest, WithKey(RequestFields(p), args), RequestSha256);
    RequestHolds(digest, p, args);
    FlagsWritable();
    WordsWritable();
    var one: Data := Int(1);
    NumberWritable(one);
    var sha := digest(Obj(WithKey(RequestFields(p), args)));
    HexNoPair(sha, 64);
    TextWritable(sha);
    forall k | k in r ensures !k.Other? && Writable(NAMES, r[k]) {
      RequestGet(digest, p, args, k);
      if k.MetricsOraclePubkey? {
        TextWritable(args.key.value);
      }
    }
    NamedWritable(r);
  }

  lemma WordsWritable()
    ensures Writable(NAMES, Str(RequestTypeText())) && Writable(NAMES, Str(Scope()))
    ensures forall canary :: Writable(NAMES, Str(RequestStatus(canary))) && Writable(NAMES, Str(SetStatus(canary)))
  {
    hide U;
    LiteralNoPair("prometheus_");
    LiteralNoPair("silverc_deploy_request");
    NoPairAppend(U("prometheus_"), U("silverc_deploy_request"));
    LiteralNoPair("deploy_request_builder_only");
    LiteralNoPair("CANARY_READY_FOR_KEYLESS_GENESIS_OPERATOR");
    LiteralNoPair("READY_FOR_KEYLESS_GENESIS_OPERATOR");
    LiteralNoPair("CANARY_REQUEST_READY_FOR_KEYLESS_GENESIS_OPERATOR");
    LiteralNoPair("REQUESTS_READY_FOR_KEYLESS_GENESIS_OPERATOR");
  }

  lemma PlannedWritable(job: Job, p: Planned)
    requires job.Valid() && job.Fits(p) && InputsWritable(job) && Writable(NAMES, Obj(p.entry))
    ensures Writable(NAMES, Obj(job.Request(p)))
  {
    hide Writable;
    hide IsManifest;
    hide IsEntry;
    hide NoPair;
    hide RequestStatus;
    hide Strings;
    hide Seal;
    hide RequestFields;
    hide WithKey;
    hide IsCanary;
    ProfileWritable(job);
    RevisionWritable(job);
    ContractWritable(p.entry, p.name, p.order);
    StringsWritable(job.rules.requirements);
    WordsWritable();
    TextWritable(job.args.network);
    TextWritable(job.args.rpc);
    TextWritable(job.args.deployer);
    RequestWritable(job.digest, job.Parts(p), job.args);
  }

  lemma LineWritable(job: Job, p: Planned)
    requires job.Valid() && job.Fits(p) && InputsWritable(job) && Writable(NAMES, Obj(p.entry)) && NoPair(p.name)
    ensures Writable(NAMES, Obj(job.Line(p)))
  {
    hide Writable;
    hide IsManifest;
    hide NoPair;
    hide FileName;
    hide Job.Request;
    var line := job.Line(p);
    PlannedWritable(job, p);
    RequestSeal(job, p);
    MemberWritable(job.Request(p), RequestSha256);
    MemberWritable(p.entry, ContractName);
    MemberWritable(p.entry, ArtifactSha256);
    MemberWritable(p.entry, ScriptSha256);
    FileNameNoPair(p.order, p.name);
    TextWritable(FileName(p.order, p.name));
    var order: Data := Int(p.order);
    NumberWritable(order);
    NamedWritable(line);
  }

  lemma PlanWritable(job: Job, i: nat)
    requires job.Valid() && job.Builds() && InputsWritable(job) && i < |job.Planned()|
    ensures var p := job.Planned()[i]; job.Fits(p) && Writable(NAMES, Obj(p.entry)) && NoPair(p.name)
  {
    hide Writable;
    hide IsManifest;
    hide IsEntry;
    hide NoPair;
    hide InputsAccepted;
    hide InputsWritable;
    hide KeysAllowed;
    hide Plan;
    hide Entries;
    hide Selection;
    hide Distinct;
    hide IsHexDigest;
    var p := job.Planned()[i];
    assert job.ArgsAllowed(p.name);
    EntryWritable(job, p.order - 1);
  }

  lemma LinesWritable(job: Job)
    requires job.Valid() && job.Builds() && InputsWritable(job)
    ensures Writable(NAMES, Arr(Lines(job)))
  {
    hide IsManifest;
    hide IsEntry;
    hide NoPair;
    hide InputsAccepted;
    hide InputsWritable;
    hide Job.Line;
    hide Lines;
    LinesCount(job);
    forall i | 0 <= i < |Lines(job)| ensures Writable(NAMES, Lines(job)[i]) {
      PlanWritable(job, i);
      LineWritable(job, job.Planned()[i]);
    }
  }

  ghost predicate SetPartsWritable(p: SetParts) {
    && Writable(NAMES, p.status) && Writable(NAMES, p.network) && Writable(NAMES, p.rpc) && Writable(NAMES, p.deployer)
    && Writable(NAMES, p.profile) && Writable(NAMES, p.ref) && Writable(NAMES, p.commit) && Writable(NAMES, Arr(p.lines))
    && Writable(NAMES, p.blockers)
  }

  lemma SetWritable(digest: Hexdigest, p: SetParts, args: Inputs)
    requires IsHexDigest(digest) && SetPartsWritable(p) && (args.key.Some? ==> NoPair(args.key.value))
    ensures Writable(NAMES, Obj(Seal(digest, WithKey(SetFields(p), args), RequestSetSha256)))
  {
    hide Writable;
    hide SafetyFlags;
    hide Scope;
    hide SetFields;
    hide WithKey;
    hide Seal;
    hide NoPair;
    hide IsHexText;
    var d := Seal(digest, WithKey(SetFields(p), args), RequestSetSha256);
    SetHolds(digest, p, args);
    FlagsWritable();
    WordsWritable();
    var one: Data, count: Data := Int(1), Int(|p.lines|);
    NumberWritable(one);
    NumberWritable(count);
    var sha := digest(Obj(WithKey(SetFields(p), args)));
    HexNoPair(sha, 64);
    TextWritable(sha);
    forall k | k in d ensures !k.Other? && Writable(NAMES, d[k]) {
      SetGet(digest, p, args, k);
      if k.MetricsOraclePubkey? {
        TextWritable(args.key.value);
      }
    }
    NamedWritable(d);
  }

  lemma BuiltSetWritable(job: Job)
    requires job.Valid() && job.Builds() && InputsWritable(job)
    ensures Writable(NAMES, Obj(job.Set(Lines(job))))
  {
    hide Writable;
    hide IsEntry;
    hide NoPair;
    hide SetStatus;
    hide Strings;
    hide Seal;
    hide SetFields;
    hide WithKey;
    hide IsCanary;
    hide Lines;
    hide InputsAccepted;
    hide U;
    hide Job.Planned;
    ProfileWritable(job);
    LinesWritable(job);
    WarningsWritable(job);
    WordsWritable();
    MemberWritable(job.manifest, SilverscriptRef);
    MemberWritable(job.manifest, SilverscriptCommit);
    TextWritable(job.args.network);
    TextWritable(job.args.rpc);
    TextWritable(job.args.deployer);
    SetWritable(job.digest, job.SetPartsOf(Lines(job)), job.args);
  }

  lemma WarningsWritable(job: Job)
    requires InputsWritable(job)
    ensures Writable(NAMES, job.Warnings())
  {
    hide Writable;
    hide Canary;
    hide NoPair;
    StringsWritable([job.rules.blocker] + (if job.args.profile == Canary() then [job.rules.canaryNotice] else []));
  }

  lemma FilesWritable(job: Job, built: Built, f: Text)
    requires job.Valid() && job.Builds() && IsOutput(job, built) && InputsWritable(job) && f in built.files
    ensures Writable(NAMES, built.files[f])
  {
    hide Writable;
    hide IsManifest;
    hide IsEntry;
    hide NoPair;
    hide InputsAccepted;
    hide InputsWritable;
    hide FileName;
    hide Job.Request;
    hide Job.Set;
    hide Lines;
    hide KeysAllowed;
    var i :| 0 <= i < |job.Planned()| && f == FileName(job.Planned()[i].order, job.Planned()[i].name);
    PlanWritable(job, i);
    PlannedWritable(job, job.Planned()[i]);
  }

  // ----- files -----

  /** The output directory and the request-set file, as text. */
  datatype OnDisk = OnDisk(requestSet: Text, files: map<Text, Text>)

  ghost predicate BuiltWritable(built: Built) {
    Writable(NAMES, Obj(built.requestSet)) && forall f :: f in built.files ==> Writable(NAMES, built.files[f])
  }

  /** What write_json leaves behind. */
  ghost function WriteAll(built: Built): OnDisk
    requires BuiltWritable(built)
  {
    OnDisk(FileText(NAMES, Obj(built.requestSet)), map f | f in built.files :: FileText(NAMES, built.files[f]))
  }

  /** load_json, with the keys interned. */
  ghost function LoadFile(text: Text): Option<Data> {
    NamesValid();
    Load(NAMES, text)
  }

  /** The documents the verifier gets; a file that is no JSON stops it like a missing one. */
  ghost function LoadAll(texts: map<Text, Text>): (files: map<Text, Data>) {
    map f | f in texts && LoadFile(texts[f]).Some? :: LoadFile(texts[f]).value
  }

  /** validate_request_set over the text of the files. */
  ghost predicate TextsAccepted(c: Check, t: OnDisk)
    requires IsManifest(c.manifest, c.names)
  {
    var d := LoadFile(t.requestSet);
    d.Some? && d.value.Obj? && SetAccepted(c, d.value.members, LoadAll(t.files))
  }

  /** Whatever document a file loads as can be written: so can every manifest that was read from one. */
  lemma FileWritable(text: Text)
    requires NoSurrogates(text) && LoadFile(text).Some?
    ensures Writable(NAMES, LoadFile(text).value)
  {
    NamesValid();
    LoadedIsWritable(NAMES, text);
  }

  /** The verifier loads exactly the documents the builder had in hand. */
  lemma WrittenLoads(built: Built)
    requires BuiltWritable(built)
    ensures LoadFile(WriteAll(built).requestSet) == Some(Obj(built.requestSet))
    ensures LoadAll(WriteAll(built).files) == built.files
  {
    hide FileText;
    hide Load;
    hide Writable;
    NamesValid();
    FileLoads(NAMES, Obj(built.requestSet));
    forall f | f in built.files ensures LoadFile(FileText(NAMES, built.files[f])) == Some(built.files[f]) {
      FileLoads(NAMES, built.files[f]);
    }
  }

  lemma OutputWritable(job: Job, built: Built)
    requires job.Valid() && job.Builds() && IsOutput(job, built) && InputsWritable(job)
    ensures BuiltWritable(built)
  {
    hide Writable;
    hide IsManifest;
    hide IsEntry;
    hide InputsAccepted;
    hide InputsWritable;
    hide FilesOf;
    hide Job.Set;
    BuiltSetWritable(job);
    forall f | f in built.files ensures Writable(NAMES, built.files[f]) {
      FilesWritable(job, built, f);
    }
  }

  /** The text of a built set is accepted exactly when no selected manifest entry holds a secret-like key. */
  lemma WrittenSetVerifies(job: Job, built: Built)
    requires job.Valid() && job.Builds() && IsOutput(job, built) && InputsWritable(job)
    ensures BuiltWritable(built)
    ensures TextsAccepted(CheckOf(job), WriteAll(built)) <==>
      forall i :: 0 <= i < |job.Planned()| ==> NothingSecret(job.Planned()[i].entry)
  {
    hide Writable;
    hide IsManifest;
    hide IsOutput;
    hide InputsAccepted;
    hide InputsWritable;
    hide SetAccepted;
    hide BuiltWritable;
    hide WriteAll;
    hide LoadAll;
    hide NothingSecret;
    OutputWritable(job, built);
    WrittenLoads(built);
    BuiltSetVerifies(job, built);
  }

  // ----- one seal for a whole set -----

  /** No collision between the texts two documents are sealed over. */
  ghost predicate Apart(sha: Digest, a: Document, b: Document, key: Name) {
    Writable(NAMES, Obj(a - {key})) && Writable(NAMES, Obj(b - {key})) ==>
      NoTextCollision(NAMES, sha, Obj(a - {key}), Obj(b - {key}))
  }

  /** No collision on the request set, nor on any file under the name of a built one. */
  ghost predicate NoneCollides(sha: Digest, built: Built, d: Document, files: map<Text, Data>) {
    && Apart(sha, d, built.requestSet, RequestSetSha256)
    && forall f :: f in built.files && f in files && files[f].Obj? && built.files[f].Obj? ==>
         Apart(sha, files[f].members, built.files[f].members, RequestSha256)
  }

  lemma SealedAlike(job: Job, sha: Digest, a: Document, b: Document, key: Name)
    requires DigestsText(NAMES, sha, job.digest) && Writable(NAMES, Obj(a)) && Writable(NAMES, Obj(b))
    requires SealMatches(job.digest, a, key) && SealMatches(job.digest, b, key) && a[key] == b[key]
    requires Apart(sha, a, b, key)
    ensures a == b
  {
    hide Writable;
    hide DigestsText;
    hide SealMatches;
    hide NoTextCollision;
    NamesValid();
    Unsealed(NAMES, a, key);
    Unsealed(NAMES, b, key);
    SealPins(NAMES, sha, job.digest, a, b, key);
  }

  lemma RequestSealed(job: Job, p: Planned)
    requires job.Valid() && job.Fits(p)
    ensures SealMatches(job.digest, job.Request(p), RequestSha256)
  {
    hide IsManifest;
    hide IsEntry;
    hide RequestFields;
    hide WithKey;
    hide SealMatches;
    UnsealedKey(job.Parts(p), job.args);
    SealBuilt(job.digest, WithKey(RequestFields(job.Parts(p)), job.args), RequestSha256);
  }

  /** An accepted file for a line of the built set is the built request. */
  lemma FilePinned(job: Job, p: Planned, sha: Digest, d: Document, r: Document)
    requires job.Valid() && job.Fits(p) && InputsWritable(job) && Writable(NAMES, Obj(p.entry))
    requires DigestsText(NAMES, sha, job.digest) && Writable(NAMES, Obj(r)) && Apart(sha, r, job.Request(p), RequestSha256)
    requires LineAccepted(Obj(job.Line(p)), r, p.entry, p.name, p.order)
    requires RequestAccepted(CheckOf(job), r, d, job.Profile(), p.entry, p.name, p.order)
    ensures r == job.Request(p)
  {
    hide IsManifest;
    hide IsEntry;
    hide InputsWritable;
    hide Writable;
    hide DigestsText;
    hide Apart;
    hide KeysAllowed;
    hide SealMatches;
    hide SharedAccepted;
    hide ContractAccepted;
    hide FlagsAccepted;
    hide FileName;
    hide U;
    hide Job.Request;
    hide Job.Profile;
    RequestSealed(job, p);
    RequestSeal(job, p);
    SealIsText(job.digest, r, RequestSha256);
    PlannedWritable(job, p);
    SealedAlike(job, sha, r, job.Request(p), RequestSha256);
  }

  lemma SealIsText(digest: Hexdigest, d: Document, key: Name)
    requires SealMatches(digest, d, key)
    ensures key in d && d[key].Str?
  {
  }

  lemma HeaderSealed(c: Check, d: Document)
    requires IsManifest(c.manifest, c.names) && HeaderAccepted(c, d)
    ensures SealMatches(c.digest, d, RequestSetSha256)
  {
    hide SealMatches;
    hide ProfileFieldsAccepted;
    hide ClaimedProfile;
  }

  /** The request set itself: an accepted one with the built set's seal is the built set. */
  lemma SetPinned(job: Job, built: Built, sha: Digest, d: Document)
    requires job.Valid() && job.Builds() && IsOutput(job, built) && InputsWritable(job)
    requires DigestsText(NAMES, sha, job.digest) && Writable(NAMES, Obj(d)) && HeaderAccepted(CheckOf(job), d)
    requires Get(d, RequestSetSha256) == Get(built.requestSet, RequestSetSha256)
    requires Apart(sha, d, built.requestSet, RequestSetSha256)
    ensures d == built.requestSet
  {
    hide IsManifest;
    hide InputsAccepted;
    hide InputsWritable;
    hide Writable;
    hide DigestsText;
    hide Apart;
    hide SealMatches;
    hide HeaderAccepted;
    hide FilesOf;
    hide Job.Set;
    hide Job.Planned;
    HeaderBuilt(job);
    HeaderSealed(CheckOf(job), d);
    HeaderSealed(CheckOf(job), built.requestSet);
    SealIsText(job.digest, d, RequestSetSha256);
    SealIsText(job.digest, built.requestSet, RequestSetSha256);
    BuiltSetWritable(job);
    SealedAlike(job, sha, d, built.requestSet, RequestSetSha256);
  }

  /** The file of one planned contract. */
  lemma PlannedPinned(job: Job, built: Built, sha: Digest, files: map<Text, Data>, i: nat)
    requires job.Valid() && job.Builds() && IsOutput(job, built) && InputsWritable(job)
    requires DigestsText(NAMES, sha, job.digest) && NoneCollides(sha, built, built.requestSet, files)
    requires forall f :: f in files ==> Writable(NAMES, files[f])
    requires SetAccepted(CheckOf(job), built.requestSet, files) && i < |job.Planned()|
    ensures var f := FileName(job.Planned()[i].order, job.Planned()[i].name);
      f in files && f in built.files && files[f] == built.files[f]
  {
    hide IsManifest;
    hide IsEntry;
    hide InputsAccepted;
    hide InputsWritable;
    hide Writable;
    hide DigestsText;
    hide Apart;
    hide HeaderAccepted;
    hide FilesOf;
    hide LineAccepted;
    hide RequestAccepted;
    hide ClaimedProfile;
    hide FileName;
    hide KeysAllowed;
    hide Distinct;
    hide Lines;
    hide Line;
    hide Job.Set;
    hide Job.Request;
    hide Job.Profile;
    hide Job.Planned;
    var p := job.Planned()[i];
    SetProfile(job);
    ClaimedBuilt(job, built.requestSet);
    FileBuilt(job, built, i);
    LineAt(job, i);
    OrderFound(job.names, p.order);
    PlanWritable(job, i);
    FilePinned(job, p, sha, built.requestSet, files[FileName(p.order, p.name)].members);
  }

  /** Without a collision, the seal of a built request set pins everything the builder wrote: whatever texts
      the verifier accepts under that seal hold the built set and the built requests. */
  lemma SealPinsFiles(job: Job, built: Built, sha: Digest, t: OnDisk)
    requires job.Valid() && job.Builds() && IsOutput(job, built) && InputsWritable(job) && DigestsText(NAMES, sha, job.digest)
    requires NoSurrogates(t.requestSet) && forall f :: f in t.files ==> NoSurrogates(t.files[f])
    requires TextsAccepted(CheckOf(job), t)
    requires var d := LoadFile(t.requestSet).value.members;
      && Get(d, RequestSetSha256) == Get(built.requestSet, RequestSetSha256)
      && NoneCollides(sha, built, d, LoadAll(t.files))
    ensures LoadFile(t.requestSet) == Some(Obj(built.requestSet))
    ensures forall f :: f in built.files ==> f in t.files && LoadFile(t.files[f]) == Some(built.files[f])
  {
    hide IsManifest;
    hide InputsAccepted;
    hide InputsWritable;
    hide Writable;
    hide DigestsText;
    hide Apart;
    hide HeaderAccepted;
    hide ItemAccepted;
    hide ClaimedProfile;
    hide LoadFile;
    hide Job.Set;
    hide Job.Request;
    hide FileName;
    hide NoSurrogates;
    var d, files := LoadFile(t.requestSet).value.members, LoadAll(t.files);
    FileWritable(t.requestSet);
    SetPinned(job, built, sha, d);
    forall f | f in files ensures Writable(NAMES, files[f]) {
      FileWritable(t.files[f]);
    }
    forall f | f in built.files ensures f in t.files && LoadFile(t.files[f]) == Some(built.files[f]) {
      var i :| 0 <= i < |job.Planned()| && f == FileName(job.Planned()[i].order, job.Planned()[i].name);
      PlannedPinned(job, built, sha, files, i);
    }
  }
}
