# Verified model of the Prometheus evidence and release gates

The Prometheus repository guards its releases and its controlled runs with programs that
refuse anything they cannot account for: canonical endpoint statements, execution
attestations, atomically published records, deploy requests bound by hashes to a release
manifest, a handoff package and its audit, and parsers for lock files and style sheets.
This project models those programs in Dafny and proves what each of them is for, over all
inputs, all interleavings of failures and all runs.

The main results:

- **JSON.** The loader and the writer are modelled to the character and held against a grammar
  given apart from both: `JsonGrammar.LoadsExactly` says that a text loads as a value exactly when
  it spells a syntax tree that means it, `JsonLayout.PrintExactly` which tree is written.
- **Canonical statements.** `EndpointObservation.ParseCanonicalExact` says that a
  byte string parses exactly when it is the canonical print of a valid statement for the
  trusted network, and `EndpointWire.AcceptedWires` lists what such bytes hold, signal by signal;
  `EndpointObservation.Run` covers every sequence of parses, tamperings and reads.
- **Canonical JSON and seals.** A parser inverts the sorted compact printer on every value, so
  a sealed document verifies exactly when the builder could have sealed it, and an accepted
  canary summary determines its receipts and evidence unless the hash collides on them.
- **Publishing.** A directory with volatile and durable content, a crash view and a possible
  fault at every call: publishing succeeds exactly when the target was free and no call fails, the
  published path is never a partial file at any step, an entry that was there before is never
  touched, success leaves one complete single-link file, failure restores the directory.
- **Producer against verifier.** The two-host evidence verifier accepts exactly the texts of records
  the operator tool can build, the published ones included. The deploy-request verifier, reading the text of the files the request builder
  wrote, accepts them exactly when no selected manifest entry holds a secret-like key, and unless the
  hash collides, one request-set seal pins every file of the set.
- **Release audit.** A ready verdict rests on operator-record receipts of the full profile that
  cover the whole manifest; for every package the builder makes, the audit's verdict is
  characterized exactly.
- **Accepted documents.** For every gate there is a specification in literal terms that shares no
  predicate with the checks, and a theorem that the checks accept exactly what it describes: the
  two-host record (with the order of timestamps proved to be the order of time), deployment profiles,
  deploy requests, receipts and their evidence, the ready handoff, the canary closeout, and compiled
  artifacts against their expectation.
- **Parsers.** The Python lock parser reports nothing exactly on the files of a grammar whose lines are
  spelled out, the Cargo.lock check reports exactly the errors listed over the packages and none exactly
  on one pinned source graph, and the style-sheet scanner returns exactly the top-level rules of a printed sheet.

Six behaviours of the code are worth knowing; each is stated as a theorem:

- A handoff package with a verified oracle transaction result but no public evidence for it
  is reported as blocked by its builder, and the audit then gives no verdict: it stops on the
  missing evidence files (`ReleaseHandoff.UnevidencedResultIsRefused`).
- The deploy-request builder checks only constructor arguments for secret-like keys, while the
  verifier checks the whole request, so the ABI, the state layout and the compiler version of a
  manifest entry decide whether a built set is accepted (`DeployRequestVerification.BuiltSetVerifies`).
  One more key in a state layout never stops the builder, and makes the verifier refuse exactly when
  the key is secret-like and not accepts_private_keys (`DeployRequestVerification.LayoutKeyDecides`).
- The Cargo.lock check accepts a direct Kaspa dependency that is locked a second time from the
  SilverScript URL, under every policy with two different URLs (`CargoLock.LockedTwiceYetClean`, with
  the exact condition in `CargoLock.DirectLockedOnce`).
- The receipt boundary started with one path for its socket and its receipt passes both path checks,
  binds the socket there and can then never publish the receipt, so it never acknowledges anything
  (`Boundary.Run`, `Boundary.RunOnOnePath`).
- A publishing target that mkstemp may draw as its own temporary name can be seen half written
  (`Publishing.TargetMayBeDrawn`, exactly those targets); every other target is safe.
- `json.dumps` maps an adjacent surrogate pair and the character it encodes to the same text
  (`JsonStrings.PairCollides`); on decoded values, which hold no such pair, printing is injective.

Conventions. A Python `str` is a sequence of code points and `bytes` a sequence of octets. A
decoded dict is a map, and Python's `==` on decoded JSON, where `True` equals `1`, is `PyEqual`.
SHA-256 is an abstract function; where freedom from collisions is needed it is assumed for
the documents at hand and nothing else. Documents of the release pipeline have interned keys: the
names the programs use are constructors, every other name is `Other`; `Interning` and `ReleaseNames`
carry them to JSON text and back. A function that raises in the source returns `None`, a failure
value or a `Refused` verdict here.

## Model

| member | source | states |
|---|---|---|
| JsonStrings.ScanEscaped | scripts/silverc_deployment_profiles.py:21-22 | scanning an escaped string reads it back up to the joining of surrogate pairs, with or without ASCII escapes |
| JsonStrings.EscapeInjectiveUpToJoin | scripts/silverc_deployment_profiles.py:21-22 | equal escapes come from strings that are equal once adjacent surrogates are joined |
| JsonStrings.PairCollides | scripts/silverc_deployment_profiles.py:21-22 | an adjacent surrogate pair and the character it encodes are different strings with one escaped text |
| JsonStrings.ScannedHasNoPair | modules/guardian-node/jaeger/endpoint_observation.py:119-123 | a string decoded from text without surrogates holds no adjacent surrogate pair |
| JsonText.LoadsDumps | scripts/verify_silverc_deploy_requests.py:369-374 | whatever a document prints to, compact or indented, ASCII or not, with whitespace around it, loads back as the document |
| JsonText.DumpsInjective | scripts/silverc_deployment_profiles.py:21-22 | equal prints in one style come from equal documents |
| JsonText.LoadedRoundTrip | scripts/silverc_deployment_profiles.py:21-22 | everything the loader returns can be printed and reloaded unchanged |
| JsonText.RejectDuplicateKeys | modules/guardian-node/jaeger/endpoint_observation.py:248-254 | the pairs hook succeeds exactly when the keys are distinct, and then holds every pair |
| JsonGrammar.LoadsExactly | scripts/verify_h001_canary_closeout_evidence.py:38-42 | a text loads as a value exactly when, between white space, it spells a syntax tree with that meaning: literals, numbers without leading zeros, strings with every escape, arrays and objects with white space anywhere allowed |
| JsonGrammar.MeaningUnique | scripts/verify_h001_canary_closeout_evidence.py:38-42 | however a text is taken apart by the grammar, it means one value |
| JsonLayout.PrintExactly | scripts/silverc_deployment_profiles.py:21-22 | what is written is one given tree: which characters are escaped and how, two spaces a level in the indented form, no white space in the compact one |
| CanonicalJson.CanonicalInverse | scripts/silverc_deployment_profiles.py:21-22 | parsing canonical text returns the value, with sorted keys and no key twice |
| Texts.BeforeExactly | scripts/silverc_deployment_profiles.py:21-22 | the order keys are sorted in: one text is before another exactly when at the first place they differ it ends or has the smaller code point |
| CanonicalJson.CanonicalInjective | scripts/silverc_deployment_profiles.py:21-26 | two values have one canonical text exactly when they are equal |
| CanonicalJson.CanonicalDecidesLoadedEquality | scripts/verify_h001_canary_closeout_evidence.py:38-47 | two files hold the same value exactly when their canonical texts agree, whatever their whitespace, order, escapes and repeated keys |
| CanonicalJson.WrittenFileLoads | scripts/build_silverc_deploy_requests.py:107-109 | a file written with indentation, sorted keys and a final newline loads as the value written |
| CanonicalJson.SealVerifiesExactlySealed | scripts/verify_silverc_deploy_requests.py:130-151 | a self-hashed document verifies exactly when it is some body with the digest of that body added, whatever names its keys have |
| CanonicalJson.SealDetermines | scripts/verify_silverc_deploy_requests.py:130-151 | without a collision, two documents that verify under one seal are the same document |
| CanonicalJson.KeysAllowedMissesNothing | scripts/verify_silverc_deploy_requests.py:65-74 | the recursive key filter passes exactly when no path of keys and indices reaches an objectionable member |
| CanonicalJson.PyEqualExactly | scripts/verify_h001_canary_closeout_evidence.py:62-64 | two decoded values compare equal exactly when they are equal with 1 for True and 0 for False at every depth |
| CanaryCloseout.SummaryDetermines | scripts/verify_h001_canary_closeout_evidence.py:67-178 | without a collision, an accepted summary determines its receipts and its evidence |
| CanaryCloseout.EvidenceDeterminesReceipts | scripts/verify_h001_canary_closeout_evidence.py:106-115 | accepted evidence alone determines the receipts |
| CloseoutContents.AcceptedExactly | scripts/verify_h001_canary_closeout_evidence.py:67-178 | three documents without nonpublic fields pass exactly when the values at the listed places are the listed words, numbers and digests and the transaction, block, instance, profile and network agree across them |
| EndpointObservation.ParseCanonicalExact | modules/guardian-node/jaeger/endpoint_observation.py:107-187 | parsing returns a statement exactly when it is valid, has the trusted network and the bytes are its canonical print |
| EndpointWire.AcceptedWires | modules/guardian-node/jaeger/endpoint_observation.py:66-187 | bytes are accepted exactly when they are the compact print of eight members in order whose domain and signal stand in one row of a table of fifteen, whose numbers are in range and whose network is the trusted one |
| EndpointWire.DigestLayout | modules/guardian-node/jaeger/endpoint_observation.py:217-224 | for accepted bytes the hashed bytes are the domain, a zero byte, their length in four bytes and the bytes themselves |
| Utf8Text.DecodeExactly | modules/guardian-node/jaeger/endpoint_observation.py:121-126 | bytes decode to a text exactly when they are its UTF-8 encoding and it holds no surrogate |
| EndpointObservation.ParsePrinted | modules/guardian-node/jaeger/endpoint_observation.py:107-215 | printing then parsing returns the statement |
| EndpointObservation.ParseObjectExact | modules/guardian-node/jaeger/endpoint_observation.py:136-187 | the strict field checks accept exactly the decoded object of a valid statement |
| EndpointObservation.StatementBytesInjective | modules/guardian-node/jaeger/endpoint_observation.py:189-215 | the canonical bytes determine the statement |
| EndpointObservation.PaddedIsRejected | modules/guardian-node/jaeger/endpoint_observation.py:107-134 | padded text decodes to the same payload and is still refused by the byte comparison |
| EndpointObservation.StatementTextBound | modules/guardian-node/jaeger/endpoint_observation.py:189-215 | every valid statement prints to at most 330 ASCII characters, so the 512-byte guard never refuses one |
| EndpointObservation.DigestPreimageInjective | modules/guardian-node/jaeger/endpoint_observation.py:217-224 | the digest preimage determines every field |
| EndpointObservation.ValidateState | modules/guardian-node/jaeger/endpoint_observation.py:226-246 | the recheck passes exactly for the attributes of a valid statement |
| EndpointObservation.Registry.CanonicalBytes | modules/guardian-node/jaeger/endpoint_observation.py:189-215 | only the bytes recorded at parse time or a failure; an object never parsed fails; an issued object succeeds exactly while untampered |
| EndpointObservation.Registry.ParseCanonicalBytes | modules/guardian-node/jaeger/endpoint_observation.py:107-134 | an object is handed out exactly when the bytes parse, registered under those bytes; earlier records stay |
| EndpointObservation.Run | modules/guardian-node/jaeger/endpoint_observation.py:107-246 | in every run of parses, overwrites and reads, each read returns the wire its object was parsed from exactly while the attributes are those parsed, and fails otherwise |
| EndpointObservation.ReadsReturnParsedWires | modules/guardian-node/jaeger/endpoint_observation.py:107-246 | in every run, every byte string a read returns is the wire of a successful parse |
| AttestationFraming.BuildFrame | scripts/gh229_execution_attestation.py:236-256 | the byte loop builds the length-prefixed framing of the fields, and fails exactly when a field exceeds 255 bytes |
| AttestationFraming.V1Injective | scripts/gh229_execution_attestation.py:236-256 | the five-field preimage determines all its fields, for fields of at most 255 bytes |
| AttestationFraming.V2Injective | scripts/gh238_v2_execution_evidence.py:356-397 | the eleven-field preimage determines all its fields, for fields of at most 255 bytes |
| AttestationFraming.DomainsSeparate | scripts/gh238_v2_execution_evidence.py:356-397 | no version-one preimage equals any version-two preimage |
| AttestationFraming.V1Layout | scripts/gh229_execution_attestation.py:236-256 | the version-one preimage is its domain, two bytes and the five fields in order, each after its length |
| AttestationFraming.V2Layout | scripts/gh238_v2_execution_evidence.py:356-397 | the version-two preimage is its domain, two bytes and the eleven fields in order, each after its length |
| AttestationFraming.ScalarBytes | scripts/gh238_v2_execution_evidence.py:356-397 | counts are framed in decimal and flags as true and false |
| EvidenceStreams.Connection.RecvExact | scripts/development_threat_hint_v1_boundary.py:94-106 | for every way the stream may be split, exactly the next count bytes or a failure |
| EvidenceStreams.Connection.ReadFrame | scripts/development_threat_hint_v1_boundary.py:109-123 | for every way the stream is split, returns p only when the whole stream up to its end is the big-endian length of p followed by p, with 1 to 2048 bytes; the framing failure only when it is no frame; timeouts and errors only when a receive had one |
| EvidenceStreams.FrameUnique | scripts/development_threat_hint_v1_boundary.py:109-123 | a stream is the frame of at most one payload |
| EvidenceStreams.FrameExactly | scripts/development_threat_hint_v1_boundary.py:109-123 | a frame is four bytes of length, high byte first, and a payload of 1 to 2048 bytes |
| EvidenceStreams.GatesExactly | scripts/gh238_v2_execution_evidence.py:232-312 | by octal permission digits: a challenge file is 600, a payload file has nothing for group and others, both regular, owned, single-link and of their sizes |
| EvidenceStreams.Descriptor.StreamDigest | scripts/gh238_v2_execution_evidence.py:315-353 | for every short-read schedule no zero-length read is asked for, at most size + 1 bytes are read, and the result is the hash of exactly the observed size under an unchanged snapshot |
| EvidenceStreams.Descriptor.ReadChallenge | scripts/gh238_v2_execution_evidence.py:232-266 | returns only the 32 bytes of an owner-only file that did not change, and refuses a file with exactly 32 bytes and good metadata only when the metadata moved |
| EvidenceStreams.HashPayload | scripts/gh238_v2_execution_evidence.py:295-312 | returns only the digest of an acceptable payload file's whole content |
| Publishing.FileSystem.Publish | scripts/gh238_v2_execution_evidence.py:618-707 | for every target mkstemp cannot draw, with a fault possible at every call and a crash at every step: succeeds exactly when the target was free and no call fails; success leaves one complete, synced, single-link file and no temporary name; failure after the inode was recorded restores the directory unless a cleanup call fails too; at every step a new target is complete or absent and every earlier entry and file, an existing target included, is untouched |
| Publishing.TargetMayBeDrawn | scripts/gh238_v2_execution_evidence.py:635-637 | the first call can leave a partial file under the target exactly when the target is free and has the form of a name mkstemp draws |
| Publishing.FileSystem.WriteRecord | scripts/gh238_v2_execution_evidence.py:618-707 | the same for records, with an existing target or unsuitable parent refused untouched and the directory synced on success |
| Publishing.FileSystem.WriteReceipt | scripts/development_threat_hint_v1_boundary.py:136-211 | the same for receipts, without the directory sync; an existing target is refused by the link and left alone at every step |
| Publishing.FileSystem.RemoveIfOurs | scripts/gh238_v2_execution_evidence.py:693-707 | cleanup unlinks a name only while it still leads to the recorded inode, fails only on a fault, and keeps every intermediate state safe |
| Boundary.AckIsCanonicalJson | scripts/development_threat_hint_v1_boundary.py:126-133 | the formatted acknowledgement is the canonical JSON print of its document |
| Boundary.ReceiptReadsBack | scripts/development_threat_hint_v1_boundary.py:136-150 | the receipt's bytes load back as the receipt document |
| BoundaryTexts.AckSays | scripts/development_threat_hint_v1_boundary.py:126-133 | the acknowledgement character by character: the digest when rejected, none when busy, version 1 and the status word |
| BoundaryTexts.ReceiptSays | scripts/development_threat_hint_v1_boundary.py:136-150 | the receipt file character by character: five members in order with the status word, the digest and the payload length |
| Boundary.Run | scripts/development_threat_hint_v1_boundary.py:231-274 | acknowledgement bytes leave only when the stream was one frame with the expected digest and the complete receipt for that payload and status is published; they are a prefix of the one acknowledgement for it; absent faults that point is reached exactly when moreover both paths were free and different and a peer came; no earlier entry is touched, and absent faults only the receipt is left |
| Boundary.RunOnOnePath | scripts/development_threat_hint_v1_boundary.py:231-274 | with one path for socket and receipt nothing is acknowledged, and absent faults the directory is as before |
| Boundary.Listen | scripts/development_threat_hint_v1_boundary.py:238-257 | the socket is there with its identity recorded exactly when the name was free and no call fails; a taken name stays as it was |
| Boundary.CleanupSocket | scripts/development_threat_hint_v1_boundary.py:214-228 | only the socket name is removed, and only while it leads to the recorded socket |
| RedactionPolicy.CalmPasses | scripts/verify_gh238_v2_multihost_evidence.py:133-154 | a text without a telling letter pair, three dots, colons or path marks passes every redaction rule |
| RedactionContents.RefusedExactly | scripts/verify_gh238_v2_multihost_evidence.py:133-154 | an ASCII text is refused exactly when it holds one of twenty fragments in any letter case, four dotted numbers, two groups with colons outside a timestamp, or looks like a path and is not the protocol |
| RedactionPolicy.HexIsCalm | scripts/verify_gh238_v2_multihost_evidence.py:22-23 | lower-case hexadecimal never trips the filter |
| RedactionPolicy.TimestampIsCalm | scripts/verify_gh238_v2_multihost_evidence.py:24-26 | no timestamp of the grammar trips the filter |
| RedactionPolicy.ToolchainIsCalm | scripts/verify_gh238_v2_multihost_evidence.py:28-30 | no toolchain string of the grammar trips the filter |
| MultihostEvidence.SchemaImpliesRedaction | scripts/verify_gh238_v2_multihost_evidence.py:133-249 | the redaction walk objects to no record that meets the rest of the schema |
| MultihostEvidence.BuiltIsAccepted | scripts/gh238_v2_execution_evidence.py:452-615 | every record built from accepted attestations passes the verifier |
| MultihostEvidence.AcceptedIsBuilt | scripts/verify_gh238_v2_multihost_evidence.py:157-249 | every schema-valid record is built from explicit accepted attestations and a toolchain |
| MultihostEvidence.VerifierMatchesProducer | scripts/verify_gh238_v2_multihost_evidence.py:157-249 | the verifier accepts exactly the image of the record builder |
| MultihostEvidence.RecordDeterminesAttestations | scripts/gh238_v2_execution_evidence.py:537-615 | a record comes from only one pair of attestations and one toolchain |
| Calendar.DaysInExactly | scripts/gh238_v2_execution_evidence.py:523-534 | a month has as many days as lie between its first day and the next month's, counted from day to day |
| Calendar.TextOrderIsTimeOrder | scripts/gh238_v2_execution_evidence.py:523-534 | of two timestamps of real moments, one text is before the other exactly when its moment is earlier |
| Calendar.ObservationExactly | scripts/gh238_v2_execution_evidence.py:523-534 | an observation time is accepted exactly when it is the timestamp of a real moment and not before 2026-08-30T00:00:00Z |
| RecordContents.AcceptedRecordsExactly | scripts/verify_gh238_v2_multihost_evidence.py:157-249 | a record passes exactly when it has the listed members with the listed words, two different artifact and attestation digests, a toolchain of the grammar and such a time |
| RecordContents.BuiltCopies | scripts/gh238_v2_execution_evidence.py:537-615 | value by value, which attestation a built record takes it from and which values the two attestations share |
| RecordContents.LaterRecordAccepted | scripts/verify_gh238_v2_multihost_evidence.py:176-183 | an accepted record with any later real timestamp in place of its own is accepted |
| RecordContents.AcceptedAttestationsExactly | scripts/gh238_v2_execution_evidence.py:452-520 | an attestation is accepted exactly when its twelve members say what is listed for its role |
| RecordNames.NameIsProper | scripts/gh238_v2_execution_evidence.py:571-615 | every key name of the record and the attestations is written as the programs spell it and read back as itself |
| RecordFiles.AcceptedTextsExactly | scripts/verify_gh238_v2_multihost_evidence.py:252-261 | a text passes exactly when it is JSON, in any layout and without a repeated key, for a record the tool builds from accepted attestations |
| RecordFiles.PublishedRecordVerifies | scripts/gh238_v2_execution_evidence.py:618-707 | the text written for a built record is ASCII, and a published file with that content passes the verifier |
| DeploymentProfiles.OrderMismatchExactly | scripts/silverc_deployment_profiles.py:55-71 | the manifest-order error is raised exactly for a matching canary profile over a manifest that lists the canary contract twice or more |
| DeploymentProfiles.OrderMismatchUnreachable | scripts/silverc_deployment_profiles.py:55-71 | with distinct contract names it is never raised |
| DeploymentProfiles.ProfileAcceptedExactly | scripts/silverc_deployment_profiles.py:29-71 | a profile document passes exactly when it equals the one expected for some selectable profile |
| DeploymentProfiles.AcceptedProfileSays | scripts/silverc_deployment_profiles.py:29-71 | a profile document passes exactly when it says full and operator-selected with all contracts in order, or canary and testnet-10 with H-001 alone, and in both cases the manifest's count and digest |
| DeploymentProfiles.ProfilePinsManifest | scripts/silverc_deployment_profiles.py:29-52 | without a collision, one profile document is accepted under one manifest only |
| DeployRequests.FileNamesDiffer | scripts/build_silverc_deploy_requests.py:263 | request files of different orders have different names |
| DeployRequests.Build | scripts/build_silverc_deploy_requests.py:234-302 | succeeds exactly when the inputs, the profile and every selected contract's arguments are acceptable, and then writes one sealed request per selected contract under its own name and the sealed set listing them in order |
| BuilderContents.BuildsExactly | scripts/build_silverc_deploy_requests.py:234-302 | the builder ends exactly for an allowed RPC URL and deployer address, the network, resolver and key its profile asks for, and constructor arguments of every selected contract without a secret-like key at any depth |
| BuilderContents.BuiltSays | scripts/build_silverc_deploy_requests.py:126-302 | the set and every selected contract's file repeat the operator's network, URL, address and key; the set carries the blocker, with the notice for a canary only, the files the requirements in order |
| DeployRequestVerification.Validate | scripts/verify_silverc_deploy_requests.py:258-366 | accepts exactly when the header and every zipped line, file and manifest entry pass, and summarizes them in order |
| RequestContents.AcceptedSetsExactly | scripts/verify_silverc_deploy_requests.py:154-366 | a set and its files are accepted exactly when every value in the set, its lines and its requests is what the manifest entry, the profile and the listed words say, so a resealed request with another hash is refused |
| DeployRequestVerification.RequestBuilt | scripts/verify_silverc_deploy_requests.py:154-255 | a built request passes the per-file checks exactly when its manifest entry holds no secret-like key |
| DeployRequestVerification.HeaderBuilt | scripts/verify_silverc_deploy_requests.py:258-308 | a built set passes every check before the loop |
| DeployRequestVerification.BuiltSetVerifies | scripts/verify_silverc_deploy_requests.py:195-366 | a built set is accepted exactly when no selected entry holds a secret-like key, with the same order, names, files and hashes line by line |
| DeployRequestVerification.LayoutKeyDecides | scripts/verify_silverc_deploy_requests.py:65-74 | for every job that builds and every key text, the key in the state layout of a selected contract leaves it building; the result is refused if the key is secret-like and not accepts_private_keys, and of an acceptable set only then |
| DeployRequestVerification.CanaryBuilds | scripts/build_silverc_deploy_requests.py:234-302 | every manifest validate_manifest lets through gives a canary that builds, for acceptable inputs |
| DeployRequestVerification.CanaryWithSecretLayout | scripts/build_silverc_deploy_requests.py:75-84 | a manifest of the seven release contracts whose canary, with a refused key in the layout, is built and refused |
| DeployRequestVerification.SeedPhraseIsRefused | scripts/verify_silverc_deploy_requests.py:34-35 | seed_phrase is such a key |
| SecretNames.NamedSecret | scripts/verify_silverc_deploy_requests.py:34-35 | of the names the release programs use, the secret-like pattern matches accepts_private_keys and no other |
| ForbiddenKeys.SecretExactly | scripts/verify_silverc_deploy_requests.py:34-35 | the secret-like pattern matches exactly the keys that spell one of nine words, letter case and the four folding characters aside |
| ForbiddenKeys.ForbiddenExactly | scripts/audit_silverc_release_readiness.py:118-129 | the audit refuses a key exactly when it spells such a word or a raw, signed or serialized transaction and is not the flag excepted for that |
| ReleaseNames.NameIsProper | scripts/build_silverc_deploy_requests.py:126-176 | every key name of the release documents is written as the programs spell it and read back as itself, so no two names share a spelling |
| Interning.FileLoads | scripts/build_silverc_deploy_requests.py:107-109 | an interned document written to a file loads back as the same interned document |
| Interning.LoadedIsWritable | scripts/preflight_silverc_deploy.py:155-159 | whatever a file loads as can be written and hashed as text again |
| Interning.SealPins | scripts/verify_silverc_deploy_requests.py:130-151 | without a collision of their canonical texts, two interned documents that verify under one seal are the same document |
| RequestFiles.WrittenSetVerifies | scripts/verify_silverc_deploy_requests.py:195-366 | the verifier, loading the text the builder wrote, accepts it exactly when no selected manifest entry holds a secret-like key |
| RequestFiles.SealPinsFiles | scripts/verify_silverc_deploy_requests.py:130-366 | without a collision, any texts the verifier accepts under the seal of a built set load as that set and its requests, file by file |
| ReleaseReceipts.ValidateReceipts | scripts/verify_silverc_deploy_receipts.py:112-260 | accepts exactly when every receipt matches the manifest entry of its name, no contract occurs twice and the names are the selected ones in order; the summary has one normalized line per receipt |
| ReleaseReceipts.ValidateEvidence | scripts/verify_silverc_deploy_receipt_evidence.py:109-227 | accepts exactly when the header binds the receipts and every observation matches its receipt line with at least its confirmations |
| ReleaseReceipts.AcceptedEvidenceRepeats | scripts/verify_silverc_deploy_receipt_evidence.py:109-227 | for accepted receipts the observations pass exactly when each repeats its receipt's name, instance, transaction id, block hash and score, the two hashes up to letter case and 0x, with no fewer confirmations |
| ReceiptContents.AcceptedReceiptsExactly | scripts/verify_silverc_deploy_receipts.py:112-260 | receipts are accepted exactly when the document and every receipt say what is listed for the manifest entry in its place |
| ReceiptContents.AcceptedEvidenceExactly | scripts/verify_silverc_deploy_receipt_evidence.py:109-227 | evidence for accepted receipts is accepted exactly when its header says what is listed and every receipt is repeated |
| ReleaseReceipts.FullReceiptsCover | scripts/verify_silverc_deploy_receipts.py:112-260 | accepted receipts that are not the canary's cover every manifest contract in order with its hashes and at least one confirmation |
| ReleaseReceipts.CanaryReceiptsCoverOne | scripts/verify_silverc_deploy_receipts.py:144-169 | accepted canary receipts are for the one canary contract |
| AuditKeys.KeyIsAllowed | scripts/audit_silverc_release_readiness.py:118-129 | no key spelled from the vocabulary of the release tools, the genesis profile of the operator procedure included, is refused by either pattern |
| ReleaseHandoff.RequiredFiles | scripts/audit_silverc_release_readiness.py:179-195 | a file is required exactly when it is basic or its component's status asks for it |
| ReleaseHandoff.Audit | scripts/audit_silverc_release_readiness.py:361-398 | refuses exactly the unacceptable packages and says ready exactly for acceptable ones with every ready status |
| ReleaseHandoff.ReadyExactly | scripts/audit_silverc_release_readiness.py:361-398 | for any package the verdict is ready exactly when the listed files are there with the listed statuses and safety flags, the summary repeats them, and nothing is blocked |
| HandoffContents.AcceptableExactly | scripts/audit_silverc_release_readiness.py:361-398 | the audit gives a verdict exactly when the summary is safe and lists the files that are there, is blocked with blockers or ready with none, and every file passes what is listed for it |
| ReleaseHandoff.StatusFromComponents | scripts/build_silverc_operator_handoff.py:499-527 | lists exactly the blockers the components call for, and says ready exactly when there is none |
| ReleaseHandoff.BuildHandoff | scripts/build_silverc_operator_handoff.py:602-781 | ends exactly when every tool it runs succeeds and evidence comes with its subject; the package lists exactly the files of those tools |
| HandoffContents.FilesExactly | scripts/build_silverc_operator_handoff.py:602-781 | file by file, when a built package holds it |
| HandoffContents.SummaryExactly | scripts/build_silverc_operator_handoff.py:602-781 | status by status, what the summary of a built package reports and which word stands for a missing input |
| ReleaseHandoff.AuditOfBuilt | scripts/audit_silverc_release_readiness.py:179-398 | for packages whose audited files hold the keys the tools write, the audit refuses exactly when a transaction result came without evidence, and says ready exactly when the builder did and the receipts are full-profile |
| ReleaseHandoff.BuildReadyPackage | scripts/build_silverc_operator_handoff.py:602-781 | a package with every optional input and every key of the tables is built and audited as ready |
| ReleaseHandoff.UnevidencedResultIsRefused | scripts/audit_silverc_release_readiness.py:67-75 | with a transaction result and no evidence for it the builder says blocked and the audit gives no verdict |
| ReleaseHandoff.ReadyRestsOnFullReceipts | scripts/audit_silverc_release_readiness.py:385-398 | a ready verdict rests on operator-record, full-profile receipts covering the manifest, and on evidence that repeats every receipt's instance, transaction id, block hash and score with no fewer confirmations, at least one |
| PythonLock.NormalizeIdempotent | scripts/verify_guardian_python_deps.py:46-48 | normalizing a name twice is normalizing it once |
| PythonLock.ParseEntryExactly | scripts/verify_guardian_python_deps.py:29-35 | the entry pattern matches exactly the texts name==version with an optional marker and a continuation, and reads that pin |
| PythonLock.ParseHashExactly | scripts/verify_guardian_python_deps.py:36 | the hash pattern matches exactly a digest with or without a continuation |
| LockLines.VersionExactly | scripts/verify_guardian_python_deps.py:30 | the greedy matcher accepts exactly the texts that come apart in some way into a dotted number and a, b, rc, .post and .dev segments |
| LockLines.EntryLineExactly | scripts/verify_guardian_python_deps.py:29-35 | a line is an entry with its pin exactly when it starts in the first column with name==version, an optional marker and a backslash |
| LockLines.HashLineExactly | scripts/verify_guardian_python_deps.py:112-120 | a line counts as a hash, continued or last, exactly when it is four spaces, perhaps more white space, the digest and the backslash that decides |
| LockLines.FillerExactly | scripts/verify_guardian_python_deps.py:121-122 | a line is skipped exactly when it is white space or white space and a comment |
| LockLines.NormalizeExactly | scripts/verify_guardian_python_deps.py:46-48 | a name is recorded as its words in lower case with one dash for every run of separators |
| LockLines.NameComesApart | scripts/verify_guardian_python_deps.py:46-48 | every text comes apart into such words and runs |
| PythonLock.ParseLock | scripts/verify_guardian_python_deps.py:93-142 | the line loop ends in the state of the step-by-step specification |
| PythonLock.NoErrorsExactly | scripts/verify_guardian_python_deps.py:93-142 | no errors exactly when the header is there and the lines are filler and blocks of an entry with one or more hash lines, normalized names distinct |
| PythonLock.LockParses | scripts/verify_guardian_python_deps.py:93-142 | on such a file the entries are one per block, with its version and the number of hash lines before the next entry |
| PythonLock.EntryOfBlock | scripts/verify_guardian_python_deps.py:103-108 | every block is found under its name with at least one hash |
| PythonLock.NoHashNeverAlone | scripts/verify_guardian_python_deps.py:103-141 | the missing-hash error occurs only together with an expected-hash or truncation error |
| PythonLock.PrintedLockParses | scripts/verify_guardian_python_deps.py:93-142 | a printed lock parses to exactly its entries with no errors |
| CargoLock.SourceTextParses | scripts/verify_toolchain_pins.py:184-191 | a source string is split into the parts it was put together from, for any URL splitter |
| CargoLock.PolicySourcesParse | scripts/verify_toolchain_pins.py:67-74 | the two source strings of an accepted policy are taken apart into its URL, its tag or revision and its commit |
| CargoLock.CheckLock | scripts/verify_toolchain_pins.py:330-409 | the reported errors are exactly those that the packages and the counts call for |
| CargoReport.ReportsExactly | scripts/verify_toolchain_pins.py:330-409 | an error is reported exactly when a package of that name and version, or the number of positions that hold one, calls for it, with the value found and the policy value it differs from |
| CargoReport.SourceExactly | scripts/verify_toolchain_pins.py:184-191 | a source is read as URL, query and commit exactly when it is git+ and a base with those parts, the commit after the first hash sign |
| CargoLock.CleanExactly | scripts/verify_toolchain_pins.py:330-409 | no errors exactly when all Kaspa packages share one source string with the policy URL, tag and commit, no name repeats, every direct dependency is there once and SilverScript once |
| CargoLock.ErrorsIgnoreOrder | scripts/verify_toolchain_pins.py:330-409 | reordering the packages does not change the set of errors |
| CargoLock.DirectLockedOnce | scripts/verify_toolchain_pins.py:343-373 | in a clean lock a direct dependency occurs once in all exactly when no package of its name comes from the SilverScript URL |
| CargoLock.LockedTwiceYetClean | scripts/verify_toolchain_pins.py:343-373 | for every policy the parser accepts with two different URLs and every direct dependency in it, a clean lock that holds that dependency twice |
| CargoLock.PinsAccepted | scripts/verify_toolchain_pins.py:117-181 | the pinned URLs, tag and commits are such a policy |
| SiteCss.TopLevelRules | scripts/verify_site_css.py:54-83 | the index loop returns the rules of the suffix-by-suffix specification, on every input |
| SiteCss.CloseOf | scripts/verify_site_css.py:62-72 | the depth loop stops at the brace that closes the block, or past the end |
| SiteCss.ScanPrinted | scripts/verify_site_css.py:54-83 | on any printed mix of rules and balanced @-blocks, exactly the rules in order |
| SiteCss.SheetRules | scripts/verify_site_css.py:54-83 | the same with comments put anywhere into the text, through the comment stripper |
| SiteCss.CheckDeclarations | scripts/verify_site_css.py:91-104 | a pair is reported with its count exactly when it is declared at least twice |
| SiteCss.RuleDeclares | scripts/verify_site_css.py:91-101 | a rule written as declarations with any white space declares exactly their property names, custom properties left out, under its selector |
| SiteCss.SelectorPrinted | scripts/verify_site_css.py:80-81 | a selector comes out as its words with single spaces, however they were laid out and whatever comments stood in it |
| SiteCss.TwiceExactly | scripts/verify_site_css.py:102-104 | the count is at least two exactly when two declarations name the pair |
| CompiledSemantics.ProjectBuilt | scripts/verify_silverc_compiled_semantics.py:89-121 | a manifest is reduced exactly when its schema, count and fields are there, entry by entry |
| CompiledSemantics.ValidateExpected | scripts/verify_silverc_compiled_semantics.py:124-161 | accepts exactly the expectations with the exact keys, well-kinded fields and distinct names |
| CompiledSemantics.Compare | scripts/verify_silverc_compiled_semantics.py:164-183 | reports exactly the differences, and raises exactly when a built contract name cannot be a dict key |
| CompiledSemantics.PassesExactly | scripts/verify_silverc_compiled_semantics.py:164-183 | no errors exactly when both commits are the pin and the fixture lists agree in order on the name and every gated field |
| CompiledSemantics.PassesOnDocuments | scripts/verify_silverc_compiled_semantics.py:89-183 | for a valid expectation and a manifest, no errors exactly when both commits are the pin and, entry by entry, name, ABI, compiler version, script length and hash and argument hash are the expected ones and the layout's digest is the expected digest |
| CompiledSemantics.FixtureExactly | scripts/verify_silverc_compiled_semantics.py:124-161 | a fixture of the expectation is valid exactly when it has the listed fields, each of the listed kind |
| CompiledSemantics.RegeneratedPasses | scripts/verify_silverc_compiled_semantics.py:211-224 | an expectation regenerated from a build passes against it at the same pin |
| CompiledSemantics.UnreadFieldsDoNotMatter | scripts/verify_silverc_compiled_semantics.py:89-121 | builds that differ only in fields the gate does not read are reduced alike |
| CompiledSemantics.PassingBuildsAgree | scripts/verify_silverc_compiled_semantics.py:164-183 | two manifests that pass against one expectation agree, entry by entry, on name, ABI, compiler version, script length, script and argument hash and the digest of the layout |

## Left out

- Publishing.FileSystem.WriteReceipt: assumes that a write of a non-empty buffer makes progress, because the receipt writer has no guard against a zero-length write (scripts/development_threat_hint_v1_boundary.py:168) and would otherwise loop.
- Publishing.FileSystem.Publish: takes a target that mkstemp cannot draw, since the promise fails for the others (Publishing.TargetMayBeDrawn); assumes that close succeeds and that nobody else writes to the owner-only directory.
- Boundary.Run: socket and receipt are names in one directory, a socket entry is an inode like any other, and whether a peer connects in time is an input.
- CargoLock.CheckLock: compares errors as a set, since the gate sorts the list and drops repetitions; urlsplit and parse_qsl are parameters there.
- CargoLock.PolicySourcesParse: the concrete splitter cuts at the question mark, the ampersands and the first equals sign; percent and plus decoding do not occur in the texts it is used on and are not modelled.
- RequestFiles.WrittenSetVerifies: takes inputs that have a text, that is a manifest decoded from a file and arguments without an adjacent surrogate pair, which is all a run can have.
- DeployRequests.Build: the fixed sentences of the documents are parameters, and the output directory starts empty, so removing an old one is not modelled.
- ReleaseHandoff.Audit: takes a handoff summary with every key present and of its expected kind; what a component file holds is reduced to its status, its safety flags, the set of its keys and the fields the audit compares.
- ReleaseHandoff.BuildHandoff: the tools it calls are parameters with what their sources promise (status, safety flags, blockers) stated in the predicate Sound.
- ReleaseHandoff.AuditOfBuilt: that the files the audit reads hold no other keys than the dict literals of the tools, collected in ToolKeys, is the premise KeysKnown; the two verdict theorems beside it do without.
- MultihostEvidence.BuildRecord: compares the shared fields structurally, where Python also equates 1 and True; the difference concerns only documents that the attestation checks refuse.
- SHA-256, str.casefold outside ASCII, the regexes for URLs, addresses, public identifiers and receipt timestamps, and the key filter of the canary closeout are abstract functions or predicates.
- That the hashes and lengths in a manifest are those of the artifact and source files is not modelled; they are strings of hexadecimal digits and positive numbers.
- Floats are carried by their spelling and never equal an int, so Python's 1 == 1.0 and 1.50 == 1.5 are absent from the JSON results and from CompiledSemantics.Compare; Python's limits on integer digits and on recursion depth are not modelled.
- Path canonicalization, ownership and mode checks of directories, timeouts and argument parsing are booleans or absent.
- Creating a challenge file writes in place under the final name; it is left out, as it promises less than publishing does.
- Decoding of attestation files as owner-only ASCII files repeats the read loop of ReadChallenge and is left out; the model starts from the decoded object.
- splitlines and the presence of the regenerate command in the lock text are inputs of the lock parser; parse_direct and the comparison of pins are simple lookups.
- The policy JSON, the manifest checks and the proof-identity constants of the toolchain gate are comparisons with fixed values.
- Luminance and contrast of the style-sheet gate are floating point; finding the style element in the page is a regex.
- The Silverscript contracts, the Rust client, git and cargo orchestration, YARA rules, signatures and proofs, and all Markdown writers are not part of this model.
