/**
  EndpointObservationStatementV1: a lenient JSON decode, strict validation and a
  byte-exact re-print that together accept only canonical bytes, and the registry that
  ties every parsed object to the bytes it was parsed from.
 */
module EndpointObservation {
  import opened Texts
  import opened JsonStrings
  import opened JsonText

  const MAX_BYTES := 512
  const U64_MAX := 0xFFFF_FFFF_FFFF_FFFF
  const DIGEST_DOMAIN: Bytes := U("prometheus-endpoint-observation-v1") + [0]

  // ----- the closed vocabularies -----

  datatype Domain = Process | File | Network | Persistence | CredentialAccess | ModelTool | ResourceUtilization

  datatype Signal =
    | UnexpectedChildProcess | RapidProcessSpawn
    | ProtectedFileChange | ExecutableFileChange
    | UnexpectedEgress | ConnectionFanout
    | StartupEntryChange | ScheduledTaskChange
    | CredentialStoreAccess | BulkSecretReadAttempt
    | PromptInjectionIndicator | ToolPolicyViolation | ModelRuntimeChange
    | SustainedComputeSaturation | AcceleratorUtilizationSpike

  function DomainName(d: Domain): string {
    match d
    case Process => "process"
    case File => "file"
    case Network => "network"
    case Persistence => "persistence"
    case CredentialAccess => "credential_access"
    case ModelTool => "model_tool"
    case ResourceUtilization => "resource_utilization"
  }

  function SignalName(s: Signal): string {
    match s
    case UnexpectedChildProcess => "unexpected_child_process"
    case RapidProcessSpawn => "rapid_process_spawn"
    case ProtectedFileChange => "protected_file_change"
    case ExecutableFileChange => "executable_file_change"
    case UnexpectedEgress => "unexpected_egress"
    case ConnectionFanout => "connection_fanout"
    case StartupEntryChange => "startup_entry_change"
    case ScheduledTaskChange => "scheduled_task_change"
    case CredentialStoreAccess => "credential_store_access"
    case BulkSecretReadAttempt => "bulk_secret_read_attempt"
    case PromptInjectionIndicator => "prompt_injection_indicator"
    case ToolPolicyViolation => "tool_policy_violation"
    case ModelRuntimeChange => "model_runtime_change"
    case SustainedComputeSaturation => "sustained_compute_saturation"
    case AcceleratorUtilizationSpike => "accelerator_utilization_spike"
  }

  function DomainOfSignal(s: Signal): Domain {
    match s
    case UnexpectedChildProcess | RapidProcessSpawn => Process
    case ProtectedFileChange | ExecutableFileChange => File
    case UnexpectedEgress | ConnectionFanout => Network
    case StartupEntryChange | ScheduledTaskChange => Persistence
    case CredentialStoreAccess | BulkSecretReadAttempt => CredentialAccess
    case PromptInjectionIndicator | ToolPolicyViolation | ModelRuntimeChange => ModelTool
    case SustainedComputeSaturation | AcceleratorUtilizationSpike => ResourceUtilization
  }

  lemma DomainNameInjective(a: Domain, b: Domain)
    requires DomainName(a) == DomainName(b)
    ensures a == b
  {
  }

  lemma SignalNameInjective(a: Signal, b: Signal)
    requires SignalName(a) == SignalName(b)
    ensures a == b
  {
  }

  const DOMAINS: seq<Domain> :=
    [Process, File, Network, Persistence, CredentialAccess, ModelTool, ResourceUtilization]

  const SIGNALS: seq<Signal> := [
    UnexpectedChildProcess, RapidProcessSpawn, ProtectedFileChange, ExecutableFileChange,
    UnexpectedEgress, ConnectionFanout, StartupEntryChange, ScheduledTaskChange,
    CredentialStoreAccess, BulkSecretReadAttempt, PromptInjectionIndicator, ToolPolicyViolation,
    ModelRuntimeChange, SustainedComputeSaturation, AcceleratorUtilizationSpike
  ]

  function DomainAmong(v: Node, ds: seq<Domain>): (d: Option<Domain>)
    ensures d.Some? ==> v == Str(U(DomainName(d.value)))
    ensures d.None? ==> forall x :: x in ds ==> v != Str(U(DomainName(x)))
  {
    if ds == [] then None
    else if v == Str(U(DomainName(ds[0]))) then Some(ds[0])
    else DomainAmong(v, ds[1..])
  }

  function SignalAmong(v: Node, ss: seq<Signal>): (s: Option<Signal>)
    ensures s.Some? ==> v == Str(U(SignalName(s.value)))
    ensures s.None? ==> forall x :: x in ss ==> v != Str(U(SignalName(x)))
  {
    if ss == [] then None
    else if v == Str(U(SignalName(ss[0]))) then Some(ss[0])
    else SignalAmong(v, ss[1..])
  }

  /** Enum lookup by value: the member with this value, if there is one. */
  lemma DomainLookup(v: Node, x: Domain)
    ensures v == Str(U(DomainName(x))) <==> DomainAmong(v, DOMAINS) == Some(x)
  {
    hide DomainName;
    hide U;
    hide DomainAmong;
    assert x in DOMAINS;
    if v == Str(U(DomainName(x))) && DomainAmong(v, DOMAINS).Some? {
      UInjective(DomainName(x), DomainName(DomainAmong(v, DOMAINS).value));
      DomainNameInjective(x, DomainAmong(v, DOMAINS).value);
    }
  }

  lemma SignalLookup(v: Node, x: Signal)
    ensures v == Str(U(SignalName(x))) <==> SignalAmong(v, SIGNALS) == Some(x)
  {
    hide SignalName;
    hide U;
    hide SignalAmong;
    assert x in SIGNALS;
    if v == Str(U(SignalName(x))) && SignalAmong(v, SIGNALS).Some? {
      UInjective(SignalName(x), SignalName(SignalAmong(v, SIGNALS).value));
      SignalNameInjective(x, SignalAmong(v, SIGNALS).value);
    }
  }

  // ----- scalar validators -----

  predicate ExactInt(v: Node) {
    v.Int? && 0 <= v.n <= U64_MAX
  }

  predicate NetworkEdge(c: int) {
    IsDigit(c) || 'a' as int <= c <= 'z' as int
  }

  predicate ValidNetwork(t: Text) {
    && 2 <= |t| <= 64 && NetworkEdge(t[0]) && NetworkEdge(t[|t| - 1])
    && forall i :: 0 <= i < |t| ==> NetworkEdge(t[i]) || t[i] == '-' as int
  }

  predicate AllowedWindow(n: int) {
    n == 60 || n == 300 || n == 900 || n == 3600
  }

  // ----- statements -----

  datatype Statement = Statement(
    schemaVersion: int, domain: Domain, signal: Signal, eventCount: int,
    windowSeconds: int, reportNonce: Text, observedAt: int, networkId: Text)

  predicate Valid(s: Statement) {
    && s.schemaVersion == 1
    && DomainOfSignal(s.signal) == s.domain
    && 1 <= s.eventCount <= 255
    && AllowedWindow(s.windowSeconds)
    && 1 <= s.observedAt <= U64_MAX && s.observedAt % 60 == 0
    && IsHexText(s.reportNonce, 64)
    && ValidNetwork(s.networkId)
  }

  const FIELD_NAMES: seq<string> := [
    "schema_version", "domain", "signal", "event_count",
    "window_seconds", "report_nonce", "observed_at", "network_id"
  ]

  function FieldValues(s: Statement): (vs: seq<Node>)
    ensures |vs| == 8
  {
    [ Int(s.schemaVersion), Str(U(DomainName(s.domain))), Str(U(SignalName(s.signal))), Int(s.eventCount),
      Int(s.windowSeconds), Str(s.reportNonce), Int(s.observedAt), Str(s.networkId) ]
  }

  /** The payload dict, in its insertion order. */
  function StatementNode(s: Statement): (n: Node)
    ensures n.Obj? && |n.members| == 8
    ensures forall i :: 0 <= i < 8 ==> n.members[i] == Member(U(FIELD_NAMES[i]), FieldValues(s)[i])
  {
    Obj(seq(8, i requires 0 <= i < 8 => Member(U(FIELD_NAMES[i]), FieldValues(s)[i])))
  }

  function StatementText(s: Statement): (t: Text) {
    Dumps(StatementNode(s), Compact(false))
  }

  // ----- the printed form is plain ASCII of bounded length -----

  predicate PlainMember(m: Member) {
    Plain(m.key) && (m.value.Int? || (m.value.Str? && Plain(m.value.s)))
  }

  function ValueLength(v: Node): (k: nat) {
    match v
    case Int(n) => |IntText(n)|
    case Str(t) => |t| + 2
    case _ => 0
  }

  function MembersLength(ms: seq<Member>): (k: nat) {
    if ms == [] then 0 else |ms[0].key| + 3 + ValueLength(ms[0].value) + 1 + MembersLength(ms[1..])
  }

  lemma PlainValueText(v: Node, depth: nat)
    requires v.Int? || (v.Str? && Plain(v.s))
    ensures var r := Print(v, Compact(false), depth); IsAscii(r) && |r| == ValueLength(v)
  {
    hide Escape;
    if v.Str? {
      EscapePlain(v.s, false);
    }
  }

  lemma PlainMemberText(m: Member, depth: nat)
    requires PlainMember(m)
    ensures var r := PrintMember(m, Compact(false), depth);
      IsAscii(r) && |r| == |m.key| + 3 + ValueLength(m.value)
  {
    hide Escape;
    hide Print;
    hide ValueLength;
    EscapePlain(m.key, false);
    PlainValueText(m.value, depth);
  }

  lemma {:induction false} PlainMembersText(ms: seq<Member>, depth: nat)
    requires ms != [] && forall i :: 0 <= i < |ms| ==> PlainMember(ms[i])
    ensures var r := PrintMembers(ms, Compact(false), depth);
      IsAscii(r) && |r| + 1 == MembersLength(ms)
  {
    hide PrintMember;
    hide Plain;
    hide ValueLength;
    PlainMemberText(ms[0], depth);
    if |ms| > 1 {
      PlainMembersText(ms[1..], depth);
    }
  }

  predicate IsWord(s: string) {
    forall c :: c in s ==> 'a' <= c <= 'z' || c == '_'
  }

  lemma WordIsPlain(s: string)
    requires IsWord(s)
    ensures Plain(U(s))
  {
    forall i | 0 <= i < |s| ensures 0x20 <= U(s)[i] <= 0x7E && U(s)[i] != QUOTE && U(s)[i] != BACKSLASH {
      assert s[i] in s;
    }
  }

  lemma DomainNameIsPlain(d: Domain)
    ensures Plain(U(DomainName(d))) && |DomainName(d)| <= 20
  {
    assert IsWord(DomainName(d));
    WordIsPlain(DomainName(d));
  }

  predicate IsSignalWord(s: string) {
    IsWord(s) && |s| <= 29
  }

  // The vocabulary in parts, so that each proof stays small.

  lemma SignalWords0()
    ensures IsSignalWord("unexpected_child_process")
    ensures IsSignalWord("rapid_process_spawn")
    ensures IsSignalWord("protected_file_change")
  {
  }

  lemma SignalWords1()
    ensures IsSignalWord("executable_file_change")
    ensures IsSignalWord("unexpected_egress")
    ensures IsSignalWord("connection_fanout")
  {
  }

  lemma SignalWords2()
    ensures IsSignalWord("startup_entry_change")
    ensures IsSignalWord("scheduled_task_change")
    ensures IsSignalWord("credential_store_access")
  {
  }

  lemma SignalWords3()
    ensures IsSignalWord("bulk_secret_read_attempt")
    ensures IsSignalWord("prompt_injection_indicator")
    ensures IsSignalWord("tool_policy_violation")
  {
  }

  lemma SignalWords4()
    ensures IsSignalWord("model_runtime_change")
    ensures IsSignalWord("sustained_compute_saturation")
    ensures IsSignalWord("accelerator_utilization_spike")
  {
  }

  lemma SignalNameIsPlain(s: Signal)
    ensures Plain(U(SignalName(s))) && |SignalName(s)| <= 29
  {
    SignalNameIsWord(s);
    hide SignalName;
    WordIsPlain(SignalName(s));
  }

  lemma SignalNameIsWord(s: Signal)
    ensures IsSignalWord(SignalName(s))
  {
    hide IsSignalWord;
    SignalWords0();
    SignalWords1();
    SignalWords2();
    SignalWords3();
    SignalWords4();
  }

  lemma FieldNamesArePlain(i: nat)
    requires i < 8
    ensures Plain(U(FIELD_NAMES[i]))
  {
    assert IsWord(FIELD_NAMES[i]);
    WordIsPlain(FIELD_NAMES[i]);
  }

  lemma MembersArePlain(s: Statement, i: nat)
    requires Valid(s) && i < 8
    ensures PlainMember(StatementNode(s).members[i])
  {
    FieldNamesArePlain(i);
    DomainNameIsPlain(s.domain);
    SignalNameIsPlain(s.signal);
    hide DomainName;
    hide SignalName;
    hide U;
  }

  function Sum(ks: seq<nat>): (n: nat) {
    if ks == [] then 0 else ks[0] + Sum(ks[1..])
  }

  /** Member lengths add up, each with two quotes, a colon and a comma. */
  lemma {:induction false} MembersLengthSplits(ms: seq<Member>, ks: seq<nat>, vs: seq<nat>)
    requires |ms| == |ks| == |vs|
    requires forall i :: 0 <= i < |ms| ==> |ms[i].key| == ks[i] && ValueLength(ms[i].value) <= vs[i]
    ensures MembersLength(ms) <= Sum(ks) + Sum(vs) + 4 * |ms|
  {
    hide ValueLength;
    if ms != [] {
      MembersLengthSplits(ms[1..], ks[1..], vs[1..]);
    }
  }

  const KEY_LENGTHS: seq<nat> := [14, 6, 6, 11, 14, 12, 11, 10]
  const VALUE_LIMITS: seq<nat> := [1, 22, 31, 3, 4, 66, 20, 66]

  lemma ValueLimits(s: Statement, i: nat)
    requires Valid(s) && i < 8
    ensures |U(FIELD_NAMES[i])| == KEY_LENGTHS[i]
    ensures ValueLength(FieldValues(s)[i]) <= VALUE_LIMITS[i]
  {
    DomainNameIsPlain(s.domain);
    SignalNameIsPlain(s.signal);
    hide DomainName;
    hide SignalName;
    hide Plain;
    assert Pow10(1) == 10 && Pow10(3) == 1000 && Pow10(4) == 10_000;
    TwentyDigits();
    NatTextLength(s.schemaVersion, 1);
    NatTextLength(s.eventCount, 3);
    NatTextLength(s.windowSeconds, 4);
    NatTextLength(s.observedAt, 20);
  }

  lemma TwentyDigits()
    ensures Pow10(20) == 100_000_000_000_000_000_000
  {
    assert Pow10(5) == 100_000;
    assert Pow10(10) == 10_000_000_000;
    assert Pow10(15) == 1_000_000_000_000_000;
  }

  lemma LengthsAdd()
    ensures Sum(KEY_LENGTHS) == 84 && Sum(VALUE_LIMITS) == 213
  {
    assert KEY_LENGTHS[1..][1..][1..][1..] == [14, 12, 11, 10];
    assert VALUE_LIMITS[1..][1..][1..][1..] == [4, 66, 20, 66];
  }

  lemma PlainObjectText(ms: seq<Member>)
    requires ms != [] && forall i :: 0 <= i < |ms| ==> PlainMember(ms[i])
    ensures var t := Dumps(Obj(ms), Compact(false)); IsAscii(t) && |t| == MembersLength(ms) + 1
  {
    PlainMembersText(ms, 1);
    hide PlainMember;
    hide PrintMembers;
    hide MembersLength;
  }

  /** Every valid statement prints to ASCII text of at most 330 characters, so the
      512-byte guard never rejects one. */
  lemma StatementTextBound(s: Statement)
    requires Valid(s)
    ensures IsAscii(StatementText(s)) && 0 < |StatementText(s)| <= 330
  {
    hide PlainMember;
    hide ValueLength;
    hide Dumps;
    hide Valid;
    hide Sum;
    hide MembersLength;
    hide FieldValues;
    var ms := StatementNode(s).members;
    forall i | 0 <= i < 8 ensures PlainMember(ms[i]) && |ms[i].key| == KEY_LENGTHS[i] && ValueLength(ms[i].value) <= VALUE_LIMITS[i] {
      MembersArePlain(s, i);
      ValueLimits(s, i);
    }
    PlainObjectText(ms);
    MembersLengthSplits(ms, KEY_LENGTHS, VALUE_LIMITS);
    LengthsAdd();
  }

  /** The canonical bytes of a valid statement. */
  function StatementBytes(s: Statement): (b: Bytes)
    requires Valid(s)
    ensures 0 < |b| <= 330
  {
    StatementTextBound(s);
    AsciiBytes(StatementText(s))
  }

  // ----- UTF-8 decoding (RFC 3629), strict -----

  predicate Continuation(b: int) { 0x80 <= b < 0xC0 }

  function DecodeOne(b: Bytes): (r: Option<(CodePoint, nat)>)
    requires b != []
    ensures r.Some? ==> 1 <= r.value.1 <= |b|
    ensures b[0] < 0x80 ==> r == Some((b[0] as int, 1))
  {
    var b0: int := b[0];
    var b1: int := if |b| >= 2 then b[1] else 0;
    var b2: int := if |b| >= 3 then b[2] else 0;
    var b3: int := if |b| >= 4 then b[3] else 0;
    if b0 < 0x80 then Some((b0, 1))
    else if 0xC2 <= b0 <= 0xDF && Continuation(b1) then
      Some(((b0 - 0xC0) * 64 + (b1 - 0x80), 2))
    else if 0xE0 <= b0 <= 0xEF && Continuation(b1) && Continuation(b2) then
      var c := (b0 - 0xE0) * 4096 + (b1 - 0x80) * 64 + (b2 - 0x80);
      if c < 0x800 || High(c) || Low(c) then None else Some((c, 3))
    else if 0xF0 <= b0 <= 0xF4 && Continuation(b1) && Continuation(b2) && Continuation(b3) then
      var c := (b0 - 0xF0) * 0x4_0000 + (b1 - 0x80) * 4096 + (b2 - 0x80) * 64 + (b3 - 0x80);
      if c < 0x1_0000 || c > 0x10_FFFF then None else Some((c, 4))
    else None
  }

  function DecodeUtf8(b: Bytes): (r: Option<Text>) {
    if b == [] then Some([])
    else
      match DecodeOne(b)
      case None => None
      case Some((c, k)) =>
        match DecodeUtf8(b[k..])
        case None => None
        case Some(t) => Some([c] + t)
  }

  lemma {:induction false} DecodeAscii(t: Text)
    requires IsAscii(t)
    ensures DecodeUtf8(AsciiBytes(t)) == Some(t)
  {
    if t != [] {
      var b := AsciiBytes(t);
      assert b[1..] == AsciiBytes(t[1..]);
      DecodeAscii(t[1..]);
      assert t == [t[0]] + t[1..];
    }
  }

  // ----- parsing -----

  /** _parse_object: the exact key list in order, then every field. */
  function ParseObject(v: Node): (r: Option<Statement>) {
    if !(v.Obj? && |v.members| == 8 && forall i :: 0 <= i < 8 ==> v.members[i].key == U(FIELD_NAMES[i])) then None
    else
      var f := (i: nat) requires i < 8 => v.members[i].value;
      if !(ExactInt(f(0)) && ExactInt(f(3)) && ExactInt(f(4)) && ExactInt(f(6))) then None
      else if f(0).n != 1 || !(1 <= f(3).n <= 255) || !AllowedWindow(f(4).n) || f(6).n == 0 || f(6).n % 60 != 0 then None
      else
        match (DomainAmong(f(1), DOMAINS), SignalAmong(f(2), SIGNALS))
        case (Some(domain), Some(signal)) =>
          if DomainOfSignal(signal) != domain then None
          else if !(f(5).Str? && IsHexText(f(5).s, 64) && f(7).Str? && ValidNetwork(f(7).s)) then None
          else Some(Statement(f(0).n, domain, signal, f(3).n, f(4).n, f(5).s, f(6).n, f(7).s))
        case _ => None
  }

  /** The validator accepts exactly the payloads of valid statements. */
  lemma ParseObjectExact(v: Node, s: Statement)
    ensures ParseObject(v) == Some(s) <==> Valid(s) && v == StatementNode(s)
  {
    hide DomainName;
    hide SignalName;
    hide U;
    hide DomainAmong;
    hide SignalAmong;
    if v.Obj? && |v.members| == 8 {
      DomainLookup(v.members[1].value, s.domain);
      SignalLookup(v.members[2].value, s.signal);
    }
    if ParseObject(v) == Some(s) {
      var ms := v.members;
      assert forall i :: 0 <= i < 8 ==> ms[i] == StatementNode(s).members[i];
      assert ms == StatementNode(s).members;
    }
    if Valid(s) && v == StatementNode(s) {
      var ms := v.members;
      assert ms[0].value == Int(1) && ms[1].value == Str(U(DomainName(s.domain))) && ms[2].value == Str(U(SignalName(s.signal)));
      assert ms[3].value == Int(s.eventCount) && ms[4].value == Int(s.windowSeconds) && ms[5].value == Str(s.reportNonce);
      assert ms[6].value == Int(s.observedAt) && ms[7].value == Str(s.networkId);
    }
  }

  /** parse_canonical up to, but without, the comparison with the re-print. */
  function DecodeStatement(wire: Bytes, trusted: Text): (r: Option<Statement>)
    ensures r.Some? ==> Valid(r.value) && r.value.networkId == trusted
  {
    if |wire| == 0 || |wire| > MAX_BYTES || !ValidNetwork(trusted) then None
    else
      match DecodeUtf8(wire)
      case None => None
      case Some(text) =>
        match Loads(text)
        case None => None
        case Some(v) =>
          if !UniqueKeys(v) then None
          else
            match ParseObject(v)
            case None => None
            case Some(s) => ParseObjectExact(v, s); if s.networkId != trusted then None else Some(s)
  }

  function ParseCanonical(wire: Bytes, trusted: Text): (r: Option<Statement>) {
    match DecodeStatement(wire, trusted)
    case None => None
    case Some(s) => if StatementBytes(s) != wire then None else Some(s)
  }

  lemma StatementNodeIsPrintable(s: Statement)
    requires Valid(s)
    ensures Printable(StatementNode(s)) && UniqueKeys(StatementNode(s))
  {
    var ms := StatementNode(s).members;
    forall i | 0 <= i < 8 ensures NoPair(ms[i].key) && Printable(ms[i].value) {
      MembersArePlain(s, i);
    }
    forall i, j | 0 <= i < j < 8 ensures ms[i].key != ms[j].key {
      FieldNamesDiffer(i, j);
    }
  }

  lemma FieldNamesDiffer(i: nat, j: nat)
    requires i < j < 8
    ensures U(FIELD_NAMES[i]) != U(FIELD_NAMES[j])
  {
    assert |U(FIELD_NAMES[i])| == |U(FIELD_NAMES[j])| ==> U(FIELD_NAMES[i])[0] != U(FIELD_NAMES[j])[0];
  }

  /** Printing then parsing under the statement's own network returns the statement. */
  lemma ParsePrinted(s: Statement)
    requires Valid(s)
    ensures ParseCanonical(StatementBytes(s), s.networkId) == Some(s)
  {
    hide Loads;
    hide Dumps;
    hide Valid;
    hide ParseObject;
    hide UniqueKeys;
    hide Printable;
    StatementTextBound(s);
    var t := StatementText(s);
    DecodeAscii(t);
    StatementNodeIsPrintable(s);
    LoadsDumps(StatementNode(s), Compact(false), [], []);
    assert [] + t + [] == t;
    ParseObjectExact(StatementNode(s), s);
    assert ValidNetwork(s.networkId) by { ValidParts(s); }
  }

  lemma ValidParts(s: Statement)
    requires Valid(s)
    ensures ValidNetwork(s.networkId)
  {
  }

  /**
    Parsing succeeds exactly on the canonical prints of valid statements for the trusted
    network, and returns the statement that was printed: no whitespace, reordering,
    escape, other number form or duplicate key gets through.
   */
  lemma ParseCanonicalExact(wire: Bytes, trusted: Text, s: Statement)
    ensures ParseCanonical(wire, trusted) == Some(s) <==>
      Valid(s) && s.networkId == trusted && wire == StatementBytes(s)
  {
    hide Valid;
    hide DecodeStatement;
    if Valid(s) && s.networkId == trusted && wire == StatementBytes(s) {
      ParsePrinted(s);
    }
  }

  /** The canonical bytes determine the statement. */
  lemma StatementBytesInjective(s: Statement, t: Statement)
    requires Valid(s) && Valid(t) && StatementBytes(s) == StatementBytes(t)
    ensures s == t
  {
    hide Valid;
    hide Dumps;
    hide Printable;
    StatementTextBound(s);
    StatementTextBound(t);
    assert StatementText(s) == StatementText(t);
    StatementNodeIsPrintable(s);
    StatementNodeIsPrintable(t);
    DumpsInjective(StatementNode(s), StatementNode(t), Compact(false));
    ParseObjectExact(StatementNode(s), s);
    ParseObjectExact(StatementNode(t), t);
  }

  /** The decode is lenient: whitespace around the canonical text still gives the very same
      payload, and only the byte comparison turns it away. */
  lemma PaddedIsRejected(s: Statement, before: Text, after: Text)
    requires Valid(s) && before + after != []
    requires forall i :: 0 <= i < |before| ==> IsSpace(before[i])
    requires forall i :: 0 <= i < |after| ==> IsSpace(after[i])
    ensures Loads(before + StatementText(s) + after) == Some(StatementNode(s))
    ensures IsAscii(before + StatementText(s) + after)
    ensures ParseCanonical(AsciiBytes(before + StatementText(s) + after), s.networkId) == None
  {
    hide Loads;
    hide Dumps;
    hide ParseObject;
    hide UniqueKeys;
    StatementTextBound(s);
    StatementNodeIsPrintable(s);
    LoadsDumps(StatementNode(s), Compact(false), before, after);
    var padded := before + StatementText(s) + after;
    DecodeAscii(padded);
    ParseObjectExact(StatementNode(s), s);
    hide Valid;
    assert |padded| != |StatementText(s)|;
  }

  // ----- the statement digest -----

  /** What statement_digest feeds SHA-256: domain, big-endian length, canonical bytes. */
  function DigestPreimage(s: Statement): (b: Bytes)
    requires Valid(s)
  {
    DIGEST_DOMAIN + BigEndian(|StatementBytes(s)|) + StatementBytes(s)
  }

  /** The digest preimage determines every field of the statement. */
  lemma DigestPreimageInjective(s: Statement, t: Statement)
    requires Valid(s) && Valid(t) && DigestPreimage(s) == DigestPreimage(t)
    ensures s == t
  {
    hide Valid;
    hide StatementText;
    hide BigEndian;
    var a, b := StatementBytes(s), StatementBytes(t);
    var d := |DIGEST_DOMAIN|;
    assert (DIGEST_DOMAIN + BigEndian(|a|) + a)[d + 4..] == a;
    assert (DIGEST_DOMAIN + BigEndian(|b|) + b)[d + 4..] == b;
    StatementBytesInjective(s, t);
  }

  // ----- objects, tampering and the registry -----

  /** An attribute of a statement object. `object.__setattr__` can put anything there;
      a bool is not an int here, and Other stands for every remaining type. */
  datatype Attribute =
    | IntAttribute(n: int)
    | TextAttribute(t: Text)
    | DomainAttribute(d: Domain)
    | SignalAttribute(s: Signal)
    | OtherAttribute

  datatype Attributes = Attributes(
    schemaVersion: Attribute, domain: Attribute, signal: Attribute, eventCount: Attribute,
    windowSeconds: Attribute, reportNonce: Attribute, observedAt: Attribute, networkId: Attribute)

  function AttributesOf(s: Statement): (a: Attributes) {
    Attributes(IntAttribute(s.schemaVersion), DomainAttribute(s.domain), SignalAttribute(s.signal),
               IntAttribute(s.eventCount), IntAttribute(s.windowSeconds), TextAttribute(s.reportNonce),
               IntAttribute(s.observedAt), TextAttribute(s.networkId))
  }

  /** _validate_state: the types and ranges are rechecked before every print. */
  function ValidateState(a: Attributes): (r: Option<Statement>)
    ensures forall s :: r == Some(s) <==> Valid(s) && a == AttributesOf(s)
  {
    if a.schemaVersion.IntAttribute? && a.domain.DomainAttribute? && a.signal.SignalAttribute? &&
       a.eventCount.IntAttribute? && a.windowSeconds.IntAttribute? && a.reportNonce.TextAttribute? &&
       a.observedAt.IntAttribute? && a.networkId.TextAttribute?
    then
      var s := Statement(a.schemaVersion.n, a.domain.d, a.signal.s, a.eventCount.n,
                         a.windowSeconds.n, a.reportNonce.t, a.observedAt.n, a.networkId.t);
      if Valid(s) then Some(s) else None
    else None
  }

  class Observation {
    var attributes: Attributes

    constructor (a: Attributes)
      ensures attributes == a
    {
      attributes := a;
    }

    /** object.__setattr__ on any attributes of the object. */
    method Tamper(a: Attributes)
      modifies this
      ensures attributes == a
    {
      attributes := a;
    }
  }

  /** Every parsed statement and the bytes it was parsed from. */
  class Registry {
    var parsed: map<Observation, Bytes>
    ghost var issued: map<Observation, Statement>

    /** Each object handed out is registered under the canonical bytes of the valid
        statement it was parsed as. */
    ghost predicate Consistent()
      reads this
    {
      forall o :: o in issued ==> o in parsed && Valid(issued[o]) && parsed[o] == StatementBytes(issued[o])
    }

    constructor ()
      ensures Consistent() && parsed == map[] && issued == map[]
    {
      parsed := map[];
      issued := map[];
    }

    ghost function Reread(o: Observation): (r: Option<Bytes>)
      reads this, o
    {
      if o !in parsed || ValidateState(o.attributes).None? then None
      else
        var b := StatementBytes(ValidateState(o.attributes).value);
        if b != parsed[o] then None else Some(b)
    }

    /**
      The canonical_bytes property. In every state, whatever was done to the object's
      attributes since: an object never parsed fails, an issued object succeeds exactly
      while its attributes are those it was parsed with, and what comes back is the
      recorded bytes and nothing else.
     */
    method CanonicalBytes(o: Observation) returns (r: Option<Bytes>)
      requires Consistent()
      ensures r == Reread(o)
      ensures r.Some? ==> o in parsed && r.value == parsed[o]
      ensures o !in parsed ==> r == None
      ensures o in issued ==> (r.Some? <==> o.attributes == AttributesOf(issued[o]))
    {
      if o !in parsed {
        return None;
      }
      var state := ValidateState(o.attributes);
      if state.None? {
        return None;
      }
      var canonical := StatementBytes(state.value);
      if o in issued && canonical == parsed[o] {
        StatementBytesInjective(state.value, issued[o]);
      }
      if |canonical| == 0 || |canonical| > MAX_BYTES || canonical != parsed[o] {
        return None;
      }
      return Some(canonical);
    }

    /** parse_canonical: a new object is registered with the wire bytes and handed out only
        if its own canonical bytes are the wire bytes; earlier objects keep their records. */
    method ParseCanonicalBytes(wire: Bytes, trusted: Text) returns (r: Option<Observation>)
      requires Consistent()
      modifies this
      ensures Consistent()
      ensures r.Some? <==> ParseCanonical(wire, trusted).Some?
      ensures r.Some? ==> fresh(r.value) && r.value.attributes == AttributesOf(ParseCanonical(wire, trusted).value)
      ensures r.Some? ==> issued == old(issued)[r.value := ParseCanonical(wire, trusted).value]
      ensures r.Some? ==> parsed == old(parsed)[r.value := wire]
      ensures r.None? ==> issued == old(issued)
      ensures forall o :: o in old(parsed) ==> o in parsed && parsed[o] == old(parsed)[o]
    {
      hide Valid;
      hide StatementBytes;
      hide DecodeStatement;
      hide ValidateState;
      var decoded := DecodeStatement(wire, trusted);
      if decoded.None? {
        return None;
      }
      var statement := new Observation(AttributesOf(decoded.value));
      assert ValidateState(statement.attributes) == decoded;
      parsed := parsed[statement := wire];
      var reprint := CanonicalBytes(statement);
      if reprint.None? || reprint.value != wire {
        return None;
      }
      issued := issued[statement := decoded.value];
      return Some(statement);
    }
  }

  // ----- whole runs -----

  /** What callers can do: parse bytes, overwrite the attributes of the k-th object handed
      out, or read its canonical bytes. */
  datatype Event =
    | Parse(wire: Bytes, trusted: Text)
    | Overwrite(k: nat, attributes: Attributes)
    | Read(k: nat)

  datatype ReadResult = ReadResult(k: nat, bytes: Option<Bytes>)

  /** What a run means, without any registry: the statements handed out, with the wire each came from
      and the attributes it has now. */
  datatype Slot = Slot(wire: Bytes, statement: Statement, attributes: Attributes)
  datatype Trace = Trace(slots: seq<Slot>, results: seq<ReadResult>)

  function After(t: Trace, e: Event): (r: Trace) {
    match e
    case Parse(wire, trusted) =>
      var s := ParseCanonical(wire, trusted);
      if s.Some? then t.(slots := t.slots + [Slot(wire, s.value, AttributesOf(s.value))]) else t
    case Overwrite(k, attributes) =>
      if k < |t.slots| then t.(slots := t.slots[k := t.slots[k].(attributes := attributes)]) else t
    case Read(k) =>
      if k < |t.slots| then
        var o := t.slots[k];
        var untouched := o.attributes == AttributesOf(o.statement);
        t.(results := t.results + [ReadResult(k, if untouched then Some(o.wire) else None)])
      else t
  }

  function Meaning(events: seq<Event>): (t: Trace) {
    if events == [] then Trace([], [])
    else After(Meaning(events[..|events| - 1]), events[|events| - 1])
  }

  /** The objects handed out are the slots: parsed as their statements, with their attributes, all different. */
  ghost predicate Tracks(registry: Registry, objects: seq<Observation>, slots: seq<Slot>)
    reads registry, objects
  {
    && registry.Consistent() && |objects| == |slots|
    && (forall k :: 0 <= k < |objects| ==>
          && objects[k] in registry.issued && registry.issued[objects[k]] == slots[k].statement
          && registry.parsed[objects[k]] == slots[k].wire && objects[k].attributes == slots[k].attributes)
    && (forall j, k :: 0 <= j < k < |objects| ==> objects[j] != objects[k])
  }

  method Step(registry: Registry, objects: seq<Observation>, e: Event, ghost t: Trace)
      returns (now: seq<Observation>, read: Option<ReadResult>)
    requires Tracks(registry, objects, t.slots)
    modifies registry, objects
    ensures forall k :: 0 <= k < |now| ==> (k < |objects| && now[k] == objects[k]) || fresh(now[k])
    ensures Tracks(registry, now, After(t, e).slots)
    ensures After(t, e).results == t.results + (if read.Some? then [read.value] else [])
  {
    hide ParseCanonical;
    hide Valid;
    hide StatementBytes;
    hide ValidateState;
    now, read := objects, None;
    match e
    case Parse(wire, trusted) =>
      var o := registry.ParseCanonicalBytes(wire, trusted);
      if o.Some? {
        now := objects + [o.value];
      }
    case Overwrite(k, attributes) =>
      if k < |objects| {
        objects[k].Tamper(attributes);
      }
    case Read(k) =>
      if k < |objects| {
        var b := registry.CanonicalBytes(objects[k]);
        read := Some(ReadResult(k, b));
      }
  }

  /** In every run, a read returns the bytes the object was parsed from exactly while its attributes are
      those of the statement parsed, and fails otherwise. */
  method Run(events: seq<Event>) returns (results: seq<ReadResult>)
    ensures results == Meaning(events).results
  {
    hide After;
    var registry := new Registry();
    var objects: seq<Observation> := [];
    results := [];
    for i := 0 to |events|
      invariant fresh(registry) && forall k :: 0 <= k < |objects| ==> fresh(objects[k])
      invariant results == Meaning(events[..i]).results && Tracks(registry, objects, Meaning(events[..i]).slots)
    {
      assert events[..i + 1][..i] == events[..i];
      ghost var t := Meaning(events[..i]);
      var now, read := Step(registry, objects, events[i], t);
      objects := now;
      results := results + if read.Some? then [read.value] else [];
    }
    assert events[..|events|] == events;
  }

  predicate CameFrom(events: seq<Event>, o: Slot) {
    exists i :: 0 <= i < |events| && events[i].Parse? && events[i].wire == o.wire &&
                ParseCanonical(o.wire, events[i].trusted) == Some(o.statement)
  }

  /** Every object in a run was handed out by a parse, and every byte string read is the wire of one. */
  lemma {:induction false} ReadsReturnParsedWires(events: seq<Event>)
    ensures forall o :: o in Meaning(events).slots ==> CameFrom(events, o)
    ensures forall r :: r in Meaning(events).results && r.bytes.Some? ==>
      exists i :: 0 <= i < |events| && events[i].Parse? && events[i].wire == r.bytes.value &&
                  ParseCanonical(r.bytes.value, events[i].trusted).Some?
  {
    hide ParseCanonical;
    if events != [] {
      var n := |events| - 1;
      var before, e := Meaning(events[..n]), events[n];
      ReadsReturnParsedWires(events[..n]);
      forall o | o in before.slots ensures CameFrom(events, o) {
        var i :| 0 <= i < n && events[..n][i].Parse? && events[..n][i].wire == o.wire &&
                 ParseCanonical(o.wire, events[..n][i].trusted) == Some(o.statement);
        assert events[i] == events[..n][i];
      }
      forall o | o in Meaning(events).slots ensures CameFrom(events, o) {
        if e.Overwrite? && e.k < |before.slots| {
          assert before.slots[e.k] in before.slots;
        }
      }
      forall r | r in Meaning(events).results && r.bytes.Some? ensures
        exists i :: 0 <= i < |events| && events[i].Parse? && events[i].wire == r.bytes.value &&
                    ParseCanonical(r.bytes.value, events[i].trusted).Some?
      {
        if r in before.results {
          var i :| 0 <= i < n && events[..n][i].Parse? && events[..n][i].wire == r.bytes.value &&
                   ParseCanonical(r.bytes.value, events[..n][i].trusted).Some?;
          assert events[i] == events[..n][i];
        } else {
          assert CameFrom(events, before.slots[r.k]);
        }
      }
    }
  }
}
