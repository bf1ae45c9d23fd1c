/**
  The accepted endpoint observations, read off the wire: which domain and signal strings go
  together and which values the other six members may have, listed as text and numbers.
 */
module EndpointWire {
  import opened Texts
  import opened JsonText
  import opened EndpointObservation

  /** The wire strings of every signal and of its one domain: fifteen rows. */
  function Pair(p: nat): (string, string)
    requires p < 15
  {
    match p
    case 0 => ("process", "unexpected_child_process")
    case 1 => ("process", "rapid_process_spawn")
    case 2 => ("file", "protected_file_change")
    case 3 => ("file", "executable_file_change")
    case 4 => ("network", "unexpected_egress")
    case 5 => ("network", "connection_fanout")
    case 6 => ("persistence", "startup_entry_change")
    case 7 => ("persistence", "scheduled_task_change")
    case 8 => ("credential_access", "credential_store_access")
    case 9 => ("credential_access", "bulk_secret_read_attempt")
    case 10 => ("model_tool", "prompt_injection_indicator")
    case 11 => ("model_tool", "tool_policy_violation")
    case 12 => ("model_tool", "model_runtime_change")
    case 13 => ("resource_utilization", "sustained_compute_saturation")
    case _ => ("resource_utilization", "accelerator_utilization_spike")
  }

  /** What the members of one statement hold: a pair of the table, three numbers and two texts. */
  datatype Wire = Wire(pair: nat, count: int, window: int, nonce: Text, at: int, network: Text)

  predicate LowerOrDigit(c: int) {
    0x61 <= c <= 0x7A || 0x30 <= c <= 0x39
  }

  predicate InRange(w: Wire) {
    && w.pair < 15 && 0 < w.count < 256 && w.window in {60, 300, 900, 3600}
    && |w.nonce| == 64 && (forall i :: 0 <= i < 64 ==> 0x30 <= w.nonce[i] <= 0x39 || 0x61 <= w.nonce[i] <= 0x66)
    && 0 < w.at < 0x1_0000_0000_0000_0000 && w.at % 60 == 0
    && 2 <= |w.network| <= 64 && (forall i :: 0 <= i < |w.network| ==> LowerOrDigit(w.network[i]) || w.network[i] == 0x2D)
    && w.network[0] != 0x2D && w.network[|w.network| - 1] != 0x2D
  }

  /** The document, member by member in wire order. */
  function Document(w: Wire): Node
    requires w.pair < 15
  {
    Obj([Member(U("schema_version"), Int(1)),
         Member(U("domain"), Str(U(Pair(w.pair).0))),
         Member(U("signal"), Str(U(Pair(w.pair).1))),
         Member(U("event_count"), Int(w.count)),
         Member(U("window_seconds"), Int(w.window)),
         Member(U("report_nonce"), Str(w.nonce)),
         Member(U("observed_at"), Int(w.at)),
         Member(U("network_id"), Str(w.network))])
  }

  /** The bytes are the compact print of that document, for the trusted network. */
  ghost predicate IsWire(bytes: Bytes, trusted: Text, w: Wire) {
    && w.pair < 15 && InRange(w) && w.network == trusted
    && var text := Dumps(Document(w), Compact(false)); IsAscii(text) && bytes == AsciiBytes(text)
  }

  /** The signal of a row. */
  function RowSignal(p: nat): Signal
    requires p < 15
  {
    match p
    case 0 => UnexpectedChildProcess
    case 1 => RapidProcessSpawn
    case 2 => ProtectedFileChange
    case 3 => ExecutableFileChange
    case 4 => UnexpectedEgress
    case 5 => ConnectionFanout
    case 6 => StartupEntryChange
    case 7 => ScheduledTaskChange
    case 8 => CredentialStoreAccess
    case 9 => BulkSecretReadAttempt
    case 10 => PromptInjectionIndicator
    case 11 => ToolPolicyViolation
    case 12 => ModelRuntimeChange
    case 13 => SustainedComputeSaturation
    case _ => AcceleratorUtilizationSpike
  }

  lemma RowDomain(p: nat)
    requires p < 15
    ensures Pair(p).0 == DomainName(DomainOfSignal(RowSignal(p)))
  {
  }

  lemma FirstRowNames(p: nat)
    requires p < 5
    ensures Pair(p).1 == SignalName(RowSignal(p))
  {
  }

  lemma MiddleRowNames(p: nat)
    requires 5 <= p < 10
    ensures Pair(p).1 == SignalName(RowSignal(p))
  {
  }

  lemma ModelRowNames(p: nat)
    requires 10 <= p < 13
    ensures Pair(p).1 == SignalName(RowSignal(p))
  {
  }

  lemma LastRowNames(p: nat)
    requires 13 <= p < 15
    ensures Pair(p).1 == SignalName(RowSignal(p))
  {
  }

  lemma RowName(p: nat)
    requires p < 15
    ensures Pair(p).1 == SignalName(RowSignal(p))
  {
    hide *;
    if p < 5 {
      FirstRowNames(p);
    } else if p < 10 {
      MiddleRowNames(p);
    } else if p < 13 {
      ModelRowNames(p);
    } else {
      LastRowNames(p);
    }
  }

  /** The table lists every signal under its own domain. */
  lemma PairsNamed(p: nat)
    requires p < 15
    ensures Pair(p).0 == DomainName(DomainOfSignal(RowSignal(p))) && Pair(p).1 == SignalName(RowSignal(p))
  {
    hide Pair;
    hide DomainName;
    hide SignalName;
    RowDomain(p);
    RowName(p);
  }

  function StatementOf(w: Wire): Statement
    requires w.pair < 15
  {
    Statement(1, DomainOfSignal(RowSignal(w.pair)), RowSignal(w.pair), w.count, w.window, w.nonce, w.at, w.network)
  }

  lemma StatementHolds(w: Wire)
    requires w.pair < 15
    ensures StatementNode(StatementOf(w)) == Document(w) && (Valid(StatementOf(w)) <==> InRange(w))
  {
    hide DomainName;
    hide SignalName;
    hide DomainOfSignal;
    hide U;
    PairsNamed(w.pair);
    hide Pair;
    hide RowSignal;
    var ms, ns := StatementNode(StatementOf(w)).members, Document(w).members;
    assert forall i :: 0 <= i < 8 ==> ms[i] == ns[i];
    assert ms == ns;
  }

  lemma SignalAt(s: Signal) returns (p: nat)
    ensures p < 15 && RowSignal(p) == s
  {
    p := match s
      case UnexpectedChildProcess => 0
      case RapidProcessSpawn => 1
      case ProtectedFileChange => 2
      case ExecutableFileChange => 3
      case UnexpectedEgress => 4
      case ConnectionFanout => 5
      case StartupEntryChange => 6
      case ScheduledTaskChange => 7
      case CredentialStoreAccess => 8
      case BulkSecretReadAttempt => 9
      case PromptInjectionIndicator => 10
      case ToolPolicyViolation => 11
      case ModelRuntimeChange => 12
      case SustainedComputeSaturation => 13
      case AcceleratorUtilizationSpike => 14;
  }

  /** parse_canonical accepts exactly the compact prints of the documents in range, with a domain and a
      signal that stand in one row of the table. */
  lemma AcceptedWires(bytes: Bytes, trusted: Text)
    ensures ParseCanonical(bytes, trusted).Some? <==> exists w :: IsWire(bytes, trusted, w)
  {
    hide ParseCanonical;
    hide Valid;
    hide InRange;
    hide Pair;
    hide RowSignal;
    hide Dumps;
    if ParseCanonical(bytes, trusted).Some? {
      var s := ParseCanonical(bytes, trusted).value;
      ParseCanonicalExact(bytes, trusted, s);
      var p := SignalAt(s.signal);
      var w := Wire(p, s.eventCount, s.windowSeconds, s.reportNonce, s.observedAt, s.networkId);
      ValidHeader(s);
      assert s == StatementOf(w);
      StatementHolds(w);
      StatementTextBound(s);
      assert IsWire(bytes, trusted, w);
    }
    if w :| IsWire(bytes, trusted, w) {
      StatementHolds(w);
      ParseCanonicalExact(bytes, trusted, StatementOf(w));
    }
  }

  lemma ValidHeader(s: Statement)
    requires Valid(s)
    ensures s.schemaVersion == 1 && s.domain == DomainOfSignal(s.signal)
  {
  }

  /** What is hashed for an accepted wire: the domain, a zero byte, the length in four bytes, the wire. */
  lemma DigestLayout(bytes: Bytes, trusted: Text)
    requires ParseCanonical(bytes, trusted).Some?
    ensures var s := ParseCanonical(bytes, trusted).value;
      Valid(s) && |bytes| < 512 && DigestPreimage(s) == U("prometheus-endpoint-observation-v1") + [0, 0, 0, |bytes| / 256, |bytes| % 256] + bytes
  {
    hide Valid;
    hide U;
    hide ParseCanonical;
    var s := ParseCanonical(bytes, trusted).value;
    ParseCanonicalExact(bytes, trusted, s);
    hide StatementText;
    assert bytes == StatementBytes(s);
    assert BigEndian(|bytes|) == [0, 0, |bytes| / 256, |bytes| % 256];
    assert DIGEST_DOMAIN == U("prometheus-endpoint-observation-v1") + [0];
  }
}
