/**
  The redaction filter of the public evidence record, and why it never objects to a string
  that the record's own grammars allow.
 */
module RedactionPolicy {
  import opened Texts

  const PROTOCOL: Text := U("/prometheus/") + U("threat-hint/") + U("2.0.0")

  const FRAGMENTS: seq<string> := [
    "/ip4/", "/ip6/", "/dns", "/tcp/", "/udp/", "/quic", "/p2p/", "12D3Koo", "kaspa:", "kaspatest:",
    "BEGIN PRIVATE KEY", "BEGIN OPENSSH PRIVATE KEY", "PRIVATE KEY", "MNEMONIC", "SEED PHRASE",
    "SECRET", "PASSWORD", "KEYSTORE", "WALLET", "SIGNATURE"
  ]

  // ----- str.casefold and the in operator -----

  function Lower(t: Text): (r: Text)
    ensures |r| == |t| && forall i :: 0 <= i < |t| ==> r[i] == LowerOne(t[i])
  {
    seq(|t|, i requires 0 <= i < |t| => LowerOne(t[i]))
  }

  /** Any casefold that agrees with lower-casing on ASCII; Unicode's does. */
  ghost predicate IsCasefold(fold: Text -> Text) {
    forall t :: IsAscii(t) ==> fold(t) == Lower(t)
  }

  predicate OccursAt(t: Text, needle: Text, i: int) {
    0 <= i <= |t| - |needle| && t[i..i + |needle|] == needle
  }

  predicate Contains(t: Text, needle: Text) {
    exists i :: 0 <= i <= |t| && OccursAt(t, needle, i)
  }

  // ----- the address patterns -----

  predicate DigitGroup(t: Text, a: int, b: int) {
    0 <= a < b <= |t| && b - a <= 3 && forall i :: a <= i < b ==> IsDigit(t[i])
  }

  predicate HexGroup(t: Text, a: int, b: int) {
    && 0 <= a < b <= |t| && b - a <= 4
    && forall i :: a <= i < b ==> IsDigit(t[i]) || 'a' as int <= t[i] <= 'f' as int || 'A' as int <= t[i] <= 'F' as int
  }

  /** Four digit groups with dots between them, not touching a further digit. */
  predicate Ipv4At(t: Text, a: int, p: int, q: int, r: int, e: int) {
    && DigitGroup(t, a, p) && DigitGroup(t, p + 1, q) && DigitGroup(t, q + 1, r) && DigitGroup(t, r + 1, e)
    && t[p] == '.' as int && t[q] == '.' as int && t[r] == '.' as int
    && (a == 0 || !IsDigit(t[a - 1])) && (e == |t| || !IsDigit(t[e]))
  }

  ghost predicate Ipv4Search(t: Text) {
    exists a, p, q, r, e :: Ipv4At(t, a, p, q, r, e)
  }

  /** At least two hexadecimal groups, each followed by a colon. */
  ghost predicate Ipv6Search(t: Text) {
    exists a, p, q :: HexGroup(t, a, p) && p + 1 < q < |t| && HexGroup(t, p + 1, q) && t[p] == ':' as int && t[q] == ':' as int
  }

  // ----- the record's own grammars -----

  function TwoDigits(t: Text, i: nat): (n: nat)
    requires i + 2 <= |t| && IsDigit(t[i]) && IsDigit(t[i + 1])
    ensures n < 100
  {
    (t[i] - '0' as int) * 10 + (t[i + 1] - '0' as int)
  }

  /** 20YY-MM-DDThh:mm:ssZ with hours to 23, minutes and seconds to 59. */
  predicate TimestampShape(t: Text) {
    && |t| == 20 && t[0] == '2' as int && t[1] == '0' as int
    && (forall i :: i in {2, 3, 5, 6, 8, 9, 11, 12, 14, 15, 17, 18} ==> IsDigit(t[i]))
    && t[4] == '-' as int && t[7] == '-' as int && t[10] == 'T' as int
    && t[13] == ':' as int && t[16] == ':' as int && t[19] == 'Z' as int
    && TwoDigits(t, 11) <= 23 && TwoDigits(t, 14) <= 59 && TwoDigits(t, 17) <= 59
  }

  function DaysIn(year: nat, month: nat): nat {
    if month == 2 then (if year % 4 == 0 && (year % 100 != 0 || year % 400 == 0) then 29 else 28)
    else if month == 4 || month == 6 || month == 9 || month == 11 then 30
    else 31
  }

  /** A real date, not before the controlled run boundary of 30 August 2026. */
  predicate Observation(t: Text) {
    && TimestampShape(t)
    && var year, month, day := 2000 + TwoDigits(t, 2), TwoDigits(t, 5), TwoDigits(t, 8);
       && 1 <= month <= 12 && 1 <= day <= DaysIn(year, month)
       && (year > 2026 || (year == 2026 && (month > 8 || (month == 8 && day >= 30))))
  }

  const TOOLCHAIN_HEAD: Text := U("rustc 1.95.0 (")
  const HOMEBREW: Text := U(" (Homebrew)")

  /** rustc 1.95.0 (9 hex digits, a 20YY-MM-DD date), optionally marked Homebrew. */
  predicate Toolchain(t: Text) {
    && (|t| == 35 || (|t| == 46 && t[35..] == HOMEBREW))
    && t[..14] == TOOLCHAIN_HEAD
    && (forall i :: 14 <= i < 23 ==> IsLowerHex(t[i]))
    && t[23] == ' ' as int && t[24] == '2' as int && t[25] == '0' as int
    && (forall i :: i in {26, 27, 29, 30, 32, 33} ==> IsDigit(t[i]))
    && t[28] == '-' as int && t[31] == '-' as int && t[34] == ')' as int
  }

  // ----- the filter on one string -----

  ghost predicate Passes(fold: Text -> Text, t: Text) {
    && (forall k :: 0 <= k < |FRAGMENTS| ==> !Contains(fold(t), fold(U(FRAGMENTS[k]))))
    && !Ipv4Search(t)
    && (TimestampShape(t) || !Ipv6Search(t))
    && (t == PROTOCOL || !('/' as int in t || '\\' as int in t || (t != [] && t[0] == '~' as int)))
  }

  // ----- a sufficient condition: no telling pair of adjacent letters -----

  /** Two adjacent characters that some prohibited fragment contains; each fragment has one. */
  predicate Telling(a: int, b: int) {
    || (a == 'p' as int && (b == '4' as int || b == '6' as int || b == '2' as int || b == 'h' as int))
    || (a == '/' as int && (b == 'd' as int || b == 'q' as int))
    || (a == 'c' as int && b == 'p' as int) || (a == 'u' as int && b == 'd' as int)
    || (a == '3' as int && b == 'k' as int) || (a == 'k' as int && (b == 'a' as int || b == 'e' as int))
    || (a == 'v' as int && b == 'a' as int) || (a == 'm' as int && b == 'n' as int)
    || (a == 's' as int && (b == 'e' as int || b == 's' as int))
    || (a == 'w' as int && b == 'a' as int) || (a == 'g' as int && (b == 'n' as int || b == 'i' as int))
  }

  predicate Quiet(t: Text) {
    forall i :: 0 <= i < |t| - 1 ==> !Telling(t[i], t[i + 1])
  }

  function TellingAt(k: nat): nat
    requires k < |FRAGMENTS|
  {
    [2, 2, 0, 2, 1, 0, 1, 3, 0, 0, 2, 2, 3, 0, 0, 0, 2, 0, 0, 2][k]
  }

  ghost predicate Tells(k: nat)
    requires k < |FRAGMENTS|
  {
    && TellingAt(k) + 1 < |FRAGMENTS[k]|
    && Telling(LowerOne(FRAGMENTS[k][TellingAt(k)] as int), LowerOne(FRAGMENTS[k][TellingAt(k) + 1] as int))
  }

  lemma AddressFragmentTells(k: nat)
    requires k < 5
    ensures Tells(k)
  {
  }

  lemma PeerFragmentTells(k: nat)
    requires 5 <= k < 10
    ensures Tells(k)
  {
  }

  lemma KeyFragmentTells(k: nat)
    requires 10 <= k < 15
    ensures Tells(k)
  {
  }

  lemma SecretFragmentTells(k: nat)
    requires 15 <= k < 20
    ensures Tells(k)
  {
  }

  lemma FragmentTells(k: nat)
    requires k < |FRAGMENTS|
    ensures Tells(k)
  {
    hide Tells;
    assert |FRAGMENTS| == 20;
    if k < 5 {
      AddressFragmentTells(k);
    } else if k < 10 {
      PeerFragmentTells(k);
    } else if k < 15 {
      KeyFragmentTells(k);
    } else {
      SecretFragmentTells(k);
    }
  }

  lemma FragmentIsAscii(k: nat)
    requires k < |FRAGMENTS|
    ensures IsAscii(U(FRAGMENTS[k]))
  {
    assert forall c :: c in FRAGMENTS[k] ==> c as int < 0x80;
    var f := FRAGMENTS[k];
    forall i | 0 <= i < |U(f)| ensures U(f)[i] < 0x80 {
      assert f[i] in f;
    }
  }

  /** A text that contains a prohibited fragment has a telling pair. */
  lemma ContainsTells(t: Text, k: nat)
    requires k < |FRAGMENTS| && Contains(t, Lower(U(FRAGMENTS[k])))
    ensures !Quiet(t)
  {
    FragmentTells(k);
    var s, j := FRAGMENTS[k], TellingAt(k);
    hide TellingAt;
    hide Telling;
    var f := Lower(U(s));
    var i :| 0 <= i <= |t| && OccursAt(t, f, i);
    assert t[i..i + |f|][j] == t[i + j] && t[i..i + |f|][j + 1] == t[i + j + 1];
    assert Telling(t[i + j], t[i + j + 1]);
  }

  predicate FewDots(t: Text) {
    forall p, q, r :: 0 <= p < q < r < |t| ==> !(t[p] == '.' as int && t[q] == '.' as int && t[r] == '.' as int)
  }

  /** ASCII, quiet in lower case, fewer than three dots, no colon unless a timestamp, no path mark. */
  predicate Calm(t: Text) {
    && IsAscii(t) && Quiet(Lower(t)) && FewDots(t)
    && (TimestampShape(t) || ':' as int !in t)
    && (t == PROTOCOL || ('/' as int !in t && '\\' as int !in t && '~' as int !in t))
  }

  lemma CalmPasses(fold: Text -> Text, t: Text)
    requires IsCasefold(fold) && Calm(t)
    ensures Passes(fold, t)
  {
    forall k | 0 <= k < |FRAGMENTS| ensures !Contains(fold(t), fold(U(FRAGMENTS[k]))) {
      FragmentIsAscii(k);
      if Contains(Lower(t), Lower(U(FRAGMENTS[k]))) {
        ContainsTells(Lower(t), k);
      }
    }
    hide U;
    hide Quiet;
    hide TimestampShape;
    assert !Ipv4Search(t);
  }

  // ----- every allowed string is calm -----

  lemma HexIsCalm(t: Text, n: nat)
    requires IsHexText(t, n)
    ensures Calm(t)
  {
  }

  lemma TimestampIsCalm(t: Text)
    requires TimestampShape(t)
    ensures Calm(t)
  {
    TimestampCharacters(t);
    hide TimestampShape;
  }

  lemma TimestampCharacters(t: Text)
    requires TimestampShape(t)
    ensures forall i :: 0 <= i < |t| ==>
      IsDigit(t[i]) || t[i] == '-' as int || t[i] == 'T' as int || t[i] == ':' as int || t[i] == 'Z' as int
  {
    forall i | 0 <= i < |t| ensures
      IsDigit(t[i]) || t[i] == '-' as int || t[i] == 'T' as int || t[i] == ':' as int || t[i] == 'Z' as int
    {
      assert i in {2, 3, 5, 6, 8, 9, 11, 12, 14, 15, 17, 18} || i in {0, 1, 4, 7, 10, 13, 16, 19};
    }
  }

  /** Characters of a toolchain string, by position. */
  lemma ToolchainCharacters(t: Text, i: nat)
    requires Toolchain(t) && i < |t|
    ensures i < 14 ==> t[i] == TOOLCHAIN_HEAD[i]
    ensures 14 <= i < 23 ==> IsLowerHex(t[i])
    ensures 23 <= i < 35 ==> IsDigit(t[i]) || t[i] == ' ' as int || t[i] == '-' as int || t[i] == ')' as int
    ensures 35 <= i ==> t[i] == HOMEBREW[i - 35]
  {
    if i < 14 {
      assert t[i] == t[..14][i];
    } else if 23 <= i < 35 {
      assert i in {26, 27, 29, 30, 32, 33} || i in {23, 24, 25, 28, 31, 34};
    } else if i >= 35 {
      assert t[i] == t[35..][i - 35];
    }
  }

  lemma ToolchainPair(t: Text, i: nat)
    requires Toolchain(t) && i + 1 < |t|
    ensures !Telling(LowerOne(t[i]), LowerOne(t[i + 1]))
  {
    ToolchainCharacters(t, i);
    ToolchainCharacters(t, i + 1);
    hide Toolchain;
    hide U;
    ToolchainWords();
    if i < 13 {
      assert !Telling(LowerOne(TOOLCHAIN_HEAD[i]), LowerOne(TOOLCHAIN_HEAD[i + 1]));
    } else if i >= 35 {
      assert !Telling(LowerOne(HOMEBREW[i - 35]), LowerOne(HOMEBREW[i - 34]));
    }
  }

  lemma ToolchainWords()
    ensures forall i :: 0 <= i < 13 ==> !Telling(LowerOne(TOOLCHAIN_HEAD[i]), LowerOne(TOOLCHAIN_HEAD[i + 1]))
    ensures forall i :: 0 <= i < 10 ==> !Telling(LowerOne(HOMEBREW[i]), LowerOne(HOMEBREW[i + 1]))
    ensures TOOLCHAIN_HEAD[13] == '(' as int && HOMEBREW[0] == ' ' as int
  {
  }

  lemma ToolchainMarks(t: Text, i: nat)
    requires Toolchain(t) && i < |t|
    ensures t[i] < 0x80 && t[i] != ':' as int && t[i] != '/' as int && t[i] != '\\' as int && t[i] != '~' as int
    ensures t[i] == '.' as int <==> i == 7 || i == 10
  {
    ToolchainCharacters(t, i);
  }

  lemma ToolchainIsCalm(t: Text)
    requires Toolchain(t)
    ensures Calm(t)
  {
    forall i | 0 <= i < |t| - 1 ensures !Telling(LowerOne(t[i]), LowerOne(t[i + 1])) {
      ToolchainPair(t, i);
    }
    forall i | 0 <= i < |t| ensures
      t[i] < 0x80 && t[i] != ':' as int && t[i] != '/' as int && t[i] != '\\' as int && t[i] != '~' as int &&
      (t[i] == '.' as int ==> i == 7 || i == 10)
    {
      ToolchainMarks(t, i);
    }
    hide Toolchain;
    hide Telling;
    hide U;
  }

  // ----- the fixed strings of the record -----

  /** Lower-case letters, digits, underscores and hyphens, with no telling pair. */
  predicate SafeWord(t: Text) {
    && Quiet(t)
    && forall i :: 0 <= i < |t| ==>
         'a' as int <= t[i] <= 'z' as int || IsDigit(t[i]) || t[i] == '_' as int || t[i] == '-' as int
  }

  lemma SafeWordIsCalm(t: Text)
    requires SafeWord(t)
    ensures Calm(t)
  {
    hide Telling;
    assert Lower(t) == t;
  }

  /** Words joined at an underscore or a hyphen stay safe. */
  lemma SafeJoin(a: Text, b: Text)
    requires SafeWord(a) && SafeWord(b) && a != [] && (a[|a| - 1] == '_' as int || a[|a| - 1] == '-' as int)
    ensures SafeWord(a + b)
  {
    var t := a + b;
    forall i | 0 <= i < |t| - 1 ensures !Telling(t[i], t[i + 1]) {
      if i < |a| - 1 {
        assert t[i] == a[i] && t[i + 1] == a[i + 1];
      } else if i >= |a| {
        assert t[i] == b[i - |a|] && t[i + 1] == b[i + 1 - |a|];
      }
    }
  }

  const EVIDENCE_KIND: Text :=
    U("operator_") + (U("attested_") + (U("controlled_") + (U("two_host_") + (U("threat_hint_") + U("v2_delivery")))))
  const NETWORK: Text := U("testnet-10")
  const RUNTIME: Text := U("development-") + U("only")
  const TRANSPORT: Text := U("direct-quic-v1")
  const ROUTE_SCOPE: Text := U("single-") + (U("static-") + (U("controlled-") + (U("remote-") + U("quic-peer"))))
  const SEPARATION_CLAIM: Text :=
    U("operator-") + (U("attested-") + (U("not-") + (U("independently-") + U("proven"))))
  const REJECTED: Text := U("rejected")
  const ACK_SCOPE: Text := U("remote-") + (U("local-") + (U("boundary-") + U("only")))
  const ACK_AUTHORITY: Text := U("none")

  /** The same check on a literal, character by character. */
  predicate Spelled(s: string, i: nat)
    decreases |s| - i
  {
    i >= |s| || (
      && ('a' <= s[i] <= 'z' || '0' <= s[i] <= '9' || s[i] == '_' || s[i] == '-')
      && (i + 1 >= |s| || !Telling(s[i] as int, s[i + 1] as int))
      && Spelled(s, i + 1))
  }

  lemma {:induction false} SpelledAt(s: string, i: nat, j: nat)
    requires Spelled(s, i) && i <= j < |s|
    ensures 'a' <= s[j] <= 'z' || '0' <= s[j] <= '9' || s[j] == '_' || s[j] == '-'
    ensures j + 1 < |s| ==> !Telling(s[j] as int, s[j + 1] as int)
    decreases j - i
  {
    if i < j {
      SpelledAt(s, i + 1, j);
    }
  }

  lemma SpelledIsSafe(s: string)
    requires Spelled(s, 0)
    ensures SafeWord(U(s))
  {
    hide Telling;
    var t := U(s);
    forall i | 0 <= i < |t| ensures
      ('a' as int <= t[i] <= 'z' as int || IsDigit(t[i]) || t[i] == '_' as int || t[i] == '-' as int) &&
      (i + 1 < |t| ==> !Telling(t[i], t[i + 1]))
    {
      SpelledAt(s, 0, i);
    }
  }

  /** A literal that ends in a separator, in front of a safe text. */
  lemma SafePrefix(s: string, b: Text)
    requires Spelled(s, 0) && SafeWord(b) && s != "" && (s[|s| - 1] == '_' || s[|s| - 1] == '-')
    ensures SafeWord(U(s) + b)
  {
    SpelledIsSafe(s);
    hide SafeWord;
    SafeJoin(U(s), b);
  }

  lemma KindIsCalm()
    ensures Calm(EVIDENCE_KIND)
  {
    hide SafeWord;
    hide Calm;
    hide U;
    SpelledIsSafe("v2_delivery");
    SafePrefix("threat_hint_", U("v2_delivery"));
    SafePrefix("two_host_", U("threat_hint_") + U("v2_delivery"));
    SafePrefix("controlled_", U("two_host_") + (U("threat_hint_") + U("v2_delivery")));
    SafePrefix("attested_", U("controlled_") + (U("two_host_") + (U("threat_hint_") + U("v2_delivery"))));
    SafePrefix("operator_", U("attested_") + (U("controlled_") + (U("two_host_") + (U("threat_hint_") + U("v2_delivery")))));
    SafeWordIsCalm(EVIDENCE_KIND);
  }

  lemma NetworkIsCalm()
    ensures Calm(NETWORK)
  {
    hide SafeWord;
    hide Calm;
    hide U;
    SpelledIsSafe("testnet-10");
    SafeWordIsCalm(NETWORK);
  }

  lemma RuntimeIsCalm()
    ensures Calm(RUNTIME)
  {
    hide SafeWord;
    hide Calm;
    hide U;
    SpelledIsSafe("only");
    SafePrefix("development-", U("only"));
    SafeWordIsCalm(RUNTIME);
  }

  lemma TransportIsCalm()
    ensures Calm(TRANSPORT)
  {
    hide SafeWord;
    hide Calm;
    hide U;
    SpelledIsSafe("direct-quic-v1");
    SafeWordIsCalm(TRANSPORT);
  }

  lemma ScopeIsCalm()
    ensures Calm(ROUTE_SCOPE)
  {
    hide SafeWord;
    hide Calm;
    hide U;
    SpelledIsSafe("quic-peer");
    SafePrefix("remote-", U("quic-peer"));
    SafePrefix("controlled-", U("remote-") + U("quic-peer"));
    SafePrefix("static-", U("controlled-") + (U("remote-") + U("quic-peer")));
    SafePrefix("single-", U("static-") + (U("controlled-") + (U("remote-") + U("quic-peer"))));
    SafeWordIsCalm(ROUTE_SCOPE);
  }

  lemma ClaimIsCalm()
    ensures Calm(SEPARATION_CLAIM)
  {
    hide SafeWord;
    hide Calm;
    hide U;
    SpelledIsSafe("proven");
    SafePrefix("independently-", U("proven"));
    SafePrefix("not-", U("independently-") + U("proven"));
    SafePrefix("attested-", U("not-") + (U("independently-") + U("proven")));
    SafePrefix("operator-", U("attested-") + (U("not-") + (U("independently-") + U("proven"))));
    SafeWordIsCalm(SEPARATION_CLAIM);
  }

  lemma RejectedIsCalm()
    ensures Calm(REJECTED)
  {
    hide SafeWord;
    hide Calm;
    hide U;
    SpelledIsSafe("rejected");
    SafeWordIsCalm(REJECTED);
  }

  lemma AckScopeIsCalm()
    ensures Calm(ACK_SCOPE)
  {
    hide SafeWord;
    hide Calm;
    hide U;
    SpelledIsSafe("only");
    SafePrefix("boundary-", U("only"));
    SafePrefix("local-", U("boundary-") + U("only"));
    SafePrefix("remote-", U("local-") + (U("boundary-") + U("only")));
    SafeWordIsCalm(ACK_SCOPE);
  }

  lemma AckAuthorityIsCalm()
    ensures Calm(ACK_AUTHORITY)
  {
    hide SafeWord;
    hide Calm;
    hide U;
    SpelledIsSafe("none");
    SafeWordIsCalm(ACK_AUTHORITY);
  }

  /** A piece of the protocol name: ASCII, lower case, no colon, no telling pair. */
  predicate Piece(s: string, i: nat)
    decreases |s| - i
  {
    i >= |s| || (
      && s[i] as int < 0x80 && s[i] != ':' && LowerOne(s[i] as int) == s[i] as int
      && (i + 1 >= |s| || !Telling(s[i] as int, s[i + 1] as int))
      && Piece(s, i + 1))
  }

  lemma {:induction false} PieceAt(s: string, i: nat, j: nat)
    requires Piece(s, i) && i <= j < |s|
    ensures s[j] as int < 0x80 && s[j] != ':' && LowerOne(s[j] as int) == s[j] as int
    ensures j + 1 < |s| ==> !Telling(s[j] as int, s[j + 1] as int)
    decreases j - i
  {
    if i < j {
      PieceAt(s, i + 1, j);
    }
  }

  predicate IsPiece(t: Text) {
    && (forall i :: 0 <= i < |t| ==> t[i] < 0x80 && t[i] != ':' as int && LowerOne(t[i]) == t[i])
    && Quiet(t)
  }

  lemma PieceOfLiteral(s: string)
    requires Piece(s, 0)
    ensures IsPiece(U(s))
  {
    hide Telling;
    var t := U(s);
    forall i | 0 <= i < |t| ensures
      t[i] < 0x80 && t[i] != ':' as int && LowerOne(t[i]) == t[i] && (i + 1 < |t| ==> !Telling(t[i], t[i + 1]))
    {
      PieceAt(s, 0, i);
    }
  }

  /** Pieces joined at a slash stay a piece when the next one starts with neither d nor q. */
  lemma JoinPieces(a: Text, b: Text)
    requires IsPiece(a) && IsPiece(b) && a != [] && a[|a| - 1] == '/' as int
    requires b != [] && b[0] != 'd' as int && b[0] != 'q' as int
    ensures IsPiece(a + b)
  {
    var t := a + b;
    forall i | 0 <= i < |t| - 1 ensures !Telling(t[i], t[i + 1]) {
      if i < |a| - 1 {
        assert t[i] == a[i] && t[i + 1] == a[i + 1];
      } else if i >= |a| {
        assert t[i] == b[i - |a|] && t[i + 1] == b[i + 1 - |a|];
      }
    }
  }

  lemma ProtocolPieces()
    ensures IsPiece(U("/prometheus/")) && IsPiece(U("threat-hint/")) && IsPiece(U("2.0.0"))
    ensures U("/prometheus/")[11] == '/' as int && U("threat-hint/")[0] == 't' as int
    ensures U("threat-hint/")[11] == '/' as int && U("2.0.0")[0] == '2' as int
  {
    hide IsPiece;
    assert Piece("/prometheus/", 6);
    assert Piece("threat-hint/", 6);
    PieceOfLiteral("/prometheus/");
    PieceOfLiteral("threat-hint/");
    PieceOfLiteral("2.0.0");
  }

  lemma ProtocolIsPiece()
    ensures IsPiece(PROTOCOL)
  {
    hide IsPiece;
    ProtocolPieces();
    var a, b, c := U("/prometheus/"), U("threat-hint/"), U("2.0.0");
    JoinPieces(a, b);
    assert (a + b)[|a + b| - 1] == b[|b| - 1];
    JoinPieces(a + b, c);
  }

  /** The dots of the protocol name are in its version. */
  lemma ProtocolDots(i: nat)
    requires i < |PROTOCOL|
    ensures PROTOCOL[i] == '.' as int ==> i == 25 || i == 27
  {
    var a, b, c := U("/prometheus/"), U("threat-hint/"), U("2.0.0");
    assert |a| == 12 && |b| == 12 && |c| == 5;
    if i < 12 {
      assert PROTOCOL[i] == a[i];
    } else if i < 24 {
      assert PROTOCOL[i] == b[i - 12];
    } else {
      assert PROTOCOL[i] == c[i - 24];
    }
  }

  lemma ProtocolIsCalm()
    ensures Calm(PROTOCOL)
  {
    hide U;
    hide Telling;
    var t := PROTOCOL;
    ProtocolIsPiece();
    forall i | 0 <= i < |t| && t[i] == '.' as int ensures i == 25 || i == 27 {
      ProtocolDots(i);
    }
    assert Lower(t) == t;
  }
}
