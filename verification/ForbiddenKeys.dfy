/**
  The two patterns for keys that must not appear in release documents, spelled out letter
  by letter: which texts a case-insensitive search finds.
 */
module ForbiddenKeys {
  import opened Texts
  import opened RedactionPolicy
  import opened AuditKeys

  // ----- the specification -----

  function SecretWord(k: nat): string {
    match k
    case 0 => "private"
    case 1 => "secret"
    case 2 => "seed"
    case 3 => "mnemonic"
    case 4 => "password"
    case 5 => "passwd"
    case 6 => "wallet"
    case 7 => "keystore"
    case _ => "token"
  }

  function RawWord(k: nat): string {
    match k
    case 0 => "raw"
    case 1 => "signed"
    case _ => "serialized"
  }

  /** The characters a letter of a case-insensitive pattern matches. */
  predicate Matches(c: int, letter: char) {
    || c == letter as int
    || ('a' <= letter <= 'z' && c == letter as int - 0x20)
    || (letter == 'i' && (c == 0x130 || c == 0x131))
    || (letter == 's' && c == 0x17F)
    || (letter == 'k' && c == 0x212A)
  }

  predicate Spells(key: Text, i: int, word: string) {
    0 <= i && i + |word| <= |key| && forall j :: 0 <= j < |word| ==> Matches(key[i + j], word[j])
  }

  ghost predicate Holds(key: Text, word: string) {
    exists i :: Spells(key, i, word)
  }

  ghost predicate SecretSays(key: Text) {
    exists k :: 0 <= k < 9 && Holds(key, SecretWord(k))
  }

  /** A word, anything but a line break, and the word transaction. */
  predicate RawAtSays(key: Text, word: string, i: int, j: int) {
    Spells(key, i, word) && i + |word| <= j && Spells(key, j, "transaction") && forall m :: i + |word| <= m < j ==> key[m] != 0x0A
  }

  ghost predicate RawSays(key: Text) {
    || (exists k, i, j :: 0 <= k < 3 && RawAtSays(key, RawWord(k), i, j))
    || Holds(key, "transaction_hex") || Holds(key, "transaction_bytes")
  }

  ghost predicate ForbiddenSays(key: Text) {
    || (key != U("accepts_private_keys") && SecretSays(key))
    || (key != U("accepts_raw_transactions") && RawSays(key))
  }

  // ----- the patterns meet it -----

  predicate IsPatternWord(word: string) {
    forall j :: 0 <= j < |word| ==> 'a' <= word[j] <= 'z' || word[j] == '_'
  }

  lemma MatchesExactly(c: CodePoint, letter: char)
    requires 'a' <= letter <= 'z' || letter == '_'
    ensures FoldOne(c) == letter as int <==> Matches(c, letter)
  {
  }

  lemma SpellsExactly(key: Text, i: int, word: string)
    requires IsPatternWord(word)
    ensures OccursAt(Fold(key), U(word), i) <==> Spells(key, i, word)
  {
    hide FoldOne;
    hide Matches;
    if 0 <= i && i + |word| <= |key| {
      var found := Fold(key)[i..i + |word|];
      forall j | 0 <= j < |word| ensures found[j] == U(word)[j] <==> Matches(key[i + j], word[j]) {
        MatchesExactly(key[i + j], word[j]);
      }
      if Spells(key, i, word) {
        assert found == U(word);
      }
    }
  }

  lemma HoldsExactly(key: Text, word: string)
    requires IsPatternWord(word)
    ensures Contains(Fold(key), U(word)) <==> Holds(key, word)
  {
    hide Fold;
    hide U;
    forall i ensures OccursAt(Fold(key), U(word), i) <==> Spells(key, i, word) {
      SpellsExactly(key, i, word);
    }
    hide Spells;
    if i :| Spells(key, i, word) {
      assert OccursAt(Fold(key), U(word), i);
    }
  }

  lemma SecretWords(k: nat)
    requires k < 9
    ensures |SECRETS| == 9 && SECRETS[k] == SecretWord(k) && IsPatternWord(SecretWord(k))
  {
  }

  lemma RawWords(k: nat)
    requires k < 3
    ensures |RAWS| == 3 && RAWS[k] == RawWord(k) && IsPatternWord(RawWord(k))
  {
  }

  lemma TransactionWords()
    ensures IsPatternWord("transaction") && IsPatternWord("transaction_hex") && IsPatternWord("transaction_bytes")
  {
  }

  lemma SecretExactly(key: Text)
    ensures IsSecret(key) <==> SecretSays(key)
  {
    hide Contains;
    hide Holds;
    hide Fold;
    hide U;
    hide SecretWord;
    forall k: nat | k < 9
      ensures |SECRETS| == 9 && (Contains(Fold(key), U(SECRETS[k])) <==> Holds(key, SecretWord(k)))
    {
      SecretWords(k);
      HoldsExactly(key, SecretWord(k));
    }
    if k :| 0 <= k < 9 && Holds(key, SecretWord(k)) {
      assert Contains(Fold(key), U(SECRETS[k]));
    }
  }

  lemma RawAtExactly(key: Text, word: string, i: int, j: int)
    requires IsPatternWord(word)
    ensures RawThenTransaction(Fold(key), U(word), i, j) <==> RawAtSays(key, word, i, j)
  {
    hide OccursAt;
    hide Spells;
    TransactionWords();
    SpellsExactly(key, i, word);
    SpellsExactly(key, j, "transaction");
    SpelledInside(key, i, word);
    SpelledInside(key, j, "transaction");
    if 0 <= i && i + |word| <= j && Spells(key, j, "transaction") {
      var between := Fold(key)[i + |word|..j];
      forall m | i + |word| <= m < j ensures between[m - i - |word|] == 0x0A <==> key[m] == 0x0A {
      }
    }
  }

  lemma SpelledInside(key: Text, i: int, word: string)
    ensures Spells(key, i, word) ==> 0 <= i && i + |word| <= |key|
    ensures |U(word)| == |word|
  {
  }

  lemma RawExactly(key: Text)
    ensures IsRaw(key) <==> RawSays(key)
  {
    hide Contains;
    hide Holds;
    hide Fold;
    hide U;
    hide RawWord;
    hide RawThenTransaction;
    hide RawAtSays;
    TransactionWords();
    HoldsExactly(key, "transaction_hex");
    HoldsExactly(key, "transaction_bytes");
    forall k: nat, i: int, j: int | k < 3
      ensures |RAWS| == 3 && (RawThenTransaction(Fold(key), U(RAWS[k]), i, j) <==> RawAtSays(key, RawWord(k), i, j))
    {
      RawWords(k);
      RawAtExactly(key, RawWord(k), i, j);
    }
    if k, i, j :| 0 <= k < 3 && RawAtSays(key, RawWord(k), i, j) {
      RawPlaces(key, RawWord(k), i, j);
      assert RawThenTransaction(Fold(key), U(RAWS[k]), i, j);
    }
  }

  lemma RawPlaces(key: Text, word: string, i: int, j: int)
    requires RawAtSays(key, word, i, j)
    ensures 0 <= i <= |Fold(key)| && i <= j <= |Fold(key)|
  {
  }

  /** The audit refuses a key exactly when it spells one of these words and is not the one flag excepted. */
  lemma ForbiddenExactly(key: Text)
    ensures IsForbidden(key) <==> ForbiddenSays(key)
  {
    hide IsSecret;
    hide IsRaw;
    hide SecretSays;
    hide RawSays;
    SecretExactly(key);
    RawExactly(key);
  }
}
