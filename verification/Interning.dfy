/**
  Between documents with interned keys and JSON text. The release programs are modelled over
  key names that are constructors; a spelling says how a name is written and which name a
  written key is, and turns an interned document into the text of its file and back.
 */
module Interning {
  import opened Texts
  import opened JsonStrings
  import JsonText
  import opened CanonicalJson

  datatype Spelling<!K(==, !new)> = Spelling(write: K -> Text, read: Text -> K) {
    /** Every key has one name, and that name is written as the key. */
    ghost predicate Valid() {
      forall t :: write(read(t)) == t
    }

    /** A name that is not another name in disguise, and can be written. */
    predicate Proper(k: K) {
      read(write(k)) == k && NoPair(write(k))
    }

    ghost function Writes(ks: set<K>): (ts: set<Text>)
      ensures forall k :: k in ks ==> write(k) in ts
      ensures forall t :: t in ts ==> exists k :: k in ks && t == write(k)
    {
      set k | k in ks :: write(k)
    }

    ghost function Reads(ts: set<Text>): (ks: set<K>)
      ensures forall t :: t in ts ==> read(t) in ks
      ensures forall k :: k in ks ==> exists t :: t in ts && k == read(t)
    {
      set t | t in ts :: read(t)
    }
  }

  /** Proper names, strings without an adjacent surrogate pair, floats spelled as numbers. */
  predicate Writable<K(!new)>(s: Spelling<K>, v: Json<K>)
    decreases v
  {
    match v
    case Float(l) => JsonText.FloatLexeme(l)
    case Str(t) => NoPair(t)
    case Arr(xs) => forall i :: 0 <= i < |xs| ==> Writable(s, xs[i])
    case Obj(m) => forall k :: k in m ==> s.Proper(k) && Writable(s, m[k])
    case _ => true
  }

  /** The document with its names written out. */
  ghost function Spelled<K(!new)>(s: Spelling<K>, v: Json<K>): (w: Value)
    requires Writable(s, v)
    decreases v
  {
    match v
    case Null => Null
    case Bool(b) => Bool(b)
    case Int(n) => Int(n)
    case Float(l) => Float(l)
    case Str(t) => Str(t)
    case Arr(xs) => Arr(seq(|xs|, i requires 0 <= i < |xs| => Spelled(s, xs[i])))
    case Obj(m) => Obj(map t | t in s.Writes(m.Keys) :: Spelled(s, m[s.read(t)]))
  }

  /** The document with its keys interned. */
  ghost function Interned<K(!new)>(s: Spelling<K>, w: Value): (v: Json<K>)
    requires s.Valid()
    decreases w
  {
    match w
    case Null => Null
    case Bool(b) => Bool(b)
    case Int(n) => Int(n)
    case Float(l) => Float(l)
    case Str(t) => Str(t)
    case Arr(xs) => Arr(seq(|xs|, i requires 0 <= i < |xs| => Interned(s, xs[i])))
    case Obj(m) => Obj(map k | k in s.Reads(m.Keys) :: Interned(s, m[s.write(k)]))
  }

  /** Where the members of a spelled document come from. */
  ghost predicate IsSpelling<K(!new)>(s: Spelling<K>, m: map<K, Json<K>>, w: Dict) {
    && (forall k :: k in m ==> s.write(k) in w)
    && (forall t :: t in w ==> s.read(t) in m && s.write(s.read(t)) == t)
  }

  lemma SpelledMembers<K(!new)>(s: Spelling<K>, m: map<K, Json<K>>)
    requires s.Valid() && Writable(s, Obj(m))
    ensures Spelled(s, Obj(m)).Obj?
    ensures var w := Spelled(s, Obj(m)).members;
      IsSpelling(s, m, w) && forall k :: k in m ==> w[s.write(k)] == Spelled(s, m[k])
  {
  }

  lemma InternedMembers<K(!new)>(s: Spelling<K>, w: Dict)
    requires s.Valid()
    ensures Interned(s, Obj(w)).Obj?
    ensures var m := Interned(s, Obj(w)).members;
      && IsSpelling(s, m, w) && (forall k :: k in m ==> s.read(s.write(k)) == k)
      && forall t :: t in w ==> m[s.read(t)] == Interned(s, w[t])
  {
  }

  /** Spelling a document out and interning it again changes nothing. */
  lemma {:induction false} InternedSpelled<K(!new)>(s: Spelling<K>, v: Json<K>)
    requires s.Valid() && Writable(s, v)
    ensures Interned(s, Spelled(s, v)) == v
    decreases v
  {
    match v
    case Arr(xs) =>
      forall i | 0 <= i < |xs| ensures Interned(s, Spelled(s, xs[i])) == xs[i] {
        InternedSpelled(s, xs[i]);
      }
      assert Interned(s, Spelled(s, v)).items == xs;
    case Obj(m) =>
      forall k | k in m ensures Interned(s, Spelled(s, m[k])) == m[k] {
        InternedSpelled(s, m[k]);
      }
      ObjectInternedSpelled(s, m);
    case _ =>
  }

  lemma ObjectInternedSpelled<K(!new)>(s: Spelling<K>, m: map<K, Json<K>>)
    requires s.Valid() && Writable(s, Obj(m))
    requires forall k :: k in m ==> Interned(s, Spelled(s, m[k])) == m[k]
    ensures Interned(s, Spelled(s, Obj(m))) == Obj(m)
  {
    hide Spelled;
    hide Interned;
    hide Spelling.Valid;
    SpelledMembers(s, m);
    var w := Spelled(s, Obj(m)).members;
    InternedMembers(s, w);
    var back := Interned(s, Obj(w)).members;
    forall k | k in m ensures k in back && back[k] == m[k] {
      assert s.Proper(k);
      assert s.write(k) in w;
    }
    forall k | k in back ensures k in m {
      assert s.write(k) in w;
    }
  }

  lemma {:induction false} SpelledIsClean<K(!new)>(s: Spelling<K>, v: Json<K>)
    requires s.Valid() && Writable(s, v)
    ensures Clean(Spelled(s, v))
    decreases v
  {
    match v
    case Arr(xs) =>
      forall i | 0 <= i < |xs| ensures Clean(Spelled(s, xs[i])) {
        SpelledIsClean(s, xs[i]);
      }
    case Obj(m) =>
      forall k | k in m ensures s.Proper(k) && Clean(Spelled(s, m[k])) {
        SpelledIsClean(s, m[k]);
      }
      SpelledMembers(s, m);
      var w := Spelled(s, v).members;
      forall t | t in w ensures NoPair(t) && Clean(w[t]) {
        var k := s.read(t);
        assert s.write(k) == t && w[s.write(k)] == Spelled(s, m[k]);
      }
    case _ =>
  }

  /** Two documents are spelled alike only if they are the same. */
  lemma SpelledInjective<K(!new)>(s: Spelling<K>, v: Json<K>, w: Json<K>)
    requires s.Valid() && Writable(s, v) && Writable(s, w)
    ensures Spelled(s, v) == Spelled(s, w) <==> v == w
  {
    hide Spelled;
    hide Interned;
    InternedSpelled(s, v);
    InternedSpelled(s, w);
  }

  /** Whatever a file decodes to has an interned form that can be written. */
  lemma {:induction false} InternedIsWritable<K(!new)>(s: Spelling<K>, w: Value)
    requires s.Valid() && Clean(w)
    ensures Writable(s, Interned(s, w))
    decreases w
  {
    match w
    case Arr(xs) =>
      forall i | 0 <= i < |xs| ensures Writable(s, Interned(s, xs[i])) {
        InternedIsWritable(s, xs[i]);
      }
    case Obj(m) =>
      forall t | t in m ensures NoPair(t) && Writable(s, Interned(s, m[t])) {
        InternedIsWritable(s, m[t]);
      }
      InternedMembers(s, m);
      var v := Interned(s, w).members;
      forall k | k in v ensures s.Proper(k) && Writable(s, v[k]) {
        var t := s.write(k);
        assert t in m && v[s.read(t)] == Interned(s, m[t]);
      }
    case _ =>
  }

  // ----- files -----

  /** write_json: two-space indentation, sorted keys, a final newline. */
  ghost function FileText<K(!new)>(s: Spelling<K>, v: Json<K>): Text
    requires Writable(s, v)
  {
    JsonText.Dumps(ToNode(Spelled(s, v)), JsonText.Indented(true)) + [0x0A]
  }

  /** json.loads of a file's text, with its keys interned. */
  ghost function Load<K(!new)>(s: Spelling<K>, text: Text): (r: Option<Json<K>>)
    requires s.Valid()
  {
    var n := JsonText.Loads(text);
    if n.Some? then Some(Interned(s, FromNode(n.value))) else None
  }

  /** The text is ASCII, so encoding it cannot fail. */
  lemma FileIsAscii<K(!new)>(s: Spelling<K>, v: Json<K>)
    requires s.Valid() && Writable(s, v)
    ensures IsAscii(FileText(s, v))
  {
    SpelledIsClean(s, v);
    CleanIsPrintable(Spelled(s, v));
    JsonText.PrintIsAscii(ToNode(Spelled(s, v)), JsonText.Indented(true), 0);
  }

  /** A written document loads back as itself. */
  lemma FileLoads<K(!new)>(s: Spelling<K>, v: Json<K>)
    requires s.Valid() && Writable(s, v)
    ensures Load(s, FileText(s, v)) == Some(v)
  {
    SpelledIsClean(s, v);
    WrittenFileLoads(Spelled(s, v));
    InternedSpelled(s, v);
  }

  /** What a file loads as can be written again. */
  lemma LoadedIsWritable<K(!new)>(s: Spelling<K>, text: Text)
    requires s.Valid() && NoSurrogates(text) && Load(s, text).Some?
    ensures Writable(s, Load(s, text).value)
  {
    JsonText.LoadedRoundTrip(text, JsonText.CANONICAL);
    PrintableIsClean(JsonText.Loads(text).value);
    InternedIsWritable(s, FromNode(JsonText.Loads(text).value));
  }

  // ----- seals -----

  /** sha256(canonical_json_bytes(value)).hexdigest(), on the documents that have a text. */
  ghost predicate DigestsText<K(!new)>(s: Spelling<K>, sha: Digest, digest: Json<K> -> Text) {
    forall v :: Writable(s, v) ==> digest(v) == sha(Canonical(Spelled(s, v)))
  }

  ghost predicate NoTextCollision<K(!new)>(s: Spelling<K>, sha: Digest, v: Json<K>, w: Json<K>)
    requires Writable(s, v) && Writable(s, w)
  {
    NoCollision(sha, Spelled(s, v), Spelled(s, w))
  }

  lemma Unsealed<K(!new)>(s: Spelling<K>, d: map<K, Json<K>>, key: K)
    requires Writable(s, Obj(d))
    ensures Writable(s, Obj(d - {key}))
  {
  }

  /** Without a collision, two interned documents that verify under one seal are the same document. */
  lemma SealPins<K(!new)>(s: Spelling<K>, sha: Digest, digest: Json<K> -> Text, a: map<K, Json<K>>, b: map<K, Json<K>>, key: K)
    requires s.Valid() && DigestsText(s, sha, digest) && Writable(s, Obj(a)) && Writable(s, Obj(b))
    requires SealMatches(digest, a, key) && SealMatches(digest, b, key) && a[key] == b[key]
    requires Writable(s, Obj(a - {key})) && Writable(s, Obj(b - {key})) && NoTextCollision(s, sha, Obj(a - {key}), Obj(b - {key}))
    ensures a == b
  {
    hide Spelled;
    hide Writable;
    hide Canonical;
    hide Clean;
    var a', b' := a - {key}, b - {key};
    SpelledIsClean(s, Obj(a'));
    SpelledIsClean(s, Obj(b'));
    DigestDetermines(sha, Spelled(s, Obj(a')), Spelled(s, Obj(b')));
    SpelledInjective(s, Obj(a'), Obj(b'));
    assert a == a'[key := a[key]] && b == b'[key := b[key]];
  }
}
