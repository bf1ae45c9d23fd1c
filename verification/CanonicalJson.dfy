/**
  Python values decoded from JSON, and their canonical text: json.dumps with sorted
  keys, compact separators and ASCII escapes, the form every SHA-256 binding of the
  release pipeline is taken over. A dict is a map, so key order is not part of a value.
 */
module CanonicalJson {
  import opened Texts
  import opened JsonStrings
  import JsonText

  datatype Json<K(==)> =
    | Null
    | Bool(b: bool)
    | Int(n: int)
    | Float(lexeme: Text)
    | Str(s: Text)
    | Arr(items: seq<Json<K>>)
    | Obj(members: map<K, Json<K>>)

  type Value = Json<Text>
  type Dict = map<Text, Value>

  /** dict.get: None for a missing key, which JSON null also decodes to. */
  function Get<K>(d: map<K, Json<K>>, k: K): Json<K> {
    if k in d then d[k] else Null
  }

  // ----- sorted keys -----

  ghost predicate Least(k: Text, ks: set<Text>) {
    k in ks && forall o :: o in ks ==> o == k || Before(k, o)
  }

  lemma LeastOfMore(k: Text, ks: set<Text>, a: Text)
    requires Least(k, ks)
    ensures exists l :: Least(l, ks + {a})
  {
    hide Before;
    BeforeTotal(a, k);
    if Before(a, k) {
      forall o | o in ks + {a} ensures o == a || Before(a, o) {
        if o in ks && o != k {
          BeforeTransitive(a, k, o);
        }
      }
      assert Least(a, ks + {a});
    } else {
      assert Least(k, ks + {a});
    }
  }

  lemma {:induction false} LeastExists(ks: set<Text>)
    requires ks != {}
    ensures exists k :: Least(k, ks)
    decreases |ks|
  {
    var a :| a in ks;
    var others := ks - {a};
    if others == {} {
      assert ks == {a};
      assert Least(a, ks);
    } else {
      LeastExists(others);
      var k :| Least(k, others);
      LeastOfMore(k, others, a);
      assert ks == others + {a};
    }
  }

  predicate Ascending(ks: seq<Text>) {
    forall i, j :: 0 <= i < j < |ks| ==> Before(ks[i], ks[j])
  }

  /** sorted(keys): every key once, in ascending order. */
  ghost function SortedKeys(ks: set<Text>): (r: seq<Text>)
    ensures forall k :: k in ks <==> k in r
    ensures Ascending(r)
    decreases |ks|
  {
    if ks == {} then []
    else
      LeastExists(ks);
      var k :| Least(k, ks);
      var rest := SortedKeys(ks - {k});
      assert forall i :: 0 <= i < |rest| ==> rest[i] in rest;
      [k] + rest
  }

  // ----- between values and documents -----

  /** The document json.dumps writes with sort_keys. */
  ghost function ToNode(v: Value): (n: JsonText.Node)
    decreases v
  {
    match v
    case Null => JsonText.Null
    case Bool(b) => JsonText.Bool(b)
    case Int(i) => JsonText.Int(i)
    case Float(l) => JsonText.Float(l)
    case Str(s) => JsonText.Str(s)
    case Arr(xs) => JsonText.Arr(seq(|xs|, i requires 0 <= i < |xs| => ToNode(xs[i])))
    case Obj(m) =>
      var ks := SortedKeys(m.Keys);
      JsonText.Obj(seq(|ks|, i requires 0 <= i < |ks| => assert ks[i] in m.Keys; JsonText.Member(ks[i], ToNode(m[ks[i]]))))
  }

  /** The value json.loads builds without a pairs hook: the last of equal keys wins. */
  function FromNode(n: JsonText.Node): (v: Value)
    decreases n, 0
  {
    match n
    case Null => Null
    case Bool(b) => Bool(b)
    case Int(i) => Int(i)
    case Float(l) => Float(l)
    case Str(s) => Str(s)
    case Arr(xs) => Arr(seq(|xs|, i requires 0 <= i < |xs| => FromNode(xs[i])))
    case Obj(ms) => Obj(FromMembers(ms))
  }

  function FromMembers(ms: seq<JsonText.Member>): (m: Dict)
    ensures forall k :: k in m <==> exists i :: 0 <= i < |ms| && ms[i].key == k
    decreases ms, 1
  {
    if ms == [] then map[]
    else
      var last := ms[|ms| - 1];
      FromMembers(ms[..|ms| - 1])[last.key := FromNode(last.value)]
  }

  lemma {:induction false} FromMembersAt(ms: seq<JsonText.Member>, i: nat)
    requires JsonText.DistinctKeys(ms) && i < |ms|
    ensures ms[i].key in FromMembers(ms) && FromMembers(ms)[ms[i].key] == FromNode(ms[i].value)
  {
    if i < |ms| - 1 {
      FromMembersAt(ms[..|ms| - 1], i);
    }
  }

  /** Ascending keys are distinct. */
  lemma AscendingDistinct(ks: seq<Text>, ms: seq<JsonText.Member>)
    requires Ascending(ks) && |ms| == |ks| && forall i :: 0 <= i < |ks| ==> ms[i].key == ks[i]
    ensures JsonText.DistinctKeys(ms)
  {
    hide Before;
    forall i, j | 0 <= i < j < |ms| ensures ms[i].key != ms[j].key {
      assert Before(ks[i], ks[j]);
      BeforeIrreflexive(ks[i]);
    }
  }

  lemma SameKeys(m: Dict, ks: seq<Text>, ms: seq<JsonText.Member>)
    requires |ms| == |ks| && (forall i :: 0 <= i < |ks| ==> ms[i].key == ks[i]) && forall k :: k in m <==> k in ks
    ensures FromMembers(ms).Keys == m.Keys
  {
    hide FromNode;
    forall k ensures k in FromMembers(ms) <==> k in m {
      if k in ks {
        var i :| 0 <= i < |ks| && ks[i] == k;
        assert ms[i].key == k;
      }
      if i :| 0 <= i < |ms| && ms[i].key == k {
        assert ks[i] in ks;
      }
    }
  }

  /** Members that list a dict's items once each rebuild the dict. */
  lemma MembersRebuild(m: Dict, ks: seq<Text>, ms: seq<JsonText.Member>)
    requires Ascending(ks) && |ms| == |ks| && forall k :: k in m <==> k in ks
    requires forall i :: 0 <= i < |ks| ==> ms[i].key == ks[i]
    requires forall i :: 0 <= i < |ks| ==> ks[i] in m && FromNode(ms[i].value) == m[ks[i]]
    ensures FromMembers(ms) == m
  {
    hide FromNode;
    hide FromMembers;
    hide Ascending;
    hide JsonText.DistinctKeys;
    AscendingDistinct(ks, ms);
    SameKeys(m, ks, ms);
    var built := FromMembers(ms);
    forall k | k in m.Keys ensures built[k] == m[k] {
      var i :| 0 <= i < |ks| && ks[i] == k;
      FromMembersAt(ms, i);
    }
  }

  /** A value survives being written as a sorted document and rebuilt from it. */
  lemma {:induction false} FromToNode(v: Value)
    ensures FromNode(ToNode(v)) == v
    decreases v
  {
    match v
    case Arr(xs) =>
      forall i | 0 <= i < |xs| ensures FromNode(ToNode(xs[i])) == xs[i] {
        FromToNode(xs[i]);
      }
      assert FromNode(ToNode(v)).items == xs;
    case Obj(m) =>
      var ks := SortedKeys(m.Keys);
      assert forall i :: 0 <= i < |ks| ==> ks[i] in m.Keys;
      forall i | 0 <= i < |ks| ensures FromNode(ToNode(m[ks[i]])) == m[ks[i]] {
        FromToNode(m[ks[i]]);
      }
      MembersRebuild(m, ks, ToNode(v).members);
    case _ =>
  }

  /** A document written with sorted keys repeats none. */
  lemma {:induction false} SortedIsUnique(v: Value)
    ensures JsonText.UniqueKeys(ToNode(v))
    decreases v
  {
    match v
    case Arr(xs) =>
      forall i | 0 <= i < |xs| ensures JsonText.UniqueKeys(ToNode(xs[i])) {
        SortedIsUnique(xs[i]);
      }
    case Obj(m) =>
      var ks := SortedKeys(m.Keys);
      AscendingDistinct(ks, ToNode(v).members);
      forall i | 0 <= i < |ks| ensures ks[i] in m && JsonText.UniqueKeys(ToNode(m[ks[i]])) {
        assert ks[i] in m.Keys;
        SortedIsUnique(m[ks[i]]);
      }
    case _ =>
  }

  /** Strings without an adjacent surrogate pair, floats spelled as numbers. */
  predicate Clean(v: Value)
    decreases v
  {
    match v
    case Float(l) => JsonText.FloatLexeme(l)
    case Str(s) => NoPair(s)
    case Arr(xs) => forall i :: 0 <= i < |xs| ==> Clean(xs[i])
    case Obj(m) => forall k :: k in m ==> NoPair(k) && Clean(m[k])
    case _ => true
  }

  lemma {:induction false} CleanIsPrintable(v: Value)
    requires Clean(v)
    ensures JsonText.Printable(ToNode(v))
    decreases v
  {
    match v
    case Arr(xs) =>
      forall i | 0 <= i < |xs| ensures JsonText.Printable(ToNode(xs[i])) {
        CleanIsPrintable(xs[i]);
      }
    case Obj(m) =>
      var ks := SortedKeys(m.Keys);
      forall i | 0 <= i < |ks| ensures ks[i] in m && NoPair(ks[i]) && JsonText.Printable(ToNode(m[ks[i]])) {
        assert ks[i] in m.Keys;
        CleanIsPrintable(m[ks[i]]);
      }
    case _ =>
  }

  lemma {:induction false} PrintableIsClean(n: JsonText.Node)
    requires JsonText.Printable(n)
    ensures Clean(FromNode(n))
    decreases n, 0
  {
    match n
    case Arr(xs) =>
      forall i | 0 <= i < |xs| ensures Clean(FromNode(xs[i])) {
        PrintableIsClean(xs[i]);
      }
    case Obj(ms) => MembersAreClean(ms);
    case _ =>
  }

  lemma {:induction false} MembersAreClean(ms: seq<JsonText.Member>)
    requires forall i :: 0 <= i < |ms| ==> NoPair(ms[i].key) && JsonText.Printable(ms[i].value)
    ensures forall k :: k in FromMembers(ms) ==> NoPair(k) && Clean(FromMembers(ms)[k])
    decreases ms, 1
  {
    if ms != [] {
      PrintableIsClean(ms[|ms| - 1].value);
      MembersAreClean(ms[..|ms| - 1]);
    }
  }

  // ----- the canonical text -----

  /** json.dumps(value, sort_keys=True, separators=(",", ":")); the text is ASCII, so its bytes are its characters. */
  ghost function Canonical(v: Value): (t: Text) {
    JsonText.Dumps(ToNode(v), JsonText.CANONICAL)
  }

  /** Reading canonical text back gives the value, with no key written twice. */
  lemma CanonicalInverse(v: Value)
    requires Clean(v)
    ensures JsonText.Loads(Canonical(v)).Some?
    ensures FromNode(JsonText.Loads(Canonical(v)).value) == v
    ensures JsonText.Loads(Canonical(v)) == Some(ToNode(v))
  {
    CleanIsPrintable(v);
    JsonText.LoadsDumps(ToNode(v), JsonText.CANONICAL, [], []);
    assert [] + Canonical(v) + [] == Canonical(v);
    FromToNode(v);
  }

  /** Equal canonical texts come from equal values. */
  lemma CanonicalInjective(v: Value, w: Value)
    requires Clean(v) && Clean(w)
    ensures Canonical(v) == Canonical(w) <==> v == w
  {
    CanonicalInverse(v);
    CanonicalInverse(w);
  }

  /** Two files hold the same value exactly when their canonical texts agree, whatever
      their whitespace, key order, escapes and duplicate keys. */
  lemma CanonicalDecidesLoadedEquality(s: Text, t: Text)
    requires NoSurrogates(s) && NoSurrogates(t)
    requires JsonText.Loads(s).Some? && JsonText.Loads(t).Some?
    ensures var v := FromNode(JsonText.Loads(s).value);
      var w := FromNode(JsonText.Loads(t).value);
      Clean(v) && Clean(w) && (Canonical(v) == Canonical(w) <==> v == w)
  {
    JsonText.LoadedRoundTrip(s, JsonText.CANONICAL);
    JsonText.LoadedRoundTrip(t, JsonText.CANONICAL);
    PrintableIsClean(JsonText.Loads(s).value);
    PrintableIsClean(JsonText.Loads(t).value);
    CanonicalInjective(FromNode(JsonText.Loads(s).value), FromNode(JsonText.Loads(t).value));
  }

  /** What write_json stores, indent=2 with sorted keys and a final newline, loads as the same value. */
  lemma WrittenFileLoads(v: Value)
    requires Clean(v)
    ensures var text := JsonText.Dumps(ToNode(v), JsonText.Indented(true)) + [0x0A];
      JsonText.Loads(text) == Some(ToNode(v)) && FromNode(ToNode(v)) == v
  {
    CleanIsPrintable(v);
    var text := JsonText.Dumps(ToNode(v), JsonText.Indented(true)) + [0x0A];
    JsonText.LoadsDumps(ToNode(v), JsonText.Indented(true), [], [0x0A]);
    assert [] + JsonText.Dumps(ToNode(v), JsonText.Indented(true)) + [0x0A] == text;
    FromToNode(v);
  }

  // ----- equality of decoded values -----

  /** Python == on decoded JSON: True is 1 and False is 0; a float equals only a float
      written alike. */
  predicate PyEqual<K(!new)>(a: Json<K>, b: Json<K>)
    decreases a
  {
    match a
    case Null => b.Null?
    case Bool(_) => Number(b) == Number(a)
    case Int(_) => Number(b) == Number(a)
    case Float(l) => b == Float(l)
    case Str(s) => b == Str(s)
    case Arr(xs) => b.Arr? && |b.items| == |xs| && forall i :: 0 <= i < |xs| ==> PyEqual(xs[i], b.items[i])
    case Obj(m) => b.Obj? && b.members.Keys == m.Keys && forall k :: k in m ==> PyEqual(m[k], b.members[k])
  }

  function Number<K>(v: Json<K>): Option<int> {
    match v
    case Bool(b) => Some(if b then 1 else 0)
    case Int(n) => Some(n)
    case _ => None
  }

  lemma {:induction false} PyEqualReflexive<K(!new)>(v: Json<K>)
    ensures PyEqual(v, v)
    decreases v
  {
    match v
    case Arr(xs) =>
      forall i | 0 <= i < |xs| ensures PyEqual(xs[i], xs[i]) {
        PyEqualReflexive(xs[i]);
      }
    case Obj(m) =>
      forall k | k in m ensures PyEqual(m[k], m[k]) {
        PyEqualReflexive(m[k]);
      }
    case _ =>
  }

  /** The value with 1 for True and 0 for False, at every depth. */
  function AsNumbers<K>(v: Json<K>): (w: Json<K>)
    decreases v
  {
    match v
    case Bool(b) => Int(if b then 1 else 0)
    case Arr(xs) => Arr(seq(|xs|, i requires 0 <= i < |xs| => AsNumbers(xs[i])))
    case Obj(m) => Obj(map k | k in m :: AsNumbers(m[k]))
    case _ => v
  }

  /** Python's == is equality once booleans are counted as numbers. */
  lemma {:induction false} PyEqualExactly<K(!new)>(a: Json<K>, b: Json<K>)
    ensures PyEqual(a, b) <==> AsNumbers(a) == AsNumbers(b)
    decreases a
  {
    match a
    case Arr(xs) =>
      if b.Arr? && |b.items| == |xs| {
        forall i | 0 <= i < |xs| ensures PyEqual(xs[i], b.items[i]) <==> AsNumbers(xs[i]) == AsNumbers(b.items[i]) {
          PyEqualExactly(xs[i], b.items[i]);
        }
        var p, q := AsNumbers(a).items, AsNumbers(b).items;
        assert forall i :: 0 <= i < |xs| ==> p[i] == AsNumbers(xs[i]) && q[i] == AsNumbers(b.items[i]);
        if PyEqual(a, b) {
          assert p == q;
        } else {
          var i :| 0 <= i < |xs| && !PyEqual(xs[i], b.items[i]);
          assert p[i] != q[i];
        }
      } else if b.Arr? {
        assert |AsNumbers(a).items| != |AsNumbers(b).items|;
      }
    case Obj(m) =>
      if b.Obj? {
        var n := b.members;
        var p, q := AsNumbers(a).members, AsNumbers(b).members;
        assert p.Keys == m.Keys && q.Keys == n.Keys;
        if m.Keys == n.Keys {
          forall k | k in m ensures PyEqual(m[k], n[k]) <==> p[k] == q[k] {
            PyEqualExactly(m[k], n[k]);
          }
          assert p == q <==> forall k :: k in p ==> p[k] == q[k];
        }
      }
    case _ =>
  }

  // ----- recursive key filters -----

  /** The shape of every reject_*_fields walk: no dict anywhere in the value holds a member
      the filter objects to. */
  predicate KeysAllowed<K(!new)>(v: Json<K>, bad: (K, Json<K>) -> bool)
    decreases v
  {
    match v
    case Arr(xs) => forall i :: 0 <= i < |xs| ==> KeysAllowed(xs[i], bad)
    case Obj(m) => forall k :: k in m ==> !bad(k, m[k]) && KeysAllowed(m[k], bad)
    case _ => true
  }

  datatype Step<K> = Key(k: K) | Index(i: nat)

  /** What a path of keys and indices leads to. */
  function At<K(!new)>(v: Json<K>, path: seq<Step<K>>): (r: Option<Json<K>>)
    decreases |path|
  {
    if path == [] then Some(v)
    else
      match path[0]
      case Key(k) => if v.Obj? && k in v.members then At(v.members[k], path[1..]) else None
      case Index(i) => if v.Arr? && i < |v.items| then At(v.items[i], path[1..]) else None
  }

  ghost predicate BadAt<K(!new)>(v: Json<K>, bad: (K, Json<K>) -> bool, path: seq<Step<K>>, k: K) {
    var at := At(v, path);
    at.Some? && at.value.Obj? && k in at.value.members && bad(k, at.value.members[k])
  }

  /** The walk misses nothing: it passes exactly when no path reaches an objectionable member. */
  lemma {:induction false} KeysAllowedMissesNothing<K(!new)>(v: Json<K>, bad: (K, Json<K>) -> bool)
    ensures KeysAllowed(v, bad) <==> forall path, k :: !BadAt(v, bad, path, k)
  {
    if KeysAllowed(v, bad) {
      forall path, k ensures !BadAt(v, bad, path, k) {
        AllowedEverywhere(v, bad, path, k);
      }
    } else {
      var path, k := FindBad(v, bad);
    }
  }

  lemma {:induction false} AllowedEverywhere<K(!new)>(v: Json<K>, bad: (K, Json<K>) -> bool, path: seq<Step<K>>, k: K)
    requires KeysAllowed(v, bad)
    ensures !BadAt(v, bad, path, k)
    decreases |path|
  {
    if path != [] {
      match path[0]
      case Key(j) =>
        if v.Obj? && j in v.members {
          AllowedEverywhere(v.members[j], bad, path[1..], k);
        }
      case Index(i) =>
        if v.Arr? && i < |v.items| {
          AllowedEverywhere(v.items[i], bad, path[1..], k);
        }
    }
  }

  lemma {:induction false} FindBad<K(!new)>(v: Json<K>, bad: (K, Json<K>) -> bool) returns (path: seq<Step<K>>, k: K)
    requires !KeysAllowed(v, bad)
    ensures BadAt(v, bad, path, k)
    decreases v
  {
    match v
    case Arr(xs) =>
      var i :| 0 <= i < |xs| && !KeysAllowed(xs[i], bad);
      var rest, j := FindBad(xs[i], bad);
      path, k := [Index(i)] + rest, j;
      assert path[1..] == rest;
    case Obj(m) =>
      var j :| j in m && !(!bad(j, m[j]) && KeysAllowed(m[j], bad));
      if bad(j, m[j]) {
        path, k := [], j;
      } else {
        var rest, l := FindBad(m[j], bad);
        path, k := [Key(j)] + rest, l;
        assert path[1..] == rest;
      }
  }

  // ----- hash bindings -----

  /** sha256(...).hexdigest() of a canonical text, left abstract. */
  type Digest = Text -> Text

  /** No collision between the canonical texts of two particular values. */
  ghost predicate NoCollision(sha: Digest, v: Value, w: Value) {
    sha(Canonical(v)) == sha(Canonical(w)) ==> Canonical(v) == Canonical(w)
  }

  lemma DigestDetermines(sha: Digest, v: Value, w: Value)
    requires Clean(v) && Clean(w) && NoCollision(sha, v, w)
    ensures sha(Canonical(v)) == sha(Canonical(w)) <==> v == w
  {
    CanonicalInjective(v, w);
  }

  /** How a document is hashed: canonical_json_bytes, then SHA-256. */
  ghost function Hashed(sha: Digest): Value -> Text {
    v => sha(Canonical(v))
  }

  /** The producer's side: the digest of the unsealed document is added under the key. */
  function Seal<K>(digest: Json<K> -> Text, body: map<K, Json<K>>, key: K): (doc: map<K, Json<K>>) {
    body[key := Str(digest(Obj(body)))]
  }

  /** The verifier's side, hash_without_key: the seal is a non-empty string, the digest of the document
      without it. */
  predicate SealMatches<K>(digest: Json<K> -> Text, doc: map<K, Json<K>>, key: K) {
    key in doc && doc[key].Str? && doc[key].s != [] && doc[key].s == digest(Obj(doc - {key}))
  }

  ghost predicate IsSealed<K(!new)>(digest: Json<K> -> Text, doc: map<K, Json<K>>, key: K, body: map<K, Json<K>>) {
    key !in body && digest(Obj(body)) != [] && doc == Seal(digest, body, key)
  }

  /** The verifier accepts exactly the documents the producer can seal. */
  lemma SealVerifiesExactlySealed<K(!new)>(digest: Json<K> -> Text, doc: map<K, Json<K>>, key: K)
    ensures SealMatches(digest, doc, key) <==> exists body :: IsSealed(digest, doc, key, body)
  {
    if SealMatches(digest, doc, key) {
      var body := doc - {key};
      assert doc == Seal(digest, body, key);
      assert IsSealed(digest, doc, key, body);
    }
    if body :| IsSealed(digest, doc, key, body) {
      assert doc - {key} == body;
    }
  }

  /** Without a collision, two accepted documents with one seal are one document:
      no field of a sealed document can change under the same seal. */
  lemma SealDetermines(sha: Digest, a: Dict, b: Dict, key: Text)
    requires SealMatches(Hashed(sha), a, key) && SealMatches(Hashed(sha), b, key) && a[key] == b[key]
    requires Clean(Obj(a)) && Clean(Obj(b))
    requires NoCollision(sha, Obj(a - {key}), Obj(b - {key}))
    ensures a == b
  {
    hide Canonical;
    var a', b' := a - {key}, b - {key};
    assert Clean(Obj(a')) && Clean(Obj(b'));
    DigestDetermines(sha, Obj(a'), Obj(b'));
    assert a == a'[key := a[key]] && b == b'[key := b[key]];
  }
}
