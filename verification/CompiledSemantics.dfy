/**
  The compiled-artifact gate: a smoke-build manifest, reduced to the fields that do not
  depend on the source text, against the reviewed expectation.
 */
module CompiledSemantics {
  import opened Texts
  import opened CanonicalJson

  datatype Name =
    | SchemaVersion | SilverscriptCommit | Fixtures | FixtureCount
    | ContractName | CompilerVersion | ConstructorArgsSha256 | ScriptSha256 | ScriptLen | Abi | StateLayout | StateLayoutSha256
    | Other(name: Text)

  type Data = Json<Name>
  type Document = map<Name, Data>

  /** canonical_sha256, left abstract. */
  type Hexdigest = Data -> Text

  /** The fields compared besides the contract's name. */
  const GATED: seq<Name> := [Abi, CompilerVersion, ConstructorArgsSha256, ScriptLen, ScriptSha256, StateLayoutSha256]

  const FIXTURE_KEYS: set<Name> := {
    ContractName, CompilerVersion, ConstructorArgsSha256, ScriptSha256, ScriptLen, Abi, StateLayoutSha256
  }

  const EXPECTED_KEYS: set<Name> := {SchemaVersion, SilverscriptCommit, Fixtures}

  // ----- reducing a built manifest -----

  predicate HasFields(e: Document) {
    && ContractName in e && CompilerVersion in e && ConstructorArgsSha256 in e && ScriptSha256 in e && ScriptLen in e
    && Abi in e && StateLayout in e
  }

  function ProjectEntry(digest: Hexdigest, e: Document): (r: Document)
    requires HasFields(e)
  {
    map[ContractName := e[ContractName],
        CompilerVersion := e[CompilerVersion],
        ConstructorArgsSha256 := e[ConstructorArgsSha256],
        ScriptSha256 := e[ScriptSha256],
        ScriptLen := e[ScriptLen],
        Abi := e[Abi],
        StateLayoutSha256 := Str(digest(e[StateLayout]))]
  }

  predicate EntryOk(v: Data) {
    v.Obj? && HasFields(v.members)
  }

  /** When project_built accepts a manifest. */
  predicate Projectable(built: Data) {
    && built.Obj? && PyEqual(Get(built.members, SchemaVersion), Int(1))
    && Get(built.members, Fixtures).Arr? && Get(built.members, SilverscriptCommit).Str?
    && PyEqual(Get(built.members, FixtureCount), Int(|Get(built.members, Fixtures).items|))
    && forall i :: 0 <= i < |Get(built.members, Fixtures).items| ==> EntryOk(Get(built.members, Fixtures).items[i])
  }

  /** The reduced manifest, and the shape of an expectation. */
  datatype Reduced = Reduced(commit: Text, fixtures: seq<Document>)

  function Project(digest: Hexdigest, built: Data): (r: Reduced)
    requires Projectable(built)
  {
    var items := Get(built.members, Fixtures).items;
    Reduced(Get(built.members, SilverscriptCommit).s,
      seq(|items|, i requires 0 <= i < |items| => ProjectEntry(digest, items[i].members)))
  }

  /** The document project_built returns. */
  function AsDocument(r: Reduced): (d: Document) {
    map[SchemaVersion := Int(1), SilverscriptCommit := Str(r.commit),
        Fixtures := Arr(seq(|r.fixtures|, i requires 0 <= i < |r.fixtures| => Obj(r.fixtures[i])))]
  }

  /** project_built. */
  method ProjectBuilt(digest: Hexdigest, built: Data) returns (r: Option<Reduced>)
    ensures r.Some? <==> Projectable(built)
    ensures r.Some? ==> r.value == Project(digest, built)
  {
    if !built.Obj? || !PyEqual(Get(built.members, SchemaVersion), Int(1)) {
      return None;
    }
    var fixtures, commit := Get(built.members, Fixtures), Get(built.members, SilverscriptCommit);
    if !fixtures.Arr? || !commit.Str? {
      return None;
    }
    if !PyEqual(Get(built.members, FixtureCount), Int(|fixtures.items|)) {
      return None;
    }
    hide ProjectEntry;
    hide HasFields;
    var projected: seq<Document> := [];
    for i := 0 to |fixtures.items|
      invariant |projected| == i
      invariant forall j :: 0 <= j < i ==> EntryOk(fixtures.items[j]) && projected[j] == ProjectEntry(digest, fixtures.items[j].members)
    {
      if !EntryOk(fixtures.items[i]) {
        return None;
      }
      projected := projected + [ProjectEntry(digest, fixtures.items[i].members)];
    }
    return Some(Reduced(commit.s, projected));
  }

  // ----- the expectation -----

  /** One expected fixture: exactly the seven fields, each of its kind. */
  predicate FixtureValid(v: Data) {
    && v.Obj? && v.members.Keys == FIXTURE_KEYS
    && v.members[ContractName].Str? && v.members[ContractName].s != []
    && v.members[ConstructorArgsSha256].Str? && IsHexText(v.members[ConstructorArgsSha256].s, 64)
    && v.members[ScriptSha256].Str? && IsHexText(v.members[ScriptSha256].s, 64)
    && v.members[StateLayoutSha256].Str? && IsHexText(v.members[StateLayoutSha256].s, 64)
    && v.members[ScriptLen].Int? && v.members[ScriptLen].n > 0
    && v.members[Abi].Arr? && (forall i :: 0 <= i < |v.members[Abi].items| ==> v.members[Abi].items[i].Str?)
    && v.members[CompilerVersion].Str? && v.members[CompilerVersion].s != []
  }

  /** validate_expected: exactly the three keys, fixtures valid, contract names distinct. */
  predicate ExpectationValid(v: Data) {
    && v.Obj? && v.members.Keys == EXPECTED_KEYS
    && PyEqual(v.members[SchemaVersion], Int(1))
    && v.members[SilverscriptCommit].Str? && IsHexText(v.members[SilverscriptCommit].s, 40)
    && v.members[Fixtures].Arr? && v.members[Fixtures].items != []
    && (forall i :: 0 <= i < |v.members[Fixtures].items| ==> FixtureValid(v.members[Fixtures].items[i]))
    && forall i, j :: 0 <= i < j < |v.members[Fixtures].items| ==>
         Named(v.members[Fixtures].items[i]) != Named(v.members[Fixtures].items[j])
  }

  /** validate_expected, with its set of names seen so far. */
  method ValidateExpected(v: Data) returns (ok: bool)
    ensures ok <==> ExpectationValid(v)
  {
    hide FixtureValid;
    if !v.Obj? || v.members.Keys != EXPECTED_KEYS || !PyEqual(v.members[SchemaVersion], Int(1)) {
      return false;
    }
    var commit, fixtures := v.members[SilverscriptCommit], v.members[Fixtures];
    if !commit.Str? || !IsHexText(commit.s, 40) || !fixtures.Arr? || fixtures.items == [] {
      return false;
    }
    var items, names: set<Data> := fixtures.items, {};
    for i := 0 to |items|
      invariant forall j :: 0 <= j < i ==> FixtureValid(items[j])
      invariant forall j :: 0 <= j < i ==> Named(items[j]) in names
      invariant forall n :: n in names ==> exists j :: 0 <= j < i && Named(items[j]) == n
      invariant forall j, k :: 0 <= j < k < i ==> Named(items[j]) != Named(items[k])
    {
      if !FixtureValid(items[i]) {
        return false;
      }
      if Named(items[i]) in names {
        return false;
      }
      names := names + {Named(items[i])};
    }
    return true;
  }

  function Named(v: Data): Data {
    if v.Obj? then Get(v.members, ContractName) else Null
  }

  ghost function Expectation(v: Data): (r: Reduced)
    requires ExpectationValid(v)
    ensures |r.fixtures| > 0
    ensures forall i :: 0 <= i < |r.fixtures| ==> FixtureValid(Obj(r.fixtures[i]))
    ensures forall i, j :: 0 <= i < j < |r.fixtures| ==> NameOf(r.fixtures[i]) != NameOf(r.fixtures[j])
  {
    assert forall i :: 0 <= i < |v.members[Fixtures].items| ==> v.members[Fixtures].items[i].Obj?;
    hide FixtureValid;
    var items := v.members[Fixtures].items;
    Reduced(v.members[SilverscriptCommit].s, seq(|items|, i requires 0 <= i < |items| => items[i].members))
  }

  function NameOf(e: Document): Data {
    Get(e, ContractName)
  }

  // ----- the comparison -----

  datatype Problem =
    | ExpectedCommit
    | BuiltCommit
    | SetOrOrder
    | FieldDiffers(name: Data, key: Name)

  /** A dict key must be hashable; a list or dict as contract name makes compare fail with an exception. */
  predicate Hashable(v: Data) {
    !v.Arr? && !v.Obj?
  }

  /** The built entry that a dict comprehension over the names would keep: the last one. */
  function ByName(fixtures: seq<Document>, name: Data): (r: Option<Document>)
    ensures r.Some? ==> r.value in fixtures && PyEqual(NameOf(r.value), name)
    ensures r.None? ==> forall i :: 0 <= i < |fixtures| ==> !PyEqual(NameOf(fixtures[i]), name)
  {
    if fixtures == [] then None
    else
      var n := |fixtures| - 1;
      if PyEqual(NameOf(fixtures[n]), name) then Some(fixtures[n]) else ByName(fixtures[..n], name)
  }

  predicate SameNames(a: seq<Document>, b: seq<Document>) {
    |a| == |b| && forall i :: 0 <= i < |a| ==> PyEqual(NameOf(a[i]), NameOf(b[i]))
  }

  /** The gated fields of two fixtures agree. */
  predicate SameGated(a: Document, b: Document) {
    forall i :: 0 <= i < |GATED| ==> PyEqual(Get(a, GATED[i]), Get(b, GATED[i]))
  }

  ghost predicate Differs(expected: Reduced, actual: Reduced, pin: Text, e: Problem) {
    match e
    case ExpectedCommit => expected.commit != pin
    case BuiltCommit => actual.commit != pin
    case SetOrOrder => !SameNames(expected.fixtures, actual.fixtures)
    case FieldDiffers(name, key) =>
      exists i :: 0 <= i < |expected.fixtures| && FieldDiffersAt(expected, actual, i, name, key)
  }

  predicate FieldDiffersAt(expected: Reduced, actual: Reduced, i: nat, name: Data, key: Name)
    requires i < |expected.fixtures|
  {
    var found := ByName(actual.fixtures, NameOf(expected.fixtures[i]));
    && name == NameOf(expected.fixtures[i]) && key in GATED && found.Some?
    && !PyEqual(Get(expected.fixtures[i], key), Get(found.value, key))
  }

  /** compare: None where a built contract name cannot be a dict key. The list is compared as a set, as
      the gate sorts it and drops repetitions. */
  method Compare(expected: Reduced, actual: Reduced, pin: Text) returns (r: Option<seq<Problem>>)
    ensures r.Some? <==> forall i :: 0 <= i < |actual.fixtures| ==> Hashable(NameOf(actual.fixtures[i]))
    ensures r.Some? ==> forall e :: e in r.value <==> Differs(expected, actual, pin, e)
  {
    hide PyEqual;
    var errors: seq<Problem> := [];
    if expected.commit != pin {
      errors := errors + [ExpectedCommit];
    }
    if actual.commit != pin {
      errors := errors + [BuiltCommit];
    }
    if !SameNames(expected.fixtures, actual.fixtures) {
      errors := errors + [SetOrOrder];
    }
    if i :| 0 <= i < |actual.fixtures| && !Hashable(NameOf(actual.fixtures[i])) {
      return None;
    }
    ghost var start := errors;
    for i := 0 to |expected.fixtures|
      invariant forall e :: e in errors <==> e in start || DiffersBefore(expected, actual, i, e)
    {
      var fields := FieldProblems(expected, actual, i);
      errors := errors + fields;
    }
    return Some(errors);
  }

  ghost predicate DiffersBefore(expected: Reduced, actual: Reduced, n: nat, e: Problem)
    requires n <= |expected.fixtures|
  {
    e.FieldDiffers? && exists i :: 0 <= i < n && FieldDiffersAt(expected, actual, i, e.name, e.key)
  }

  /** The inner loop, over the gated keys of one expected fixture. */
  method FieldProblems(expected: Reduced, actual: Reduced, i: nat) returns (errors: seq<Problem>)
    requires i < |expected.fixtures|
    ensures forall e :: e in errors <==> e.FieldDiffers? && FieldDiffersAt(expected, actual, i, e.name, e.key)
  {
    hide PyEqual;
    var exp := expected.fixtures[i];
    var found := ByName(actual.fixtures, NameOf(exp));
    errors := [];
    if found.None? {
      return;
    }
    for j := 0 to |GATED|
      invariant forall e :: e in errors <==>
        e.FieldDiffers? && e.key in GATED[..j] && FieldDiffersAt(expected, actual, i, e.name, e.key)
    {
      assert GATED[..j + 1] == GATED[..j] + [GATED[j]];
      if !PyEqual(Get(exp, GATED[j]), Get(found.value, GATED[j])) {
        errors := errors + [FieldDiffers(NameOf(exp), GATED[j])];
      }
    }
    assert GATED[..|GATED|] == GATED;
  }

  // ----- what passing means -----

  ghost predicate Passes(expected: Reduced, actual: Reduced, pin: Text) {
    forall e :: !Differs(expected, actual, pin, e)
  }

  /** Names of valid fixtures are strings, so they equal only the same string. */
  lemma NameEquals(e: Document, name: Data)
    requires FixtureValid(Obj(e))
    ensures PyEqual(NameOf(e), name) <==> name == NameOf(e)
    ensures PyEqual(name, NameOf(e)) <==> name == NameOf(e)
  {
  }

  ghost predicate ValidFixtures(r: Reduced) {
    && (forall i :: 0 <= i < |r.fixtures| ==> FixtureValid(Obj(r.fixtures[i])))
    && (forall i, j :: 0 <= i < j < |r.fixtures| ==> NameOf(r.fixtures[i]) != NameOf(r.fixtures[j]))
  }

  /** When the names agree in order, looking a fixture up by name finds the one at its own place. */
  lemma FoundInPlace(expected: Reduced, actual: Reduced, i: nat)
    requires ValidFixtures(expected) && SameNames(expected.fixtures, actual.fixtures) && i < |expected.fixtures|
    ensures ByName(actual.fixtures, NameOf(expected.fixtures[i])) == Some(actual.fixtures[i])
  {
    hide FixtureValid;
    hide ByName;
    var name := NameOf(expected.fixtures[i]);
    var found := ByName(actual.fixtures, name);
    NameEquals(expected.fixtures[i], NameOf(actual.fixtures[i]));
    assert PyEqual(NameOf(actual.fixtures[i]), name);
    var j :| 0 <= j < |actual.fixtures| && actual.fixtures[j] == found.value;
    NameEquals(expected.fixtures[i], NameOf(found.value));
    NameEquals(expected.fixtures[j], NameOf(actual.fixtures[j]));
    assert NameOf(expected.fixtures[j]) == name;
  }

  /** compare reports nothing exactly when both commits are the pin and the fixture lists agree, in order,
      on the name and every gated field. */
  lemma PassesExactly(expected: Reduced, actual: Reduced, pin: Text)
    requires ValidFixtures(expected)
    ensures Passes(expected, actual, pin) <==>
      && expected.commit == pin && actual.commit == pin
      && SameNames(expected.fixtures, actual.fixtures)
      && forall i :: 0 <= i < |expected.fixtures| ==> SameGated(expected.fixtures[i], actual.fixtures[i])
  {
    hide FixtureValid;
    hide PyEqual;
    hide ByName;
    if Passes(expected, actual, pin) {
      assert !Differs(expected, actual, pin, ExpectedCommit) && !Differs(expected, actual, pin, BuiltCommit);
      assert !Differs(expected, actual, pin, SetOrOrder);
      forall i, j | 0 <= i < |expected.fixtures| && 0 <= j < |GATED|
        ensures PyEqual(Get(expected.fixtures[i], GATED[j]), Get(actual.fixtures[i], GATED[j]))
      {
        FoundInPlace(expected, actual, i);
        var e := FieldDiffers(NameOf(expected.fixtures[i]), GATED[j]);
        assert !Differs(expected, actual, pin, e);
        assert !FieldDiffersAt(expected, actual, i, e.name, e.key);
      }
    } else if expected.commit == pin && actual.commit == pin && SameNames(expected.fixtures, actual.fixtures) {
      var e :| Differs(expected, actual, pin, e);
      var i :| 0 <= i < |expected.fixtures| && FieldDiffersAt(expected, actual, i, e.name, e.key);
      FoundInPlace(expected, actual, i);
      var j :| 0 <= j < |GATED| && GATED[j] == e.key;
      assert !PyEqual(Get(expected.fixtures[i], GATED[j]), Get(actual.fixtures[i], GATED[j]));
    }
  }

  /** An expectation regenerated from a build passes against that build at the same pin. */
  lemma RegeneratedPasses(digest: Hexdigest, built: Data)
    requires Projectable(built) && ExpectationValid(Obj(AsDocument(Project(digest, built))))
    ensures Expectation(Obj(AsDocument(Project(digest, built)))) == Project(digest, built)
    ensures Passes(Project(digest, built), Project(digest, built), Project(digest, built).commit)
  {
    var r := Project(digest, built);
    hide Projectable;
    hide Project;
    var v := Obj(AsDocument(r));
    assert v.members[Fixtures].items == seq(|r.fixtures|, i requires 0 <= i < |r.fixtures| => Obj(r.fixtures[i]));
    assert Expectation(v).fixtures == r.fixtures;
    hide FixtureValid;
    hide PyEqual;
    forall i | 0 <= i < |r.fixtures| ensures PyEqual(NameOf(r.fixtures[i]), NameOf(r.fixtures[i])) && SameGated(r.fixtures[i], r.fixtures[i]) {
      PyEqualReflexive(NameOf(r.fixtures[i]));
      forall j | 0 <= j < |GATED| ensures PyEqual(Get(r.fixtures[i], GATED[j]), Get(r.fixtures[i], GATED[j])) {
        PyEqualReflexive(Get(r.fixtures[i], GATED[j]));
      }
    }
    PassesExactly(r, r, r.commit);
  }

  // ----- what the verdict does not depend on -----

  /** Two manifest entries that differ at most in fields the gate does not read, such as source and artifact hashes. */
  predicate SameRead(a: Document, b: Document)
    requires HasFields(a) && HasFields(b)
  {
    && a[ContractName] == b[ContractName] && a[CompilerVersion] == b[CompilerVersion]
    && a[ConstructorArgsSha256] == b[ConstructorArgsSha256] && a[ScriptSha256] == b[ScriptSha256]
    && a[ScriptLen] == b[ScriptLen] && a[Abi] == b[Abi] && a[StateLayout] == b[StateLayout]
  }

  /** Builds that agree on the commit and on what the gate reads are reduced alike, so they get the same verdict
      against every expectation. */
  lemma UnreadFieldsDoNotMatter(digest: Hexdigest, a: Data, b: Data)
    requires Projectable(a) && Projectable(b)
    requires Get(a.members, SilverscriptCommit) == Get(b.members, SilverscriptCommit)
    requires |Get(a.members, Fixtures).items| == |Get(b.members, Fixtures).items|
    requires forall i :: 0 <= i < |Get(a.members, Fixtures).items| ==>
      SameRead(Get(a.members, Fixtures).items[i].members, Get(b.members, Fixtures).items[i].members)
    ensures Project(digest, a) == Project(digest, b)
  {
    hide PyEqual;
    var x, y := Get(a.members, Fixtures).items, Get(b.members, Fixtures).items;
    forall i | 0 <= i < |x| ensures ProjectEntry(digest, x[i].members) == ProjectEntry(digest, y[i].members) {
    }
    assert Project(digest, a).fixtures == Project(digest, b).fixtures;
  }

  // ----- the verdict, read from the two documents -----

  /** The manifest entry holds what the expected fixture asks for, and its state layout has the expected digest. */
  predicate EntrySays(digest: Hexdigest, x: Document, y: Document) {
    && Get(y, ContractName) == Get(x, ContractName) && Get(y, Abi) == Get(x, Abi)
    && Get(y, CompilerVersion) == Get(x, CompilerVersion) && Number(Get(y, ScriptLen)) == Number(Get(x, ScriptLen))
    && Get(y, ScriptSha256) == Get(x, ScriptSha256) && Get(y, ConstructorArgsSha256) == Get(x, ConstructorArgsSha256)
    && Get(x, StateLayoutSha256) == Str(digest(Get(y, StateLayout)))
  }

  lemma TextsEqual(a: Data, b: Data)
    requires a.Arr? && forall i :: 0 <= i < |a.items| ==> a.items[i].Str?
    ensures PyEqual(a, b) <==> b == a
  {
    if PyEqual(a, b) {
      assert forall i :: 0 <= i < |a.items| ==> PyEqual(a.items[i], b.items[i]);
      assert b.items == a.items;
    }
  }

  lemma ScalarsEqual(a: Data, b: Data)
    ensures a.Str? ==> (PyEqual(a, b) <==> b == a)
    ensures a.Int? ==> (PyEqual(a, b) <==> Number(b) == Number(a))
  {
  }

  lemma GatedListed(a: Document, b: Document)
    ensures SameGated(a, b) <==>
      && PyEqual(Get(a, Abi), Get(b, Abi)) && PyEqual(Get(a, CompilerVersion), Get(b, CompilerVersion))
      && PyEqual(Get(a, ConstructorArgsSha256), Get(b, ConstructorArgsSha256)) && PyEqual(Get(a, ScriptLen), Get(b, ScriptLen))
      && PyEqual(Get(a, ScriptSha256), Get(b, ScriptSha256)) && PyEqual(Get(a, StateLayoutSha256), Get(b, StateLayoutSha256))
  {
    hide PyEqual;
    hide Get;
    assert GATED[0] == Abi && GATED[1] == CompilerVersion && GATED[2] == ConstructorArgsSha256;
    assert GATED[3] == ScriptLen && GATED[4] == ScriptSha256 && GATED[5] == StateLayoutSha256;
    if SameGated(a, b) {
      assert PyEqual(Get(a, GATED[0]), Get(b, GATED[0])) && PyEqual(Get(a, GATED[1]), Get(b, GATED[1]));
      assert PyEqual(Get(a, GATED[2]), Get(b, GATED[2])) && PyEqual(Get(a, GATED[3]), Get(b, GATED[3]));
      assert PyEqual(Get(a, GATED[4]), Get(b, GATED[4])) && PyEqual(Get(a, GATED[5]), Get(b, GATED[5]));
    }
  }

  lemma EntryExactly(digest: Hexdigest, x: Document, y: Document)
    requires FixtureValid(Obj(x)) && HasFields(y)
    ensures PyEqual(NameOf(x), NameOf(ProjectEntry(digest, y))) && SameGated(x, ProjectEntry(digest, y)) <==> EntrySays(digest, x, y)
  {
    hide PyEqual;
    hide SameGated;
    hide IsHexText;
    var z := ProjectEntry(digest, y);
    GatedListed(x, z);
    ScalarsEqual(x[ContractName], z[ContractName]);
    TextsEqual(x[Abi], z[Abi]);
    ScalarsEqual(x[CompilerVersion], z[CompilerVersion]);
    ScalarsEqual(x[ConstructorArgsSha256], z[ConstructorArgsSha256]);
    ScalarsEqual(x[ScriptLen], z[ScriptLen]);
    ScalarsEqual(x[ScriptSha256], z[ScriptSha256]);
    ScalarsEqual(x[StateLayoutSha256], z[StateLayoutSha256]);
  }

  /** The gate reports nothing exactly when both commits are the pin and, item by item, the manifest entry's own
      values are the expected ones. */
  ghost predicate DocumentsAgree(digest: Hexdigest, v: Data, built: Data, pin: Text)
    requires ExpectationValid(v) && Projectable(built)
  {
    var xs, ys := v.members[Fixtures].items, Get(built.members, Fixtures).items;
    && v.members[SilverscriptCommit] == Str(pin) && Get(built.members, SilverscriptCommit) == Str(pin)
    && |xs| == |ys| && forall i :: 0 <= i < |xs| ==> xs[i].Obj? && ys[i].Obj? && EntrySays(digest, xs[i].members, ys[i].members)
  }

  lemma PassesOnDocuments(digest: Hexdigest, v: Data, built: Data, pin: Text)
    requires ExpectationValid(v) && Projectable(built)
    ensures Passes(Expectation(v), Project(digest, built), pin) <==> DocumentsAgree(digest, v, built, pin)
  {
    hide PyEqual;
    hide FixtureValid;
    hide HasFields;
    hide ProjectEntry;
    hide EntrySays;
    hide SameGated;
    hide Passes;
    hide NameOf;
    var expected, actual := Expectation(v), Project(digest, built);
    var xs, ys := v.members[Fixtures].items, Get(built.members, Fixtures).items;
    PassesExactly(expected, actual, pin);
    ExpectationItems(v);
    if |xs| == |ys| {
      forall i | 0 <= i < |xs| ensures
        PyEqual(NameOf(expected.fixtures[i]), NameOf(actual.fixtures[i])) && SameGated(expected.fixtures[i], actual.fixtures[i]) <==>
        EntrySays(digest, xs[i].members, ys[i].members)
      {
        EntryExactly(digest, xs[i].members, ys[i].members);
      }
    }
  }

  lemma ExpectationItems(v: Data)
    requires ExpectationValid(v)
    ensures var xs := v.members[Fixtures].items;
      && |Expectation(v).fixtures| == |xs| && Expectation(v).commit == v.members[SilverscriptCommit].s
      && forall i :: 0 <= i < |xs| ==> xs[i].Obj? && FixtureValid(xs[i]) && Expectation(v).fixtures[i] == xs[i].members
  {
    forall i | 0 <= i < |v.members[Fixtures].items| ensures v.members[Fixtures].items[i].Obj? {
      assert FixtureValid(v.members[Fixtures].items[i]);
    }
    hide FixtureValid;
  }

  /** Two builds that both pass agree, entry by entry, on everything the gate reads; of the state layout, on its digest. */
  lemma PassingBuildsAgree(digest: Hexdigest, v: Data, a: Data, b: Data, pin: Text, i: nat)
    requires ExpectationValid(v) && Projectable(a) && Projectable(b)
    requires Passes(Expectation(v), Project(digest, a), pin) && Passes(Expectation(v), Project(digest, b), pin)
    requires i < |v.members[Fixtures].items|
    ensures var xs, ys := Get(a.members, Fixtures).items, Get(b.members, Fixtures).items;
      && |xs| == |ys| == |v.members[Fixtures].items| && xs[i].Obj? && ys[i].Obj?
      && var x, y := xs[i].members, ys[i].members;
         && Get(x, ContractName) == Get(y, ContractName) && Get(x, Abi) == Get(y, Abi)
         && Get(x, CompilerVersion) == Get(y, CompilerVersion) && Number(Get(x, ScriptLen)) == Number(Get(y, ScriptLen))
         && Get(x, ScriptSha256) == Get(y, ScriptSha256) && Get(x, ConstructorArgsSha256) == Get(y, ConstructorArgsSha256)
         && digest(Get(x, StateLayout)) == digest(Get(y, StateLayout))
  {
    hide Project;
    hide Projectable;
    hide Passes;
    hide ExpectationValid;
    PassesOnDocuments(digest, v, a, pin);
    PassesOnDocuments(digest, v, b, pin);
  }

  // ----- what the expectation must hold -----

  /** The kind of value each field of an expected fixture has. */
  predicate FieldSays(k: Name, v: Data) {
    match k
    case ContractName | CompilerVersion => v.Str? && |v.s| > 0
    case ConstructorArgsSha256 | ScriptSha256 | StateLayoutSha256 =>
      v.Str? && |v.s| == 64 && forall i :: 0 <= i < 64 ==> 0x30 <= v.s[i] <= 0x39 || 0x61 <= v.s[i] <= 0x66
    case ScriptLen => v.Int? && v.n >= 1
    case Abi => v.Arr? && forall w :: w in v.items ==> w.Str?
    case _ => false
  }

  lemma FixtureExactly(v: Data)
    ensures FixtureValid(v) <==>
      && v.Obj?
      && v.members.Keys == {Abi, CompilerVersion, ConstructorArgsSha256, ContractName, ScriptLen, ScriptSha256, StateLayoutSha256}
      && forall k :: k in v.members ==> FieldSays(k, v.members[k])
  {
    hide FieldSays;
    hide FixtureValid;
    if FixtureValid(v) {
      ValidSays(v);
    }
    if v.Obj? && v.members.Keys == FIXTURE_KEYS && forall k :: k in v.members ==> FieldSays(k, v.members[k]) {
      SaysValid(v.members);
    }
  }

  lemma ValidSays(v: Data)
    requires FixtureValid(v)
    ensures v.Obj? && v.members.Keys == FIXTURE_KEYS && forall k :: k in v.members ==> FieldSays(k, v.members[k])
  {
  }

  lemma SaysValid(m: Document)
    requires m.Keys == FIXTURE_KEYS && forall k :: k in m ==> FieldSays(k, m[k])
    ensures FixtureValid(Obj(m))
  {
    assert FieldSays(Abi, m[Abi]) && FieldSays(CompilerVersion, m[CompilerVersion]) && FieldSays(ContractName, m[ContractName]);
    assert FieldSays(ConstructorArgsSha256, m[ConstructorArgsSha256]) && FieldSays(ScriptSha256, m[ScriptSha256]);
    assert FieldSays(StateLayoutSha256, m[StateLayoutSha256]) && FieldSays(ScriptLen, m[ScriptLen]);
    assert forall i :: 0 <= i < |m[Abi].items| ==> m[Abi].items[i] in m[Abi].items;
  }
}
