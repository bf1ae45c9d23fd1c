/**
  The Cargo.lock part of the toolchain gate: every Kaspa package must come from one git
  source at the policy's tag and commit, and SilverScript from its own.
 */
module CargoLock {
  import opened Texts
  import opened PyStrings

  datatype GitSource = GitSource(url: Text, query: seq<(Text, Text)>, commit: Text)

  datatype Policy = Policy(
    kaspaUrl: Text, kaspaTag: Text, kaspaCommit: Text, direct: seq<Text>,
    silverscript: Text, silverscriptUrl: Text, silverscriptCommit: Text)

  /** One [[package]] entry; Malformed when it is no table or has no string name. The source is None
      when it is missing or no string. */
  datatype Package = Malformed | Package(name: Text, version: Text, source: Option<Text>)

  /** urlsplit and parse_qsl, left abstract: the URL without query and fragment, and the query's pairs. */
  type Splitter = Text -> (Text, seq<(Text, Text)>)

  const HASHMARK: int := '#' as int

  /** parse_git_source: git+URL?query#commit. */
  function ParseGitSource(split: Splitter, raw: Text): (r: Option<GitSource>) {
    if !(U("git+") <= raw) then None
    else
      var rest := raw[4..];
      var base := rest[..IndexOf(rest, HASHMARK)];
      var commit := if |base| < |rest| then rest[|base| + 1..] else [];
      Some(GitSource(split(base).0, split(base).1, commit))
  }

  function Source(split: Splitter, p: Package): (r: Option<GitSource>) {
    if p.Package? && p.source.Some? then ParseGitSource(split, p.source.value) else None
  }

  predicate OnUrl(split: Splitter, p: Package, url: Text) {
    Source(split, p).Some? && Source(split, p).value.url == url
  }

  /** Checked as SilverScript: by name, or by where it comes from. */
  predicate IsSilverscript(split: Splitter, policy: Policy, p: Package) {
    p.Package? && (p.name == policy.silverscript || OnUrl(split, p, policy.silverscriptUrl))
  }

  predicate NamedSilverscript(policy: Policy, p: Package) {
    p.Package? && p.name == policy.silverscript
  }

  /** Checked as part of the Kaspa graph: by prefix, or by where it comes from. */
  predicate IsKaspa(split: Splitter, policy: Policy, p: Package): (r: bool)
    ensures r ==> p.Package?
  {
    && p.Package? && !IsSilverscript(split, policy, p)
    && (U("kaspa-") <= p.name || OnUrl(split, p, policy.kaspaUrl))
  }

  datatype Problem =
    | NoPackages
    | MalformedPackage
    | NotGit(name: Text, version: Text)
    | NoSource(name: Text, version: Text)
    | WrongUrl(name: Text, version: Text, found: Text, wanted: Text)
    | WrongQuery(name: Text, version: Text, query: seq<(Text, Text)>)
    | WrongCommit(name: Text, version: Text, found: Text, wanted: Text)
    | LockedTimes(name: Text, times: nat)
    | SplitGraph(sources: set<Text>)
    | NotLocked(name: Text)
    | SilverscriptTimes(times: nat)

  /** The complaints about where one package comes from. */
  function SourceProblems(p: Package, s: GitSource, url: Text, query: seq<(Text, Text)>, commit: Text): (es: seq<Problem>)
    requires p.Package?
  {
    (if s.url != url then [WrongUrl(p.name, p.version, s.url, url)] else []) +
    (if s.query != query then [WrongQuery(p.name, p.version, s.query)] else []) +
    (if s.commit != commit then [WrongCommit(p.name, p.version, s.commit, commit)] else [])
  }

  function PackageProblems(split: Splitter, policy: Policy, p: Package): (es: seq<Problem>) {
    if p.Malformed? then [MalformedPackage]
    else if IsSilverscript(split, policy, p) then
      if Source(split, p).None? then [NotGit(p.name, p.version)]
      else SourceProblems(p, Source(split, p).value, policy.silverscriptUrl, [(U("rev"), policy.silverscriptCommit)], policy.silverscriptCommit)
    else if IsKaspa(split, policy, p) then
      if p.source.None? then [NoSource(p.name, p.version)]
      else if Source(split, p).None? then [NotGit(p.name, p.version)]
      else SourceProblems(p, Source(split, p).value, policy.kaspaUrl, [(U("tag"), policy.kaspaTag)], policy.kaspaCommit)
    else []
  }

  // ----- what the whole lock is held to -----

  function CountIf(ps: seq<Package>, f: Package -> bool): (n: nat) {
    if ps == [] then 0 else CountIf(ps[..|ps| - 1], f) + if f(ps[|ps| - 1]) then 1 else 0
  }

  function KaspaNamed(split: Splitter, policy: Policy, name: Text): Package -> bool {
    (p: Package) => IsKaspa(split, policy, p) && p.name == name
  }

  function SilverscriptNamed(policy: Policy): Package -> bool {
    (p: Package) => NamedSilverscript(policy, p)
  }

  function KaspaCount(split: Splitter, policy: Policy, ps: seq<Package>, name: Text): (n: nat) {
    CountIf(ps, KaspaNamed(split, policy, name))
  }

  function SilverscriptCount(policy: Policy, ps: seq<Package>): (n: nat) {
    CountIf(ps, SilverscriptNamed(policy))
  }

  ghost predicate IsKaspaSource(split: Splitter, policy: Policy, ps: seq<Package>, raw: Text) {
    exists i :: 0 <= i < |ps| && IsKaspa(split, policy, ps[i]) && ps[i].source == Some(raw)
  }

  /** The errors the gate reports, one kind at a time. */
  ghost predicate Reported(split: Splitter, policy: Policy, ps: seq<Package>, e: Problem) {
    match e
    case NoPackages => false
    case LockedTimes(name, times) => times > 1 && times == KaspaCount(split, policy, ps, name)
    case SplitGraph(sources) => |sources| > 1 && forall raw :: raw in sources <==> IsKaspaSource(split, policy, ps, raw)
    case NotLocked(name) => name in policy.direct && KaspaCount(split, policy, ps, name) == 0
    case SilverscriptTimes(times) => times != 1 && times == SilverscriptCount(policy, ps)
    case _ => exists i :: 0 <= i < |ps| && e in PackageProblems(split, policy, ps[i])
  }

  /** What the package loop has collected. */
  datatype Tally = Tally(seen: map<Text, nat>, sources: set<Text>, silverscript: nat, errors: seq<Problem>)

  ghost predicate PackageReported(split: Splitter, policy: Policy, ps: seq<Package>, e: Problem) {
    exists i :: 0 <= i < |ps| && e in PackageProblems(split, policy, ps[i])
  }

  function Times(seen: map<Text, nat>, name: Text): nat {
    if name in seen then seen[name] else 0
  }

  ghost predicate Collected(split: Splitter, policy: Policy, ps: seq<Package>, t: Tally) {
    && t.silverscript == SilverscriptCount(policy, ps)
    && (forall name :: Times(t.seen, name) == KaspaCount(split, policy, ps, name))
    && (forall name :: name in t.seen ==> t.seen[name] > 0)
    && (forall raw :: raw in t.sources <==> IsKaspaSource(split, policy, ps, raw))
    && (forall e :: e in t.errors <==> PackageReported(split, policy, ps, e))
  }

  /** What one package adds. */
  function Add(split: Splitter, policy: Policy, t: Tally, p: Package): Tally {
    Tally(
      if IsKaspa(split, policy, p) then t.seen[p.name := Times(t.seen, p.name) + 1] else t.seen,
      if IsKaspa(split, policy, p) && p.source.Some? then t.sources + {p.source.value} else t.sources,
      if NamedSilverscript(policy, p) then t.silverscript + 1 else t.silverscript,
      t.errors + PackageProblems(split, policy, p))
  }

  lemma CountSnoc(ps: seq<Package>, p: Package, f: Package -> bool)
    ensures CountIf(ps + [p], f) == CountIf(ps, f) + if f(p) then 1 else 0
  {
    assert (ps + [p])[..|ps|] == ps;
  }

  lemma AddCollects(split: Splitter, policy: Policy, ps: seq<Package>, t: Tally, p: Package)
    requires Collected(split, policy, ps, t)
    ensures Collected(split, policy, ps + [p], Add(split, policy, t, p))
  {
    hide IsKaspa;
    hide PackageProblems;
    hide NamedSilverscript;
    var ps', t' := ps + [p], Add(split, policy, t, p);
    CountSnoc(ps, p, SilverscriptNamed(policy));
    forall name ensures Times(t'.seen, name) == KaspaCount(split, policy, ps', name) {
      CountSnoc(ps, p, KaspaNamed(split, policy, name));
      assert Times(t.seen, name) == KaspaCount(split, policy, ps, name);
    }
    SourcesSnoc(split, policy, ps, t, p);
    ErrorsSnoc(split, policy, ps, t, p);
  }

  lemma SourcesSnoc(split: Splitter, policy: Policy, ps: seq<Package>, t: Tally, p: Package)
    requires forall raw :: raw in t.sources <==> IsKaspaSource(split, policy, ps, raw)
    ensures forall raw :: raw in Add(split, policy, t, p).sources <==> IsKaspaSource(split, policy, ps + [p], raw)
  {
    hide IsKaspa;
    hide PackageProblems;
    var ps' := ps + [p];
    forall raw ensures raw in Add(split, policy, t, p).sources <==> IsKaspaSource(split, policy, ps', raw) {
      if IsKaspaSource(split, policy, ps, raw) {
        var i :| 0 <= i < |ps| && IsKaspa(split, policy, ps[i]) && ps[i].source == Some(raw);
        assert ps'[i] == ps[i];
      }
      if IsKaspa(split, policy, p) && p.source == Some(raw) {
        assert ps'[|ps|] == p;
      }
      if IsKaspaSource(split, policy, ps', raw) {
        var i :| 0 <= i < |ps'| && IsKaspa(split, policy, ps'[i]) && ps'[i].source == Some(raw);
        if i < |ps| {
          assert ps[i] == ps'[i];
        }
      }
    }
  }

  lemma ErrorsSnoc(split: Splitter, policy: Policy, ps: seq<Package>, t: Tally, p: Package)
    requires forall e :: e in t.errors <==> PackageReported(split, policy, ps, e)
    ensures forall e :: e in Add(split, policy, t, p).errors <==> PackageReported(split, policy, ps + [p], e)
  {
    hide IsKaspa;
    hide PackageProblems;
    var ps' := ps + [p];
    forall e ensures e in Add(split, policy, t, p).errors <==> PackageReported(split, policy, ps', e) {
      if PackageReported(split, policy, ps, e) {
        var i :| 0 <= i < |ps| && e in PackageProblems(split, policy, ps[i]);
        assert ps'[i] == ps[i];
      }
      if e in PackageProblems(split, policy, p) {
        assert ps'[|ps|] == p;
      }
      if PackageReported(split, policy, ps', e) {
        var i :| 0 <= i < |ps'| && e in PackageProblems(split, policy, ps'[i]);
        if i < |ps| {
          assert ps[i] == ps'[i];
        }
      }
    }
  }

  /** The loop of _check_lock over the packages. */
  method Tallied(split: Splitter, policy: Policy, ps: seq<Package>) returns (t: Tally)
    ensures Collected(split, policy, ps, t)
  {
    hide OnUrl;
    hide Source;
    hide SourceProblems;
    hide Collected;
    var seen: map<Text, nat>, sources: set<Text>, silverscript: nat, errors: seq<Problem> := map[], {}, 0, [];
    NothingCollected(split, policy);
    for i := 0 to |ps|
      invariant Collected(split, policy, ps[..i], Tally(seen, sources, silverscript, errors))
    {
      var p := ps[i];
      AddCollects(split, policy, ps[..i], Tally(seen, sources, silverscript, errors), p);
      assert ps[..i + 1] == ps[..i] + [p];
      if p.Malformed? {
        errors := errors + [MalformedPackage];
        continue;
      }
      var source := Source(split, p);
      if p.name == policy.silverscript || OnUrl(split, p, policy.silverscriptUrl) {
        if p.name == policy.silverscript {
          silverscript := silverscript + 1;
        }
        if source.None? {
          errors := errors + [NotGit(p.name, p.version)];
          continue;
        }
        errors := errors +
          SourceProblems(p, source.value, policy.silverscriptUrl, [(U("rev"), policy.silverscriptCommit)], policy.silverscriptCommit);
        continue;
      }
      if !(U("kaspa-") <= p.name || OnUrl(split, p, policy.kaspaUrl)) {
        assert errors + [] == errors;
        continue;
      }
      seen := seen[p.name := Times(seen, p.name) + 1];
      if p.source.None? {
        errors := errors + [NoSource(p.name, p.version)];
        continue;
      }
      sources := sources + {p.source.value};
      if source.None? {
        errors := errors + [NotGit(p.name, p.version)];
        continue;
      }
      errors := errors + SourceProblems(p, source.value, policy.kaspaUrl, [(U("tag"), policy.kaspaTag)], policy.kaspaCommit);
    }
    assert ps[..|ps|] == ps;
    t := Tally(seen, sources, silverscript, errors);
  }

  lemma NothingCollected(split: Splitter, policy: Policy)
    ensures Collected(split, policy, [], Tally(map[], {}, 0, []))
  {
  }

  /** The complaints about the graph as a whole. */
  ghost predicate GraphReported(policy: Policy, t: Tally, e: Problem) {
    match e
    case LockedTimes(name, times) => times > 1 && times == Times(t.seen, name)
    case SplitGraph(sources) => sources == t.sources && |sources| > 1
    case NotLocked(name) => name in policy.direct && name !in t.seen
    case SilverscriptTimes(times) => times != 1 && times == t.silverscript
    case _ => false
  }

  /** One complaint per Kaspa package name seen more than once. */
  method Repeated(policy: Policy, t: Tally) returns (repeated: seq<Problem>)
    ensures forall e :: e in repeated <==> e.LockedTimes? && GraphReported(policy, t, e)
  {
    var names := t.seen.Keys;
    repeated := [];
    while names != {}
      invariant names <= t.seen.Keys
      invariant forall e :: e in repeated <==> e.LockedTimes? && e.name in t.seen.Keys - names && GraphReported(policy, t, e)
      decreases |names|
    {
      var name :| name in names;
      if t.seen[name] > 1 {
        repeated := repeated + [LockedTimes(name, t.seen[name])];
      }
      names := names - {name};
    }
  }

  /** One complaint per direct dependency that was not seen. */
  method Missing(policy: Policy, t: Tally) returns (missing: seq<Problem>)
    ensures forall e :: e in missing <==> e.NotLocked? && GraphReported(policy, t, e)
  {
    missing := [];
    for i := 0 to |policy.direct|
      invariant forall e :: e in missing <==> e.NotLocked? && e.name in policy.direct[..i] && GraphReported(policy, t, e)
    {
      assert policy.direct[..i + 1] == policy.direct[..i] + [policy.direct[i]];
      if policy.direct[i] !in t.seen {
        missing := missing + [NotLocked(policy.direct[i])];
      }
    }
    assert policy.direct[..|policy.direct|] == policy.direct;
  }

  /** The checks after the loop. */
  method GraphProblems(policy: Policy, t: Tally) returns (es: seq<Problem>)
    ensures forall e :: e in es <==> GraphReported(policy, t, e)
  {
    var repeated := Repeated(policy, t);
    var missing := Missing(policy, t);
    es := repeated + missing;
    if |t.sources| > 1 {
      es := es + [SplitGraph(t.sources)];
    }
    if t.silverscript != 1 {
      es := es + [SilverscriptTimes(t.silverscript)];
    }
  }

  /** _check_lock; None stands for a lock without a package list. The error list is compared as a set,
      since the gate sorts it and drops repetitions. */
  method CheckLock(split: Splitter, policy: Policy, packages: Option<seq<Package>>)
      returns (errors: seq<Problem>, kaspa: nat, silverscript: nat)
    ensures packages.None? ==> errors == [NoPackages] && kaspa == 0 && silverscript == 0
    ensures packages.Some? ==> silverscript == SilverscriptCount(policy, packages.value)
    ensures packages.Some? ==> kaspa == |KaspaNames(split, policy, packages.value)|
    ensures packages.Some? ==> forall e :: e in errors <==> Reported(split, policy, packages.value, e)
  {
    if packages.None? {
      return [NoPackages], 0, 0;
    }
    hide PackageReported;
    hide GraphReported;
    hide Reported;
    hide Collected;
    var ps := packages.value;
    var t := Tallied(split, policy, ps);
    var graph := GraphProblems(policy, t);
    errors, kaspa, silverscript := t.errors + graph, |t.seen|, t.silverscript;
    CollectedParts(split, policy, ps, t);
    CollectedNames(split, policy, ps, t);
    forall e ensures e in errors <==> Reported(split, policy, ps, e) {
      ReportedByPart(split, policy, ps, t, e);
    }
  }

  /** The names in the Kaspa graph. */
  ghost function KaspaNames(split: Splitter, policy: Policy, ps: seq<Package>): set<Text> {
    set i | 0 <= i < |ps| && IsKaspa(split, policy, ps[i]) :: ps[i].name
  }

  lemma CollectedNames(split: Splitter, policy: Policy, ps: seq<Package>, t: Tally)
    requires Collected(split, policy, ps, t)
    ensures t.seen.Keys == KaspaNames(split, policy, ps) && |t.seen| == |KaspaNames(split, policy, ps)|
  {
    hide IsKaspa;
    forall name ensures name in t.seen <==> name in KaspaNames(split, policy, ps) {
      assert Times(t.seen, name) == KaspaCount(split, policy, ps, name);
      CountZero(ps, KaspaNamed(split, policy, name));
    }
    assert t.seen.Keys == KaspaNames(split, policy, ps);
    assert |t.seen| == |t.seen.Keys|;
  }

  lemma CollectedParts(split: Splitter, policy: Policy, ps: seq<Package>, t: Tally)
    requires Collected(split, policy, ps, t)
    ensures t.silverscript == SilverscriptCount(policy, ps)
    ensures forall e :: e in t.errors <==> PackageReported(split, policy, ps, e)
  {
  }

  lemma ReportedByPart(split: Splitter, policy: Policy, ps: seq<Package>, t: Tally, e: Problem)
    requires Collected(split, policy, ps, t)
    ensures Reported(split, policy, ps, e) <==> PackageReported(split, policy, ps, e) || GraphReported(policy, t, e)
  {
    hide SilverscriptCount;
    hide KaspaCount;
    hide IsKaspaSource;
    if PackageReported(split, policy, ps, e) {
      var i :| 0 <= i < |ps| && e in PackageProblems(split, policy, ps[i]);
      KindsOfProblems(split, policy, ps[i], e);
    }
    match e
    case SplitGraph(sources) =>
      if Reported(split, policy, ps, e) {
        assert sources == t.sources;
      }
    case NotLocked(name) => assert KaspaCount(split, policy, ps, name) == Times(t.seen, name);
    case _ =>
  }

  predicate PackageKind(e: Problem) {
    !e.LockedTimes? && !e.SplitGraph? && !e.NotLocked? && !e.SilverscriptTimes? && !e.NoPackages?
  }

  lemma KindsOfSourceProblems(p: Package, s: GitSource, url: Text, query: seq<(Text, Text)>, commit: Text, e: Problem)
    requires p.Package? && e in SourceProblems(p, s, url, query, commit)
    ensures PackageKind(e)
  {
  }

  lemma KindsOfProblems(split: Splitter, policy: Policy, p: Package, e: Problem)
    requires e in PackageProblems(split, policy, p)
    ensures PackageKind(e)
  {
    hide IsKaspa;
    hide IsSilverscript;
    hide Source;
    hide SourceProblems;
    hide U;
    if p.Package? && Source(split, p).Some? {
      var s, c, k := Source(split, p).value, policy.silverscriptCommit, policy.kaspaCommit;
      if e in SourceProblems(p, s, policy.silverscriptUrl, [(U("rev"), c)], c) {
        KindsOfSourceProblems(p, s, policy.silverscriptUrl, [(U("rev"), c)], c, e);
      }
      if e in SourceProblems(p, s, policy.kaspaUrl, [(U("tag"), policy.kaspaTag)], k) {
        KindsOfSourceProblems(p, s, policy.kaspaUrl, [(U("tag"), policy.kaspaTag)], k, e);
      }
    }
  }

  // ----- what a clean lock means -----

  predicate Pinned(s: GitSource, url: Text, query: seq<(Text, Text)>, commit: Text) {
    s == GitSource(url, query, commit)
  }

  predicate KaspaPinned(split: Splitter, policy: Policy, p: Package) {
    && p.Package? && p.source.Some? && Source(split, p).Some?
    && Pinned(Source(split, p).value, policy.kaspaUrl, [(U("tag"), policy.kaspaTag)], policy.kaspaCommit)
  }

  predicate SilverscriptPinned(split: Splitter, policy: Policy, p: Package) {
    && Source(split, p).Some?
    && Pinned(Source(split, p).value, policy.silverscriptUrl, [(U("rev"), policy.silverscriptCommit)], policy.silverscriptCommit)
  }

  /** A package that draws no complaint of its own. */
  predicate PackageFine(split: Splitter, policy: Policy, p: Package) {
    && p.Package?
    && (IsSilverscript(split, policy, p) ==> SilverscriptPinned(split, policy, p))
    && (IsKaspa(split, policy, p) ==> KaspaPinned(split, policy, p))
  }

  /** One graph: all Kaspa packages at the policy's URL, tag and commit, from one and the same source
      string, no name twice, every direct dependency there, and SilverScript there exactly once. */
  ghost predicate OneGraph(split: Splitter, policy: Policy, ps: seq<Package>) {
    && (forall i :: 0 <= i < |ps| ==> PackageFine(split, policy, ps[i]))
    && (forall i, j :: 0 <= i < |ps| && 0 <= j < |ps| && IsKaspa(split, policy, ps[i]) && IsKaspa(split, policy, ps[j]) ==>
          ps[i].source == ps[j].source)
    && (forall name :: KaspaCount(split, policy, ps, name) <= 1)
    && (forall i :: 0 <= i < |policy.direct| ==> KaspaCount(split, policy, ps, policy.direct[i]) == 1)
    && SilverscriptCount(policy, ps) == 1
  }

  ghost predicate Clean(split: Splitter, policy: Policy, ps: seq<Package>) {
    forall e :: !Reported(split, policy, ps, e)
  }

  lemma FineExactly(split: Splitter, policy: Policy, p: Package)
    ensures PackageProblems(split, policy, p) == [] <==> PackageFine(split, policy, p)
  {
    hide Source;
    hide OnUrl;
    hide U;
  }

  lemma ProblemReported(split: Splitter, policy: Policy, ps: seq<Package>, i: nat)
    requires i < |ps| && PackageProblems(split, policy, ps[i]) != []
    ensures !Clean(split, policy, ps)
  {
    hide PackageProblems;
    hide KaspaCount;
    hide IsKaspaSource;
    hide SilverscriptCount;
    var e := PackageProblems(split, policy, ps[i])[0];
    KindsOfProblems(split, policy, ps[i], e);
    assert Reported(split, policy, ps, e);
  }

  lemma TwoOf(s: set<Text>, a: Text, b: Text)
    requires a in s && b in s
    ensures |s| <= 1 ==> a == b
  {
    if a != b {
      assert {a, b} <= s && |{a, b}| == 2;
      SubsetCard({a, b}, s);
    }
  }

  lemma {:induction false} SubsetCard(a: set<Text>, b: set<Text>)
    requires a <= b
    ensures |a| <= |b|
    decreases |a|
  {
    if a != {} {
      var x :| x in a;
      SubsetCard(a - {x}, b - {x});
    }
  }

  function SourcesOf(split: Splitter, policy: Policy, ps: seq<Package>): (r: set<Text>) {
    set i | 0 <= i < |ps| && IsKaspa(split, policy, ps[i]) && ps[i].source.Some? :: ps[i].source.value
  }

  lemma SplitReported(split: Splitter, policy: Policy, ps: seq<Package>, i: nat, j: nat)
    requires i < |ps| && j < |ps| && IsKaspa(split, policy, ps[i]) && IsKaspa(split, policy, ps[j])
    requires ps[i].source.Some? && ps[j].source.Some? && Clean(split, policy, ps)
    ensures ps[i].source == ps[j].source
  {
    hide IsKaspa;
    hide KaspaCount;
    hide SilverscriptCount;
    hide PackageProblems;
    var sources := SourcesOf(split, policy, ps);
    TwoOf(sources, ps[i].source.value, ps[j].source.value);
    assert !Reported(split, policy, ps, SplitGraph(sources));
  }

  lemma CleanIsOneGraph(split: Splitter, policy: Policy, ps: seq<Package>)
    requires Clean(split, policy, ps)
    ensures OneGraph(split, policy, ps)
  {
    hide IsKaspa;
    hide IsSilverscript;
    hide SilverscriptPinned;
    hide PackageProblems;
    hide KaspaCount;
    hide SilverscriptCount;
    hide U;
    forall i | 0 <= i < |ps| ensures PackageFine(split, policy, ps[i]) {
      FineExactly(split, policy, ps[i]);
      if PackageProblems(split, policy, ps[i]) != [] {
        ProblemReported(split, policy, ps, i);
      }
    }
    forall i, j | 0 <= i < |ps| && 0 <= j < |ps| && IsKaspa(split, policy, ps[i]) && IsKaspa(split, policy, ps[j])
      ensures ps[i].source == ps[j].source
    {
      SplitReported(split, policy, ps, i, j);
    }
    forall name ensures KaspaCount(split, policy, ps, name) <= 1 {
      assert !Reported(split, policy, ps, LockedTimes(name, KaspaCount(split, policy, ps, name)));
    }
    forall i | 0 <= i < |policy.direct| ensures KaspaCount(split, policy, ps, policy.direct[i]) == 1 {
      assert !Reported(split, policy, ps, NotLocked(policy.direct[i]));
    }
    assert !Reported(split, policy, ps, SilverscriptTimes(SilverscriptCount(policy, ps)));
  }

  lemma OneSource(sources: set<Text>)
    requires forall a, b :: a in sources && b in sources ==> a == b
    ensures |sources| <= 1
  {
    if a :| a in sources {
      assert sources == {a};
    }
  }

  lemma OneGraphIsClean(split: Splitter, policy: Policy, ps: seq<Package>)
    requires OneGraph(split, policy, ps)
    ensures Clean(split, policy, ps)
  {
    hide IsKaspa;
    hide PackageFine;
    hide PackageProblems;
    hide KaspaCount;
    hide SilverscriptCount;
    hide U;
    forall e ensures !Reported(split, policy, ps, e) {
      match e
      case SplitGraph(sources) =>
        if Reported(split, policy, ps, e) {
          OneSource(sources);
        }
      case NotLocked(name) =>
        if name in policy.direct {
          var i :| 0 <= i < |policy.direct| && policy.direct[i] == name;
        }
      case LockedTimes(_, _) =>
      case SilverscriptTimes(_) =>
      case _ =>
        forall i | 0 <= i < |ps| ensures e !in PackageProblems(split, policy, ps[i]) {
          FineExactly(split, policy, ps[i]);
        }
    }
  }

  /** _check_lock reports nothing exactly when the lock is one graph. */
  lemma CleanExactly(split: Splitter, policy: Policy, ps: seq<Package>)
    ensures Clean(split, policy, ps) <==> OneGraph(split, policy, ps)
  {
    hide OneGraph;
    hide Clean;
    if Clean(split, policy, ps) {
      CleanIsOneGraph(split, policy, ps);
    }
    if OneGraph(split, policy, ps) {
      OneGraphIsClean(split, policy, ps);
    }
  }

  // ----- order does not matter -----

  function Without(ps: seq<Package>, i: nat): (r: seq<Package>)
    requires i < |ps|
    ensures |r| == |ps| - 1 && multiset(ps) == multiset(r) + multiset{ps[i]}
  {
    assert ps == ps[..i] + [ps[i]] + ps[i + 1..];
    ps[..i] + ps[i + 1..]
  }

  lemma {:induction false} CountWithout(ps: seq<Package>, i: nat, f: Package -> bool)
    requires i < |ps|
    ensures CountIf(ps, f) == CountIf(Without(ps, i), f) + if f(ps[i]) then 1 else 0
    decreases |ps|
  {
    var n := |ps| - 1;
    if i < n {
      CountWithout(ps[..n], i, f);
      assert Without(ps, i)[..n - 1] == Without(ps[..n], i);
      assert Without(ps, i)[n - 1] == ps[n];
    } else {
      assert Without(ps, i) == ps[..n];
    }
  }

  lemma Cancel(a: multiset<Package>, b: multiset<Package>, p: Package)
    requires a + multiset{p} == b + multiset{p}
    ensures a == b
  {
    forall q ensures a[q] == b[q] {
      assert (a + multiset{p})[q] == (b + multiset{p})[q];
    }
  }

  lemma {:induction false} CountReordered(ps: seq<Package>, qs: seq<Package>, f: Package -> bool)
    requires multiset(ps) == multiset(qs)
    ensures CountIf(ps, f) == CountIf(qs, f)
    decreases |ps|
  {
    assert |ps| == |multiset(ps)| == |multiset(qs)| == |qs|;
    if ps != [] {
      var n := |ps| - 1;
      assert ps[n] in multiset(qs);
      var i :| 0 <= i < |qs| && qs[i] == ps[n];
      CountWithout(qs, i, f);
      assert ps == ps[..n] + [ps[n]];
      Cancel(multiset(ps[..n]), multiset(Without(qs, i)), ps[n]);
      CountReordered(ps[..n], Without(qs, i), f);
    }
  }

  /** The error set is the same for every order of the packages. */
  lemma ErrorsIgnoreOrder(split: Splitter, policy: Policy, ps: seq<Package>, qs: seq<Package>, e: Problem)
    requires multiset(ps) == multiset(qs)
    ensures Reported(split, policy, ps, e) <==> Reported(split, policy, qs, e)
  {
    hide IsKaspa;
    hide PackageProblems;
    if Reported(split, policy, ps, e) {
      ReportedReordered(split, policy, ps, qs, e);
    }
    if Reported(split, policy, qs, e) {
      ReportedReordered(split, policy, qs, ps, e);
    }
  }

  lemma ReportedReordered(split: Splitter, policy: Policy, ps: seq<Package>, qs: seq<Package>, e: Problem)
    requires multiset(ps) == multiset(qs) && Reported(split, policy, ps, e)
    ensures Reported(split, policy, qs, e)
  {
    hide IsKaspa;
    hide PackageProblems;
    hide NamedSilverscript;
    match e
    case LockedTimes(name, _) => CountReordered(ps, qs, KaspaNamed(split, policy, name));
    case NotLocked(name) => CountReordered(ps, qs, KaspaNamed(split, policy, name));
    case SilverscriptTimes(_) => CountReordered(ps, qs, SilverscriptNamed(policy));
    case SplitGraph(sources) =>
      forall raw ensures raw in sources <==> IsKaspaSource(split, policy, qs, raw) {
        SourceReordered(split, policy, ps, qs, raw);
        SourceReordered(split, policy, qs, ps, raw);
      }
    case NoPackages =>
    case _ =>
      var i :| 0 <= i < |ps| && e in PackageProblems(split, policy, ps[i]);
      assert ps[i] in multiset(qs);
  }

  lemma SourceReordered(split: Splitter, policy: Policy, ps: seq<Package>, qs: seq<Package>, raw: Text)
    requires multiset(ps) == multiset(qs)
    ensures IsKaspaSource(split, policy, ps, raw) ==> IsKaspaSource(split, policy, qs, raw)
  {
    hide IsKaspa;
    if IsKaspaSource(split, policy, ps, raw) {
      var i :| 0 <= i < |ps| && IsKaspa(split, policy, ps[i]) && ps[i].source == Some(raw);
      assert ps[i] in multiset(qs);
    }
  }

  // ----- how often a direct dependency is locked -----

  function Named(name: Text): Package -> bool {
    (p: Package) => p.Package? && p.name == name
  }

  function NamedElsewhere(split: Splitter, policy: Policy, name: Text): Package -> bool {
    (p: Package) => p.Package? && p.name == name && IsSilverscript(split, policy, p)
  }

  /** A kaspa- package is counted in the Kaspa graph or, when its source is SilverScript's URL, outside it. */
  lemma {:induction false} NamedSplits(split: Splitter, policy: Policy, ps: seq<Package>, name: Text)
    requires U("kaspa-") <= name
    ensures CountIf(ps, Named(name)) == KaspaCount(split, policy, ps, name) + CountIf(ps, NamedElsewhere(split, policy, name))
  {
    hide OnUrl;
    hide U;
    if ps != [] {
      NamedSplits(split, policy, ps[..|ps| - 1], name);
    }
  }

  lemma {:induction false} CountZero(ps: seq<Package>, f: Package -> bool)
    ensures CountIf(ps, f) == 0 <==> forall i :: 0 <= i < |ps| ==> !f(ps[i])
  {
    if ps != [] {
      var n := |ps| - 1;
      CountZero(ps[..n], f);
      assert forall i :: 0 <= i < n ==> ps[..n][i] == ps[i];
    }
  }

  /** In a clean lock a direct dependency occurs exactly once exactly when no package of its name is
      locked from SilverScript's URL; the gate itself only bounds the occurrences outside that URL. */
  lemma DirectLockedOnce(split: Splitter, policy: Policy, ps: seq<Package>, name: Text)
    requires Clean(split, policy, ps) && name in policy.direct && U("kaspa-") <= name && name != policy.silverscript
    ensures CountIf(ps, Named(name)) == 1 <==>
      forall i :: 0 <= i < |ps| && ps[i].Package? && ps[i].name == name ==> !OnUrl(split, ps[i], policy.silverscriptUrl)
  {
    hide OnUrl;
    hide U;
    hide Clean;
    CleanIsOneGraph(split, policy, ps);
    NamedSplits(split, policy, ps, name);
    CountZero(ps, NamedElsewhere(split, policy, name));
    var i :| 0 <= i < |policy.direct| && policy.direct[i] == name;
    assert KaspaCount(split, policy, ps, name) == 1;
  }

  function SourceText(base: Text, commit: Text): Text {
    U("git+") + (base + ([HASHMARK] + commit))
  }

  /** A source string is taken apart as it was put together. */
  lemma SourceTextParses(split: Splitter, base: Text, commit: Text)
    requires HASHMARK !in base
    ensures ParseGitSource(split, SourceText(base, commit)) == Some(GitSource(split(base).0, split(base).1, commit))
  {
    var rest := base + ([HASHMARK] + commit);
    assert |U("git+")| == 4;
    hide U;
    assert SourceText(base, commit)[4..] == rest;
    IndexFound(base, HASHMARK, [HASHMARK] + commit);
    assert rest[..|base|] == base;
    assert rest[|base| + 1..] == commit;
  }

  // ----- policies and source strings as the gate meets them -----

  const QUESTION: int := '?' as int
  const AMPERSAND: int := '&' as int
  const EQUALS: int := '=' as int
  const DOT: int := '.' as int
  const SLASH: int := '/' as int

  /** A query's pairs: pieces between ampersands, each cut at its first equals sign, empty pieces dropped. */
  function Pairs(pieces: seq<Text>): (ps: seq<(Text, Text)>) {
    if pieces == [] then []
    else
      var piece, rest := pieces[0], Pairs(pieces[1..]);
      var i := IndexOf(piece, EQUALS);
      if piece == [] then rest else [(piece[..i], if i < |piece| then piece[i + 1..] else [])] + rest
  }

  /** urlsplit and parse_qsl on text without percent signs and plus signs: cut at the question mark. */
  function SplitUrl(base: Text): (Text, seq<(Text, Text)>) {
    var q := IndexOf(base, QUESTION);
    (base[..q], if q < |base| then Pairs(SplitAt(base[q + 1..], AMPERSAND)) else [])
  }

  /** [A-Za-z0-9_.-]+ */
  predicate IsSlug(t: Text) {
    t != [] && forall i :: 0 <= i < |t| ==> IsLetter(t[i]) || IsDigit(t[i]) || t[i] == '_' as int || t[i] == DOT || t[i] == '-' as int
  }

  function UrlText(owner: Text, repo: Text): Text {
    U("https://github.com/") + (owner + ([SLASH] + (repo + U(".git"))))
  }

  /** URL_RE.fullmatch. */
  ghost predicate IsUrl(t: Text) {
    exists owner: Text, repo: Text :: IsSlug(owner) && IsSlug(repo) && t == UrlText(owner, repo)
  }

  predicate IsNumber(t: Text) {
    t != [] && forall i :: 0 <= i < |t| ==> IsDigit(t[i])
  }

  function TagText(major: Text, minor: Text, patch: Text): Text {
    ['v' as int] + (major + ([DOT] + (minor + ([DOT] + patch))))
  }

  /** TAG_RE.fullmatch. */
  ghost predicate IsTag(t: Text) {
    exists major: Text, minor: Text, patch: Text :: IsNumber(major) && IsNumber(minor) && IsNumber(patch) && t == TagText(major, minor, patch)
  }

  /** COMMIT_RE.fullmatch. */
  predicate IsCommit(t: Text) {
    IsHexText(t, 40)
  }

  /** What parse_policy lets through. */
  ghost predicate PolicyAccepted(policy: Policy) {
    && IsUrl(policy.kaspaUrl) && IsTag(policy.kaspaTag) && IsCommit(policy.kaspaCommit)
    && policy.direct != [] && (forall i :: 0 <= i < |policy.direct| ==> U("kaspa-") <= policy.direct[i])
    && (forall i, j :: 0 <= i < j < |policy.direct| ==> Texts.Before(policy.direct[i], policy.direct[j]))
    && policy.silverscript != [] && !(U("kaspa-") <= policy.silverscript)
    && IsUrl(policy.silverscriptUrl) && IsCommit(policy.silverscriptCommit)
  }

  /** Text that means nothing to the source-string syntax. */
  predicate IsQuiet(t: Text) {
    forall i :: 0 <= i < |t| ==> t[i] != HASHMARK && t[i] != QUESTION && t[i] != AMPERSAND && t[i] != EQUALS
  }

  lemma QuietJoin(a: Text, b: Text)
    requires IsQuiet(a) && IsQuiet(b)
    ensures IsQuiet(a + b)
  {
  }

  lemma QuietLiteral(s: string)
    requires forall c :: c in s ==> c != '#' && c != '?' && c != '&' && c != '='
    ensures IsQuiet(U(s))
  {
    forall i | 0 <= i < |s| ensures U(s)[i] != HASHMARK && U(s)[i] != QUESTION && U(s)[i] != AMPERSAND && U(s)[i] != EQUALS {
      assert s[i] in s;
    }
  }

  lemma UrlIsQuiet(t: Text)
    requires IsUrl(t)
    ensures IsQuiet(t)
  {
    hide U;
    var owner: Text, repo: Text :| IsSlug(owner) && IsSlug(repo) && t == UrlText(owner, repo);
    QuietLiteral("https://github.com/");
    QuietLiteral(".git");
    QuietJoin(repo, U(".git"));
    QuietJoin([SLASH], repo + U(".git"));
    QuietJoin(owner, [SLASH] + (repo + U(".git")));
    QuietJoin(U("https://github.com/"), owner + ([SLASH] + (repo + U(".git"))));
  }

  lemma TagIsQuiet(t: Text)
    requires IsTag(t)
    ensures IsQuiet(t)
  {
    var major: Text, minor: Text, patch: Text :| IsNumber(major) && IsNumber(minor) && IsNumber(patch) && t == TagText(major, minor, patch);
    hide TagText;
    QuietJoin([DOT], patch);
    QuietJoin(minor, [DOT] + patch);
    QuietJoin([DOT], minor + ([DOT] + patch));
    QuietJoin(major, [DOT] + (minor + ([DOT] + patch)));
    QuietJoin(['v' as int], major + ([DOT] + (minor + ([DOT] + patch))));
    assert t == TagText(major, minor, patch) == ['v' as int] + (major + ([DOT] + (minor + ([DOT] + patch)))) by {
      TagTextIs(major, minor, patch);
    }
  }

  lemma TagTextIs(major: Text, minor: Text, patch: Text)
    ensures TagText(major, minor, patch) == ['v' as int] + (major + ([DOT] + (minor + ([DOT] + patch))))
  {
  }

  /** git+URL?key=value#commit, as Policy.kaspa_source and Policy.silverscript_source write it. */
  function PinnedSource(url: Text, key: Text, value: Text, commit: Text): Text {
    SourceText(url + ([QUESTION] + (key + ([EQUALS] + value))), commit)
  }

  function KaspaSource(policy: Policy): Text {
    PinnedSource(policy.kaspaUrl, U("tag"), policy.kaspaTag, policy.kaspaCommit)
  }

  function SilverscriptSource(policy: Policy): Text {
    PinnedSource(policy.silverscriptUrl, U("rev"), policy.silverscriptCommit, policy.silverscriptCommit)
  }

  lemma {:induction false} SplitNothing(t: Text, c: int)
    requires c !in t
    ensures SplitAt(t, c) == [t]
  {
    if t != [] {
      SplitNothing(t[1..], c);
      assert t == [t[0]] + t[1..];
    }
  }

  lemma QuietHas(t: Text)
    requires IsQuiet(t)
    ensures HASHMARK !in t && QUESTION !in t && AMPERSAND !in t && EQUALS !in t
  {
  }

  lemma OnePair(key: Text, value: Text)
    requires IsQuiet(key) && IsQuiet(value)
    ensures Pairs(SplitAt(key + ([EQUALS] + value), AMPERSAND)) == [(key, value)]
  {
    var piece := key + ([EQUALS] + value);
    QuietHas(key);
    QuietHas(value);
    assert AMPERSAND !in piece;
    SplitNothing(piece, AMPERSAND);
    IndexFound(key, EQUALS, [EQUALS] + value);
    assert piece[..|key|] == key && piece[|key| + 1..] == value;
    var pieces: seq<Text> := [piece];
    assert pieces[1..] == [] && Pairs(pieces[1..]) == [];
  }

  lemma PinnedSourceParses(url: Text, key: Text, value: Text, commit: Text)
    requires IsQuiet(url) && IsQuiet(key) && IsQuiet(value)
    ensures ParseGitSource(SplitUrl, PinnedSource(url, key, value, commit)) == Some(GitSource(url, [(key, value)], commit))
  {
    hide ParseGitSource;
    hide SourceText;
    hide Pairs;
    var query := key + ([EQUALS] + value);
    var base := url + ([QUESTION] + query);
    QuietHas(url);
    QuietHas(key);
    QuietHas(value);
    SourceTextParses(SplitUrl, base, commit);
    IndexFound(url, QUESTION, [QUESTION] + query);
    assert base[..|url|] == url && base[|url| + 1..] == query;
    OnePair(key, value);
  }

  lemma CommitIsQuiet(t: Text)
    requires IsCommit(t)
    ensures IsQuiet(t)
  {
  }

  lemma PolicySourcesParse(policy: Policy)
    requires PolicyAccepted(policy)
    ensures ParseGitSource(SplitUrl, KaspaSource(policy)) ==
      Some(GitSource(policy.kaspaUrl, [(U("tag"), policy.kaspaTag)], policy.kaspaCommit))
    ensures ParseGitSource(SplitUrl, SilverscriptSource(policy)) ==
      Some(GitSource(policy.silverscriptUrl, [(U("rev"), policy.silverscriptCommit)], policy.silverscriptCommit))
  {
    hide ParseGitSource;
    hide PinnedSource;
    hide IsQuiet;
    hide U;
    UrlIsQuiet(policy.kaspaUrl);
    UrlIsQuiet(policy.silverscriptUrl);
    TagIsQuiet(policy.kaspaTag);
    CommitIsQuiet(policy.silverscriptCommit);
    QuietLiteral("tag");
    QuietLiteral("rev");
    PinnedSourceParses(policy.kaspaUrl, U("tag"), policy.kaspaTag, policy.kaspaCommit);
    PinnedSourceParses(policy.silverscriptUrl, U("rev"), policy.silverscriptCommit, policy.silverscriptCommit);
  }

  // ----- a clean lock with a direct dependency twice -----

  /** The direct dependencies from the Kaspa source, one of them again from the SilverScript source, and SilverScript. */
  function TwiceLocked(policy: Policy, name: Text): (ps: seq<Package>) {
    Directs(policy, policy.direct) + [
      Package(name, [], Some(SilverscriptSource(policy))),
      Package(policy.silverscript, [], Some(SilverscriptSource(policy)))]
  }

  function Directs(policy: Policy, names: seq<Text>): (ps: seq<Package>) {
    seq(|names|, i requires 0 <= i < |names| => Package(names[i], [], Some(KaspaSource(policy))))
  }

  lemma TwiceLockedKinds(policy: Policy, p: Package)
    requires PolicyAccepted(policy) && policy.kaspaUrl != policy.silverscriptUrl && p.Package?
    ensures p.source == Some(KaspaSource(policy)) && U("kaspa-") <= p.name ==>
      IsKaspa(SplitUrl, policy, p) && PackageFine(SplitUrl, policy, p)
    ensures p.source == Some(SilverscriptSource(policy)) ==>
      IsSilverscript(SplitUrl, policy, p) && PackageFine(SplitUrl, policy, p)
  {
    hide ParseGitSource;
    hide KaspaSource;
    hide SilverscriptSource;
    hide IsUrl;
    hide IsTag;
    hide IsCommit;
    hide U;
    PolicySourcesParse(policy);
  }

  lemma {:induction false} CountJoin(a: seq<Package>, b: seq<Package>, f: Package -> bool)
    ensures CountIf(a + b, f) == CountIf(a, f) + CountIf(b, f)
  {
    if b == [] {
      assert a + b == a;
    } else {
      var n := |b| - 1;
      CountJoin(a, b[..n], f);
      CountSnoc(a + b[..n], b[n], f);
      assert a + b[..n] + [b[n]] == a + b;
    }
  }

  lemma CountTwo(p: Package, q: Package, f: Package -> bool)
    ensures CountIf([p, q], f) == (if f(p) then 1 else 0) + (if f(q) then 1 else 0)
  {
    CountSnoc([p], q, f);
    CountSnoc([], p, f);
    assert [] + [p] == [p] && [p] + [q] == [p, q];
  }

  /** A filter that sees only names counts each of different names at most once. */
  lemma {:induction false} CountDirects(policy: Policy, names: seq<Text>, name: Text, f: Package -> bool)
    requires forall i, j :: 0 <= i < j < |names| ==> names[i] != names[j]
    requires forall i :: 0 <= i < |names| ==> (f(Package(names[i], [], Some(KaspaSource(policy)))) <==> names[i] == name)
    ensures CountIf(Directs(policy, names), f) == if name in names then 1 else 0
  {
    hide KaspaSource;
    if names != [] {
      var n := |names| - 1;
      CountDirects(policy, names[..n], name, f);
      assert Directs(policy, names) == Directs(policy, names[..n]) + [Package(names[n], [], Some(KaspaSource(policy)))];
      CountSnoc(Directs(policy, names[..n]), Package(names[n], [], Some(KaspaSource(policy))), f);
      assert names == names[..n] + [names[n]];
    }
  }

  lemma DirectsDiffer(policy: Policy)
    requires PolicyAccepted(policy)
    ensures forall i, j :: 0 <= i < j < |policy.direct| ==> policy.direct[i] != policy.direct[j]
  {
    hide IsUrl;
    hide IsTag;
    hide U;
    forall i, j | 0 <= i < j < |policy.direct| ensures policy.direct[i] != policy.direct[j] {
      BeforeIrreflexive(policy.direct[i]);
    }
  }

  lemma TwiceLockedCounts(policy: Policy, name: Text, other: Text)
    requires PolicyAccepted(policy) && policy.kaspaUrl != policy.silverscriptUrl && name in policy.direct
    ensures KaspaCount(SplitUrl, policy, TwiceLocked(policy, name), other) == if other in policy.direct then 1 else 0
  {
    hide KaspaSource;
    hide SilverscriptSource;
    hide IsUrl;
    hide IsTag;
    hide IsCommit;
    hide PackageFine;
    hide U;
    DirectsDiffer(policy);
    var f := KaspaNamed(SplitUrl, policy, other);
    var p, q := Package(name, [], Some(SilverscriptSource(policy))), Package(policy.silverscript, [], Some(SilverscriptSource(policy)));
    TwiceLockedKinds(policy, p);
    TwiceLockedKinds(policy, q);
    forall i | 0 <= i < |policy.direct| ensures
      f(Package(policy.direct[i], [], Some(KaspaSource(policy)))) <==> policy.direct[i] == other
    {
      TwiceLockedKinds(policy, Package(policy.direct[i], [], Some(KaspaSource(policy))));
    }
    CountDirects(policy, policy.direct, other, f);
    CountTwo(p, q, f);
    CountJoin(Directs(policy, policy.direct), [p, q], f);
  }

  lemma TwiceLockedNames(policy: Policy, name: Text)
    requires PolicyAccepted(policy) && name in policy.direct
    ensures SilverscriptCount(policy, TwiceLocked(policy, name)) == 1
    ensures CountIf(TwiceLocked(policy, name), Named(name)) == 2
  {
    hide KaspaSource;
    hide SilverscriptSource;
    hide IsUrl;
    hide IsTag;
    hide IsCommit;
    hide U;
    DirectsDiffer(policy);
    var p, q := Package(name, [], Some(SilverscriptSource(policy))), Package(policy.silverscript, [], Some(SilverscriptSource(policy)));
    CountDirects(policy, policy.direct, policy.silverscript, SilverscriptNamed(policy));
    CountTwo(p, q, SilverscriptNamed(policy));
    CountJoin(Directs(policy, policy.direct), [p, q], SilverscriptNamed(policy));
    CountDirects(policy, policy.direct, name, Named(name));
    CountTwo(p, q, Named(name));
    CountJoin(Directs(policy, policy.direct), [p, q], Named(name));
  }

  lemma TwiceLockedPackages(policy: Policy, name: Text, i: nat)
    requires PolicyAccepted(policy) && policy.kaspaUrl != policy.silverscriptUrl && i < |TwiceLocked(policy, name)|
    ensures var p := TwiceLocked(policy, name)[i];
      PackageFine(SplitUrl, policy, p) && (IsKaspa(SplitUrl, policy, p) ==> p.source == Some(KaspaSource(policy)))
  {
    hide KaspaSource;
    hide SilverscriptSource;
    hide IsUrl;
    hide IsTag;
    hide IsCommit;
    hide PackageFine;
    hide U;
    TwiceLockedKinds(policy, TwiceLocked(policy, name)[i]);
  }

  /** Under every policy parse_policy accepts whose two URLs differ, and for each of its direct dependencies,
      there is a lock the gate accepts although it holds that dependency twice. */
  lemma LockedTwiceYetClean(policy: Policy, name: Text)
    requires PolicyAccepted(policy) && policy.kaspaUrl != policy.silverscriptUrl && name in policy.direct
    ensures Clean(SplitUrl, policy, TwiceLocked(policy, name))
    ensures CountIf(TwiceLocked(policy, name), Named(name)) == 2
  {
    hide TwiceLocked;
    hide KaspaCount;
    hide SilverscriptCount;
    hide CountIf;
    hide PackageFine;
    hide IsKaspa;
    hide PolicyAccepted;
    hide U;
    var ps := TwiceLocked(policy, name);
    forall i | 0 <= i < |ps| ensures
      PackageFine(SplitUrl, policy, ps[i]) && (IsKaspa(SplitUrl, policy, ps[i]) ==> ps[i].source == Some(KaspaSource(policy)))
    {
      TwiceLockedPackages(policy, name, i);
    }
    forall other ensures KaspaCount(SplitUrl, policy, ps, other) == if other in policy.direct then 1 else 0 {
      TwiceLockedCounts(policy, name, other);
    }
    TwiceLockedNames(policy, name);
    OneGraphIsClean(SplitUrl, policy, ps);
  }

  /** The repository's own pins, with one of its direct dependencies. */
  const PINS: Policy := Policy(
    UrlText(U("kaspanet"), U("rusty-kaspa")), U("v2.0.1"), KaspaCommitPin(),
    [U("kaspa-") + U("hashes")], U("silverscript-lang"),
    UrlText(U("kaspanet"), U("silverscript")), SilverscriptCommitPin())

  function KaspaCommitPin(): Text { U("cfafeb4c093fa37a303f1b9f19c58f986b870ce3") }
  function SilverscriptCommitPin(): Text { U("d25bd3427a093c17327ca3d6b9e1aa5f7688c863") }

  lemma SlugLiteral(s: string)
    requires s != "" && forall c :: c in s ==> 'a' <= c <= 'z' || c == '-'
    ensures IsSlug(U(s))
  {
    forall i | 0 <= i < |s| ensures IsLetter(U(s)[i]) || U(s)[i] == '-' as int {
      assert s[i] in s;
    }
  }

  lemma CommitLiteral(s: string)
    requires |s| == 40 && forall c :: c in s ==> 'a' <= c <= 'f' || '0' <= c <= '9'
    ensures IsCommit(U(s))
  {
    forall i | 0 <= i < 40 ensures IsLowerHex(U(s)[i]) {
      assert s[i] in s;
    }
  }

  lemma UrlOf(owner: Text, repo: Text)
    requires IsSlug(owner) && IsSlug(repo)
    ensures IsUrl(UrlText(owner, repo))
  {
    hide U;
    hide IsSlug;
  }

  lemma PinsTag()
    ensures IsTag(U("v2.0.1"))
  {
    assert U("v2.0.1") == TagText(U("2"), U("0"), U("1"));
  }

  lemma PinsUrlsDiffer()
    ensures PINS.kaspaUrl != PINS.silverscriptUrl
  {
    assert |U("rusty-kaspa")| == 11 && |U("silverscript")| == 12;
  }

  lemma PinsUrls()
    ensures IsUrl(PINS.kaspaUrl) && IsUrl(PINS.silverscriptUrl)
  {
    hide U;
    hide UrlText;
    hide IsUrl;
    hide IsSlug;
    SlugLiteral("kaspanet");
    SlugLiteral("rusty-kaspa");
    SlugLiteral("silverscript");
    UrlOf(U("kaspanet"), U("rusty-kaspa"));
    UrlOf(U("kaspanet"), U("silverscript"));
  }

  lemma KaspaCommitIsCommit()
    ensures IsCommit(KaspaCommitPin())
  {
    hide U;
    hide IsCommit;
    CommitLiteral("cfafeb4c093fa37a303f1b9f19c58f986b870ce3");
  }

  lemma SilverscriptCommitIsCommit()
    ensures IsCommit(SilverscriptCommitPin())
  {
    hide U;
    hide IsCommit;
    CommitLiteral("d25bd3427a093c17327ca3d6b9e1aa5f7688c863");
  }

  /** The pins pass parse_policy's checks, so the gate has such a lock under them. */
  lemma PinsAccepted()
    ensures PolicyAccepted(PINS) && PINS.kaspaUrl != PINS.silverscriptUrl
    ensures U("kaspa-") + U("hashes") in PINS.direct
  {
    hide U;
    hide UrlText;
    hide IsTag;
    hide IsUrl;
    hide IsCommit;
    SilverscriptIsNotKaspa();
    PinsUrls();
    KaspaCommitIsCommit();
    SilverscriptCommitIsCommit();
    hide KaspaCommitPin;
    hide SilverscriptCommitPin;
    PinsTag();
    PinsUrlsDiffer();
  }

  lemma SilverscriptIsNotKaspa()
    ensures U("silverscript-lang") != [] && !(U("kaspa-") <= U("silverscript-lang"))
  {
    assert U("kaspa-")[0] != U("silverscript-lang")[0];
  }
}
