/**
  What the Cargo.lock check reports, said over the packages themselves: each error with the
  package, the values it names and the policy value it was held against.
 */
module CargoReport {
  import opened Texts
  import opened PyStrings
  import opened CargoLock

  // ----- the specification -----

  /** git+ and a base, with the commit after a hash sign or no commit at all. */
  predicate SourceParts(split: Splitter, raw: Text, s: GitSource, base: Text) {
    && 0x23 !in base && split(base) == (s.url, s.query)
    && ((raw == U("git+") + base && s.commit == []) || raw == U("git+") + (base + ([0x23] + s.commit)))
  }

  ghost predicate ComesFrom(split: Splitter, p: Package, s: GitSource) {
    p.Package? && p.source.Some? && exists base :: SourceParts(split, p.source.value, s, base)
  }

  ghost predicate FromUrl(split: Splitter, p: Package, url: Text) {
    exists s :: ComesFrom(split, p, s) && s.url == url
  }

  ghost predicate FromGit(split: Splitter, p: Package) {
    exists s :: ComesFrom(split, p, s)
  }

  ghost predicate OfSilverscript(split: Splitter, policy: Policy, p: Package) {
    p.Package? && (p.name == policy.silverscript || FromUrl(split, p, policy.silverscriptUrl))
  }

  ghost predicate OfKaspa(split: Splitter, policy: Policy, p: Package) {
    p.Package? && !OfSilverscript(split, policy, p) && (U("kaspa-") <= p.name || FromUrl(split, p, policy.kaspaUrl))
  }

  /** What the policy wants of a package of one family. */
  datatype Wanted = Wanted(url: Text, query: seq<(Text, Text)>, commit: Text)

  ghost predicate Wants(split: Splitter, policy: Policy, p: Package, w: Wanted) {
    || (OfSilverscript(split, policy, p) &&
        w == Wanted(policy.silverscriptUrl, [(U("rev"), policy.silverscriptCommit)], policy.silverscriptCommit))
    || (OfKaspa(split, policy, p) && w == Wanted(policy.kaspaUrl, [(U("tag"), policy.kaspaTag)], policy.kaspaCommit))
  }

  ghost predicate WantedInstead(split: Splitter, policy: Policy, p: Package, s: GitSource, w: Wanted) {
    ComesFrom(split, p, s) && Wants(split, policy, p, w)
  }

  predicate IsCalled(p: Package, name: Text, version: Text) {
    p.Package? && p.name == name && p.version == version
  }

  /** The errors one package gives. */
  ghost predicate PackageSays(split: Splitter, policy: Policy, p: Package, e: Problem) {
    match e
    case MalformedPackage => p.Malformed?
    case NotGit(name, version) =>
      && IsCalled(p, name, version) && !FromGit(split, p)
      && (OfSilverscript(split, policy, p) || (OfKaspa(split, policy, p) && p.source.Some?))
    case NoSource(name, version) => IsCalled(p, name, version) && OfKaspa(split, policy, p) && p.source.None?
    case WrongUrl(name, version, found, wanted) =>
      found != wanted && IsCalled(p, name, version) &&
      exists s, w :: WantedInstead(split, policy, p, s, w) && s.url == found && w.url == wanted
    case WrongQuery(name, version, query) =>
      IsCalled(p, name, version) && exists s, w :: WantedInstead(split, policy, p, s, w) && s.query == query != w.query
    case WrongCommit(name, version, found, wanted) =>
      found != wanted && IsCalled(p, name, version) &&
      exists s, w :: WantedInstead(split, policy, p, s, w) && s.commit == found && w.commit == wanted
    case _ => false
  }

  ghost function KaspaAt(split: Splitter, policy: Policy, ps: seq<Package>, name: Text): set<int> {
    set i | 0 <= i < |ps| && OfKaspa(split, policy, ps[i]) && ps[i].Package? && ps[i].name == name
  }

  ghost function SilverscriptAt(policy: Policy, ps: seq<Package>): set<int> {
    set i | 0 <= i < |ps| && ps[i].Package? && ps[i].name == policy.silverscript
  }

  ghost predicate KaspaFrom(split: Splitter, policy: Policy, ps: seq<Package>, raw: Text) {
    exists i :: 0 <= i < |ps| && OfKaspa(split, policy, ps[i]) && ps[i].source == Some(raw)
  }

  ghost predicate Reports(split: Splitter, policy: Policy, ps: seq<Package>, e: Problem) {
    match e
    case NoPackages => false
    case LockedTimes(name, times) => times >= 2 && |KaspaAt(split, policy, ps, name)| == times
    case SplitGraph(sources) => |sources| >= 2 && forall raw :: raw in sources <==> KaspaFrom(split, policy, ps, raw)
    case NotLocked(name) => name in policy.direct && KaspaAt(split, policy, ps, name) == {}
    case SilverscriptTimes(times) => times != 1 && |SilverscriptAt(policy, ps)| == times
    case _ => exists i :: 0 <= i < |ps| && PackageSays(split, policy, ps[i], e)
  }

  // ----- the check meets it -----

  lemma SourceExactly(split: Splitter, raw: Text, s: GitSource)
    ensures ParseGitSource(split, raw) == Some(s) <==> exists base :: SourceParts(split, raw, s, base)
  {
    hide SourceParts;
    if ParseGitSource(split, raw) == Some(s) {
      SourceCut(split, raw, s);
    }
    if base :| SourceParts(split, raw, s, base) {
      SourceRead(split, raw, s, base);
    }
  }

  lemma SourceCut(split: Splitter, raw: Text, s: GitSource)
    requires ParseGitSource(split, raw) == Some(s)
    ensures exists base :: SourceParts(split, raw, s, base)
  {
    assert |U("git+")| == 4;
    hide U;
    hide IndexOf;
    var rest := raw[4..];
    var base := rest[..IndexOf(rest, HASHMARK)];
    assert raw == U("git+") + rest;
    if |base| < |rest| {
      assert rest == base + ([0x23] + s.commit);
    } else {
      assert rest == base;
    }
    assert SourceParts(split, raw, s, base);
  }

  lemma SourceRead(split: Splitter, raw: Text, s: GitSource, base: Text)
    requires SourceParts(split, raw, s, base)
    ensures ParseGitSource(split, raw) == Some(s)
  {
    assert |U("git+")| == 4;
    hide U;
    hide IndexOf;
    var tail := if raw == U("git+") + base && s.commit == [] then [] else [0x23] + s.commit;
    TailRead(raw, U("git+"), base, tail);
    IndexFound(base, HASHMARK, tail);
    assert tail != [] ==> tail[1..] == s.commit;
  }

  lemma TailRead(raw: Text, head: Text, base: Text, tail: Text)
    requires |head| == 4 && (raw == head + (base + tail) || (tail == [] && raw == head + base))
    ensures head <= raw && raw[4..] == base + tail && (base + tail)[..|base|] == base
    ensures tail != [] ==> (base + tail)[|base| + 1..] == tail[1..]
  {
  }

  lemma ComesFromExactly(split: Splitter, p: Package, s: GitSource)
    ensures ComesFrom(split, p, s) <==> Source(split, p) == Some(s)
  {
    hide ParseGitSource;
    hide SourceParts;
    if p.Package? && p.source.Some? {
      SourceExactly(split, p.source.value, s);
    }
  }

  lemma FromUrlExactly(split: Splitter, p: Package, url: Text)
    ensures FromUrl(split, p, url) <==> OnUrl(split, p, url)
    ensures FromGit(split, p) <==> Source(split, p).Some?
  {
    hide ComesFrom;
    hide Source;
    if Source(split, p).Some? {
      ComesFromExactly(split, p, Source(split, p).value);
    }
    forall s ensures ComesFrom(split, p, s) <==> Source(split, p) == Some(s) {
      ComesFromExactly(split, p, s);
    }
  }

  lemma FamiliesExactly(split: Splitter, policy: Policy, p: Package)
    ensures OfSilverscript(split, policy, p) <==> IsSilverscript(split, policy, p)
    ensures OfKaspa(split, policy, p) <==> IsKaspa(split, policy, p)
    ensures OfKaspa(split, policy, p) ==> !OfSilverscript(split, policy, p)
  {
    hide FromUrl;
    hide OnUrl;
    FromUrlExactly(split, p, policy.silverscriptUrl);
    FromUrlExactly(split, p, policy.kaspaUrl);
  }

  function WantedOf(split: Splitter, policy: Policy, p: Package): (w: Wanted) {
    if IsSilverscript(split, policy, p)
    then Wanted(policy.silverscriptUrl, [(U("rev"), policy.silverscriptCommit)], policy.silverscriptCommit)
    else Wanted(policy.kaspaUrl, [(U("tag"), policy.kaspaTag)], policy.kaspaCommit)
  }

  lemma WantedExactly(split: Splitter, policy: Policy, p: Package, s: GitSource, w: Wanted)
    ensures WantedInstead(split, policy, p, s, w) <==>
      Source(split, p) == Some(s) && (IsSilverscript(split, policy, p) || IsKaspa(split, policy, p)) && w == WantedOf(split, policy, p)
  {
    hide OfSilverscript;
    hide OfKaspa;
    hide ComesFrom;
    hide Source;
    FamiliesExactly(split, policy, p);
    hide IsSilverscript;
    hide IsKaspa;
    ComesFromExactly(split, p, s);
  }

  lemma PackageExactly(split: Splitter, policy: Policy, p: Package, e: Problem)
    ensures e in PackageProblems(split, policy, p) <==> PackageSays(split, policy, p, e)
  {
    hide WantedInstead;
    hide IsSilverscript;
    hide OfSilverscript;
    hide OfKaspa;
    hide FromGit;
    FamiliesExactly(split, policy, p);
    FromUrlExactly(split, p, policy.kaspaUrl);
    KaspaIsApart(split, policy, p);
    hide IsKaspa;
    hide Source;
    forall s, w ensures WantedInstead(split, policy, p, s, w) <==>
      Source(split, p) == Some(s) && (IsSilverscript(split, policy, p) || IsKaspa(split, policy, p)) && w == WantedOf(split, policy, p)
    {
      WantedExactly(split, policy, p, s, w);
    }
    if Source(split, p).Some? && (IsSilverscript(split, policy, p) || IsKaspa(split, policy, p)) {
      assert WantedInstead(split, policy, p, Source(split, p).value, WantedOf(split, policy, p));
    }
  }

  lemma KaspaIsApart(split: Splitter, policy: Policy, p: Package)
    ensures IsKaspa(split, policy, p) ==> !IsSilverscript(split, policy, p)
    ensures IsSilverscript(split, policy, p) || IsKaspa(split, policy, p) ==> p.Package?
    ensures Source(split, p).Some? ==> p.Package? && p.source.Some?
  {
  }

  /** Counting along the list counts positions. */
  lemma {:induction false} CountsPositions(ps: seq<Package>, f: Package -> bool)
    ensures CountIf(ps, f) == |set i | 0 <= i < |ps| && f(ps[i])|
  {
    var at := set i | 0 <= i < |ps| && f(ps[i]);
    if ps == [] {
      assert at == {};
    } else {
      var n := |ps| - 1;
      var before := set i | 0 <= i < n && f(ps[..n][i]);
      CountsPositions(ps[..n], f);
      assert at == before + (if f(ps[n]) then {n} else {});
    }
  }

  lemma KaspaCounted(split: Splitter, policy: Policy, ps: seq<Package>, name: Text)
    ensures KaspaCount(split, policy, ps, name) == |KaspaAt(split, policy, ps, name)|
  {
    hide OfKaspa;
    hide IsKaspa;
    var f := KaspaNamed(split, policy, name);
    CountsPositions(ps, f);
    forall i | 0 <= i < |ps| ensures f(ps[i]) <==> OfKaspa(split, policy, ps[i]) && ps[i].Package? && ps[i].name == name {
      FamiliesExactly(split, policy, ps[i]);
    }
    assert (set i | 0 <= i < |ps| && f(ps[i])) == KaspaAt(split, policy, ps, name);
  }

  lemma SilverscriptCounted(policy: Policy, ps: seq<Package>)
    ensures SilverscriptCount(policy, ps) == |SilverscriptAt(policy, ps)|
  {
    var f := SilverscriptNamed(policy);
    CountsPositions(ps, f);
    assert (set i | 0 <= i < |ps| && f(ps[i])) == SilverscriptAt(policy, ps);
  }

  lemma KaspaFromExactly(split: Splitter, policy: Policy, ps: seq<Package>, raw: Text)
    ensures IsKaspaSource(split, policy, ps, raw) <==> KaspaFrom(split, policy, ps, raw)
  {
    hide OfKaspa;
    hide IsKaspa;
    forall i | 0 <= i < |ps| ensures OfKaspa(split, policy, ps[i]) <==> IsKaspa(split, policy, ps[i]) {
      FamiliesExactly(split, policy, ps[i]);
    }
  }

  /** The check reports exactly the errors the specification lists, each with the values that differ. */
  lemma ReportsExactly(split: Splitter, policy: Policy, ps: seq<Package>, e: Problem)
    ensures Reported(split, policy, ps, e) <==> Reports(split, policy, ps, e)
  {
    hide PackageProblems;
    hide PackageSays;
    hide IsKaspaSource;
    hide KaspaFrom;
    hide KaspaAt;
    hide SilverscriptAt;
    hide KaspaCount;
    hide SilverscriptCount;
    if e.LockedTimes? || e.NotLocked? {
      KaspaCounted(split, policy, ps, e.name);
    } else if e.SplitGraph? {
      forall raw ensures IsKaspaSource(split, policy, ps, raw) <==> KaspaFrom(split, policy, ps, raw) {
        KaspaFromExactly(split, policy, ps, raw);
      }
    } else if e.SilverscriptTimes? {
      SilverscriptCounted(policy, ps);
    } else {
      forall i | 0 <= i < |ps| ensures e in PackageProblems(split, policy, ps[i]) <==> PackageSays(split, policy, ps[i], e) {
        PackageExactly(split, policy, ps[i], e);
      }
    }
  }
}
