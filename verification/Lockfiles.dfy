// Lockfiles: validation, the normal form that is written out, and the dependency graph
// they give, which does not depend on how the file was ordered.
module Lockfiles {
  import opened Prelude
  import opened Bytes
  import opened Ordering
  import opened Manifest
  import opened DependencyGraph

  const SCHEMA: Str := Ascii("prep.lock/1")
  const HTTPS: Str := Ascii("https://")
  const ROOT: Str := Ascii("<root>")

  datatype LockedRoot = LockedRoot(name: Name, version: Str, dependencies: seq<Name>)

  datatype LockedPackage = LockedPackage(name: Name, version: Str, dependencies: seq<Name>, source: LockedSource)

  datatype Lockfile = Lockfile(schema: Str, root: LockedRoot, packages: seq<LockedPackage>)

  function Self(s: Str): Str { s }

  function NameOf(p: LockedPackage): Str { p.name }

  // ----- validation -----------------------------------------------------------------------

  predicate SourceValid(source: LockedSource) { source.Archive? ==> HTTPS <= source.url }

  ghost predicate PackageValid(p: LockedPackage) { SourceValid(p.source) && NoDups(p.dependencies) }

  ghost predicate LockValid(l: Lockfile) {
    && l.schema == SCHEMA
    && (forall p | p in l.packages :: PackageValid(p))
    && DistinctBy(l.packages, NameOf) && NoDups(l.root.dependencies)
  }

  // Archives are fetched over https only; other sources may be anything.
  lemma HttpsOnly(l: Lockfile, i: nat)
    requires LockValid(l) && i < |l.packages| && l.packages[i].source.Archive?
    ensures var url := l.packages[i].source.url; |url| >= 8 && url[..8] == Ascii("https://")
  {
    assert PackageValid(l.packages[i]);
    assert |HTTPS| == 8;
  }

  method AllDistinct(names: seq<Name>) returns (ok: bool)
    ensures ok <==> NoDups(names)
  {
    var seen: set<Name>, i := {}, 0;
    while i < |names|
      invariant i <= |names| && seen == Elems(names[..i]) && NoDups(names[..i])
    {
      if names[i] in seen {
        var j :| 0 <= j < i && names[j] == names[i];
        return false;
      }
      assert names[..i + 1] == names[..i] + [names[i]];
      seen := seen + {names[i]};
      i := i + 1;
    }
    assert names[..i] == names;
    return true;
  }

  // `Lockfile::validate`.
  method Validate(l: Lockfile) returns (ok: bool)
    ensures ok <==> LockValid(l)
  {
    hide SourceValid, NoDups;
    if l.schema != SCHEMA { return false; }
    var packageNames: set<Name>, i := {}, 0;
    while i < |l.packages|
      invariant i <= |l.packages| && (forall j | 0 <= j < i :: PackageValid(l.packages[j]))
      invariant forall x :: x in packageNames <==> exists j :: 0 <= j < i && l.packages[j].name == x
      invariant forall j, k | 0 <= j < k < i :: NameOf(l.packages[j]) != NameOf(l.packages[k])
    {
      var package := l.packages[i];
      assert package in l.packages;
      if !SourceValid(package.source) { return false; }
      if package.name in packageNames {
        assert !DistinctBy(l.packages, NameOf);
        return false;
      }
      packageNames := packageNames + {package.name};
      var distinct := AllDistinct(package.dependencies);
      if !distinct { return false; }
      i := i + 1;
    }
    ok := AllDistinct(l.root.dependencies);
  }

  // ----- the graph of a lockfile -----------------------------------------------------------------

  // The map that the packages are collected into; a later package would replace an earlier one.
  function Dependencies(ps: seq<LockedPackage>): map<Name, seq<Name>> {
    if ps == [] then map[]
    else Dependencies(ps[..|ps| - 1])[ps[|ps| - 1].name := SortBy(ps[|ps| - 1].dependencies, Self)]
  }

  function GraphOf(l: Lockfile): Graph { Graph(SortBy(l.root.dependencies, Self), Dependencies(l.packages)) }

  // Every dependency, reachable or not, is a package.
  ghost predicate Closed(g: Graph) {
    (forall d | d in g.roots :: d in g.deps) && forall p, d | p in g.deps && d in g.deps[p] :: d in g.deps
  }

  lemma {:induction false} DependenciesOf(ps: seq<LockedPackage>)
    requires DistinctBy(ps, NameOf)
    ensures forall p | p in ps :: p.name in Dependencies(ps) && Dependencies(ps)[p.name] == SortBy(p.dependencies, Self)
    ensures forall x | x in Dependencies(ps) :: exists p | p in ps :: p.name == x
    decreases |ps|
  {
    if ps != [] {
      var n := |ps| - 1;
      DependenciesOf(ps[..n]);
      assert ps == ps[..n] + [ps[n]];
      forall p | p in ps[..n] ensures p.name != ps[n].name {
        var i :| 0 <= i < n && ps[i] == p;
        assert NameOf(ps[i]) != NameOf(ps[n]);
      }
      forall x | x in Dependencies(ps) ensures exists p | p in ps :: p.name == x {
        if x == ps[n].name {
          assert ps[n] in ps;
        } else {
          assert x in Dependencies(ps[..n]);
          var p :| p in ps[..n] && p.name == x;
          assert p in ps;
        }
      }
    }
  }

  // The loops that look for a dependency that is no package.
  method FindMissing(package: Name, dependencies: seq<Name>, deps: map<Name, seq<Name>>) returns (r: Option<GraphError>)
    ensures r.None? <==> forall d | d in dependencies :: d in deps
    ensures r.Some? ==>
      && r.value.MissingPackage? && r.value.package == package
      && (SortedBy(dependencies, Self) ==> LeastMissing(dependencies, deps, r.value.dependency))
  {
    var i := 0;
    while i < |dependencies|
      invariant i <= |dependencies| && forall j | 0 <= j < i :: dependencies[j] in deps
    {
      if dependencies[i] !in deps {
        if SortedBy(dependencies, Self) { FirstIsLeast(dependencies, deps, i); }
        return Some(MissingPackage(package, dependencies[i]));
      }
      i := i + 1;
    }
    return None;
  }

  // Of the names in the list that are no package, the least.
  ghost predicate LeastMissing(names: seq<Name>, deps: map<Name, seq<Name>>, d: Name) {
    d in names && d !in deps && forall x | x in names && x !in deps :: Precedes(d, x)
  }

  lemma FirstIsLeast(names: seq<Name>, deps: map<Name, seq<Name>>, i: nat)
    requires SortedBy(names, Self) && i < |names| && names[i] !in deps && forall j | 0 <= j < i :: names[j] in deps
    ensures LeastMissing(names, deps, names[i])
  {
    forall x | x in names && x !in deps ensures Precedes(names[i], x) {
      var k :| 0 <= k < |names| && names[k] == x;
      LeExactly(names[i], x);
      LeTotal(names[i], names[i]);
      if i < k { assert Le(Self(names[i]), Self(names[k])); }
    }
  }

  // Which missing dependency is reported: the least one of the root; failing that, of the packages with one
  // the least, and of its missing dependencies the least.
  ghost predicate Reported(g: Graph, package: Name, d: Name) {
    || (package == ROOT && LeastMissing(g.roots, g.deps, d))
    || ((forall x | x in g.roots :: x in g.deps)
        && package in g.deps && LeastMissing(g.deps[package], g.deps, d)
        && forall q, x | q in g.deps && x in g.deps[q] && x !in g.deps :: Precedes(package, q))
  }

  lemma ListsSorted(l: Lockfile)
    requires LockValid(l)
    ensures SortedBy(GraphOf(l).roots, Self)
    ensures forall p | p in GraphOf(l).deps :: SortedBy(GraphOf(l).deps[p], Self)
  {
    hide SortBy, Dependencies;
    DependenciesOf(l.packages);
    SortKeeps(l.root.dependencies, Self);
    forall p | p in GraphOf(l).deps ensures SortedBy(GraphOf(l).deps[p], Self) {
      var q :| q in l.packages && q.name == p;
      SortKeeps(q.dependencies, Self);
    }
  }

  // The keys are walked in order: the first package with a missing dependency is the least.
  lemma FirstPackage(g: Graph, keys: seq<Name>, i: nat, d: Name)
    requires SortedBy(keys, Self) && i < |keys| && (forall x :: x in keys <==> x in g.deps)
    requires forall x | x in g.roots :: x in g.deps
    requires forall j, x | 0 <= j < i && keys[j] in g.deps && x in g.deps[keys[j]] :: x in g.deps
    requires keys[i] in g.deps && LeastMissing(g.deps[keys[i]], g.deps, d)
    ensures Reported(g, keys[i], d)
  {
    forall q, x | q in g.deps && x in g.deps[q] && x !in g.deps ensures Precedes(keys[i], q) {
      assert q in keys;
      LeExactly(keys[i], q);
      var k :| 0 <= k < |keys| && keys[k] == q;
      LeTotal(keys[i], keys[i]);
      if i < k { assert Le(Self(keys[i]), Self(keys[k])); }
    }
  }

  function PackageNames(ps: seq<LockedPackage>): seq<Name> { MapAll(NameOf, ps) }

  // `DependencyGraph::from_lockfile`: succeeds exactly on a valid lockfile with every dependency
  // locked and no cycle in reach of the roots; every error names a true defect.
  method FromLockfile(l: Lockfile) returns (r: Result<Graph, GraphError>)
    ensures r.Ok? <==> LockValid(l) && Closed(GraphOf(l)) && !CycleReachable(GraphOf(l))
    ensures r.Ok? ==> r.value == GraphOf(l)
    ensures r == Err(InvalidLock) <==> !LockValid(l)
    ensures r.Err? && r.error.MissingPackage? ==> Reported(GraphOf(l), r.error.package, r.error.dependency)
    ensures r.Err? && r.error.Cycle? ==> Closed(GraphOf(l)) && SimpleCycle(GraphOf(l), r.error.cycle)
  {
    hide LockValid, CycleReachable, SimpleCycle, SortBy, Dependencies, LeastMissing, SortedBy;
    var valid := Validate(l);
    if !valid { return Err(InvalidLock); }
    var g := GraphOf(l);
    ListsSorted(l);
    var missing := FindMissing(ROOT, g.roots, g.deps);
    if missing.Some? { return Err(missing.value); }
    // The map is walked in the order of its keys.
    var keys, i := SortBy(PackageNames(l.packages), Self), 0;
    KeysAreNames(l);
    SortKeeps(PackageNames(l.packages), Self);
    while i < |keys|
      invariant i <= |keys| && forall j, d | 0 <= j < i && d in g.deps[keys[j]] :: d in g.deps
    {
      assert keys[i] in keys;
      missing := FindMissing(keys[i], g.deps[keys[i]], g.deps);
      if missing.Some? {
        FirstPackage(g, keys, i, missing.value.dependency);
        return Err(missing.value);
      }
      i := i + 1;
    }
    forall p, d | p in g.deps && d in g.deps[p] ensures d in g.deps {
      assert p in keys;
      var j :| 0 <= j < |keys| && keys[j] == p;
    }
    var order := BuildOrder(g);
    if order.Err? { return Err(order.error); }
    return Ok(g);
  }

  lemma KeysAreNames(l: Lockfile)
    requires LockValid(l)
    ensures forall x :: x in SortBy(PackageNames(l.packages), Self) <==> x in Dependencies(l.packages)
  {
    hide SortBy, Dependencies;
    var names := PackageNames(l.packages);
    SortKeeps(names, Self);
    SameElements(SortBy(names, Self), names);
    DependenciesOf(l.packages);
    forall x ensures x in names <==> x in Dependencies(l.packages) {
      if x in names {
        var i :| 0 <= i < |names| && names[i] == x;
        assert l.packages[i] in l.packages;
      }
      if x in Dependencies(l.packages) {
        var p :| p in l.packages && p.name == x;
        var i :| 0 <= i < |names| && l.packages[i] == p;
        assert names[i] == x;
      }
    }
  }

  // ----- the order of the file does not matter -----------------------------------------------------

  // A package with its dependency list up to order.
  datatype Loose = Loose(name: Name, version: Str, dependencies: multiset<Name>, source: LockedSource)

  function LooseOf(p: LockedPackage): Loose { Loose(p.name, p.version, multiset(p.dependencies), p.source) }

  function LooseName(p: Loose): Str { p.name }

  function LooseAll(ps: seq<LockedPackage>): seq<Loose> { MapAll(LooseOf, ps) }

  // The same file up to the order of packages and of every dependency list.
  ghost predicate Rearranged(l: Lockfile, l': Lockfile) {
    && l.schema == l'.schema && l.root.name == l'.root.name && l.root.version == l'.root.version
    && multiset(l.root.dependencies) == multiset(l'.root.dependencies)
    && multiset(LooseAll(l.packages)) == multiset(LooseAll(l'.packages))
  }

  // The package of the other file that matches.
  lemma Partner(ps: seq<LockedPackage>, qs: seq<LockedPackage>, p: LockedPackage) returns (q: LockedPackage)
    requires multiset(LooseAll(ps)) == multiset(LooseAll(qs)) && p in ps
    ensures q in qs && LooseOf(q) == LooseOf(p)
  {
    SameElements(LooseAll(ps), LooseAll(qs));
    var i :| 0 <= i < |ps| && ps[i] == p;
    assert LooseAll(ps)[i] in LooseAll(qs);
    var j :| 0 <= j < |qs| && LooseAll(qs)[j] == LooseOf(p);
    q := qs[j];
  }

  lemma NoDupsPermutes(a: seq<Name>, b: seq<Name>)
    requires multiset(a) == multiset(b) && NoDups(a)
    ensures NoDups(b)
  {
    DistinctPermutes(a, b, Self);
    forall i, j | 0 <= i < j < |b| ensures b[i] != b[j] { assert Self(b[i]) != Self(b[j]); }
  }

  lemma NamesPermute(ps: seq<LockedPackage>, qs: seq<LockedPackage>)
    requires multiset(LooseAll(ps)) == multiset(LooseAll(qs)) && DistinctBy(ps, NameOf)
    ensures DistinctBy(qs, NameOf)
  {
    var a, b := LooseAll(ps), LooseAll(qs);
    assert DistinctBy(a, LooseName) by {
      forall i, j | 0 <= i < j < |a| ensures LooseName(a[i]) != LooseName(a[j]) {
        assert NameOf(ps[i]) != NameOf(ps[j]);
      }
    }
    DistinctPermutes(a, b, LooseName);
    forall i, j | 0 <= i < j < |qs| ensures NameOf(qs[i]) != NameOf(qs[j]) {
      assert LooseName(b[i]) != LooseName(b[j]);
    }
  }

  lemma ValidPermutes(l: Lockfile, l': Lockfile)
    requires Rearranged(l, l') && LockValid(l)
    ensures LockValid(l')
  {
    hide NoDups, SourceValid;
    NamesPermute(l.packages, l'.packages);
    NoDupsPermutes(l.root.dependencies, l'.root.dependencies);
    forall q | q in l'.packages ensures PackageValid(q) {
      var p := Partner(l'.packages, l.packages, q);
      NoDupsPermutes(p.dependencies, q.dependencies);
    }
  }

  lemma SameDependencies(p: LockedPackage, q: LockedPackage)
    requires LooseOf(p) == LooseOf(q)
    ensures SortBy(p.dependencies, Self) == SortBy(q.dependencies, Self)
  {
    SortPermutes(p.dependencies, q.dependencies, Self);
  }

  // Rearranging a lockfile changes neither its validity nor its graph, hence not its build order.
  lemma GraphPermutes(l: Lockfile, l': Lockfile)
    requires Rearranged(l, l') && LockValid(l)
    ensures LockValid(l') && GraphOf(l') == GraphOf(l) && BuildOrderOf(GraphOf(l')) == BuildOrderOf(GraphOf(l))
  {
    hide SortBy, Dependencies, BuildOrderOf, NoDups, PackageValid;
    ValidPermutes(l, l');
    SortPermutes(l.root.dependencies, l'.root.dependencies, Self);
    var a, b := Dependencies(l.packages), Dependencies(l'.packages);
    DependenciesOf(l.packages);
    DependenciesOf(l'.packages);
    forall x | x in a ensures x in b && a[x] == b[x] {
      var p :| p in l.packages && p.name == x;
      var q := Partner(l.packages, l'.packages, p);
      SameDependencies(p, q);
    }
    forall x | x in b ensures x in a {
      var q :| q in l'.packages && q.name == x;
      var p := Partner(l'.packages, l.packages, q);
    }
    assert a == b;
  }

  // ----- the written form ----------------------------------------------------------------------------

  function SortedPackage(p: LockedPackage): LockedPackage { p.(dependencies := SortBy(p.dependencies, Self)) }

  function SortedPackages(ps: seq<LockedPackage>): seq<LockedPackage> { MapAll(SortedPackage, ps) }

  // The normalisation of `to_toml`.
  function Normalised(l: Lockfile): Lockfile {
    Lockfile(l.schema, l.root.(dependencies := SortBy(l.root.dependencies, Self)),
      SortedPackages(SortBy(l.packages, NameOf)))
  }

  lemma NormalisedIsRearranged(l: Lockfile)
    ensures Rearranged(l, Normalised(l))
  {
    hide SortBy;
    SortKeeps(l.root.dependencies, Self);
    var sorted := SortBy(l.packages, NameOf);
    SortKeeps(l.packages, NameOf);
    MapPermutes(LooseOf, l.packages, sorted);
    forall i | 0 <= i < |sorted| ensures LooseAll(SortedPackages(sorted))[i] == LooseAll(sorted)[i] {
      SortKeeps(sorted[i].dependencies, Self);
    }
    assert LooseAll(SortedPackages(sorted)) == LooseAll(sorted);
  }

  // What is written depends on the contents alone, and has the same graph.
  lemma NormalisedOnce(l: Lockfile, l': Lockfile)
    requires Rearranged(l, l') && LockValid(l)
    ensures Normalised(l) == Normalised(l') && GraphOf(Normalised(l)) == GraphOf(l)
  {
    hide SortBy, Dependencies, BuildOrderOf, LockValid, GraphOf;
    NormalisedIsRearranged(l);
    NormalisedIsRearranged(l');
    GraphPermutes(l, Normalised(l));
    ValidPermutes(l, l');
    ValidPermutes(l', Normalised(l'));
    SortPermutes(l.root.dependencies, l'.root.dependencies, Self);
    PackagesNormalisedOnce(l, l');
  }

  lemma WrittenSorted(ps: seq<LockedPackage>)
    ensures SortedBy(SortedPackages(SortBy(ps, NameOf)), NameOf)
  {
    SortKeeps(ps, NameOf);
    var a, r := SortBy(ps, NameOf), SortedPackages(SortBy(ps, NameOf));
    forall i, j | 0 <= i < j < |r| ensures Le(NameOf(r[i]), NameOf(r[j])) { assert Le(NameOf(a[i]), NameOf(a[j])); }
  }

  // What is written ascends: the packages by name, and every list of dependencies.
  lemma NormalisedAscends(l: Lockfile)
    ensures Ascends(Normalised(l).root.dependencies, Self) && Ascends(Normalised(l).packages, NameOf)
    ensures forall p | p in Normalised(l).packages :: Ascends(p.dependencies, Self)
  {
    hide SortBy, SortedBy, Ascends;
    SortKeeps(l.root.dependencies, Self);
    SortedAscends(Normalised(l).root.dependencies, Self);
    WrittenSorted(l.packages);
    SortedAscends(Normalised(l).packages, NameOf);
    forall p | p in Normalised(l).packages ensures Ascends(p.dependencies, Self) {
      var i :| 0 <= i < |Normalised(l).packages| && Normalised(l).packages[i] == p;
      SortKeeps(SortBy(l.packages, NameOf)[i].dependencies, Self);
      SortedAscends(p.dependencies, Self);
    }
  }

  lemma PackagesNormalisedOnce(l: Lockfile, l': Lockfile)
    requires Rearranged(l, l') && LockValid(Normalised(l)) && LockValid(Normalised(l'))
    ensures Normalised(l).packages == Normalised(l').packages
  {
    hide SortBy, PackageValid, NoDups;
    WrittenSorted(l.packages);
    WrittenSorted(l'.packages);
    forall x ensures x in Normalised(l).packages <==> x in Normalised(l').packages {
      if x in Normalised(l).packages { WrittenInBoth(l, l', x); }
      if x in Normalised(l').packages { WrittenInBoth(l', l, x); }
    }
    SortedSetOnce(Normalised(l).packages, Normalised(l').packages, NameOf);
  }

  lemma WrittenInBoth(l: Lockfile, l': Lockfile, x: LockedPackage)
    requires Rearranged(l, l') && x in Normalised(l).packages
    ensures x in Normalised(l').packages
  {
    hide SortBy;
    var a, b := SortBy(l.packages, NameOf), SortBy(l'.packages, NameOf);
    SortKeeps(l.packages, NameOf);
    SortKeeps(l'.packages, NameOf);
    SameElements(a, l.packages);
    SameElements(b, l'.packages);
    var i :| 0 <= i < |a| && SortedPackage(a[i]) == x;
    assert a[i] in l.packages;
    var q := Partner(l.packages, l'.packages, a[i]);
    SameDependencies(a[i], q);
    var j :| 0 <= j < |b| && b[j] == q;
    assert Normalised(l').packages[j] == x;
  }

  // ----- a cycle out of reach ----------------------------------------------------------------------------

  // Packages that no root needs may depend on each other in a circle.
  lemma UnreachableCycleAccepted(a: Name, b: Name, c: Name)
    requires a != b && b != c && a != c
    ensures var l := Lockfile(SCHEMA, LockedRoot([], [], [a]), [Bare(a, []), Bare(b, [c]), Bare(c, [b])]);
      && LockValid(l) && Closed(GraphOf(l)) && !CycleReachable(GraphOf(l)) && BuildOrderOf(GraphOf(l)) == Done([a])
      && IsWalk(GraphOf(l), [b, c, b])
  {
    var ps := [Bare(a, []), Bare(b, [c]), Bare(c, [b])];
    var l := Lockfile(SCHEMA, LockedRoot([], [], [a]), ps);
    SingleSorted(a);
    SingleSorted(b);
    SingleSorted(c);
    hide SortBy, BuildOrderOf, CycleReachable;
    assert DistinctBy(ps, NameOf);
    DependenciesOf(ps);
    assert ps[0] in ps && ps[1] in ps && ps[2] in ps;
    LeafOnly(GraphOf(l), a);
    BuildOrderRight(GraphOf(l));
  }

  function Bare(name: Name, dependencies: seq<Name>): LockedPackage { LockedPackage(name, [], dependencies, Path([])) }

  lemma SingleSorted(x: Name)
    ensures SortBy([x], Self) == [x] && SortBy([], Self) == []
  {
    assert [x][1..] == [];
  }

  lemma LeafOnly(g: Graph, a: Name)
    requires g.roots == [a] && a in g.deps && g.deps[a] == []
    ensures BuildOrderOf(g) == Done([a])
  {
    assert a in Universe(g);
    assert VisitedAll(g, Succs(g, a), [], [] + [a]) == Done([]);
    assert [] + [a] == [a] && g.roots[1..] == [];
    assert Visited(g, g.roots[0], [], []) == Done([a]);
    assert VisitedAll(g, g.roots[1..], [a], []) == Done([a]);
    assert VisitedAll(g, g.roots, [], []) == VisitedAll(g, g.roots[1..], [a], []);
  }
}
