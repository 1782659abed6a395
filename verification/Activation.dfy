// Combining published results into one environment: which paths they collide at.
module Activation {
  import opened Prelude
  import opened OutputTree

  type Path = seq<Name>
  type Id = string

  datatype PublishedResult = PublishedResult(id: Id, prefix: Node)

  datatype ActivationError = DuplicateResult | InvalidOutput

  ghost predicate IsLeaf(root: Node, p: Path) { Lookup(root, p).Some? && !Lookup(root, p).value.Folder? }

  // The results that have a leaf at `p`, in their order.
  ghost function IdsAt(results: seq<PublishedResult>, p: Path): seq<Id> {
    if results == [] then []
    else
      var last := results[|results| - 1];
      IdsAt(results[..|results| - 1], p) + if IsLeaf(last.prefix, p) then [last.id] else []
  }

  ghost predicate DistinctIds(results: seq<PublishedResult>) {
    forall i, j | 0 <= i < j < |results| :: results[i].id != results[j].id
  }

  // ----- the leaf map ---------------------------------------------------------------------

  function IdsIn(leaves: map<Path, seq<Id>>, p: Path): seq<Id> { if p in leaves then leaves[p] else [] }

  // `leaves` with `id` added at the leaves of `root` found below the prefix `at` that satisfy `done`.
  ghost predicate Adds(leaves: map<Path, seq<Id>>, leaves': map<Path, seq<Id>>, root: Node, at: Path, id: Id) {
    forall p :: IdsIn(leaves', p) == IdsIn(leaves, p) + if Below(root, at, p) then [id] else []
  }

  // `p` is a leaf, under the path `at` of `directory`.
  ghost predicate Below(directory: Node, at: Path, p: Path) { at <= p && IsLeaf(directory, p[|at|..]) }

  // The same for the entries of one directory that are not in `todo`.
  ghost predicate BelowDone(directory: Node, at: Path, todo: set<Name>, p: Path)
    requires directory.Folder?
  {
    Below(directory, at, p) && |p| > |at| && p[|at|] !in todo
  }

  lemma BelowEntry(directory: Node, at: Path, name: Name, p: Path)
    requires directory.Folder? && name in directory.children
    ensures Below(directory.children[name], at + [name], p)
       <==> Below(directory, at, p) && |p| > |at| && p[|at|] == name
  {
    if at <= p && |p| > |at| && p[|at|] == name {
      assert at + [name] <= p;
      assert p[|at|..][0] == name && p[|at|..][1..] == p[|at + [name]|..];
    }
    if at + [name] <= p {
      assert p[|at|] == name && at <= p;
      assert p[|at|..][0] == name && p[|at|..][1..] == p[|at + [name]|..];
    }
  }

  // The leaves of the entries not in `todo` have been added.
  ghost predicate Collected(leaves: map<Path, seq<Id>>, leaves': map<Path, seq<Id>>, directory: Node, at: Path,
                            todo: set<Name>, id: Id)
    requires directory.Folder?
  {
    forall p :: IdsIn(leaves', p) == IdsIn(leaves, p) + if BelowDone(directory, at, todo, p) then [id] else []
  }

  lemma OneMoreEntry(leaves: map<Path, seq<Id>>, before: map<Path, seq<Id>>, after: map<Path, seq<Id>>,
                     directory: Node, at: Path, todo: set<Name>, name: Name, id: Id)
    requires directory.Folder? && name in todo && todo <= directory.children.Keys
    requires Collected(leaves, before, directory, at, todo, id)
    requires Adds(before, after, directory.children[name], at + [name], id)
    ensures Collected(leaves, after, directory, at, todo - {name}, id)
  {
    hide Below, IdsIn;
    forall p
      ensures IdsIn(after, p) == IdsIn(leaves, p) + if BelowDone(directory, at, todo - {name}, p) then [id] else []
    {
      BelowEntry(directory, at, name, p);
    }
  }

  // `collect_leaf_paths`, in whatever order the directory is read.
  method CollectLeafPaths(directory: Node, at: Path, id: Id, leaves: map<Path, seq<Id>>)
    returns (leaves': map<Path, seq<Id>>)
    requires directory.Folder?
    ensures Adds(leaves, leaves', directory, at, id)
    decreases directory
  {
    hide Below, Collected, Adds;
    leaves' := leaves;
    var todo := directory.children.Keys;
    NothingCollected(leaves, directory, at, id);
    while todo != {}
      invariant todo <= directory.children.Keys && Collected(leaves, leaves', directory, at, todo, id)
      decreases |todo|
    {
      var name :| name in todo;
      var entry := directory.children[name];
      ghost var before := leaves';
      if entry.Folder? {
        leaves' := CollectLeafPaths(entry, at + [name], id, leaves');
      } else {
        leaves' := leaves'[at + [name] := IdsIn(leaves', at + [name]) + [id]];
        LeafAdded(before, entry, at + [name], id);
      }
      OneMoreEntry(leaves, before, leaves', directory, at, todo, name, id);
      todo := todo - {name};
    }
    AllCollected(leaves, leaves', directory, at, id);
  }

  lemma NothingCollected(leaves: map<Path, seq<Id>>, directory: Node, at: Path, id: Id)
    requires directory.Folder?
    ensures Collected(leaves, leaves, directory, at, directory.children.Keys, id)
  {
    forall p ensures !BelowDone(directory, at, directory.children.Keys, p) { }
  }

  lemma AllCollected(leaves: map<Path, seq<Id>>, leaves': map<Path, seq<Id>>, directory: Node, at: Path, id: Id)
    requires directory.Folder? && Collected(leaves, leaves', directory, at, {}, id)
    ensures Adds(leaves, leaves', directory, at, id)
  {
    hide IdsIn;
    forall p ensures Below(directory, at, p) <==> BelowDone(directory, at, {}, p) { }
  }

  lemma LeafAdded(leaves: map<Path, seq<Id>>, entry: Node, at: Path, id: Id)
    requires !entry.Folder?
    ensures Adds(leaves, leaves[at := IdsIn(leaves, at) + [id]], entry, at, id)
  {
    LeafOnly(entry, at);
    hide Below;
  }

  lemma LeafOnly(entry: Node, at: Path)
    requires !entry.Folder?
    ensures forall p :: Below(entry, at, p) <==> p == at
  {
    forall p ensures Below(entry, at, p) <==> p == at {
      if at <= p && p != at { assert p[|at|..] != []; }
    }
  }

  // ----- the plan -----------------------------------------------------------------------------

  method CheckResults(results: seq<PublishedResult>) returns (error: Option<ActivationError>)
    ensures error.None? <==> DistinctIds(results) && forall r | r in results :: ValidOutputTree(r.prefix)
    ensures error == Some(DuplicateResult) ==> !DistinctIds(results)
    ensures error == Some(InvalidOutput) ==> exists r | r in results :: !ValidOutputTree(r.prefix)
  {
    hide ValidOutputTree;
    var seen: set<Id>, i := {}, 0;
    while i < |results|
      invariant i <= |results| && forall x :: x in seen <==> exists j :: 0 <= j < i && results[j].id == x
      invariant forall j, k | 0 <= j < k < i :: results[j].id != results[k].id
      invariant forall j | 0 <= j < i :: ValidOutputTree(results[j].prefix)
    {
      assert results[i] in results;
      if results[i].id in seen { return Some(DuplicateResult); }
      seen := seen + {results[i].id};
      var ok := CheckTree(results[i].prefix);
      if !ok { return Some(InvalidOutput); }
      i := i + 1;
    }
    return None;
  }

  method CheckTree(root: Node) returns (ok: bool)
    ensures ok <==> ValidOutputTree(root)
  {
    if !root.Folder? { return false; }
    ok := CheckDirectory([], root);
  }

  // `ActivationPlan::from_results`, its collisions: exactly the paths at which two or more results
  // have a leaf, each with all of those results in the order given.
  method Collisions(results: seq<PublishedResult>) returns (r: Result<map<Path, seq<Id>>, ActivationError>)
    ensures r.Ok? <==> DistinctIds(results) && forall x | x in results :: ValidOutputTree(x.prefix)
    ensures r.Ok? ==> forall p :: p in r.value <==> |IdsAt(results, p)| > 1
    ensures r.Ok? ==> forall p | p in r.value :: r.value[p] == IdsAt(results, p)
  {
    hide ValidOutputTree, DistinctIds, IsLeaf, IdsIn, Adds;
    var error := CheckResults(results);
    if error.Some? { return Err(error.value); }
    var leaves: map<Path, seq<Id>>, i := map[], 0;
    NothingCombined(results);
    while i < |results|
      invariant i <= |results| && Combines(results, i, leaves)
    {
      assert results[i] in results;
      FolderRoot(results[i].prefix);
      ghost var before := leaves;
      leaves := CollectLeafPaths(results[i].prefix, [], results[i].id, leaves);
      OneMoreResult(results, i, before, leaves);
      i := i + 1;
    }
    AllCombined(results, leaves);
    return Ok(map p | p in leaves && |leaves[p]| > 1 :: leaves[p]);
  }

  // The leaf map holds, path by path, the first `n` results.
  ghost predicate Combines(results: seq<PublishedResult>, n: nat, leaves: map<Path, seq<Id>>) {
    n <= |results| && forall p :: IdsIn(leaves, p) == IdsAt(results[..n], p)
  }

  lemma NothingCombined(results: seq<PublishedResult>)
    ensures Combines(results, 0, map[])
  {
  }

  lemma OneMoreResult(results: seq<PublishedResult>, n: nat, before: map<Path, seq<Id>>, after: map<Path, seq<Id>>)
    requires n < |results| && Combines(results, n, before) && Adds(before, after, results[n].prefix, [], results[n].id)
    ensures Combines(results, n + 1, after)
  {
    hide IsLeaf, IdsIn;
    var m := n + 1;
    forall p ensures IdsIn(after, p) == IdsAt(results[..m], p) {
      assert results[..m][..n] == results[..n] && p[0..] == p;
      assert IdsIn(after, p) == IdsIn(before, p) + if Below(results[n].prefix, [], p) then [results[n].id] else [];
    }
  }

  lemma AllCombined(results: seq<PublishedResult>, leaves: map<Path, seq<Id>>)
    requires Combines(results, |results|, leaves)
    ensures forall p :: |IdsAt(results, p)| > 1 <==> p in leaves && |leaves[p]| > 1
    ensures forall p | p in leaves :: leaves[p] == IdsAt(results, p)
  {
    hide IsLeaf;
    assert results[..|results|] == results;
    forall p ensures IdsAt(results, p) == IdsIn(leaves, p) { }
  }

  lemma FolderRoot(root: Node)
    requires ValidOutputTree(root)
    ensures root.Folder?
  {
  }

  lemma {:induction false} IdsAreTheirs(results: seq<PublishedResult>, p: Path, id: Id)
    ensures id in IdsAt(results, p) <==> exists r | r in results :: r.id == id && IsLeaf(r.prefix, p)
    decreases |results|
  {
    if results != [] {
      var n := |results| - 1;
      IdsAreTheirs(results[..n], p, id);
      assert results == results[..n] + [results[n]];
      if r :| r in results && r.id == id && IsLeaf(r.prefix, p) {
        assert r in results[..n] || r == results[n];
      }
    }
  }

  lemma OnlyEntry(node: Node, p: Path)
    ensures IsLeaf(Folder(map["x" := node]), p) ==> p != [] && IsLeaf(node, p[1..])
  {
  }

  // A file of one result under a directory name of another is no collision to the plan.
  lemma FileOverDirectoryIsSilent(a: Id, b: Id)
    requires a != b
    ensures var file, folder := Folder(map["x" := File(1, "")]), Folder(map["x" := Folder(map["y" := File(1, "")])]);
      var results := [PublishedResult(a, file), PublishedResult(b, folder)];
      && DistinctIds(results) && (forall r | r in results :: ValidOutputTree(r.prefix))
      && IsLeaf(file, ["x"]) && Lookup(folder, ["x"]).Some? && Lookup(folder, ["x"]).value.Folder?
      && forall p :: |IdsAt(results, p)| <= 1
  {
    var file, folder := Folder(map["x" := File(1, "")]), Folder(map["x" := Folder(map["y" := File(1, "")])]);
    var results := [PublishedResult(a, file), PublishedResult(b, folder)];
    assert VisitOutputTree(1, Folder(map["y" := File(1, "")]));
    forall p ensures |IdsAt(results, p)| <= 1 {
      assert results[..1] == [results[0]] && [results[0]][..0] == [];
      assert IdsAt([results[0]], p) == if IsLeaf(file, p) then [a] else [];
      assert IdsAt(results, p) == IdsAt(results[..1], p) + if IsLeaf(folder, p) then [b] else [];
      OnlyEntry(File(1, ""), p);
      OnlyEntry(Folder(map["y" := File(1, "")]), p);
      if IsLeaf(file, p) {
        LeafOnly(File(1, ""), []);
        assert Below(File(1, ""), [], p[1..]) by { assert p[1..][0..] == p[1..]; }
      }
    }
    assert ["x"][1..] == [];
  }
}
