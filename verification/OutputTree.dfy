// The tree a builder leaves in a staging prefix, the check made before it is
// published, and what the operating system does when a path in it is followed.
module OutputTree {
  import opened Prelude

  type Name = string

  // One component of a relative symlink target or of a path being followed.
  datatype Comp = CurDir | Up | Normal(name: Name)

  datatype Node =
    | File(hardLinks: nat, content: string)
    | Link(absolute: bool, target: seq<Comp>)
    | Special
    | Folder(children: map<Name, Node>)

  const EmptyFolder: Node := Folder(map[])

  // ----- the lexical check --------------------------------------------------------

  // Reading `target` from a directory `depth` levels below the root never pops an empty stack.
  predicate LexicallyInside(depth: nat, target: seq<Comp>)
    decreases |target|
  {
    target == [] ||
    match target[0]
    case CurDir => LexicallyInside(depth, target[1..])
    case Normal(_) => LexicallyInside(depth + 1, target[1..])
    case Up => depth > 0 && LexicallyInside(depth - 1, target[1..])
  }

  // How far below its start a path is after all of these components, as far as their names tell.
  function Level(comps: seq<Comp>): int {
    if comps == [] then 0
    else
      Level(comps[..|comps| - 1]) +
      match comps[|comps| - 1]
      case CurDir => 0
      case Normal(_) => 1
      case Up => -1
  }

  // No beginning of the target is above the root, from a directory `depth` levels below it.
  ghost predicate NeverAbove(depth: nat, target: seq<Comp>) {
    forall k | 0 <= k <= |target| :: depth + Level(target[..k]) >= 0
  }

  lemma {:induction false} LevelCons(c: Comp, rest: seq<Comp>)
    ensures Level([c] + rest) == Level([c]) + Level(rest)
    ensures Level([c]) == if c.Up? then -1 else if c.Normal? then 1 else 0
    decreases |rest|
  {
    assert [c][..0] == [];
    if rest == [] {
      assert [c] + rest == [c];
    } else {
      var n := |rest| - 1;
      assert ([c] + rest)[..|rest|] == [c] + rest[..n];
      LevelCons(c, rest[..n]);
    }
  }

  lemma {:induction false} InsideExactly(depth: nat, target: seq<Comp>)
    ensures LexicallyInside(depth, target) <==> NeverAbove(depth, target)
    decreases |target|
  {
    if target == [] { return; }
    var c, rest := target[0], target[1..];
    forall k | 0 <= k <= |rest| ensures Level(target[..k + 1]) == Level([c]) + Level(rest[..k]) {
      assert target[..k + 1] == [c] + rest[..k];
      LevelCons(c, rest[..k]);
    }
    LevelCons(c, []);
    assert target[..0] == [] && rest[..0] == [] && target[..1] == target[..0 + 1];
    if depth + Level([c]) >= 0 {
      InsideExactly(depth + Level([c]), rest);
      if NeverAbove(depth, target) {
        forall k | 0 <= k <= |rest| ensures depth + Level([c]) + Level(rest[..k]) >= 0 {
          assert depth + Level(target[..k + 1]) >= 0;
        }
      }
      if NeverAbove(depth + Level([c]), rest) {
        forall k | 0 <= k <= |target| ensures depth + Level(target[..k]) >= 0 {
          if k > 0 {
            var j := k - 1;
            assert Level(target[..j + 1]) == Level([c]) + Level(rest[..j]) && target[..j + 1] == target[..k];
            assert (depth + Level([c])) + Level(rest[..j]) >= 0;
          }
        }
      }
    }
  }

  // The vector loop of `validate_symlink`: `relativeParent` is the link's directory.
  method ValidateSymlink(relativeParent: seq<Name>, link: Node) returns (ok: bool)
    requires link.Link?
    ensures ok <==> !link.absolute && LexicallyInside(|relativeParent|, link.target)
    ensures ok <==> !link.absolute && NeverAbove(|relativeParent|, link.target)
  {
    InsideExactly(|relativeParent|, link.target);
    if link.absolute { return false; }
    var components := relativeParent;
    var i := 0;
    while i < |link.target|
      invariant 0 <= i <= |link.target|
      invariant LexicallyInside(|relativeParent|, link.target)
           <==> LexicallyInside(|components|, link.target[i..])
    {
      assert link.target[i..][1..] == link.target[i + 1..];
      match link.target[i] {
        case CurDir =>
        case Normal(value) => components := components + [value];
        case Up =>
          if components == [] { return false; }
          components := components[..|components| - 1];
      }
      i := i + 1;
    }
    return true;
  }

  // `visit_output_tree` on a node found `depth` levels below the prefix.
  predicate VisitOutputTree(depth: nat, node: Node)
    decreases node
  {
    match node
    case File(hardLinks, _) => hardLinks <= 1
    case Link(absolute, target) => !absolute && depth > 0 && LexicallyInside(depth - 1, target)
    case Special => false
    case Folder(children) => forall n | n in children :: VisitOutputTree(depth + 1, children[n])
  }

  predicate ValidOutputTree(root: Node) { root.Folder? && VisitOutputTree(0, root) }

  // ----- what is accepted, path by path ----------------------------------------------

  // The node at a path of real directories below `root`.
  function Lookup(root: Node, path: seq<Name>): Option<Node> {
    if path == [] then Some(root)
    else if root.Folder? && path[0] in root.children then Lookup(root.children[path[0]], path[1..])
    else None
  }

  // What may be at a path of this length: a directory, a file with one name, or a relative link that never
  // climbs above the prefix.
  ghost predicate Permitted(node: Node, depth: nat) {
    || node.Folder?
    || (node.File? && node.hardLinks <= 1)
    || (node.Link? && !node.absolute && depth > 0 && NeverAbove(depth - 1, node.target))
  }

  // Everything at and below `node`, itself `depth` levels below the prefix.
  ghost predicate AllPermitted(depth: nat, node: Node) {
    forall p | Lookup(node, p).Some? :: Permitted(Lookup(node, p).value, depth + |p|)
  }

  // A real directory with nothing but that in it.
  ghost predicate Sound(root: Node) { root.Folder? && AllPermitted(0, root) }

  lemma {:induction false} VisitsExactly(depth: nat, node: Node)
    ensures VisitOutputTree(depth, node) <==> AllPermitted(depth, node)
    decreases node
  {
    if node.Link? && depth > 0 { InsideExactly(depth - 1, node.target); }
    assert Lookup(node, []) == Some(node);
    if node.Folder? {
      forall n | n in node.children ensures VisitOutputTree(depth + 1, node.children[n]) <==>
        AllPermitted(depth + 1, node.children[n]) { VisitsExactly(depth + 1, node.children[n]); }
      EntriesPermitted(depth, node);
    } else {
      forall p | Lookup(node, p).Some? ensures p == [] { }
    }
  }

  lemma EntriesPermitted(depth: nat, node: Node)
    requires node.Folder?
    ensures AllPermitted(depth, node) <==> forall n | n in node.children :: AllPermitted(depth + 1, node.children[n])
  {
    hide Permitted;
    assert Permitted(node, depth) by { FolderPermitted(node, depth); }
    if AllPermitted(depth, node) {
      forall n, p | n in node.children && Lookup(node.children[n], p).Some?
        ensures Permitted(Lookup(node.children[n], p).value, depth + 1 + |p|)
      {
        assert ([n] + p)[1..] == p;
        assert Lookup(node, [n] + p) == Lookup(node.children[n], p);
      }
    } else {
      var p :| Lookup(node, p).Some? && !Permitted(Lookup(node, p).value, depth + |p|);
      assert p != [];
      assert Lookup(node.children[p[0]], p[1..]) == Lookup(node, p);
      assert depth + 1 + |p[1..]| == depth + |p|;
    }
  }

  lemma FolderPermitted(node: Node, depth: nat)
    requires node.Folder?
    ensures Permitted(node, depth)
  {
  }

  lemma ValidIsSound(root: Node)
    ensures ValidOutputTree(root) <==> Sound(root)
  {
    VisitsExactly(0, root);
  }

  // The loop of `visit_output_tree` over one directory, at `relative` below the prefix.
  method CheckDirectory(relative: seq<Name>, directory: Node) returns (ok: bool)
    requires directory.Folder?
    ensures ok <==> VisitOutputTree(|relative|, directory)
    ensures ok <==> AllPermitted(|relative|, directory)
    decreases directory
  {
    VisitsExactly(|relative|, directory);
    ghost var depth := |relative| + 1;
    var todo := directory.children.Keys;
    while todo != {}
      invariant todo <= directory.children.Keys
      invariant forall n | n in directory.children && n !in todo :: VisitOutputTree(depth, directory.children[n])
      decreases |todo|
    {
      var name :| name in todo;
      var entry := directory.children[name];
      match entry {
        case Folder(_) => ok := CheckDirectory(relative + [name], entry);
        case Link(_, _) => ok := ValidateSymlink(relative, entry);
        case File(hardLinks, _) => ok := hardLinks <= 1;
        case Special => ok := false;
      }
      if !ok {
        assert !VisitOutputTree(depth, directory.children[name]);
        return;
      }
      todo := todo - {name};
    }
    return true;
  }

  // ----- removal in progress -----------------------------------------------------------

  // What is left of `was` after some of it was removed. Removing one name of a file takes a link from the others.
  predicate Pruned(left: Node, was: Node)
    decreases was
  {
    match was
    case Folder(children) =>
      left.Folder? && forall n | n in left.children :: n in children && Pruned(left.children[n], children[n])
    case File(hardLinks, content) => left.File? && left.content == content && left.hardLinks <= hardLinks
    case _ => left == was
  }

  lemma {:induction false} PrunedSelf(node: Node)
    ensures Pruned(node, node)
    decreases node
  {
    if node.Folder? {
      forall n | n in node.children ensures Pruned(node.children[n], node.children[n]) {
        PrunedSelf(node.children[n]);
      }
    }
  }

  lemma {:induction false} PrunedTwice(least: Node, left: Node, was: Node)
    requires Pruned(least, left) && Pruned(left, was)
    ensures Pruned(least, was)
    decreases was
  {
    if was.Folder? {
      forall n | n in least.children ensures n in was.children && Pruned(least.children[n], was.children[n]) {
        PrunedTwice(least.children[n], left.children[n], was.children[n]);
      }
    }
  }

  // No check of the tree notices that something is missing from it.
  lemma {:induction false} PrunedStillPasses(depth: nat, left: Node, was: Node)
    requires Pruned(left, was) && VisitOutputTree(depth, was)
    ensures VisitOutputTree(depth, left)
    decreases was
  {
    if was.Folder? {
      forall n | n in left.children ensures VisitOutputTree(depth + 1, left.children[n]) {
        PrunedStillPasses(depth + 1, left.children[n], was.children[n]);
      }
    }
  }

  // ----- following a path -----------------------------------------------------------

  datatype Walk = Arrived(at: seq<Name>) | Escaped | Missing | TooManySteps

  // Physical resolution: `cwd` is a real directory, links are expanded where they stand.
  // `fuel` bounds the steps, as the kernel bounds link expansions.
  function Resolve(root: Node, cwd: seq<Name>, todo: seq<Comp>, fuel: nat): Walk
    decreases fuel
  {
    if todo == [] then Arrived(cwd)
    else if fuel == 0 then TooManySteps
    else
      var rest := todo[1..];
      match todo[0]
      case CurDir => Resolve(root, cwd, rest, fuel - 1)
      case Up => if cwd == [] then Escaped else Resolve(root, cwd[..|cwd| - 1], rest, fuel - 1)
      case Normal(n) =>
        match Lookup(root, cwd + [n])
        case None => Missing
        case Some(Link(absolute, target)) =>
          if absolute then Escaped else Resolve(root, cwd, target + rest, fuel - 1)
        case Some(Folder(_)) => Resolve(root, cwd + [n], rest, fuel - 1)
        case Some(_) => if rest == [] then Arrived(cwd + [n]) else Missing
  }

  predicate NoUp(todo: seq<Comp>) { forall i | 0 <= i < |todo| :: todo[i] != Up }

  // Every `..` stands before every ordinary component.
  predicate UpsFirst(todo: seq<Comp>) {
    forall i, j | 0 <= i < j < |todo| :: todo[i].Normal? ==> todo[j] != Up
  }

  predicate LinksUpsFirst(node: Node) {
    match node
    case Link(_, target) => UpsFirst(target)
    case Folder(children) => forall n | n in children :: LinksUpsFirst(children[n])
    case _ => true
  }
}
