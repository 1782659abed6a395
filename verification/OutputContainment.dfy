// Where paths in an accepted output tree can lead. The check on links is lexical; this
// module proves which targets it really contains and which it does not.
module OutputContainment {
  import opened Prelude
  import opened OutputTree

  // ----- links that go up first stay inside -----------------------------------------------------

  lemma {:induction false} LookupVisits(depth: nat, root: Node, path: seq<Name>)
    requires VisitOutputTree(depth, root) && LinksUpsFirst(root) && Lookup(root, path).Some?
    ensures VisitOutputTree(depth + |path|, Lookup(root, path).value) && LinksUpsFirst(Lookup(root, path).value)
    decreases |path|
  {
    if path != [] { LookupVisits(depth + 1, root.children[path[0]], path[1..]); }
  }

  lemma {:induction false} LookupFolder(root: Node, path: seq<Name>, n: Name)
    requires Lookup(root, path + [n]).Some?
    ensures Lookup(root, path).Some? && Lookup(root, path).value.Folder? && n in Lookup(root, path).value.children
    ensures Lookup(root, path + [n]).value == Lookup(root, path).value.children[n]
    decreases |path|
  {
    if path == [] {
      assert (path + [n])[1..] == [];
    } else {
      assert (path + [n])[1..] == path[1..] + [n];
      LookupFolder(root.children[path[0]], path[1..], n);
    }
  }

  // Ordinary components after a contained walk stay contained.
  lemma {:induction false} InsideAppend(depth: nat, target: seq<Comp>, rest: seq<Comp>)
    requires LexicallyInside(depth, target) && NoUp(rest)
    ensures LexicallyInside(depth, target + rest)
    decreases |target|, |rest|
  {
    if target == [] {
      assert target + rest == rest;
      if rest != [] {
        InsideAppend(if rest[0].Normal? then depth + 1 else depth, [], rest[1..]);
        assert [] + rest[1..] == rest[1..];
      }
    } else {
      assert (target + rest)[1..] == target[1..] + rest;
      var depth' :=
        match target[0]
        case CurDir => depth
        case Normal(_) => depth + 1
        case Up => if depth > 0 then depth - 1 else 0;
      InsideAppend(depth', target[1..], rest);
    }
  }

  ghost predicate FolderAt(root: Node, path: seq<Name>) { Lookup(root, path).Some? && Lookup(root, path).value.Folder? }

  lemma ParentFolder(root: Node, path: seq<Name>)
    requires FolderAt(root, path) && path != []
    ensures FolderAt(root, path[..|path| - 1])
  {
    assert path == path[..|path| - 1] + [path[|path| - 1]];
    LookupFolder(root, path[..|path| - 1], path[|path| - 1]);
  }

  // A walk that goes up before it goes down, and not too far, never leaves an accepted tree whose
  // links do the same, through any chain of links; where it arrives there is a real object.
  lemma {:induction false} StaysInside(root: Node, cwd: seq<Name>, todo: seq<Comp>, fuel: nat)
    requires ValidOutputTree(root) && LinksUpsFirst(root) && FolderAt(root, cwd)
    requires LexicallyInside(|cwd|, todo) && UpsFirst(todo)
    ensures var r := Resolve(root, cwd, todo, fuel);
      !r.Escaped? && (r.Arrived? ==> Lookup(root, r.at).Some? && !Lookup(root, r.at).value.Link?)
    decreases fuel
  {
    if todo != [] && fuel > 0 {
      var rest := todo[1..];
      match todo[0] {
        case CurDir => StaysInside(root, cwd, rest, fuel - 1);
        case Up =>
          ParentFolder(root, cwd);
          StaysInside(root, cwd[..|cwd| - 1], rest, fuel - 1);
        case Normal(n) =>
          assert NoUp(rest);
          var found := Lookup(root, cwd + [n]);
          if found.Some? {
            LookupVisits(0, root, cwd + [n]);
            match found.value {
              case Link(_, target) =>
                InsideAppend(|cwd|, target, rest);
                assert UpsFirst(target + rest);
                StaysInside(root, cwd, target + rest, fuel - 1);
              case Folder(_) => StaysInside(root, cwd + [n], rest, fuel - 1);
              case _ =>
            }
          }
      }
    }
  }

  // Symlink containment: no path without `..` leads out of the tree.
  lemma PathsStayInside(root: Node, path: seq<Comp>, fuel: nat)
    requires ValidOutputTree(root) && LinksUpsFirst(root) && NoUp(path)
    ensures !Resolve(root, [], path, fuel).Escaped?
  {
    NoUpIsInside(0, path);
    StaysInside(root, [], path, fuel);
  }

  // ----- and no others do ---------------------------------------------------------------------------

  function Ups(k: nat): (r: seq<Comp>)
    ensures |r| == k && forall i | 0 <= i < k :: r[i] == Up
  {
    seq(k, _ => Up)
  }

  function ToRoot(k: nat): Node { Link(false, [CurDir] + Ups(k)) }

  // Folders `f/f/…`, `height` more of them; in each, every name is a link back to the root.
  function Chain(k: nat, height: nat, names: set<Name>, f: Name): (r: Node)
    requires f !in names
    ensures r.Folder? && (forall n | n in names :: n in r.children && r.children[n] == ToRoot(k))
    ensures height > 0 ==> f in r.children
    decreases height
  {
    var links := map n | n in names :: ToRoot(k);
    Folder(if height == 0 then links else links[f := Chain(k + 1, height - 1, names, f)])
  }

  function Repeat(f: Name, k: nat): (r: seq<Name>)
    ensures |r| == k && forall i | 0 <= i < k :: r[i] == f
  {
    seq(k, _ => f)
  }

  lemma {:induction false} UpsInside(depth: nat, k: nat)
    requires k <= depth
    ensures LexicallyInside(depth, Ups(k))
  {
    if k > 0 {
      assert Ups(k)[1..] == Ups(k - 1);
      UpsInside(depth - 1, k - 1);
    }
  }

  lemma {:induction false} ChainAccepted(k: nat, height: nat, names: set<Name>, f: Name)
    requires f !in names
    ensures VisitOutputTree(k, Chain(k, height, names, f)) && LinksUpsFirst(Chain(k, height, names, f))
    decreases height
  {
    UpsInside(k, k);
    assert ([CurDir] + Ups(k))[1..] == Ups(k);
    assert LexicallyInside(k, [CurDir] + Ups(k));
    if height > 0 { ChainAccepted(k + 1, height - 1, names, f); }
  }

  lemma {:induction false} ChainLookup(k: nat, height: nat, names: set<Name>, f: Name, j: nat)
    requires f !in names && j <= height
    ensures Lookup(Chain(k, height, names, f), Repeat(f, j)) == Some(Chain(k + j, height - j, names, f))
    decreases j
  {
    if j > 0 {
      assert Repeat(f, j)[1..] == Repeat(f, j - 1);
      ChainLookup(k + 1, height - 1, names, f, j - 1);
    }
  }

  // In the chain, a name that is not `f` is a link to the root wherever it is met.
  lemma LinkBack(height: nat, names: set<Name>, f: Name, j: nat, n: Name)
    requires f !in names && j <= height && n in names
    ensures Lookup(Chain(0, height, names, f), Repeat(f, j) + [n]) == Some(ToRoot(j))
  {
    ChainLookup(0, height, names, f, j);
    LookupInto(Chain(0, height, names, f), Repeat(f, j), n);
  }

  lemma {:induction false} LookupInto(root: Node, path: seq<Name>, n: Name)
    requires FolderAt(root, path) && n in Lookup(root, path).value.children
    ensures Lookup(root, path + [n]) == Some(Lookup(root, path).value.children[n])
    decreases |path|
  {
    if path == [] {
      assert (path + [n])[1..] == [];
    } else {
      assert (path + [n])[1..] == path[1..] + [n];
      LookupInto(root.children[path[0]], path[1..], n);
    }
  }

  lemma {:induction false} Climb(root: Node, f: Name, k: nat, rest: seq<Comp>, fuel: nat)
    ensures Resolve(root, Repeat(f, k), Ups(k) + rest, fuel + k) == Resolve(root, [], rest, fuel)
    decreases k
  {
    if k == 0 {
      assert Ups(k) + rest == rest && Repeat(f, 0) == [];
    } else {
      assert (Ups(k) + rest)[1..] == Ups(k - 1) + rest;
      assert Repeat(f, k)[..k - 1] == Repeat(f, k - 1);
      Climb(root, f, k - 1, rest, fuel);
    }
  }

  ghost predicate NamesIn(todo: seq<Comp>, names: set<Name>) { forall c | c in todo && c.Normal? :: c.name in names }

  // After an ordinary component the walk is at the root, and the next `..` leads out.
  lemma {:induction false} EscapesLater(height: nat, names: set<Name>, f: Name, j: nat, todo: seq<Comp>)
    returns (fuel: nat)
    requires f !in names && j <= height && NamesIn(todo, names)
    requires !(LexicallyInside(j, todo) && UpsFirst(todo))
    ensures Resolve(Chain(0, height, names, f), Repeat(f, j), todo, fuel) == Escaped
    decreases |todo|
  {
    var root, rest := Chain(0, height, names, f), todo[1..];
    assert todo == [todo[0]] + rest;
    match todo[0] {
      case CurDir =>
        fuel := EscapesLater(height, names, f, j, rest);
        fuel := fuel + 1;
      case Up =>
        if j == 0 {
          fuel := 1;
        } else {
          assert Repeat(f, j)[..j - 1] == Repeat(f, j - 1);
          fuel := EscapesLater(height, names, f, j - 1, rest);
          fuel := fuel + 1;
        }
      case Normal(n) =>
        assert todo[0] in todo;
        LinkBack(height, names, f, j, n);
        GoesUp(j, todo);
        fuel := EscapesFromRoot(height, names, f, rest);
        Climb(root, f, j, rest, fuel);
        ThroughLink(root, Repeat(f, j), n, j, rest, fuel + j);
        fuel := fuel + j + 2;
    }
  }

  lemma ThroughLink(root: Node, cwd: seq<Name>, n: Name, k: nat, rest: seq<Comp>, fuel: nat)
    requires Lookup(root, cwd + [n]) == Some(ToRoot(k))
    ensures Resolve(root, cwd, [Normal(n)] + rest, fuel + 2) == Resolve(root, cwd, Ups(k) + rest, fuel)
  {
    assert ([Normal(n)] + rest)[1..] == rest;
    var target := [CurDir] + Ups(k);
    assert (target + rest)[1..] == Ups(k) + rest;
    assert Resolve(root, cwd, target + rest, fuel + 1) == Resolve(root, cwd, Ups(k) + rest, fuel);
  }

  // What starts with an ordinary component and is not contained has a `..` later.
  lemma GoesUp(j: nat, todo: seq<Comp>)
    requires todo != [] && todo[0].Normal? && !(LexicallyInside(j, todo) && UpsFirst(todo))
    ensures Up in todo[1..]
  {
    if NoUp(todo) {
      NoUpIsInside(j, todo);
    } else {
      var i :| 0 <= i < |todo| && todo[i] == Up;
      assert todo[1..][i - 1] == Up;
    }
  }

  lemma NoUpIsInside(depth: nat, todo: seq<Comp>)
    requires NoUp(todo)
    ensures LexicallyInside(depth, todo) && UpsFirst(todo)
  {
    InsideAppend(depth, [], todo);
    assert [] + todo == todo;
  }

  lemma {:induction false} EscapesFromRoot(height: nat, names: set<Name>, f: Name, todo: seq<Comp>) returns (fuel: nat)
    requires f !in names && NamesIn(todo, names) && Up in todo
    ensures Resolve(Chain(0, height, names, f), [], todo, fuel) == Escaped
    decreases |todo|
  {
    var root, rest := Chain(0, height, names, f), todo[1..];
    assert todo == [todo[0]] + rest;
    match todo[0] {
      case Up => fuel := 1;
      case CurDir =>
        fuel := EscapesFromRoot(height, names, f, rest);
        fuel := fuel + 1;
      case Normal(n) =>
        assert todo[0] in todo;
        LinkBack(height, names, f, 0, n);
        assert Repeat(f, 0) == [] && Ups(0) + rest == rest;
        fuel := EscapesFromRoot(height, names, f, rest);
        ThroughLink(root, [], n, 0, rest, fuel);
        fuel := fuel + 2;
    }
  }

  // A name that is not among these.
  lemma {:induction false} FreshName(names: set<Name>) returns (f: Name)
    ensures forall n | n in names :: |n| < |f|
    decreases |names|
  {
    if names == {} {
      f := "f";
    } else {
      var n :| n in names;
      var g := FreshName(names - {n});
      f := g + n + "f";
    }
  }

  // The accepted trees whose links all go up first cannot be left by this walk from any folder at this depth.
  ghost predicate Contained(depth: nat, target: seq<Comp>) {
    forall root, cwd, fuel: nat | ValidOutputTree(root) && LinksUpsFirst(root) && |cwd| == depth &&
      FolderAt(root, cwd) ::
      !Resolve(root, cwd, target, fuel).Escaped?
  }

  // The lexical check alone does not contain a link: exactly the targets that it accepts and that have
  // every `..` before every ordinary component are contained in all such trees.
  lemma ContainedExactly(depth: nat, target: seq<Comp>)
    ensures Contained(depth, target) <==> LexicallyInside(depth, target) && UpsFirst(target)
  {
    if LexicallyInside(depth, target) && UpsFirst(target) {
      forall root, cwd, fuel: nat | ValidOutputTree(root) && LinksUpsFirst(root) && |cwd| == depth &&
        FolderAt(root, cwd)
        ensures !Resolve(root, cwd, target, fuel).Escaped?
      {
        StaysInside(root, cwd, target, fuel);
      }
    } else {
      NotContained(depth, target);
    }
  }

  lemma NotContained(depth: nat, target: seq<Comp>)
    requires !(LexicallyInside(depth, target) && UpsFirst(target))
    ensures !Contained(depth, target)
  {
    var names := set c | c in target && c.Normal? :: c.name;
    var f := FreshName(names);
    var fuel := EscapesLater(depth, names, f, depth, target);
    ChainAccepted(0, depth, names, f);
    ChainLookup(0, depth, names, f, depth);
    assert FolderAt(Chain(0, depth, names, f), Repeat(f, depth));
    assert Resolve(Chain(0, depth, names, f), Repeat(f, depth), target, fuel).Escaped?;
  }

  // The smallest accepted tree that can be left: `a/l -> ..` and `a/e -> l/..`.
  lemma AcceptedYetEscapes()
    ensures var root :=
      Folder(map["a" := Folder(map["l" := Link(false, [Up]), "e" := Link(false, [Normal("l"), Up])])]);
      ValidOutputTree(root) && Resolve(root, [], [Normal("a"), Normal("e")], 5) == Escaped
  {
    var l, e := Link(false, [Up]), Link(false, [Normal("l"), Up]);
    var a := Folder(map["l" := l, "e" := e]);
    var root := Folder(map["a" := a]);
    assert [Up][1..] == [] && [Normal("l"), Up][1..] == [Up];
    assert VisitOutputTree(2, l) && VisitOutputTree(2, e) && VisitOutputTree(1, a);
    assert ["a"][1..] == [] && ["a", "l"][1..] == ["l"] && ["a", "e"][1..] == ["e"] && ["l"][1..] == [] &&
      ["e"][1..] == [];
    assert Lookup(a, ["l"]) == Some(l) && Lookup(a, ["e"]) == Some(e);
    assert Lookup(root, [] + ["a"]) == Some(a) && Lookup(root, ["a"] + ["l"]) == Some(l) &&
      Lookup(root, ["a"] + ["e"]) == Some(e);
    assert Resolve(root, [], [Up], 1) == Escaped;
    assert ["a"][..0] == [] && [Up, Up][1..] == [Up] && [Up] + [Up] == [Up, Up];
    assert Resolve(root, ["a"], [Up, Up], 2) == Escaped;
    assert Resolve(root, ["a"], [Normal("l"), Up], 3) == Escaped;
    assert [Normal("l"), Up] + [] == [Normal("l"), Up] && [Normal("e")][1..] == [];
    assert Resolve(root, ["a"], [Normal("e")], 4) == Escaped;
    assert [Normal("a"), Normal("e")][1..] == [Normal("e")];
  }
}
