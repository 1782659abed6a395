// Dependency ordering: the depth-first traversal over mutable sets, a function that it
// refines, and what the resulting order or the reported cycle is.
module DependencyGraph {
  import opened Prelude
  import opened Bytes

  type Name = Str

  datatype Graph = Graph(roots: seq<Name>, deps: map<Name, seq<Name>>)

  datatype GraphError =
    | InvalidLock
    | MissingPackage(package: Name, dependency: Name)
    | Cycle(cycle: seq<Name>)

  function Succs(g: Graph, p: Name): seq<Name> { if p in g.deps then g.deps[p] else [] }

  // ----- walks ------------------------------------------------------------------------------

  ghost predicate IsWalk(g: Graph, w: seq<Name>) {
    w != [] && forall i, j | 0 <= i && j == i + 1 < |w| :: w[j] in Succs(g, w[i])
  }

  ghost predicate WalkTo(g: Graph, w: seq<Name>, p: Name) {
    IsWalk(g, w) && w[0] in g.roots && w[|w| - 1] == p
  }

  ghost predicate Reachable(g: Graph, p: Name) { exists w :: WalkTo(g, w, p) }

  predicate NoDups(s: seq<Name>) { forall i, j | 0 <= i < j < |s| :: s[i] != s[j] }

  // A closed walk that can be reached from the roots.
  ghost predicate ClosedWalk(g: Graph, c: seq<Name>) {
    |c| >= 2 && IsWalk(g, c) && c[0] == c[|c| - 1] && Reachable(g, c[0])
  }

  ghost predicate CycleReachable(g: Graph) { exists c :: ClosedWalk(g, c) }

  // A closed walk that repeats only its end.
  ghost predicate SimpleCycle(g: Graph, c: seq<Name>) { ClosedWalk(g, c) && NoDups(c[..|c| - 1]) }

  // Each package after its dependencies, none twice, and exactly what the roots reach.
  ghost predicate DepsFirst(g: Graph, order: seq<Name>) {
    forall i, d | 0 <= i < |order| && d in Succs(g, order[i]) :: d in order[..i]
  }

  ghost predicate IsBuildOrder(g: Graph, order: seq<Name>) {
    NoDups(order) && DepsFirst(g, order) && forall p :: p in order <==> Reachable(g, p)
  }

  // ----- the traversal as a function --------------------------------------------------------------

  function Elems(s: seq<Name>): set<Name> { set x | x in s }

  function Universe(g: Graph): set<Name> {
    g.deps.Keys + (set k, d | k in g.deps && d in g.deps[k] :: d) + Elems(g.roots)
  }

  lemma SuccsInside(g: Graph, p: Name)
    ensures forall d | d in Succs(g, p) :: d in Universe(g)
  {
  }

  datatype Outcome = Done(order: seq<Name>) | Cyclic(cycle: seq<Name>)

  function IndexOf(s: seq<Name>, x: Name): (i: nat)
    requires x in s
    ensures i < |s| && s[i] == x && x !in s[..i]
  {
    if s[0] == x then 0 else IndexOf(s[1..], x) + 1
  }

  function Visited(g: Graph, p: Name, order: seq<Name>, stack: seq<Name>): Outcome
    requires p in Universe(g)
    decreases |Universe(g) - Elems(stack)|, 0, 0
  {
    if p in order then Done(order)
    else if p in stack then Cyclic(stack[IndexOf(stack, p)..] + [p])
    else
      SuccsInside(g, p);
      assert Universe(g) - Elems(stack + [p]) == Universe(g) - Elems(stack) - {p};
      match VisitedAll(g, Succs(g, p), order, stack + [p])
      case Done(o) => Done(o + [p])
      case Cyclic(c) => Cyclic(c)
  }

  function VisitedAll(g: Graph, ps: seq<Name>, order: seq<Name>, stack: seq<Name>): Outcome
    requires forall p | p in ps :: p in Universe(g)
    decreases |Universe(g) - Elems(stack)|, 1, |ps|
  {
    if ps == [] then Done(order)
    else
      match Visited(g, ps[0], order, stack)
      case Done(o) => VisitedAll(g, ps[1..], o, stack)
      case Cyclic(c) => Cyclic(c)
  }

  function BuildOrderOf(g: Graph): Outcome { VisitedAll(g, g.roots, [], []) }

  // The lists are followed from left to right: what an earlier entry needs comes before what a later one adds.
  lemma {:induction false} LeftToRight(g: Graph, ps: seq<Name>, qs: seq<Name>, order: seq<Name>, stack: seq<Name>)
    requires forall p | p in ps + qs :: p in Universe(g)
    ensures VisitedAll(g, ps + qs, order, stack) ==
      match VisitedAll(g, ps, order, stack)
      case Done(o) => VisitedAll(g, qs, o, stack)
      case Cyclic(c) => Cyclic(c)
    decreases |ps|
  {
    hide Visited, Universe;
    if ps == [] {
      assert ps + qs == qs;
    } else {
      assert (ps + qs)[0] == ps[0] && (ps + qs)[1..] == ps[1..] + qs;
      if Visited(g, ps[0], order, stack).Done? {
        LeftToRight(g, ps[1..], qs, Visited(g, ps[0], order, stack).order, stack);
      }
    }
  }

  // ----- the traversal is right ----------------------------------------------------------------------

  ghost predicate OrderOk(g: Graph, order: seq<Name>) {
    NoDups(order) && DepsFirst(g, order) && forall p | p in order :: Reachable(g, p)
  }

  ghost predicate StackOk(g: Graph, stack: seq<Name>, order: seq<Name>) {
    && NoDups(stack) && (stack != [] ==> IsWalk(g, stack) && stack[0] in g.roots)
    && forall x | x in stack :: x !in order
  }

  // `p` is a root, or a dependency of the package on top of the stack.
  predicate Next(g: Graph, stack: seq<Name>, p: Name) {
    if stack == [] then p in g.roots else p in Succs(g, stack[|stack| - 1])
  }

  ghost predicate Right(g: Graph, order: seq<Name>, stack: seq<Name>, r: Outcome) {
    match r
    case Done(o) => order <= o && OrderOk(g, o) && StackOk(g, stack, o)
    case Cyclic(c) => SimpleCycle(g, c)
  }

  lemma StackReaches(g: Graph, stack: seq<Name>, order: seq<Name>, i: nat)
    requires StackOk(g, stack, order) && i < |stack|
    ensures Reachable(g, stack[i])
  {
    assert WalkTo(g, stack[..i + 1], stack[i]);
  }

  lemma CycleFound(g: Graph, stack: seq<Name>, order: seq<Name>, p: Name)
    requires StackOk(g, stack, order) && Next(g, stack, p) && p in stack
    ensures SimpleCycle(g, stack[IndexOf(stack, p)..] + [p])
  {
    var i := IndexOf(stack, p);
    StackReaches(g, stack, order, i);
    var c := stack[i..] + [p];
    assert c[..|c| - 1] == stack[i..];
  }

  lemma Pushed(g: Graph, stack: seq<Name>, order: seq<Name>, p: Name)
    requires StackOk(g, stack, order) && Next(g, stack, p) && p !in stack && p !in order
    ensures StackOk(g, stack + [p], order) && forall d | d in Succs(g, p) :: Next(g, stack + [p], d)
  {
    if stack != [] { assert (stack + [p])[0] == stack[0]; }
  }

  lemma Popped(g: Graph, stack: seq<Name>, order: seq<Name>, o: seq<Name>, p: Name)
    requires order <= o && OrderOk(g, o) && StackOk(g, stack, order) && StackOk(g, stack + [p], o)
    requires forall d | d in Succs(g, p) :: d in o
    ensures OrderOk(g, o + [p]) && StackOk(g, stack, o + [p])
  {
    StackReaches(g, stack + [p], o, |stack|);
    assert (stack + [p])[|stack|] == p && p in stack + [p] && p !in o;
    var o' := o + [p];
    forall i, d | 0 <= i < |o'| && d in Succs(g, o'[i]) ensures d in o'[..i] {
      assert o'[..i] == o[..i];
    }
    forall x | x in stack ensures x !in o' {
      assert x in stack + [p];
      var i :| 0 <= i < |stack| && stack[i] == x;
      assert (stack + [p])[i] == x;
    }
  }

  lemma {:induction false} VisitedRight(g: Graph, p: Name, order: seq<Name>, stack: seq<Name>)
    requires p in Universe(g) && OrderOk(g, order) && StackOk(g, stack, order) && Next(g, stack, p)
    ensures var r := Visited(g, p, order, stack); Right(g, order, stack, r) && (r.Done? ==> p in r.order)
    decreases |Universe(g) - Elems(stack)|, 0, 0
  {
    hide OrderOk, StackOk, SimpleCycle, Universe;
    if p in order {
    } else if p in stack {
      CycleFound(g, stack, order, p);
    } else {
      SuccsInside(g, p);
      assert Universe(g) - Elems(stack + [p]) == Universe(g) - Elems(stack) - {p};
      Pushed(g, stack, order, p);
      VisitedAllRight(g, Succs(g, p), order, stack + [p]);
      var r := VisitedAll(g, Succs(g, p), order, stack + [p]);
      if r.Done? { Popped(g, stack, order, r.order, p); }
    }
  }

  lemma {:induction false} VisitedAllRight(g: Graph, ps: seq<Name>, order: seq<Name>, stack: seq<Name>)
    requires (forall p | p in ps :: p in Universe(g)) && OrderOk(g, order) && StackOk(g, stack, order)
    requires forall p | p in ps :: Next(g, stack, p)
    ensures var r := VisitedAll(g, ps, order, stack);
      Right(g, order, stack, r) && (r.Done? ==> forall p | p in ps :: p in r.order)
    decreases |Universe(g) - Elems(stack)|, 1, |ps|
  {
    hide OrderOk, StackOk, SimpleCycle, Universe, Next;
    if ps != [] {
      VisitedRight(g, ps[0], order, stack);
      var r := Visited(g, ps[0], order, stack);
      if r.Done? { VisitedAllRight(g, ps[1..], r.order, stack); }
    }
  }

  // Everything reachable is in an order that holds the roots.
  lemma {:induction false} ReachedIsOrdered(g: Graph, order: seq<Name>, w: seq<Name>)
    requires DepsFirst(g, order) && IsWalk(g, w) && w[0] in order
    ensures w[|w| - 1] in order
    decreases |w|
  {
    if |w| > 1 {
      var v := w[..|w| - 1];
      ReachedIsOrdered(g, order, v);
      var i :| 0 <= i < |order| && order[i] == v[|v| - 1];
      assert w[|w| - 1] in order[..i];
    }
  }

  // Along a walk the positions in the order fall.
  lemma {:induction false} PositionsFall(g: Graph, order: seq<Name>, w: seq<Name>)
    requires DepsFirst(g, order) && IsWalk(g, w) && |w| >= 2 && w[0] in order
    ensures w[|w| - 1] in order && IndexOf(order, w[|w| - 1]) < IndexOf(order, w[0])
    decreases |w|
  {
    var v := w[..|w| - 1];
    if |v| > 1 { PositionsFall(g, order, v); }
    var i := IndexOf(order, v[|v| - 1]);
    var x := w[|w| - 1];
    assert x in order[..i];
    var j :| 0 <= j < i && order[j] == x;
    IndexIsFirst(order, j);
  }

  lemma IndexIsFirst(s: seq<Name>, j: nat)
    requires j < |s|
    ensures IndexOf(s, s[j]) <= j
  {
    if IndexOf(s, s[j]) > j { assert s[j] in s[..IndexOf(s, s[j])]; }
  }

  lemma OrderedIsAcyclic(g: Graph, order: seq<Name>)
    requires IsBuildOrder(g, order)
    ensures !CycleReachable(g)
  {
    forall c ensures !ClosedWalk(g, c) {
      if ClosedWalk(g, c) { PositionsFall(g, order, c); }
    }
  }

  // The order, or the cycle, that the traversal finds is the right one.
  lemma BuildOrderRight(g: Graph)
    ensures match BuildOrderOf(g)
      case Done(order) => IsBuildOrder(g, order) && !CycleReachable(g)
      case Cyclic(c) => SimpleCycle(g, c) && CycleReachable(g)
  {
    hide Reachable, IsWalk;
    VisitedAllRight(g, g.roots, [], []);
    var r := BuildOrderOf(g);
    if r.Done? {
      forall p ensures p in r.order <==> Reachable(g, p) {
        if Reachable(g, p) { ReachableIsOrdered(g, r.order, p); }
      }
      OrderedIsAcyclic(g, r.order);
    }
  }

  lemma ReachableIsOrdered(g: Graph, order: seq<Name>, p: Name)
    requires DepsFirst(g, order) && Reachable(g, p) && forall x | x in g.roots :: x in order
    ensures p in order
  {
    var w :| WalkTo(g, w, p);
    ReachedIsOrdered(g, order, w);
  }

  // ----- the traversal over mutable state --------------------------------------------------------------

  lemma ElemsPush(s: seq<Name>, x: Name)
    ensures Elems(s + [x]) == Elems(s) + {x}
    ensures NoDups(s) && x !in s ==> NoDups(s + [x])
    ensures x !in s ==> Elems(s) == Elems(s + [x]) - {x}
    ensures forall y :: y in s <==> y in Elems(s)
  {
  }

  class Traversal {
    const g: Graph
    var permanent: set<Name>
    var temporary: set<Name>
    var stack: seq<Name>
    var order: seq<Name>

    ghost predicate Valid()
      reads this
    {
      permanent == Elems(order) && temporary == Elems(stack) && NoDups(stack)
    }

    constructor (g: Graph)
      ensures Valid() && this.g == g && order == [] && stack == []
    {
      this.g := g;
      permanent, temporary, stack, order := {}, {}, [], [];
    }

    // `visit`.
    method Visit(package: Name) returns (error: Option<GraphError>)
      requires Valid() && package in Universe(g)
      modifies this
      ensures match Visited(g, package, old(order), old(stack))
        case Done(o) => error.None? && order == o && stack == old(stack) && Valid()
        case Cyclic(c) => error == Some(Cycle(c))
      decreases |Universe(g) - Elems(stack)|
    {
      hide Universe, Elems, NoDups;
      ghost var before := stack;
      ElemsPush(order, package);
      ElemsPush(stack, package);
      if package in permanent { return None; }
      if package in temporary {
        var start := IndexOf(stack, package);
        return Some(Cycle(stack[start..] + [package]));
      }
      temporary := temporary + {package};
      stack := stack + [package];
      SuccsInside(g, package);
      assert Universe(g) - Elems(stack) == Universe(g) - Elems(before) - {package};
      if package in g.deps {
        var dependencies, i := g.deps[package], 0;
        while i < |dependencies|
          invariant i <= |dependencies| && Valid() && stack == before + [package]
          invariant VisitedAll(g, dependencies[i..], order, stack) == VisitedAll(g, dependencies, old(order), stack)
        {
          error := Visit(dependencies[i]);
          if error.Some? { return; }
          assert dependencies[i..][1..] == dependencies[i + 1..];
          i := i + 1;
        }
      }
      ElemsPush(order, package);
      stack := stack[..|stack| - 1];
      assert stack == before;
      temporary := temporary - {package};
      permanent := permanent + {package};
      order := order + [package];
      return None;
    }
  }

  // `build_order`: fails exactly when a cycle is reachable, and then reports one.
  method BuildOrder(g: Graph) returns (r: Result<seq<Name>, GraphError>)
    ensures r.Ok? <==> !CycleReachable(g)
    ensures r.Ok? ==> IsBuildOrder(g, r.value) && BuildOrderOf(g) == Done(r.value)
    ensures r.Err? ==> r.error.Cycle? && SimpleCycle(g, r.error.cycle)
  {
    hide CycleReachable, IsBuildOrder, SimpleCycle;
    BuildOrderRight(g);
    var t := new Traversal(g);
    var i := 0;
    assert g.roots[0..] == g.roots;
    while i < |g.roots|
      invariant i <= |g.roots| && t.Valid() && t.g == g && t.stack == []
      invariant VisitedAll(g, g.roots[i..], t.order, []) == BuildOrderOf(g)
    {
      var error := t.Visit(g.roots[i]);
      if error.Some? { return Err(error.value); }
      assert g.roots[i..][1..] == g.roots[i + 1..];
      i := i + 1;
    }
    return Ok(t.order);
  }
}
