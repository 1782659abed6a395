// Bytewise lexicographic order, and sorting by a string key.
module Ordering {
  import opened Bytes

  predicate Le(a: Str, b: Str) {
    a == [] || (b != [] && (a[0] < b[0] || (a[0] == b[0] && Le(a[1..], b[1..]))))
  }

  lemma {:induction false} LeTotal(a: Str, b: Str)
    ensures Le(a, b) || Le(b, a)
    ensures Le(a, b) && Le(b, a) ==> a == b
  {
    if a != [] && b != [] && a[0] == b[0] {
      LeTotal(a[1..], b[1..]);
      assert a == [a[0]] + a[1..] && b == [b[0]] + b[1..];
    }
  }

  // The first byte in which they differ is less in `a`.
  ghost predicate LessAt(a: Str, b: Str, i: int) {
    0 <= i < |a| && i < |b| && a[i] < b[i] && forall j | 0 <= j < i :: a[j] == b[j]
  }

  // The order of strings as they are compared: by the first byte in which they differ, else the shorter first.
  ghost predicate Precedes(a: Str, b: Str) { a <= b || exists i :: LessAt(a, b, i) }

  lemma LeExactly(a: Str, b: Str)
    ensures Le(a, b) <==> Precedes(a, b)
  {
    if Le(a, b) { LeMeans(a, b); }
    if a <= b { PrefixIsLe(a, b); }
    if i :| LessAt(a, b, i) { LessIsLe(a, b, i); }
  }

  lemma {:induction false} LeMeans(a: Str, b: Str)
    requires Le(a, b)
    ensures Precedes(a, b)
  {
    if a != [] && a[0] == b[0] {
      LeMeans(a[1..], b[1..]);
      if i :| LessAt(a[1..], b[1..], i) { assert LessAt(a, b, i + 1); }
    } else if a != [] {
      assert LessAt(a, b, 0);
    }
  }

  lemma {:induction false} PrefixIsLe(a: Str, b: Str)
    requires a <= b
    ensures Le(a, b)
  {
    if a != [] { PrefixIsLe(a[1..], b[1..]); }
  }

  lemma {:induction false} LessIsLe(a: Str, b: Str, i: int)
    requires LessAt(a, b, i)
    ensures Le(a, b)
  {
    if i > 0 { LessIsLe(a[1..], b[1..], i - 1); }
  }

  lemma {:induction false} LeTransitive(a: Str, b: Str, c: Str)
    requires Le(a, b) && Le(b, c)
    ensures Le(a, c)
  {
    if a != [] && a[0] == b[0] == c[0] { LeTransitive(a[1..], b[1..], c[1..]); }
  }

  ghost predicate SortedBy<T>(s: seq<T>, key: T -> Str) {
    forall i, j | 0 <= i < j < |s| :: Le(key(s[i]), key(s[j]))
  }

  // From each element to every later one.
  ghost predicate Ascends<T>(s: seq<T>, key: T -> Str) {
    forall i, j | 0 <= i < j < |s| :: Precedes(key(s[i]), key(s[j]))
  }

  lemma SortedAscends<T>(s: seq<T>, key: T -> Str)
    ensures SortedBy(s, key) <==> Ascends(s, key)
  {
    hide Le, Precedes;
    forall a, b { LeExactly(a, b); }
  }

  function Insert<T>(x: T, s: seq<T>, key: T -> Str): seq<T> {
    if s == [] || Le(key(x), key(s[0])) then [x] + s else [s[0]] + Insert(x, s[1..], key)
  }

  // A stable sort.
  function SortBy<T>(s: seq<T>, key: T -> Str): seq<T> {
    if s == [] then [] else Insert(s[0], SortBy(s[1..], key), key)
  }

  lemma {:induction false} InsertAdds<T>(x: T, s: seq<T>, key: T -> Str)
    ensures multiset(Insert(x, s, key)) == multiset(s) + multiset{x}
  {
    if s == [] || Le(key(x), key(s[0])) {
      assert multiset([x] + s) == multiset{x} + multiset(s);
    } else {
      InsertAdds(x, s[1..], key);
      assert s == [s[0]] + s[1..];
    }
  }

  lemma SortedCons<T>(x: T, s: seq<T>, key: T -> Str)
    ensures SortedBy([x] + s, key) <==> SortedBy(s, key) && forall y | y in s :: Le(key(x), key(y))
  {
    var r := [x] + s;
    if SortedBy(r, key) {
      forall i, j | 0 <= i < j < |s| ensures Le(key(s[i]), key(s[j])) { assert r[i + 1] == s[i] && r[j + 1] == s[j]; }
      forall y | y in s ensures Le(key(x), key(y)) {
        var j :| 0 <= j < |s| && s[j] == y;
        assert r[0] == x && r[j + 1] == y;
      }
    }
  }

  lemma {:induction false} InsertSorts<T>(x: T, s: seq<T>, key: T -> Str)
    requires SortedBy(s, key)
    ensures SortedBy(Insert(x, s, key), key)
  {
    hide SortedBy;
    if s == [] {
      SortedCons(x, s, key);
    } else {
      assert s == [s[0]] + s[1..];
      SortedCons(s[0], s[1..], key);
      if Le(key(x), key(s[0])) {
        forall y | y in s ensures Le(key(x), key(y)) {
          if y != s[0] { LeTransitive(key(x), key(s[0]), key(y)); }
        }
        SortedCons(x, s, key);
      } else {
        InsertSorts(x, s[1..], key);
        InsertAdds(x, s[1..], key);
        LeTotal(key(x), key(s[0]));
        forall y | y in Insert(x, s[1..], key) ensures Le(key(s[0]), key(y)) {
          assert y in multiset(Insert(x, s[1..], key));
        }
        SortedCons(s[0], Insert(x, s[1..], key), key);
      }
    }
  }

  lemma SortOne<T>(x: T, key: T -> Str)
    ensures SortBy([x], key) == [x]
  {
    assert [x][1..] == [];
  }

  lemma {:induction false} SortKeeps<T>(s: seq<T>, key: T -> Str)
    ensures multiset(SortBy(s, key)) == multiset(s) && |SortBy(s, key)| == |s|
    ensures SortedBy(SortBy(s, key), key)
  {
    if s != [] {
      SortKeeps(s[1..], key);
      InsertAdds(s[0], SortBy(s[1..], key), key);
      InsertSorts(s[0], SortBy(s[1..], key), key);
      assert s == [s[0]] + s[1..];
    }
    assert |multiset(SortBy(s, key))| == |multiset(s)|;
  }

  // The key tells the elements apart.
  ghost predicate Distinguishes<T>(s: seq<T>, key: T -> Str) {
    forall x, y | x in s && y in s :: key(x) == key(y) ==> x == y
  }

  lemma {:induction false} SortedOnce<T>(a: seq<T>, b: seq<T>, key: T -> Str)
    requires multiset(a) == multiset(b) && SortedBy(a, key) && SortedBy(b, key) && Distinguishes(a, key)
    ensures a == b
  {
    assert |multiset(a)| == |multiset(b)|;
    if a != [] {
      SameFirst(a, b, key);
      assert a == [a[0]] + a[1..] && b == [b[0]] + b[1..];
      SortedOnce(a[1..], b[1..], key);
    }
  }

  lemma SameFirst<T>(a: seq<T>, b: seq<T>, key: T -> Str)
    requires multiset(a) == multiset(b) && SortedBy(a, key) && SortedBy(b, key) && Distinguishes(a, key)
    requires a != [] && b != []
    ensures a[0] == b[0] && multiset(a[1..]) == multiset(b[1..])
  {
    assert a[0] in multiset(b) && b[0] in multiset(a);
    LeTotal(key(a[0]), key(b[0]));
    FirstOut(a);
    FirstOut(b);
  }

  lemma FirstOut<T>(s: seq<T>)
    requires s != []
    ensures multiset(s[1..]) == multiset(s) - multiset{s[0]}
  {
    assert s == [s[0]] + s[1..];
  }

  // Sorting forgets the order of its input.
  lemma SortPermutes<T>(a: seq<T>, b: seq<T>, key: T -> Str)
    requires multiset(a) == multiset(b) && Distinguishes(a, key)
    ensures SortBy(a, key) == SortBy(b, key)
  {
    SortKeeps(a, key);
    SortKeeps(b, key);
    forall x | x in SortBy(a, key) ensures x in a {
      assert x in multiset(SortBy(a, key));
    }
    SortedOnce(SortBy(a, key), SortBy(b, key), key);
  }

  lemma SameElements<T>(a: seq<T>, b: seq<T>)
    requires multiset(a) == multiset(b)
    ensures |a| == |b| && forall x :: x in a <==> x in b
  {
    assert |multiset(a)| == |multiset(b)|;
    forall x ensures x in a <==> x in b { assert x in a <==> x in multiset(a); }
  }

  // Two entries of the list have this key.
  ghost predicate Repeats<T>(s: seq<T>, key: T -> Str, value: Str) {
    exists i, j :: 0 <= i < j < |s| && key(s[i]) == value && key(s[j]) == value
  }

  lemma Without<T>(s: seq<T>, k: nat)
    requires k < |s|
    ensures multiset(s[..k] + s[k + 1..]) == multiset(s) - multiset{s[k]}
  {
    assert s == s[..k] + [s[k]] + s[k + 1..];
  }

  // Where an element is in a rearrangement of the list, and that the others are rearranged too.
  lemma SameRest<T>(a: seq<T>, b: seq<T>, i: nat) returns (k: nat)
    requires multiset(a) == multiset(b) && i < |a|
    ensures k < |b| && b[k] == a[i] && multiset(a[..i] + a[i + 1..]) == multiset(b[..k] + b[k + 1..])
  {
    assert a[i] in multiset(b);
    k :| 0 <= k < |b| && b[k] == a[i];
    Without(a, i);
    Without(b, k);
  }

  // Rearranging the list repeats no more and no less.
  lemma RepeatsPermutes<T>(a: seq<T>, b: seq<T>, key: T -> Str, value: Str)
    requires multiset(a) == multiset(b) && Repeats(a, key, value)
    ensures Repeats(b, key, value)
  {
    var i, j :| 0 <= i < j < |a| && key(a[i]) == value && key(a[j]) == value;
    var others := a[..i] + a[i + 1..];
    assert others[j - 1] == a[j];
    Without(a, i);
    assert a[i] in multiset(b);
    var k :| 0 <= k < |b| && b[k] == a[i];
    Without(b, k);
    var rest := b[..k] + b[k + 1..];
    assert a[j] in multiset(rest);
    var l :| 0 <= l < |rest| && rest[l] == a[j];
    assert l < k ==> rest[l] == b[l];
    assert l >= k ==> rest[l] == b[l + 1];
  }

  // No two positions share a key.
  ghost predicate DistinctBy<T>(s: seq<T>, key: T -> Str) {
    forall i, j | 0 <= i < j < |s| :: key(s[i]) != key(s[j])
  }

  lemma {:induction false} DistinctCountsOnce<T>(s: seq<T>, key: T -> Str, x: T)
    requires DistinctBy(s, key)
    ensures multiset(s)[x] <= 1
    decreases |s|
  {
    if s != [] {
      var n := |s| - 1;
      assert s == s[..n] + [s[n]];
      DistinctCountsOnce(s[..n], key, x);
    }
  }

  lemma TwiceCountsTwo<T>(s: seq<T>, i: nat, j: nat)
    requires i < j < |s| && s[i] == s[j]
    ensures multiset(s)[s[i]] >= 2
  {
    assert s == s[..i] + [s[i]] + s[i + 1..j] + [s[j]] + s[j + 1..];
  }

  // Distinctness does not depend on the order.
  lemma DistinctPermutes<T>(a: seq<T>, b: seq<T>, key: T -> Str)
    requires multiset(a) == multiset(b) && DistinctBy(a, key)
    ensures DistinctBy(b, key)
  {
    SameElements(a, b);
    forall i, j | 0 <= i < j < |b| ensures key(b[i]) != key(b[j]) {
      if b[i] == b[j] {
        DistinctCountsOnce(a, key, b[i]);
        TwiceCountsTwo(b, i, j);
      } else {
        assert b[i] in b && b[j] in b;
        var p :| 0 <= p < |a| && a[p] == b[i];
        var q :| 0 <= q < |a| && a[q] == b[j];
      }
    }
  }

  // Sorted sequences with distinct keys are equal when their elements are the same.
  lemma {:induction false} SortedSetOnce<T>(a: seq<T>, b: seq<T>, key: T -> Str)
    requires SortedBy(a, key) && SortedBy(b, key) && DistinctBy(a, key) && DistinctBy(b, key)
    requires forall x :: x in a <==> x in b
    ensures a == b
  {
    assert b != [] ==> b[0] in a;
    if a != [] {
      assert a[0] in b && b != [] && b[0] in a;
      LeTotal(key(a[0]), key(b[0]));
      assert a[0] == b[0];
      assert a == [a[0]] + a[1..] && b == [b[0]] + b[1..];
      forall x ensures x in a[1..] <==> x in b[1..] {
        TailLacksHead(a, key);
        TailLacksHead(b, key);
      }
      SortedSetOnce(a[1..], b[1..], key);
    }
  }

  lemma TailLacksHead<T>(s: seq<T>, key: T -> Str)
    requires DistinctBy(s, key) && s != []
    ensures s[0] !in s[1..] && forall x :: x in s <==> x == s[0] || x in s[1..]
  {
    assert s == [s[0]] + s[1..];
    forall i | 0 <= i < |s| - 1 ensures s[1..][i] != s[0] { assert key(s[0]) != key(s[i + 1]); }
  }

  function MapAll<T, U>(f: T -> U, s: seq<T>): (r: seq<U>)
    ensures |r| == |s| && forall i | 0 <= i < |r| :: r[i] == f(s[i])
  {
    seq(|s|, i requires 0 <= i < |s| => f(s[i]))
  }

  lemma MapWithout<T, U>(f: T -> U, s: seq<T>, k: nat)
    requires k < |s|
    ensures multiset(MapAll(f, s)) == multiset(MapAll(f, s[..k] + s[k + 1..])) + multiset{f(s[k])}
    ensures multiset(s) == multiset(s[..k] + s[k + 1..]) + multiset{s[k]}
  {
    var t := s[..k] + s[k + 1..];
    assert s == s[..k] + [s[k]] + s[k + 1..];
    assert MapAll(f, s) == MapAll(f, t)[..k] + [f(s[k])] + MapAll(f, t)[k..];
    assert MapAll(f, t) == MapAll(f, t)[..k] + MapAll(f, t)[k..];
  }

  lemma {:induction false} MapPermutes<T, U>(f: T -> U, a: seq<T>, b: seq<T>)
    requires multiset(a) == multiset(b)
    ensures multiset(MapAll(f, a)) == multiset(MapAll(f, b))
    decreases |a|
  {
    hide MapAll;
    SameElements(a, b);
    if a == [] {
      assert b == [];
    } else {
      var k := SameRest(a, b, 0);
      MapWithout(f, a, 0);
      MapWithout(f, b, k);
      MapPermutes(f, a[..0] + a[1..], b[..k] + b[k + 1..]);
    }
  }
}
