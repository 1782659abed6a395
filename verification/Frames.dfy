// Length-prefixed frames: the byte stream that identities are hashed from, and why it can
// be read back in only one way.
module Frames {
  import opened Bytes

  // ----- numbers ---------------------------------------------------------------------------

  function Pow256(w: nat): nat { if w == 0 then 1 else 0x100 * Pow256(w - 1) }

  // `to_be_bytes`, `w` bytes wide.
  function BigEndian(n: nat, w: nat): (r: Str)
    ensures |r| == w
  {
    if w == 0 then [] else BigEndian(n / 0x100, w - 1) + [n % 0x100]
  }

  lemma {:induction false} BigEndianInjective(m: nat, n: nat, w: nat)
    requires m < Pow256(w) && n < Pow256(w) && BigEndian(m, w) == BigEndian(n, w)
    ensures m == n
  {
    if w > 0 {
      var a, b := BigEndian(m, w), BigEndian(n, w);
      assert a[w - 1] == b[w - 1] && a[..w - 1] == b[..w - 1];
      assert a[..w - 1] == BigEndian(m / 0x100, w - 1) && b[..w - 1] == BigEndian(n / 0x100, w - 1);
      BigEndianInjective(m / 0x100, n / 0x100, w - 1);
    }
  }

  // A number in positional notation, the most significant digit first.
  function Positional(digits: Str, base: nat): nat {
    if digits == [] then 0 else Positional(digits[..|digits| - 1], base) * base + digits[|digits| - 1]
  }

  lemma {:induction false} BigEndianReads(n: nat, w: nat)
    requires n < Pow256(w)
    ensures Positional(BigEndian(n, w), 0x100) == n
  {
    if w > 0 {
      BigEndianReads(n / 0x100, w - 1);
      assert BigEndian(n, w)[..w - 1] == BigEndian(n / 0x100, w - 1);
    }
  }

  lemma Pow256At8()
    ensures Pow256(8) == TwoTo64
  {
    assert Pow256(4) == 0x1_0000_0000;
    assert Pow256(6) == 0x1_0000_0000_0000;
  }

  // `usize::to_string`.
  function Decimal(n: nat): (r: Str)
    ensures r != []
  {
    if n < 10 then [48 + n] else Decimal(n / 10) + [48 + n % 10]
  }

  function DigitsOf(s: Str): (r: Str)
    requires forall i | 0 <= i < |s| :: '0' as int <= s[i] <= '9' as int
    ensures |r| == |s|
  {
    seq(|s|, i requires 0 <= i < |s| => s[i] - '0' as int)
  }

  // The decimal digits of the number, without leading zeros.
  lemma {:induction false} DecimalReads(n: nat)
    ensures forall i | 0 <= i < |Decimal(n)| :: '0' as int <= Decimal(n)[i] <= '9' as int
    ensures Positional(DigitsOf(Decimal(n)), 10) == n && (n > 0 ==> Decimal(n)[0] != '0' as int)
  {
    if n < 10 {
      assert DigitsOf(Decimal(n))[..0] == [];
    } else {
      DecimalReads(n / 10);
      var r := Decimal(n);
      assert r[..|r| - 1] == Decimal(n / 10);
      assert DigitsOf(r)[..|r| - 1] == DigitsOf(Decimal(n / 10));
    }
  }

  lemma {:induction false} DecimalInjective(m: nat, n: nat)
    requires Decimal(m) == Decimal(n)
    ensures m == n
  {
    var a, b := Decimal(m), Decimal(n);
    assert a[|a| - 1] == 48 + m % 10 && b[|b| - 1] == 48 + n % 10;
    if m >= 10 && n >= 10 {
      assert a[..|a| - 1] == Decimal(m / 10) && b[..|b| - 1] == Decimal(n / 10);
      DecimalInjective(m / 10, n / 10);
    }
  }

  // ----- frames ----------------------------------------------------------------------------

  function Frame(v: Str): Str { BigEndian(|v| % TwoTo64, 8) + v }

  function Framed(fields: seq<Str>): Str {
    if fields == [] then [] else Framed(fields[..|fields| - 1]) + Frame(fields[|fields| - 1])
  }

  lemma FramedSnoc(fields: seq<Str>, v: Str)
    ensures Framed(fields + [v]) == Framed(fields) + Frame(v)
  {
    hide Frame;
    assert (fields + [v])[..|fields|] == fields;
  }

  lemma {:induction false} FramedCons(v: Str, fields: seq<Str>)
    ensures Framed([v] + fields) == Frame(v) + Framed(fields)
    decreases |fields|
  {
    hide Frame, Framed;
    FramedSnoc([], v);
    FramedNothing();
    if fields == [] {
      assert [v] + fields == [] + [v];
    } else {
      var init, last := fields[..|fields| - 1], fields[|fields| - 1];
      FramedCons(v, init);
      FramedSnoc(init, last);
      FramedSnoc([v] + init, last);
      assert fields == init + [last] && [v] + fields == ([v] + init) + [last];
    }
  }

  lemma FramedNothing()
    ensures Framed([]) == []
  {
  }

  ghost predicate Measured(fields: seq<Str>) { forall f | f in fields :: |f| < TwoTo64 }

  // The first frame of a stream is determined by the stream.
  lemma FirstFrame(v: Str, s: Str, w: Str, t: Str)
    requires |v| < TwoTo64 && |w| < TwoTo64 && Frame(v) + s == Frame(w) + t
    ensures v == w && s == t
  {
    var r := Frame(v) + s;
    Pow256At8();
    hide BigEndian, Pow256;
    assert r[..8] == BigEndian(|v|, 8) && r[..8] == BigEndian(|w|, 8);
    BigEndianInjective(|v|, |w|, 8);
    assert r[8..] == v + s && r[8..] == w + t;
    assert v == (v + s)[..|v|] && w == (w + t)[..|w|] && s == (v + s)[|v|..] && t == (w + t)[|w|..];
  }

  // A framed list can be read back in only one way.
  lemma {:induction false} FramedInjective(a: seq<Str>, b: seq<Str>)
    requires Measured(a) && Measured(b) && Framed(a) == Framed(b)
    ensures a == b
  {
    hide Frame, Framed;
    FramedNothing();
    if a != [] { assert a == [a[0]] + a[1..]; FramedCons(a[0], a[1..]); }
    if b != [] { assert b == [b[0]] + b[1..]; FramedCons(b[0], b[1..]); }
    if a != [] && b != [] {
      FirstFrame(a[0], Framed(a[1..]), b[0], Framed(b[1..]));
      FramedInjective(a[1..], b[1..]);
    } else {
      FrameNotEmpty(a, b);
    }
  }

  lemma FrameNotEmpty(a: seq<Str>, b: seq<Str>)
    requires Framed(a) == Framed(b) && (a == [] || b == [])
    ensures a == b
  {
    assert forall s: Str :: |Frame(s)| == 8 + |s|;
  }

  // ----- counted lists inside a list of fields ---------------------------------------------------

  function Flat<T>(f: T -> seq<Str>, s: seq<T>): seq<Str> {
    if s == [] then [] else Flat(f, s[..|s| - 1]) + f(s[|s| - 1])
  }

  lemma FlatNothing<T>(f: T -> seq<Str>)
    ensures Flat(f, []) == []
  {
  }

  lemma FlatSnoc<T>(f: T -> seq<Str>, s: seq<T>, i: nat)
    requires i < |s|
    ensures Flat(f, s[..i + 1]) == Flat(f, s[..i]) + f(s[i])
  {
    assert s[..i + 1][..i] == s[..i];
  }

  // `f` renders an element in `width` fields, and tells elements apart.
  ghost predicate Renders<T(!new)>(f: T -> seq<Str>, width: nat) {
    width > 0 && (forall x :: |f(x)| == width) && forall x, y :: f(x) == f(y) ==> x == y
  }

  function Counted<T>(tag: Str, f: T -> seq<Str>, s: seq<T>): seq<Str> { [tag, Decimal(|s|)] + Flat(f, s) }

  lemma {:induction false} FlatLength<T(!new)>(f: T -> seq<Str>, width: nat, s: seq<T>)
    requires Renders(f, width)
    ensures |Flat(f, s)| == width * |s|
    decreases |s|
  {
    if s != [] {
      var n := |s| - 1;
      FlatLength(f, width, s[..n]);
      assert |Flat(f, s)| == |Flat(f, s[..n])| + |f(s[n])|;
      assert width * |s| == width * n + width;
    }
  }

  lemma {:induction false} FlatInjective<T(!new)>(f: T -> seq<Str>, width: nat, a: seq<T>, b: seq<T>)
    requires Renders(f, width) && |a| == |b| && Flat(f, a) == Flat(f, b)
    ensures a == b
    decreases |a|
  {
    if a != [] {
      var n := |a| - 1;
      FlatLength(f, width, a[..n]);
      FlatLength(f, width, b[..n]);
      var k := |Flat(f, a[..n])|;
      assert Flat(f, a)[..k] == Flat(f, a[..n]) && Flat(f, b)[..k] == Flat(f, b[..n]);
      assert Flat(f, a)[k..] == f(a[n]) && Flat(f, b)[k..] == f(b[n]);
      FlatInjective(f, width, a[..n], b[..n]);
      assert a == a[..n] + [a[n]] && b == b[..n] + [b[n]];
    }
  }

  // A counted list says where it ends.
  lemma CountedInjective<T(!new)>(tag: Str, f: T -> seq<Str>, width: nat, a: seq<T>, s: seq<Str>, b: seq<T>,
      t: seq<Str>)
    requires Renders(f, width) && Counted(tag, f, a) + s == Counted(tag, f, b) + t
    ensures a == b && s == t
  {
    var r := Counted(tag, f, a) + s;
    assert r[1] == Decimal(|a|) && r[1] == Decimal(|b|);
    DecimalInjective(|a|, |b|);
    FlatLength(f, width, a);
    FlatLength(f, width, b);
    var k := 2 + |Flat(f, a)|;
    assert r[2..k] == Flat(f, a) && r[2..k] == Flat(f, b);
    FlatInjective(f, width, a, b);
    assert s == r[k..] && t == r[k..];
  }

  lemma SameCut(a: seq<Str>, s: seq<Str>, b: seq<Str>, t: seq<Str>)
    requires a + s == b + t && |a| == |b|
    ensures a == b && s == t
  {
    assert a == (a + s)[..|a|] && b == (b + t)[..|a|] && s == (a + s)[|a|..] && t == (b + t)[|a|..];
  }

  // ----- the hasher -------------------------------------------------------------------------------

  class IdentityHasher {
    // Everything the digest has been fed.
    var fed: Str
    ghost var fields: seq<Str>

    ghost predicate Valid()
      reads this
    {
      fed == Framed(fields)
    }

    constructor ()
      ensures Valid() && fields == []
    {
      fed, fields := [], [];
    }

    method Feed(value: Str)
      requires Valid()
      modifies this
      ensures Valid() && fields == old(fields) + [value]
    {
      fed := fed + BigEndian(|value| % TwoTo64, 8);
      fed := fed + value;
      fields := fields + [value];
    }

    method Field(tag: Str, value: Str)
      requires Valid()
      modifies this
      ensures Valid() && fields == old(fields) + [tag, value]
    {
      Feed(tag);
      Feed(value);
    }

    method Count(tag: Str, value: nat)
      requires Valid()
      modifies this
      ensures Valid() && fields == old(fields) + [tag, Decimal(value)]
    {
      Field(tag, Decimal(value));
    }
  }
}
