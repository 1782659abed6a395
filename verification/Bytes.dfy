// Byte strings. Every text the modelled code handles is a string of bytes: the archive
// code admits ASCII only, and Rust compares and hashes its UTF-8 strings bytewise.
module Bytes {

  type byte = x: int | 0 <= x < 0x100
  type Str = seq<byte>

  // 64-bit unsigned integers, `u64` and `usize` alike.
  const TwoTo64: int := 0x1_0000_0000_0000_0000
  type u64 = x: int | 0 <= x < TwoTo64

  // A literal as bytes.
  function Ascii(s: string): (r: Str)
    ensures |r| == |s|
  {
    seq(|s|, i requires 0 <= i < |s| => s[i] as int % 0x100)
  }

  const NUL: byte := 0
  const SPACE: byte := 32
  const DOT: byte := 46
  const SLASH: byte := 47

  // Hexadecimal digits of either case.
  predicate IsHex(s: Str) { forall i | 0 <= i < |s| :: 48 <= s[i] <= 57 || 65 <= s[i] <= 70 || 97 <= s[i] <= 102 }

  // The part up to the first separator.
  function UpTo(s: Str, sep: byte): (n: nat)
    ensures n <= |s| && sep !in s[..n] && (n < |s| ==> s[n] == sep)
  {
    if s == [] || s[0] == sep then 0 else UpTo(s[1..], sep) + 1
  }

  // `str::split` on one byte: always at least one part, possibly empty.
  function Split(s: Str, sep: byte): (parts: seq<Str>)
    ensures parts != []
    decreases |s|
  {
    var n := UpTo(s, sep);
    if n == |s| then [s] else [s[..n]] + Split(s[n + 1..], sep)
  }

  function Join(parts: seq<Str>, sep: byte): Str
    requires parts != []
  {
    if |parts| == 1 then parts[0] else parts[0] + [sep] + Join(parts[1..], sep)
  }

  lemma {:induction false} JoinSplit(s: Str, sep: byte)
    ensures Join(Split(s, sep), sep) == s
    ensures forall p | p in Split(s, sep) :: sep !in p
    decreases |s|
  {
    var n := UpTo(s, sep);
    if n < |s| {
      JoinSplit(s[n + 1..], sep);
      assert s == s[..n] + [sep] + s[n + 1..];
    }
  }

  lemma SplitFirst(a: Str, rest: Str, sep: byte)
    requires sep !in a
    ensures Split(a, sep) == [a]
    ensures Split(a + [sep] + rest, sep) == [a] + Split(rest, sep)
  {
    hide UpTo;
    var s := a + [sep] + rest;
    assert a[..|a|] == a && s[..|a|] == a && s[|a| + 1..] == rest;
    UpToAt(a, sep, |a|);
    UpToAt(s, sep, |a|);
  }

  lemma JoinFirst(parts: seq<Str>, sep: byte)
    requires parts != []
    ensures Join(parts, sep) == if |parts| == 1 then parts[0] else parts[0] + [sep] + Join(parts[1..], sep)
  {
  }

  lemma {:induction false} SplitJoin(parts: seq<Str>, sep: byte)
    requires parts != [] && forall p | p in parts :: sep !in p
    ensures Split(Join(parts, sep), sep) == parts
  {
    hide Join, Split;
    JoinFirst(parts, sep);
    var rest := if |parts| == 1 then [] else Join(parts[1..], sep);
    SplitFirst(parts[0], rest, sep);
    if |parts| > 1 {
      SplitJoin(parts[1..], sep);
      assert parts == [parts[0]] + parts[1..];
    }
  }

  lemma UpToAt(s: Str, sep: byte, n: nat)
    requires n <= |s| && sep !in s[..n] && (n < |s| ==> s[n] == sep)
    ensures UpTo(s, sep) == n
  {
  }

  // ----- ASCII case ---------------------------------------------------------------

  function LowerByte(b: byte): byte { if 65 <= b <= 90 then b + 32 else b }

  // `to_ascii_lowercase`.
  function Lower(s: Str): (r: Str)
    ensures |r| == |s| && forall i | 0 <= i < |s| :: r[i] == LowerByte(s[i])
  {
    seq(|s|, i requires 0 <= i < |s| => LowerByte(s[i]))
  }

  // One letter, in its two cases.
  ghost predicate OtherCase(a: byte, b: byte) {
    ('A' as int <= a <= 'Z' as int && b == a + 32) || ('A' as int <= b <= 'Z' as int && a == b + 32)
  }

  // Texts that fold to the same differ only in the case of letters.
  lemma FoldsAlike(a: Str, b: Str)
    ensures Lower(a) == Lower(b) <==>
      |a| == |b| && forall i | 0 <= i < |a| :: a[i] == b[i] || OtherCase(a[i], b[i])
  {
    if |a| == |b| {
      assert Lower(a) == Lower(b) <==> forall i | 0 <= i < |a| :: Lower(a)[i] == Lower(b)[i];
    } else {
      assert |Lower(a)| == |a| && |Lower(b)| == |b|;
    }
  }

  function LowerAll(parts: seq<Str>): (r: seq<Str>)
    ensures |r| == |parts|
  {
    if parts == [] then [] else LowerAll(parts[..|parts| - 1]) + [Lower(parts[|parts| - 1])]
  }

  lemma LowerAllSnoc(a: seq<Str>, c: Str)
    ensures LowerAll(a + [c]) == LowerAll(a) + [Lower(c)]
  {
    assert (a + [c])[..|a|] == a;
  }

  lemma {:induction false} LowerAllCons(c: Str, a: seq<Str>)
    ensures LowerAll([c] + a) == [Lower(c)] + LowerAll(a)
  {
    if a != [] {
      LowerAllCons(c, a[..|a| - 1]);
      assert ([c] + a)[..|a|] == [c] + a[..|a| - 1];
    }
  }

  // Folding the whole name folds its components.
  lemma {:induction false} SplitLower(s: Str)
    ensures Split(Lower(s), SLASH) == LowerAll(Split(s, SLASH))
    decreases |s|
  {
    var n := UpTo(s, SLASH);
    UpToAt(Lower(s), SLASH, n);
    assert Lower(s)[..n] == Lower(s[..n]);
    if n < |s| {
      assert Lower(s)[n + 1..] == Lower(s[n + 1..]);
      SplitLower(s[n + 1..]);
      LowerAllCons(s[..n], Split(s[n + 1..], SLASH));
    }
  }
}
