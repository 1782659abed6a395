// Names of archive entries and of files in a git tree: which ones are admitted, and what that means for
// where a path of that name leads.
module EntryNames {
  import opened Prelude
  import opened Bytes

  // ----- the checks -----------------------------------------------------------------------

  function Comps(name: Str): (r: seq<Str>)
    ensures r != []
  {
    Split(name, SLASH)
  }

  // `validate_archive_entry_path`.
  predicate PathOk(name: Str, maxPathBytes: u64) {
    && name != [] && |name| <= maxPathBytes && name[0] != SLASH
    && (forall i | 0 <= i < |name| :: name[i] != 92 && name[i] != 58 && name[i] >= 0x20 && name[i] != 0x7f)
    && (forall c | c in Comps(name) :: c != [] && c != [DOT] && c != [DOT, DOT])
  }

  function UpperByte(b: byte): byte { if 97 <= b <= 122 then b - 32 else b }

  function Upper(s: Str): Str { seq(|s|, i requires 0 <= i < |s| => UpperByte(s[i])) }

  const CON: Str := [67, 79, 78]
  const PRN: Str := [80, 82, 78]
  const AUX: Str := [65, 85, 88]
  const NUL_NAME: Str := [78, 85, 76]
  const CONIN: Str := [67, 79, 78, 73, 78, 36]
  const CONOUT: Str := [67, 79, 78, 79, 85, 84, 36]
  const COM: Str := [67, 79, 77]
  const LPT: Str := [76, 80, 84]

  // Device names of another system, whatever their extension.
  predicate WindowsReservedName(component: Str) {
    ReservedStem(Upper(component[..UpTo(component, DOT)]))
  }

  predicate ReservedStem(name: Str) {
    name == CON || name == PRN || name == AUX || name == NUL_NAME || name == CONIN || name == CONOUT ||
    ReservedPort(name)
  }

  predicate ReservedPort(u: Str) {
    |u| == 4 && (u[..3] == COM || u[..3] == LPT) && 49 <= u[3] <= 57
  }

  predicate PortableComponent(c: Str) {
    (c != [] ==> c[|c| - 1] != DOT && c[|c| - 1] != SPACE) && !WindowsReservedName(c)
  }

  predicate IsAscii(name: Str) { forall i | 0 <= i < |name| :: name[i] < 0x80 }

  predicate PortableName(name: Str) {
    IsAscii(name) && forall c | c in Comps(name) :: PortableComponent(c)
  }

  // ----- what a path of a name means -----------------------------------------------------

  // From `at` below some directory, one component further; None is a place outside the directory.
  function Enter(at: Option<seq<Str>>, c: Str): Option<seq<Str>> {
    if at.None? || c == [] || c == ['.' as int] then at
    else if c == ['.' as int, '.' as int] then if at.value == [] then None else Some(at.value[..|at.value| - 1])
    else Some(at.value + [c])
  }

  // The whole name as a path, with `.`, `..` and repeated slashes in force.
  function Resolved(name: Str, at: Option<seq<Str>>): Option<seq<Str>>
    decreases |name|
  {
    var n := UpTo(name, SLASH);
    if n == |name| then Enter(at, name) else Resolved(name[n + 1..], Enter(at, name[..n]))
  }

  // The name leads to a place below the directory, and is the one spelling of the way there.
  ghost predicate NamesItself(name: Str) {
    var to := Resolved(name, Some([])); to.Some? && to.value != [] && Join(to.value, SLASH) == name
  }

  // No backslash, colon, control byte or DEL.
  ghost predicate Harmless(name: Str) {
    forall b | b in name :: b != '\\' as int && b != ':' as int && b > 31 && b != 127
  }

  predicate Special(c: Str) { c == [] || c == [DOT] || c == [DOT, DOT] }

  // The bytes of the components, each with a slash.
  function Width(parts: seq<Str>): nat {
    if parts == [] then 0 else Width(parts[..|parts| - 1]) + |parts[|parts| - 1]| + 1
  }

  lemma WidthSnoc(parts: seq<Str>, c: Str)
    ensures Width(parts + [c]) == Width(parts) + |c| + 1
  {
    assert (parts + [c])[..|parts|] == parts;
  }

  lemma {:induction false} WidthCons(c: Str, parts: seq<Str>)
    ensures Width([c] + parts) == |c| + 1 + Width(parts)
    decreases |parts|
  {
    if parts == [] {
      assert [c] + parts == [] + [c];
      WidthSnoc([], c);
    } else {
      var n := |parts| - 1;
      WidthCons(c, parts[..n]);
      WidthSnoc([c] + parts[..n], parts[n]);
      assert [c] + parts == ([c] + parts[..n]) + [parts[n]];
    }
  }

  lemma {:induction false} JoinWidth(parts: seq<Str>)
    requires parts != []
    ensures |Join(parts, SLASH)| + 1 == Width(parts)
    decreases |parts|
  {
    assert parts == [parts[0]] + parts[1..];
    WidthCons(parts[0], parts[1..]);
    if |parts| > 1 { JoinWidth(parts[1..]); }
  }

  lemma SplitsOff(name: Str, n: nat)
    requires n <= |name| && SLASH !in name[..n] && (n < |name| ==> name[n] == SLASH)
    ensures n == |name| ==> Split(name, SLASH) == [name]
    ensures n < |name| ==> Split(name, SLASH) == [name[..n]] + Split(name[n + 1..], SLASH)
  {
    hide Split, UpTo;
    if n < |name| {
      var a, rest := name[..n], name[n + 1..];
      assert name == a + [SLASH] + rest;
      SplitFirst(a, rest, SLASH);
    } else {
      assert name[..n] == name;
      SplitFirst(name, [], SLASH);
    }
  }

  // A name, one component at a time.
  lemma FirstComponent(name: Str, at: Option<seq<Str>>, n: nat)
    requires n == UpTo(name, SLASH)
    ensures n == |name| ==> Split(name, SLASH) == [name] && Resolved(name, at) == Enter(at, name)
    ensures n < |name| ==>
      && Split(name, SLASH) == [name[..n]] + Split(name[n + 1..], SLASH)
      && Resolved(name, at) == Resolved(name[n + 1..], Enter(at, name[..n]))
  {
    hide UpTo, Enter, Split;
    SplitsOff(name, n);
  }

  // Every component that is not taken as it stands makes the way shorter than the name.
  lemma {:induction false} ResolvedWidth(name: Str, at: seq<Str>)
    ensures (forall c | c in Split(name, SLASH) :: !Special(c)) ==>
      Resolved(name, Some(at)) == Some(at + Split(name, SLASH))
    ensures (exists c | c in Split(name, SLASH) :: Special(c)) && Resolved(name, Some(at)).Some? ==>
      Width(Resolved(name, Some(at)).value) < Width(at) + |name| + 1
    ensures Resolved(name, Some(at)).Some? ==> Width(Resolved(name, Some(at)).value) <= Width(at) + |name| + 1
    decreases |name|
  {
    hide Resolved, Split, Enter, Width, Special;
    var n := UpTo(name, SLASH);
    FirstComponent(name, Some(at), n);
    if n == |name| {
      EnterWidth(at, name);
    } else {
      var c, rest := name[..n], name[n + 1..];
      EnterWidth(at, c);
      var next := Enter(Some(at), c);
      if next.Some? {
        ResolvedWidth(rest, next.value);
        assert at + [c] + Split(rest, SLASH) == at + ([c] + Split(rest, SLASH));
      } else {
        StaysOutside(rest);
      }
    }
  }

  lemma EnterWidth(at: seq<Str>, c: Str)
    ensures Enter(Some(at), c).Some? ==> Width(Enter(Some(at), c).value) <= Width(at) + |c| + 1
    ensures Special(c) && Enter(Some(at), c).Some? ==> Width(Enter(Some(at), c).value) < Width(at) + |c| + 1
    ensures !Special(c) ==> Enter(Some(at), c) == Some(at + [c])
  {
    WidthSnoc(at, c);
  }

  lemma {:induction false} StaysOutside(name: Str)
    ensures Resolved(name, None) == None
    decreases |name|
  {
    var n := UpTo(name, SLASH);
    if n < |name| { StaysOutside(name[n + 1..]); }
  }

  // The check on a name admits exactly the harmless ones, within the length, that name a place below the
  // directory by its one spelling; the way there is the components of the name, one by one.
  lemma PathOkExactly(name: Str, max: u64)
    ensures PathOk(name, max) <==> |name| <= max && Harmless(name) && NamesItself(name)
    ensures PathOk(name, max) ==> Resolved(name, Some([])) == Some(Comps(name))
  {
    hide Resolved, Split, UpTo, Join, Width;
    var parts := Split(name, SLASH);
    ResolvedWidth(name, []);
    assert Width([]) == 0 by { NoWidth(); }
    JoinSplit(name, SLASH);
    JoinWidth(parts);
    assert [] + parts == parts;
    if Resolved(name, Some([])).Some? && Resolved(name, Some([])).value != [] {
      JoinWidth(Resolved(name, Some([])).value);
    }
    HarmlessBytes(name);
    if name == [] || name[0] == SLASH { FirstIsEmpty(name); }
    assert (forall c | c in parts :: !Special(c)) <==>
      forall c | c in parts :: c != [] && c != [DOT] && c != [DOT, DOT];
  }

  lemma NoWidth()
    ensures Width([]) == 0
  {
  }

  lemma HarmlessBytes(name: Str)
    ensures Harmless(name) <==>
      forall i | 0 <= i < |name| :: name[i] != 92 && name[i] != 58 && name[i] >= 0x20 && name[i] != 0x7f
  {
    assert forall b | b in name :: exists i :: 0 <= i < |name| && name[i] == b;
    assert forall i | 0 <= i < |name| :: name[i] in name;
  }

  lemma FirstIsEmpty(name: Str)
    requires name == [] || name[0] == SLASH
    ensures [] in Split(name, SLASH) && Special([])
  {
    assert Split(name, SLASH)[0] == [];
  }

  // ----- components, byte by byte ---------------------------------------------------------

  // What lies between two slashes, or between one and an end of the name.
  ghost predicate ComponentAt(name: Str, i: int, j: int) {
    && 0 <= i <= j <= |name| && (forall k | i <= k < j :: name[k] != SLASH)
    && (i == 0 || name[i - 1] == SLASH) && (j == |name| || name[j] == SLASH)
  }

  lemma ComponentsAre(name: Str, c: Str)
    ensures c in Comps(name) <==> exists i, j :: ComponentAt(name, i, j) && c == name[i..j]
  {
    if c in Comps(name) { var i, j := WhereComponent(name, c); }
    if i, j :| ComponentAt(name, i, j) && c == name[i..j] { IsComponent(name, i, j); }
  }

  lemma {:induction false} WhereComponent(name: Str, c: Str) returns (i: int, j: int)
    requires c in Split(name, SLASH)
    ensures ComponentAt(name, i, j) && c == name[i..j]
    decreases |name|
  {
    hide Split, UpTo, ComponentAt;
    var n := UpTo(name, SLASH);
    SplitsOff(name, n);
    if n == |name| || c == name[..n] {
      i, j := 0, n;
      FirstIsComponent(name, n);
    } else {
      var rest := name[n + 1..];
      i, j := WhereComponent(rest, c);
      ComponentMoves(name, n, i, j);
      i, j := i + n + 1, j + n + 1;
    }
  }

  lemma FirstIsComponent(name: Str, n: nat)
    requires n <= |name| && SLASH !in name[..n] && (n < |name| ==> name[n] == SLASH)
    ensures ComponentAt(name, 0, n) && name[0..n] == name[..n] && (n == |name| ==> name[..n] == name)
  {
    assert forall k | 0 <= k < n :: name[k] in name[..n];
  }

  lemma ComponentMoves(name: Str, n: nat, i: int, j: int)
    requires n < |name| && name[n] == SLASH && ComponentAt(name[n + 1..], i, j)
    ensures ComponentAt(name, i + n + 1, j + n + 1) && name[i + n + 1..j + n + 1] == name[n + 1..][i..j]
  {
    var rest := name[n + 1..];
    assert forall k | n + 1 <= k < |name| :: name[k] == rest[k - n - 1];
  }

  lemma {:induction false} IsComponent(name: Str, i: int, j: int)
    requires ComponentAt(name, i, j)
    ensures name[i..j] in Split(name, SLASH)
    decreases |name|
  {
    hide Split, UpTo, ComponentAt;
    var n := UpTo(name, SLASH);
    SplitsOff(name, n);
    Bounds(name, i, j);
    if n == |name| {
      WholeName(name, i, j);
      assert name[i..j] == name;
    } else {
      ComponentIn(name, n, i, j);
      if i > n { IsComponent(name[n + 1..], i - n - 1, j - n - 1); } else { assert name[i..j] == name[..n]; }
    }
  }

  lemma Bounds(name: Str, i: int, j: int)
    requires ComponentAt(name, i, j)
    ensures 0 <= i <= j <= |name|
  {
  }

  lemma WholeName(name: Str, i: int, j: int)
    requires SLASH !in name && ComponentAt(name, i, j)
    ensures i == 0 && j == |name|
  {
    assert forall k | 0 <= k < |name| :: name[k] in name;
  }

  // The first component, or one of the rest.
  lemma ComponentIn(name: Str, n: nat, i: int, j: int)
    requires n < |name| && name[n] == SLASH && SLASH !in name[..n] && ComponentAt(name, i, j)
    ensures (i == 0 && j == n) ||
      (i > n && name[i..j] == name[n + 1..][i - n - 1..j - n - 1] && ComponentAt(name[n + 1..], i - n - 1, j - n - 1))
  {
    assert forall k | 0 <= k < n :: name[k] in name[..n];
    if i > n {
      var rest := name[n + 1..];
      assert forall k | n + 1 <= k < |name| :: name[k] == rest[k - n - 1];
      assert i > n + 1 ==> rest[i - n - 2] == name[i - 1];
    }
  }

  // ----- names that mean something elsewhere --------------------------------------------------

  // What comes before the first dot.
  ghost predicate Stem(c: Str, stem: Str) {
    stem <= c && '.' as int !in stem && (|stem| == |c| || c[|stem|] == '.' as int)
  }

  ghost predicate DeviceWord(w: Str) {
    || w == Ascii("con") || w == Ascii("prn") || w == Ascii("aux") || w == Ascii("nul")
    || w == Ascii("conin$") || w == Ascii("conout$")
    || PortWord(w)
  }

  // The stem is a device, case aside.
  ghost predicate IsDevice(c: Str) { exists stem :: Stem(c, stem) && DeviceWord(Lower(stem)) }

  // The names are ASCII, no component ends in a dot or a space, and none is a device.
  ghost predicate Portable(name: Str) {
    && (forall b | b in name :: b < 128)
    && (forall i | 0 <= i < |name| && (name[i] == '.' as int || name[i] == ' ' as int) ::
          i + 1 < |name| && name[i + 1] != '/' as int)
    && forall i, j | ComponentAt(name, i, j) :: !IsDevice(name[i..j])
  }

  // A byte comes to the same in upper case exactly where it does in lower case.
  lemma UpperLower(b: byte, k: byte)
    requires !(97 <= k <= 122)
    ensures UpperByte(b) == k <==> LowerByte(b) == LowerByte(k)
  {
  }

  lemma UpperIs(s: Str, k: Str)
    requires forall i | 0 <= i < |k| :: !(97 <= k[i] <= 122)
    ensures Upper(s) == k <==> Lower(s) == Lower(k)
  {
    if |s| == |k| {
      forall i | 0 <= i < |s| ensures Upper(s)[i] == k[i] <==> Lower(s)[i] == Lower(k)[i] { UpperLower(s[i], k[i]); }
      assert Upper(s) == k <==> forall i | 0 <= i < |s| :: Upper(s)[i] == k[i];
      assert Lower(s) == Lower(k) <==> forall i | 0 <= i < |s| :: Lower(s)[i] == Lower(k)[i];
    } else {
      assert |Upper(s)| == |s| && |Lower(s)| == |s| && |Lower(k)| == |k|;
    }
  }

  // The reserved words in lower case.
  lemma WordsLower()
    ensures Lower(CON) == Ascii("con") && Lower(PRN) == Ascii("prn") && Lower(AUX) == Ascii("aux")
    ensures Lower(NUL_NAME) == Ascii("nul") && Lower(CONIN) == Ascii("conin$") && Lower(CONOUT) == Ascii("conout$")
  {
  }

  lemma PortsLower(digit: byte)
    requires 49 <= digit <= 57
    ensures Lower(COM + [digit]) == Ascii("com") + [digit] && Lower(LPT + [digit]) == Ascii("lpt") + [digit]
  {
    assert |Ascii("com")| == 3 && |Ascii("lpt")| == 3;
  }

  lemma StemExactly(stem: Str)
    ensures ReservedStem(Upper(stem)) <==> DeviceWord(Lower(stem))
  {
    hide Upper, Lower, Ascii;
    WordsLower();
    UpperIs(stem, CON);
    UpperIs(stem, PRN);
    UpperIs(stem, AUX);
    UpperIs(stem, NUL_NAME);
    UpperIs(stem, CONIN);
    UpperIs(stem, CONOUT);
    PortExactly(stem);
  }

  ghost predicate PortWord(w: Str) {
    |w| == 4 && (w[..3] == Ascii("com") || w[..3] == Ascii("lpt")) && '1' as int <= w[3] <= '9' as int
  }

  lemma PortExactly(stem: Str)
    ensures ReservedPort(Upper(stem)) <==> PortWord(Lower(stem))
  {
    hide Upper, Lower, Ascii;
    var u, w := Upper(stem), Lower(stem);
    if ReservedPort(u) {
      assert u == u[..3] + [u[3]];
      PortsLower(u[3]);
      UpperIs(stem, u[..3] + [u[3]]);
    }
    if PortWord(w) {
      assert w == w[..3] + [w[3]];
      PortsLower(w[3]);
      var word := if w[..3] == Ascii("com") then COM else LPT;
      UpperIs(stem, word + [w[3]]);
      assert u[..3] == word && u[3] == w[3];
    }
  }

  lemma StemIs(c: Str, stem: Str)
    ensures Stem(c, stem) <==> stem == c[..UpTo(c, DOT)]
  {
    if Stem(c, stem) {
      assert c[..|stem|] == stem;
      UpToAt(c, DOT, |stem|);
    }
  }

  lemma ReservedExactly(c: Str)
    ensures WindowsReservedName(c) <==> IsDevice(c)
  {
    hide Upper, Lower, DeviceWord, Stem;
    forall stem { StemIs(c, stem); }
    StemExactly(c[..UpTo(c, DOT)]);
  }

  // A component ends in a dot or a space just where one of these is followed by a slash or nothing.
  lemma EndsExactly(name: Str)
    ensures (forall i, j | ComponentAt(name, i, j) && i < j :: name[j - 1] != DOT && name[j - 1] != SPACE)
      <==> forall i | 0 <= i < |name| && (name[i] == DOT || name[i] == SPACE) ::
             i + 1 < |name| && name[i + 1] != SLASH
  {
    if forall i, j | ComponentAt(name, i, j) && i < j :: name[j - 1] != DOT && name[j - 1] != SPACE {
      forall i | 0 <= i < |name| && (name[i] == DOT || name[i] == SPACE)
        ensures i + 1 < |name| && name[i + 1] != SLASH
      {
        if !(i + 1 < |name| && name[i + 1] != SLASH) {
          var k := StartOf(name, i);
          assert ComponentAt(name, k, i + 1);
        }
      }
    }
  }

  // Where the component around this byte begins.
  lemma {:induction false} StartOf(name: Str, i: int) returns (k: int)
    requires 0 <= i < |name| && name[i] != SLASH
    ensures 0 <= k <= i && (k == 0 || name[k - 1] == SLASH) && forall m | k <= m <= i :: name[m] != SLASH
    decreases i
  {
    k := i;
    if i > 0 && name[i - 1] != SLASH { k := StartOf(name, i - 1); }
  }

  // The portable names, by their bytes.
  lemma PortableExactly(name: Str)
    ensures PortableName(name) <==> Portable(name)
  {
    hide ComponentAt, WindowsReservedName, IsDevice, Comps;
    AsciiBytes(name);
    EndsExactly(name);
    ComponentsPortable(name);
  }

  lemma AsciiBytes(name: Str)
    ensures IsAscii(name) <==> forall b | b in name :: b < 128
  {
    assert forall b | b in name :: exists i :: 0 <= i < |name| && name[i] == b;
    assert forall i | 0 <= i < |name| :: name[i] in name;
  }

  lemma ComponentsPortable(name: Str)
    ensures (forall c | c in Comps(name) :: PortableComponent(c)) <==>
      forall i, j | ComponentAt(name, i, j) ::
        (i < j ==> name[j - 1] != DOT && name[j - 1] != SPACE) && !IsDevice(name[i..j])
  {
    hide WindowsReservedName, IsDevice, Comps;
    if forall c | c in Comps(name) :: PortableComponent(c) {
      forall i, j | ComponentAt(name, i, j)
        ensures (i < j ==> name[j - 1] != DOT && name[j - 1] != SPACE) && !IsDevice(name[i..j])
      {
        ComponentsAre(name, name[i..j]);
        assert PortableComponent(name[i..j]);
        ReservedExactly(name[i..j]);
      }
    } else {
      var c :| c in Comps(name) && !PortableComponent(c);
      ComponentsAre(name, c);
      var i, j :| ComponentAt(name, i, j) && c == name[i..j];
      ReservedExactly(c);
    }
  }
}
