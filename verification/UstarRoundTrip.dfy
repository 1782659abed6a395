// An encoder in the layout of a conventional ustar writer, and the proof that the
// preflight reads back exactly what was written.
module UstarRoundTrip {
  import opened Prelude
  import opened Bytes
  import opened EntryNames
  import opened ArchivePolicy
  import opened Ustar

  // ----- octal numbers -----------------------------------------------------------------

  function Pow8(w: nat): nat { if w == 0 then 1 else 8 * Pow8(w - 1) }

  // `{:0w$o}` for a number that fits.
  function OctalDigits(n: nat, w: nat): (r: Str)
    ensures |r| == w && IsOctal(r)
  {
    if w == 0 then [] else OctalDigits(n / 8, w - 1) + [48 + n % 8]
  }

  lemma {:induction false} OctalInverse(n: nat, w: nat)
    requires n < Pow8(w)
    ensures OctalValue(OctalDigits(n, w)) == n
  {
    if w > 0 {
      OctalInverse(n / 8, w - 1);
      assert OctalDigits(n, w)[..w - 1] == OctalDigits(n / 8, w - 1);
    }
  }

  lemma {:induction false} OctalBound(s: Str)
    requires IsOctal(s)
    ensures OctalValue(s) < Pow8(|s|)
  {
    if s != [] { OctalBound(s[..|s| - 1]); }
  }

  lemma {:induction false} Pow8Grows(v: nat, w: nat)
    requires v <= w
    ensures Pow8(v) <= Pow8(w)
  {
    if v < w { Pow8Grows(v, w - 1); }
  }

  lemma {:induction false} TrimLeftShortens(s: Str)
    ensures |TrimLeft(s)| <= |s|
  {
    if s != [] && s[0] == SPACE { TrimLeftShortens(s[1..]); }
  }

  lemma {:induction false} TrimRightShortens(s: Str)
    ensures |TrimRight(s)| <= |s|
    decreases |s|
  {
    if s != [] && s[|s| - 1] == SPACE { TrimRightShortens(s[..|s| - 1]); }
  }

  // No field of the header is wide enough for its number to overflow 64 bits.
  lemma HeaderNumbersFit(raw: Str)
    requires |raw| <= 12
    ensures ParseOctal(raw).Ok? ==> ParseOctal(raw).value < 0x10_0000_0000
    ensures ParseOctal(raw) != Err(TooLarge)
  {
    var end := UpTo(raw, NUL);
    var t := TrimLeft(raw[..end]);
    TrimLeftShortens(raw[..end]);
    TrimRightShortens(t);
    var digits := TrimRight(t);
    if IsOctal(digits) {
      OctalBound(digits);
      Pow8Grows(|digits|, 12);
      assert Pow8(12) == 0x10_0000_0000 by { Pow8At12(); }
    }
  }

  lemma Pow8At12()
    ensures Pow8(6) == 0x4_0000 && Pow8(11) == 0x2_0000_0000 && Pow8(12) == 0x10_0000_0000
  {
    assert Pow8(3) == 512;
    assert Pow8(6) == 0x4_0000;
    assert Pow8(9) == 0x800_0000;
    assert Pow8(11) == 0x2_0000_0000;
  }

  // A field of digits, then a NUL, then NULs and spaces.
  lemma ParseOctalField(digits: Str, tail: Str)
    requires digits != [] && IsOctal(digits) && OctalValue(digits) < TwoTo64
    requires tail != [] && tail[0] == NUL && forall i | 0 <= i < |tail| :: tail[i] == NUL || tail[i] == SPACE
    ensures ParseOctal(digits + tail) == Ok(OctalValue(digits))
  {
    var raw := digits + tail;
    assert raw[..|digits|] == digits;
    UpToAt(raw, NUL, |digits|);
    assert forall i | |digits| <= i < |raw| :: raw[i] == tail[i - |digits|];
    assert TrimLeft(digits) == digits && TrimRight(digits) == digits;
  }

  // ----- checksum -----------------------------------------------------------------------

  lemma {:induction false} SumBound(s: Str)
    ensures Sum(s) <= 255 * |s|
  {
    if s != [] { SumBound(s[..|s| - 1]); }
  }

  // ----- the header -------------------------------------------------------------------------

  // A header with this checksum field; the fields the preflight does not read are zero.
  function HeaderWith(nameField: Str, flag: byte, size: nat, checksum: Str): (h: Str)
    requires |nameField| <= 100 && |checksum| == 8
    ensures |h| == 512
  {
    nameField + Zeros(124 - |nameField|) + (OctalDigits(size, 11) + [NUL]) + Zeros(12)
      + checksum + [flag] + Zeros(100) + MAGIC + Zeros(247)
  }

  function HeaderSum(nameField: Str, flag: byte, size: nat): nat
    requires |nameField| <= 100
  {
    Sum(HeaderWith(nameField, flag, size, SPACES))
  }

  function EncodeHeader(nameField: Str, flag: byte, size: nat): (h: Str)
    requires |nameField| <= 100
    ensures |h| == 512
  {
    HeaderWith(nameField, flag, size, OctalDigits(HeaderSum(nameField, flag, size), 6) + [NUL, SPACE])
  }

  lemma HeaderFields(nameField: Str, flag: byte, size: nat, checksum: Str)
    requires |nameField| <= 100 && |checksum| == 8
    ensures var h := HeaderWith(nameField, flag, size, checksum);
      && h[0..100] == nameField + Zeros(100 - |nameField|)
      && h[124..136] == OctalDigits(size, 11) + [NUL]
      && h[148..156] == checksum
      && h[156] == flag
      && h[257..265] == MAGIC
      && AllZero(h[345..500])
      && Masked(h) == HeaderWith(nameField, flag, size, SPACES)
  {
  }

  lemma ChecksumReads(nameField: Str, flag: byte, size: nat)
    requires |nameField| <= 100
    ensures var h := EncodeHeader(nameField, flag, size); ParseOctal(h[148..156]) == Ok(Sum(Masked(h)))
  {
    hide HeaderWith;
    var n := HeaderSum(nameField, flag, size);
    var digits := OctalDigits(n, 6);
    HeaderFields(nameField, flag, size, digits + [NUL, SPACE]);
    SumBound(HeaderWith(nameField, flag, size, SPACES));
    Pow8At12();
    OctalInverse(n, 6);
    ParseOctalField(digits, [NUL, SPACE]);
  }

  lemma SizeReads(nameField: Str, flag: byte, size: nat)
    requires |nameField| <= 100 && size < Pow8(11)
    ensures ParseOctal(EncodeHeader(nameField, flag, size)[124..136]) == Ok(size)
  {
    hide HeaderWith;
    HeaderFields(nameField, flag, size, OctalDigits(HeaderSum(nameField, flag, size), 6) + [NUL, SPACE]);
    Pow8At12();
    OctalInverse(size, 11);
    ParseOctalField(OctalDigits(size, 11), [NUL]);
  }

  lemma NameReads(name: Str, n: nat)
    requires NUL !in name
    ensures ReadName(name + Zeros(n)) == Ok(name)
  {
    var raw := name + Zeros(n);
    assert raw[..|name|] == name && raw[|name|..] == Zeros(n);
    UpToAt(raw, NUL, |name|);
  }

  // ----- members ------------------------------------------------------------------------------

  // A file or directory to be written; directories may be spelled with a final slash.
  datatype Item = Item(name: Str, kind: Kind, slash: bool, data: Str)

  function NameField(m: Item): Str { if m.kind.Directory? && m.slash then m.name + [SLASH] else m.name }

  function Flag(kind: Kind): byte { if kind.Directory? then 53 else 48 }

  // The item fits its header.
  predicate Encodable(m: Item) { |NameField(m)| <= 100 && |m.data| < Pow8(11) && |m.data| < TwoTo64 }

  predicate AllEncodable(ms: seq<Item>) { forall i | 0 <= i < |ms| :: Encodable(ms[i]) }

  function EntryOf(m: Item): Entry
    requires Encodable(m)
  {
    Entry(m.name, m.kind, |m.data|)
  }

  function Inventory(ms: seq<Item>): (r: seq<Entry>)
    requires AllEncodable(ms)
    ensures |r| == |ms| && forall i | 0 <= i < |ms| :: r[i] == EntryOf(ms[i])
  {
    seq(|ms|, i requires 0 <= i < |ms| => EntryOf(ms[i]))
  }

  function EncodeItem(m: Item): Member
    requires Encodable(m)
  {
    Member(EncodeHeader(NameField(m), Flag(m.kind), |m.data|), m.data)
  }

  function EncodeItems(ms: seq<Item>): (r: seq<Member>)
    requires AllEncodable(ms)
    ensures |r| == |ms| && forall i | 0 <= i < |ms| :: r[i] == EncodeItem(ms[i])
  {
    seq(|ms|, i requires 0 <= i < |ms| => EncodeItem(ms[i]))
  }

  // All members and two zero blocks.
  function Encode(ms: seq<Item>): Str
    requires AllEncodable(ms)
  {
    Concat(EncodeItems(ms)) + Zeros(1024)
  }

  // An accepted name has no NUL, and a slash only between components.
  lemma {:induction false} FinalSlashLeavesEmpty(s: Str)
    requires s != [] && s[|s| - 1] == SLASH
    ensures [] in Split(s, SLASH)
    decreases |s|
  {
    var n := UpTo(s, SLASH);
    assert SLASH in s;
    if n + 1 < |s| {
      FinalSlashLeavesEmpty(s[n + 1..]);
    } else {
      assert s[..n] + s[n..] == s;
      assert n < |s| ==> s[n + 1..] == [];
      assert Split([], SLASH) == [[]];
    }
  }

  lemma PathIsPlain(name: Str, max: u64)
    requires PathOk(name, max)
    ensures NUL !in name && name != [] && name[|name| - 1] != SLASH
  {
    assert [] !in Comps(name);
    if name[|name| - 1] == SLASH { FinalSlashLeavesEmpty(name); }
  }

  // The header written for an admissible item reads back as its inventory entry.
  lemma HeaderReads(m: Item, limits: Limits)
    requires Encodable(m) && EntryOk(EntryOf(m), limits)
    ensures ReadHeader(EncodeItem(m).header, limits) == Ok(EntryOf(m))
    ensures !AllZero(EncodeItem(m).header)
  {
    hide HeaderWith, PathOk, PortableName;
    var field, flag, size := NameField(m), Flag(m.kind), |m.data|;
    var h := EncodeHeader(field, flag, size);
    HeaderFields(field, flag, size, OctalDigits(HeaderSum(field, flag, size), 6) + [NUL, SPACE]);
    ChecksumReads(field, flag, size);
    SizeReads(field, flag, size);
    assert h[257..265][0] == 117;
    HeaderNameReads(m, limits, h);
  }

  lemma HeaderNameReads(m: Item, limits: Limits, h: Str)
    requires Encodable(m) && EntryOk(EntryOf(m), limits) && |h| == 512
    requires h[0..100] == NameField(m) + Zeros(100 - |NameField(m)|) && AllZero(h[345..500])
    ensures ReadHeaderName(h, m.kind, |m.data|, limits) == Ok(EntryOf(m))
  {
    hide PathOk, PortableComponent, ReadName, Comps;
    PathIsPlain(m.name, limits.maxPathBytes);
    var field := NameField(m);
    NameReads(field, 100 - |field|);
    NameReads([], 155);
    assert h[345..500] == [] + Zeros(155);
    if m.kind.Directory? { StripsBack(m.name); }
  }

  lemma StripsBack(name: Str)
    requires name != [] && name[|name| - 1] != SLASH
    ensures StripSlash(name + [SLASH]) == name && StripSlash(name) == name
  {
  }

  lemma EncodedSpells(ms: seq<Item>, limits: Limits)
    requires AllEncodable(ms)
    requires forall i | 0 <= i < |ms| :: EntryOk(EntryOf(ms[i]), limits)
    ensures Spells(Encode(ms), EncodeItems(ms), Inventory(ms), limits)
  {
    hide ReadHeader, EncodeHeader, EntryOk, Concat;
    var bytes, members, entries := Encode(ms), EncodeItems(ms), Inventory(ms);
    forall i | 0 <= i < |ms| ensures MemberOk(members[i], entries[i], limits) {
      HeaderReads(ms[i], limits);
    }
    assert bytes[..|Concat(members)|] == Concat(members);
    assert bytes[|Concat(members)|..] == Zeros(1024);
  }

  // Writing and reading back: exactly the inventory that was written.
  lemma RoundTrip(ms: seq<Item>, limits: Limits, budget: nat)
    requires AllEncodable(ms)
    requires Admissible(Inventory(ms), limits) && |Encode(ms)| <= budget
    ensures Parse(Encode(ms), limits, budget) == Ok(Inventory(ms))
  {
    hide EntryOk, Parse, Encode;
    forall i | 0 <= i < |ms| ensures EntryOk(EntryOf(ms[i]), limits) {
      assert Inventory(ms)[i] in Inventory(ms);
    }
    EncodedSpells(ms, limits);
    SpelledParses(Encode(ms), EncodeItems(ms), Inventory(ms), limits, budget);
  }
}
