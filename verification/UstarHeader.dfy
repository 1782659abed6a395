// What a header block says: the checks on it, field by field, as the format lays the fields out.
module UstarHeader {
  import opened Prelude
  import opened Bytes
  import opened EntryNames
  import opened ArchivePolicy
  import opened Ustar
  import opened UstarRoundTrip

  function Spaces(n: nat): (r: Str)
    ensures |r| == n && forall i | 0 <= i < n :: r[i] == SPACE
  {
    seq(n, _ => SPACE)
  }

  // ----- numbers -----------------------------------------------------------------------------------

  // Octal digits between spaces, then nothing or a NUL and only NULs and spaces.
  ghost predicate OctalLayout(raw: Str, lead: nat, digits: Str, trail: nat, tail: Str) {
    && raw == Spaces(lead) + digits + Spaces(trail) + tail
    && digits != [] && IsOctal(digits)
    && (tail == [] || tail[0] == NUL) && forall b | b in tail :: b == NUL || b == SPACE
  }

  ghost predicate OctalField(raw: Str, n: nat) {
    exists lead, digits, trail, tail :: OctalLayout(raw, lead, digits, trail, tail) && OctalValue(digits) == n
  }

  lemma {:induction false} LeftTrimmed(s: Str) returns (lead: nat)
    ensures s == Spaces(lead) + TrimLeft(s)
    ensures TrimLeft(s) == [] || TrimLeft(s)[0] != SPACE
    decreases |s|
  {
    lead := 0;
    if s != [] && s[0] == SPACE {
      lead := LeftTrimmed(s[1..]);
      lead := lead + 1;
      assert s == [s[0]] + s[1..];
      assert Spaces(lead) == [SPACE] + Spaces(lead - 1);
    }
  }

  lemma {:induction false} RightTrimmed(s: Str) returns (trail: nat)
    ensures s == TrimRight(s) + Spaces(trail)
    decreases |s|
  {
    trail := 0;
    if s != [] && s[|s| - 1] == SPACE {
      trail := RightTrimmed(s[..|s| - 1]);
      trail := trail + 1;
      assert s == s[..|s| - 1] + [s[|s| - 1]];
      assert Spaces(trail) == Spaces(trail - 1) + [SPACE];
    }
  }

  lemma {:induction false} TrimsLeft(lead: nat, s: Str)
    requires s != [] && s[0] != SPACE
    ensures TrimLeft(Spaces(lead) + s) == s
  {
    var all := Spaces(lead) + s;
    if lead == 0 {
      assert all == s;
    } else {
      assert all[1..] == Spaces(lead - 1) + s;
      TrimsLeft(lead - 1, s);
    }
  }

  lemma {:induction false} TrimsRight(s: Str, trail: nat)
    requires s != [] && s[|s| - 1] != SPACE
    ensures TrimRight(s + Spaces(trail)) == s
  {
    var all := s + Spaces(trail);
    if trail == 0 {
      assert all == s;
    } else {
      assert all[..|all| - 1] == s + Spaces(trail - 1);
      TrimsRight(s, trail - 1);
    }
  }

  lemma OctalRead(raw: Str)
    requires ParseOctal(raw).Ok?
    ensures OctalField(raw, ParseOctal(raw).value)
  {
    var end := UpTo(raw, NUL);
    var lead := LeftTrimmed(raw[..end]);
    var trail := RightTrimmed(TrimLeft(raw[..end]));
    var digits := TrimRight(TrimLeft(raw[..end]));
    assert raw == raw[..end] + raw[end..];
    assert OctalLayout(raw, lead, digits, trail, raw[end..]);
  }

  lemma OctalReads(raw: Str, lead: nat, digits: Str, trail: nat, tail: Str)
    requires OctalLayout(raw, lead, digits, trail, tail)
    ensures ParseOctal(raw) == if OctalValue(digits) < TwoTo64 then Ok(OctalValue(digits)) else Err(TooLarge)
  {
    var text := Spaces(lead) + digits + Spaces(trail);
    assert raw[..|text|] == text && raw[|text|..] == tail;
    assert NUL !in text;
    UpToAt(raw, NUL, |text|);
    assert forall i | |text| <= i < |raw| :: raw[i] == tail[i - |text|] && raw[i] in tail;
    assert text == Spaces(lead) + (digits + Spaces(trail));
    TrimsLeft(lead, digits + Spaces(trail));
    TrimsRight(digits, trail);
  }

  // `parse_octal` reads a number exactly where a field of that layout holds it.
  lemma OctalMeans(raw: Str, n: nat)
    requires |raw| <= 12
    ensures ParseOctal(raw) == Ok(n) <==> OctalField(raw, n)
  {
    hide ParseOctal;
    if ParseOctal(raw) == Ok(n) { OctalRead(raw); }
    if OctalField(raw, n) {
      var lead, digits, trail, tail :| OctalLayout(raw, lead, digits, trail, tail) && OctalValue(digits) == n;
      OctalReads(raw, lead, digits, trail, tail);
      HeaderNumbersFit(raw);
    }
  }

  // ----- names ---------------------------------------------------------------------------------------

  // The name, padded with NULs.
  ghost predicate NameField(raw: Str, name: Str) { name <= raw && NUL !in name && AllZero(raw[|name|..]) }

  lemma NameMeans(raw: Str, name: Str)
    ensures ReadName(raw) == Ok(name) <==> NameField(raw, name)
  {
    if NameField(raw, name) {
      assert raw[..|name|] == name;
      if |name| < |raw| { assert raw[|name|..][0] == NUL; }
      UpToAt(raw, NUL, |name|);
    }
  }

  // ----- the header ------------------------------------------------------------------------------------

  ghost predicate KindSays(flag: byte, kind: Kind) {
    (kind.RegularFile? && (flag == 0 || flag == 48)) || (kind.Directory? && flag == 53)
  }

  // The name of the entry: the prefix, a slash and the name, without the last slash of a directory.
  ghost predicate NamesSay(name: Str, prefix: Str, e: Entry) {
    var raw := if prefix == [] then name else prefix + [SLASH] + name;
    if e.kind.Directory? && raw != [] && raw[|raw| - 1] == SLASH then e.name + [SLASH] == raw else e.name == raw
  }

  lemma {:induction false} SumParts(a: Str, b: Str)
    ensures Sum(a + b) == Sum(a) + Sum(b)
    decreases |b|
  {
    if b == [] {
      assert a + b == a;
    } else {
      var n := |b| - 1;
      assert (a + b)[..|a + b| - 1] == a + b[..n];
      SumParts(a, b[..n]);
    }
  }

  // Every byte counts as itself, and the eight of the checksum field as spaces.
  lemma ChecksumCounts(h: Str)
    requires |h| == 512
    ensures Sum(Masked(h)) == Sum(h[..148]) + 256 + Sum(h[156..])
    ensures forall b: byte :: Sum([b]) == b
    ensures forall a, b :: Sum(a + b) == Sum(a) + Sum(b)
  {
    forall a, b { SumParts(a, b); }
    forall b: byte ensures Sum([b]) == b { assert [b][..0] == []; }
    assert SPACES == [SPACE] + [SPACE] + [SPACE] + [SPACE] + [SPACE] + [SPACE] + [SPACE] + [SPACE];
    assert Masked(h) == (h[..148] + SPACES) + h[156..];
  }

  // "ustar", a NUL and version "00".
  ghost predicate MagicSays(h: Str)
    requires |h| == 512
  {
    h[257..262] == Ascii("ustar") && h[262] == 0 && h[263..265] == Ascii("00")
  }

  lemma MagicMeans(h: Str)
    requires |h| == 512
    ensures h[257..265] == MAGIC <==> MagicSays(h)
  {
    assert h[257..265] == h[257..262] + [h[262]] + h[263..265];
    assert MAGIC == Ascii("ustar") + [0] + Ascii("00");
    assert MAGIC[..5] == Ascii("ustar") && MAGIC[6..] == Ascii("00");
    if h[257..265] == MAGIC {
      assert h[257..262] == MAGIC[..5] && h[263..265] == MAGIC[6..] && h[262] == MAGIC[5];
    }
  }

  // Every field of the header that the preflight looks at.
  ghost predicate HeaderSays(h: Str, limits: Limits, e: Entry)
    requires |h| == 512
  {
    && MagicSays(h)
    && OctalField(h[148..156], Sum(h[..148]) + 256 + Sum(h[156..]))
    && OctalField(h[124..136], e.expandedBytes) && e.expandedBytes <= limits.maxEntryBytes
    && KindSays(h[156], e.kind) && (e.kind.Directory? ==> e.expandedBytes == 0)
    && (forall b | b in e.name :: b < 128)
    && |e.name| <= limits.maxPathBytes && Harmless(e.name) && NamesItself(e.name)
    && exists name, prefix :: NameField(h[0..100], name) && NameField(h[345..500], prefix) && NamesSay(name, prefix, e)
  }

  // The checks accept a header as an entry exactly when the header says so.
  lemma HeaderMeans(h: Str, limits: Limits, e: Entry)
    requires |h| == 512
    ensures ReadHeader(h, limits) == Ok(e) <==> HeaderSays(h, limits, e)
  {
    hide ParseOctal, OctalField, Masked, ReadName, NameField, NamesSay, IsAscii, PathOk, Harmless, NamesItself;
    MagicMeans(h);
    ChecksumCounts(h);
    hide Sum, MagicSays;
    PathOkExactly(e.name, limits.maxPathBytes);
    AsciiBytes(e.name);
    OctalMeans(h[148..156], Sum(Masked(h)));
    OctalMeans(h[124..136], e.expandedBytes);
    if KindOf(h[156]).Some? && e.expandedBytes < TwoTo64 { NamePartMeans(h, KindOf(h[156]).value, limits, e); }
    HeaderNumbersFit(h[124..136]);
    HeaderNumbersFit(h[148..156]);
  }

  // The part of the checks that is about names.
  lemma NamePartMeans(h: Str, kind: Kind, limits: Limits, e: Entry)
    requires |h| == 512 && e.expandedBytes < TwoTo64
    ensures ReadHeaderName(h, kind, e.expandedBytes, limits) == Ok(e) <==>
      && e.kind == kind && IsAscii(e.name) && PathOk(e.name, limits.maxPathBytes)
      && exists name, prefix ::
           NameField(h[0..100], name) && NameField(h[345..500], prefix) && NamesSay(name, prefix, e)
  {
    hide IsAscii, PathOk, NameField, ReadName;
    forall name { NameMeans(h[0..100], name); }
    forall prefix { NameMeans(h[345..500], prefix); }
    if ReadHeaderName(h, kind, e.expandedBytes, limits) == Ok(e) {
      assert NamesSay(ReadName(h[0..100]).value, ReadName(h[345..500]).value, e);
    }
  }

  // The error is `TooLarge` exactly when the header is in order up to a size over the limit; for any other
  // fault it is the one other error.
  lemma HeaderFails(h: Str, limits: Limits)
    requires |h| == 512
    ensures ReadHeader(h, limits).Err? ==> ReadHeader(h, limits).error in {TooLarge, UnsafeEntryPath}
    ensures ReadHeader(h, limits) == Err(TooLarge) <==>
      && MagicSays(h) && OctalField(h[148..156], Sum(h[..148]) + 256 + Sum(h[156..]))
      && exists n :: n > limits.maxEntryBytes && OctalField(h[124..136], n)
  {
    hide ParseOctal, OctalField, Masked, IsAscii, PathOk, KindOf;
    MagicMeans(h);
    ChecksumCounts(h);
    hide Sum, MagicSays;
    OctalMeans(h[148..156], Sum(Masked(h)));
    forall n: nat { OctalMeans(h[124..136], n); }
    OctalErrors(h[148..156]);
    OctalErrors(h[124..136]);
    if ReadHeader(h, limits) == Err(TooLarge) {
      assert OctalField(h[124..136], ParseOctal(h[124..136]).value);
    }
  }

  lemma OctalErrors(raw: Str)
    requires |raw| <= 12
    ensures ParseOctal(raw).Err? ==> ParseOctal(raw).error == UnsafeEntryPath
  {
    HeaderNumbersFit(raw);
  }
}
