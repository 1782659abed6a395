// The strict USTAR preflight: what a byte string must be for it to be accepted, and
// the streaming loop that decides it. The format is the ustar Interchange Format of
// the pax utility in POSIX.1 (IEEE Std 1003.1), restricted as the program restricts it.
module Ustar {
  import opened Prelude
  import opened Bytes
  import opened EntryNames
  import opened ArchivePolicy

  predicate AllZero(s: Str) { forall i | 0 <= i < |s| :: s[i] == 0 }

  function Zeros(n: nat): (r: Str)
    ensures |r| == n && AllZero(r)
  {
    seq(n, _ => 0)
  }

  // Data blocks of a member.
  function Blocks(size: nat): (n: nat)
    ensures size <= n * 512 < size + 512
  {
    (size + 511) / 512
  }

  // ----- header fields --------------------------------------------------------------

  function TrimLeft(s: Str): Str { if s != [] && s[0] == SPACE then TrimLeft(s[1..]) else s }

  function TrimRight(s: Str): Str {
    if s != [] && s[|s| - 1] == SPACE then TrimRight(s[..|s| - 1]) else s
  }

  predicate IsOctal(s: Str) { forall i | 0 <= i < |s| :: 48 <= s[i] <= 55 }

  function OctalValue(s: Str): nat
    requires IsOctal(s)
  {
    if s == [] then 0 else OctalValue(s[..|s| - 1]) * 8 + (s[|s| - 1] - 48)
  }

  function ParseOctal(raw: Str): Result<nat, SourceError> {
    var end := UpTo(raw, NUL);
    if exists i :: end <= i < |raw| && raw[i] != NUL && raw[i] != SPACE then Err(UnsafeEntryPath)
    else
      var digits := TrimRight(TrimLeft(raw[..end]));
      if digits == [] || !IsOctal(digits) then Err(UnsafeEntryPath)
      else if OctalValue(digits) >= TwoTo64 then Err(TooLarge)
      else Ok(OctalValue(digits))
  }

  // A name field: the bytes before the first NUL, with only NULs after it.
  function ReadName(raw: Str): Result<Str, SourceError> {
    var end := UpTo(raw, NUL);
    if !AllZero(raw[end..]) then Err(UnsafeEntryPath) else Ok(raw[..end])
  }

  function Sum(s: Str): nat { if s == [] then 0 else Sum(s[..|s| - 1]) + s[|s| - 1] }

  const SPACES: Str := [SPACE, SPACE, SPACE, SPACE, SPACE, SPACE, SPACE, SPACE]

  // The header with its checksum field blanked, as the checksum counts it.
  function Masked(h: Str): Str
    requires |h| == 512
  {
    h[..148] + SPACES + h[156..]
  }

  const MAGIC: Str := [117, 115, 116, 97, 114, 0, 48, 48]

  function KindOf(flag: byte): Option<Kind> {
    if flag == 0 || flag == 48 then Some(RegularFile)
    else if flag == 53 then Some(Directory)
    else None
  }

  function StripSlash(name: Str): Str {
    if name != [] && name[|name| - 1] == SLASH then name[..|name| - 1] else name
  }

  // The checks on one header that need nothing but the header, in the program's order.
  function ReadHeader(h: Str, limits: Limits): Result<Entry, SourceError>
    requires |h| == 512
  {
    if h[257..265] != MAGIC then Err(UnsafeEntryPath)
    else
      match ParseOctal(h[148..156])
      case Err(e) => Err(e)
      case Ok(checksum) =>
        if Sum(Masked(h)) != checksum then Err(UnsafeEntryPath)
        else
          match ParseOctal(h[124..136])
          case Err(e) => Err(e)
          case Ok(size) =>
            if size > limits.maxEntryBytes then Err(TooLarge)
            else if KindOf(h[156]).None? then Err(UnsafeEntryPath)
            else if KindOf(h[156]) == Some(Directory) && size != 0 then Err(UnsafeEntryPath)
            else ReadHeaderName(h, KindOf(h[156]).value, size, limits)
  }

  function ReadHeaderName(h: Str, kind: Kind, size: nat, limits: Limits): Result<Entry, SourceError>
    requires |h| == 512 && size < TwoTo64
  {
    match ReadName(h[0..100])
    case Err(e) => Err(e)
    case Ok(name) =>
      match ReadName(h[345..500])
      case Err(e) => Err(e)
      case Ok(prefix) =>
        var raw := if prefix == [] then name else prefix + [SLASH] + name;
        var normalized := if kind.Directory? then StripSlash(raw) else raw;
        if !IsAscii(normalized) || !PathOk(normalized, limits.maxPathBytes) then Err(UnsafeEntryPath)
        else Ok(Entry(normalized, kind, size))
  }

  // ----- the whole stream ---------------------------------------------------------------

  // Reading `n` blocks with `budget` bytes of the cap left: the first error, if any.
  function ReadBlocks(rest: Str, n: nat, budget: int): Option<SourceError> {
    if n == 0 then None
    else if budget < 512 then Some(TooLarge)
    else if |rest| < 512 then Some(Io)
    else ReadBlocks(rest[512..], n - 1, budget - 512)
  }

  lemma {:induction false} ReadBlocksFits(rest: Str, n: nat, budget: int)
    ensures ReadBlocks(rest, n, budget).None? <==> n == 0 || (512 * n <= budget && 512 * n <= |rest|)
  {
    if n > 0 && budget >= 512 && |rest| >= 512 { ReadBlocksFits(rest[512..], n - 1, budget - 512); }
  }

  // The second terminator block and the zero padding after it.
  function Trailer(rest: Str, budget: int): Result<seq<Entry>, SourceError> {
    match ReadBlocks(rest, 1, budget)
    case Some(e) => Err(e)
    case None =>
      if !AllZero(rest[..512]) then Err(UnsafeEntryPath)
      else if |rest| > budget || !AllZero(rest[512..]) then Err(UnsafeEntryPath)
      else Ok([])
  }

  // The limits that are left after an entry of this size.
  function Spend(limits: Limits, size: nat): Limits
    requires limits.maxEntries > 0 && size <= limits.maxTotalBytes
  {
    limits.(maxEntries := limits.maxEntries - 1, maxTotalBytes := limits.maxTotalBytes - size)
  }

  // The inventory of a stream, before the portable-inventory policy.
  function Parse(rest: Str, limits: Limits, budget: int): Result<seq<Entry>, SourceError>
    decreases |rest|, 2
  {
    match ReadBlocks(rest, 1, budget)
    case Some(e) => Err(e)
    case None => ParseBlock(rest, limits, budget)
  }

  function ParseBlock(rest: Str, limits: Limits, budget: int): Result<seq<Entry>, SourceError>
    requires 512 <= |rest|
    decreases |rest|, 1
  {
    if AllZero(rest[..512]) then Trailer(rest[512..], budget - 512)
    else if limits.maxEntries == 0 then Err(TooLarge)
    else
      match ReadHeader(rest[..512], limits)
      case Err(e) => Err(e)
      case Ok(entry) => ParseData(rest, entry, limits, budget)
  }

  function ParseData(rest: Str, entry: Entry, limits: Limits, budget: int): Result<seq<Entry>, SourceError>
    requires 512 <= |rest| && limits.maxEntries > 0
    decreases |rest|, 0
  {
    var n := Blocks(entry.expandedBytes);
    if entry.expandedBytes > limits.maxTotalBytes then Err(TooLarge)
    else
      match ReadBlocks(rest[512..], n, budget - 512)
      case Some(e) => Err(e)
      case None =>
        ReadBlocksFits(rest[512..], n, budget - 512);
        if !AllZero(rest[512 + entry.expandedBytes..512 + 512 * n]) then Err(UnsafeEntryPath)
        else Prepend([entry], Parse(rest[512 + 512 * n..], Spend(limits, entry.expandedBytes), budget - 512 - 512 * n))
  }

  function Prepend(es: seq<Entry>, r: Result<seq<Entry>, SourceError>): Result<seq<Entry>, SourceError> {
    match r
    case Ok(rest) => Ok(es + rest)
    case Err(e) => Err(e)
  }

  // ----- what acceptance means -----------------------------------------------------------

  // A header block and the bytes of the file.
  datatype Member = Member(header: Str, data: Str)

  function Padding(size: nat): nat { 512 * Blocks(size) - size }

  function MemberBytes(m: Member): (r: Str)
    ensures |r| == |m.header| + 512 * Blocks(|m.data|)
  {
    m.header + m.data + Zeros(Padding(|m.data|))
  }

  function Concat(ms: seq<Member>): Str {
    if ms == [] then [] else MemberBytes(ms[0]) + Concat(ms[1..])
  }

  ghost predicate MemberOk(m: Member, e: Entry, limits: Limits) {
    |m.header| == 512 && !AllZero(m.header) && ReadHeader(m.header, limits) == Ok(e) && |m.data| == e.expandedBytes
  }

  // The stream is exactly these members, each padded with zeros, and then at least two zero blocks.
  ghost predicate Spells(rest: Str, ms: seq<Member>, entries: seq<Entry>, limits: Limits) {
    && |ms| == |entries|
    && (forall i | 0 <= i < |ms| :: MemberOk(ms[i], entries[i], limits))
    && Concat(ms) <= rest && |rest| >= |Concat(ms)| + 1024 && AllZero(rest[|Concat(ms)|..])
  }

  lemma HeaderLimits(h: Str, limits: Limits, limits': Limits)
    requires |h| == 512 && limits'.maxEntryBytes == limits.maxEntryBytes && limits'.maxPathBytes == limits.maxPathBytes
    ensures ReadHeader(h, limits') == ReadHeader(h, limits)
  {
  }

  lemma {:induction false} TotalCons(e: Entry, es: seq<Entry>)
    ensures Total([e] + es) == e.expandedBytes + Total(es)
    decreases |es|
  {
    if es == [] {
      assert ([e] + es)[..0] == [];
    } else {
      TotalCons(e, es[..|es| - 1]);
      assert ([e] + es)[..|es|] == [e] + es[..|es| - 1];
    }
  }

  // Zero bytes split and joined.
  lemma AllZeroParts(s: Str, k: nat)
    requires k <= |s|
    ensures AllZero(s) <==> AllZero(s[..k]) && AllZero(s[k..])
  {
    if AllZero(s[..k]) && AllZero(s[k..]) {
      forall i | 0 <= i < |s| ensures s[i] == 0 {
        if i >= k { assert s[k..][i - k] == 0; } else { assert s[..k][i] == 0; }
      }
    }
  }

  lemma TrailerMeans(rest: Str, budget: int)
    ensures Trailer(rest, budget).Ok? <==> 512 <= |rest| <= budget && AllZero(rest)
    ensures Trailer(rest, budget).Ok? ==> Trailer(rest, budget).value == []
  {
    ReadBlocksFits(rest, 1, budget);
    if |rest| >= 512 { AllZeroParts(rest, 512); }
  }

  // The stream after its first member.
  function After(rest: Str, entry: Entry): Str
    requires 512 + 512 * Blocks(entry.expandedBytes) <= |rest|
  {
    rest[512 + 512 * Blocks(entry.expandedBytes)..]
  }

  ghost predicate FitsFirst(rest: Str, entry: Entry, limits: Limits, budget: int) {
    var n := Blocks(entry.expandedBytes);
    && entry.expandedBytes <= limits.maxTotalBytes
    && 512 + 512 * n <= budget && 512 + 512 * n <= |rest|
    && AllZero(rest[512 + entry.expandedBytes..512 + 512 * n])
  }

  // What `ParseData` accepts, in terms of the rest of the stream.
  lemma FirstMember(rest: Str, entry: Entry, limits: Limits, budget: int)
    requires 512 <= |rest| && limits.maxEntries > 0 && 512 <= budget
    ensures !FitsFirst(rest, entry, limits, budget) ==> ParseData(rest, entry, limits, budget).Err?
    ensures FitsFirst(rest, entry, limits, budget) ==>
      ParseData(rest, entry, limits, budget) ==
        Prepend([entry], Parse(After(rest, entry), Spend(limits, entry.expandedBytes),
                               budget - 512 - 512 * Blocks(entry.expandedBytes)))
  {
    hide Parse, ReadBlocks;
    ReadBlocksFits(rest[512..], Blocks(entry.expandedBytes), budget - 512);
  }

  // `Parse` in terms of its first block.
  lemma FirstBlock(rest: Str, limits: Limits, budget: int)
    ensures |rest| < 512 || budget < 512 ==> Parse(rest, limits, budget).Err?
    ensures 512 <= |rest| && 512 <= budget ==> Parse(rest, limits, budget) == ParseBlock(rest, limits, budget)
  {
    hide ParseBlock;
    ReadBlocksFits(rest, 1, budget);
  }

  // Acceptance implies the layout, with the data where the sizes say it is.
  lemma {:induction false} ParsedSpells(rest: Str, limits: Limits, budget: int) returns (ms: seq<Member>)
    requires Parse(rest, limits, budget).Ok?
    ensures var entries := Parse(rest, limits, budget).value;
      && Spells(rest, ms, entries, limits)
      && |rest| <= budget && |entries| <= limits.maxEntries && Total(entries) <= limits.maxTotalBytes
    decreases |rest|
  {
    hide ReadHeader, Trailer, ParseData, Parse, MemberBytes, Concat;
    FirstBlock(rest, limits, budget);
    var h := rest[..512];
    if AllZero(h) {
      ms := [];
      NothingSpelled(rest, limits, budget);
    } else {
      var e := ReadHeader(h, limits).value;
      FirstMember(rest, e, limits, budget);
      var n, limits' := Blocks(e.expandedBytes), Spend(limits, e.expandedBytes);
      var ms' := ParsedSpells(After(rest, e), limits', budget - 512 - 512 * n);
      var m := Member(h, rest[512..512 + e.expandedBytes]);
      ms := [m] + ms';
      var es := Parse(After(rest, e), limits', budget - 512 - 512 * n).value;
      TotalCons(e, es);
      FirstBytes(rest, m);
      SpellsMore(rest, m, e, ms', es, limits, limits');
    }
  }

  lemma NothingSpelled(rest: Str, limits: Limits, budget: int)
    requires 512 <= |rest| && AllZero(rest[..512])
    ensures Trailer(rest[512..], budget - 512).Ok? <==> |rest| <= budget && Spells(rest, [], [], limits)
    ensures Trailer(rest[512..], budget - 512).Ok? ==> Trailer(rest[512..], budget - 512).value == []
  {
    TrailerMeans(rest[512..], budget - 512);
    AllZeroParts(rest, 512);
  }

  lemma FirstBytes(rest: Str, m: Member)
    requires |m.header| == 512 && 512 + 512 * Blocks(|m.data|) <= |rest|
    requires m.header == rest[..512] && m.data == rest[512..512 + |m.data|]
    requires AllZero(rest[512 + |m.data|..512 + 512 * Blocks(|m.data|)])
    ensures MemberBytes(m) == rest[..512 + 512 * Blocks(|m.data|)]
  {
    var a, b := 512 + |m.data|, 512 + 512 * Blocks(|m.data|);
    assert rest[..b] == rest[..512] + rest[512..a] + rest[a..b];
    assert rest[a..b] == Zeros(Padding(|m.data|));
  }

  lemma SpellsMore(rest: Str, m: Member, e: Entry, ms: seq<Member>, es: seq<Entry>, limits: Limits, limits': Limits)
    requires MemberOk(m, e, limits) && MemberBytes(m) <= rest
    requires limits'.maxEntryBytes == limits.maxEntryBytes && limits'.maxPathBytes == limits.maxPathBytes
    requires Spells(rest[|MemberBytes(m)|..], ms, es, limits')
    ensures Spells(rest, [m] + ms, [e] + es, limits)
  {
    hide ReadHeader, MemberBytes;
    var k := |MemberBytes(m)|;
    assert ([m] + ms)[1..] == ms;
    assert Concat([m] + ms) == MemberBytes(m) + Concat(ms);
    assert rest == rest[..k] + rest[k..];
    assert rest[k..][|Concat(ms)|..] == rest[k + |Concat(ms)|..];
    forall i | 0 <= i < |ms| + 1 ensures MemberOk(([m] + ms)[i], ([e] + es)[i], limits) {
      if i > 0 {
        assert MemberOk(ms[i - 1], es[i - 1], limits');
        HeaderLimits(ms[i - 1].header, limits, limits');
      }
    }
  }

  // The layout implies acceptance, of exactly these entries.
  lemma {:induction false} SpelledParses(rest: Str, ms: seq<Member>, entries: seq<Entry>, limits: Limits, budget: int)
    requires Spells(rest, ms, entries, limits)
    requires |rest| <= budget && |entries| <= limits.maxEntries && Total(entries) <= limits.maxTotalBytes
    ensures Parse(rest, limits, budget) == Ok(entries)
    decreases |ms|
  {
    hide ReadHeader, Trailer, ParseData, Parse, MemberBytes, Concat;
    FirstBlock(rest, limits, budget);
    if ms == [] {
      NothingSpelledZero(rest, limits);
      NothingSpelled(rest, limits, budget);
    } else {
      var m, e, es := ms[0], entries[0], entries[1..];
      assert entries == [e] + es;
      TotalCons(e, es);
      SpelledFirst(rest, ms, entries, limits);
      FirstMember(rest, e, limits, budget);
      SpelledParses(After(rest, e), ms[1..], es, Spend(limits, e.expandedBytes),
                    budget - 512 - 512 * Blocks(e.expandedBytes));
    }
  }

  lemma NothingSpelledZero(rest: Str, limits: Limits)
    requires Spells(rest, [], [], limits)
    ensures |rest| >= 1024 && AllZero(rest[..512])
  {
    AllZeroParts(rest, 512);
  }

  // The first member of a spelled stream is where its header says, and the rest is spelled by the others.
  lemma SpelledSplit(rest: Str, ms: seq<Member>, entries: seq<Entry>, limits: Limits)
    requires Spells(rest, ms, entries, limits) && ms != []
    ensures var e, n := entries[0], Blocks(entries[0].expandedBytes);
      && 512 + 512 * n <= |rest|
      && rest[..512] == ms[0].header && !AllZero(rest[..512]) && ReadHeader(rest[..512], limits) == Ok(e)
      && rest[512..512 + e.expandedBytes] == ms[0].data
      && AllZero(rest[512 + e.expandedBytes..512 + 512 * n])
      && Spells(After(rest, e), ms[1..], entries[1..], limits)
  {
    hide ReadHeader;
    var m, e := ms[0], entries[0];
    assert MemberOk(m, e, limits);
    var k, a := |MemberBytes(m)|, 512 + |m.data|;
    assert MemberBytes(m) <= rest;
    assert MemberBytes(m)[..512] == m.header && MemberBytes(m)[512..a] == m.data;
    assert MemberBytes(m)[a..] == Zeros(Padding(|m.data|));
    assert rest[..k] == MemberBytes(m);
    assert rest[..512] == rest[..k][..512] && rest[512..a] == rest[..k][512..a] && rest[a..k] == rest[..k][a..];
    forall i | 0 <= i < |ms| - 1 ensures MemberOk(ms[1..][i], entries[1..][i], limits) {
      assert MemberOk(ms[i + 1], entries[i + 1], limits);
    }
    assert rest[k..][|Concat(ms[1..])|..] == rest[|Concat(ms)|..];
    assert rest[k..][..|Concat(ms[1..])|] == rest[..|Concat(ms)|][k..];
  }

  lemma SpelledFirst(rest: Str, ms: seq<Member>, entries: seq<Entry>, limits: Limits)
    requires Spells(rest, ms, entries, limits) && ms != [] && limits.maxEntries > 0
    requires entries[0].expandedBytes <= limits.maxTotalBytes
    ensures var e, n := entries[0], Blocks(entries[0].expandedBytes);
      && 512 + 512 * n <= |rest|
      && rest[..512] == ms[0].header && !AllZero(rest[..512]) && ReadHeader(rest[..512], limits) == Ok(e)
      && AllZero(rest[512 + e.expandedBytes..512 + 512 * n])
      && Spells(After(rest, e), ms[1..], entries[1..], Spend(limits, e.expandedBytes))
  {
    hide ReadHeader, Concat;
    SpelledSplit(rest, ms, entries, limits);
    var limits' := Spend(limits, entries[0].expandedBytes);
    forall i | 0 <= i < |ms| - 1 ensures MemberOk(ms[1..][i], entries[1..][i], limits') {
      HeaderLimits(ms[1..][i].header, limits, limits');
    }
  }

  // A stream splits into headers, data and padding in one way at most: it spells one list of members, and
  // one inventory.
  lemma {:induction false} SpellsOnce(rest: Str, ms: seq<Member>, entries: seq<Entry>,
                                      ms': seq<Member>, entries': seq<Entry>, limits: Limits)
    requires Spells(rest, ms, entries, limits) && Spells(rest, ms', entries', limits)
    ensures ms == ms' && entries == entries'
    decreases |ms|
  {
    hide ReadHeader, Concat;
    if ms == [] || ms' == [] {
      if ms != [] { SpelledSplit(rest, ms, entries, limits); }
      if ms' != [] { SpelledSplit(rest, ms', entries', limits); }
      OnlyZeros(rest, ms, entries, limits);
      OnlyZeros(rest, ms', entries', limits);
    } else {
      SpelledSplit(rest, ms, entries, limits);
      SpelledSplit(rest, ms', entries', limits);
      assert MemberOk(ms[0], entries[0], limits) && MemberOk(ms'[0], entries'[0], limits);
      assert ms[0] == ms'[0];
      SpellsOnce(After(rest, entries[0]), ms[1..], entries[1..], ms'[1..], entries'[1..], limits);
      assert ms == [ms[0]] + ms[1..] && ms' == [ms'[0]] + ms'[1..];
      assert entries == [entries[0]] + entries[1..] && entries' == [entries'[0]] + entries'[1..];
    }
  }

  lemma OnlyZeros(rest: Str, ms: seq<Member>, entries: seq<Entry>, limits: Limits)
    requires Spells(rest, ms, entries, limits)
    ensures ms == [] ==> entries == [] && |rest| >= 512 && AllZero(rest[..512])
  {
    if ms == [] { NothingSpelledZero(rest, limits); }
  }

  // ----- where a stream that is otherwise in order fails -----------------------------------------------

  lemma {:induction false} BlocksCutShort(rest: Str, n: nat, budget: int)
    requires 512 * n <= budget && |rest| < 512 * n
    ensures ReadBlocks(rest, n, budget) == Some(Io)
  {
    if |rest| >= 512 { BlocksCutShort(rest[512..], n - 1, budget - 512); }
  }

  lemma {:induction false} BlocksOverCap(rest: Str, n: nat, budget: int)
    requires n > 0 && 512 * n > budget && 512 * n <= |rest|
    ensures ReadBlocks(rest, n, budget) == Some(TooLarge)
  {
    if budget >= 512 { BlocksOverCap(rest[512..], n - 1, budget - 512); }
  }

  // A header that is in order hands over to the data.
  lemma HeaderFirst(rest: Str, e: Entry, limits: Limits, budget: int)
    requires 512 <= |rest| && 512 <= budget && !AllZero(rest[..512]) && ReadHeader(rest[..512], limits) == Ok(e)
    ensures Parse(rest, limits, budget) ==
      if limits.maxEntries == 0 then Err(TooLarge) else ParseData(rest, e, limits, budget)
  {
    hide ReadHeader, ParseData, Parse;
    FirstBlock(rest, limits, budget);
  }

  // The data blocks cannot be read.
  lemma DataFails(rest: Str, e: Entry, limits: Limits, budget: int, error: SourceError)
    requires 512 <= |rest| && limits.maxEntries > 0 && e.expandedBytes <= limits.maxTotalBytes
    requires ReadBlocks(rest[512..], Blocks(e.expandedBytes), budget - 512) == Some(error)
    ensures ParseData(rest, e, limits, budget) == Err(error)
  {
    hide Parse, ReadBlocks;
  }

  // The first block, or the one after a first zero block, cannot be read.
  lemma BlockFails(rest: Str, limits: Limits, budget: int, error: SourceError)
    ensures ReadBlocks(rest, 1, budget) == Some(error) ==> Parse(rest, limits, budget) == Err(error)
    ensures 512 <= |rest| && 512 <= budget && AllZero(rest[..512]) &&
        ReadBlocks(rest[512..], 1, budget - 512) == Some(error)
      ==> Parse(rest, limits, budget) == Err(error)
  {
    hide ParseData, ReadHeader, ReadBlocks;
    if 512 <= |rest| && 512 <= budget { ReadBlocksFits(rest, 1, budget); }
  }

  ghost predicate Within(entries: seq<Entry>, limits: Limits) {
    |entries| <= limits.maxEntries && Total(entries) <= limits.maxTotalBytes
  }

  lemma FirstWithin(entries: seq<Entry>, limits: Limits)
    requires entries != [] && Total(entries) <= limits.maxTotalBytes
    ensures entries[0].expandedBytes <= limits.maxTotalBytes
    ensures limits.maxEntries > 0 ==>
      Total(entries[1..]) <= Spend(limits, entries[0].expandedBytes).maxTotalBytes
      && (Within(entries, limits) ==> Within(entries[1..], Spend(limits, entries[0].expandedBytes)))
  {
    assert entries == [entries[0]] + entries[1..];
    TotalCons(entries[0], entries[1..]);
  }

  lemma ConcatFirst(ms: seq<Member>, e: Entry)
    requires ms != [] && |ms[0].header| == 512 && |ms[0].data| == e.expandedBytes
    ensures |Concat(ms)| == 512 + 512 * Blocks(e.expandedBytes) + |Concat(ms[1..])|
  {
  }

  lemma FirstLengths(rest: Str, ms: seq<Member>, entries: seq<Entry>, limits: Limits)
    requires Spells(rest, ms, entries, limits) && ms != []
    ensures entries != [] && |ms[0].header| == 512 && |ms[0].data| == entries[0].expandedBytes
  {
    hide ReadHeader, Concat;
    assert MemberOk(ms[0], entries[0], limits);
  }

  // A stream that ends before its second zero block is complete is an I/O error, wherever it ends.
  lemma {:induction false} CutShort(rest: Str, ms: seq<Member>, entries: seq<Entry>, limits: Limits, budget: int,
                                    k: nat)
    requires Spells(rest, ms, entries, limits) && Within(entries, limits)
    requires |rest| <= budget && k < |Concat(ms)| + 1024
    ensures k <= |rest| && Parse(rest[..k], limits, budget) == Err(Io)
    decreases |ms|
  {
    hide ReadHeader, ParseData, Parse, Concat, ReadBlocks, Within;
    var cut := rest[..k];
    if k < 512 {
      BlocksCutShort(cut, 1, budget);
      BlockFails(cut, limits, budget, Io);
    } else if ms == [] {
      NoConcat(ms);
      NothingSpelledZero(rest, limits);
      assert cut[..512] == rest[..512];
      BlocksCutShort(cut[512..], 1, budget - 512);
      BlockFails(cut, limits, budget, Io);
    } else {
      FirstLengths(rest, ms, entries, limits);
      WithinMeans(entries, limits);
      FirstWithin(entries, limits);
      SpelledFirst(rest, ms, entries, limits);
      var e, n := entries[0], Blocks(entries[0].expandedBytes);
      ConcatFirst(ms, e);
      assert cut[..512] == rest[..512];
      HeaderFirst(cut, e, limits, budget);
      if k < 512 + 512 * n {
        BlocksCutShort(cut[512..], n, budget - 512);
        DataFails(cut, e, limits, budget, Io);
      } else {
        assert cut[512 + e.expandedBytes..512 + 512 * n] == rest[512 + e.expandedBytes..512 + 512 * n];
        CutAfter(rest, e, k);
        FirstMember(cut, e, limits, budget);
        CutShort(After(rest, e), ms[1..], entries[1..], Spend(limits, e.expandedBytes), budget - 512 - 512 * n,
                 k - 512 - 512 * n);
      }
    }
  }

  lemma CutAfter(rest: Str, e: Entry, k: nat)
    requires 512 + 512 * Blocks(e.expandedBytes) <= k <= |rest|
    ensures After(rest[..k], e) == After(rest, e)[..k - 512 - 512 * Blocks(e.expandedBytes)]
  {
  }

  lemma NoConcat(ms: seq<Member>)
    requires ms == []
    ensures Concat(ms) == []
  {
  }

  lemma WithinMeans(entries: seq<Entry>, limits: Limits)
    requires Within(entries, limits) && entries != []
    ensures limits.maxEntries > 0 && Total(entries) <= limits.maxTotalBytes
  {
  }

  // One member more than allowed is too large, whatever comes after.
  lemma {:induction false} TooManyMembers(rest: Str, ms: seq<Member>, entries: seq<Entry>, limits: Limits, budget: int)
    requires Spells(rest, ms, entries, limits) && |rest| <= budget
    requires |entries| > limits.maxEntries && Total(entries) <= limits.maxTotalBytes
    ensures Parse(rest, limits, budget) == Err(TooLarge)
    decreases |ms|
  {
    hide ReadHeader, ParseData, Parse, Concat, ReadBlocks, Within;
    FirstLengths(rest, ms, entries, limits);
    SpelledSplit(rest, ms, entries, limits);
    FirstWithin(entries, limits);
    var e := entries[0];
    HeaderFirst(rest, e, limits, budget);
    if limits.maxEntries > 0 {
      SpelledFirst(rest, ms, entries, limits);
      FirstMember(rest, e, limits, budget);
      TooManyMembers(After(rest, e), ms[1..], entries[1..], Spend(limits, e.expandedBytes),
                     budget - 512 - 512 * Blocks(e.expandedBytes));
    }
  }

  // A cap that ends before the second zero block does is too small.
  lemma {:induction false} CapTooSmall(rest: Str, ms: seq<Member>, entries: seq<Entry>, limits: Limits, budget: int)
    requires Spells(rest, ms, entries, limits) && Within(entries, limits) && budget < |Concat(ms)| + 1024
    ensures Parse(rest, limits, budget) == Err(TooLarge)
    decreases |ms|
  {
    hide ReadHeader, ParseData, Parse, Concat, ReadBlocks, Within;
    if budget < 512 {
      BlocksOverCap(rest, 1, budget);
      BlockFails(rest, limits, budget, TooLarge);
    } else if ms == [] {
      NoConcat(ms);
      NothingSpelledZero(rest, limits);
      BlocksOverCap(rest[512..], 1, budget - 512);
      BlockFails(rest, limits, budget, TooLarge);
    } else {
      FirstLengths(rest, ms, entries, limits);
      WithinMeans(entries, limits);
      FirstWithin(entries, limits);
      SpelledFirst(rest, ms, entries, limits);
      var e, n := entries[0], Blocks(entries[0].expandedBytes);
      ConcatFirst(ms, e);
      HeaderFirst(rest, e, limits, budget);
      if 512 * n > budget - 512 {
        BlocksOverCap(rest[512..], n, budget - 512);
        DataFails(rest, e, limits, budget, TooLarge);
      } else {
        FirstMember(rest, e, limits, budget);
        CapTooSmall(After(rest, e), ms[1..], entries[1..], Spend(limits, e.expandedBytes), budget - 512 - 512 * n);
      }
    }
  }
}
