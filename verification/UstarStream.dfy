// The streaming preflight, block by block over a reader that may deliver its bytes in
// any pieces, proved to decide what `Ustar.Parse` says of the whole stream.
module UstarStream {
  import opened Prelude
  import opened Bytes
  import opened ChunkedReader
  import opened ArchivePolicy
  import opened Ustar
  import opened UstarHeader

  // The result for a whole stream, error by error: the parse, then the inventory policy.
  ghost function Verdict(bytes: Str, limits: Limits, max: u64): Result<seq<Entry>, SourceError> {
    match Parse(bytes, limits, max)
    case Err(e) => Err(e)
    case Ok(entries) => if Policy(entries, limits).Ok? then Ok(entries) else Err(Policy(entries, limits).error)
  }

  // What acceptance means.
  ghost predicate Accepted(bytes: Str, limits: Limits, max: u64) {
    Parse(bytes, limits, max).Ok? && Admissible(Parse(bytes, limits, max).value, limits)
  }

  // `read_block`: the next 512 bytes, with the running count against the cap.
  method ReadBlock(input: Reader, consumed: u64, max: u64) returns (r: Result<Str, SourceError>)
    requires input.Valid()
    modifies input
    ensures input.Valid() && (Faultless(old(input.events)) ==> Faultless(input.events))
    ensures r.Ok? ==>
      ReadBlocks(old(input.Rest()), 1, max - consumed).None? && |r.value| == 512 && consumed + 512 <= max
      && old(input.Rest()) == r.value + input.Rest()
    ensures r.Err? && Faultless(old(input.events)) ==> ReadBlocks(old(input.Rest()), 1, max - consumed) == Some(r.error)
  {
    if consumed + 512 >= TwoTo64 { return Err(TooLarge); }
    if consumed + 512 > max { return Err(TooLarge); }
    var block := input.ReadExact(512);
    match block {
      case Ok(b) => return Ok(b);
      case Err(_) => return Err(Io);
    }
  }

  method Checksum(header: Str) returns (sum: nat)
    requires |header| == 512
    ensures sum == Sum(Masked(header))
  {
    sum := 0;
    var index := 0;
    ghost var masked := Masked(header);
    while index < 512
      invariant index <= 512 && sum == Sum(masked[..index])
    {
      assert masked[..index + 1][..index] == masked[..index];
      sum := sum + (if 148 <= index < 156 then SPACE else header[index]);
      index := index + 1;
    }
    assert masked[..512] == masked;
  }

  // The checks on one header block.
  method HeaderEntry(header: Str, limits: Limits) returns (r: Result<Entry, SourceError>)
    requires |header| == 512
    ensures r == ReadHeader(header, limits)
    ensures r.Ok? ==> HeaderSays(header, limits, r.value)
    ensures r.Err? ==> !exists e :: HeaderSays(header, limits, e)
  {
    hide Masked, ReadHeaderName, ParseOctal, HeaderSays;
    forall e { HeaderMeans(header, limits, e); }
    if header[257..265] != MAGIC { return Err(UnsafeEntryPath); }
    var expected := ParseOctal(header[148..156]);
    if expected.Err? { return Err(expected.error); }
    var sum := Checksum(header);
    if sum != expected.value { return Err(UnsafeEntryPath); }
    var size := ParseOctal(header[124..136]);
    if size.Err? { return Err(size.error); }
    if size.value > limits.maxEntryBytes { return Err(TooLarge); }
    var kind := KindOf(header[156]);
    if kind.None? { return Err(UnsafeEntryPath); }
    if kind == Some(Directory) && size.value != 0 { return Err(UnsafeEntryPath); }
    return ReadHeaderName(header, kind.value, size.value, limits);
  }

  // The data blocks of one member and the padding of the last.
  method SkipData(input: Reader, size: u64, raw: u64, max: u64) returns (error: Option<SourceError>, raw': u64)
    requires input.Valid() && raw <= max
    modifies input
    ensures input.Valid() && (Faultless(old(input.events)) ==> Faultless(input.events))
    ensures error.None? ==>
      var rest, n := old(input.Rest()), 512 * Blocks(size);
      && ReadBlocks(rest, Blocks(size), max - raw).None? && n <= |rest| && AllZero(rest[size..n])
      && input.Rest() == rest[n..] && raw' == raw + n <= max
    ensures error.Some? && Faultless(old(input.events)) ==>
      var rest, n := old(input.Rest()), 512 * Blocks(size);
      || ReadBlocks(rest, Blocks(size), max - raw) == error
      || (ReadBlocks(rest, Blocks(size), max - raw).None? && n <= |rest| && !AllZero(rest[size..n])
          && error == Some(UnsafeEntryPath))
  {
    ghost var rest := input.Rest();
    var padded := Blocks(size);
    ReadBlocksFits(rest, padded, max - raw);
    raw' := raw;
    var index := 0;
    ghost var f := Faultless(input.events);
    while index < padded
      invariant index <= padded && input.Valid() && raw' == raw + 512 * index <= max
      invariant f ==> Faultless(input.events)
      invariant 512 * index <= |rest| && input.Rest() == rest[512 * index..]
      invariant ReadBlocks(rest, padded, max - raw) == ReadBlocks(rest[512 * index..], padded - index, max - raw')
      invariant index == padded ==> AllZero(rest[size..512 * padded])
    {
      ghost var here := input.Rest();
      BlockByBlock(here, padded - index, max - raw');
      var data := ReadBlock(input, raw', max);
      if data.Err? { return Some(data.error), raw'; }
      assert here[..512] == data.value && input.Rest() == here[512..] == rest[512 * (index + 1)..];
      raw' := raw' + 512;
      if index == padded - 1 {
        assert rest[size..512 * padded] == data.value[size - 512 * index..];
        if size % 512 != 0 {
          var used := size % 512;
          assert used == size - 512 * index;
          if !AllZero(data.value[used..]) {
            BlocksDone(rest, padded, max - raw);
            return Some(UnsafeEntryPath), raw';
          }
        }
      }
      index := index + 1;
    }
    return None, raw';
  }

  lemma BlockByBlock(rest: Str, n: nat, budget: int)
    requires n > 0
    ensures ReadBlocks(rest, 1, budget).Some? ==> ReadBlocks(rest, n, budget) == ReadBlocks(rest, 1, budget)
    ensures ReadBlocks(rest, 1, budget).None? ==>
      |rest| >= 512 && ReadBlocks(rest, n, budget) == ReadBlocks(rest[512..], n - 1, budget - 512)
  {
  }

  lemma BlocksDone(rest: Str, n: nat, budget: int)
    requires 512 * n <= |rest| && 512 * n <= budget
    ensures ReadBlocks(rest, n, budget).None?
  {
    ReadBlocksFits(rest, n, budget);
  }

  lemma TrailerStarts(rest: Str, budget: int)
    ensures ReadBlocks(rest, 1, budget).None? ==> 512 <= |rest| && 512 <= budget
    ensures 512 <= |rest| ==> AllZero(rest[512..512])
  {
  }

  // The padding read so far, and one more piece of it.
  lemma NextPiece(rest: Str, seen: nat, b: Str, tail: Str)
    requires 512 <= seen <= |rest| && rest[seen..] == b + tail
    ensures seen + |b| <= |rest| && tail == rest[seen + |b|..]
    ensures AllZero(rest[512..]) ==> AllZero(b)
    ensures AllZero(rest[512..seen]) && AllZero(b) ==> AllZero(rest[512..seen + |b|])
  {
    assert rest[512..seen + |b|] == rest[512..seen] + b by { assert rest[seen..][..|b|] == b; }
    assert rest[512..] == rest[512..seen] + b + tail;
    AllZeroParts(rest[512..seen + |b|], seen - 512);
    AllZeroParts(rest[512..], seen + |b| - 512);
    assert rest[512..][..seen + |b| - 512] == rest[512..seen + |b|];
  }

  // The second terminator block, then zero padding up to the end of the stream.
  method ReadTrailer(input: Reader, raw: u64, max: u64) returns (error: Option<SourceError>)
    requires input.Valid() && raw <= max && raw + |input.Rest()| < TwoTo64
    modifies input
    ensures input.Valid()
    ensures error.None? ==> Trailer(old(input.Rest()), max - raw) == Ok([])
    ensures error.Some? && Faultless(old(input.events)) ==> Trailer(old(input.Rest()), max - raw) == Err(error.value)
  {
    hide Faultless, AllZero, ReadBlocks, Delivers, Smooth;
    ghost var rest, f := input.Rest(), Faultless(input.events);
    TrailerStarts(rest, max - raw);
    var second := ReadBlock(input, raw, max);
    if second.Err? { return Some(second.error); }
    assert rest[..512] == second.value;
    if !AllZero(second.value) { return Some(UnsafeEntryPath); }
    var total := raw + 512;
    ghost var seen := 512;
    while true
      invariant input.Valid() && (f ==> Faultless(input.events))
      invariant 512 <= seen <= |rest| && input.Rest() == rest[seen..]
      invariant total == raw + seen <= max && raw + |rest| < TwoTo64
      invariant AllZero(rest[512..seen])
      decreases |input.Rest()|, |input.events|
    {
      var piece := input.Read(512);
      match piece {
        case Ok(b) =>
          if b == [] {
            assert rest[512..] == rest[512..seen];
            return None;
          }
          NextPiece(rest, seen, b, input.Rest());
          if total + |b| >= TwoTo64 { return Some(TooLarge); }
          total := total + |b|;
          if total > max || !AllZero(b) { return Some(UnsafeEntryPath); }
          seen := seen + |b|;
        case Err(WasInterrupted) =>
        case Err(_) => return Some(Io);
      }
    }
  }

  // The limits left after these entries.
  function Left(limits: Limits, entries: seq<Entry>): Limits
    requires |entries| <= limits.maxEntries && Total(entries) <= limits.maxTotalBytes
  {
    limits.(maxEntries := limits.maxEntries - |entries|, maxTotalBytes := limits.maxTotalBytes - Total(entries))
  }

  // The loop has read `entries`; what is left of the stream decides the rest.
  ghost predicate Progress(bytes: Str, limits: Limits, max: u64, rest: Str, entries: seq<Entry>, raw: int) {
    && |entries| <= limits.maxEntries && Total(entries) <= limits.maxTotalBytes
    && Parse(bytes, limits, max) == Prepend(entries, Parse(rest, Left(limits, entries), max - raw))
  }

  lemma OneMoreEntry(bytes: Str, limits: Limits, max: u64, rest: Str, entries: seq<Entry>, raw: int, entry: Entry)
    requires Progress(bytes, limits, max, rest, entries, raw) && |entries| < limits.maxEntries
    requires 512 <= |rest| && 512 <= max - raw
    requires Parse(rest, Left(limits, entries), max - raw) == ParseData(rest, entry, Left(limits, entries), max - raw)
    requires FitsFirst(rest, entry, Left(limits, entries), max - raw)
    ensures Total(entries + [entry]) == Total(entries) + entry.expandedBytes
    ensures Progress(bytes, limits, max, After(rest, entry), entries + [entry],
        raw + 512 + 512 * Blocks(entry.expandedBytes))
  {
    hide Parse, ParseData;
    FirstMember(rest, entry, Left(limits, entries), max - raw);
    assert (entries + [entry])[..|entries|] == entries;
    assert Left(limits, entries + [entry]) == Spend(Left(limits, entries), entry.expandedBytes);
    var tail := Parse(After(rest, entry), Left(limits, entries + [entry]),
      max - raw - 512 - 512 * Blocks(entry.expandedBytes));
    if tail.Ok? { assert entries + ([entry] + tail.value) == (entries + [entry]) + tail.value; }
  }

  // `inspect_ustar`. Whatever the pieces the reader delivers, an `Ok` is the right one, and
  // without read faults the result, errors included, is a function of the bytes alone.
  method InspectUstar(input: Reader, limits: Limits, max: u64) returns (r: Result<seq<Entry>, SourceError>)
    requires input.Valid()
    modifies input
    ensures input.Valid()
    ensures r.Ok? || Faultless(old(input.events)) ==> r == Verdict(old(input.Rest()), limits, max)
    ensures r.Ok? ==> Accepted(old(input.Rest()), limits, max)
    ensures Faultless(old(input.events)) ==> (r.Ok? <==> Accepted(old(input.Rest()), limits, max))
  {
    hide HeaderSays, Faultless, Parse, ParseData, ReadHeader, Trailer, ReadBlocks, Admissible, OverLimit, Unsafe,
      AllZero, Policy;
    ghost var bytes, f := input.Rest(), Faultless(input.events);
    var raw: u64 := 0;
    var total: nat := 0;
    var entries: seq<Entry> := [];
    Begins(bytes, limits, max);
    while true
      invariant input.Valid() && (f ==> Faultless(input.events))
      invariant raw + |input.Rest()| == |bytes| < TwoTo64
      invariant 0 <= raw <= max && Progress(bytes, limits, max, input.Rest(), entries, raw)
      invariant total == Total(entries)
      decreases |input.Rest()|
    {
      ghost var rest, left := input.Rest(), Left(limits, entries);
      var block := ReadBlock(input, raw, max);
      ParseStarts(rest, left, max - raw);
      if block.Err? { return Err(block.error); }
      var header := block.value;
      assert rest[..512] == header && input.Rest() == rest[512..];
      raw := raw + 512;
      if AllZero(header) {
        var error := ReadTrailer(input, raw, max);
        if error.Some? { return Err(error.value); }
        var verdict := ValidateInventory(entries, limits);
        assert entries + [] == entries;
        match verdict {
          case Ok(_) => return Ok(entries);
          case Err(e) => return Err(e);
        }
      }
      if |entries| >= limits.maxEntries { return Err(TooLarge); }
      HeaderLimits(header, limits, left);
      var parsed := HeaderEntry(header, limits);
      if parsed.Err? { return Err(parsed.error); }
      var entry := parsed.value;
      ParseDataStarts(rest, entry, left, max - raw + 512);
      if total + entry.expandedBytes >= TwoTo64 { return Err(TooLarge); }
      total := total + entry.expandedBytes;
      if total > limits.maxTotalBytes { return Err(TooLarge); }
      var error, raw' := SkipData(input, entry.expandedBytes, raw, max);
      if error.Some? { return Err(error.value); }
      DataFits(rest, entry, left, max - raw + 512);
      OneMoreEntry(bytes, limits, max, rest, entries, raw - 512, entry);
      entries := entries + [entry];
      raw := raw';
    }
  }

  // The first step of `Parse`, in the loop's terms.
  lemma ParseStarts(rest: Str, limits: Limits, budget: int)
    ensures ReadBlocks(rest, 1, budget).Some? ==> Parse(rest, limits, budget) == Err(ReadBlocks(rest, 1, budget).value)
    ensures ReadBlocks(rest, 1, budget).None? ==>
      512 <= |rest| && 512 <= budget && Parse(rest, limits, budget) == ParseBlock(rest, limits, budget)
  {
    hide ParseBlock;
  }

  lemma ParseDataStarts(rest: Str, entry: Entry, limits: Limits, budget: int)
    requires 512 <= |rest| && limits.maxEntries > 0
    ensures entry.expandedBytes > limits.maxTotalBytes ==> ParseData(rest, entry, limits, budget) == Err(TooLarge)
    ensures entry.expandedBytes <= limits.maxTotalBytes ==>
      var data := ReadBlocks(rest[512..], Blocks(entry.expandedBytes), budget - 512);
      data.Some? ==> ParseData(rest, entry, limits, budget) == Err(data.value)
    ensures entry.expandedBytes <= limits.maxTotalBytes ==>
      var n, data := 512 * Blocks(entry.expandedBytes),
        ReadBlocks(rest[512..], Blocks(entry.expandedBytes), budget - 512);
      (data.None? && n <= |rest[512..]| && !AllZero(rest[512..][entry.expandedBytes..n])) ==>
        ParseData(rest, entry, limits, budget) == Err(UnsafeEntryPath)
  {
    hide Parse, AllZero;
    var n := 512 * Blocks(entry.expandedBytes);
    if n <= |rest[512..]| {
      assert rest[512..][entry.expandedBytes..n] == rest[512 + entry.expandedBytes..512 + n];
    }
  }

  lemma Begins(bytes: Str, limits: Limits, max: u64)
    ensures Progress(bytes, limits, max, bytes, [], 0)
  {
    assert Left(limits, []) == limits;
    var r := Parse(bytes, limits, max);
    if r.Ok? { assert [] + r.value == r.value; }
  }

  lemma DataFits(rest: Str, entry: Entry, limits: Limits, budget: int)
    requires 512 <= |rest| && entry.expandedBytes <= limits.maxTotalBytes && 512 <= budget
    requires ReadBlocks(rest[512..], Blocks(entry.expandedBytes), budget - 512).None?
    requires 512 * Blocks(entry.expandedBytes) <= |rest| - 512
    requires AllZero(rest[512..][entry.expandedBytes..512 * Blocks(entry.expandedBytes)])
    ensures FitsFirst(rest, entry, limits, budget)
    ensures After(rest, entry) == rest[512..][512 * Blocks(entry.expandedBytes)..]
  {
    ReadBlocksFits(rest[512..], Blocks(entry.expandedBytes), budget - 512);
    assert rest[512..][entry.expandedBytes..512 * Blocks(entry.expandedBytes)]
        == rest[512 + entry.expandedBytes..512 + 512 * Blocks(entry.expandedBytes)];
  }
}
