// Snapshots of a locked archive: the whole input is bounded and digest-checked, then
// inspected, and a second pass recomputes from the inventory alone where each file lies.
module VerifiedUstar {
  import opened Prelude
  import opened Bytes
  import opened Manifest
  import opened ChunkedReader
  import opened ArchivePolicy
  import opened Ustar
  import opened UstarRoundTrip
  import opened UstarStream

  const MaxSnapshotBytes: u64 := 0x400_0000

  // SHA-256 as lower-case hexadecimal; nothing is assumed of it.
  type Digest = Str -> Str

  function SourceKindError(source: LockedSource): Option<SourceError> {
    match source
    case Archive(_, _, _) => None
    case Path(_) => Some(NonImmutable)
    case Git(_, _, _, _) => Some(WrongKind)
  }

  // ----- the digest check -----------------------------------------------------------------

  function DigestVerdict(source: LockedSource, bytes: Str, max: u64, sha: Digest): Result<nat, SourceError> {
    if SourceKindError(source).Some? then Err(SourceKindError(source).value)
    else if |bytes| > max then Err(TooLarge)
    else if sha(bytes) != source.sha256 then Err(IdentityMismatch)
    else Ok(|bytes|)
  }

  // Every read the loop makes succeeds: with `left` bytes to come and `room` below the cap, it reads until a
  // piece passes the cap or is empty.
  ghost predicate ReadsThrough(left: nat, events: seq<Event>, room: int)
    decreases |events|
  {
    events == [] ||
    (events[0].Short? &&
      var n := Piece(left, 8192, events);
      n == 0 || n > room || ReadsThrough(left - n, events[1..], room - n))
  }

  // `verify_archive_bytes`. Unlike the preflight it does not retry an interrupted read.
  ghost function ArchiveVerdict(source: LockedSource, bytes: Str, events: seq<Event>, max: u64, sha: Digest):
    Result<nat, SourceError>
  {
    if SourceKindError(source).None? && !ReadsThrough(|bytes|, events, max) then Err(Io)
    else DigestVerdict(source, bytes, max, sha)
  }

  method VerifyArchiveBytes(source: LockedSource, input: Reader, max: u64, sha: Digest)
    returns (r: Result<nat, SourceError>)
    requires input.Valid()
    modifies input
    ensures r == ArchiveVerdict(source, old(input.Rest()), old(input.events), max, sha)
  {
    hide Delivers, ReadsThrough, Smooth, Faultless;
    if SourceKindError(source).Some? { return Err(SourceKindError(source).value); }
    ghost var bytes, events := input.Rest(), input.events;
    var hashed: Str := [];
    var total := 0;
    while true
      invariant input.Valid() && bytes == hashed + input.Rest() && total == |hashed| <= max
      invariant ReadsThrough(|bytes|, events, max) == ReadsThrough(|input.Rest()|, input.events, max - total)
      decreases |input.Rest()|
    {
      ghost var left, coming := input.Rest(), input.events;
      var piece := input.Read(8192);
      OnePiece(left, coming, piece, input.Rest(), input.events, max - total);
      if piece.Err? { return Err(Io); }
      if piece.value == [] { break; }
      assert bytes == (hashed + piece.value) + input.Rest();
      if total + |piece.value| >= TwoTo64 { return Err(TooLarge); }
      total := total + |piece.value|;
      if total > max { return Err(TooLarge); }
      hashed := hashed + piece.value;
    }
    assert hashed == bytes;
    return if sha(hashed) != source.sha256 then Err(IdentityMismatch) else Ok(total);
  }

  // One read of the loop.
  lemma OnePiece(was: Str, events: seq<Event>, r: Result<Str, ReadError>, left: Str, events': seq<Event>, room: int)
    requires Delivers(was, events, 8192, r, left) && events' == if events == [] then [] else events[1..]
    ensures r.Err? ==> !ReadsThrough(|was|, events, room)
    ensures r.Ok? && (r.value == [] || |r.value| > room) ==> ReadsThrough(|was|, events, room)
    ensures r.Ok? && 0 < |r.value| <= room ==>
      ReadsThrough(|was|, events, room) == ReadsThrough(|left|, events', room - |r.value|)
  {
  }

  // The loop makes read `k`: all before it succeeded, the end was not seen and the cap was not passed.
  ghost predicate Makes(left: nat, events: seq<Event>, room: int, k: nat)
    requires k <= |events|
    decreases k
  {
    k == 0 ||
    (events[0].Short? &&
      var n := Piece(left, 8192, events);
      0 < n <= room && Makes(left - n, events[1..], room - n, k - 1))
  }

  // The result is an I/O error exactly when a read that the loop makes is interrupted or fails.
  lemma {:induction false} FailsExactly(left: nat, events: seq<Event>, room: int)
    ensures ReadsThrough(left, events, room) <==>
      forall k | 0 <= k < |events| && Makes(left, events, room, k) :: events[k].Short?
    decreases |events|
  {
    if events != [] {
      var n := Piece(left, 8192, events);
      assert Makes(left, events, room, 0);
      if events[0].Short? && 0 < n <= room {
        FailsExactly(left - n, events[1..], room - n);
        forall k | 0 < k < |events|
          ensures Makes(left, events, room, k) == Makes(left - n, events[1..], room - n, k - 1)
        {
        }
        assert forall k | 0 <= k < |events[1..]| :: events[1..][k] == events[k + 1];
      }
    }
  }

  // Without interruptions and faults the schedule of pieces does not matter.
  lemma {:induction false} SmoothReadsThrough(left: nat, events: seq<Event>, room: int)
    requires Smooth(events)
    ensures ReadsThrough(left, events, room)
    decreases |events|
  {
    if events != [] {
      var n := Piece(left, 8192, events);
      assert events[0] in events && forall e | e in events[1..] :: e in events;
      if 0 < n <= room { SmoothReadsThrough(left - n, events[1..], room - n); }
    }
  }

  // When all reads succeed, an archive is taken exactly within the cap and with the locked digest; which of the
  // two it misses decides the error.
  lemma DigestDecides(source: LockedSource, bytes: Str, events: seq<Event>, max: u64, sha: Digest)
    requires source.Archive? && Smooth(events)
    ensures var r := ArchiveVerdict(source, bytes, events, max, sha);
      && (r == Ok(|bytes|) <==> |bytes| <= max && sha(bytes) == source.sha256)
      && (r == Err(TooLarge) <==> |bytes| > max)
      && (r == Err(IdentityMismatch) <==> |bytes| <= max && sha(bytes) != source.sha256)
  {
    hide ReadsThrough;
    SmoothReadsThrough(|bytes|, events, max);
  }

  // The very bytes that are locked, within the cap, are refused when the first read is interrupted; every
  // other reader here would read them.
  lemma InterruptedIsRefused(source: LockedSource, bytes: Str, max: u64, sha: Digest)
    requires source.Archive? && sha(bytes) == source.sha256 && |bytes| <= max
    ensures ArchiveVerdict(source, bytes, [], max, sha) == Ok(|bytes|)
    ensures ArchiveVerdict(source, bytes, [Interrupted], max, sha) == Err(Io)
  {
    assert !ReadsThrough(|bytes|, [Interrupted], max);
  }

  // ----- where the files lie ------------------------------------------------------------------

  // The position of the header of entry `i`, from the sizes alone.
  function Offset(entries: seq<Entry>, i: nat): nat
    requires i <= |entries|
  {
    if i == 0 then 0 else Offset(entries, i - 1) + 512 + 512 * Blocks(entries[i - 1].expandedBytes)
  }

  function Range(entries: seq<Entry>, i: nat): (nat, nat)
    requires i < |entries|
  {
    (Offset(entries, i) + 512, Offset(entries, i) + 512 + entries[i].expandedBytes)
  }

  lemma {:induction false} OffsetCons(e: Entry, es: seq<Entry>, i: nat)
    requires i <= |es|
    ensures Offset([e] + es, i + 1) == 512 + 512 * Blocks(e.expandedBytes) + Offset(es, i)
  {
    if i > 0 { OffsetCons(e, es, i - 1); }
  }

  // The two passes agree: where the first pass read `ms[i].data`, the second will look.
  lemma {:induction false} SlicesAreData(ms: seq<Member>, entries: seq<Entry>, i: nat)
    requires i < |ms| == |entries|
    requires forall k | 0 <= k < |ms| :: |ms[k].header| == 512 && |ms[k].data| == entries[k].expandedBytes
    ensures Offset(entries, i + 1) <= |Concat(ms)|
    ensures Concat(ms)[Range(entries, i).0..Range(entries, i).1] == ms[i].data
  {
    hide Concat, MemberBytes;
    if i == 0 {
      FirstData(ms);
    } else {
      LaterBytes(ms, 0, 0);
      assert entries == [entries[0]] + entries[1..];
      SlicesAreData(ms[1..], entries[1..], i - 1);
      OffsetCons(entries[0], entries[1..], i - 1);
      OffsetCons(entries[0], entries[1..], i);
      LaterBytes(ms, Range(entries[1..], i - 1).0, Range(entries[1..], i - 1).1);
    }
  }

  lemma FirstData(ms: seq<Member>)
    requires ms != [] && |ms[0].header| == 512
    ensures 512 + 512 * Blocks(|ms[0].data|) <= |Concat(ms)|
    ensures Concat(ms)[512..512 + |ms[0].data|] == ms[0].data
  {
    var first, n := MemberBytes(ms[0]), 512 + |ms[0].data|;
    assert first[512..n] == ms[0].data;
    assert Concat(ms)[512..n] == first[512..n];
  }

  lemma LaterBytes(ms: seq<Member>, a: nat, b: nat)
    requires ms != [] && a <= b <= |Concat(ms[1..])|
    ensures |Concat(ms)| == |MemberBytes(ms[0])| + |Concat(ms[1..])|
    ensures Concat(ms)[|MemberBytes(ms[0])| + a..|MemberBytes(ms[0])| + b] == Concat(ms[1..])[a..b]
  {
    hide MemberBytes;
    var first, rest := MemberBytes(ms[0]), Concat(ms[1..]);
    assert Concat(ms) == first + rest;
    hide Concat;
    assert (first + rest)[|first|..] == rest;
  }

  // Entries lie one after the other.
  lemma {:induction false} OffsetsGrow(entries: seq<Entry>, i: nat, j: nat)
    requires i < j <= |entries|
    ensures Offset(entries, i) + 512 + 512 * Blocks(entries[i].expandedBytes) <= Offset(entries, j)
  {
    if i < j - 1 { OffsetsGrow(entries, i, j - 1); }
  }

  // The data of two entries do not overlap.
  lemma SlicesDisjoint(entries: seq<Entry>, i: nat, j: nat)
    requires i < j < |entries|
    ensures Range(entries, i).0 <= Range(entries, i).1 <= Range(entries, j).0
  {
    OffsetsGrow(entries, i, j);
  }

  // ----- snapshots --------------------------------------------------------------------------------

  datatype Snapshot = Snapshot(sha256: Str, bytes: Str, entries: seq<Entry>, files: map<Str, (nat, nat)>)

  // The regular files among the first `n` entries, each at its own place.
  ghost predicate Indexes(entries: seq<Entry>, n: nat, files: map<Str, (nat, nat)>)
    requires n <= |entries|
  {
    && (forall i | 0 <= i < n && entries[i].kind.RegularFile? ::
          entries[i].name in files && files[entries[i].name] == Range(entries, i))
    && (forall name | name in files :: exists i | 0 <= i < n :: entries[i].kind.RegularFile? && entries[i].name == name)
  }

  // `file_bytes`.
  function FileBytes(s: Snapshot, name: Str): Option<Str> {
    if name !in s.files then None
    else
      var (start, end) := s.files[name];
      if start <= end <= |s.bytes| then Some(s.bytes[start..end]) else None
  }

  // What a snapshot promises: every regular file of the inventory, by name, with exactly the
  // bytes that the stream carries for that member, and no other name.
  ghost predicate Exposes(s: Snapshot, ms: seq<Member>, limits: Limits) {
    && Admissible(s.entries, limits) && Spells(s.bytes, ms, s.entries, limits)
    && (forall i | 0 <= i < |ms| && s.entries[i].kind.RegularFile? ::
          FileBytes(s, s.entries[i].name) == Some(ms[i].data))
    && (forall name :: FileBytes(s, name).Some? ==>
          exists e | e in s.entries :: e.kind.RegularFile? && e.name == name)
  }

  lemma SpelledData(bytes: Str, ms: seq<Member>, entries: seq<Entry>, limits: Limits, i: nat)
    requires Spells(bytes, ms, entries, limits) && i < |entries|
    ensures Range(entries, i).0 <= Range(entries, i).1 <= |bytes|
    ensures bytes[Range(entries, i).0..Range(entries, i).1] == ms[i].data
    ensures Offset(entries, i + 1) <= |bytes|
  {
    hide ReadHeader, MemberBytes, Concat;
    assert forall k | 0 <= k < |ms| :: MemberOk(ms[k], entries[k], limits);
    hide MemberOk;
    SlicesAreData(ms, entries, i);
    var (a, b) := Range(entries, i);
    assert bytes[..|Concat(ms)|] == Concat(ms);
    assert bytes[a..b] == Concat(ms)[a..b];
  }

  // The first pass's members are where the index of the second pass points.
  lemma IndexExposes(s: Snapshot, ms: seq<Member>, limits: Limits)
    requires Admissible(s.entries, limits) && Spells(s.bytes, ms, s.entries, limits)
    requires Indexes(s.entries, |s.entries|, s.files)
    ensures Exposes(s, ms, limits)
  {
    hide Admissible, Offset, Concat, MemberOk;
    assert |ms| == |s.entries|;
    hide Spells;
    forall i | 0 <= i < |ms| && s.entries[i].kind.RegularFile?
      ensures FileBytes(s, s.entries[i].name) == Some(ms[i].data)
    {
      SpelledData(s.bytes, ms, s.entries, limits, i);
    }
  }

  // Everything the reader must satisfy.
  ghost predicate Accepts(source: LockedSource, bytes: Str, limits: Limits, max: u64, sha: Digest) {
    && source.Archive? && max <= MaxSnapshotBytes && |bytes| <= max && sha(bytes) == source.sha256
    && Accepted(bytes, limits, max)
  }

  // The outcome for a whole input, error by error in the program's order.
  ghost predicate SnapshotVerdict(source: LockedSource, bytes: Str, limits: Limits, max: u64, sha: Digest,
                                  r: Result<Snapshot, SourceError>)
  {
    if SourceKindError(source).Some? then r == Err(SourceKindError(source).value)
    else if max > MaxSnapshotBytes || |bytes| > max then r == Err(TooLarge)
    else if sha(bytes) != source.sha256 then r == Err(IdentityMismatch)
    else Verdict(bytes, limits, max) == if r.Err? then Err(r.error) else Ok(r.value.entries)
  }

  // `Read::take(limit).read_to_end`.
  method ReadToEnd(input: Reader, limit: nat) returns (r: Result<Str, SourceError>)
    requires input.Valid()
    modifies input
    ensures r.Ok? ==> r.value == (if |old(input.Rest())| < limit then old(input.Rest()) else old(input.Rest())[..limit])
    ensures r.Err? ==> r == Err(Io) && !Faultless(old(input.events))
  {
    hide Faultless;
    ghost var rest, f := input.Rest(), Faultless(input.events);
    var got: Str := [];
    while |got| < limit
      invariant input.Valid() && (f ==> Faultless(input.events)) && |got| <= limit && rest == got + input.Rest()
      decreases limit - |got|, |input.events|
    {
      var piece := input.Read(limit - |got|);
      match piece {
        case Ok(b) =>
          if b == [] { return Ok(got); }
          assert rest == (got + b) + input.Rest();
          got := got + b;
        case Err(WasInterrupted) =>
        case Err(_) => return Err(Io);
      }
    }
    return Ok(got);
  }

  // The offset loop. On an inspected stream none of its error branches is taken.
  method IndexFiles(entries: seq<Entry>, bytes: Str, ghost ms: seq<Member>, ghost limits: Limits)
    returns (r: Result<map<Str, (nat, nat)>, SourceError>)
    requires Admissible(entries, limits) && Spells(bytes, ms, entries, limits) && |bytes| <= MaxSnapshotBytes
    ensures r.Ok? && Indexes(entries, |entries|, r.value)
  {
    hide Admissible, Spells;
    var files: map<Str, (nat, nat)> := map[];
    var offset: nat := 0;
    var n := 0;
    while n < |entries|
      invariant n <= |entries| && offset == Offset(entries, n) && Indexes(entries, n, files)
    {
      SpelledData(bytes, ms, entries, limits, n);
      var entry := entries[n];
      if offset + 512 >= TwoTo64 { return Err(TooLarge); }
      var start := offset + 512;
      var size := entry.expandedBytes;
      if start + size >= TwoTo64 { return Err(TooLarge); }
      var end := start + size;
      if size + 511 >= TwoTo64 { return Err(TooLarge); }
      var padded := (size + 511) / 512;
      if padded * 512 >= TwoTo64 || start + padded * 512 >= TwoTo64 { return Err(TooLarge); }
      offset := start + padded * 512;
      if offset > |bytes| || end > |bytes| { return Err(UnsafeEntryPath); }
      if entry.kind.RegularFile? {
        NoOverwrite(entries, limits, n);
        files := files[entry.name := (start, end)];
      }
      n := n + 1;
    }
    return Ok(files);
  }

  // No entry of an admissible inventory has the name of an earlier one.
  lemma NoOverwrite(entries: seq<Entry>, limits: Limits, n: nat)
    requires Admissible(entries, limits) && n < |entries|
    ensures forall i | 0 <= i < n :: entries[i].name != entries[n].name
  {
    assert forall i | 0 <= i < n :: Lower(entries[i].name) != Lower(entries[n].name);
  }

  // `read_verified_ustar_snapshot`. A snapshot is only made of bytes with the locked digest, it
  // exposes exactly their regular files, and for a reader without faults the outcome, errors
  // included, is fixed by the bytes: it is a snapshot exactly when `Accepts` holds.
  method ReadVerifiedUstarSnapshot(source: LockedSource, input: Reader, limits: Limits, max: u64, sha: Digest)
    returns (r: Result<Snapshot, SourceError>, ghost ms: seq<Member>)
    requires input.Valid()
    modifies input
    ensures r.Ok? ==>
      && Accepts(source, old(input.Rest()), limits, max, sha)
      && r.value.bytes == old(input.Rest()) && r.value.sha256 == source.sha256 == sha(r.value.bytes)
      && Exposes(r.value, ms, limits)
    ensures Faultless(old(input.events)) ==> SnapshotVerdict(source, old(input.Rest()), limits, max, sha, r)
    ensures Faultless(old(input.events)) ==> (r.Ok? <==> Accepts(source, old(input.Rest()), limits, max, sha))
  {
    hide Faultless, Parse, Admissible, Spells, Exposes, Policy;
    ms := [];
    ghost var rest := input.Rest();
    if SourceKindError(source).Some? { return Err(SourceKindError(source).value), ms; }
    if max > MaxSnapshotBytes { return Err(TooLarge), ms; }
    var read := ReadToEnd(input, max + 1);
    if read.Err? { return Err(read.error), ms; }
    var bytes := read.value;
    if |bytes| > max { return Err(TooLarge), ms; }
    var again := new Reader(bytes, []);
    var checked := VerifyArchiveBytes(source, again, max, sha);
    if checked.Err? { return Err(checked.error), ms; }
    var cursor := new Reader(bytes, []);
    assert Faultless(cursor.events) by { NoEvents(); }
    var inspected := InspectUstar(cursor, limits, max);
    if inspected.Err? { return Err(inspected.error), ms; }
    var entries := inspected.value;
    ms := ParsedSpells(bytes, limits, max);
    var files := IndexFiles(entries, bytes, ms, limits);
    var s := Snapshot(source.sha256, bytes, entries, files.value);
    IndexExposes(s, ms, limits);
    return Ok(s), ms;
  }

  lemma NoEvents()
    ensures Faultless([])
  {
  }

  // ----- writing an archive and reading it through the lock --------------------------------------------

  // Every byte of every file comes back, under its name, and nothing else does.
  lemma SnapshotRoundTrip(items: seq<Item>, s: Snapshot, ms: seq<Member>, limits: Limits, max: u64)
    requires AllEncodable(items) && Admissible(Inventory(items), limits)
    requires s.bytes == Encode(items) && |s.bytes| <= max && Exposes(s, ms, limits) &&
        Parse(s.bytes, limits, max) == Ok(s.entries)
    ensures s.entries == Inventory(items)
    ensures forall i | 0 <= i < |items| && items[i].kind.RegularFile? ::
        FileBytes(s, items[i].name) == Some(items[i].data)
    ensures forall name :: FileBytes(s, name).Some? ==> exists m | m in items :: m.kind.RegularFile? && m.name == name
  {
    hide Admissible, Encode, Parse, Spells, FileBytes, EntryOk;
    RoundTrip(items, limits, max);
    assert |ms| == |items| by {
      assert Spells(s.bytes, ms, s.entries, limits);
      SpellsLength(s.bytes, ms, s.entries, limits);
    }
    forall i | 0 <= i < |items| ensures EntryOk(EntryOf(items[i]), limits) { ItemOk(items, limits, i); }
    EncodedSpells(items, limits);
    forall i | 0 <= i < |items| && items[i].kind.RegularFile?
      ensures FileBytes(s, items[i].name) == Some(items[i].data)
    {
      assert s.entries[i] == EntryOf(items[i]);
      SpelledData(s.bytes, ms, s.entries, limits, i);
      SpelledData(s.bytes, EncodeItems(items), s.entries, limits, i);
    }
    forall name | FileBytes(s, name).Some? ensures exists m | m in items :: m.kind.RegularFile? && m.name == name {
      var e :| e in s.entries && e.kind.RegularFile? && e.name == name;
      var i :| 0 <= i < |s.entries| && s.entries[i] == e;
      assert items[i] in items;
    }
  }

  lemma SpellsLength(bytes: Str, ms: seq<Member>, entries: seq<Entry>, limits: Limits)
    requires Spells(bytes, ms, entries, limits)
    ensures |ms| == |entries|
  {
    hide MemberOk, Concat;
  }

  lemma ItemOk(items: seq<Item>, limits: Limits, i: nat)
    requires AllEncodable(items) && Admissible(Inventory(items), limits) && i < |items|
    ensures EntryOk(EntryOf(items[i]), limits)
  {
    hide EntryOk;
    assert Inventory(items)[i] in Inventory(items);
  }
}
