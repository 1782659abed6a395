// The preflight of a git tree listing: NUL-terminated records of mode, type, object id and
// path. It accepts exactly the listings that well-formed records spell.
module GitTree {
  import opened Prelude
  import opened Bytes
  import opened EntryNames
  import opened ArchivePolicy

  const TAB: byte := 9
  const BLOB: Str := [98, 108, 111, 98]
  const MODE_FILE: Str := [49, 48, 48, 54, 52, 52]
  const MODE_EXECUTABLE: Str := [49, 48, 48, 55, 53, 53]

  // A regular file of the tree.
  datatype Record = Record(executable: bool, oid: Str, path: Str)

  // Whether bytes are UTF-8 text, and the longest path allowed.
  datatype PathRule = PathRule(utf8: Str -> bool, maxBytes: u64)

  predicate PathFits(path: Str, rule: PathRule) { rule.utf8(path) && PathOk(path, rule.maxBytes) }

  predicate OidOk(oid: Str) { (|oid| == 40 || |oid| == 64) && IsHex(oid) }

  predicate RecordOk(r: Record, rule: PathRule) { OidOk(r.oid) && PathFits(r.path, rule) }

  function Mode(r: Record): Str { if r.executable then MODE_EXECUTABLE else MODE_FILE }

  function Header(r: Record): Str { Join([Mode(r), BLOB, r.oid], SPACE) }

  // One record without its NUL.
  function Line(r: Record): Str { Header(r) + [TAB] + r.path }

  function Lines(rs: seq<Record>): seq<Str> {
    if rs == [] then [] else Lines(rs[..|rs| - 1]) + [Line(rs[|rs| - 1])]
  }

  // The listing that these records spell.
  function Listing(rs: seq<Record>): Str { if rs == [] then [] else Join(Lines(rs), NUL) + [NUL] }

  ghost predicate RecordsOk(rs: seq<Record>, rule: PathRule) {
    && (forall i | 0 <= i < |rs| :: RecordOk(rs[i], rule))
    && (forall i, j | 0 <= i < j < |rs| :: rs[i].path != rs[j].path)
    && (forall i, j | 0 <= i < j < |rs| :: |rs[i].oid| == |rs[j].oid|)
  }

  // The checks on one record, apart from the others.
  function ParseRecord(record: Str, rule: PathRule): Option<Record> {
    var i := UpTo(record, TAB);
    if i == |record| then None
    else
      var parts, path := Split(record[..i], SPACE), record[i + 1..];
      if !PathFits(path, rule) || |parts| != 3 then None
      else if !(parts[0] == MODE_FILE || parts[0] == MODE_EXECUTABLE) || parts[1] != BLOB || !OidOk(parts[2]) then None
      else Some(Record(parts[0] == MODE_EXECUTABLE, parts[2], path))
  }

  lemma HeaderPlain(r: Record, rule: PathRule)
    requires RecordOk(r, rule)
    ensures TAB !in Header(r) && NUL !in Header(r)
    ensures forall p | p in [Mode(r), BLOB, r.oid] :: SPACE !in p
  {
    assert [Mode(r), BLOB, r.oid][1..] == [BLOB, r.oid] && [BLOB, r.oid][1..] == [r.oid];
    assert Join([r.oid], SPACE) == r.oid;
    assert Join([BLOB, r.oid], SPACE) == BLOB + [SPACE] + r.oid;
    assert Header(r) == Mode(r) + [SPACE] + (BLOB + [SPACE] + r.oid);
    assert TAB !in r.oid && NUL !in r.oid && SPACE !in r.oid;
  }

  lemma PathPlain(path: Str, rule: PathRule)
    requires PathFits(path, rule)
    ensures NUL !in path
  {
  }

  // A written record is read back.
  lemma LineParses(r: Record, rule: PathRule)
    requires RecordOk(r, rule)
    ensures ParseRecord(Line(r), rule) == Some(r) && NUL !in Line(r)
  {
    hide OidOk, PathFits, Header;
    HeaderPlain(r, rule);
    PathPlain(r.path, rule);
    var line, n := Line(r), |Header(r)|;
    assert line[..n] == Header(r) && line[n + 1..] == r.path;
    UpToAt(line, TAB, n);
    assert Header(r) == Join([Mode(r), BLOB, r.oid], SPACE) by { HeaderIs(r); }
    SplitJoin([Mode(r), BLOB, r.oid], SPACE);
  }

  lemma HeaderIs(r: Record)
    ensures Header(r) == Join([Mode(r), BLOB, r.oid], SPACE)
  {
  }

  // Whatever is read is what such a record is written as.
  lemma ParsedLine(record: Str, rule: PathRule)
    requires ParseRecord(record, rule).Some?
    ensures var r := ParseRecord(record, rule).value; RecordOk(r, rule) && Line(r) == record
  {
    hide OidOk, PathFits, Split, Join;
    var r, i := ParseRecord(record, rule).value, UpTo(record, TAB);
    JoinSplit(record[..i], SPACE);
    assert Split(record[..i], SPACE) == [Mode(r), BLOB, r.oid];
    assert record == record[..i] + [TAB] + record[i + 1..];
  }

  // ----- a listing, byte by byte ------------------------------------------------------------------

  // The text of one record.
  ghost function Text(r: Record): Str {
    Ascii(if r.executable then "100755" else "100644") + Ascii(" blob ") + r.oid + Ascii("\t") + r.path
  }

  // The records, each with its NUL.
  ghost function Written(rs: seq<Record>): Str { if rs == [] then [] else Text(rs[0]) + [0] + Written(rs[1..]) }

  ghost predicate HexDigit(b: byte) {
    '0' as int <= b <= '9' as int || 'a' as int <= b <= 'f' as int || 'A' as int <= b <= 'F' as int
  }

  // A full object id, and a path that is harmless text and the one spelling of a way down the tree.
  ghost predicate RecordSays(r: Record, rule: PathRule) {
    && (|r.oid| == 40 || |r.oid| == 64) && (forall b | b in r.oid :: HexDigit(b))
    && rule.utf8(r.path) && |r.path| <= rule.maxBytes && Harmless(r.path) && NamesItself(r.path)
  }

  ghost predicate RecordsSay(rs: seq<Record>, rule: PathRule) {
    && (forall r | r in rs :: RecordSays(r, rule))
    && (forall i, j | 0 <= i < j < |rs| :: rs[i].path != rs[j].path && |rs[i].oid| == |rs[j].oid|)
  }

  lemma TextIs(r: Record)
    ensures Text(r) == Line(r)
  {
    assert Mode(r) == Ascii(if r.executable then "100755" else "100644");
    assert Ascii(" blob ") == [SPACE] + BLOB + [SPACE] && Ascii("\t") == [TAB];
    assert [Mode(r), BLOB, r.oid][1..] == [BLOB, r.oid] && [BLOB, r.oid][1..] == [r.oid];
    assert Join([r.oid], SPACE) == r.oid;
    assert Join([BLOB, r.oid], SPACE) == BLOB + [SPACE] + r.oid;
    assert Header(r) == Mode(r) + [SPACE] + (BLOB + [SPACE] + r.oid);
    assert Header(r) == Mode(r) + ([SPACE] + BLOB + [SPACE]) + r.oid;
  }

  lemma RecordOkExactly(r: Record, rule: PathRule)
    ensures RecordOk(r, rule) <==> RecordSays(r, rule)
  {
    hide PathOk, Harmless, NamesItself;
    PathOkExactly(r.path, rule.maxBytes);
    assert forall b | b in r.oid :: exists i :: 0 <= i < |r.oid| && r.oid[i] == b;
    assert forall i | 0 <= i < |r.oid| :: r.oid[i] in r.oid;
  }

  lemma RecordsOkExactly(rs: seq<Record>, rule: PathRule)
    ensures RecordsOk(rs, rule) <==> RecordsSay(rs, rule)
  {
    hide RecordOk, RecordSays;
    forall r { RecordOkExactly(r, rule); }
    assert forall r | r in rs :: exists i :: 0 <= i < |rs| && rs[i] == r;
    assert forall i | 0 <= i < |rs| :: rs[i] in rs;
  }

  lemma {:induction false} LinesCons(r: Record, rs: seq<Record>)
    ensures Lines([r] + rs) == [Line(r)] + Lines(rs)
    decreases |rs|
  {
    hide Line;
    if rs == [] {
      assert ([r] + rs)[..0] == [] && [r] + rs == [r];
    } else {
      var n := |rs| - 1;
      assert ([r] + rs)[..|rs|] == [r] + rs[..n];
      LinesCons(r, rs[..n]);
    }
  }

  lemma {:induction false} JoinLines(rs: seq<Record>, tail: seq<Str>)
    requires tail != []
    ensures Join(Lines(rs) + tail, NUL) == Written(rs) + Join(tail, NUL)
    decreases |rs|
  {
    hide Line, Text;
    if rs == [] {
      assert Lines(rs) + tail == tail;
    } else {
      var rest := Lines(rs[1..]) + tail;
      TextIs(rs[0]);
      assert rs == [rs[0]] + rs[1..];
      LinesCons(rs[0], rs[1..]);
      JoinLines(rs[1..], tail);
      assert Lines(rs) + tail == [Line(rs[0])] + rest;
      assert ([Line(rs[0])] + rest)[1..] == rest;
    }
  }

  lemma ListingIsWritten(rs: seq<Record>)
    ensures Listing(rs) == Written(rs)
  {
    hide Line, Text, Join;
    if rs != [] {
      JoinLines(rs, [[]]);
      JoinFirst([[]], NUL);
      JoinSnoc(Lines(rs), []);
      assert Join(Lines(rs), NUL) + [NUL] + [] == Join(Lines(rs), NUL) + [NUL];
      assert Written(rs) + [] == Written(rs);
    }
  }

  lemma {:induction false} JoinSnoc(parts: seq<Str>, last: Str)
    requires parts != []
    ensures Join(parts + [last], NUL) == Join(parts, NUL) + [NUL] + last
  {
    if |parts| == 1 {
      assert (parts + [last])[1..] == [last];
    } else {
      assert (parts + [last])[1..] == parts[1..] + [last];
      JoinSnoc(parts[1..], last);
    }
  }

  lemma {:induction false} SplitWritten(rs: seq<Record>, s: Str, rule: PathRule)
    requires forall i | 0 <= i < |rs| :: RecordOk(rs[i], rule)
    ensures Split(Written(rs) + s, NUL) == Lines(rs) + Split(s, NUL) && |Lines(rs)| == |rs|
    decreases |rs|
  {
    hide Line, Text, RecordOk, Split;
    if rs == [] {
      assert Written(rs) + s == s;
    } else {
      TextIs(rs[0]);
      LineParses(rs[0], rule);
      SplitWritten(rs[1..], s, rule);
      assert rs == [rs[0]] + rs[1..];
      LinesCons(rs[0], rs[1..]);
      SplitFirst(Text(rs[0]), Written(rs[1..]) + s, NUL);
      assert Written(rs) + s == Text(rs[0]) + [NUL] + (Written(rs[1..]) + s);
    }
  }

  // ----- the loop -------------------------------------------------------------------------------

  lemma {:induction false} LinesAt(rs: seq<Record>, i: nat)
    requires i < |rs|
    ensures |Lines(rs)| == |rs| && Lines(rs)[i] == Line(rs[i])
    decreases |rs|
  {
    if |rs| > 1 { LinesAt(rs[..|rs| - 1], if i < |rs| - 1 then i else 0); }
  }

  lemma LinesGrow(rs: seq<Record>, r: Record)
    ensures Lines(rs + [r]) == Lines(rs) + [Line(r)]
  {
    assert (rs + [r])[..|rs|] == rs;
  }

  // The records of a listing are its parts between NULs.
  lemma ListingSplits(rs: seq<Record>, rule: PathRule)
    requires RecordsOk(rs, rule) && rs != []
    ensures var bytes := Listing(rs);
      bytes != [] && bytes[|bytes| - 1] == NUL && Split(bytes[..|bytes| - 1], NUL) == Lines(rs)
  {
    hide Join, RecordOk;
    var bytes := Listing(rs);
    LinesAt(rs, 0);
    assert bytes[..|bytes| - 1] == Join(Lines(rs), NUL);
    forall p | p in Lines(rs) ensures NUL !in p {
      var i :| 0 <= i < |Lines(rs)| && Lines(rs)[i] == p;
      LinesAt(rs, i);
      LineParses(rs[i], rule);
    }
    SplitJoin(Lines(rs), NUL);
  }

  // The first `n` parts have been read as `rs`.
  ghost predicate Reads(parts: seq<Str>, n: nat, rule: PathRule, rs: seq<Record>) {
    n <= |parts| && |rs| == n && RecordsOk(rs, rule) && Lines(rs) == parts[..n]
  }

  // One more record, or none.
  lemma ReadsOneMore(parts: seq<Str>, n: nat, rule: PathRule, rs: seq<Record>, r: Record)
    requires Reads(parts, n, rule, rs) && n < |parts| && ParseRecord(parts[n], rule) == Some(r)
    requires forall i | 0 <= i < n :: rs[i].path != r.path && |rs[i].oid| == |r.oid|
    ensures Reads(parts, n + 1, rule, rs + [r])
  {
    hide RecordOk, ParseRecord, Line;
    ParsedLine(parts[n], rule);
    LinesGrow(rs, r);
    assert parts[..n + 1] == parts[..n] + [parts[n]];
  }

  // Any records that spell this listing agree with what has been read.
  lemma {:induction false} OnlyReading(parts: seq<Str>, n: nat, rule: PathRule, rs: seq<Record>, all: seq<Record>)
    requires Reads(parts, n, rule, rs) && RecordsOk(all, rule) && n <= |all| <= |parts| && Lines(all) == parts[..|all|]
    ensures all[..n] == rs && forall i | 0 <= i < |all| :: ParseRecord(parts[i], rule) == Some(all[i])
  {
    hide RecordOk, ParseRecord, Line;
    forall i | 0 <= i < |all| ensures ParseRecord(parts[i], rule) == Some(all[i]) {
      LinesAt(all, i);
      LineParses(all[i], rule);
      assert parts[..|all|][i] == parts[i];
    }
    forall i | 0 <= i < n ensures all[i] == rs[i] {
      LinesAt(rs, i);
      LineParses(rs[i], rule);
      assert parts[..n][i] == parts[i];
    }
  }

  ghost predicate Spelled(bytes: Str, rule: PathRule, maxEntries: u64, n: nat) {
    exists rs :: RecordsOk(rs, rule) && |rs| == n <= maxEntries && Listing(rs) == bytes
  }

  // The bytes are these records, written one after the other.
  ghost predicate Lists(bytes: Str, rule: PathRule, maxEntries: u64, n: nat) {
    exists rs :: RecordsSay(rs, rule) && |rs| == n <= maxEntries && Written(rs) == bytes
  }

  // The records up to the limit are in order, and there is more.
  ghost predicate TooMany(bytes: Str, rule: PathRule, maxEntries: u64) {
    && bytes != [] && bytes[|bytes| - 1] == 0
    && exists rs :: RecordsSay(rs, rule) && |rs| == maxEntries && Written(rs) <= bytes && Written(rs) != bytes
  }

  lemma ListsExactly(bytes: Str, rule: PathRule, maxEntries: u64, n: nat)
    ensures Spelled(bytes, rule, maxEntries, n) <==> Lists(bytes, rule, maxEntries, n)
  {
    hide RecordsOk, RecordsSay, Listing, Written;
    forall rs { RecordsOkExactly(rs, rule); }
    forall rs { ListingIsWritten(rs); }
  }

  // One more than the limit, after that many have been read.
  lemma ReadsTooMany(bytes: Str, parts: seq<Str>, rule: PathRule, rs: seq<Record>, maxEntries: u64)
    requires bytes != [] && bytes[|bytes| - 1] == NUL && parts == Split(bytes[..|bytes| - 1], NUL)
    requires Reads(parts, maxEntries, rule, rs) && maxEntries < |parts|
    ensures TooMany(bytes, rule, maxEntries)
  {
    hide RecordsOk, RecordsSay, Split, Join, Written;
    RecordsOkExactly(rs, rule);
    JoinSplit(bytes[..|bytes| - 1], NUL);
    assert parts == Lines(rs) + parts[maxEntries..];
    JoinLines(rs, parts[maxEntries..]);
    assert Written(rs) <= bytes[..|bytes| - 1];
  }

  // A part within the limit that cannot be read, or not beside the others, is no case of too many.
  lemma NotTooMany(bytes: Str, parts: seq<Str>, n: nat, rule: PathRule, rs: seq<Record>, maxEntries: u64)
    requires bytes != [] && bytes[|bytes| - 1] == NUL && parts == Split(bytes[..|bytes| - 1], NUL)
    requires Reads(parts, n, rule, rs) && n < |parts| && n < maxEntries
    requires ParseRecord(parts[n], rule).None?
      || exists i | 0 <= i < n ::
           rs[i].path == ParseRecord(parts[n], rule).value.path ||
             |rs[i].oid| != |ParseRecord(parts[n], rule).value.oid|
    ensures !TooMany(bytes, rule, maxEntries)
  {
    hide RecordOk, ParseRecord, Line, Split, Reads, RecordsOk, RecordsSay, Written;
    if TooMany(bytes, rule, maxEntries) {
      var all := MoreParts(bytes, parts, rule, maxEntries);
      SpellingContinues(parts, n, rule, rs, all);
    }
  }

  lemma MoreParts(bytes: Str, parts: seq<Str>, rule: PathRule, maxEntries: u64) returns (all: seq<Record>)
    requires TooMany(bytes, rule, maxEntries) && parts == Split(bytes[..|bytes| - 1], NUL)
    ensures RecordsOk(all, rule) && |all| == maxEntries < |parts| && Lines(all) == parts[..|all|]
  {
    hide RecordOk, Split, RecordsSay, Written;
    all :| RecordsSay(all, rule) && |all| == maxEntries && Written(all) <= bytes && Written(all) != bytes;
    RecordsOkExactly(all, rule);
    var s := bytes[|Written(all)|..|bytes| - 1];
    assert bytes[..|bytes| - 1] == Written(all) + s;
    SplitWritten(all, s, rule);
  }

  // A part that cannot be read, or not beside the others, rules every spelling out.
  lemma NotSpelled(bytes: Str, parts: seq<Str>, n: nat, rule: PathRule, rs: seq<Record>, maxEntries: u64)
    requires bytes != [] && bytes[|bytes| - 1] == NUL && parts == Split(bytes[..|bytes| - 1], NUL)
    requires Reads(parts, n, rule, rs) && n < |parts|
    requires n >= maxEntries || ParseRecord(parts[n], rule).None?
      || exists i | 0 <= i < n ::
           rs[i].path == ParseRecord(parts[n], rule).value.path ||
             |rs[i].oid| != |ParseRecord(parts[n], rule).value.oid|
    ensures forall m: nat :: !Spelled(bytes, rule, maxEntries, m)
  {
    hide RecordOk, ParseRecord, Line, Listing, Split, Reads, RecordsOk;
    forall m: nat ensures !Spelled(bytes, rule, maxEntries, m) {
      if Spelled(bytes, rule, maxEntries, m) {
        var all :| RecordsOk(all, rule) && |all| == m <= maxEntries && Listing(all) == bytes;
        SpelledParts(bytes, all, rule);
        assert parts[..|parts|] == parts;
        SpellingContinues(parts, n, rule, rs, all);
      }
    }
  }

  lemma SpellingContinues(parts: seq<Str>, n: nat, rule: PathRule, rs: seq<Record>, all: seq<Record>)
    requires Reads(parts, n, rule, rs) && RecordsOk(all, rule) && n < |all| <= |parts| && Lines(all) == parts[..|all|]
    ensures ParseRecord(parts[n], rule) == Some(all[n]) && |rs| == n
    ensures forall i | 0 <= i < n :: rs[i].path != all[n].path && |rs[i].oid| == |all[n].oid|
  {
    hide RecordOk, ParseRecord, Line;
    OnlyReading(parts, n, rule, rs, all);
    forall i | 0 <= i < n ensures rs[i].path != all[n].path && |rs[i].oid| == |all[n].oid| {
      assert rs[i] == all[..n][i] == all[i];
    }
  }

  lemma SpelledParts(bytes: Str, all: seq<Record>, rule: PathRule)
    requires bytes != [] && RecordsOk(all, rule) && Listing(all) == bytes
    ensures Lines(all) == Split(bytes[..|bytes| - 1], NUL) && |Lines(all)| == |all|
  {
    hide RecordsOk;
    assert all != [];
    ListingSplits(all, rule);
    LinesAt(all, 0);
  }

  // `validate_git_tree_listing`: accepts `n` records exactly when the bytes are the listing of `n`
  // well-formed records with distinct paths and object ids of one length, within the limit.
  method ValidateGitTreeListing(bytes: Str, maxEntries: u64, rule: PathRule) returns (r: Result<nat, SourceError>)
    ensures r.Ok? ==> Lists(bytes, rule, maxEntries, r.value)
    ensures r.Err? ==> forall m: nat :: !Lists(bytes, rule, maxEntries, m)
    ensures r.Err? ==> r.error == if TooMany(bytes, rule, maxEntries) then TooLarge else UnsafeEntryPath
  {
    hide PathFits, Split, Listing, RecordsOk, Reads, Spelled, Lists, TooMany;
    forall m: nat { ListsExactly(bytes, rule, maxEntries, m); }
    ghost var rs: seq<Record> := [];
    if bytes == [] {
      NothingSpelled(rule, maxEntries);
      return Ok(0);
    }
    if bytes[|bytes| - 1] != NUL {
      NotTerminated(bytes, rule, maxEntries);
      Unended(bytes, rule, maxEntries);
      return Err(UnsafeEntryPath);
    }
    var parts := Split(bytes[..|bytes| - 1], NUL);
    var paths: set<Str>, length: Option<nat>, count := {}, None, 0;
    ReadsNothing(parts, rule);
    while count < |parts|
      invariant count <= |parts| && count <= maxEntries && Reads(parts, count, rule, rs) && |rs| == count
      invariant forall p :: p in paths <==> exists i :: 0 <= i < count && rs[i].path == p
      invariant length.None? <==> count == 0
      invariant forall i | 0 <= i < count :: length == Some(|rs[i].oid|)
    {
      var record := parts[count];
      if count + 1 > maxEntries {
        NotSpelled(bytes, parts, count, rule, rs, maxEntries);
        ReadsTooMany(bytes, parts, rule, rs, maxEntries);
        return Err(TooLarge);
      }
      var i := UpTo(record, TAB);
      if i == |record| {
        NotSpelled(bytes, parts, count, rule, rs, maxEntries);
        NotTooMany(bytes, parts, count, rule, rs, maxEntries);
        return Err(UnsafeEntryPath);
      }
      var header, path := record[..i], record[i + 1..];
      if !PathFits(path, rule) {
        NotSpelled(bytes, parts, count, rule, rs, maxEntries);
        NotTooMany(bytes, parts, count, rule, rs, maxEntries);
        return Err(UnsafeEntryPath);
      }
      if path in paths {
        ghost var j :| 0 <= j < count && rs[j].path == path;
        NotSpelled(bytes, parts, count, rule, rs, maxEntries);
        NotTooMany(bytes, parts, count, rule, rs, maxEntries);
        return Err(UnsafeEntryPath);
      }
      paths := paths + {path};
      var fields := Split(header, SPACE);
      if |fields| != 3 || !(fields[0] == MODE_FILE || fields[0] == MODE_EXECUTABLE) || fields[1] != BLOB
         || !OidOk(fields[2])
      {
        NotSpelled(bytes, parts, count, rule, rs, maxEntries);
        NotTooMany(bytes, parts, count, rule, rs, maxEntries);
        return Err(UnsafeEntryPath);
      }
      ghost var r := ParseRecord(record, rule).value;
      if length.Some? && length.value != |fields[2]| {
        assert |rs[0].oid| != |r.oid|;
        NotSpelled(bytes, parts, count, rule, rs, maxEntries);
        NotTooMany(bytes, parts, count, rule, rs, maxEntries);
        return Err(UnsafeEntryPath);
      }
      length := Some(|fields[2]|);
      ReadsOneMore(parts, count, rule, rs, r);
      forall p ensures p in paths <==> exists i :: 0 <= i < count + 1 && (rs + [r])[i].path == p {
        if p == path { assert (rs + [r])[count].path == p; }
        if i :| 0 <= i < count && rs[i].path == p { assert (rs + [r])[i].path == p; }
      }
      rs := rs + [r];
      count := count + 1;
    }
    AllRead(bytes, parts, rule, rs, maxEntries);
    return Ok(count);
  }

  lemma Unended(bytes: Str, rule: PathRule, maxEntries: u64)
    requires bytes != [] && bytes[|bytes| - 1] != NUL
    ensures !TooMany(bytes, rule, maxEntries)
  {
  }

  lemma ReadsNothing(parts: seq<Str>, rule: PathRule)
    ensures Reads(parts, 0, rule, [])
  {
  }

  lemma NothingSpelled(rule: PathRule, maxEntries: u64)
    ensures Spelled([], rule, maxEntries, 0)
  {
    assert RecordsOk([], rule) && Listing([]) == [];
  }

  lemma NotTerminated(bytes: Str, rule: PathRule, maxEntries: u64)
    requires bytes != [] && bytes[|bytes| - 1] != NUL
    ensures forall m: nat :: !Spelled(bytes, rule, maxEntries, m)
  {
  }

  lemma AllRead(bytes: Str, parts: seq<Str>, rule: PathRule, rs: seq<Record>, maxEntries: u64)
    requires bytes != [] && bytes[|bytes| - 1] == NUL && parts == Split(bytes[..|bytes| - 1], NUL)
    requires Reads(parts, |parts|, rule, rs) && |rs| <= maxEntries
    ensures Spelled(bytes, rule, maxEntries, |rs|)
  {
    hide RecordsOk, Split, Join;
    JoinSplit(bytes[..|bytes| - 1], NUL);
    assert parts[..|parts|] == parts;
    assert Listing(rs) == bytes;
  }

  // Two listings that read the same are the same records.
  lemma ListingInjective(a: seq<Record>, b: seq<Record>, rule: PathRule)
    requires RecordsOk(a, rule) && RecordsOk(b, rule) && Listing(a) == Listing(b)
    ensures a == b
  {
    hide RecordOk, Listing, Split, Line, ParseRecord;
    if a != [] {
      ListingSplits(a, rule);
      if b == [] { EmptyListing(b); } else {
        ListingSplits(b, rule);
        LinesAt(a, 0);
        LinesAt(b, 0);
        ReadsAll(a, rule);
        OnlyReading(Lines(a), |a|, rule, a, b);
        assert b[..|a|] == b;
      }
    } else {
      EmptyListing(a);
      if b != [] { ListingSplits(b, rule); }
    }
  }

  lemma EmptyListing(rs: seq<Record>)
    ensures rs == [] ==> Listing(rs) == []
  {
  }

  lemma ReadsAll(a: seq<Record>, rule: PathRule)
    requires RecordsOk(a, rule) && |Lines(a)| == |a|
    ensures Reads(Lines(a), |a|, rule, a)
  {
    hide RecordsOk;
    assert Lines(a)[..|a|] == Lines(a);
  }
}
