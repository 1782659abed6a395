// Which archive inventories are admitted: the loops of the policy and, beside them,
// an order-free statement of what they accept.
module ArchivePolicy {
  import opened Prelude
  import opened Bytes
  import opened Ordering
  import opened EntryNames

  datatype SourceError = NonImmutable | WrongKind | IdentityMismatch | TooLarge | UnsafeEntryPath | Io

  datatype Kind = RegularFile | Directory | Symlink | Hardlink | Special

  datatype Entry = Entry(name: Str, kind: Kind, expandedBytes: u64)

  datatype Limits = Limits(maxEntries: u64, maxTotalBytes: u64, maxEntryBytes: u64, maxPathBytes: u64)

  const MaxDepth := 128

  // ----- the order-free statement ------------------------------------------------------

  predicate EntryOk(e: Entry, limits: Limits) {
    && PathOk(e.name, limits.maxPathBytes) && PortableName(e.name)
    && (e.kind.RegularFile? || e.kind.Directory?)
    && |Comps(e.name)| <= MaxDepth
    && (e.kind.Directory? ==> e.expandedBytes == 0)
    && e.expandedBytes <= limits.maxEntryBytes
  }

  // The same, byte by byte and as a path: a name with nothing but harmless bytes that is the one spelling of a
  // way down from the target, no more than 128 steps long, and that means nothing else on other systems; of a
  // file or of an empty directory.
  ghost predicate EntrySays(e: Entry, limits: Limits) {
    && |e.name| <= limits.maxPathBytes && Harmless(e.name) && NamesItself(e.name) && Portable(e.name)
    && |Resolved(e.name, Some([])).value| <= 128
    && ((e.kind.RegularFile? && e.expandedBytes <= limits.maxEntryBytes) || (e.kind.Directory? && e.expandedBytes == 0))
  }

  lemma EntryOkExactly(e: Entry, limits: Limits)
    ensures EntryOk(e, limits) <==> EntrySays(e, limits)
  {
    hide PathOk, PortableName, Portable, Comps, Harmless, Resolved;
    PathOkExactly(e.name, limits.maxPathBytes);
    PortableExactly(e.name);
  }

  lemma AdmittedNames(entries: seq<Entry>, limits: Limits)
    ensures Admissible(entries, limits) ==> forall e | e in entries :: EntrySays(e, limits)
  {
    hide EntryOk, EntrySays;
    forall e { EntryOkExactly(e, limits); }
  }

  // Prefixes that a case-insensitive file system would identify are spelled the same.
  ghost predicate SpelledAlike(a: seq<Str>, b: seq<Str>) {
    forall k | 0 <= k <= |a| && k <= |b| :: LowerAll(a[..k]) == LowerAll(b[..k]) ==> a[..k] == b[..k]
  }

  // The component lists of the names.
  function PathsOf(entries: seq<Entry>): (r: seq<seq<Str>>)
    ensures |r| == |entries| && forall i | 0 <= i < |r| :: r[i] == Comps(entries[i].name)
  {
    seq(|entries|, i requires 0 <= i < |entries| => Comps(entries[i].name))
  }

  ghost predicate OneSpelling(paths: seq<seq<Str>>) {
    forall p, q | p in paths && q in paths :: SpelledAlike(p, q)
  }

  ghost predicate UniqueNames(entries: seq<Entry>) {
    forall i, j | 0 <= i < j < |entries| :: Lower(entries[i].name) != Lower(entries[j].name)
  }

  // `e` lies above `f`, case aside, and is no directory.
  ghost predicate FileAbove(e: Entry, f: Entry) {
    !e.kind.Directory? && exists i | 0 <= i < |f.name| :: f.name[i] == SLASH && Lower(f.name[..i]) == Lower(e.name)
  }

  ghost predicate NoFileAbove(entries: seq<Entry>) {
    forall e, f | e in entries && f in entries :: !FileAbove(e, f)
  }

  function Total(entries: seq<Entry>): nat {
    if entries == [] then 0 else Total(entries[..|entries| - 1]) + entries[|entries| - 1].expandedBytes
  }

  ghost predicate Admissible(entries: seq<Entry>, limits: Limits) {
    && |entries| <= limits.maxEntries
    && (forall e | e in entries :: EntryOk(e, limits))
    && OneSpelling(PathsOf(entries)) && UniqueNames(entries) && NoFileAbove(entries)
    && Total(entries) <= limits.maxTotalBytes
  }

  // A limit on counts or sizes is exceeded.
  ghost predicate OverLimit(entries: seq<Entry>, limits: Limits) {
    || |entries| > limits.maxEntries
    || (exists e | e in entries :: |Comps(e.name)| > MaxDepth || e.expandedBytes > limits.maxEntryBytes)
    || Total(entries) > limits.maxTotalBytes
  }

  // A name, kind or pair of names is unsafe.
  ghost predicate Unsafe(entries: seq<Entry>, limits: Limits) {
    || (exists e | e in entries ::
          !PathOk(e.name, limits.maxPathBytes) || !PortableName(e.name)
          || !(e.kind.RegularFile? || e.kind.Directory?) || (e.kind.Directory? && e.expandedBytes != 0))
    || !OneSpelling(PathsOf(entries)) || !UniqueNames(entries) || !NoFileAbove(entries)
  }

  // ----- the component trie ---------------------------------------------------------------

  // Canonical parent id and folded component, to the spelling and the id.
  type Trie = map<(nat, Str), (Str, nat)>

  // What an id stands for: the spelled prefix, its parent's id and the entry it came from.
  datatype Seen = Seen(spell: seq<Str>, up: nat, from: nat)

  ghost function PrefixOf(seen: seq<Seen>, id: nat): seq<Str>
    requires id <= |seen|
  {
    if id == 0 then [] else seen[id - 1].spell
  }

  // The node of id `i + 1`.
  ghost predicate NodeOk(paths: seq<seq<Str>>, n: nat, trie: Trie, seen: seq<Seen>, i: nat)
    requires i < |seen| && n <= |paths|
  {
    var p, up := seen[i].spell, seen[i].up;
    && p != [] && up <= i && seen[i].from < n
    && PrefixOf(seen, up) == p[..|p| - 1]
    && (up, Lower(p[|p| - 1])) in trie
    && trie[(up, Lower(p[|p| - 1]))] == (p[|p| - 1], i + 1)
    && p <= paths[seen[i].from]
  }

  ghost predicate KeyOk(trie: Trie, seen: seq<Seen>, key: (nat, Str))
    requires key in trie
  {
    var (c, id) := trie[key];
    && key.0 < id <= |seen| && key.1 == Lower(c)
    && PrefixOf(seen, id) == PrefixOf(seen, key.0) + [c]
  }

  ghost predicate NodesOk(paths: seq<seq<Str>>, n: nat, trie: Trie, seen: seq<Seen>)
    requires n <= |paths|
  {
    forall i: nat | i < |seen| :: NodeOk(paths, n, trie, seen, i)
  }

  ghost predicate KeysOk(trie: Trie, seen: seq<Seen>) { forall key | key in trie :: KeyOk(trie, seen, key) }

  ghost predicate FoldsApart(seen: seq<Seen>) {
    forall i: nat, j: nat | i <= |seen| && j <= |seen| ::
      LowerAll(PrefixOf(seen, i)) == LowerAll(PrefixOf(seen, j)) ==> i == j
  }

  // Ids 1..len are in bijection with the folded prefixes seen in the first `n` names.
  ghost predicate TrieOk(paths: seq<seq<Str>>, n: nat, trie: Trie, seen: seq<Seen>) {
    n <= |paths| && |seen| == |trie| && NodesOk(paths, n, trie, seen) && KeysOk(trie, seen) && FoldsApart(seen)
  }

  ghost predicate Knows(seen: seq<Seen>, prefix: seq<Str>) {
    exists id: nat :: id <= |seen| && PrefixOf(seen, id) == prefix
  }

  // An id with this folded prefix answers to this key.
  lemma FoldedPrefixHasKey(paths: seq<seq<Str>>, n: nat, trie: Trie, seen: seq<Seen>, parent: nat, c: Str, id: nat)
    requires TrieOk(paths, n, trie, seen) && parent <= |seen| && id <= |seen|
    requires LowerAll(PrefixOf(seen, id)) == LowerAll(PrefixOf(seen, parent) + [c])
    ensures (parent, Lower(c)) in trie
  {
    LowerAllSnoc(PrefixOf(seen, parent), c);
    var p := PrefixOf(seen, id);
    assert NodeOk(paths, n, trie, seen, id - 1);
    LowerAllSnoc(p[..|p| - 1], p[|p| - 1]);
    assert p == p[..|p| - 1] + [p[|p| - 1]];
    assert LowerAll(p)[|p| - 1] == Lower(c);
    assert LowerAll(p[..|p| - 1]) == LowerAll(p)[..|p| - 1] == LowerAll(PrefixOf(seen, parent));
  }

  // Giving a missing key the next id keeps the bijection.
  lemma Extend(paths: seq<seq<Str>>, n: nat, trie: Trie, seen: seq<Seen>, parent: nat, c: Str, p: seq<Str>)
    requires n < |paths| && TrieOk(paths, n + 1, trie, seen) && parent <= |seen|
    requires (parent, Lower(c)) !in trie
    requires p == PrefixOf(seen, parent) + [c] && p <= paths[n]
    ensures TrieOk(paths, n + 1, trie[(parent, Lower(c)) := (c, |trie| + 1)], seen + [Seen(p, parent, n)])
  {
    hide FoldsApart, NodesOk, KeysOk;
    ExtendNodes(paths, n, trie, seen, parent, c, p);
    ExtendKeys(trie, seen, parent, c, p, n);
    ExtendFolds(paths, n + 1, trie, seen, parent, c, Seen(p, parent, n));
  }

  lemma ExtendNodes(paths: seq<seq<Str>>, n: nat, trie: Trie, seen: seq<Seen>, parent: nat, c: Str, p: seq<Str>)
    requires n < |paths| && NodesOk(paths, n + 1, trie, seen) && parent <= |seen| == |trie|
    requires (parent, Lower(c)) !in trie
    requires p == PrefixOf(seen, parent) + [c] && p <= paths[n]
    ensures NodesOk(paths, n + 1, trie[(parent, Lower(c)) := (c, |trie| + 1)], seen + [Seen(p, parent, n)])
  {
    var trie', seen', m := trie[(parent, Lower(c)) := (c, |trie| + 1)], seen + [Seen(p, parent, n)], n + 1;
    forall i: nat | i < |seen'| ensures NodeOk(paths, m, trie', seen', i) {
      if i < |seen| {
        assert NodeOk(paths, m, trie, seen, i);
        assert PrefixOf(seen', seen[i].up) == PrefixOf(seen, seen[i].up);
      } else {
        assert PrefixOf(seen', parent) == PrefixOf(seen, parent) == p[..|p| - 1];
      }
    }
  }

  lemma ExtendKeys(trie: Trie, seen: seq<Seen>, parent: nat, c: Str, p: seq<Str>, n: nat)
    requires KeysOk(trie, seen) && parent <= |seen| == |trie| && p == PrefixOf(seen, parent) + [c]
    ensures KeysOk(trie[(parent, Lower(c)) := (c, |trie| + 1)], seen + [Seen(p, parent, n)])
  {
    var trie', seen' := trie[(parent, Lower(c)) := (c, |trie| + 1)], seen + [Seen(p, parent, n)];
    forall key | key in trie' ensures KeyOk(trie', seen', key) {
      if key != (parent, Lower(c)) {
        assert KeyOk(trie, seen, key);
        assert PrefixOf(seen', key.0) == PrefixOf(seen, key.0);
      }
    }
  }

  lemma ExtendFolds(paths: seq<seq<Str>>, n: nat, trie: Trie, seen: seq<Seen>, parent: nat, c: Str, node: Seen)
    requires TrieOk(paths, n, trie, seen) && parent <= |seen| && (parent, Lower(c)) !in trie
    requires node.spell == PrefixOf(seen, parent) + [c]
    ensures FoldsApart(seen + [node])
  {
    hide LowerAll, Lower, NodesOk, KeysOk;
    var seen' := seen + [node];
    forall i: nat, j: nat | i <= |seen'| && j <= |seen'| && LowerAll(PrefixOf(seen', i)) == LowerAll(PrefixOf(seen', j))
      ensures i == j
    {
      if i <= |seen| && j <= |seen| {
        assert PrefixOf(seen', i) == PrefixOf(seen, i) && PrefixOf(seen', j) == PrefixOf(seen, j);
      } else if i != j {
        NewPrefixApart(paths, n, trie, seen, parent, c, node, if i <= |seen| then i else j);
      }
    }
  }

  lemma NewPrefixApart(paths: seq<seq<Str>>, n: nat, trie: Trie, seen: seq<Seen>, parent: nat, c: Str, node: Seen,
                       k: nat)
    requires TrieOk(paths, n, trie, seen) && parent <= |seen| && (parent, Lower(c)) !in trie
    requires node.spell == PrefixOf(seen, parent) + [c] && k <= |seen|
    ensures LowerAll(PrefixOf(seen + [node], k)) != LowerAll(PrefixOf(seen + [node], |seen| + 1))
  {
    hide TrieOk, LowerAll;
    var seen' := seen + [node];
    assert PrefixOf(seen', k) == PrefixOf(seen, k) && PrefixOf(seen', |seen| + 1) == node.spell;
    if LowerAll(PrefixOf(seen, k)) == LowerAll(node.spell) {
      FoldedPrefixHasKey(paths, n, trie, seen, parent, c, k);
    }
  }

  // ----- the loops -----------------------------------------------------------------------------

  // The loop over the components has followed `parts[..depth]` to `parent`.
  ghost predicate Walked(paths: seq<seq<Str>>, n: nat, trie: Trie, seen0: seq<Seen>, seen: seq<Seen>,
                         parts: seq<Str>, depth: nat, parent: nat)
  {
    && n < |paths| && depth <= |parts| && parent <= |seen|
    && TrieOk(paths, n + 1, trie, seen) && seen0 <= seen
    && PrefixOf(seen, parent) == parts[..depth]
    && KnowsUpTo(seen, parts, depth)
  }

  lemma WalkStart(paths: seq<seq<Str>>, n: nat, trie: Trie, seen: seq<Seen>, parts: seq<Str>)
    requires n < |paths| && TrieOk(paths, n, trie, seen)
    ensures Walked(paths, n, trie, seen, seen, parts, 0, 0)
  {
    OneMoreEntry(paths, n, trie, seen);
    assert PrefixOf(seen, 0) == parts[..0];
    assert Knows(seen, parts[..0]);
  }

  lemma WalkKnown(paths: seq<seq<Str>>, n: nat, trie: Trie, seen0: seq<Seen>, seen: seq<Seen>,
                  parts: seq<Str>, depth: nat, parent: nat)
    requires Walked(paths, n, trie, seen0, seen, parts, depth, parent) && depth < |parts|
    requires (parent, Lower(parts[depth])) in trie && trie[(parent, Lower(parts[depth]))].0 == parts[depth]
    ensures Walked(paths, n, trie, seen0, seen, parts, depth + 1, trie[(parent, Lower(parts[depth]))].1)
  {
    hide FoldsApart, NodesOk, KeysOk, KnowsUpTo, Lower, PrefixOf;
    KeyLeads(trie, seen, (parent, Lower(parts[depth])));
    assert parts[..depth + 1] == parts[..depth] + [parts[depth]];
    KnowsOneMore(seen, seen, parts, depth, trie[(parent, Lower(parts[depth]))].1);
  }

  lemma KeyLeads(trie: Trie, seen: seq<Seen>, key: (nat, Str))
    requires KeysOk(trie, seen) && key in trie
    ensures var (c, id) := trie[key]; key.0 < id <= |seen| && PrefixOf(seen, id) == PrefixOf(seen, key.0) + [c]
  {
    assert KeyOk(trie, seen, key);
  }

  lemma WalkNew(paths: seq<seq<Str>>, n: nat, trie: Trie, seen0: seq<Seen>, seen: seq<Seen>,
                parts: seq<Str>, depth: nat, parent: nat, trie': Trie, seen': seq<Seen>)
    requires Walked(paths, n, trie, seen0, seen, parts, depth, parent) && depth < |parts| && paths[n] == parts
    requires (parent, Lower(parts[depth])) !in trie
    requires trie' == trie[(parent, Lower(parts[depth])) := (parts[depth], |trie| + 1)]
    requires seen' == seen + [Seen(parts[..depth + 1], parent, n)]
    ensures Walked(paths, n, trie', seen0, seen', parts, depth + 1, |trie| + 1)
  {
    hide FoldsApart, NodesOk, KeysOk, KnowsUpTo;
    var p := parts[..depth + 1];
    assert p == parts[..depth] + [parts[depth]];
    Extend(paths, n, trie, seen, parent, parts[depth], p);
    KnowsOneMore(seen, seen + [Seen(p, parent, n)], parts, depth, |trie| + 1);
  }

  // The component loop and the entry loop as functions: they fix which of several errors is reported.
  function SpellFrom(trie: Trie, parts: seq<Str>, depth: nat, parent: nat): Result<Trie, SourceError>
    requires depth <= |parts|
    decreases |parts| - depth
  {
    if depth == |parts| then Ok(trie)
    else if depth + 1 > MaxDepth then Err(TooLarge)
    else
      var key := (parent, Lower(parts[depth]));
      if key !in trie then SpellFrom(trie[key := (parts[depth], |trie| + 1)], parts, depth + 1, |trie| + 1)
      else if trie[key].0 != parts[depth] then Err(UnsafeEntryPath)
      else SpellFrom(trie, parts, depth + 1, trie[key].1)
  }

  function PolicyFrom(entries: seq<Entry>, limits: Limits, n: nat, total: nat, paths: map<Str, Kind>, trie: Trie)
    : Result<(nat, map<Str, Kind>), SourceError>
    requires n <= |entries|
    decreases |entries| - n
  {
    if n == |entries| then Ok((total, paths))
    else
      var entry := entries[n];
      if !PathOk(entry.name, limits.maxPathBytes) || !PortableName(entry.name)
         || !(entry.kind.RegularFile? || entry.kind.Directory?) then Err(UnsafeEntryPath)
      else
        match SpellFrom(trie, Comps(entry.name), 0, 0)
        case Err(e) => Err(e)
        case Ok(trie') =>
          if Lower(entry.name) in paths then Err(UnsafeEntryPath)
          else if entry.kind.Directory? && entry.expandedBytes != 0 then Err(UnsafeEntryPath)
          else if entry.expandedBytes > limits.maxEntryBytes then Err(TooLarge)
          else if total + entry.expandedBytes > limits.maxTotalBytes then Err(TooLarge)
          else
            var paths' := paths[Lower(entry.name) := entry.kind];
            PolicyFrom(entries, limits, n + 1, total + entry.expandedBytes, paths', trie')
  }

  ghost function Policy(entries: seq<Entry>, limits: Limits): Result<nat, SourceError> {
    if |entries| > limits.maxEntries then Err(TooLarge)
    else
      match PolicyFrom(entries, limits, 0, 0, map[], map[])
      case Err(e) => Err(e)
      case Ok((total, paths)) => if forall p | p in paths :: Open(paths, p) then Ok(total) else Err(UnsafeEntryPath)
  }

  // The component loop of one entry.
  method SpellComponents(ghost paths: seq<seq<Str>>, ghost n: nat, components: Trie, ghost seen: seq<Seen>,
      parts: seq<Str>)
    returns (error: Option<SourceError>, trie: Trie, ghost seen': seq<Seen>)
    requires n < |paths| && paths[n] == parts && TrieOk(paths, n, components, seen)
    ensures error.None? ==> TrieOk(paths, n + 1, trie, seen') && seen <= seen'
    ensures error.None? ==> |parts| <= MaxDepth && KnowsUpTo(seen', parts, |parts|)
    ensures error == Some(TooLarge) ==> |parts| > MaxDepth
    ensures error.Some? && error != Some(TooLarge) ==> error == Some(UnsafeEntryPath) && !OneSpelling(paths)
    ensures SpellFrom(components, parts, 0, 0) == if error.None? then Ok(trie) else Err(error.value)
  {
    hide TrieOk, KnowsUpTo;
    error, trie, seen' := None, components, seen;
    WalkStart(paths, n, trie, seen, parts);
    var parent: nat, depth: nat := 0, 0;
    while depth < |parts|
      invariant depth <= |parts| && depth <= MaxDepth && error.None?
      invariant Walked(paths, n, trie, seen, seen', parts, depth, parent)
      invariant SpellFrom(components, parts, 0, 0) == SpellFrom(trie, parts, depth, parent)
    {
      var component := parts[depth];
      if depth + 1 > MaxDepth { return Some(TooLarge), trie, seen'; }
      var key := (parent, Lower(component));
      if key in trie {
        var (spelling, id) := trie[key];
        if spelling != component {
          TwoSpellings(paths, n, trie, seen', parent, component, depth);
          return Some(UnsafeEntryPath), trie, seen';
        }
        WalkKnown(paths, n, trie, seen, seen', parts, depth, parent);
        parent := id;
      } else {
        var id := |trie| + 1;
        ghost var before, seenBefore := trie, seen';
        seen' := seen' + [Seen(parts[..depth + 1], parent, n)];
        trie := trie[key := (component, id)];
        WalkNew(paths, n, before, seen, seenBefore, parts, depth, parent, trie, seen');
        parent := id;
      }
      depth := depth + 1;
    }
  }

  ghost predicate KnowsUpTo(seen: seq<Seen>, parts: seq<Str>, depth: nat)
    requires depth <= |parts|
  {
    forall k | 0 <= k <= depth :: Knows(seen, parts[..k])
  }

  lemma KnowsOneMore(seen: seq<Seen>, seen': seq<Seen>, parts: seq<Str>, depth: nat, id: nat)
    requires seen <= seen' && depth < |parts| && KnowsUpTo(seen, parts, depth)
    requires id <= |seen'| && PrefixOf(seen', id) == parts[..depth + 1]
    ensures KnowsUpTo(seen', parts, depth + 1)
  {
    StillKnown(seen, seen', parts, depth);
    assert Knows(seen', parts[..depth + 1]);
  }

  lemma StillKnown(seen: seq<Seen>, seen': seq<Seen>, parts: seq<Str>, depth: nat)
    requires seen <= seen' && depth <= |parts| && KnowsUpTo(seen, parts, depth)
    ensures KnowsUpTo(seen', parts, depth)
  {
    forall k | 0 <= k <= depth ensures Knows(seen', parts[..k]) {
      assert Knows(seen, parts[..k]);
      var id: nat :| id <= |seen| && PrefixOf(seen, id) == parts[..k];
      assert PrefixOf(seen', id) == parts[..k];
    }
  }

  lemma OneMoreEntry(paths: seq<seq<Str>>, n: nat, trie: Trie, seen: seq<Seen>)
    requires n < |paths| && TrieOk(paths, n, trie, seen)
    ensures TrieOk(paths, n + 1, trie, seen)
  {
    var m := n + 1;
    forall i: nat | i < |seen| ensures NodeOk(paths, m, trie, seen, i) { assert NodeOk(paths, n, trie, seen, i); }
  }

  // A known key with another spelling: some earlier entry spells this prefix differently.
  lemma TwoSpellings(paths: seq<seq<Str>>, n: nat, trie: Trie, seen: seq<Seen>, parent: nat, c: Str, depth: nat)
    requires n < |paths| && TrieOk(paths, n + 1, trie, seen) && parent <= |seen|
    requires depth < |paths[n]| && paths[n][depth] == c
    requires PrefixOf(seen, parent) == paths[n][..depth]
    requires (parent, Lower(c)) in trie && trie[(parent, Lower(c))].0 != c
    ensures !OneSpelling(paths)
  {
    hide FoldsApart, NodesOk, KeysOk, PrefixOf, SpelledAlike;
    var (spelling, id) := trie[(parent, Lower(c))];
    KeyFolds(trie, seen, (parent, Lower(c)));
    KeyLeads(trie, seen, (parent, Lower(c)));
    var e := Witness(paths, n + 1, trie, seen, id);
    var p := PrefixOf(seen, parent);
    assert p + [c] <= paths[n] by { assert paths[n][..depth + 1] == p + [c]; }
    DifferentSpellings(e, paths[n], p, spelling, c);
    assert paths[n] in paths;
  }

  lemma KeyFolds(trie: Trie, seen: seq<Seen>, key: (nat, Str))
    requires KeysOk(trie, seen) && key in trie
    ensures key.1 == Lower(trie[key].0)
  {
    assert KeyOk(trie, seen, key);
  }

  // The name that a prefix came from.
  lemma Witness(paths: seq<seq<Str>>, n: nat, trie: Trie, seen: seq<Seen>, id: nat) returns (e: seq<Str>)
    requires n <= |paths| && NodesOk(paths, n, trie, seen) && 0 < id <= |seen|
    ensures e in paths && PrefixOf(seen, id) <= e
  {
    var k: nat := id - 1;
    assert NodeOk(paths, n, trie, seen, k);
    e := paths[seen[k].from];
  }

  lemma DifferentSpellings(a: seq<Str>, b: seq<Str>, p: seq<Str>, x: Str, y: Str)
    requires p + [x] <= a && p + [y] <= b && x != y && Lower(x) == Lower(y)
    ensures !SpelledAlike(a, b)
  {
    var k := |p| + 1;
    assert a[..k] == p + [x] && b[..k] == p + [y];
    LowerAllSnoc(p, x);
    LowerAllSnoc(p, y);
    assert (p + [x])[|p|] != (p + [y])[|p|];
  }

  // ----- the whole inventory ---------------------------------------------------------------------

  // Rejection is for one of two reasons, and there is no third.
  lemma AdmissibleSplits(entries: seq<Entry>, limits: Limits)
    ensures Admissible(entries, limits) <==> !OverLimit(entries, limits) && !Unsafe(entries, limits)
  {
  }

  // All prefixes of all names have ids: then equal folds are equal spellings.
  lemma KnownIsOneSpelling(paths: seq<seq<Str>>, trie: Trie, seen: seq<Seen>)
    requires TrieOk(paths, |paths|, trie, seen)
    requires AllKnown(seen, paths, |paths|)
    ensures OneSpelling(paths)
  {
    hide NodesOk, KeysOk;
    forall p, q | p in paths && q in paths ensures SpelledAlike(p, q) {
      forall k | 0 <= k <= |p| && k <= |q| && LowerAll(p[..k]) == LowerAll(q[..k]) ensures p[..k] == q[..k] {
        assert Knows(seen, p[..k]) && Knows(seen, q[..k]);
        var i: nat :| i <= |seen| && PrefixOf(seen, i) == p[..k];
        var j: nat :| j <= |seen| && PrefixOf(seen, j) == q[..k];
      }
    }
  }

  // The folded names of the first `n` entries, with their kinds.
  ghost predicate Names(entries: seq<Entry>, n: nat, paths: map<Str, Kind>) {
    && n <= |entries|
    && (forall i | 0 <= i < n :: Lower(entries[i].name) in paths && paths[Lower(entries[i].name)] == entries[i].kind)
    && (forall p | p in paths :: exists i :: 0 <= i < n && Lower(entries[i].name) == p)
  }

  // No folded name is below a folded name that is not a directory's.
  ghost predicate Open(paths: map<Str, Kind>, p: Str) {
    forall i | 0 <= i < |p| :: p[i] == SLASH && p[..i] in paths ==> paths[p[..i]].Directory?
  }

  method CheckAncestors(paths: map<Str, Kind>) returns (ok: bool)
    ensures ok <==> forall p | p in paths :: Open(paths, p)
  {
    var todo := paths.Keys;
    while todo != {}
      invariant todo <= paths.Keys && forall p | p in paths && p !in todo :: Open(paths, p)
      decreases |todo|
    {
      var path :| path in todo;
      var index := 0;
      while index < |path|
        invariant index <= |path|
        invariant forall i | 0 <= i < index :: path[i] == SLASH && path[..i] in paths ==> paths[path[..i]].Directory?
      {
        if path[index] == SLASH && path[..index] in paths && !paths[path[..index]].Directory? {
          assert !Open(paths, path);
          return false;
        }
        index := index + 1;
      }
      todo := todo - {path};
    }
    return true;
  }

  lemma SlashFolds(name: Str, i: nat)
    requires i < |name|
    ensures Lower(name)[i] == SLASH <==> name[i] == SLASH
    ensures Lower(name)[..i] == Lower(name[..i])
  {
  }

  lemma OpenUnblocks(paths: map<Str, Kind>, e: Entry, f: Entry)
    requires Lower(e.name) in paths && paths[Lower(e.name)] == e.kind && Open(paths, Lower(f.name))
    ensures !FileAbove(e, f)
  {
    forall i | 0 <= i < |f.name| && f.name[i] == SLASH && Lower(f.name[..i]) == Lower(e.name)
      ensures e.kind.Directory?
    {
      SlashFolds(f.name, i);
    }
  }

  lemma OpenIsNoFileAbove(entries: seq<Entry>, paths: map<Str, Kind>)
    requires Names(entries, |entries|, paths) && UniqueNames(entries)
    ensures (forall p | p in paths :: Open(paths, p)) <==> NoFileAbove(entries)
  {
    if forall p | p in paths :: Open(paths, p) {
      forall e, f | e in entries && f in entries ensures !FileAbove(e, f) {
        var i :| 0 <= i < |entries| && entries[i] == e;
        var j :| 0 <= j < |entries| && entries[j] == f;
        OpenUnblocks(paths, e, f);
      }
    } else {
      var p :| p in paths && !Open(paths, p);
      ClosedBlocks(entries, paths, p);
    }
  }

  lemma ClosedBlocks(entries: seq<Entry>, paths: map<Str, Kind>, p: Str)
    requires Names(entries, |entries|, paths) && p in paths && !Open(paths, p)
    ensures !NoFileAbove(entries)
  {
    var k :| 0 <= k < |p| && p[k] == SLASH && p[..k] in paths && !paths[p[..k]].Directory?;
    var j :| 0 <= j < |entries| && Lower(entries[j].name) == p;
    var i :| 0 <= i < |entries| && Lower(entries[i].name) == p[..k];
    SlashFolds(entries[j].name, k);
    hide Lower, Names, Open;
    assert entries[j].name[k] == SLASH && Lower(entries[j].name[..k]) == Lower(entries[i].name);
    assert FileAbove(entries[i], entries[j]);
  }

  lemma {:induction false} TotalMonotone(entries: seq<Entry>, n: nat)
    requires n <= |entries|
    ensures Total(entries[..n]) <= Total(entries)
    decreases |entries|
  {
    if n < |entries| {
      TotalMonotone(entries[..|entries| - 1], n);
      assert entries[..|entries| - 1][..n] == entries[..n];
    } else {
      assert entries[..n] == entries;
    }
  }

  ghost predicate EntriesOk(entries: seq<Entry>, limits: Limits, n: nat)
    requires n <= |entries|
  {
    forall i | 0 <= i < n :: EntryOk(entries[i], limits)
  }

  ghost predicate DistinctUpTo(entries: seq<Entry>, n: nat)
    requires n <= |entries|
  {
    forall i, j | 0 <= i < j < n :: Lower(entries[i].name) != Lower(entries[j].name)
  }

  ghost predicate AllKnown(seen: seq<Seen>, paths: seq<seq<Str>>, n: nat)
    requires n <= |paths|
  {
    forall i | 0 <= i < n :: KnowsUpTo(seen, paths[i], |paths[i]|)
  }

  // What the entry loop has established after `n` entries.
  ghost predicate Checked(entries: seq<Entry>, limits: Limits, n: nat, total: nat, paths: map<Str, Kind>,
                          trie: Trie, seen: seq<Seen>) {
    && n <= |entries| && |entries| <= limits.maxEntries
    && EntriesOk(entries, limits, n) && DistinctUpTo(entries, n) && Names(entries, n, paths)
    && TrieOk(PathsOf(entries), n, trie, seen) && AllKnown(seen, PathsOf(entries), n)
    && total == Total(entries[..n]) <= limits.maxTotalBytes
  }

  lemma NothingChecked(entries: seq<Entry>, limits: Limits)
    requires |entries| <= limits.maxEntries
    ensures Checked(entries, limits, 0, 0, map[], map[], [])
  {
  }

  lemma AllChecked(entries: seq<Entry>, limits: Limits, total: nat, paths: map<Str, Kind>, trie: Trie, seen: seq<Seen>)
    requires Checked(entries, limits, |entries|, total, paths, trie, seen)
    ensures Admissible(entries, limits) <==> forall p | p in paths :: Open(paths, p)
    ensures Admissible(entries, limits) || Unsafe(entries, limits)
    ensures total == Total(entries)
  {
    hide TrieOk, KnowsUpTo, EntryOk;
    assert entries[..|entries|] == entries;
    assert forall e | e in entries :: EntryOk(e, limits);
    assert AllKnown(seen, PathsOf(entries), |PathsOf(entries)|);
    KnownIsOneSpelling(PathsOf(entries), trie, seen);
    assert UniqueNames(entries);
    OpenIsNoFileAbove(entries, paths);
  }

  lemma OneMoreChecked(entries: seq<Entry>, limits: Limits, n: nat, total: nat, paths: map<Str, Kind>,
                       trie: Trie, seen: seq<Seen>, trie': Trie, seen': seq<Seen>)
    requires Checked(entries, limits, n, total, paths, trie, seen) && n < |entries|
    requires EntryOk(entries[n], limits) && Lower(entries[n].name) !in paths
    requires TrieOk(PathsOf(entries), n + 1, trie', seen') && seen <= seen'
    requires KnowsUpTo(seen', PathsOf(entries)[n], |PathsOf(entries)[n]|)
    requires total + entries[n].expandedBytes <= limits.maxTotalBytes
    ensures Checked(entries, limits, n + 1, total + entries[n].expandedBytes,
                    paths[Lower(entries[n].name) := entries[n].kind], trie', seen')
  {
    hide TrieOk, EntryOk, KnowsUpTo, PathsOf, AllKnown, DistinctUpTo, EntriesOk, Names, Lower, Total;
    OneMoreTotal(entries, n);
    OneMoreKnown(seen, seen', PathsOf(entries), n);
    EntriesGrow(entries, limits, n);
    DistinctGrow(entries, n, paths);
    NamesGrow(entries, n, paths);
  }

  lemma EntriesGrow(entries: seq<Entry>, limits: Limits, n: nat)
    requires n < |entries| && EntriesOk(entries, limits, n) && EntryOk(entries[n], limits)
    ensures EntriesOk(entries, limits, n + 1)
  {
    hide EntryOk;
  }

  lemma DistinctGrow(entries: seq<Entry>, n: nat, paths: map<Str, Kind>)
    requires n < |entries| && DistinctUpTo(entries, n) && Names(entries, n, paths) && Lower(entries[n].name) !in paths
    ensures DistinctUpTo(entries, n + 1)
  {
    hide Lower;
  }

  lemma OneMoreTotal(entries: seq<Entry>, n: nat)
    requires n < |entries|
    ensures Total(entries[..n + 1]) == Total(entries[..n]) + entries[n].expandedBytes <= Total(entries)
  {
    assert entries[..n + 1][..n] == entries[..n];
    TotalMonotone(entries, n + 1);
  }

  lemma OneMoreKnown(seen: seq<Seen>, seen': seq<Seen>, paths: seq<seq<Str>>, n: nat)
    requires seen <= seen' && n < |paths| && AllKnown(seen, paths, n) && KnowsUpTo(seen', paths[n], |paths[n]|)
    ensures AllKnown(seen', paths, n + 1)
  {
    hide KnowsUpTo;
    forall i | 0 <= i < n ensures KnowsUpTo(seen', paths[i], |paths[i]|) {
      StillKnown(seen, seen', paths[i], |paths[i]|);
    }
  }

  // A name seen before, case aside.
  lemma RepeatedName(entries: seq<Entry>, limits: Limits, n: nat, paths: map<Str, Kind>)
    requires n < |entries| && Names(entries, n, paths) && Lower(entries[n].name) in paths
    ensures Unsafe(entries, limits)
  {
    var i :| 0 <= i < n && Lower(entries[i].name) == Lower(entries[n].name);
    assert !UniqueNames(entries);
  }

  lemma BadEntry(entries: seq<Entry>, limits: Limits, n: nat)
    requires n < |entries|
    ensures !PathOk(entries[n].name, limits.maxPathBytes) ==> Unsafe(entries, limits)
    ensures !PortableName(entries[n].name) ==> Unsafe(entries, limits)
    ensures !(entries[n].kind.RegularFile? || entries[n].kind.Directory?) ==> Unsafe(entries, limits)
    ensures entries[n].kind.Directory? && entries[n].expandedBytes != 0 ==> Unsafe(entries, limits)
    ensures |Comps(entries[n].name)| > MaxDepth ==> OverLimit(entries, limits)
    ensures entries[n].expandedBytes > limits.maxEntryBytes ==> OverLimit(entries, limits)
  {
    assert entries[n] in entries;
  }

  lemma NamesGrow(entries: seq<Entry>, n: nat, paths: map<Str, Kind>)
    requires n < |entries| && Names(entries, n, paths) && Lower(entries[n].name) !in paths
    ensures Names(entries, n + 1, paths[Lower(entries[n].name) := entries[n].kind])
  {
    var m, paths' := n + 1, paths[Lower(entries[n].name) := entries[n].kind];
    forall p | p in paths' ensures exists i :: 0 <= i < m && Lower(entries[i].name) == p {
      if p != Lower(entries[n].name) {
        var i :| 0 <= i < n && Lower(entries[i].name) == p;
      }
    }
  }

  // `validate_archive_inventory`: accepts exactly the admissible inventories, with their
  // total size; says `TooLarge` only over a limit and `UnsafeEntryPath` only over a name or kind.
  method ValidateInventory(entries: seq<Entry>, limits: Limits) returns (r: Result<nat, SourceError>)
    ensures r.Ok? <==> Admissible(entries, limits)
    ensures r.Ok? ==> r.value == Total(entries) && forall e | e in entries :: EntrySays(e, limits)
    ensures r == Err(TooLarge) ==> OverLimit(entries, limits)
    ensures r.Err? ==> r.error.TooLarge? || (r.error.UnsafeEntryPath? && Unsafe(entries, limits))
    ensures r == Policy(entries, limits)
  {
    hide SpellFrom, Open, PathOk, PortableName, TrieOk, KnowsUpTo, Names, Unsafe, Admissible, Comps, EntriesOk,
      DistinctUpTo, AllKnown, EntrySays;
    AdmissibleSplits(entries, limits);
    AdmittedNames(entries, limits);
    if |entries| > limits.maxEntries { return Err(TooLarge); }
    var total: nat := 0;
    var paths: map<Str, Kind> := map[];
    var components: Trie := map[];
    ghost var seen: seq<Seen> := [];
    var n := 0;
    NothingChecked(entries, limits);
    while n < |entries|
      invariant Checked(entries, limits, n, total, paths, components, seen)
      invariant PolicyFrom(entries, limits, 0, 0, map[], map[]) ==
          PolicyFrom(entries, limits, n, total, paths, components)
    {
      var entry := entries[n];
      BadEntry(entries, limits, n);
      if !PathOk(entry.name, limits.maxPathBytes) { return Err(UnsafeEntryPath); }
      if !PortableName(entry.name) { return Err(UnsafeEntryPath); }
      if !(entry.kind.RegularFile? || entry.kind.Directory?) { return Err(UnsafeEntryPath); }
      ghost var trie0, seen0, paths0 := components, seen, paths;
      var error;
      error, components, seen := SpellComponents(PathsOf(entries), n, components, seen, Comps(entry.name));
      if error.Some? {
        if error.value.UnsafeEntryPath? { MixedSpelling(entries, limits); }
        return Err(error.value);
      }
      if Lower(entry.name) in paths {
        RepeatedName(entries, limits, n, paths);
        return Err(UnsafeEntryPath);
      }
      paths := paths[Lower(entry.name) := entry.kind];
      if entry.kind.Directory? && entry.expandedBytes != 0 { return Err(UnsafeEntryPath); }
      if entry.expandedBytes > limits.maxEntryBytes { return Err(TooLarge); }
      OneMoreTotal(entries, n);
      if total + entry.expandedBytes >= TwoTo64 { return Err(TooLarge); }
      if total + entry.expandedBytes > limits.maxTotalBytes { return Err(TooLarge); }
      OneMoreChecked(entries, limits, n, total, paths0, trie0, seen0, components, seen);
      total := total + entry.expandedBytes;
      n := n + 1;
    }
    AllChecked(entries, limits, total, paths, components, seen);
    var ok := CheckAncestors(paths);
    return if ok then Ok(total) else Err(UnsafeEntryPath);
  }

  lemma MixedSpelling(entries: seq<Entry>, limits: Limits)
    ensures !OneSpelling(PathsOf(entries)) ==> Unsafe(entries, limits)
  {
  }

  // ----- the order of the entries does not matter ------------------------------------------------

  lemma {:induction false} TotalWithout(entries: seq<Entry>, k: nat)
    requires k < |entries|
    ensures Total(entries) == Total(entries[..k] + entries[k + 1..]) + entries[k].expandedBytes
    decreases |entries|
  {
    var n := |entries| - 1;
    if k < n {
      TotalWithout(entries[..n], k);
      assert (entries[..k] + entries[k + 1..])[..n - 1] == entries[..n][..k] + entries[..n][k + 1..];
    } else {
      assert entries[..k] + entries[k + 1..] == entries[..n];
    }
  }

  lemma {:induction false} TotalPermutes(a: seq<Entry>, b: seq<Entry>)
    requires multiset(a) == multiset(b)
    ensures Total(a) == Total(b)
    decreases |a|
  {
    if a == [] {
      assert |multiset(b)| == 0;
    } else {
      var n := |a| - 1;
      var k := SameRest(a, b, n);
      assert a[..n] + a[n + 1..] == a[..n];
      TotalPermutes(a[..n], b[..k] + b[k + 1..]);
      TotalWithout(b, k);
    }
  }

  lemma UniquePermutes(a: seq<Entry>, b: seq<Entry>)
    requires multiset(a) == multiset(b) && UniqueNames(a)
    ensures UniqueNames(b)
  {
    var folded := (e: Entry) => Lower(e.name);
    DistinctPermutes(a, b, folded);
    forall i, j | 0 <= i < j < |b| ensures Lower(b[i].name) != Lower(b[j].name) {
      assert folded(b[i]) != folded(b[j]);
    }
  }

  // Acceptance, and the accepted total, are the same for every order of the entries.
  lemma AdmissiblePermutes(a: seq<Entry>, b: seq<Entry>, limits: Limits)
    requires multiset(a) == multiset(b)
    ensures Admissible(a, limits) <==> Admissible(b, limits)
    ensures Total(a) == Total(b)
  {
    TotalPermutes(a, b);
    if Admissible(a, limits) { AdmissibleOneWay(a, b, limits); }
    if Admissible(b, limits) { AdmissibleOneWay(b, a, limits); }
  }

  lemma AdmissibleOneWay(a: seq<Entry>, b: seq<Entry>, limits: Limits)
    requires multiset(a) == multiset(b) && Admissible(a, limits)
    ensures Admissible(b, limits)
  {
    TotalPermutes(a, b);
    UniquePermutes(a, b);
    assert |a| == |multiset(a)| == |b|;
    forall e | e in b ensures e in a { assert e in multiset(a); }
    forall p | p in PathsOf(b) ensures p in PathsOf(a) {
      var i :| 0 <= i < |b| && PathsOf(b)[i] == p;
      assert b[i] in a;
      var j :| 0 <= j < |a| && a[j] == b[i];
      assert PathsOf(a)[j] == p;
    }
  }
}
