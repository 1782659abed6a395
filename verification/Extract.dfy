// Extraction of a snapshot below a directory. For an admitted inventory and an empty target
// it can only fail by a failing system call, whether or not the target tells names apart by
// case, and it makes exactly the tree that the inventory describes.
module Extract {
  import opened Prelude
  import opened Bytes
  import opened EntryNames
  import opened ArchivePolicy
  import opened Ustar
  import opened UstarRoundTrip
  import opened VerifiedUstar
  import opened Faults
  import opened DirectoryTree

  datatype ExtractError = InvalidSource(error: SourceError) | UnsafeTarget | CallFailed(errno: Errno)

  // ----- the tree an inventory describes ------------------------------------------------------

  // Every listed name and every directory above one; files with their bytes.
  ghost predicate Intended(s: Snapshot, nodes: map<Path, Object>) {
    && (forall p :: p in nodes <==> p != [] && exists e :: e in s.entries && p <= Comps(e.name))
    && (forall e | e in s.entries && Comps(e.name) in nodes ::
          nodes[Comps(e.name)] ==
            if e.kind.RegularFile? && FileBytes(s, e.name).Some? then File(FileBytes(s, e.name).value) else Folder)
    && (forall e, p | e in s.entries && p in nodes && p < Comps(e.name) :: nodes[p] == Folder)
  }

  // The tree does not depend on the order of the entries.
  lemma IntendedOnce(s: Snapshot, t: Snapshot, nodes: map<Path, Object>, nodes': map<Path, Object>)
    requires Intended(s, nodes) && Intended(t, nodes')
    requires multiset(s.entries) == multiset(t.entries)
    requires forall e | e in s.entries :: FileBytes(s, e.name) == FileBytes(t, e.name)
    ensures nodes == nodes'
  {
    hide FileBytes, Comps;
    forall e ensures e in s.entries <==> e in t.entries {
      assert e in s.entries <==> e in multiset(s.entries);
      assert e in t.entries <==> e in multiset(t.entries);
    }
    forall p ensures p in nodes <==> p in nodes' { SamePaths(s, t, nodes, nodes', p); }
    forall p | p in nodes ensures nodes[p] == nodes'[p] {
      var e :| e in s.entries && p <= Comps(e.name);
      SameObject(s, t, nodes, nodes', p, e);
    }
  }

  lemma SamePaths(s: Snapshot, t: Snapshot, nodes: map<Path, Object>, nodes': map<Path, Object>, p: Path)
    requires Intended(s, nodes) && Intended(t, nodes')
    requires forall e :: e in s.entries <==> e in t.entries
    ensures p in nodes <==> p in nodes'
  {
    hide FileBytes, Comps;
    if p in nodes {
      var e :| e in s.entries && p <= Comps(e.name);
      assert e in t.entries;
    }
    if p in nodes' {
      var e :| e in t.entries && p <= Comps(e.name);
      assert e in s.entries;
    }
  }

  lemma SameObject(s: Snapshot, t: Snapshot, nodes: map<Path, Object>, nodes': map<Path, Object>, p: Path, e: Entry)
    requires Intended(s, nodes) && Intended(t, nodes') && p in nodes && p in nodes'
    requires e in s.entries && e in t.entries && p <= Comps(e.name) && FileBytes(s, e.name) == FileBytes(t, e.name)
    ensures nodes[p] == nodes'[p]
  {
    hide FileBytes, Comps;
    if p == Comps(e.name) {
      assert nodes[Comps(e.name)] == nodes'[Comps(e.name)];
    } else {
      assert p < Comps(e.name);
    }
  }

  // ----- names and paths ---------------------------------------------------------------------------

  lemma {:induction false} JoinAppend(a: seq<Str>, b: seq<Str>)
    requires a != [] && b != []
    ensures Join(a + b, SLASH) == Join(a, SLASH) + [SLASH] + Join(b, SLASH)
  {
    if |a| > 1 {
      JoinAppend(a[1..], b);
      assert (a + b)[1..] == a[1..] + b;
    } else {
      assert (a + b)[1..] == b;
    }
  }

  lemma CompsApart(a: Str, b: Str)
    ensures Comps(a) == Comps(b) ==> a == b
    ensures Comps(a) < Comps(b) ==> |a| < |b| && b[|a|] == SLASH && b[..|a|] == a
  {
    JoinSplit(a, SLASH);
    JoinSplit(b, SLASH);
    if Comps(a) < Comps(b) {
      var rest := Comps(b)[|Comps(a)|..];
      assert Comps(b) == Comps(a) + rest;
      JoinAppend(Comps(a), rest);
    }
  }

  // No other entry lies at or below a regular file.
  lemma FileIsLeaf(entries: seq<Entry>, limits: Limits, i: nat, j: nat)
    requires Admissible(entries, limits) && i < |entries| && j < |entries|
    requires !entries[i].kind.Directory? && Comps(entries[i].name) <= Comps(entries[j].name)
    ensures i == j
  {
    hide EntryOk, OneSpelling, Comps;
    var e, f := entries[i], entries[j];
    CompsApart(e.name, f.name);
    if Comps(e.name) < Comps(f.name) { FileAboveIt(e, f); }
  }

  lemma FileAboveIt(e: Entry, f: Entry)
    requires !e.kind.Directory? && Comps(e.name) < Comps(f.name)
    ensures FileAbove(e, f)
  {
    CompsApart(e.name, f.name);
    assert f.name[|e.name|] == SLASH && Lower(f.name[..|e.name|]) == Lower(e.name);
  }

  // ----- the tree after `n` entries and `k` components of the next ------------------------------------

  ghost predicate Made(entries: seq<Entry>, n: nat, k: nat, p: Path)
    requires n <= |entries|
  {
    p != [] && ((exists i :: 0 <= i < n && p <= Comps(entries[i].name))
                || (n < |entries| && |p| <= k && p <= Comps(entries[n].name)))
  }

  ghost predicate HasFile(entries: seq<Entry>, n: nat, p: Path)
    requires n <= |entries|
  {
    exists i :: 0 <= i < n && entries[i].kind.RegularFile? && Comps(entries[i].name) == p
  }

  ghost predicate Built(s: Snapshot, n: nat, k: nat, nodes: map<Path, Object>, created: set<Str>) {
    && n <= |s.entries|
    && (forall p :: p in nodes <==> Made(s.entries, n, k, p))
    && (forall p | p in nodes :: nodes[p].Folder? <==> !HasFile(s.entries, n, p))
    && (forall i | 0 <= i < n && s.entries[i].kind.RegularFile? && Comps(s.entries[i].name) in nodes ::
          FileBytes(s, s.entries[i].name).Some?
          && nodes[Comps(s.entries[i].name)] == File(FileBytes(s, s.entries[i].name).value))
    && (forall p | p in nodes && nodes[p].Folder? :: Join(p, SLASH) in created)
  }

  lemma SameFold(a: Path, b: Path, k: nat)
    requires SpelledAlike(a, b) && k < |a| && k < |b| && a[..k] == b[..k] && Lower(a[k]) == Lower(b[k])
    ensures a[..k + 1] == b[..k + 1]
  {
    LowerAllSnoc(a[..k], a[k]);
    LowerAllSnoc(b[..k], b[k]);
    assert a[..k + 1] == a[..k] + [a[k]] && b[..k + 1] == b[..k] + [b[k]];
  }

  // Whatever answers to a name that is about to be made has its very spelling.
  lemma AnswersAlike(s: Snapshot, limits: Limits, n: nat, d: nat, k: nat, nodes: map<Path, Object>, created: set<Str>,
      q: Path)
    requires Admissible(s.entries, limits) && n < |s.entries| && Built(s, n, d, nodes, created)
    requires k < |Comps(s.entries[n].name)| && q in nodes && |q| == k + 1 && q[..k] == Comps(s.entries[n].name)[..k]
    requires Lower(q[k]) == Lower(Comps(s.entries[n].name)[k])
    ensures q == Comps(s.entries[n].name)[..k + 1]
  {
    hide EntryOk, FileBytes, HasFile, UniqueNames, NoFileAbove, Comps, Lower, SpelledAlike;
    assert Made(s.entries, n, d, q);
    var j :| 0 <= j <= n && q <= Comps(s.entries[j].name);
    assert PathsOf(s.entries)[j] in PathsOf(s.entries) && PathsOf(s.entries)[n] in PathsOf(s.entries);
    SameFold(Comps(s.entries[j].name), Comps(s.entries[n].name), k);
  }

  lemma AnswersAre(target: Tree, s: Snapshot, limits: Limits, n: nat, d: nat, k: nat, created: set<Str>)
    requires Admissible(s.entries, limits) && n < |s.entries| && Built(s, n, d, target.nodes, created)
    requires k < |Comps(s.entries[n].name)|
    ensures var comps := Comps(s.entries[n].name); var answers := target.Answers(comps[..k], comps[k]);
      && (forall q | q in answers :: q == comps[..k + 1])
      && (answers == {} <==> comps[..k + 1] !in target.nodes)
  {
    hide Admissible, Built, Comps;
    var comps := Comps(s.entries[n].name);
    var answers := target.Answers(comps[..k], comps[k]);
    forall q | q in answers ensures q == comps[..k + 1] { AnswersAlike(s, limits, n, d, k, target.nodes, created, q); }
    if comps[..k + 1] in target.nodes { assert comps[..k + 1] in answers; }
  }

  // The directories down to depth `k` are open for the next component.
  lemma ParentIsFolder(s: Snapshot, limits: Limits, n: nat, k: nat, nodes: map<Path, Object>, created: set<Str>, d: nat)
    requires Admissible(s.entries, limits) && n < |s.entries| && Built(s, n, k, nodes, created)
    requires 0 < d <= |Comps(s.entries[n].name)| && Comps(s.entries[n].name)[..d] in nodes
    requires d < |Comps(s.entries[n].name)| || s.entries[n].kind.Directory?
    ensures nodes[Comps(s.entries[n].name)[..d]] == Folder && Join(Comps(s.entries[n].name)[..d], SLASH) in created
  {
    hide Admissible, Comps, Made;
    var p := Comps(s.entries[n].name)[..d];
    if HasFile(s.entries, n, p) {
      var i :| 0 <= i < n && s.entries[i].kind.RegularFile? && Comps(s.entries[i].name) == p;
      FileIsLeaf(s.entries, limits, i, n);
    }
  }

  lemma MadeOneMore(entries: seq<Entry>, n: nat, k: nat, m: nat, p: Path)
    requires n < |entries| && m == k + 1 <= |Comps(entries[n].name)|
    ensures Made(entries, n, m, p) <==> Made(entries, n, k, p) || p == Comps(entries[n].name)[..m]
  {
    hide Comps;
  }

  lemma FolderMade(s: Snapshot, n: nat, k: nat, m: nat, nodes: map<Path, Object>, created: set<Str>)
    requires n < |s.entries| && Built(s, n, k, nodes, created) && m == k + 1 <= |Comps(s.entries[n].name)|
    requires Comps(s.entries[n].name)[..m] !in nodes
    ensures var p := Comps(s.entries[n].name)[..m];
      Built(s, n, m, nodes[p := Folder], created + {Join(p, SLASH)})
  {
    hide Comps, FileBytes, Made;
    var p := Comps(s.entries[n].name)[..m];
    forall x ensures x in nodes[p := Folder] <==> Made(s.entries, n, m, x) { MadeOneMore(s.entries, n, k, m, x); }
    FilesAreMade(s.entries, n, k, p);
  }

  lemma FilesAreMade(entries: seq<Entry>, n: nat, k: nat, p: Path)
    requires n <= |entries|
    ensures HasFile(entries, n, p) ==> Made(entries, n, k, p)
  {
  }

  lemma FolderKnown(s: Snapshot, n: nat, k: nat, m: nat, nodes: map<Path, Object>, created: set<Str>)
    requires n < |s.entries| && Built(s, n, k, nodes, created) && m == k + 1 <= |Comps(s.entries[n].name)|
    requires Comps(s.entries[n].name)[..m] in nodes
    ensures Built(s, n, m, nodes, created)
  {
    hide Comps, FileBytes, Made;
    forall x ensures x in nodes <==> Made(s.entries, n, m, x) { MadeOneMore(s.entries, n, k, m, x); }
  }

  lemma MadeNext(entries: seq<Entry>, n: nat, k: nat, m: nat, p: Path)
    requires n < |entries| && m == n + 1 && k == |Comps(entries[n].name)|
    ensures Made(entries, m, 0, p) <==> Made(entries, n, k, p)
  {
    hide Comps;
    if Made(entries, m, 0, p) {
      var i :| 0 <= i < m && p <= Comps(entries[i].name);
    }
  }

  // A directory entry is done when its components are.
  lemma DirectoryDone(s: Snapshot, n: nat, k: nat, m: nat, nodes: map<Path, Object>, created: set<Str>)
    requires n < |s.entries| && s.entries[n].kind.Directory? && Built(s, n, k, nodes, created)
    requires k == |Comps(s.entries[n].name)| && m == n + 1
    ensures Built(s, m, 0, nodes, created)
  {
    hide Comps, FileBytes, Made;
    forall x ensures x in nodes <==> Made(s.entries, m, 0, x) { MadeNext(s.entries, n, k, m, x); }
    forall x ensures HasFile(s.entries, m, x) <==> HasFile(s.entries, n, x) { }
  }

  // The place of a file is free when its turn comes.
  lemma FileIsFree(s: Snapshot, limits: Limits, n: nat, k: nat, nodes: map<Path, Object>, created: set<Str>)
    requires Admissible(s.entries, limits) && n < |s.entries| && Built(s, n, k, nodes, created)
    requires !s.entries[n].kind.Directory? && k < |Comps(s.entries[n].name)|
    ensures Comps(s.entries[n].name) !in nodes
  {
    hide Admissible, Comps, HasFile, FileBytes;
    var p := Comps(s.entries[n].name);
    if Made(s.entries, n, k, p) {
      var i :| 0 <= i < n && p <= Comps(s.entries[i].name);
      FileIsLeaf(s.entries, limits, n, i);
    }
  }

  lemma FileMade(s: Snapshot, n: nat, k: nat, m: nat, nodes: map<Path, Object>, created: set<Str>, bytes: Str)
    requires n < |s.entries| && s.entries[n].kind.RegularFile? && Built(s, n, k, nodes, created)
    requires k + 1 == |Comps(s.entries[n].name)| && m == n + 1 && Comps(s.entries[n].name) !in nodes
    requires FileBytes(s, s.entries[n].name) == Some(bytes)
    ensures Built(s, m, 0, nodes[Comps(s.entries[n].name) := File(bytes)], created)
  {
    hide Comps, FileBytes, Made;
    var p := Comps(s.entries[n].name);
    var nodes' := nodes[p := File(bytes)];
    forall x ensures x in nodes' <==> Made(s.entries, m, 0, x) {
      MadeOneMore(s.entries, n, k, k + 1, x);
      MadeNext(s.entries, n, k + 1, m, x);
      assert p[..k + 1] == p;
    }
    forall x ensures HasFile(s.entries, m, x) <==> HasFile(s.entries, n, x) || x == p {
      if HasFile(s.entries, m, x) {
        var i :| 0 <= i < m && s.entries[i].kind.RegularFile? && Comps(s.entries[i].name) == x;
      }
      if x == p { assert s.entries[n].kind.RegularFile? && Comps(s.entries[n].name) == x; }
    }
    FilesAreMade(s.entries, n, k, p);
  }

  lemma NothingBuilt(s: Snapshot)
    ensures Built(s, 0, 0, map[], {})
  {
  }

  lemma AllBuilt(s: Snapshot, limits: Limits, nodes: map<Path, Object>, created: set<Str>)
    requires Admissible(s.entries, limits) && Built(s, |s.entries|, 0, nodes, created)
    ensures Intended(s, nodes)
  {
    hide Admissible, Comps, FileBytes;
    forall p ensures p in nodes <==> p != [] && exists e :: e in s.entries && p <= Comps(e.name) {
      if p != [] && exists e :: e in s.entries && p <= Comps(e.name) {
        var e :| e in s.entries && p <= Comps(e.name);
        var i :| 0 <= i < |s.entries| && s.entries[i] == e;
        assert Made(s.entries, |s.entries|, 0, p);
      }
    }
    forall e, p | e in s.entries && p in nodes && p <= Comps(e.name) && (p < Comps(e.name) || !e.kind.RegularFile?)
      ensures nodes[p] == Folder
    {
      NotAFile(s, limits, nodes, created, e, p);
    }
  }

  lemma NotAFile(s: Snapshot, limits: Limits, nodes: map<Path, Object>, created: set<Str>, e: Entry, p: Path)
    requires Admissible(s.entries, limits) && Built(s, |s.entries|, 0, nodes, created)
    requires e in s.entries && p in nodes && p <= Comps(e.name) && (p < Comps(e.name) || !e.kind.RegularFile?)
    ensures nodes[p] == Folder
  {
    hide Admissible, Comps, FileBytes, Made;
    if HasFile(s.entries, |s.entries|, p) {
      var i :| 0 <= i < |s.entries| && s.entries[i].kind.RegularFile? && Comps(s.entries[i].name) == p;
      var j :| 0 <= j < |s.entries| && s.entries[j] == e;
      FileIsLeaf(s.entries, limits, i, j);
    }
  }

  // ----- the extractor --------------------------------------------------------------------------------

  // Every regular file of the inventory can be read from the snapshot, at its size.
  ghost predicate Readable(s: Snapshot) {
    forall e | e in s.entries && e.kind.RegularFile? ::
      FileBytes(s, e.name).Some? && |FileBytes(s, e.name).value| == e.expandedBytes
  }

  lemma ExposedIsReadable(s: Snapshot, ms: seq<Member>, limits: Limits)
    requires Exposes(s, ms, limits)
    ensures Readable(s)
  {
    hide FileBytes, ReadHeader, Concat, Admissible;
    forall e | e in s.entries && e.kind.RegularFile?
      ensures FileBytes(s, e.name).Some? && |FileBytes(s, e.name).value| == e.expandedBytes
    {
      var i :| 0 <= i < |s.entries| && s.entries[i] == e;
      assert MemberOk(ms[i], e, limits);
    }
  }

  // `ensure_subdirectory`: a directory that exists already must be one of this extraction.
  method EnsureSubdirectory(target: Tree, parent: Path, component: Str, relativePath: Str, created: set<Str>)
    returns (r: Result<Path, ExtractError>, created': set<Str>)
    requires target.IsFolder(parent)
    modifies target
    ensures Calm(old(target.faults)) ==> Calm(target.faults)
    ensures r == Err(CallFailed(Fault)) ==> !Calm(old(target.faults))
    ensures r.Ok? && old(target.Answers(parent, component)) == {} ==>
      target.nodes == old(target.nodes)[parent + [component] := Folder] && created' == created + {relativePath}
    ensures r.Ok? && old(target.Answers(parent, component)) != {} ==>
      target.nodes == old(target.nodes) && created' == created && relativePath in created
    ensures r.Ok? ==> target.IsFolder(r.value) && r.value in target.Answers(parent, component)
    ensures r == Err(UnsafeTarget) ==> old(target.Answers(parent, component)) != {} && relativePath !in created
    ensures r.Err? && r != Err(UnsafeTarget) && r != Err(CallFailed(Fault)) ==>
      exists q | q in old(target.Answers(parent, component)) :: !old(target.IsFolder(q))
  {
    created' := created;
    var made := target.MkdirAt(parent, component);
    match made {
      case None =>
        created' := created + {relativePath};
        assert parent + [component] in target.Answers(parent, component);
      case Some(Exist) =>
        if relativePath !in created { return Err(UnsafeTarget), created'; }
      case Some(e) => return Err(CallFailed(e)), created';
    }
    var folder := target.OpenDirectoryAt(parent, component);
    match folder {
      case Ok(q) => return Ok(q), created';
      case Err(e) =>
        if !e.Fault? {
          ghost var q :| q in target.Answers(parent, component) && !target.IsFolder(q);
          assert q in old(target.Answers(parent, component)) && !old(target.IsFolder(q));
        }
        return Err(CallFailed(e)), created';
    }
  }

  // One step of the component loop, at a component that must be a directory.
  method DescendInto(s: Snapshot, ghost limits: Limits, n: nat, ghost k: nat, target: Tree,
                     parent: Path, component: Str, relativePath: Str, created: set<Str>)
    returns (r: Result<Path, ExtractError>, created': set<Str>)
    requires Admissible(s.entries, limits) && n < |s.entries| && Built(s, n, k, target.nodes, created)
    requires k < |Comps(s.entries[n].name)| && component == Comps(s.entries[n].name)[k]
    requires k + 1 < |Comps(s.entries[n].name)| || s.entries[n].kind.Directory?
    requires parent == Comps(s.entries[n].name)[..k] && relativePath == Join(Comps(s.entries[n].name)[..k + 1], SLASH)
    requires target.IsFolder(parent)
    modifies target
    ensures Calm(old(target.faults)) ==> Calm(target.faults)
    ensures r.Err? ==> r == Err(CallFailed(Fault)) && !Calm(old(target.faults))
    ensures r.Ok? ==> r.value == Comps(s.entries[n].name)[..k + 1] && target.IsFolder(r.value)
    ensures r.Ok? ==> Built(s, n, k + 1, target.nodes, created')
  {
    hide Admissible, Built, Comps, Calm, Join;
    ghost var comps, nodes := Comps(s.entries[n].name), target.nodes;
    ghost var p := comps[..k + 1];
    assert p == parent + [component];
    AnswersAre(target, s, limits, n, k, k, created);
    if p in nodes {
      ParentIsFolder(s, limits, n, k, nodes, created, k + 1);
      FolderKnown(s, n, k, k + 1, nodes, created);
    } else {
      FolderMade(s, n, k, k + 1, nodes, created);
    }
    r, created' := EnsureSubdirectory(target, parent, component, relativePath, created);
    if r.Ok? { AnswersAre(target, s, limits, n, k + 1, k, created'); }
  }

  // The final component of a regular file.
  method WriteFile(s: Snapshot, limits: Limits, n: nat, ghost k: nat, target: Tree,
                   parent: Path, component: Str, ghost created: set<Str>, written: nat)
    returns (r: Result<nat, ExtractError>)
    requires Admissible(s.entries, limits) && Readable(s) && n < |s.entries| && Built(s, n, k, target.nodes, created)
    requires k + 1 == |Comps(s.entries[n].name)| && component == Comps(s.entries[n].name)[k]
    requires !s.entries[n].kind.Directory? && parent == Comps(s.entries[n].name)[..k] && target.IsFolder(parent)
    requires written == Total(s.entries[..n])
    modifies target
    ensures Calm(old(target.faults)) ==> Calm(target.faults)
    ensures r.Err? ==> r == Err(CallFailed(Fault)) && !Calm(old(target.faults))
    ensures r.Ok? ==> r.value == Total(s.entries[..n + 1]) && Built(s, n + 1, 0, target.nodes, created)
  {
    hide Admissible, Built, Comps, Calm, Join;
    var entry := s.entries[n];
    AdmittedEntry(s.entries, limits, n);
    if !entry.kind.RegularFile? { return Err(InvalidSource(UnsafeEntryPath)); }
    var found := FileBytes(s, entry.name);
    if found.None? { return Err(InvalidSource(UnsafeEntryPath)); }
    var bytes := found.value;
    if |bytes| != entry.expandedBytes { return Err(InvalidSource(IdentityMismatch)); }
    if written + |bytes| >= TwoTo64 { return Err(InvalidSource(TooLarge)); }
    if written + |bytes| > limits.maxTotalBytes || |bytes| > limits.maxEntryBytes {
      return Err(InvalidSource(TooLarge));
    }
    FileIsFree(s, limits, n, k, target.nodes, created);
    AnswersAre(target, s, limits, n, k, k, created);
    FileMade(s, n, k, n + 1, target.nodes, created, bytes);
    assert Comps(entry.name)[..k + 1] == Comps(entry.name) == parent + [component];
    var wrote := target.WriteNewFileAt(parent, component, bytes);
    match wrote {
      case None => return Ok(written + |bytes|);
      case Some(e) => return Err(CallFailed(e));
    }
  }

  lemma AdmittedEntry(entries: seq<Entry>, limits: Limits, n: nat)
    requires Admissible(entries, limits) && n < |entries|
    ensures Total(entries[..n + 1]) == Total(entries[..n]) + entries[n].expandedBytes
    ensures Total(entries[..n + 1]) <= limits.maxTotalBytes && entries[n].expandedBytes <= limits.maxEntryBytes
    ensures entries[n].kind.RegularFile? || (entries[n].kind.Directory? && entries[n].expandedBytes == 0)
    ensures PathOk(entries[n].name, limits.maxPathBytes)
  {
    hide PathOk, PortableName, OneSpelling, UniqueNames, NoFileAbove;
    assert entries[n] in entries;
    OneMoreTotal(entries, n);
  }

  // All components of one entry.
  method ExtractEntry(s: Snapshot, limits: Limits, n: nat, target: Tree, created: set<Str>, written: nat)
    returns (r: Result<nat, ExtractError>, created': set<Str>)
    requires Admissible(s.entries, limits) && Readable(s) && n < |s.entries| && Built(s, n, 0, target.nodes, created)
    requires written == Total(s.entries[..n])
    modifies target
    ensures Calm(old(target.faults)) ==> Calm(target.faults)
    ensures r.Err? ==> r == Err(CallFailed(Fault)) && !Calm(old(target.faults))
    ensures r.Ok? ==> r.value == Total(s.entries[..n + 1]) && Built(s, n + 1, 0, target.nodes, created')
  {
    hide Admissible, Built, Comps, Calm, Join, Readable;
    ghost var f := Calm(target.faults);
    created' := created;
    var entry := s.entries[n];
    var failed := target.Fails();
    if failed { return Err(CallFailed(Fault)), created'; }
    AdmittedEntry(s.entries, limits, n);
    var components := Comps(entry.name);
    var parent: Path, relativePath: Str, k := [], [], 0;
    while k < |components|
      invariant k <= |components| && (f ==> Calm(target.faults))
      invariant Built(s, n, k, target.nodes, created')
      invariant k == |components| ==> entry.kind.Directory?
      invariant parent == components[..k] && target.IsFolder(parent)
      invariant relativePath == if k == 0 then [] else Join(components[..k], SLASH)
    {
      var component := components[k];
      RelativePath(entry.name, limits.maxPathBytes, k);
      if relativePath != [] { relativePath := relativePath + [SLASH]; }
      relativePath := relativePath + component;
      if k + 1 < |components| || entry.kind.Directory? {
        var descended;
        descended, created' := DescendInto(s, limits, n, k, target, parent, component, relativePath, created');
        if descended.Err? { return Err(descended.error), created'; }
        parent := descended.value;
      } else {
        r := WriteFile(s, limits, n, k, target, parent, component, created', written);
        return r, created';
      }
      k := k + 1;
    }
    DirectoryDone(s, n, k, n + 1, target.nodes, created');
    return Ok(written), created';
  }

  // The relative path grows by a slash and a component.
  lemma RelativePath(name: Str, max: u64, k: nat)
    requires PathOk(name, max) && k < |Comps(name)|
    ensures k == 0 ==> Join(Comps(name)[..1], SLASH) == Comps(name)[0]
    ensures k > 0 ==> Join(Comps(name)[..k], SLASH) != []
    ensures k > 0 ==> Join(Comps(name)[..k + 1], SLASH) == Join(Comps(name)[..k], SLASH) + [SLASH] + Comps(name)[k]
  {
    var c := Comps(name);
    if k > 0 {
      assert c[..k + 1] == c[..k] + [c[k]];
      JoinAppend(c[..k], [c[k]]);
      assert c[0] in c && c[0] != [];
    }
  }

  // `extract_verified_ustar` on a snapshot that was read under the limits `made`. Into an empty
  // directory an admitted inventory extracts completely, unless a call fails; otherwise nothing
  // is written.
  method ExtractVerifiedUstar(s: Snapshot, ghost ms: seq<Member>, ghost made: Limits, target: Tree, limits: Limits)
    returns (r: Result<nat, ExtractError>)
    requires Exposes(s, ms, made)
    modifies target
    ensures !Admissible(s.entries, limits) ==> r.Err? && r.error.InvalidSource? && target.nodes == old(target.nodes)
    ensures Admissible(s.entries, limits) && old(target.nodes) != map[] ==>
      target.nodes == old(target.nodes) &&
      (r == Err(UnsafeTarget) || (r == Err(CallFailed(Fault)) && !Calm(old(target.faults))))
    ensures Admissible(s.entries, limits) && old(target.nodes) == map[] ==>
      if r.Ok? then r.value == Total(s.entries) && Intended(s, target.nodes)
      else r == Err(CallFailed(Fault)) && !Calm(old(target.faults))
  {
    hide Admissible, Built, Calm, Exposes, Intended, Readable;
    ghost var f := Calm(target.faults);
    var expected := ValidateInventory(s.entries, limits);
    if expected.Err? { return Err(InvalidSource(expected.error)); }
    var failed := target.Fails();
    if failed { return Err(CallFailed(Fault)); }
    if target.nodes != map[] { return Err(UnsafeTarget); }
    ExposedIsReadable(s, ms, made);
    var created: set<Str>, written: nat, n := {}, 0, 0;
    NothingBuilt(s);
    assert s.entries[..0] == [];
    while n < |s.entries|
      invariant n <= |s.entries| && (f ==> Calm(target.faults))
      invariant Built(s, n, 0, target.nodes, created) && written == Total(s.entries[..n])
    {
      var extracted;
      extracted, created := ExtractEntry(s, limits, n, target, created, written);
      if extracted.Err? { return Err(extracted.error); }
      written := extracted.value;
      n := n + 1;
    }
    assert s.entries[..n] == s.entries;
    AllBuilt(s, limits, target.nodes, created);
    if written != expected.value { return Err(InvalidSource(IdentityMismatch)); }
    return Ok(written);
  }

  // From files to an archive, through the lock, and back to files.
  lemma PackAndUnpack(items: seq<Item>, s: Snapshot, ms: seq<Member>, limits: Limits, max: u64,
      nodes: map<Path, Object>)
    requires AllEncodable(items) && Admissible(Inventory(items), limits)
    requires s.bytes == Encode(items) && |s.bytes| <= max && Exposes(s, ms, limits) &&
        Parse(s.bytes, limits, max) == Ok(s.entries)
    requires Intended(s, nodes)
    ensures forall m | m in items && m.kind.RegularFile? ::
      Comps(m.name) in nodes && nodes[Comps(m.name)] == File(m.data)
    ensures forall p :: p in nodes <==> p != [] && exists m :: m in items && p <= Comps(m.name)
  {
    hide Admissible, Encode, Parse, Exposes, FileBytes, Comps;
    SnapshotRoundTrip(items, s, ms, limits, max);
    forall m | m in items && m.kind.RegularFile?
      ensures Comps(m.name) in nodes && nodes[Comps(m.name)] == File(m.data)
    {
      var i :| 0 <= i < |items| && items[i] == m;
      assert Inventory(items)[i] in s.entries;
    }
    forall p ensures p in nodes <==> p != [] && exists m :: m in items && p <= Comps(m.name) {
      if p in nodes {
        var e :| e in s.entries && p <= Comps(e.name);
        var i :| 0 <= i < |items| && Inventory(items)[i] == e;
        assert items[i] in items;
      }
      if p != [] && exists m :: m in items && p <= Comps(m.name) {
        var m :| m in items && p <= Comps(m.name);
        var i :| 0 <= i < |items| && items[i] == m;
        assert Inventory(items)[i] in s.entries;
      }
    }
  }
}
