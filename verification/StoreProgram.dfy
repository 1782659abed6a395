// The operations of the store as programs, with the control flow of `begin`, `commit`, the drops
// and `recover_abandoned`, over a filesystem that is changed in place and whose calls may fail.
// Each call performs steps of the state machine, so what the machine proves of every interleaving
// holds for these programs; and each is proved here to do what its caller is promised.
module StoreProgram {
  import opened Prelude
  import opened OutputTree
  import opened TransactionIds
  import opened Faults
  import opened StoreCalls
  import opened StoreState
  import opened StoreInvariant
  import opened StorePreservation
  import opened StoreRuns
  import opened StoreLeases
  import opened StoreSafety

  // Nothing happened to the results, to the store lock or to what others gave up.
  ghost predicate Aside(s: State, s': State) { SameStory(s, s') && s'.lock == s.lock && s'.abandoned == s.abandoned }

  // What the invariant says at the places where the programs look at the filesystem.
  lemma StagedAt(s: State, a: Agent)
    requires Inv(s)
    ensures PcOf(s, a).CommitWait? ==> PcOf(s, a).h.id in s.staging
    ensures PcOf(s, a).CommitCheck? || PcOf(s, a).CommitMeta? || PcOf(s, a).CommitPlace? || PcOf(s, a).CommitRename? ==>
        PcOf(s, a).c.h.id in s.staging
    ensures PcOf(s, a).CommitRename? ==> PcOf(s, a).c.rid !in s.results
    ensures PcOf(s, a).Wipe? && PcOf(s, a).k.ForExisting? ==> PcOf(s, a).h.id in Dirs(s, PcOf(s, a).h.root)
    ensures PcOf(s, a).CommitVerify? ==>
      PcOf(s, a).c.rid in s.results && CompleteDir(s.results[PcOf(s, a).c.rid], PcOf(s, a).c.rid)
  {
    hide LockInv, HeldInv, LeaseInv, DirInv, CompleteDir, PublishedBy;
    assert AgentInv(s, a, PcOf(s, a));
    if PcOf(s, a).CommitVerify? { PlacedIsIntact(s, PcOf(s, a).c); }
  }

  // ----- clearing away -----------------------------------------------------------------------------------

  // Calls that only remove.
  predicate Clearing(op: Op) {
    || op.WipePartial? || op.WipeAll? || op.RemoveLease? || op.UnlockLease? || op.StartRecover? || op.TryEntry?
    || op.NextRoot? || op.TryOrphan? || op.OrphansDone? || op.Unlocked?
  }

  // Nothing but removals, and none of what another agent holds.
  ghost predicate Clears(s: State, s': State, a: Agent) { Shrinks(s, s') && Spares(s, s', a) }

  ghost predicate OnlyLess(dirs: map<TxId, Dir>, dirs': map<TxId, Dir>) {
    forall id | id in dirs' :: id in dirs && PrunedDir(dirs'[id], dirs[id])
  }

  ghost predicate Shrinks(s: State, s': State) {
    && (forall id | id in s'.leases :: id in s.leases && s'.leases[id] == s.leases[id])
    && OnlyLess(s.staging, s'.staging) && OnlyLess(s.sources, s'.sources)
  }

  ghost predicate Spares(s: State, s': State, a: Agent) {
    && (forall i | i in s.held && s.held[i] != a :: i in s'.held && s'.held[i] == s.held[i])
    && (forall i | i in s'.held && s'.held[i] != a :: i in s.held && s.held[i] == s'.held[i])
    && (forall id | id in s.leases && s.leases[id] in s.held && s.held[s.leases[id]] != a ::
          && id in s'.leases && s'.leases[id] == s.leases[id]
          && (id in s.staging ==> id in s'.staging && s'.staging[id] == s.staging[id])
          && (id in s.sources ==> id in s'.sources && s'.sources[id] == s.sources[id]))
  }

  lemma ClearsTwice(s0: State, s1: State, s2: State, a: Agent)
    requires Clears(s0, s1, a) && Clears(s1, s2, a)
    ensures Clears(s0, s2, a)
  {
    hide PrunedDir;
    LessTwice(s0.staging, s1.staging, s2.staging);
    LessTwice(s0.sources, s1.sources, s2.sources);
  }

  // What a part of a recovery does besides: nothing to the results, and where the names are in order only removals.
  ghost predicate Clean(s: State, s': State, a: Agent, regular: bool) {
    Aside(s, s') && (regular ==> Clears(s, s', a))
  }

  lemma CleanTwice(s0: State, s1: State, s2: State, a: Agent, regular: bool)
    requires Clean(s0, s1, a, regular) && Clean(s1, s2, a, regular)
    ensures Clean(s0, s2, a, regular)
  {
    hide Clears;
    if regular { ClearsTwice(s0, s1, s2, a); }
  }

  lemma CleanMeans(s: State, s': State, a: Agent, regular: bool)
    requires Clean(s, s', a, regular)
    ensures s'.results == s.results && s'.lock == s.lock && (regular ==> Clears(s, s', a))
  {
    hide Clears;
  }

  lemma CleanNothing(s: State, a: Agent, regular: bool)
    ensures Clean(s, s, a, regular)
  {
    hide Clears;
    ClearsNothing(s, a);
  }

  lemma LessTwice(most: map<TxId, Dir>, more: map<TxId, Dir>, less: map<TxId, Dir>)
    requires OnlyLess(most, more) && OnlyLess(more, less)
    ensures OnlyLess(most, less)
  {
    hide PrunedDir;
    forall id | id in less ensures id in most && PrunedDir(less[id], most[id]) {
      PrunedDirTwice(less[id], more[id], most[id]);
    }
  }

  lemma LessSome(dirs: map<TxId, Dir>, dirs': map<TxId, Dir>)
    requires forall id | id in dirs' :: id in dirs && dirs'[id] == dirs[id]
    ensures OnlyLess(dirs, dirs')
  {
    hide PrunedDir;
    forall id | id in dirs' ensures PrunedDir(dirs'[id], dirs[id]) { PrunedDirSelf(dirs[id]); }
  }

  lemma ClearsNothing(s: State, a: Agent)
    ensures Clears(s, s, a)
  {
    LessSome(s.staging, s.staging);
    LessSome(s.sources, s.sources);
  }

  lemma SetShrinks(s: State, s': State, root: Root, dirs: map<TxId, Dir>)
    requires OnlyLess(Dirs(s, root), dirs) && s'.leases == s.leases
    requires s'.staging == SetDirs(s, root, dirs).staging && s'.sources == SetDirs(s, root, dirs).sources
    ensures Shrinks(s, s')
  {
    hide OnlyLess;
    if root.Results? { LessSome(s.sources, s.sources); } else { LessSome(s.staging, s.staging); }
  }

  // A stage, some of which is wiped, or all of it.
  lemma WipeShrinks(s: State, a: Agent, h: Handle, k: WipeFor, ok: bool)
    requires PcOf(s, a) == Wipe(h, k) && Step(s, a, WipeAll(ok)).Some?
    ensures Shrinks(s, Step(s, a, WipeAll(ok)).value)
  {
    hide Step, OnlyLess, SetDirs, Shrinks;
    if ok { WipedNames(s, a); }
    LeadsWipe(s, a, h, k, ok);
    var dirs := if ok then Dirs(s, h.root) - {h.id} else Dirs(s, h.root);
    LessSome(Dirs(s, h.root), dirs);
    SetNone(s, h.root);
    SetShrinks(s, Step(s, a, WipeAll(ok)).value, h.root, dirs) by { SetKeeps(s, h.root, dirs); }
  }

  lemma SetNone(s: State, root: Root)
    ensures SetDirs(s, root, Dirs(s, root)) == s
  {
  }

  lemma SetKeeps(s: State, root: Root, dirs: map<TxId, Dir>)
    ensures SetDirs(s, root, dirs).leases == s.leases
  {
  }

  lemma PartialShrinks(s: State, a: Agent, h: Handle, k: WipeFor, left: Dir)
    requires PcOf(s, a) == Wipe(h, k) && h.id in Dirs(s, h.root) && PrunedDir(left, Dirs(s, h.root)[h.id])
    ensures Step(s, a, WipePartial(left)).Some? && Shrinks(s, Step(s, a, WipePartial(left)).value)
  {
    hide Step, SetDirs, PrunedDir, Shrinks;
    LeadsWipePartial(s, a, h, k, left);
    var dirs := Dirs(s, h.root)[h.id := left];
    forall id | id in dirs ensures id in Dirs(s, h.root) && PrunedDir(dirs[id], Dirs(s, h.root)[id]) {
      if id != h.id { PrunedDirSelf(Dirs(s, h.root)[id]); }
    }
    SetKeeps(s, h.root, dirs);
    SetShrinks(s, Step(s, a, WipePartial(left)).value, h.root, dirs);
  }

  // The other calls that clear leave the directories alone.
  lemma RestShrinks(s: State, a: Agent, op: Op)
    requires Step(s, a, op).Some? && Clearing(op) && !op.WipePartial? && !op.WipeAll?
    ensures Shrinks(s, Step(s, a, op).value)
  {
    hide Shrinks, StepBegin, StepLive, StepCommit, StepRollback, StepWipe, StepRelease, StepRecover, StepGet,
         StepUnlocked, StepCrash;
    if op.RemoveLease? || op.UnlockLease? { ReleaseKeepsDirs(s, a, op); }
    else if op.Unlocked? { ReturnKeepsDirs(s, a); }
    else { RecoverKeepsDirs(s, a, op); }
    SameShrinks(s, Step(s, a, op).value);
  }

  ghost predicate SameDirs(s: State, s': State) {
    s'.staging == s.staging && s'.sources == s.sources &&
    forall id | id in s'.leases :: id in s.leases && s'.leases[id] == s.leases[id]
  }

  lemma SameShrinks(s: State, s': State)
    requires SameDirs(s, s')
    ensures Shrinks(s, s')
  {
    hide OnlyLess;
    LessSome(s.staging, s.staging);
    LessSome(s.sources, s.sources);
  }

  lemma ReleaseKeepsDirs(s: State, a: Agent, op: Op)
    requires StepRelease(s, a, op).Some?
    ensures SameDirs(s, StepRelease(s, a, op).value)
  {
  }

  lemma ReturnKeepsDirs(s: State, a: Agent)
    requires StepUnlocked(s, a).Some?
    ensures SameDirs(s, StepUnlocked(s, a).value)
  {
    hide AfterReturn, ReturnEvents;
  }

  lemma RecoverKeepsDirs(s: State, a: Agent, op: Op)
    requires StepRecover(s, a, op).Some?
    ensures SameDirs(s, StepRecover(s, a, op).value)
  {
    hide ValidTransactionId, StepRecover, SameDirs;
    match op {
      case TryEntry(id, ok) => EntryKeepsDirs(s, a, id, ok);
      case TryOrphan(id, ok) => OrphanKeepsDirs(s, a, id, ok);
      case _ => ScanKeepsDirs(s, a, op);
    }
  }

  lemma EntryKeepsDirs(s: State, a: Agent, id: TxId, ok: bool)
    requires StepRecover(s, a, TryEntry(id, ok)).Some?
    ensures SameDirs(s, StepRecover(s, a, TryEntry(id, ok)).value)
  {
    hide ValidTransactionId;
  }

  lemma OrphanKeepsDirs(s: State, a: Agent, id: TxId, ok: bool)
    requires StepRecover(s, a, TryOrphan(id, ok)).Some?
    ensures SameDirs(s, StepRecover(s, a, TryOrphan(id, ok)).value)
  {
    hide ValidTransactionId;
  }

  lemma ScanKeepsDirs(s: State, a: Agent, op: Op)
    requires StepRecover(s, a, op).Some? && !op.TryEntry? && !op.TryOrphan?
    ensures SameDirs(s, StepRecover(s, a, op).value)
  {
  }

  lemma StepSpares(s: State, a: Agent, op: Op)
    requires Inv(s) && Allowed(s, a, op)
    ensures Spares(s, Step(s, a, op).value, a)
  {
    hide Inv, Step, FreshName, Mine, Unreused, Local, AgentInv;
    OwnPart(s, a);
    StepCarries(s, a, op);
  }

  lemma StepClears(s: State, a: Agent, op: Op)
    requires Inv(s) && Allowed(s, a, op) && Clearing(op)
    ensures Clears(s, Step(s, a, op).value, a)
  {
    hide Inv, Step, Shrinks, Spares, FreshName, PrunedDir;
    StepSpares(s, a, op);
    match op {
      case WipeAll(ok) =>
        WipesAt(s, a, op);
        WipeShrinks(s, a, PcOf(s, a).h, PcOf(s, a).k, ok);
      case WipePartial(left) =>
        WipesAt(s, a, op);
        PartialShrinks(s, a, PcOf(s, a).h, PcOf(s, a).k, left);
      case _ => RestShrinks(s, a, op);
    }
  }

  lemma WipesAt(s: State, a: Agent, op: Op)
    requires Step(s, a, op).Some? && (op.WipeAll? || op.WipePartial?)
    ensures PcOf(s, a).Wipe?
    ensures var pc := PcOf(s, a);
      op.WipePartial? ==> pc.h.id in Dirs(s, pc.h.root) && PrunedDir(op.dir, Dirs(s, pc.h.root)[pc.h.id])
  {
    hide StepBegin, StepLive, StepCommit, StepRollback, StepRelease, StepRecover, StepGet, StepUnlocked, StepCrash,
         PrunedDir;
  }

  // ----- what a recovery does ---------------------------------------------------------------------------

  // Those of `ids` that have a lease nobody has locked.
  ghost function Unheld(s: State, ids: set<TxId>): set<TxId> {
    set id | id in ids && id in s.leases && s.leases[id] !in s.held
  }

  // The entries `ids` of one staging root have been visited.
  ghost predicate Visited(s: State, s': State, root: Root, ids: set<TxId>, count: nat) {
    && ids <= s.leases.Keys && ids <= Dirs(s, root).Keys
    && s'.leases == s.leases - Unheld(s, ids) && s'.held == s.held
    && s'.staging == (if root.Results? then s.staging - Unheld(s, ids) else s.staging)
    && s'.sources == (if root.Results? then s.sources else s.sources - Unheld(s, ids))
    && count == |Unheld(s, ids)|
  }

  // What a visit removes, if it does.
  ghost function Taken(s: State, id: TxId): set<TxId>
    requires id in s.leases
  {
    if s.leases[id] in s.held then {} else {id}
  }

  // One of them: in use and left alone, or removed with its lease.
  ghost predicate VisitedOne(s: State, s': State, root: Root, id: TxId, count: nat) {
    && id in s.leases && id in Dirs(s, root) && s'.held == s.held
    && var gone := Taken(s, id);
    && s'.leases == s.leases - gone && count == |gone|
    && s'.staging == (if root.Results? then s.staging - gone else s.staging)
    && s'.sources == (if root.Results? then s.sources else s.sources - gone)
  }

  lemma VisitedNone(s: State, root: Root)
    ensures Visited(s, s, root, {}, 0)
  {
    assert Unheld(s, {}) == {};
  }

  lemma VisitedMore(s: State, s1: State, s2: State, root: Root, ids: set<TxId>, id: TxId, n: nat, m: nat)
    requires Visited(s, s1, root, ids, n) && id !in ids && VisitedOne(s1, s2, root, id, m)
    ensures Visited(s, s2, root, ids + {id}, n + m)
  {
    UnheldMore(s, s1, ids, id);
    StillListedIn(s, s1, root, ids, id, n);
    hide Unheld, Taken, Dirs;
    MinusTwice(s.leases, Unheld(s, ids), Taken(s1, id));
    MinusTwice(s.staging, Unheld(s, ids), Taken(s1, id));
    MinusTwice(s.sources, Unheld(s, ids), Taken(s1, id));
    BothCount(Unheld(s, ids), Taken(s1, id));
  }

  lemma BothCount(a: set<TxId>, b: set<TxId>)
    requires a !! b
    ensures |a + b| == |a| + |b|
  {
  }

  lemma StillListedIn(s: State, s1: State, root: Root, ids: set<TxId>, id: TxId, n: nat)
    requires Visited(s, s1, root, ids, n) && id in Dirs(s1, root)
    ensures id in Dirs(s, root)
  {
  }

  lemma UnheldMore(s: State, s1: State, ids: set<TxId>, id: TxId)
    requires s1.leases == s.leases - Unheld(s, ids) && s1.held == s.held && id !in ids && id in s1.leases
    ensures id in s.leases && Unheld(s, ids) !! Taken(s1, id)
    ensures Unheld(s, ids + {id}) == Unheld(s, ids) + Taken(s1, id)
  {
  }

  lemma MinusTwice<K, V>(m: map<K, V>, a: set<K>, b: set<K>)
    ensures m - a - b == m - (a + b)
  {
  }

  // The leases `ids` that had no directory have been visited.
  ghost predicate Swept(s: State, s': State, ids: set<TxId>) {
    && s'.staging == s.staging && s'.sources == s.sources && s'.held == s.held
    && ids <= s.leases.Keys && s'.leases == s.leases - Orphaned(s, ids)
  }

  ghost function Orphaned(s: State, ids: set<TxId>): set<TxId> {
    set id | id in Unheld(s, ids) && Absent(s, id)
  }

  ghost predicate SweptOne(s: State, s': State, id: TxId) {
    && s'.staging == s.staging && s'.sources == s.sources && s'.held == s.held && id in s.leases
    && s'.leases == if s.leases[id] in s.held || !Absent(s, id) then s.leases else s.leases - {id}
  }

  lemma SweptNone(s: State)
    ensures Swept(s, s, {})
  {
    assert Orphaned(s, {}) == {};
  }

  lemma SweptMore(s: State, s1: State, s2: State, ids: set<TxId>, id: TxId)
    requires Swept(s, s1, ids) && id !in ids && SweptOne(s1, s2, id)
    ensures Swept(s, s2, ids + {id})
  {
    var gone := if s1.leases[id] in s1.held || !Absent(s1, id) then {} else {id};
    assert id in s.leases && s1.leases[id] == s.leases[id];
    assert Orphaned(s, ids + {id}) == Orphaned(s, ids) + gone;
    MinusTwice(s.leases, Orphaned(s, ids), gone);
    assert s1.leases - gone == s2.leases;
  }

  // What a recovery asks of the store: every name is one that `transaction_id` makes, every directory has
  // its lease, and no lease that nobody holds has a directory in both roots.
  ghost predicate Recoverable(s: State) {
    && (forall id | id in s.staging || id in s.sources || id in s.leases :: ValidTransactionId(id))
    && Covered(s) && TwiceOnlyHeld(s)
  }

  ghost predicate TwiceOnlyHeld(s: State) {
    forall id | id in s.staging && id in s.sources && id in s.leases :: s.leases[id] in s.held
  }

  // What it leaves: exactly the directories and leases that somebody holds, unchanged.
  ghost predicate Recovers(s: State, s': State, count: nat) {
    && s'.staging == Leased(s, s.staging) && s'.sources == Leased(s, s.sources) && s'.leases == LeasedLeases(s)
    && s'.held == s.held
    && count == |s.staging.Keys - s'.staging.Keys| + |s.sources.Keys - s'.sources.Keys|
  }

  // Those of `dirs` whose lease is locked.
  ghost function Leased(s: State, dirs: map<TxId, Dir>): map<TxId, Dir> {
    map id | id in dirs && id in s.leases && s.leases[id] in s.held :: dirs[id]
  }

  ghost function LeasedLeases(s: State): map<TxId, Inode> {
    map id | id in s.leases && s.leases[id] in s.held :: s.leases[id]
  }

  // Both roots and then the leases: all of it.
  ghost predicate RecoversFrom(s: State, s1: State, s2: State, s3: State, n: nat, m: nat) {
    && Visited(s, s1, Results, s.staging.Keys, n) && Visited(s1, s2, Sources, s1.sources.Keys, m)
    && Swept(s2, s3, s2.leases.Keys)
  }

  lemma RecoversAll(s: State, s1: State, s2: State, s3: State, n: nat, m: nat)
    requires RecoversFrom(s, s1, s2, s3, n, m)
    ensures Recovers(s, s3, n + m)
    ensures Covered(s) && TwiceOnlyHeld(s)
  {
    StagingLeft(s, s1, n);
    SourcesLeft(s, s1, s2, n, m);
    LeasesLeft(s, s1, s2, s3, n, m);
  }

  lemma StagingLeft(s: State, s1: State, n: nat)
    requires Visited(s, s1, Results, s.staging.Keys, n)
    ensures s1.staging == Leased(s, s.staging) && s.staging.Keys - s1.staging.Keys == Unheld(s, s.staging.Keys)
  {
  }

  lemma SourcesLeft(s: State, s1: State, s2: State, n: nat, m: nat)
    requires Visited(s, s1, Results, s.staging.Keys, n) && Visited(s1, s2, Sources, s1.sources.Keys, m)
    ensures s2.sources == Leased(s, s.sources) && s.sources.Keys - s2.sources.Keys == Unheld(s1, s1.sources.Keys)
  {
  }

  lemma LeasesLeft(s: State, s1: State, s2: State, s3: State, n: nat, m: nat)
    requires RecoversFrom(s, s1, s2, s3, n, m)
    ensures s3.leases == LeasedLeases(s)
  {
  }

  // Somebody holds every lease, and every directory has one.
  ghost predicate AllInUse(s: State) {
    && (forall id | id in s.staging || id in s.sources :: id in s.leases)
    && forall id | id in s.leases :: s.leases[id] in s.held
  }

  lemma LeftInUse(s: State, s1: State, n: nat)
    requires Recovers(s, s1, n)
    ensures AllInUse(s1)
  {
  }

  lemma InUseStays(s: State, s1: State, n: nat)
    requires AllInUse(s) && Recovers(s, s1, n)
    ensures s1.staging == s.staging && s1.sources == s.sources && s1.leases == s.leases && n == 0
  {
    assert s1.leases == s.leases;
    assert s1.staging == s.staging;
    assert s1.sources == s.sources;
    assert s.staging.Keys - s1.staging.Keys == {} && s.sources.Keys - s1.sources.Keys == {};
  }

  // A second recovery finds nothing to do, and nothing in its way.
  lemma RecoversTwice(s: State, s1: State, s2: State, n: nat, m: nat)
    requires Recovers(s, s1, n) && Recovers(s1, s2, m)
    ensures s2.staging == s1.staging && s2.sources == s1.sources && s2.leases == s1.leases && m == 0
    ensures Recoverable(s) ==> Recoverable(s1)
  {
    hide ValidTransactionId;
    LeftInUse(s, s1, n);
    StillRecoverable(s, s1, n);
    hide Recovers, Recoverable;
    InUseStays(s1, s2, m);
  }

  lemma StillRecoverable(s: State, s1: State, n: nat)
    requires Recovers(s, s1, n)
    ensures Recoverable(s) ==> Recoverable(s1)
  {
    hide ValidTransactionId;
    LeftInUse(s, s1, n);
    OnlyLeft(s, s1, n);
    hide Recovers, Leased, LeasedLeases;
  }

  lemma OnlyLeft(s: State, s1: State, n: nat)
    requires Recovers(s, s1, n)
    ensures s1.staging.Keys <= s.staging.Keys && s1.sources.Keys <= s.sources.Keys && s1.leases.Keys <= s.leases.Keys
  {
  }

  // A store in which every directory has its lease can be recovered.
  lemma ShelteredIsRecoverable(s: State)
    requires Inv(s) && Sheltered(s)
    ensures Recoverable(s)
  {
    hide ValidTransactionId, LockInv, HeldInv, DirInv, ResultInv, AgentInv, Proper;
  }

  ghost predicate AllValid(ids: set<TxId>) { forall id | id in ids :: ValidTransactionId(id) }

  // A listing of which `todo` is left.
  ghost predicate VisitedSoFar(s: State, s': State, root: Root, listing: set<TxId>, todo: set<TxId>, n: int) {
    todo <= listing && AllValid(listing - todo) && n >= 0 && Visited(s, s', root, listing - todo, n)
  }

  lemma VisitsBegin(s: State, root: Root, listing: set<TxId>)
    ensures VisitedSoFar(s, s, root, listing, listing, 0)
  {
    VisitedNone(s, root);
    assert listing - listing == {};
  }

  lemma VisitsNext(s: State, s1: State, s2: State, root: Root, listing: set<TxId>, todo: set<TxId>, id: TxId, n: int,
      m: nat)
    requires VisitedSoFar(s, s1, root, listing, todo, n) && id in todo
    requires VisitedOne(s1, s2, root, id, m) && ValidTransactionId(id)
    ensures VisitedSoFar(s, s2, root, listing, todo - {id}, n + m)
  {
    hide ValidTransactionId, Visited, VisitedOne;
    VisitedMore(s, s1, s2, root, listing - todo, id, n, m);
    assert listing - todo + {id} == listing - (todo - {id});
  }

  lemma VisitsEnd(s: State, s': State, root: Root, listing: set<TxId>, n: int)
    requires VisitedSoFar(s, s', root, listing, {}, n)
    ensures AllValid(listing) && n >= 0 && Visited(s, s', root, listing, n)
  {
    assert listing - {} == listing;
  }

  // The next entry is there as it was listed.
  lemma StillListed(s: State, s': State, root: Root, listing: set<TxId>, todo: set<TxId>, n: int, id: TxId)
    requires VisitedSoFar(s, s', root, listing, todo, n) && id in todo && listing == Dirs(s, root).Keys
    ensures id in Dirs(s', root)
    ensures listing <= s.leases.Keys && AllValid(listing) ==> id in s'.leases && ValidTransactionId(id)
  {
    hide ValidTransactionId;
  }

  ghost predicate SweptSoFar(s: State, s': State, listing: set<TxId>, todo: set<TxId>) {
    todo <= listing && AllValid(listing - todo) && Swept(s, s', listing - todo)
  }

  lemma SweepBegins(s: State, listing: set<TxId>)
    ensures SweptSoFar(s, s, listing, listing)
  {
    SweptNone(s);
    assert listing - listing == {};
  }

  lemma SweepGoesOn(s: State, s1: State, s2: State, listing: set<TxId>, todo: set<TxId>, id: TxId)
    requires SweptSoFar(s, s1, listing, todo) && id in todo && SweptOne(s1, s2, id) && ValidTransactionId(id)
    ensures SweptSoFar(s, s2, listing, todo - {id})
  {
    hide ValidTransactionId, Swept, SweptOne;
    SweptMore(s, s1, s2, listing - todo, id);
    assert listing - todo + {id} == listing - (todo - {id});
  }

  lemma SweepEnds(s: State, s': State, listing: set<TxId>)
    requires SweptSoFar(s, s', listing, {})
    ensures AllValid(listing) && Swept(s, s', listing)
  {
    assert listing - {} == listing;
  }

  lemma StillLeased(s: State, s': State, listing: set<TxId>, todo: set<TxId>, id: TxId)
    requires SweptSoFar(s, s', listing, todo) && id in todo && listing == s.leases.Keys
    ensures id in s'.leases && (AllValid(listing) ==> ValidTransactionId(id))
  {
    hide ValidTransactionId;
  }

  lemma RecoverableAsks(s: State)
    ensures Recoverable(s) ==> s.staging.Keys <= s.leases.Keys && AllValid(s.staging.Keys)
  {
    hide ValidTransactionId;
  }

  // After the first root, what the second asks.
  lemma SourcesAsk(s: State, s1: State, n: nat)
    requires Visited(s, s1, Results, s.staging.Keys, n)
    ensures Recoverable(s) ==> s1.sources.Keys <= s1.leases.Keys && AllValid(s1.leases.Keys)
  {
    hide ValidTransactionId;
  }

  // What the second root and the leases come to.
  ghost predicate Finishes(s1: State, s3: State, m: nat) {
    exists s2 :: VisitedThenSwept(s1, s2, s3, m)
  }

  ghost predicate VisitedThenSwept(s1: State, s2: State, s3: State, m: nat) {
    && Visited(s1, s2, Sources, s1.sources.Keys, m) && Swept(s2, s3, s2.leases.Keys)
    && AllValid(s1.sources.Keys) && AllValid(s2.leases.Keys)
  }

  lemma LeavesLeases(s: State, s1: State, m: nat)
    requires Visited(s, s1, Sources, s.sources.Keys, m)
    ensures AllValid(s.leases.Keys) ==> AllValid(s1.leases.Keys)
  {
    hide ValidTransactionId;
  }

  ghost predicate SameDisk(s: State, s': State) {
    s'.staging == s.staging && s'.sources == s.sources && s'.leases == s.leases && s'.held == s.held
  }

  lemma BothPasses(s0: State, s1: State, s2: State, s3: State, m: nat)
    requires Visited(s0, s1, Sources, s0.sources.Keys, m) && AllValid(s0.sources.Keys) && SameDisk(s1, s2)
    requires Swept(s2, s3, s2.leases.Keys) && AllValid(s2.leases.Keys)
    ensures Finishes(s0, s3, m)
  {
    hide ValidTransactionId;
    assert VisitedThenSwept(s0, s2, s3, m);
  }

  lemma BothRoots(s0: State, s1: State, s2: State, s3: State, n: nat, total: nat)
    requires Visited(s0, s1, Results, s0.staging.Keys, n) && AllValid(s0.staging.Keys) && SameDisk(s1, s2)
    requires total >= n && Finishes(s2, s3, total - n)
    ensures Recoverable(s0) && Recovers(s0, s3, total)
  {
    hide ValidTransactionId, Recovers, Recoverable, Swept, Visited, AllValid;
    VisitedSame(s0, s1, s2, n);
    var s4 :| VisitedThenSwept(s2, s4, s3, total - n);
    hide VisitedThenSwept, Finishes;
    BothRootsVia(s0, s2, s4, s3, n, total - n);
  }

  lemma BothRootsVia(s0: State, s2: State, s4: State, s3: State, n: nat, m: nat)
    requires Visited(s0, s2, Results, s0.staging.Keys, n) && AllValid(s0.staging.Keys)
    requires VisitedThenSwept(s2, s4, s3, m)
    ensures Recoverable(s0) && Recovers(s0, s3, n + m)
  {
    hide ValidTransactionId, Recovers, Recoverable, Swept, Visited, AllValid, Covered, TwiceOnlyHeld;
    NamesValid(s0, s2, s4, n, m);
    assert RecoversFrom(s0, s2, s4, s3, n, m);
    hide VisitedThenSwept, RecoversFrom;
    RecoversAll(s0, s2, s4, s3, n, m);
    AsksNoMore(s0);
  }

  lemma AsksNoMore(s: State)
    requires AllValid(s.staging.Keys) && AllValid(s.sources.Keys) && AllValid(s.leases.Keys)
    requires Covered(s) && TwiceOnlyHeld(s)
    ensures Recoverable(s)
  {
    hide ValidTransactionId;
  }

  lemma VisitedSame(s0: State, s1: State, s2: State, n: nat)
    requires Visited(s0, s1, Results, s0.staging.Keys, n) && SameDisk(s1, s2)
    ensures Visited(s0, s2, Results, s0.staging.Keys, n)
  {
  }

  lemma NamesValid(s0: State, s2: State, s4: State, n: nat, m: nat)
    requires Visited(s0, s2, Results, s0.staging.Keys, n) && Visited(s2, s4, Sources, s2.sources.Keys, m)
    requires AllValid(s0.staging.Keys) && AllValid(s2.sources.Keys) && AllValid(s4.leases.Keys)
    ensures s0.sources == s2.sources && AllValid(s0.leases.Keys)
  {
    hide ValidTransactionId;
  }

  lemma OnDisk(s: State, s': State, a: Agent, pc: Pc)
    requires s'.staging == s.staging && s'.sources == s.sources && s'.leases == s.leases && s'.held == s.held
    ensures SameDisk(s, s') && SameDisk(s, Goto(s', a, pc))
  {
  }

  lemma SameStore(s0: State, s1: State, s2: State, n: nat)
    requires SameDisk(s0, s1)
    ensures Recoverable(s1) <==> Recoverable(s0)
    ensures Recovers(s1, s2, n) ==> Recovers(s0, s2, n)
  {
    SameLeased(s0, s1);
    if Recoverable(s0) { StaysRecoverable(s0, s1); }
    if Recoverable(s1) { StaysRecoverable(s1, s0); }
    hide Leased, LeasedLeases, Recoverable;
  }

  lemma StaysRecoverable(s0: State, s1: State)
    requires SameDisk(s0, s1) && Recoverable(s0)
    ensures Recoverable(s1)
  {
    hide ValidTransactionId;
  }

  lemma SameLeased(s0: State, s1: State)
    requires SameDisk(s0, s1)
    ensures Leased(s1, s1.staging) == Leased(s0, s0.staging) && Leased(s1, s1.sources) == Leased(s0, s0.sources)
    ensures LeasedLeases(s1) == LeasedLeases(s0)
  {
  }

  lemma SameEnd(s0: State, s2: State, s3: State, n: nat)
    requires SameDisk(s2, s3)
    ensures Recovers(s0, s2, n) ==> Recovers(s0, s3, n)
  {
  }

  // ----- what a commit does -------------------------------------------------------------------------------

  // What a commit reports when no call fails.
  predicate Publishable(s: State, h: Handle) {
    h.id in s.staging && s.staging[h.id].prefix.Some? && ValidOutputTree(s.staging[h.id].prefix.value)
    && s.staging[h.id].meta.NoMeta?
  }

  // A whole result, path by path.
  ghost predicate SoundDir(d: Dir, rid: ResultId) {
    d.prefix.Some? && Sound(d.prefix.value) && d.meta == Complete(rid)
  }

  lemma CompleteIsSound(d: Dir, rid: ResultId)
    ensures CompleteDir(d, rid) <==> SoundDir(d, rid)
  {
    hide ValidOutputTree, Sound;
    if d.prefix.Some? { ValidIsSound(d.prefix.value); }
  }

  // The directory has gone and, if it had one, its lease, and nothing else.
  ghost predicate Drops(s: State, s': State, h: Handle, leased: bool) {
    && s'.staging == (if h.root.Results? then s.staging - {h.id} else s.staging)
    && s'.sources == (if h.root.Results? then s.sources else s.sources - {h.id})
    && s'.leases == (if leased then s.leases - {h.id} else s.leases)
  }

  lemma DropsToo(s: State, s1: State, s2: State, h: Handle, leased: bool)
    requires Untouched(s, s1)
    ensures Drops(s1, s2, h, leased) ==> Drops(s, s2, h, leased)
  {
  }

  // A commit that is about to return has left nothing of its stage and lease, or all of it to the drop.
  ghost predicate Left(s: State, s': State, a: Agent, c: Cx) {
    && s'.sources == s.sources && s'.staging - {c.h.id} == s.staging - {c.h.id}
    && if c.h.id in s'.staging then PcOf(s', a) == EarlyErr(c, true) && s'.leases == s.leases
       else PcOf(s', a).CommitDone? && s'.leases == s.leases - {c.h.id}
  }

  // Nothing but the contents of the stage has changed, or the stage has moved away.
  ghost predicate OnlyStage(s: State, s': State, c: Cx) {
    s'.sources == s.sources && s'.leases == s.leases && s'.staging - {c.h.id} == s.staging - {c.h.id}
  }

  lemma LeftLater(s: State, s1: State, s2: State, a: Agent, c: Cx)
    requires OnlyStage(s, s1, c)
    ensures Left(s1, s2, a, c) ==> Left(s, s2, a, c)
  {
  }

  lemma NothingLeft(s: State, s': State, a: Agent, c: Cx)
    requires c.h.id !in s'.staging && s'.staging == s.staging - {c.h.id} && s'.sources == s.sources
    requires s'.leases == s.leases - {c.h.id} && PcOf(s', a).CommitDone?
    ensures Left(s, s', a, c)
  {
    assert s.staging - {c.h.id} - {c.h.id} == s.staging - {c.h.id};
  }

  lemma LeftDrops(s: State, s1: State, s2: State, a: Agent, c: Cx)
    requires Left(s, s1, a, c) && c.h.root.Results?
    requires if c.h.id in s1.staging then Drops(s1, s2, c.h, true) else Untouched(s1, s2)
    ensures Drops(s, s2, c.h, true)
  {
    assert c.h.id !in s1.staging ==> s1.staging - {c.h.id} == s1.staging;
  }

  lemma PublishedIsSound(rid: ResultId, before: map<ResultId, Dir>, staged: Option<Node>, after: map<ResultId, Dir>)
    requires CommitMeans(Published, rid, before, staged, after)
    ensures rid in after && SoundDir(after[rid], rid)
  {
    hide CompleteDir, SoundDir;
    if rid in after { CompleteIsSound(after[rid], rid); }
  }

  // What `commit` reports when no call fails: published where the staged tree has nothing in it that may not
  // be there, no metadata is in the way and the destination is free; existing where a whole result is there.
  ghost predicate Reports(outcome: Outcome, s: State, h: Handle, rid: ResultId) {
    var ready := h.id in s.staging && s.staging[h.id].meta.NoMeta? &&
      s.staging[h.id].prefix.Some? && Sound(s.staging[h.id].prefix.value);
    && (outcome.Published? <==> ready && rid !in s.results)
    && (outcome.Existing? <==> ready && rid in s.results && SoundDir(s.results[rid], rid))
    && !outcome.Corrupt?
  }

  lemma SameExpected(s: State, s': State, h: Handle, rid: ResultId)
    requires s'.staging == s.staging && s'.results == s.results
    ensures Expected(s', h, rid) == Expected(s, h, rid)
  {
    hide ValidOutputTree, CompleteDir;
  }

  lemma ExpectedReports(s: State, h: Handle, rid: ResultId)
    ensures Reports(Expected(s, h, rid), s, h, rid)
  {
    hide ValidOutputTree, Sound, CompleteDir, SoundDir;
    if h.id in s.staging && s.staging[h.id].prefix.Some? { ValidIsSound(s.staging[h.id].prefix.value); }
    if rid in s.results { CompleteIsSound(s.results[rid], rid); }
  }

  function ExpectedAt(s: State, rid: ResultId): Outcome {
    if rid !in s.results then Published else if CompleteDir(s.results[rid], rid) then Existing else Failed
  }

  function Expected(s: State, h: Handle, rid: ResultId): Outcome {
    if Publishable(s, h) then ExpectedAt(s, rid) else Failed
  }

  ghost function StagedPrefix(s: State, h: Handle): Option<Node> {
    if h.id in s.staging then s.staging[h.id].prefix else None
  }

  lemma NothingDone(rid: ResultId, results: map<ResultId, Dir>, staged: Option<Node>)
    ensures CommitMeans(Failed, rid, results, staged, results)
  {
  }

  // A removal of the entry `rid` that may have failed.
  ghost predicate LeftAt(before: map<ResultId, Dir>, after: map<ResultId, Dir>, rid: ResultId) {
    || after == before || after == before - {rid}
    || (rid in before && rid in after && after == before[rid := after[rid]] && PrunedDir(after[rid], before[rid]))
  }

  // The next call fails, and no other.
  ghost predicate OneFault(faults: seq<bool>) { faults != [] && faults[0] && Calm(faults[1..]) }

  // ----- what a begin does ---------------------------------------------------------------------------------

  // The name has no lease, and no directory in the root.
  ghost predicate Free(s: State, root: Root, id: TxId) { id !in s.leases && id !in Dirs(s, root) }

  ghost predicate FirstFree(s: State, root: Root, ids: seq<TxId>, id: TxId) {
    exists i ::
      0 <= i < |ids| && ids[i] == id && Free(s, root, id) && forall j | 0 <= j < i :: !Free(s, root, ids[j])
  }

  ghost predicate Untouched(s: State, s': State) {
    s'.staging == s.staging && s'.sources == s.sources && s'.leases == s.leases
  }

  // One new stage, and nothing else in either root or among the leases.
  ghost predicate Makes(s: State, s': State, h: Handle) {
    && s'.leases == s.leases
    && s'.staging == (if h.root.Results? then s.staging[h.id := NewStage(Results)] else s.staging)
    && s'.sources == (if h.root.Results? then s.sources else s.sources[h.id := NewStage(Sources)])
    && h.id !in Dirs(s, h.root)
  }

  // The stage with its lease.
  ghost predicate Adds(s: State, s': State, h: Handle) { Makes(s.(leases := s.leases[h.id := h.ino]), s', h) }

  ghost predicate Unleases(s: State, s': State, h: Handle) {
    s'.staging == s.staging && s'.sources == s.sources && s'.leases == s.leases - {h.id}
  }

  // Nobody has locked a file that is still to be made.
  ghost predicate NoneAhead(s: State) { forall i | i in s.held :: i < s.nextInode }

  lemma NoneAheadOf(s: State)
    requires Inv(s)
    ensures NoneAhead(s)
  {
    hide LockInv, HeldInv, DirInv, ResultInv, AgentInv;
  }

  lemma NothingTouched(s: State)
    ensures Untouched(s, s)
  {
  }

  // Between an attempt and its lease file.
  ghost predicate LeaseMade(s: State, s1: State, h: Handle) {
    && h.id !in s.leases && h.ino == s.nextInode && s1.leases == s.leases[h.id := h.ino] && s1.held == s.held
    && s1.nextInode == h.ino + 1 && s1.staging == s.staging && s1.sources == s.sources
  }

  lemma AttemptStarts(s: State, s1: State, h: Handle)
    requires LeaseMade(s, s1, h)
    ensures h.id in Dirs(s1, h.root) <==> h.id in Dirs(s, h.root)
    ensures NoneAhead(s) ==> h.ino !in s1.held
  {
  }

  lemma AttemptEnds(s: State, s1: State, s2: State, h: Handle, a: Agent)
    requires LeaseMade(s, s1, h)
    ensures Makes(s1, s2, h) ==> Adds(s, s2, h) && Free(s, h.root, h.id)
    ensures Unleases(s1, s2, h) ==> Untouched(s, s2)
    ensures NoneAhead(s) && s2.nextInode == s1.nextInode && (s2.held == s1.held || s2.held == s1.held[h.ino := a]) ==>
      NoneAhead(s2)
  {
    assert s.leases[h.id := h.ino] - {h.id} == s.leases;
  }

  lemma DirsOf(s: State, s': State, root: Root)
    requires s'.staging == s.staging && s'.sources == s.sources
    ensures Dirs(s', root) == Dirs(s, root)
  {
  }

  lemma OnlyLocked(s: State, s': State)
    requires s'.staging == s.staging && s'.sources == s.sources && s'.leases == s.leases && s'.held == s.held
    requires s'.nextInode == s.nextInode
    ensures Untouched(s, s') && (NoneAhead(s) ==> NoneAhead(s'))
  {
  }

  lemma Retries(root: Root, n: nat)
    ensures Retry(root, n) == if n + 1 < MaxTries then BeginTry(root, n + 1) else BeginErr
  {
  }

  lemma TakenAt(s0: State, s1: State, s: State, root: Root, ids: seq<TxId>, n: nat, h: Handle, calm: bool)
    requires n < |ids| && h.root == root && h.id == ids[n] && Free(s1, root, h.id) && Adds(s1, s, h)
    requires calm ==> Untouched(s0, s1) && forall j | 0 <= j < n :: !Free(s0, root, ids[j])
    ensures h.id in Dirs(s, root) && Dirs(s, root)[h.id] == NewStage(root)
    ensures calm ==> FirstFree(s0, root, ids, h.id) && Adds(s0, s, h)
  {
  }

  lemma StillTaken(s0: State, s1: State, s: State, root: Root, id: TxId)
    requires Untouched(s0, s1) && Untouched(s1, s) && !Free(s1, root, id)
    ensures Untouched(s0, s) && !Free(s0, root, id)
  {
  }

  // The handle is on the first of the names that was free, with nothing else changed; without a handle none was.
  ghost predicate TakenOnly(s: State, s': State, root: Root, ids: seq<TxId>, handle: Option<Handle>) {
    if handle.Some? then FirstFree(s, root, ids, handle.value.id) && Adds(s, s', handle.value)
    else Untouched(s, s') && forall i | 0 <= i < |ids| :: !Free(s, root, ids[i])
  }

  // The store lock has no part in it.
  lemma SameAttempts(s0: State, s1: State, s2: State, s3: State, root: Root, ids: seq<TxId>, handle: Option<Handle>)
    requires Untouched(s0, s1) && Untouched(s2, s3)
    ensures TakenOnly(s1, s2, root, ids, handle) ==> TakenOnly(s0, s3, root, ids, handle)
    ensures Dirs(s3, root) == Dirs(s2, root)
  {
  }

  lemma NothingAside(s: State)
    ensures Aside(s, s)
  {
  }

  lemma AsideTwice(s0: State, s1: State, s2: State)
    requires Aside(s0, s1) && Aside(s1, s2)
    ensures Aside(s0, s2)
  {
  }

  // ----- the programs -----------------------------------------------------------------------------------

  // One agent's view of the store: the filesystem, and whether each coming call fails.
  class Store {
    const me: Agent
    var s: State
    var faults: seq<bool>
    // The run so far; `regular` while its names satisfy the hypothesis of the invariant.
    ghost const start: State
    ghost var trace: seq<(Agent, Op)>
    ghost var regular: bool

    ghost predicate Valid()
      reads this`s, this`trace, this`regular
    {
      Inv(start) && Run(start, trace) == Some(s) && (regular ==> AllowedRun(start, trace))
    }

    constructor (me: Agent, s: State, faults: seq<bool>)
      requires Inv(s)
      ensures Valid() && regular && this.me == me && this.s == s && start == s && trace == []
    {
      this.me, this.s, this.faults, start, trace, regular := me, s, faults, s, [], true;
    }

    lemma Invariant()
      requires Valid() && regular
      ensures Inv(s)
    {
      hide Inv, AllowedRun, Run;
      RunKeeps(start, trace);
    }

    method Fails() returns (failed: bool)
      modifies this`faults
      ensures failed ==> !Calm(old(faults))
      ensures Calm(old(faults)) ==> Calm(faults)
    {
      failed, faults := NextCall(faults);
    }

    // One call of the operating system.
    method Do(op: Op)
      requires Valid() && Step(s, me, op).Some?
      modifies this`s, this`trace, this`regular
      ensures Valid() && s == Step(old(s), me, op).value && trace == old(trace) + [(me, op)]
      ensures regular == (old(regular) && FreshName(old(s), me, op))
      ensures regular && Clearing(op) ==> Clears(old(s), s, me)
    {
      hide Inv, AllowedRun, Run, Step, FreshName, Clears, Clearing;
      RunSnoc(start, trace, me, op);
      if regular && FreshName(s, me, op) && Clearing(op) {
        Invariant();
        StepClears(s, me, op);
      }
      regular := regular && FreshName(s, me, op);
      trace := trace + [(me, op)];
      s := Step(s, me, op).value;
    }

    // A call that makes no directory, after which the agent is at `pc` in `next`.
    method Go(op: Op, ghost next: State, ghost pc: Pc)
      requires Valid() && Step(s, me, op) == Some(Goto(next, me, pc)) && !PcOf(s, me).BeginLeased?
      modifies this`s, this`trace, this`regular
      ensures Valid() && s == Goto(next, me, pc) && PcOf(s, me) == pc && regular == old(regular)
      ensures regular && Clearing(op) ==> Clears(old(s), s, me)
    {
      hide Valid, Step, Clears, Clearing;
      Do(op);
    }

    // The same for a call that clears, where nothing but the agent and its locks moves.
    method GoClean(op: Op, ghost next: State, ghost pc: Pc)
      requires Valid() && Step(s, me, op) == Some(Goto(next, me, pc)) && !PcOf(s, me).BeginLeased?
      requires Clearing(op) && Aside(s, next)
      modifies this`s, this`trace, this`regular
      ensures Valid() && s == Goto(next, me, pc) && PcOf(s, me) == pc && regular == old(regular)
      ensures Clean(old(s), s, me, regular)
    {
      hide Valid, Step, Clears, Clearing, PcOf;
      Go(op, next, pc);
    }

    // `release_and_remove_lock_file`.
    method ReleaseAndRemoveLockFile(h: Handle, next: After) returns (ok: bool)
      requires Valid() && PcOf(s, me) == Release(h, next)
      modifies this
      ensures Valid() && regular == old(regular) && Clean(old(s), s, me, regular)
      ensures PcOf(s, me) == if ok then Released(next) else NotReleased(next)
      ensures s.staging == old(s).staging && s.sources == old(s).sources && s.held == old(s).held - {h.ino}
      ensures s.nextInode == old(s).nextInode
      ensures ok ==> s.leases == old(s).leases - {h.id}
      ensures Calm(old(faults)) ==> ok && Calm(faults)
    {
      hide Valid, Step, PcOf, Calm, Clean, Released, NotReleased;
      ghost var s0 := s;
      var failed := Fails();
      LeadsRemoveLease(s, me, h, next, !failed);
      if failed {
        GoClean(RemoveLease(false), Closed(s, h), NotReleased(next));
        return false;
      }
      GoClean(RemoveLease(true), s.(leases := s.leases - {h.id}), Unlock(h, next));
      ghost var s1 := s;
      failed := Fails();
      LeadsUnlockLease(s, me, h, next, !failed);
      GoClean(UnlockLease(!failed), Closed(s, h), if failed then NotReleased(next) else Released(next));
      CleanTwice(s0, s1, s, me, regular);
      return !failed;
    }

    // `remove_dir_all` of a staging directory: all of it goes, or some of it and an error.
    method RemoveStaging(h: Handle, k: WipeFor) returns (ok: bool)
      requires Valid() && PcOf(s, me) == Wipe(h, k)
      modifies this
      ensures Valid() && PcOf(s, me) == Wiped(h, k, ok) && regular == old(regular) && Clean(old(s), s, me, regular)
      ensures s.leases == old(s).leases && (ok || !k.ForScan? ==> s.held == old(s).held)
      ensures ok ==> h.id in Dirs(old(s), h.root)
      ensures ok && h.root.Results? ==> s.staging == old(s).staging - {h.id} && s.sources == old(s).sources
      ensures ok && h.root.Sources? ==> s.sources == old(s).sources - {h.id} && s.staging == old(s).staging
      ensures Calm(old(faults)) ==> Calm(faults) && (h.id in Dirs(old(s), h.root) ==> ok)
    {
      hide Valid, Step, PcOf, Calm, Wiped, Clean, PrunedDir;
      ghost var s0 := s;
      var failed := Fails();
      ok := !failed && h.id in Dirs(s, h.root);
      if failed && h.id in Dirs(s, h.root) {
        RemoveSome(h, k);
      } else {
        CleanNothing(s, me, regular);
      }
      ghost var s1 := s;
      LeadsWipe(s, me, h, k, ok);
      GoClean(WipeAll(ok),
              if ok then SetDirs(s, h.root, Dirs(s, h.root) - {h.id}) else if k.ForScan? then Closed(s, h) else s,
              Wiped(h, k, ok));
      CleanTwice(s0, s1, s, me, regular);
    }

    // A removal that fails has removed some of the directory.
    method RemoveSome(h: Handle, k: WipeFor)
      requires Valid() && PcOf(s, me) == Wipe(h, k) && h.id in Dirs(s, h.root)
      modifies this`s, this`trace, this`regular
      ensures Valid() && PcOf(s, me) == Wipe(h, k) && regular == old(regular) && Clean(old(s), s, me, regular)
      ensures s.leases == old(s).leases && s.held == old(s).held
    {
      hide Valid, Step, PcOf, Clean, PrunedDir;
      var left := SomeOf(Dirs(s, h.root)[h.id]);
      LeadsWipePartial(s, me, h, k, left);
      GoClean(WipePartial(left), SetDirs(s, h.root, Dirs(s, h.root)[h.id := left]), Wipe(h, k));
    }

    method SomeOf(dir: Dir) returns (left: Dir)
      ensures PrunedDir(left, dir)
    {
      PrunedDirSelf(dir);
      left :| PrunedDir(left, dir);
    }

    // Dropping the store lock on return.
    method GiveUpLock()
      requires Valid() && AfterReturn(PcOf(s, me)).Some?
      modifies this`s, this`trace, this`regular
      ensures Valid() && PcOf(s, me) == AfterReturn(PcOf(old(s), me)).value && regular == old(regular)
      ensures s == old(s).(lock := None, log := old(s).log + ReturnEvents(PcOf(old(s), me)), pcs := s.pcs)
      ensures regular ==> Clears(old(s), s, me)
    {
      hide Valid, Step, PcOf, AfterReturn, ReturnEvents, Clears;
      LeadsReturn(s, me);
      Returns(PcOf(s, me));
      Go(Unlocked, s.(lock := None, log := s.log + ReturnEvents(PcOf(s, me))), AfterReturn(PcOf(s, me)).value);
    }

    // The drop of a handle, after its lease was taken out or not. It can fail, silently.
    method Drop(h: Handle, leased: bool)
      requires Valid() && PcOf(s, me) == DropWait(h, leased) && s.lock.None?
      modifies this
      ensures Valid() && s.results == old(s).results && s.lock.None? && PcOf(s, me) == Idle && regular == old(regular)
      ensures Calm(old(faults)) && h.id in Dirs(old(s), h.root) ==> Drops(old(s), s, h, leased)
    {
      hide Valid, Step, PcOf, Calm, Dirs, Clears, Clearing, Drops;
      ghost var s0 := s;
      var failed := Fails();
      LeadsDropLock(s, me, h, leased, !failed);
      if failed {
        Go(LockStore(false), s, if leased then CloseLease(h) else Idle);
        if leased { Close(h); }
        return;
      }
      LockedDirs(s, me, Wipe(h, ForDrop(leased)), h.root);
      Go(LockStore(true), s.(lock := Some(me)), Wipe(h, ForDrop(leased)));
      ghost var s1 := s;
      DropLocked(h, leased);
      DropsToo(s0, s1, s, h, leased);
    }

    method Close(h: Handle)
      requires Valid() && PcOf(s, me) == CloseLease(h)
      modifies this
      ensures Valid() && s.results == old(s).results && s.lock == old(s).lock && PcOf(s, me) == Idle
      ensures regular == old(regular)
    {
      hide Valid, Step, PcOf;
      LeadsClose(s, me, h);
      Go(Op.Close, Closed(s, h).(abandoned := s.abandoned + {h.ino}), Idle);
    }

    method DropLocked(h: Handle, leased: bool)
      requires Valid() && PcOf(s, me) == Wipe(h, ForDrop(leased))
      modifies this
      ensures Valid() && s.results == old(s).results && s.lock.None? && PcOf(s, me) == Idle && regular == old(regular)
      ensures Calm(old(faults)) && h.id in Dirs(old(s), h.root) ==> Drops(old(s), s, h, leased)
    {
      hide Valid, Step, PcOf, Calm, Clears;
      // An error of the removal is ignored, and so is one of the release.
      var removed := RemoveStaging(h, ForDrop(leased));
      if leased { var _ := ReleaseAndRemoveLockFile(h, ThenDropped); }
      GiveUpLock();
    }

    // `rollback_published_result`: the entry is gone, or some of it is left.
    method RollbackPublishedResult(c: Cx, cleanupLease: bool) returns (ok: bool)
      requires Valid() && PcOf(s, me) == Rollback(c, cleanupLease)
      modifies this
      ensures Valid() && regular == old(regular) && s.lock == old(s).lock
      ensures if ok then s.results == old(s).results - {c.rid} else LeftAt(old(s).results, s.results, c.rid)
      ensures PcOf(s, me) ==
        if !ok then FailDone(c, Corrupt(false), cleanupLease)
        else if cleanupLease then Release(c.h, ThenFail(c)) else FailDone(c, Failed, false)
      ensures Calm(old(faults)) ==> ok && Calm(faults)
    {
      hide Valid, Step, PcOf, Calm, PrunedDir, Clears;
      var failed := Fails();
      LeadsRollback(s, me, c, cleanupLease, !failed);
      Go(RollbackCheck(!failed), s,
         if failed then FailDone(c, Corrupt(false), cleanupLease) else RollbackWipe(c, cleanupLease));
      if failed { return false; }
      ok := RemovePublished(c, cleanupLease);
      if !ok { return; }
      failed := Fails();
      LeadsRollbackSynced(s, me, c, cleanupLease, !failed);
      Go(RollbackSynced(!failed), s, Synced(c, cleanupLease, !failed));
      return !failed;
    }

    // `remove_dir_all` of the published entry.
    method RemovePublished(c: Cx, cleanupLease: bool) returns (ok: bool)
      requires Valid() && PcOf(s, me) == RollbackWipe(c, cleanupLease)
      modifies this
      ensures Valid() && regular == old(regular) && s.lock == old(s).lock
      ensures if ok then s.results == old(s).results - {c.rid} else LeftAt(old(s).results, s.results, c.rid)
      ensures PcOf(s, me) == if ok then RollbackSync(c, cleanupLease) else FailDone(c, Corrupt(false), cleanupLease)
      ensures Calm(old(faults)) ==> ok && Calm(faults)
    {
      hide Valid, Step, PcOf, Calm, PrunedDir, Clears;
      var failed := Fails();
      if failed && c.rid in s.results {
        var left := SomeOf(s.results[c.rid]);
        LeadsRollbackPartial(s, me, c, cleanupLease, left);
        Go(RollbackPartial(left), s.(results := s.results[c.rid := left], tainted := s.tainted + {c.rid}),
           RollbackWipe(c, cleanupLease));
      }
      LeadsRollbackRemove(s, me, c, cleanupLease, !failed);
      if failed {
        Go(RollbackRemove(false), s, FailDone(c, Corrupt(false), cleanupLease));
      } else {
        Go(RollbackRemove(true), s.(results := s.results - {c.rid}, tainted := s.tainted - {c.rid},
                                    log := s.log + [Undone(c.h.id, c.rid)]), RollbackSync(c, cleanupLease));
      }
      return !failed;
    }

    // `fail_after_publish`: the results are as they were before the rename, or the entry is called corrupt.
    method FailAfterPublish(c: Cx, cleanupLease: bool) returns (outcome: Outcome)
      requires Valid() && PcOf(s, me) == Rollback(c, cleanupLease)
      modifies this
      ensures Valid() && regular == old(regular) && s.lock == old(s).lock
      ensures Returning(PcOf(s, me)) == Some(outcome) && CxOf(PcOf(s, me)) == Some(c)
      ensures outcome == Failed || outcome.Corrupt?
      ensures
        if outcome == Corrupt(false) then LeftAt(old(s).results, s.results, c.rid)
        else s.results == old(s).results - {c.rid}
      ensures Calm(old(faults)) ==> outcome == Failed
    {
      hide Valid, Step, PcOf, Calm, PrunedDir, Clears;
      var ok := RollbackPublishedResult(c, cleanupLease);
      if !ok { return Corrupt(false); }
      if cleanupLease {
        var released := ReleaseAndRemoveLockFile(c.h, ThenFail(c));
        if !released { return Corrupt(true); }
      }
      return Failed;
    }

    // After the rename: validate again, release the lease, sync the results.
    method Settle(c: Cx) returns (outcome: Outcome)
      requires Valid() && regular && PcOf(s, me) == CommitVerify(c)
      modifies this
      ensures Valid() && regular && s.lock == old(s).lock && CxOf(PcOf(s, me)) == Some(c)
      ensures Returning(PcOf(s, me)) == Some(outcome)
      ensures Calm(old(faults)) ==> outcome == Published && Calm(faults)
      ensures Calm(old(faults)) && c.h.id !in old(s).staging ==> Left(old(s), s, me, c)
    {
      hide Valid, Step, PcOf, Calm, CompleteDir, Inv, CxOf, Returning, LeftAt, Clears, Left;
      ghost var s0 := s;
      Invariant();
      StagedAt(s, me);
      var failed := Fails();
      LeadsVerify(s, me, c, !failed);
      Go(VerifyPublished(!failed), s, if failed then Rollback(c, true) else Release(c.h, ThenSync(c)));
      if failed {
        outcome := FailAfterPublish(c, true);
        return;
      }
      outcome := FinishLease(c);
      if outcome.Published? && c.h.id !in s0.staging {
        assert s0.staging - {c.h.id} == s0.staging;
        NothingLeft(s0, s, me, c);
      }
    }

    // `finish_lease` and the sync.
    method FinishLease(c: Cx) returns (outcome: Outcome)
      requires Valid() && regular && PcOf(s, me) == Release(c.h, ThenSync(c))
      modifies this
      ensures Valid() && regular && s.lock == old(s).lock && CxOf(PcOf(s, me)) == Some(c)
      ensures Returning(PcOf(s, me)) == Some(outcome)
      ensures outcome.Published? ==> PcOf(s, me) == CommitDone(c, Published) && Unleases(old(s), s, c.h)
      ensures Calm(old(faults)) ==> outcome == Published && Calm(faults)
    {
      hide Valid, Step, PcOf, Calm, CxOf, Returning, LeftAt, Clears;
      PublishedReturns(c);
      var released := ReleaseAndRemoveLockFile(c.h, ThenSync(c));
      if !released {
        outcome := FailAfterPublish(c, false);
        return;
      }
      outcome := SyncOrFail(c);
    }

    method SyncOrFail(c: Cx) returns (outcome: Outcome)
      requires Valid() && regular && PcOf(s, me) == CommitSync(c)
      modifies this
      ensures Valid() && regular && s.lock == old(s).lock && CxOf(PcOf(s, me)) == Some(c)
      ensures Returning(PcOf(s, me)) == Some(outcome)
      ensures outcome.Published? ==> PcOf(s, me) == CommitDone(c, Published) && Untouched(old(s), s)
      ensures Calm(old(faults)) ==> outcome == Published && Calm(faults)
    {
      hide Valid, Step, PcOf, Calm, CxOf, Returning, LeftAt, Clears;
      PublishedReturns(c);
      var failed := Fails();
      LeadsSync(s, me, c, !failed);
      Go(SyncResults(!failed), s, if failed then Rollback(c, false) else CommitDone(c, Published));
      if failed {
        outcome := FailAfterPublish(c, false);
        return;
      }
      return Published;
    }

    // The entry is there already: the staged copy goes.
    method FinishExisting(c: Cx) returns (outcome: Outcome)
      requires Valid() && regular && PcOf(s, me) == Wipe(c.h, ForExisting(c))
      modifies this
      ensures Valid() && regular && s.lock == old(s).lock && CxOf(PcOf(s, me)) == Some(c)
      ensures Returning(PcOf(s, me)) == Some(outcome)
      ensures Calm(old(faults)) ==>
        outcome == Existing && Calm(faults) && (c.h.root.Results? ==> Left(old(s), s, me, c))
    {
      hide Valid, Step, PcOf, Calm, SameStory, Inv, Clears;
      Invariant();
      StagedAt(s, me);
      var removed := RemoveStaging(c.h, ForExisting(c));
      if !removed { return Failed; }
      var released := ReleaseAndRemoveLockFile(c.h, ThenExisting(c));
      return if released then Existing else Failed;
    }

    // `commit` between taking the store lock and giving it up: first the staged tree.
    method Publish(c: Cx) returns (outcome: Outcome)
      requires Valid() && regular && PcOf(s, me) == CommitCheck(c)
      modifies this
      ensures Valid() && regular && s.lock == old(s).lock && CxOf(PcOf(s, me)) == Some(c)
      ensures Returning(PcOf(s, me)) == Some(outcome)
      ensures Calm(old(faults)) ==>
        outcome == Expected(old(s), c.h, c.rid) && Calm(faults) && (c.h.root.Results? ==> Left(old(s), s, me, c))
    {
      hide Valid, Step, PcOf, Calm, ValidOutputTree, CompleteDir, Inv, CxOf, Returning, Clears;
      EarlyReturns(c);
      Invariant();
      StagedAt(s, me);
      var failed := Fails();
      var prefix := s.staging[c.h.id].prefix;
      var valid := !failed && prefix.Some? && ValidOutputTree(prefix.value);
      LeadsCheckTree(s, me, c, valid);
      Go(CheckTree(valid), s, if valid then CommitMeta(c) else EarlyErr(c, true));
      if !valid { return Failed; }
      failed := Fails();
      var written := !failed && s.staging[c.h.id].meta.NoMeta?;
      LeadsWriteMeta(s, me, c, written, Junk);
      Go(WriteMeta(written, Junk), s.(staging := s.staging[c.h.id := Written(s.staging[c.h.id], c, written, Junk)]),
         if written then CommitPlace(c) else EarlyErr(c, true));
      if !written { return Failed; }
      outcome := Place(c);
    }

    // Then the destination.
    method Place(c: Cx) returns (outcome: Outcome)
      requires Valid() && regular && PcOf(s, me) == CommitPlace(c)
      modifies this
      ensures Valid() && regular && s.lock == old(s).lock && CxOf(PcOf(s, me)) == Some(c)
      ensures Returning(PcOf(s, me)) == Some(outcome)
      ensures Calm(old(faults)) ==>
        outcome == ExpectedAt(old(s), c.rid) && Calm(faults) && (c.h.root.Results? ==> Left(old(s), s, me, c))
    {
      hide Valid, Step, PcOf, Calm, CompleteDir, Inv, Clears, CxOf, Returning;
      EarlyReturns(c);
      Invariant();
      StagedAt(s, me);
      var failed := Fails();
      var present := c.rid in s.results;
      var complete := present && CompleteDir(s.results[c.rid], c.rid);
      LeadsCheckDestination(s, me, c, !failed);
      Go(CheckDestination(!failed), s,
         if failed || (present && !complete) then EarlyErr(c, true)
         else if present then Wipe(c.h, ForExisting(c)) else CommitRename(c));
      if failed || (present && !complete) { return Failed; }
      if present { outcome := FinishExisting(c); } else { outcome := RenameIntoResults(c); }
    }

    // `fs::rename`, and what follows it.
    method RenameIntoResults(c: Cx) returns (outcome: Outcome)
      requires Valid() && regular && PcOf(s, me) == CommitRename(c)
      modifies this
      ensures Valid() && regular && s.lock == old(s).lock && CxOf(PcOf(s, me)) == Some(c)
      ensures Returning(PcOf(s, me)) == Some(outcome)
      ensures Calm(old(faults)) ==>
        outcome == Published && Calm(faults) && (c.h.root.Results? ==> Left(old(s), s, me, c))
    {
      hide Valid, Step, PcOf, Calm, CompleteDir, Inv, Clears, CxOf, Returning;
      EarlyReturns(c);
      Invariant();
      StagedAt(s, me);
      var failed := Fails();
      LeadsRename(s, me, c, !failed);
      if failed {
        Go(Rename(false), s, EarlyErr(c, true));
        return Failed;
      }
      Go(Rename(true), s.(staging := s.staging - {c.h.id}, results := s.results[c.rid := s.staging[c.h.id]],
                          log := s.log + [Placed(c.h.id, c.rid, s.staging[c.h.id])]), CommitVerify(c));
      outcome := Settle(c);
    }

    // `commit`, and the drop of its handle on an error: what it reports is what it did.
    method Commit(h: Handle, rid: ResultId) returns (outcome: Outcome)
      requires Valid() && regular && PcOf(s, me) == Live(h) && h.root.Results? && s.lock.None?
      modifies this
      ensures Valid() && s.lock.None? && PcOf(s, me) == Idle
      ensures CommitMeans(outcome, rid, old(s).results, StagedPrefix(old(s), h), s.results)
      ensures outcome.Published? ==> rid in s.results && SoundDir(s.results[rid], rid)
      ensures Calm(old(faults)) ==> Reports(outcome, old(s), h, rid)
      ensures Calm(old(faults)) ==> Drops(old(s), s, h, true)
    {
      hide Valid, Step, PcOf, Calm, CommitMeans, CxOf, Returning, Inv, ValidOutputTree, CompleteDir, Clears, SoundDir,
        Reports, Expected, Left, Drops;
      var s0 := s;
      LeadsEnd(s, me, h, StartCommit(rid));
      Go(StartCommit(rid), s, CommitWait(h, rid));
      Invariant();
      StagedAt(s, me);
      var failed := Fails();
      LeadsCommitLock(s, me, h, rid, !failed);
      var c := Cx(h, rid, s0.results, s0.staging[h.id].prefix);
      if failed {
        Go(LockStore(false), s, DropWait(h, true));
        Drop(h, true);
        NothingDone(rid, s.results, StagedPrefix(s0, h));
        return Failed;
      }
      Go(LockStore(true), s.(lock := Some(me)), CommitCheck(c));
      SameExpected(s0, s, h, rid);
      ghost var s1 := s;
      outcome := Publish(c);
      if Calm(old(faults)) { LeftLater(s0, s1, s, me, c); }
      FinishCommit(c, outcome, s0);
      if outcome.Published? { PublishedIsSound(rid, s0.results, StagedPrefix(s0, h), s.results); }
      ExpectedReports(s0, h, rid);
    }

    // The return, and the drop.
    method FinishCommit(c: Cx, outcome: Outcome, ghost s0: State)
      requires Valid() && regular && CxOf(PcOf(s, me)) == Some(c) && Returning(PcOf(s, me)) == Some(outcome)
      modifies this
      ensures Valid() && s.lock.None? && PcOf(s, me) == Idle
      ensures CommitMeans(outcome, c.rid, c.before, c.tree, s.results)
      ensures Calm(old(faults)) && c.h.root.Results? && Left(s0, old(s), me, c) ==> Drops(s0, s, c.h, true)
    {
      hide Valid, Step, PcOf, Calm, CommitMeans, CxOf, Returning, Inv, AfterReturn, ReturnEvents, Clears, Left, Drops;
      ghost var s1 := s;
      Invariant();
      ReturnMeans(s, me);
      ReturnsTo(PcOf(s, me), c);
      GiveUpLock();
      ghost var s2 := s;
      if Left(s0, s1, me, c) { LeftReturns(s0, s1, s2, me, c); }
      match PcOf(s, me) {
        case DropWait(h, leased) => Drop(h, leased);
        case CloseLease(h) => Close(h);
        case Idle =>
      }
      if Calm(old(faults)) && c.h.root.Results? && Left(s0, s1, me, c) {
        if c.h.id in s2.staging { DropsToo(s1, s2, s, c.h, true); }
        LeftDrops(s0, s1, s, me, c);
      }
    }

    // One attempt of `begin` or `begin_unverified_source`, with this name.
    method TryBegin(root: Root, n: nat, id: TxId) returns (made: Option<Handle>)
      requires Valid() && PcOf(s, me) == BeginTry(root, n) && ValidTransactionId(id)
      modifies this
      ensures Valid() && Aside(old(s), s)
      ensures made.Some? ==> PcOf(s, me) == Ready(made.value) && made.value.root == root && made.value.id == id
      ensures made.Some? ==> Free(old(s), root, id) && Adds(old(s), s, made.value)
      ensures made.None? ==> PcOf(s, me) == BeginErr || PcOf(s, me) == Retry(root, n)
      ensures Calm(old(faults)) && NoneAhead(old(s)) ==>
        && Calm(faults) && NoneAhead(s) && (made.Some? <==> Free(old(s), root, id))
        && (made.None? ==> PcOf(s, me) == Retry(root, n) && Untouched(old(s), s))
    {
      hide Valid, Step, PcOf, Calm, ValidTransactionId, Retry, Clears, Makes, Adds, Unleases, NoneAhead, Dirs;
      ghost var s0 := s;
      NothingTouched(s);
      var failed := Fails();
      var unverified := Fails();
      var creation := if failed then NotCreated else if unverified then CreatedUnverified else Created;
      var h := Handle(root, id, s.nextInode);
      LeadsCreate(s, me, root, n, id, creation);
      if id in s.leases {
        Go(CreateLease(id, creation), s, Retry(root, n));
        OnlyLocked(s0, s);
        return None;
      }
      if failed {
        Go(CreateLease(id, creation), s, BeginErr);
        return None;
      }
      Go(CreateLease(id, creation), s.(leases := s.leases[id := h.ino], nextInode := h.ino + 1),
         if creation.Created? then BeginFile(n, h) else BeginErr);
      if !creation.Created? { return None; }
      ghost var s1 := s;
      AttemptStarts(s0, s1, h);
      made := Lease(n, h);
      AttemptEnds(s0, s1, s, h, me);
    }

    // The lock on the lease, and the stage.
    method Lease(n: nat, h: Handle) returns (made: Option<Handle>)
      requires Valid() && PcOf(s, me) == BeginFile(n, h)
      modifies this
      ensures Valid() && Aside(old(s), s)
      ensures made.Some? ==> PcOf(s, me) == Ready(made.value) && made.value == h && Makes(old(s), s, h)
      ensures made.Some? ==> s.held == old(s).held[h.ino := me] && s.nextInode == old(s).nextInode
      ensures made.None? ==> PcOf(s, me) == BeginErr || PcOf(s, me) == Retry(h.root, n)
      ensures Calm(old(faults)) && h.ino !in old(s).held ==>
        && Calm(faults) && (made.Some? <==> h.id !in Dirs(old(s), h.root))
        && (made.None? ==>
              && PcOf(s, me) == Retry(h.root, n) && Unleases(old(s), s, h)
              && s.held == old(s).held && s.nextInode == old(s).nextInode)
    {
      hide Valid, Step, PcOf, Calm, Retry, Clears, Dirs;
      ghost var s0 := s;
      var failed := Fails();
      var locked := !failed && h.ino !in s.held;
      LeadsLockLease(s, me, n, h, locked);
      if !locked {
        Go(LockLease(false), s, BeginErr);
        return None;
      }
      Go(LockLease(true), s.(held := s.held[h.ino := me]), BeginLeased(n, h));
      assert s0.held[h.ino := me] - {h.ino} == s0.held;
      assert Dirs(s, h.root) == Dirs(s0, h.root) by { DirsOf(s0, s, h.root); }
      made := Stage(n, h);
    }

    // The directories of the stage.
    method Stage(n: nat, h: Handle) returns (made: Option<Handle>)
      requires Valid() && PcOf(s, me) == BeginLeased(n, h)
      modifies this
      ensures Valid() && Aside(old(s), s)
      ensures made.Some? ==> PcOf(s, me) == Ready(made.value) && made.value == h && Makes(old(s), s, h)
      ensures made.Some? ==> s.held == old(s).held && s.nextInode == old(s).nextInode
      ensures made.None? ==> PcOf(s, me) == BeginErr || PcOf(s, me) == Retry(h.root, n)
      ensures Calm(old(faults)) ==>
        && Calm(faults) && (made.Some? <==> h.id !in Dirs(old(s), h.root))
        && (made.None? ==>
              && PcOf(s, me) == Retry(h.root, n) && Unleases(old(s), s, h)
              && s.held == old(s).held - {h.ino} && s.nextInode == old(s).nextInode)
      ensures OneFault(old(faults)) ==> made.None? && Unleases(old(s), s, h)
    {
      hide Valid, Step, Calm, Retry, FreshName, Clears;
      var failed;
      failed, faults := NextCall(faults);
      var taken := h.id in Dirs(s, h.root);
      LeadsMakeStage(s, me, n, h, !failed);
      Do(MakeStage(!failed));
      hide PcOf;
      if taken || failed {
        var _ := ReleaseAndRemoveLockFile(h, if taken then BackToTry(h.root, n) else BackWithError);
        return None;
      }
      if h.root.Sources? { return Some(h); }
      var ok := MakePrefixIn(h);
      return if ok then Some(h) else None;
    }

    // The prefix directory of a build stage; on a failure the stage goes again.
    method MakePrefixIn(h: Handle) returns (ok: bool)
      requires Valid() && PcOf(s, me) == BeginPrefix(h) && h.id in s.staging
      modifies this
      ensures Valid() && Aside(old(s), s) && PcOf(s, me) == if ok then Ready(h) else BeginErr
      ensures ok ==> s.staging == old(s).staging[h.id := NewStage(Results)] && s.sources == old(s).sources
      ensures ok ==> s.leases == old(s).leases && s.held == old(s).held && s.nextInode == old(s).nextInode
      ensures Calm(old(faults)) ==> ok && Calm(faults)
      ensures OneFault(old(faults)) && h.root.Results? ==> !ok && Drops(old(s), s, h, true)
    {
      hide Valid, Step, PcOf, Calm, Clears;
      var failed;
      failed, faults := NextCall(faults);
      LeadsMakePrefix(s, me, h, !failed);
      if !failed {
        Go(MakePrefix(true), s.(staging := s.staging[h.id := Dir(Results, Some(EmptyFolder), NoMeta)]), Ready(h));
        return true;
      }
      Go(MakePrefix(false), s, Wipe(h, ForBeginError));
      Undo(h);
      return false;
    }

    // Errors of the removal and of the release are ignored.
    method Undo(h: Handle)
      requires Valid() && PcOf(s, me) == Wipe(h, ForBeginError)
      modifies this
      ensures Valid() && Aside(old(s), s) && PcOf(s, me) == BeginErr
      ensures Calm(old(faults)) && h.id in Dirs(old(s), h.root) ==> Drops(old(s), s, h, true)
    {
      hide Valid, Step, PcOf, Calm, Clears;
      var _ := RemoveStaging(h, ForBeginError);
      var _ := ReleaseAndRemoveLockFile(h, BackWithError);
    }

    // `begin` and `begin_unverified_source`, with the names that `transaction_id` makes: a live handle on a new
    // stage of its own, or nothing. Without faults it takes the first name that is free, and gives up only when
    // none of them is.
    method Begin(root: Root, ids: seq<TxId>) returns (handle: Option<Handle>)
      requires Valid() && PcOf(s, me) == Idle && s.lock.None?
      requires |ids| == 128 && forall i | 0 <= i < |ids| :: ValidTransactionId(ids[i])
      modifies this
      ensures Valid() && s.lock.None? && s.results == old(s).results
      ensures handle.Some? ==> PcOf(s, me) == Live(handle.value) && handle.value.root == root && handle.value.id in ids
      ensures handle.Some? ==>
        handle.value.id in Dirs(s, root) && Dirs(s, root)[handle.value.id] == NewStage(root)
      ensures handle.None? ==> PcOf(s, me) == Idle
      ensures handle.Some? && regular ==>
        var h := handle.value;
        h.id in Dirs(s, h.root) && h.id in s.leases && s.leases[h.id] == h.ino && h.ino in s.held && s.held[h.ino] == me
      ensures Calm(old(faults)) && old(regular) ==>
        TakenOnly(old(s), s, root, ids, handle)
    {
      hide Valid, Step, PcOf, Calm, Inv, Clears, Free, NoneAhead, Adds, Untouched, FirstFree, TakenOnly, Dirs;
      ghost var s0 := s;
      if regular {
        Invariant();
        NoneAheadOf(s);
      }
      LeadsStart(s, me, StartBegin(root));
      Go(StartBegin(root), s.(lock := Some(me)), BeginTry(root, 0));
      ghost var s1 := s;
      OnlyLocked(s0, s1);
      handle := Attempts(root, ids);
      ghost var s2 := s;
      GiveUpLock();
      SameAttempts(s0, s1, s2, s, root, ids, handle);
      if handle.Some? && regular {
        Invariant();
        LiveHolds(s, me, handle.value);
      }
    }

    // `for _ in 0..128`.
    method Attempts(root: Root, ids: seq<TxId>) returns (handle: Option<Handle>)
      requires Valid() && PcOf(s, me) == BeginTry(root, 0)
      requires |ids| == MaxTries && forall i | 0 <= i < |ids| :: ValidTransactionId(ids[i])
      modifies this
      ensures Valid() && Aside(old(s), s)
      ensures if handle.Some? then PcOf(s, me) == Ready(handle.value) else PcOf(s, me) == BeginErr
      ensures handle.Some? ==> handle.value.root == root && handle.value.id in ids
      ensures handle.Some? ==> handle.value.id in Dirs(s, root) && Dirs(s, root)[handle.value.id] == NewStage(root)
      ensures Calm(old(faults)) && NoneAhead(old(s)) ==> TakenOnly(old(s), s, root, ids, handle)
    {
      hide Valid, Step, PcOf, Calm, Clears, ValidTransactionId, Retry, Free, NoneAhead, Adds, Untouched, Dirs,
        FirstFree, Aside;
      ghost var s0, calm := s, Calm(faults) && NoneAhead(s);
      NothingTouched(s);
      NothingAside(s);
      handle := None;
      var n := 0;
      while n < MaxTries
        invariant n <= MaxTries && Valid() && Aside(s0, s) && handle.None?
        invariant PcOf(s, me) == if n < MaxTries then BeginTry(root, n) else BeginErr
        invariant calm ==> Calm(faults) && NoneAhead(s) && Untouched(s0, s)
        invariant calm ==> forall j | 0 <= j < n :: !Free(s0, root, ids[j])
      {
        ghost var s1 := s;
        handle := TryBegin(root, n, ids[n]);
        Retries(root, n);
        AsideTwice(s0, s1, s);
        if handle.Some? {
          TakenAt(s0, s1, s, root, ids, n, handle.value, calm);
          return;
        }
        if calm { StillTaken(s0, s1, s, root, ids[n]); }
        if PcOf(s, me).BeginErr? { return; }
        n := n + 1;
      }
    }

    // `recover_staging_root`, from the directory listing on.
    method RecoverStagingRoot(rec: Rec, root: Root, listing: set<TxId>) returns (r: Option<Rec>)
      requires Valid() && PcOf(s, me) == Scan(rec, root, listing) && listing == Dirs(s, root).Keys
      modifies this
      ensures Valid() && regular == old(regular) && Clean(old(s), s, me, regular)
      ensures r.Some? ==> PcOf(s, me) == Scan(r.value, root, {}) && AllValid(listing)
      ensures r.Some? ==> r.value.count >= rec.count && Visited(old(s), s, root, listing, r.value.count - rec.count)
      ensures r.None? ==> PcOf(s, me).RecoverEnd? && !PcOf(s, me).ok
      ensures Calm(old(faults)) ==> Calm(faults) && (listing <= old(s).leases.Keys && AllValid(listing) ==> r.Some?)
    {
      hide Valid, Step, PcOf, Calm, Clears, Clean, ValidTransactionId, AllValid, Visited, VisitedOne, VisitedSoFar,
        Dirs;
      ghost var s0, calm := s, Calm(faults);
      CleanNothing(s, me, regular);
      VisitsBegin(s, root, listing);
      var todo, done := listing, rec;
      while todo != {}
        invariant Valid() && regular == old(regular) && Clean(s0, s, me, regular)
        invariant PcOf(s, me) == Scan(done, root, todo)
        invariant VisitedSoFar(s0, s, root, listing, todo, done.count - rec.count)
        invariant calm ==> Calm(faults)
        decreases |todo|
      {
        var id :| id in todo;
        ghost var s1, n := s, done.count - rec.count;
        StillListed(s0, s, root, listing, todo, n, id);
        done := VisitEntry(done, root, todo, id);
        CleanTwice(s0, s1, s, me, regular);
        if PcOf(s, me).RecoverEnd? { return None; }
        VisitsNext(s0, s1, s, root, listing, todo, id, n, done.count - rec.count - n);
        todo := todo - {id};
      }
      VisitsEnd(s0, s, root, listing, done.count - rec.count);
      return Some(done);
    }

    // One entry of the listing: in use, or abandoned and removed.
    method VisitEntry(rec: Rec, root: Root, todo: set<TxId>, id: TxId) returns (rec': Rec)
      requires Valid() && PcOf(s, me) == Scan(rec, root, todo) && id in todo && id in Dirs(s, root)
      modifies this
      ensures Valid() && regular == old(regular) && Clean(old(s), s, me, regular)
      ensures PcOf(s, me) == Scan(rec', root, todo - {id}) || (PcOf(s, me).RecoverEnd? && !PcOf(s, me).ok)
      ensures !PcOf(s, me).RecoverEnd? ==>
        ValidTransactionId(id) && rec'.count >= rec.count && VisitedOne(old(s), s, root, id, rec'.count - rec.count)
      ensures Calm(old(faults)) ==>
        Calm(faults) && (id in old(s).leases && ValidTransactionId(id) ==> !PcOf(s, me).RecoverEnd?)
    {
      hide Valid, Step, PcOf, Calm, ValidTransactionId, Clears, Clean;
      rec' := rec;
      var failed := Fails();
      LeadsTryEntry(s, me, rec, root, todo, id, !failed);
      if failed || !ValidTransactionId(id) || id !in s.leases {
        GoClean(TryEntry(id, !failed), s, RecoverEnd(rec, false));
        return;
      }
      if s.leases[id] in s.held {
        GoClean(TryEntry(id, true), s, Scan(rec, root, todo - {id}));
        assert s.leases - {} == s.leases && s.staging - {} == s.staging && s.sources - {} == s.sources;
        return;
      }
      rec' := TakeEntry(rec, root, todo, id);
    }

    // It belongs to nobody.
    method TakeEntry(rec: Rec, root: Root, todo: set<TxId>, id: TxId) returns (rec': Rec)
      requires Valid() && PcOf(s, me) == Scan(rec, root, todo) && id in todo && id in Dirs(s, root)
      requires ValidTransactionId(id) && id in s.leases && s.leases[id] !in s.held
      modifies this
      ensures Valid() && regular == old(regular) && Clean(old(s), s, me, regular)
      ensures PcOf(s, me) == Scan(rec', root, todo - {id}) || (PcOf(s, me).RecoverEnd? && !PcOf(s, me).ok)
      ensures !PcOf(s, me).RecoverEnd? ==> rec'.count == rec.count + 1 && VisitedOne(old(s), s, root, id, 1)
      ensures Calm(old(faults)) ==> Calm(faults) && !PcOf(s, me).RecoverEnd?
    {
      hide Valid, Step, PcOf, Calm, ValidTransactionId, Clears, Clean;
      ghost var s0 := s;
      var h := Handle(root, id, s.leases[id]);
      LeadsTryEntry(s, me, rec, root, todo, id, true);
      GoClean(TryEntry(id, true), s.(held := s.held[h.ino := me]), Wipe(h, ForScan(rec, root, todo - {id})));
      ghost var s1 := s;
      rec' := RecoverEntry(h, rec, root, todo - {id});
      CleanTwice(s0, s1, s, me, regular);
      assert s0.held[h.ino := me] - {h.ino} == s0.held;
    }

    // One abandoned stage: its directory, then its lease.
    method RecoverEntry(h: Handle, rec: Rec, root: Root, todo: set<TxId>) returns (rec': Rec)
      requires Valid() && PcOf(s, me) == Wipe(h, ForScan(rec, root, todo)) && h.root == root && h.id in Dirs(s, root)
      modifies this
      ensures Valid() && regular == old(regular) && Clean(old(s), s, me, regular)
      ensures PcOf(s, me) == Scan(rec', root, todo) || (PcOf(s, me).RecoverEnd? && !PcOf(s, me).ok)
      ensures !PcOf(s, me).RecoverEnd? ==>
        && rec'.count == rec.count + 1 && s.leases == old(s).leases - {h.id} && s.held == old(s).held - {h.ino}
        && s.staging == (if root.Results? then old(s).staging - {h.id} else old(s).staging)
        && s.sources == (if root.Results? then old(s).sources else old(s).sources - {h.id})
      ensures Calm(old(faults)) ==> Calm(faults) && !PcOf(s, me).RecoverEnd?
    {
      hide Valid, Step, PcOf, Calm, Clears, Clean;
      ghost var s0 := s;
      rec' := rec;
      var removed := RemoveStaging(h, ForScan(rec, root, todo));
      if !removed { return; }
      ghost var s1 := s;
      var gone := rec.(gone := rec.gone + {h.id});
      var released := ReleaseAndRemoveLockFile(h, ThenScan(gone, root, todo));
      CleanTwice(s0, s1, s, me, regular);
      rec' := gone.(count := gone.count + 1);
    }

    // `remove_orphaned_unlocked_leases`, from the directory listing on.
    method RemoveOrphanedUnlockedLeases(rec: Rec, listing: set<TxId>) returns (ok: bool)
      requires Valid() && PcOf(s, me) == Orphans(rec, listing) && listing == s.leases.Keys
      modifies this
      ensures Valid() && regular == old(regular) && Clean(old(s), s, me, regular)
      ensures if ok then PcOf(s, me) == Orphans(rec, {}) else PcOf(s, me).RecoverEnd? && !PcOf(s, me).ok
      ensures ok ==> AllValid(listing) && Swept(old(s), s, listing)
      ensures Calm(old(faults)) ==> Calm(faults) && (AllValid(listing) ==> ok)
    {
      hide Valid, Step, PcOf, Calm, Clears, Clean, ValidTransactionId, AllValid, Swept, SweptOne, SweptSoFar;
      ghost var s0, calm := s, Calm(faults);
      CleanNothing(s, me, regular);
      SweepBegins(s, listing);
      var todo := listing;
      while todo != {}
        invariant Valid() && regular == old(regular) && Clean(s0, s, me, regular)
        invariant PcOf(s, me) == Orphans(rec, todo) && SweptSoFar(s0, s, listing, todo)
        invariant calm ==> Calm(faults)
        decreases |todo|
      {
        var id :| id in todo;
        ghost var s1 := s;
        StillLeased(s0, s, listing, todo, id);
        ok := VisitLease(rec, todo, id);
        CleanTwice(s0, s1, s, me, regular);
        if !ok { return; }
        SweepGoesOn(s0, s1, s, listing, todo, id);
        todo := todo - {id};
      }
      SweepEnds(s0, s, listing);
      return true;
    }

    // One lease of the listing: in use, or an orphan and removed.
    method VisitLease(rec: Rec, todo: set<TxId>, id: TxId) returns (ok: bool)
      requires Valid() && PcOf(s, me) == Orphans(rec, todo) && id in todo && id in s.leases
      modifies this
      ensures Valid() && regular == old(regular) && Clean(old(s), s, me, regular)
      ensures if ok then PcOf(s, me) == Orphans(rec, todo - {id}) else PcOf(s, me).RecoverEnd? && !PcOf(s, me).ok
      ensures ok ==> ValidTransactionId(id) && SweptOne(old(s), s, id)
      ensures Calm(old(faults)) ==> Calm(faults) && (ValidTransactionId(id) ==> ok)
    {
      hide Valid, Step, PcOf, Calm, ValidTransactionId, Clears, Clean;
      var failed := Fails();
      LeadsTryOrphan(s, me, rec, todo, id, !failed);
      if failed || !ValidTransactionId(id) {
        GoClean(TryOrphan(id, !failed), s, RecoverEnd(rec, false));
        return false;
      }
      if id in s.staging || id in s.sources || s.leases[id] in s.held {
        GoClean(TryOrphan(id, true), s, Orphans(rec, todo - {id}));
        return true;
      }
      ok := TakeOrphan(rec, todo, id);
    }

    // It belongs to nobody.
    method TakeOrphan(rec: Rec, todo: set<TxId>, id: TxId) returns (ok: bool)
      requires Valid() && PcOf(s, me) == Orphans(rec, todo) && id in todo && ValidTransactionId(id)
      requires Absent(s, id) && id in s.leases && s.leases[id] !in s.held
      modifies this
      ensures Valid() && regular == old(regular) && Clean(old(s), s, me, regular)
      ensures PcOf(s, me) == if ok then Orphans(rec, todo - {id}) else RecoverEnd(rec, false)
      ensures ok ==> SweptOne(old(s), s, id)
      ensures Calm(old(faults)) ==> Calm(faults) && ok
    {
      hide Valid, Step, PcOf, Calm, ValidTransactionId, Clears, Clean;
      ghost var s0 := s;
      var h := Handle(Results, id, s.leases[id]);
      assert s.held[h.ino := me] - {h.ino} == s.held;
      LeadsTryOrphan(s, me, rec, todo, id, true);
      GoClean(TryOrphan(id, true), s.(held := s.held[h.ino := me]), Release(h, ThenOrphans(rec, todo - {id})));
      ghost var s1 := s;
      ok := ReleaseAndRemoveLockFile(h, ThenOrphans(rec, todo - {id}));
      CleanTwice(s0, s1, s, me, regular);
    }

    // `recover_abandoned`: when it ends without an error, exactly the directories and leases that somebody
    // holds are left, unchanged, and the count is that of the directories that went. Without faults it ends
    // so exactly when every directory has its lease.
    method RecoverAbandoned() returns (r: Option<nat>)
      requires Valid() && PcOf(s, me) == Idle && s.lock.None?
      modifies this
      ensures Valid() && regular == old(regular) && PcOf(s, me) == Idle && s.lock.None? && s.results == old(s).results
      ensures regular ==> Clears(old(s), s, me)
      ensures r.Some? ==> Recoverable(old(s)) && Recovers(old(s), s, r.value)
      ensures Calm(old(faults)) ==> (r.Some? <==> Recoverable(old(s)))
    {
      hide Valid, Step, PcOf, Calm, Clears, Recoverable, Recovers, Clearing, SameDisk;
      ghost var s0 := s;
      LeadsStart(s, me, StartRecover);
      var rec := Rec(0, {}, s.staging.Keys + s.sources.Keys, s.abandoned);
      assert Clearing(StartRecover) by { OnlyClears(); }
      Go(StartRecover, s.(lock := Some(me)), Scan(rec, Results, s.staging.Keys));
      ghost var s1 := s;
      assert SameDisk(s0, s1) by { OnDisk(s0, s0.(lock := Some(me)), me, PcOf(s, me)); }
      r := RecoverAndReturn(rec);
      SameStore(s0, s1, s, if r.Some? then r.value else 0);
      if regular { ClearsTwice(s0, s1, s, me); }
    }

    method RecoverAndReturn(rec: Rec) returns (r: Option<nat>)
      requires Valid() && PcOf(s, me) == Scan(rec, Results, s.staging.Keys) && rec.count == 0
      modifies this
      ensures Valid() && regular == old(regular) && PcOf(s, me) == Idle && s.lock.None? && s.results == old(s).results
      ensures regular ==> Clears(old(s), s, me)
      ensures r.Some? ==> Recoverable(old(s)) && Recovers(old(s), s, r.value)
      ensures Calm(old(faults)) ==> (r.Some? <==> Recoverable(old(s)))
    {
      hide Valid, Step, PcOf, Calm, Clears, Clean, Recoverable, Recovers, SameDisk;
      ghost var s0 := s;
      r := Recover(rec);
      CleanMeans(s0, s, me, regular);
      ghost var s1 := s;
      GiveUpLock();
      assert SameDisk(s1, s) by { OnDisk(s1, s, me, PcOf(s, me)); }
      SameEnd(s0, s1, s, if r.Some? then r.value else 0);
      if regular { ClearsTwice(s0, s1, s, me); }
    }

    // Both staging roots, and then the leases that are left.
    method Recover(rec: Rec) returns (r: Option<nat>)
      requires Valid() && PcOf(s, me) == Scan(rec, Results, s.staging.Keys) && rec.count == 0
      modifies this
      ensures Valid() && regular == old(regular) && Clean(old(s), s, me, regular) && PcOf(s, me).RecoverEnd?
      ensures r.Some? ==> Recoverable(old(s)) && Recovers(old(s), s, r.value)
      ensures Calm(old(faults)) && Recoverable(old(s)) ==> r.Some?
    {
      hide Valid, Step, PcOf, Calm, Clears, Clean, ValidTransactionId, Visited, Recoverable, Recovers;
      ghost var s0 := s;
      RecoverableAsks(s);
      var results := RecoverStagingRoot(rec, Results, s.staging.Keys);
      if results.None? { return None; }
      ghost var s1 := s;
      var n := results.value.count;
      SourcesAsk(s0, s1, n);
      var failed := Fails();
      LeadsNextRoot(s, me, results.value, Results, {}, !failed);
      GoClean(NextRoot(!failed), s,
              if failed then RecoverEnd(results.value, false) else Scan(results.value, Sources, s.sources.Keys));
      CleanTwice(s0, s1, s, me, regular);
      if failed { return None; }
      ghost var s2 := s;
      r := RecoverSources(results.value);
      CleanTwice(s0, s2, s, me, regular);
      if r.Some? { BothRoots(s0, s1, s2, s, n, r.value); }
    }

    method RecoverSources(rec: Rec) returns (r: Option<nat>)
      requires Valid() && PcOf(s, me) == Scan(rec, Sources, s.sources.Keys)
      modifies this
      ensures Valid() && regular == old(regular) && Clean(old(s), s, me, regular) && PcOf(s, me).RecoverEnd?
      ensures r.Some? ==> r.value >= rec.count && Finishes(old(s), s, r.value - rec.count)
      ensures Calm(old(faults)) && old(s).sources.Keys <= old(s).leases.Keys && AllValid(old(s).leases.Keys) ==> r.Some?
    {
      hide Valid, Step, PcOf, Calm, Clears, Clean, ValidTransactionId, Visited, Swept;
      ghost var s0 := s;
      var sources := RecoverStagingRoot(rec, Sources, s.sources.Keys);
      if sources.None? { return None; }
      ghost var s1 := s;
      var failed := Fails();
      LeadsNextRoot(s, me, sources.value, Sources, {}, !failed);
      GoClean(NextRoot(!failed), s,
              if failed then RecoverEnd(sources.value, false) else Orphans(sources.value, s.leases.Keys));
      CleanTwice(s0, s1, s, me, regular);
      if failed { return None; }
      ghost var s2 := s;
      LeavesLeases(s0, s1, sources.value.count - rec.count);
      var ok := RecoverLeases(sources.value);
      CleanTwice(s0, s2, s, me, regular);
      if !ok { return None; }
      BothPasses(s0, s1, s2, s, sources.value.count - rec.count);
      return Some(sources.value.count);
    }

    method RecoverLeases(rec: Rec) returns (ok: bool)
      requires Valid() && PcOf(s, me) == Orphans(rec, s.leases.Keys)
      modifies this
      ensures Valid() && regular == old(regular) && Clean(old(s), s, me, regular) && PcOf(s, me).RecoverEnd?
      ensures ok ==> AllValid(old(s).leases.Keys) && Swept(old(s), s, old(s).leases.Keys)
      ensures Calm(old(faults)) && AllValid(old(s).leases.Keys) ==> ok
    {
      hide Valid, Step, PcOf, Calm, Clears, Clean, AllValid;
      ghost var s0 := s;
      ok := RemoveOrphanedUnlockedLeases(rec, s.leases.Keys);
      if !ok { return; }
      ghost var s1 := s;
      LeadsOrphansDone(s, me, rec);
      GoClean(OrphansDone, s, RecoverEnd(rec, true));
      CleanTwice(s0, s1, s, me, regular);
    }
  }

  lemma LiveHolds(s: State, a: Agent, h: Handle)
    requires Inv(s) && PcOf(s, a) == Live(h)
    ensures h.id in Dirs(s, h.root) && h.id in s.leases && s.leases[h.id] == h.ino && h.ino in s.held &&
        s.held[h.ino] == a
  {
    hide LockInv, HeldInv, LeaseInv, DirInv, ResultInv;
    assert AgentInv(s, a, PcOf(s, a));
  }

  lemma PublishedReturns(c: Cx)
    ensures Returning(CommitDone(c, Published)) == Some(Published) && CxOf(CommitDone(c, Published)) == Some(c)
    ensures Released(ThenSync(c)) == CommitSync(c) && NotReleased(ThenSync(c)) == Rollback(c, false)
  {
  }

  lemma EarlyReturns(c: Cx)
    ensures Returning(EarlyErr(c, true)) == Some(Failed) && CxOf(EarlyErr(c, true)) == Some(c)
  {
  }

  lemma Returns(pc: Pc)
    ensures AfterReturn(pc).Some? ==> !pc.BeginLeased?
  {
  }

  lemma OnlyClears()
    ensures Clearing(StartRecover)
  {
  }

  lemma LockedDirs(s: State, a: Agent, pc: Pc, root: Root)
    ensures Dirs(Goto(s.(lock := Some(a)), a, pc), root) == Dirs(s, root)
  {
  }

  lemma LeftReturns(s0: State, s: State, s': State, a: Agent, c: Cx)
    requires Left(s0, s, a, c) && Untouched(s, s')
    ensures AfterReturn(PcOf(s, a)) == Some(if c.h.id in s'.staging then DropWait(c.h, true) else Idle)
    ensures c.h.root.Results? ==> (c.h.id in s'.staging <==> c.h.id in Dirs(s', c.h.root))
  {
  }

  // Where a return from `commit` leads.
  lemma ReturnsTo(pc: Pc, c: Cx)
    requires Returning(pc).Some? && CxOf(pc) == Some(c)
    ensures AfterReturn(pc) == Some(Idle) || AfterReturn(pc) == Some(CloseLease(c.h))
      || AfterReturn(pc) == Some(DropWait(c.h, true)) || AfterReturn(pc) == Some(DropWait(c.h, false))
  {
  }
}
