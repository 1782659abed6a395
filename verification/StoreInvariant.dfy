// What every reachable state of the store satisfies, whatever removals fail: the locks, the leases
// of live handles, the results, and what each commit under way may rely on.
module StoreInvariant {
  import opened Prelude
  import opened OutputTree
  import opened TransactionIds
  import opened StoreState

  // A recovery's hold on a lease somebody else gave up.
  ghost predicate Reclaims(pc: Pc) {
    match pc
    case Wipe(_, ForScan(_, _, _)) => true
    case Release(_, ThenScan(_, _, _)) => true
    case Release(_, ThenOrphans(_, _)) => true
    case Unlock(_, ThenScan(_, _, _)) => true
    case Unlock(_, ThenOrphans(_, _)) => true
    case _ => false
  }

  // ----- the history ------------------------------------------------------------------

  // The transaction and directory last placed at `rid` and not undone since.
  function Holder(log: seq<Event>, rid: ResultId): Option<(TxId, Dir)> {
    if log == [] then None
    else
      var prev := log[..|log| - 1];
      match log[|log| - 1]
      case Placed(tx, r, d) => if r == rid then Some((tx, d)) else Holder(prev, rid)
      case Undone(_, r) => if r == rid then None else Holder(prev, rid)
      case _ => Holder(prev, rid)
  }

  // The transaction whose commit returned `Published` for `rid`.
  function PublishedBy(log: seq<Event>, rid: ResultId): Option<TxId> {
    if log == [] then None
    else
      match log[|log| - 1]
      case Returned(tx, r, Published) => if r == rid then Some(tx) else PublishedBy(log[..|log| - 1], rid)
      case _ => PublishedBy(log[..|log| - 1], rid)
  }

  // What an event may say, given the events before it.
  ghost predicate Justified(prev: seq<Event>, e: Event) {
    match e
    case Placed(tx, rid, d) => Holder(prev, rid).None? && CompleteDir(d, rid) && d.born.Results?
    case Undone(tx, rid) =>
      Holder(prev, rid).Some? && Holder(prev, rid).value.0 == tx && PublishedBy(prev, rid).None?
    case Returned(tx, rid, Published) =>
      Holder(prev, rid).Some? && Holder(prev, rid).value.0 == tx && PublishedBy(prev, rid).None?
    case Returned(tx, rid, Existing) => Holder(prev, rid).Some?
    case Returned(_, _, _) => true
    case Got(rid, None) => Holder(prev, rid).None?
    case Got(rid, Some(d)) =>
      && Holder(prev, rid).Some? && CompleteDir(d, rid) && PrunedDir(d, Holder(prev, rid).value.1)
      && (PublishedBy(prev, rid).Some? ==> d == Holder(prev, rid).value.1)
  }

  ghost predicate GoodLog(log: seq<Event>) {
    log == [] || (GoodLog(log[..|log| - 1]) && Justified(log[..|log| - 1], log[|log| - 1]))
  }

  // ----- what a removal leaves ----------------------------------------------------------

  lemma PrunedDirSelf(d: Dir)
    ensures PrunedDir(d, d)
  {
    if d.prefix.Some? { PrunedSelf(d.prefix.value); }
  }

  lemma PrunedDirTwice(least: Dir, left: Dir, was: Dir)
    requires PrunedDir(least, left) && PrunedDir(left, was)
    ensures PrunedDir(least, was)
  {
    if least.prefix.Some? { PrunedTwice(least.prefix.value, left.prefix.value, was.prefix.value); }
  }

  // ----- facts that go with a program counter ------------------------------------------

  // This commit's rename has happened and its outcome is open.
  ghost predicate Placing(s: State, c: Cx) {
    && c.rid !in c.before && c.rid in s.results
    && s.results == c.before[c.rid := s.results[c.rid]]
    && Holder(s.log, c.rid).Some?
    && Holder(s.log, c.rid).value.0 == c.h.id
    && Holder(s.log, c.rid).value.1.prefix == c.tree
    && PublishedBy(s.log, c.rid).None?
  }

  ghost predicate PlacedIntact(s: State, c: Cx) { Placing(s, c) && c.rid !in s.tainted }

  ghost predicate Undamaged(s: State, c: Cx) { s.results == c.before }

  // The entry this commit found at its destination is complete and unchanged.
  ghost predicate FoundExisting(s: State, c: Cx) {
    Undamaged(s, c) && c.rid in c.before && CompleteDir(c.before[c.rid], c.rid)
  }

  // The rollback of this commit's rename is done, or failed on the way.
  ghost predicate RolledBack(s: State, c: Cx, undone: bool) {
    c.rid !in c.before && (Undamaged(s, c) || (!undone && Placing(s, c)))
  }

  ghost predicate Staged(s: State, c: Cx) {
    Undamaged(s, c) && c.h.id in s.staging && s.staging[c.h.id].prefix == c.tree
  }

  ghost predicate StagedValid(s: State, c: Cx) {
    Staged(s, c) && c.tree.Some? && ValidOutputTree(c.tree.value)
  }

  ghost predicate StagedComplete(s: State, c: Cx) {
    StagedValid(s, c) && s.staging[c.h.id].meta == Complete(c.rid)
  }

  // No name leads to the lease file of `h` any more.
  ghost predicate Unlinked(s: State, h: Handle) {
    h.id !in s.leases && forall id | id in s.leases :: s.leases[id] != h.ino
  }

  ghost predicate AfterFacts(s: State, h: Handle, next: After) {
    match next
    case ThenExisting(c) => c.h == h && FoundExisting(s, c)
    case ThenSync(c) => c.h == h && PlacedIntact(s, c)
    case ThenFail(c) => c.h == h && Undamaged(s, c) && c.rid !in c.before
    case ThenScan(_, root, todo) => todo <= Dirs(s, root).Keys
    case ThenOrphans(_, todo) => todo <= s.leases.Keys && h.id !in todo
    case _ => true
  }

  ghost predicate Facts(s: State, pc: Pc) {
    match pc
    case BeginPrefix(h) => h.root.Results?
    case CommitWait(h, _) => h.root.Results?
    case CommitCheck(c) => c.h.root.Results? && Staged(s, c)
    case CommitMeta(c) => c.h.root.Results? && StagedValid(s, c)
    case CommitPlace(c) => c.h.root.Results? && StagedComplete(s, c)
    case CommitRename(c) => c.h.root.Results? && StagedComplete(s, c) && c.rid !in s.results
    case CommitVerify(c) => PlacedIntact(s, c)
    case CommitSync(c) => PlacedIntact(s, c)
    case CommitDone(c, outcome) =>
      (outcome.Published? && PlacedIntact(s, c)) || (outcome.Existing? && FoundExisting(s, c))
    case Rollback(c, _) => PlacedIntact(s, c)
    case RollbackWipe(c, _) => Placing(s, c)
    case RollbackSync(c, _) => Undamaged(s, c) && c.rid !in c.before
    case FailDone(c, outcome, _) =>
      (outcome.Failed? && Undamaged(s, c)) || (outcome.Corrupt? && RolledBack(s, c, outcome.undone))
    case EarlyErr(c, _) => Undamaged(s, c)
    case Wipe(h, ForExisting(c)) => c.h == h && FoundExisting(s, c)
    case Wipe(h, ForScan(_, root, todo)) => h.root == root && todo <= Dirs(s, root).Keys && h.id !in todo
    case Release(h, next) => AfterFacts(s, h, next)
    case Unlock(h, next) => AfterFacts(s, h, next) && Unlinked(s, h)
    case Scan(_, root, todo) => todo <= Dirs(s, root).Keys
    case Orphans(_, todo) => todo <= s.leases.Keys
    case _ => true
  }

  // ----- the invariant -------------------------------------------------------------------

  ghost predicate GripInv(s: State, a: Agent, g: Grip) {
    g.Grip? ==>
      && (g.held ==> g.h.ino in s.held && s.held[g.h.ino] == a)
      && (g.linked ==> g.h.id in s.leases && s.leases[g.h.id] == g.h.ino)
      && (g.linked && !g.held ==> g.h.ino !in s.held && g.h.ino !in s.abandoned)
      && (g.dir.Here? ==> g.h.id in Dirs(s, g.h.root))
      && (g.dir.Gone? ==> g.h.id !in Dirs(s, g.h.root))
  }

  ghost predicate AgentInv(s: State, a: Agent, pc: Pc) {
    var g := GripOf(pc);
    && GripInv(s, a, g)
    && (g.Grip? && g.held && !Reclaims(pc) ==> g.h.ino !in s.abandoned)
    && Facts(s, pc)
  }

  ghost predicate LockInv(s: State) {
    forall a: Agent :: GripOf(PcOf(s, a)).lock <==> s.lock == Some(a)
  }

  ghost predicate HoldsIno(g: Grip, i: Inode) { g.Grip? && g.held && g.h.ino == i }

  ghost predicate HeldInv(s: State) {
    forall i | i in s.held :: HoldsIno(GripOf(PcOf(s, s.held[i])), i)
  }

  // A lease file's inode is its own; no inode from the future is in use.
  ghost predicate LeaseInv(s: State) {
    && (forall i, j | i in s.leases && j in s.leases && s.leases[i] == s.leases[j] :: i == j)
    && (forall i | i in s.leases :: s.leases[i] < s.nextInode && ValidTransactionId(i))
    && (forall i | i in s.held :: i < s.nextInode)
    && (forall i | i in s.abandoned :: i < s.nextInode)
  }

  // A directory is in the root it was made in.
  ghost predicate DirInv(s: State) {
    && (forall id | id in s.staging :: s.staging[id].born.Results?)
    && (forall id | id in s.sources :: s.sources[id].born.Sources?)
  }

  ghost predicate ResultInv(s: State) {
    && GoodLog(s.log)
    && s.tainted <= s.results.Keys
    && (forall rid | rid in s.results ::
          && s.results[rid].born.Results?
          && Holder(s.log, rid).Some?
          && CompleteDir(Holder(s.log, rid).value.1, rid)
          && PrunedDir(s.results[rid], Holder(s.log, rid).value.1)
          && (rid !in s.tainted ==>
                s.results[rid] == Holder(s.log, rid).value.1))
    && (forall rid :: rid !in s.results ==> Holder(s.log, rid).None?)
    && (forall rid :: PublishedBy(s.log, rid).Some? ==>
          rid in s.results && rid !in s.tainted && Holder(s.log, rid).value.0 == PublishedBy(s.log, rid).value)
  }

  ghost predicate Inv(s: State) {
    && LockInv(s) && HeldInv(s) && LeaseInv(s) && DirInv(s) && ResultInv(s)
    && forall a: Agent :: AgentInv(s, a, PcOf(s, a))
  }

  // ----- the hypothesis --------------------------------------------------------------------

  // The agent counts on `id` naming no directory in `root`.
  ghost predicate Reserves(g: Grip, root: Root, id: TxId) {
    g.Grip? && g.dir.Gone? && g.h.root == root && g.h.id == id
  }

  // `transaction_id` does not repeat the id of a transaction that is being dropped
  // after it gave its lease up (a failed release in the `Existing` branch of `commit`).
  ghost predicate FreshName(s: State, a: Agent, op: Op) {
    match PcOf(s, a)
    case BeginLeased(n, h) =>
      op == MakeStage(true) ==>
        forall b: Agent :: b != a ==> !Reserves(GripOf(PcOf(s, b)), h.root, h.id)
    case _ => true
  }

  ghost predicate Allowed(s: State, a: Agent, op: Op) {
    Step(s, a, op).Some? && FreshName(s, a, op)
  }
}
