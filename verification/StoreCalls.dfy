// What each call of the operating system does to the store, at the point of the program that makes it.
module StoreCalls {
  import opened Prelude
  import opened OutputTree
  import opened TransactionIds
  import opened StoreState

  // A stage that `begin` has just made.
  function NewStage(root: Root): Dir {
    if root.Results? then Dir(Results, Some(EmptyFolder), NoMeta) else Dir(Sources, None, NoMeta)
  }

  // ----- which calls there are at a program counter -----------------------------------------------

  lemma BeginAt(s: State, a: Agent, op: Op)
    requires StepBegin(s, a, op).Some?
    ensures match op
      case StartBegin(_) => PcOf(s, a).Idle? && s.lock.None?
      case CreateLease(id, _) => PcOf(s, a).BeginTry? && ValidTransactionId(id)
      case LockLease(ok) => PcOf(s, a).BeginFile? && (ok ==> PcOf(s, a).h.ino !in s.held)
      case MakeStage(_) => PcOf(s, a).BeginLeased?
      case MakePrefix(_) => PcOf(s, a).BeginPrefix? && PcOf(s, a).h.id in s.staging
      case _ => false
  {
    hide ValidTransactionId, SetDirs;
  }

  lemma LiveAt(s: State, a: Agent, op: Op)
    requires StepLive(s, a, op).Some?
    ensures match PcOf(s, a)
      case Live(h) =>
        || (op.Write? && h.id in Dirs(s, h.root) && op.dir.born == h.root)
        || op.StartDrop? || (op.StartCommit? && h.root.Results?)
      case CommitWait(h, _) => op.LockStore? && (op.ok ==> s.lock.None? && h.id in s.staging)
      case DropWait(_, _) => op.LockStore? && (op.ok ==> s.lock.None?)
      case CloseLease(_) => op.Close?
      case _ => false
  {
    hide SetDirs;
  }

  lemma CommitAt(s: State, a: Agent, op: Op)
    requires StepCommit(s, a, op).Some?
    ensures match PcOf(s, a)
      case CommitCheck(c) =>
        op.CheckTree? && (op.ok ==> c.h.id in s.staging && s.staging[c.h.id].prefix.Some?
                                    && ValidOutputTree(s.staging[c.h.id].prefix.value))
      case CommitMeta(c) => op.WriteMeta? && c.h.id in s.staging && (op.ok ==> s.staging[c.h.id].meta.NoMeta?)
      case CommitPlace(_) => op.CheckDestination?
      case CommitRename(c) => op.Rename? && (op.ok ==> c.h.id in s.staging && c.rid !in s.results)
      case CommitVerify(c) =>
        op.VerifyPublished? && (op.ok ==> c.rid in s.results && CompleteDir(s.results[c.rid], c.rid))
      case CommitSync(_) => op.SyncResults?
      case _ => false
  {
    hide ValidOutputTree, CompleteDir;
  }

  lemma RollbackAt(s: State, a: Agent, op: Op)
    requires StepRollback(s, a, op).Some?
    ensures match PcOf(s, a)
      case Rollback(_, _) => op.RollbackCheck?
      case RollbackWipe(c, _) =>
        || op.RollbackRemove?
        || (op.RollbackPartial? && c.rid in s.results && PrunedDir(op.dir, s.results[c.rid]))
      case RollbackSync(_, _) => op.RollbackSynced?
      case _ => false
  {
    hide PrunedDir;
  }

  lemma WipeAt(s: State, a: Agent, op: Op)
    requires StepWipe(s, a, op).Some?
    ensures PcOf(s, a).Wipe?
    ensures var h := PcOf(s, a).h;
      || (op.WipeAll? && (op.ok ==> h.id in Dirs(s, h.root)))
      || (op.WipePartial? && h.id in Dirs(s, h.root) && PrunedDir(op.dir, Dirs(s, h.root)[h.id]))
  {
    hide PrunedDir, SetDirs;
  }

  lemma ReleaseAt(s: State, a: Agent, op: Op)
    requires StepRelease(s, a, op).Some?
    ensures (PcOf(s, a).Release? && op.RemoveLease?) || (PcOf(s, a).Unlock? && op.UnlockLease?)
  {
    hide Released, NotReleased;
  }

  lemma RecoverAt(s: State, a: Agent, op: Op)
    requires StepRecover(s, a, op).Some?
    ensures match op
      case StartRecover => PcOf(s, a).Idle? && s.lock.None?
      case TryEntry(id, _) => PcOf(s, a).Scan? && id in PcOf(s, a).todo
      case NextRoot(ok) => PcOf(s, a).Scan? && (ok ==> PcOf(s, a).todo == {})
      case TryOrphan(id, _) => PcOf(s, a).Orphans? && id in PcOf(s, a).todo
      case OrphansDone => PcOf(s, a).Orphans? && PcOf(s, a).todo == {}
      case _ => false
  {
    hide ValidTransactionId;
  }

  // ----- begin ------------------------------------------------------------------------------------

  lemma LeadsStart(s: State, a: Agent, op: Op)
    requires PcOf(s, a) == Idle && s.lock.None? && (op.StartBegin? || op.StartRecover?)
    ensures Step(s, a, op) == Some(Goto(s.(lock := Some(a)), a,
      if op.StartBegin? then BeginTry(op.root, 0)
      else Scan(Rec(0, {}, s.staging.Keys + s.sources.Keys, s.abandoned), Results, s.staging.Keys)))
  {
    hide StepLive, StepCommit, StepRollback, StepWipe, StepRelease, StepGet, StepUnlocked, StepCrash;
  }

  lemma LeadsCreate(s: State, a: Agent, root: Root, n: nat, id: TxId, creation: Creation)
    requires PcOf(s, a) == BeginTry(root, n) && ValidTransactionId(id)
    ensures Step(s, a, CreateLease(id, creation)) == Some(
      if id in s.leases then Goto(s, a, Retry(root, n))
      else if creation.NotCreated? then Goto(s, a, BeginErr)
      else Goto(s.(leases := s.leases[id := s.nextInode], nextInode := s.nextInode + 1), a,
                if creation.Created? then BeginFile(n, Handle(root, id, s.nextInode)) else BeginErr))
  {
    hide StepLive, StepCommit, StepRollback, StepWipe, StepRelease, StepRecover,
         StepGet, StepUnlocked, StepCrash, ValidTransactionId;
  }

  lemma LeadsLockLease(s: State, a: Agent, n: nat, h: Handle, ok: bool)
    requires PcOf(s, a) == BeginFile(n, h) && (ok ==> h.ino !in s.held)
    ensures Step(s, a, LockLease(ok)) ==
      Some(if ok then Goto(s.(held := s.held[h.ino := a]), a, BeginLeased(n, h)) else Goto(s, a, BeginErr))
  {
    hide StepLive, StepCommit, StepRollback, StepWipe, StepRelease, StepRecover,
         StepGet, StepUnlocked, StepCrash;
  }

  // Where the making of a staging directory leads.
  function Made(s: State, n: nat, h: Handle, ok: bool): Pc {
    if h.id in Dirs(s, h.root) then Release(h, BackToTry(h.root, n))
    else if !ok then Release(h, BackWithError)
    else if h.root.Results? then BeginPrefix(h) else Ready(h)
  }

  lemma LeadsMakeStage(s: State, a: Agent, n: nat, h: Handle, ok: bool)
    requires PcOf(s, a) == BeginLeased(n, h)
    ensures Step(s, a, MakeStage(ok)) == Some(Goto(
      if !ok || h.id in Dirs(s, h.root) then s
      else SetDirs(s, h.root, Dirs(s, h.root)[h.id := Dir(h.root, None, NoMeta)]), a, Made(s, n, h, ok)))
  {
    hide StepLive, StepCommit, StepRollback, StepWipe, StepRelease, StepRecover,
         StepGet, StepUnlocked, StepCrash;
  }

  lemma LeadsMakePrefix(s: State, a: Agent, h: Handle, ok: bool)
    requires PcOf(s, a) == BeginPrefix(h) && h.id in s.staging
    ensures Step(s, a, MakePrefix(ok)) == Some(
      if ok then Goto(s.(staging := s.staging[h.id := Dir(Results, Some(EmptyFolder), NoMeta)]), a, Ready(h))
      else Goto(s, a, Wipe(h, ForBeginError)))
  {
    hide StepLive, StepCommit, StepRollback, StepWipe, StepRelease, StepRecover,
         StepGet, StepUnlocked, StepCrash;
  }

  lemma LeadsReturn(s: State, a: Agent)
    requires AfterReturn(PcOf(s, a)).Some?
    ensures Step(s, a, Unlocked) ==
      Some(Goto(s.(lock := None, log := s.log + ReturnEvents(PcOf(s, a))), a, AfterReturn(PcOf(s, a)).value))
  {
    hide StepBegin, StepLive, StepCommit, StepRollback, StepWipe, StepRelease,
         StepRecover, StepGet, StepCrash, AfterReturn, ReturnEvents;
  }

  // ----- the live handle ---------------------------------------------------------------------------

  lemma LeadsWrite(s: State, a: Agent, h: Handle, dir: Dir)
    requires PcOf(s, a) == Live(h) && h.id in Dirs(s, h.root) && dir.born == h.root
    ensures Step(s, a, Write(dir)) == Some(Goto(SetDirs(s, h.root, Dirs(s, h.root)[h.id := dir]), a, Live(h)))
  {
    hide StepBegin, StepCommit, StepRollback, StepWipe, StepRelease, StepRecover,
         StepGet, StepUnlocked, StepCrash;
  }

  lemma LeadsEnd(s: State, a: Agent, h: Handle, op: Op)
    requires PcOf(s, a) == Live(h) && (op.StartDrop? || (op.StartCommit? && h.root.Results?))
    ensures Step(s, a, op) == Some(Goto(s, a, if op.StartDrop? then DropWait(h, true) else CommitWait(h, op.rid)))
  {
    hide StepBegin, StepCommit, StepRollback, StepWipe, StepRelease, StepRecover,
         StepGet, StepUnlocked, StepCrash;
  }

  lemma LeadsCommitLock(s: State, a: Agent, h: Handle, rid: ResultId, ok: bool)
    requires PcOf(s, a) == CommitWait(h, rid) && (ok ==> s.lock.None? && h.id in s.staging)
    ensures Step(s, a, LockStore(ok)) ==
      Some(if ok then Goto(s.(lock := Some(a)), a, CommitCheck(Cx(h, rid, s.results, s.staging[h.id].prefix)))
           else Goto(s, a, DropWait(h, true)))
  {
    hide StepBegin, StepCommit, StepRollback, StepWipe, StepRelease, StepRecover,
         StepGet, StepUnlocked, StepCrash;
  }

  lemma LeadsDropLock(s: State, a: Agent, h: Handle, leased: bool, ok: bool)
    requires PcOf(s, a) == DropWait(h, leased) && (ok ==> s.lock.None?)
    ensures Step(s, a, LockStore(ok)) ==
      Some(if ok then Goto(s.(lock := Some(a)), a, Wipe(h, ForDrop(leased)))
           else Goto(s, a, if leased then CloseLease(h) else Idle))
  {
    hide StepBegin, StepCommit, StepRollback, StepWipe, StepRelease, StepRecover,
         StepGet, StepUnlocked, StepCrash;
  }

  lemma LeadsClose(s: State, a: Agent, h: Handle)
    requires PcOf(s, a) == CloseLease(h)
    ensures Step(s, a, Close) == Some(Goto(Closed(s, h).(abandoned := s.abandoned + {h.ino}), a, Idle))
  {
    hide StepBegin, StepCommit, StepRollback, StepWipe, StepRelease, StepRecover,
         StepGet, StepUnlocked, StepCrash;
  }

  // ----- commit --------------------------------------------------------------------------------------

  lemma LeadsCheckTree(s: State, a: Agent, c: Cx, ok: bool)
    requires PcOf(s, a) == CommitCheck(c)
    requires ok ==> c.h.id in s.staging && s.staging[c.h.id].prefix.Some?
    requires ok ==> ValidOutputTree(s.staging[c.h.id].prefix.value)
    ensures Step(s, a, CheckTree(ok)) == Some(Goto(s, a, if ok then CommitMeta(c) else EarlyErr(c, true)))
  {
    hide StepBegin, StepLive, StepRollback, StepWipe, StepRelease, StepRecover,
         StepGet, StepUnlocked, StepCrash, CompleteDir, ValidOutputTree;
  }

  // The stage after its metadata was written, or not wholly written.
  function Written(d: Dir, c: Cx, ok: bool, left: Meta): Dir {
    if ok then d.(meta := Complete(c.rid)) else if d.meta.NoMeta? then d.(meta := left) else d
  }

  lemma LeadsWriteMeta(s: State, a: Agent, c: Cx, ok: bool, left: Meta)
    requires PcOf(s, a) == CommitMeta(c) && c.h.id in s.staging && (ok ==> s.staging[c.h.id].meta.NoMeta?)
    ensures Step(s, a, WriteMeta(ok, left)) == Some(Goto(
      s.(staging := s.staging[c.h.id := Written(s.staging[c.h.id], c, ok, left)]), a,
      if ok then CommitPlace(c) else EarlyErr(c, true)))
  {
    hide StepBegin, StepLive, StepRollback, StepWipe, StepRelease, StepRecover,
         StepGet, StepUnlocked, StepCrash, CompleteDir, ValidOutputTree;
  }

  lemma LeadsCheckDestination(s: State, a: Agent, c: Cx, ok: bool)
    requires PcOf(s, a) == CommitPlace(c)
    ensures Step(s, a, CheckDestination(ok)) == Some(Goto(s, a,
      if !ok then EarlyErr(c, true)
      else if c.rid !in s.results then CommitRename(c)
      else if CompleteDir(s.results[c.rid], c.rid) then Wipe(c.h, ForExisting(c)) else EarlyErr(c, true)))
  {
    hide StepBegin, StepLive, StepRollback, StepWipe, StepRelease, StepRecover,
         StepGet, StepUnlocked, StepCrash, CompleteDir, ValidOutputTree;
  }

  // Where a failed rename leads: the destination is looked at again.
  function NotRenamed(s: State, c: Cx): Pc {
    if c.rid in s.results && CompleteDir(s.results[c.rid], c.rid) then Wipe(c.h, ForExisting(c)) else EarlyErr(c, true)
  }

  lemma LeadsRename(s: State, a: Agent, c: Cx, ok: bool)
    requires PcOf(s, a) == CommitRename(c) && (ok ==> c.h.id in s.staging && c.rid !in s.results)
    ensures Step(s, a, Rename(ok)) == Some(
      if !ok then Goto(s, a, NotRenamed(s, c))
      else Goto(s.(staging := s.staging - {c.h.id}, results := s.results[c.rid := s.staging[c.h.id]],
                   log := s.log + [Placed(c.h.id, c.rid, s.staging[c.h.id])]), a, CommitVerify(c)))
  {
    hide StepBegin, StepLive, StepRollback, StepWipe, StepRelease, StepRecover,
         StepGet, StepUnlocked, StepCrash, CompleteDir, ValidOutputTree;
  }

  lemma LeadsVerify(s: State, a: Agent, c: Cx, ok: bool)
    requires PcOf(s, a) == CommitVerify(c) && (ok ==> c.rid in s.results && CompleteDir(s.results[c.rid], c.rid))
    ensures Step(s, a, VerifyPublished(ok)) ==
      Some(Goto(s, a, if ok then Release(c.h, ThenSync(c)) else Rollback(c, true)))
  {
    hide StepBegin, StepLive, StepRollback, StepWipe, StepRelease, StepRecover,
         StepGet, StepUnlocked, StepCrash, CompleteDir, ValidOutputTree;
  }

  lemma LeadsSync(s: State, a: Agent, c: Cx, ok: bool)
    requires PcOf(s, a) == CommitSync(c)
    ensures Step(s, a, SyncResults(ok)) == Some(Goto(s, a, if ok then CommitDone(c, Published) else Rollback(c, false)))
  {
    hide StepBegin, StepLive, StepRollback, StepWipe, StepRelease, StepRecover,
         StepGet, StepUnlocked, StepCrash, CompleteDir, ValidOutputTree;
  }

  // ----- rollback ------------------------------------------------------------------------------------

  lemma LeadsRollback(s: State, a: Agent, c: Cx, cleanup: bool, ok: bool)
    requires PcOf(s, a) == Rollback(c, cleanup)
    ensures Step(s, a, RollbackCheck(ok)) ==
      Some(Goto(s, a, if ok then RollbackWipe(c, cleanup) else FailDone(c, Corrupt(false), cleanup)))
  {
    hide StepBegin, StepLive, StepCommit, StepWipe, StepRelease, StepRecover,
         StepGet, StepUnlocked, StepCrash, PrunedDir;
  }

  lemma LeadsRollbackPartial(s: State, a: Agent, c: Cx, cleanup: bool, left: Dir)
    requires PcOf(s, a) == RollbackWipe(c, cleanup) && c.rid in s.results && PrunedDir(left, s.results[c.rid])
    ensures Step(s, a, RollbackPartial(left)) ==
      Some(Goto(s.(results := s.results[c.rid := left], tainted := s.tainted + {c.rid}), a, RollbackWipe(c, cleanup)))
  {
    hide StepBegin, StepLive, StepCommit, StepWipe, StepRelease, StepRecover,
         StepGet, StepUnlocked, StepCrash, PrunedDir;
  }

  lemma LeadsRollbackRemove(s: State, a: Agent, c: Cx, cleanup: bool, ok: bool)
    requires PcOf(s, a) == RollbackWipe(c, cleanup)
    ensures Step(s, a, RollbackRemove(ok)) == Some(
      if !ok then Goto(s, a, FailDone(c, Corrupt(false), cleanup))
      else Goto(s.(results := s.results - {c.rid}, tainted := s.tainted - {c.rid},
                   log := s.log + [Undone(c.h.id, c.rid)]), a, RollbackSync(c, cleanup)))
  {
    hide StepBegin, StepLive, StepCommit, StepWipe, StepRelease, StepRecover,
         StepGet, StepUnlocked, StepCrash, PrunedDir;
  }

  // Where the sync after a rollback leads.
  function Synced(c: Cx, cleanup: bool, ok: bool): Pc {
    if !ok then FailDone(c, Corrupt(false), cleanup)
    else if cleanup then Release(c.h, ThenFail(c)) else FailDone(c, Failed, false)
  }

  lemma LeadsRollbackSynced(s: State, a: Agent, c: Cx, cleanup: bool, ok: bool)
    requires PcOf(s, a) == RollbackSync(c, cleanup)
    ensures Step(s, a, RollbackSynced(ok)) == Some(Goto(s, a, Synced(c, cleanup, ok)))
  {
    hide StepBegin, StepLive, StepCommit, StepWipe, StepRelease, StepRecover,
         StepGet, StepUnlocked, StepCrash, PrunedDir;
  }

  // ----- removals and releases -----------------------------------------------------------------------

  // Where `remove_dir_all` of a staging directory returns to.
  function Wiped(h: Handle, k: WipeFor, ok: bool): Pc {
    match k
    case ForBeginError => Release(h, BackWithError)
    case ForExisting(c) => if ok then Release(h, ThenExisting(c)) else EarlyErr(c, true)
    case ForDrop(leased) => if leased then Release(h, ThenDropped) else DropDone
    case ForScan(rec, root, todo) =>
      if ok then Release(h, ThenScan(rec.(gone := rec.gone + {h.id}), root, todo)) else RecoverEnd(rec, false)
  }

  lemma LeadsWipePartial(s: State, a: Agent, h: Handle, k: WipeFor, left: Dir)
    requires PcOf(s, a) == Wipe(h, k) && h.id in Dirs(s, h.root) && PrunedDir(left, Dirs(s, h.root)[h.id])
    ensures Step(s, a, WipePartial(left)) ==
      Some(Goto(SetDirs(s, h.root, Dirs(s, h.root)[h.id := left]), a, Wipe(h, k)))
  {
    hide StepBegin, StepLive, StepCommit, StepRollback, StepRelease, StepRecover,
         StepGet, StepUnlocked, StepCrash, PrunedDir;
  }

  lemma LeadsWipe(s: State, a: Agent, h: Handle, k: WipeFor, ok: bool)
    requires PcOf(s, a) == Wipe(h, k) && (ok ==> h.id in Dirs(s, h.root))
    ensures Step(s, a, WipeAll(ok)) == Some(
      if ok then Goto(SetDirs(s, h.root, Dirs(s, h.root) - {h.id}), a, Wiped(h, k, ok))
      else Goto(if k.ForScan? then Closed(s, h) else s, a, Wiped(h, k, ok)))
  {
    hide StepBegin, StepLive, StepCommit, StepRollback, StepRelease, StepRecover,
         StepGet, StepUnlocked, StepCrash, PrunedDir;
  }

  lemma LeadsRemoveLease(s: State, a: Agent, h: Handle, next: After, ok: bool)
    requires PcOf(s, a) == Release(h, next)
    ensures Step(s, a, RemoveLease(ok)) == Some(
      if ok then Goto(s.(leases := s.leases - {h.id}), a, Unlock(h, next))
      else Goto(Closed(s, h), a, NotReleased(next)))
  {
    hide StepBegin, StepLive, StepCommit, StepRollback, StepWipe, StepRecover,
         StepGet, StepUnlocked, StepCrash, Released, NotReleased;
  }

  lemma LeadsUnlockLease(s: State, a: Agent, h: Handle, next: After, ok: bool)
    requires PcOf(s, a) == Unlock(h, next)
    ensures Step(s, a, UnlockLease(ok)) == Some(Goto(Closed(s, h), a, if ok then Released(next) else NotReleased(next)))
  {
    hide StepBegin, StepLive, StepCommit, StepRollback, StepWipe, StepRecover,
         StepGet, StepUnlocked, StepCrash, Released, NotReleased;
  }

  // ----- recovery ------------------------------------------------------------------------------------

  // Where a look at one entry of a scan leads.
  function Tried(s: State, rec: Rec, root: Root, todo: set<TxId>, id: TxId, ok: bool): Pc {
    if !ok || !ValidTransactionId(id) || id !in s.leases then RecoverEnd(rec, false)
    else if s.leases[id] in s.held then Scan(rec, root, todo - {id})
    else Wipe(Handle(root, id, s.leases[id]), ForScan(rec, root, todo - {id}))
  }

  lemma LeadsTryEntry(s: State, a: Agent, rec: Rec, root: Root, todo: set<TxId>, id: TxId, ok: bool)
    requires PcOf(s, a) == Scan(rec, root, todo) && id in todo
    ensures var pc := Tried(s, rec, root, todo, id, ok);
      Step(s, a, TryEntry(id, ok)) == Some(Goto(if pc.Wipe? then s.(held := s.held[s.leases[id] := a]) else s, a, pc))
  {
    hide StepBegin, StepLive, StepCommit, StepRollback, StepWipe, StepRelease,
         StepGet, StepUnlocked, StepCrash, ValidTransactionId;
  }

  lemma LeadsNextRoot(s: State, a: Agent, rec: Rec, root: Root, todo: set<TxId>, ok: bool)
    requires PcOf(s, a) == Scan(rec, root, todo) && (ok ==> todo == {})
    ensures Step(s, a, NextRoot(ok)) == Some(Goto(s, a,
      if !ok then RecoverEnd(rec, false)
      else if root.Results? then Scan(rec, Sources, s.sources.Keys) else Orphans(rec, s.leases.Keys)))
  {
    hide StepBegin, StepLive, StepCommit, StepRollback, StepWipe, StepRelease,
         StepGet, StepUnlocked, StepCrash, ValidTransactionId;
  }

  // Where a look at one lease leads.
  function TriedOrphan(s: State, rec: Rec, todo: set<TxId>, id: TxId, ok: bool): Pc {
    if !ok || !ValidTransactionId(id) then RecoverEnd(rec, false)
    else if id in s.staging || id in s.sources then Orphans(rec, todo - {id})
    else if id !in s.leases then RecoverEnd(rec, false)
    else if s.leases[id] in s.held then Orphans(rec, todo - {id})
    else Release(Handle(Results, id, s.leases[id]), ThenOrphans(rec, todo - {id}))
  }

  lemma LeadsTryOrphan(s: State, a: Agent, rec: Rec, todo: set<TxId>, id: TxId, ok: bool)
    requires PcOf(s, a) == Orphans(rec, todo) && id in todo
    ensures var pc := TriedOrphan(s, rec, todo, id, ok);
      Step(s, a, TryOrphan(id, ok)) ==
        Some(Goto(if pc.Release? then s.(held := s.held[s.leases[id] := a]) else s, a, pc))
  {
    hide StepBegin, StepLive, StepCommit, StepRollback, StepWipe, StepRelease,
         StepGet, StepUnlocked, StepCrash, ValidTransactionId;
  }

  lemma LeadsOrphansDone(s: State, a: Agent, rec: Rec)
    requires PcOf(s, a) == Orphans(rec, {})
    ensures Step(s, a, OrphansDone) == Some(Goto(s, a, RecoverEnd(rec, true)))
  {
    hide StepBegin, StepLive, StepCommit, StepRollback, StepWipe, StepRelease,
         StepGet, StepUnlocked, StepCrash, ValidTransactionId;
  }

  lemma LeadsCrash(s: State, a: Agent)
    ensures Step(s, a, Crash) == Some(StepCrash(s, a))
  {
  }

  // ----- where an agent goes --------------------------------------------------------------------------

  lemma AtGoto(a: Agent)
    ensures forall s: State, pc: Pc :: PcOf(Goto(s, a, pc), a) == pc
  {
  }

  function BeginNext(s: State, pc: Pc, op: Op): Pc {
    match (pc, op)
    case (Idle, StartBegin(root)) => BeginTry(root, 0)
    case (BeginTry(root, n), CreateLease(id, creation)) =>
      if id in s.leases then Retry(root, n)
      else if creation.Created? then BeginFile(n, Handle(root, id, s.nextInode)) else BeginErr
    case (BeginFile(n, h), LockLease(ok)) => if ok then BeginLeased(n, h) else BeginErr
    case (BeginLeased(n, h), MakeStage(ok)) => Made(s, n, h, ok)
    case (BeginPrefix(h), MakePrefix(ok)) => if ok then Ready(h) else Wipe(h, ForBeginError)
    case _ => pc
  }

  lemma BeginGoes(s: State, a: Agent, op: Op)
    requires Step(s, a, op).Some? && Step(s, a, op) == StepBegin(s, a, op)
    ensures PcOf(Step(s, a, op).value, a) == BeginNext(s, PcOf(s, a), op)
  {
    AtGoto(a);
    hide Goto, PcOf, Step, StepBegin, StepLive, StepCommit, StepRollback, StepWipe, StepRelease, StepRecover, StepGet,
         StepUnlocked, StepCrash, CompleteDir, ValidOutputTree, PrunedDir, ValidTransactionId, Dirs, SetDirs, Closed,
         NotRenamed, Written, Tried, TriedOrphan, Synced, Wiped, Released, NotReleased, Made, Retry;
    BeginAt(s, a, op);
    match op {
      case StartBegin(_) => LeadsStart(s, a, op);
      case CreateLease(id, creation) => LeadsCreate(s, a, PcOf(s, a).root, PcOf(s, a).n, id, creation);
      case LockLease(ok) => LeadsLockLease(s, a, PcOf(s, a).n, PcOf(s, a).h, ok);
      case MakeStage(ok) => LeadsMakeStage(s, a, PcOf(s, a).n, PcOf(s, a).h, ok);
      case MakePrefix(ok) => LeadsMakePrefix(s, a, PcOf(s, a).h, ok);
    }
  }

  function LiveNext(s: State, pc: Pc, op: Op): Pc {
    match (pc, op)
    case (Live(h), StartCommit(rid)) => CommitWait(h, rid)
    case (Live(h), StartDrop) => DropWait(h, true)
    case (CommitWait(h, rid), LockStore(ok)) =>
      if ok && h.id in s.staging then CommitCheck(Cx(h, rid, s.results, s.staging[h.id].prefix)) else DropWait(h, true)
    case (DropWait(h, leased), LockStore(ok)) =>
      if ok then Wipe(h, ForDrop(leased)) else if leased then CloseLease(h) else Idle
    case (CloseLease(_), Close) => Idle
    case _ => pc
  }

  lemma LiveGoes(s: State, a: Agent, op: Op)
    requires Step(s, a, op).Some? && Step(s, a, op) == StepLive(s, a, op)
    ensures PcOf(Step(s, a, op).value, a) == LiveNext(s, PcOf(s, a), op)
  {
    AtGoto(a);
    hide Goto, PcOf, Step, StepBegin, StepLive, StepCommit, StepRollback, StepWipe, StepRelease, StepRecover, StepGet,
         StepUnlocked, StepCrash, CompleteDir, ValidOutputTree, PrunedDir, ValidTransactionId, Dirs, SetDirs, Closed,
         NotRenamed, Written, Tried, TriedOrphan, Synced, Wiped, Released, NotReleased, Made, Retry;
    LiveAt(s, a, op);
    match PcOf(s, a) {
      case Live(h) => if op.Write? { LeadsWrite(s, a, h, op.dir); } else { LeadsEnd(s, a, h, op); }
      case CommitWait(h, rid) => LeadsCommitLock(s, a, h, rid, op.ok);
      case DropWait(h, leased) => LeadsDropLock(s, a, h, leased, op.ok);
      case CloseLease(h) => LeadsClose(s, a, h);
    }
  }

  function CommitNext(s: State, pc: Pc, op: Op): Pc {
    match (pc, op)
    case (CommitCheck(c), CheckTree(ok)) => if ok then CommitMeta(c) else EarlyErr(c, true)
    case (CommitMeta(c), WriteMeta(ok, _)) => if ok then CommitPlace(c) else EarlyErr(c, true)
    case (CommitPlace(c), CheckDestination(ok)) =>
      if !ok then EarlyErr(c, true)
      else if c.rid !in s.results then CommitRename(c)
      else if CompleteDir(s.results[c.rid], c.rid) then Wipe(c.h, ForExisting(c)) else EarlyErr(c, true)
    case (CommitRename(c), Rename(ok)) => if ok then CommitVerify(c) else NotRenamed(s, c)
    case (CommitVerify(c), VerifyPublished(ok)) => if ok then Release(c.h, ThenSync(c)) else Rollback(c, true)
    case (CommitSync(c), SyncResults(ok)) => if ok then CommitDone(c, Published) else Rollback(c, false)
    case _ => pc
  }

  lemma SettleGoes(s: State, a: Agent, op: Op)
    requires Step(s, a, op).Some? && Step(s, a, op) == StepCommit(s, a, op)
    requires PcOf(s, a).CommitRename? || PcOf(s, a).CommitVerify? || PcOf(s, a).CommitSync?
    ensures PcOf(Step(s, a, op).value, a) == CommitNext(s, PcOf(s, a), op)
  {
    AtGoto(a);
    hide Goto, PcOf, Step, StepBegin, StepLive, StepCommit, StepRollback, StepWipe, StepRelease, StepRecover, StepGet,
         StepUnlocked, StepCrash, CompleteDir, ValidOutputTree, PrunedDir, ValidTransactionId, Dirs, SetDirs, Closed,
         NotRenamed, Written, Tried, TriedOrphan, Synced, Wiped, Released, NotReleased, Made, Retry;
    CommitAt(s, a, op);
    if PcOf(s, a).CommitRename? { LeadsRename(s, a, PcOf(s, a).c, op.ok); }
    else if PcOf(s, a).CommitVerify? { LeadsVerify(s, a, PcOf(s, a).c, op.ok); }
    else { LeadsSync(s, a, PcOf(s, a).c, op.ok); }
  }

  lemma CommitGoes(s: State, a: Agent, op: Op)
    requires Step(s, a, op).Some? && Step(s, a, op) == StepCommit(s, a, op)
    ensures PcOf(Step(s, a, op).value, a) == CommitNext(s, PcOf(s, a), op)
  {
    AtGoto(a);
    hide Goto, PcOf, Step, StepBegin, StepLive, StepCommit, StepRollback, StepWipe, StepRelease, StepRecover, StepGet,
         StepUnlocked, StepCrash, CompleteDir, ValidOutputTree, PrunedDir, ValidTransactionId, Dirs, SetDirs, Closed,
         NotRenamed, Written, Tried, TriedOrphan, Synced, Wiped, Released, NotReleased, Made, Retry;
    CommitAt(s, a, op);
    if PcOf(s, a).CommitCheck? { LeadsCheckTree(s, a, PcOf(s, a).c, op.ok); }
    else if PcOf(s, a).CommitMeta? { LeadsWriteMeta(s, a, PcOf(s, a).c, op.ok, op.left); }
    else if PcOf(s, a).CommitPlace? { LeadsCheckDestination(s, a, PcOf(s, a).c, op.ok); }
    else { SettleGoes(s, a, op); }
  }

  function RollbackNext(pc: Pc, op: Op): Pc {
    match (pc, op)
    case (Rollback(c, cleanup), RollbackCheck(ok)) => if ok then RollbackWipe(c, cleanup)
      else FailDone(c, Corrupt(false), cleanup)
    case (RollbackWipe(c, cleanup), RollbackRemove(ok)) =>
      if ok then RollbackSync(c, cleanup) else FailDone(c, Corrupt(false), cleanup)
    case (RollbackSync(c, cleanup), RollbackSynced(ok)) => Synced(c, cleanup, ok)
    case _ => pc
  }

  lemma RollbackGoes(s: State, a: Agent, op: Op)
    requires Step(s, a, op).Some? && Step(s, a, op) == StepRollback(s, a, op)
    ensures PcOf(Step(s, a, op).value, a) == RollbackNext(PcOf(s, a), op)
  {
    AtGoto(a);
    hide Goto, PcOf, Step, StepBegin, StepLive, StepCommit, StepRollback, StepWipe, StepRelease, StepRecover, StepGet,
         StepUnlocked, StepCrash, CompleteDir, ValidOutputTree, PrunedDir, ValidTransactionId, Dirs, SetDirs, Closed,
         NotRenamed, Written, Tried, TriedOrphan, Synced, Wiped, Released, NotReleased, Made, Retry;
    RollbackAt(s, a, op);
    match PcOf(s, a) {
      case Rollback(c, cleanup) => LeadsRollback(s, a, c, cleanup, op.ok);
      case RollbackWipe(c, cleanup) =>
        if op.RollbackPartial? { LeadsRollbackPartial(s, a, c, cleanup, op.dir); }
        else { LeadsRollbackRemove(s, a, c, cleanup, op.ok); }
      case RollbackSync(c, cleanup) => LeadsRollbackSynced(s, a, c, cleanup, op.ok);
    }
  }

  function WipeNext(pc: Pc, op: Op): Pc {
    match (pc, op)
    case (Wipe(h, k), WipeAll(ok)) => Wiped(h, k, ok)
    case _ => pc
  }

  lemma WipeGoes(s: State, a: Agent, op: Op)
    requires Step(s, a, op).Some? && Step(s, a, op) == StepWipe(s, a, op)
    ensures PcOf(Step(s, a, op).value, a) == WipeNext(PcOf(s, a), op)
  {
    AtGoto(a);
    hide Goto, PcOf, Step, StepBegin, StepLive, StepCommit, StepRollback, StepWipe, StepRelease, StepRecover, StepGet,
         StepUnlocked, StepCrash, CompleteDir, ValidOutputTree, PrunedDir, ValidTransactionId, Dirs, SetDirs, Closed,
         NotRenamed, Written, Tried, TriedOrphan, Synced, Wiped, Released, NotReleased, Made, Retry;
    WipeAt(s, a, op);
    var h, k := PcOf(s, a).h, PcOf(s, a).k;
    if op.WipePartial? { LeadsWipePartial(s, a, h, k, op.dir); } else { LeadsWipe(s, a, h, k, op.ok); }
  }

  function ReleaseNext(pc: Pc, op: Op): Pc {
    match (pc, op)
    case (Release(h, next), RemoveLease(ok)) => if ok then Unlock(h, next) else NotReleased(next)
    case (Unlock(_, next), UnlockLease(ok)) => if ok then Released(next) else NotReleased(next)
    case _ => pc
  }

  lemma ReleaseGoes(s: State, a: Agent, op: Op)
    requires Step(s, a, op).Some? && Step(s, a, op) == StepRelease(s, a, op)
    ensures PcOf(Step(s, a, op).value, a) == ReleaseNext(PcOf(s, a), op)
  {
    AtGoto(a);
    hide Goto, PcOf, Step, StepBegin, StepLive, StepCommit, StepRollback, StepWipe, StepRelease, StepRecover, StepGet,
         StepUnlocked, StepCrash, CompleteDir, ValidOutputTree, PrunedDir, ValidTransactionId, Dirs, SetDirs, Closed,
         NotRenamed, Written, Tried, TriedOrphan, Synced, Wiped, Released, NotReleased, Made, Retry;
    ReleaseAt(s, a, op);
    var h, next := PcOf(s, a).h, PcOf(s, a).next;
    if op.RemoveLease? { LeadsRemoveLease(s, a, h, next, op.ok); } else { LeadsUnlockLease(s, a, h, next, op.ok); }
  }

  function RecoverNext(s: State, pc: Pc, op: Op): Pc {
    match (pc, op)
    case (Idle, StartRecover) =>
      Scan(Rec(0, {}, s.staging.Keys + s.sources.Keys, s.abandoned), Results, s.staging.Keys)
    case (Scan(rec, root, todo), TryEntry(id, ok)) => Tried(s, rec, root, todo, id, ok)
    case (Scan(rec, root, todo), NextRoot(ok)) =>
      if !ok then RecoverEnd(rec, false)
      else if root.Results? then Scan(rec, Sources, s.sources.Keys) else Orphans(rec, s.leases.Keys)
    case (Orphans(rec, todo), TryOrphan(id, ok)) => TriedOrphan(s, rec, todo, id, ok)
    case (Orphans(rec, _), OrphansDone) => RecoverEnd(rec, true)
    case _ => pc
  }

  lemma RecoverGoes(s: State, a: Agent, op: Op)
    requires Step(s, a, op).Some? && Step(s, a, op) == StepRecover(s, a, op)
    ensures PcOf(Step(s, a, op).value, a) == RecoverNext(s, PcOf(s, a), op)
  {
    AtGoto(a);
    hide Goto, PcOf, Step, StepBegin, StepLive, StepCommit, StepRollback, StepWipe, StepRelease, StepRecover, StepGet,
         StepUnlocked, StepCrash, CompleteDir, ValidOutputTree, PrunedDir, ValidTransactionId, Dirs, SetDirs, Closed,
         NotRenamed, Written, Synced, Wiped, Released, NotReleased, Made, Retry;
    RecoverAt(s, a, op);
    match op {
      case StartRecover => LeadsStart(s, a, op);
      case TryEntry(id, ok) => LeadsTryEntry(s, a, PcOf(s, a).rec, PcOf(s, a).root, PcOf(s, a).todo, id, ok);
      case NextRoot(ok) => LeadsNextRoot(s, a, PcOf(s, a).rec, PcOf(s, a).root, PcOf(s, a).todo, ok);
      case TryOrphan(id, ok) => LeadsTryOrphan(s, a, PcOf(s, a).rec, PcOf(s, a).todo, id, ok);
      case OrphansDone => LeadsOrphansDone(s, a, PcOf(s, a).rec);
    }
  }
}
