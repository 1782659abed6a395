// Every step of every agent, one transition at a time.
module StoreTransitions {
  import opened Prelude
  import opened OutputTree
  import opened TransactionIds
  import opened StoreState
  import opened StoreInvariant
  import opened StorePreservation

  // ----- begin -------------------------------------------------------------------------

  lemma StartBeginKeeps(s: State, a: Agent, root: Root)
    requires Mine(s, a) && PcOf(s, a) == Idle && s.lock.None?
    ensures Carries(s, Goto(s.(lock := Some(a)), a, BeginTry(root, 0)), a)
  {
    hide Good, LeaseInv, DirInv, HoldsOnly;
    LockGood(s, a, BeginTry(root, 0));
  }

  lemma TryAgainKeeps(s: State, a: Agent, root: Root, n: nat, pc: Pc)
    requires Mine(s, a) && PcOf(s, a) == BeginTry(root, n)
    requires pc.BeginErr? || pc.BeginTry?
    ensures Carries(s, Goto(s, a, pc), a)
  {
    hide Good, LeaseInv, DirInv, HoldsOnly;
    PcGood(s, a, pc);
  }

  lemma CreateLeaseKeeps(s: State, a: Agent, root: Root, n: nat, id: TxId, pc: Pc)
    requires Mine(s, a) && PcOf(s, a) == BeginTry(root, n) && id !in s.leases && ValidTransactionId(id)
    requires pc == BeginErr || pc == BeginFile(n, Handle(root, id, s.nextInode))
    ensures Carries(s, Goto(s.(leases := s.leases[id := s.nextInode], nextInode := s.nextInode + 1), a, pc), a)
  {
    hide Good, HoldsOnly;
    NewLeaseGood(s, a, id, pc);
  }

  lemma LockLeaseKeeps(s: State, a: Agent, n: nat, h: Handle)
    requires Mine(s, a) && PcOf(s, a) == BeginFile(n, h)
    ensures Carries(s, Goto(s.(held := s.held[h.ino := a]), a, BeginLeased(n, h)), a)
  {
    hide Good, DirInv, HoldsOnly;
    HoldGood(s, a, h, BeginLeased(n, h));
  }

  lemma NoLeaseKeeps(s: State, a: Agent, n: nat, h: Handle)
    requires Mine(s, a) && PcOf(s, a) == BeginFile(n, h)
    ensures Carries(s, Goto(s, a, BeginErr), a)
  {
    hide Good, LeaseInv, DirInv, HoldsOnly;
    PcGood(s, a, BeginErr);
  }

  lemma NoStageKeeps(s: State, a: Agent, n: nat, h: Handle, next: After)
    requires Mine(s, a) && PcOf(s, a) == BeginLeased(n, h)
    requires next.BackToTry? || next.BackWithError?
    ensures Carries(s, Goto(s, a, Release(h, next)), a)
  {
    hide Good, LeaseInv, DirInv, HoldsOnly;
    PcGood(s, a, Release(h, next));
  }

  lemma MakeStageKeeps(s: State, a: Agent, n: nat, h: Handle)
    requires Mine(s, a) && PcOf(s, a) == BeginLeased(n, h) && FreshName(s, a, MakeStage(true))
    ensures Carries(s, Goto(SetDirs(s, h.root, Dirs(s, h.root)[h.id := Dir(h.root, None, NoMeta)]), a,
                            if h.root.Results? then BeginPrefix(h) else Ready(h)), a)
  {
    hide Good, LeaseInv, DirInv, HoldsOnly;
    OwnDirGood(s, a, h, Dirs(s, h.root)[h.id := Dir(h.root, None, NoMeta)],
               if h.root.Results? then BeginPrefix(h) else Ready(h));
  }

  lemma MakePrefixKeeps(s: State, a: Agent, h: Handle)
    requires Mine(s, a) && PcOf(s, a) == BeginPrefix(h)
    ensures Carries(s, Goto(s.(staging := s.staging[h.id := Dir(Results, Some(EmptyFolder), NoMeta)]), a, Ready(h)), a)
  {
    hide Good, LeaseInv, DirInv, HoldsOnly;
    OwnDirGood(s, a, h, s.staging[h.id := Dir(Results, Some(EmptyFolder), NoMeta)], Ready(h));
  }

  lemma NoPrefixKeeps(s: State, a: Agent, h: Handle)
    requires Mine(s, a) && PcOf(s, a) == BeginPrefix(h)
    ensures Carries(s, Goto(s, a, Wipe(h, ForBeginError)), a)
  {
    hide Good, LeaseInv, DirInv, HoldsOnly;
    PcGood(s, a, Wipe(h, ForBeginError));
  }

  // ----- the live handle -----------------------------------------------------------------

  lemma WriteKeeps(s: State, a: Agent, h: Handle, dir: Dir)
    requires Mine(s, a) && PcOf(s, a) == Live(h) && dir.born == h.root
    ensures Carries(s, Goto(SetDirs(s, h.root, Dirs(s, h.root)[h.id := dir]), a, Live(h)), a)
  {
    hide Good, LeaseInv, DirInv, HoldsOnly;
    OwnDirGood(s, a, h, Dirs(s, h.root)[h.id := dir], Live(h));
  }

  lemma HandleEndsKeeps(s: State, a: Agent, h: Handle, pc: Pc)
    requires Mine(s, a) && PcOf(s, a) == Live(h)
    requires pc == DropWait(h, true) || (h.root.Results? && pc.CommitWait? && pc.h == h)
    ensures Carries(s, Goto(s, a, pc), a)
  {
    hide Good, LeaseInv, DirInv, HoldsOnly;
    PcGood(s, a, pc);
  }

  lemma CommitLockKeeps(s: State, a: Agent, h: Handle, rid: ResultId)
    requires Mine(s, a) && PcOf(s, a) == CommitWait(h, rid) && s.lock.None? && h.id in s.staging
    ensures Carries(s, Goto(s.(lock := Some(a)), a, CommitCheck(Cx(h, rid, s.results, s.staging[h.id].prefix))), a)
  {
    hide Good, LeaseInv, DirInv, HoldsOnly;
    LockGood(s, a, CommitCheck(Cx(h, rid, s.results, s.staging[h.id].prefix)));
  }

  lemma NoCommitLockKeeps(s: State, a: Agent, h: Handle, rid: ResultId)
    requires Mine(s, a) && PcOf(s, a) == CommitWait(h, rid)
    ensures Carries(s, Goto(s, a, DropWait(h, true)), a)
  {
    hide Good, LeaseInv, DirInv, HoldsOnly;
    PcGood(s, a, DropWait(h, true));
  }

  lemma DropLockKeeps(s: State, a: Agent, h: Handle, leased: bool)
    requires Mine(s, a) && PcOf(s, a) == DropWait(h, leased) && s.lock.None?
    ensures Carries(s, Goto(s.(lock := Some(a)), a, Wipe(h, ForDrop(leased))), a)
  {
    hide Good, LeaseInv, DirInv, HoldsOnly;
    LockGood(s, a, Wipe(h, ForDrop(leased)));
  }

  lemma NoDropLockKeeps(s: State, a: Agent, h: Handle, leased: bool)
    requires Mine(s, a) && PcOf(s, a) == DropWait(h, leased)
    ensures Carries(s, Goto(s, a, if leased then CloseLease(h) else Idle), a)
  {
    hide Good, LeaseInv, DirInv, HoldsOnly;
    PcGood(s, a, if leased then CloseLease(h) else Idle);
  }

  // ----- commit ----------------------------------------------------------------------------

  lemma CheckTreeKeeps(s: State, a: Agent, c: Cx, pc: Pc)
    requires Mine(s, a) && PcOf(s, a) == CommitCheck(c)
    requires pc == EarlyErr(c, true) || (pc == CommitMeta(c) && c.tree.Some? && ValidOutputTree(c.tree.value))
    ensures Carries(s, Goto(s, a, pc), a)
  {
    hide Good, LeaseInv, DirInv, HoldsOnly;
    PcGood(s, a, pc);
  }

  lemma MetaWrittenKeeps(s: State, a: Agent, c: Cx, d: Dir)
    requires Mine(s, a) && PcOf(s, a) == CommitMeta(c) && c.h.id in s.staging
    requires d == s.staging[c.h.id].(meta := Complete(c.rid))
    ensures Carries(s, Goto(s.(staging := s.staging[c.h.id := d]), a, CommitPlace(c)), a)
  {
    hide Good, LeaseInv, HoldsOnly;
    OwnDirGood(s, a, c.h, s.staging[c.h.id := d], CommitPlace(c));
  }

  lemma MetaFailedKeeps(s: State, a: Agent, c: Cx, d: Dir)
    requires Mine(s, a) && PcOf(s, a) == CommitMeta(c) && c.h.id in s.staging
    requires d.born == s.staging[c.h.id].born
    ensures Carries(s, Goto(s.(staging := s.staging[c.h.id := d]), a, EarlyErr(c, true)), a)
  {
    hide Good, LeaseInv, HoldsOnly;
    OwnDirGood(s, a, c.h, s.staging[c.h.id := d], EarlyErr(c, true));
  }

  lemma CheckDestinationKeeps(s: State, a: Agent, c: Cx, pc: Pc)
    requires Mine(s, a) && PcOf(s, a) == CommitPlace(c)
    requires pc == EarlyErr(c, true) || (c.rid !in s.results && pc == CommitRename(c)) ||
             (c.rid in s.results && CompleteDir(s.results[c.rid], c.rid) && pc == Wipe(c.h, ForExisting(c)))
    ensures Carries(s, Goto(s, a, pc), a)
  {
    hide Good, LeaseInv, DirInv, HoldsOnly;
    PcGood(s, a, pc);
  }

  lemma RenameFailsKeeps(s: State, a: Agent, c: Cx)
    requires Mine(s, a) && PcOf(s, a) == CommitRename(c)
    ensures c.rid !in s.results && Carries(s, Goto(s, a, EarlyErr(c, true)), a)
  {
    hide Good, LeaseInv, DirInv, HoldsOnly;
    PcGood(s, a, EarlyErr(c, true));
  }

  // The rename is the only step that puts an entry into the results.
  lemma RenameKeeps(s: State, a: Agent, c: Cx, d: Dir)
    requires Mine(s, a) && PcOf(s, a) == CommitRename(c)
    requires PublishedBy(s.log, c.rid).None? && c.rid !in s.tainted
    requires c.h.id in s.staging && d == s.staging[c.h.id]
    ensures Carries(s, Goto(s.(staging := s.staging - {c.h.id}, results := s.results[c.rid := d],
                               log := s.log + [Placed(c.h.id, c.rid, d)]), a, CommitVerify(c)), a)
  {
    hide Good, LeaseInv, DirInv, HoldsOnly;
    RenameFacts(s, a, c, d);
    PublishGood(s, a, c.h, s.results[c.rid := d], s.log + [Placed(c.h.id, c.rid, d)], CommitVerify(c));
  }

  lemma RenameFacts(s: State, a: Agent, c: Cx, d: Dir)
    requires AgentInv(s, a, CommitRename(c)) && DirInv(s)
    requires PublishedBy(s.log, c.rid).None? && c.rid !in s.tainted
    requires c.h.id in s.staging && d == s.staging[c.h.id]
    ensures AgentInv(Goto(s.(staging := s.staging - {c.h.id}, results := s.results[c.rid := d],
                             log := s.log + [Placed(c.h.id, c.rid, d)]), a, CommitVerify(c)), a, CommitVerify(c))
  {
    hide ValidOutputTree, CompleteDir, PrunedDir;
    var log := s.log + [Placed(c.h.id, c.rid, d)];
    assert log[..|log| - 1] == s.log;
  }

  lemma RenameResults(s: State, tx: TxId, rid: ResultId, d: Dir, s': State)
    requires ResultInv(s) && rid !in s.results && CompleteDir(d, rid) && d.born.Results?
    requires s'.results == s.results[rid := d] && s'.tainted == s.tainted && s'.log == s.log + [Placed(tx, rid, d)]
    ensures ResultInv(s')
  {
    assert s'.log[..|s'.log| - 1] == s.log;
    PrunedDirSelf(d);
  }

  lemma VerifyKeeps(s: State, a: Agent, c: Cx, pc: Pc)
    requires Mine(s, a) && PcOf(s, a) == CommitVerify(c)
    requires pc == Rollback(c, true) || pc == Release(c.h, ThenSync(c))
    ensures Carries(s, Goto(s, a, pc), a)
  {
    hide Good, LeaseInv, DirInv, HoldsOnly;
    PcGood(s, a, pc);
  }

  lemma SyncKeeps(s: State, a: Agent, c: Cx, pc: Pc)
    requires Mine(s, a) && PcOf(s, a) == CommitSync(c)
    requires pc == Rollback(c, false) || pc == CommitDone(c, Published)
    ensures Carries(s, Goto(s, a, pc), a)
  {
    hide Good, LeaseInv, DirInv, HoldsOnly;
    PcGood(s, a, pc);
  }

  // ----- rollback ----------------------------------------------------------------------------

  lemma RollbackCheckKeeps(s: State, a: Agent, c: Cx, cleanup: bool, pc: Pc)
    requires Mine(s, a) && PcOf(s, a) == Rollback(c, cleanup)
    requires pc == RollbackWipe(c, cleanup) || pc == FailDone(c, Corrupt(false), cleanup)
    ensures Carries(s, Goto(s, a, pc), a)
  {
    hide ValidOutputTree, CompleteDir, Holder, PublishedBy;
    hide Good, LeaseInv, DirInv, HoldsOnly;
    PcGood(s, a, pc);
  }

  lemma RollbackFailsKeeps(s: State, a: Agent, c: Cx, cleanup: bool)
    requires Mine(s, a) && PcOf(s, a) == RollbackWipe(c, cleanup)
    ensures Carries(s, Goto(s, a, FailDone(c, Corrupt(false), cleanup)), a)
  {
    hide Good, LeaseInv, DirInv, HoldsOnly;
    PcGood(s, a, FailDone(c, Corrupt(false), cleanup));
  }

  lemma RollbackPartialKeeps(s: State, a: Agent, c: Cx, cleanup: bool, d: Dir)
    requires Mine(s, a) && PcOf(s, a) == RollbackWipe(c, cleanup)
    ensures Carries(s, Goto(s.(results := s.results[c.rid := d], tainted := s.tainted + {c.rid}),
                            a, RollbackWipe(c, cleanup)), a)
  {
    hide Good, LeaseInv, DirInv, HoldsOnly;
    ResultsGood(s, a, s.results[c.rid := d], s.tainted + {c.rid}, s.log, RollbackWipe(c, cleanup));
  }

  lemma RollbackRemoveKeeps(s: State, a: Agent, c: Cx, cleanup: bool)
    requires Mine(s, a) && PcOf(s, a) == RollbackWipe(c, cleanup)
    ensures Carries(s, Goto(s.(results := s.results - {c.rid}, tainted := s.tainted - {c.rid},
                               log := s.log + [Undone(c.h.id, c.rid)]), a, RollbackSync(c, cleanup)), a)
  {
    hide Good, LeaseInv, DirInv, HoldsOnly;
    RollbackRemoveFacts(s, a, c, cleanup);
    ResultsGood(s, a, s.results - {c.rid}, s.tainted - {c.rid}, s.log + [Undone(c.h.id, c.rid)],
      RollbackSync(c, cleanup));
  }

  lemma RollbackRemoveFacts(s: State, a: Agent, c: Cx, cleanup: bool)
    requires AgentInv(s, a, RollbackWipe(c, cleanup))
    ensures AgentInv(Goto(s.(results := s.results - {c.rid}, tainted := s.tainted - {c.rid},
                             log := s.log + [Undone(c.h.id, c.rid)]), a, RollbackSync(c, cleanup)),
                     a, RollbackSync(c, cleanup))
  {
    assert s.results - {c.rid} == c.before;
  }

  lemma RollbackPartialResults(s: State, s': State, rid: ResultId, d: Dir)
    requires ResultInv(s) && rid in s.results && PublishedBy(s.log, rid).None? && PrunedDir(d, s.results[rid])
    requires s'.results == s.results[rid := d] && s'.tainted == s.tainted + {rid} && s'.log == s.log
    ensures ResultInv(s')
  {
    hide ValidOutputTree, CompleteDir, GoodLog, Pruned;
    PrunedDirTwice(d, s.results[rid], Holder(s.log, rid).value.1);
  }

  lemma RollbackRemoveResults(s: State, s': State, tx: TxId, rid: ResultId)
    requires ResultInv(s) && rid in s.results && PublishedBy(s.log, rid).None?
    requires Holder(s.log, rid).Some? && Holder(s.log, rid).value.0 == tx
    requires s'.results == s.results - {rid} && s'.tainted == s.tainted - {rid} && s'.log == s.log + [Undone(tx, rid)]
    ensures ResultInv(s')
  {
    assert s'.log[..|s'.log| - 1] == s.log;
  }

  lemma RollbackSyncedKeeps(s: State, a: Agent, c: Cx, cleanup: bool, pc: Pc)
    requires Mine(s, a) && PcOf(s, a) == RollbackSync(c, cleanup)
    requires pc == FailDone(c, Corrupt(false), cleanup) || (cleanup && pc == Release(c.h, ThenFail(c)))
          || (!cleanup && pc == FailDone(c, Failed, false))
    ensures Carries(s, Goto(s, a, pc), a)
  {
    hide ValidOutputTree, CompleteDir, Holder, PublishedBy;
    hide Good, LeaseInv, DirInv, HoldsOnly;
    PcGood(s, a, pc);
  }

  // ----- remove_dir_all of a staging directory -----------------------------------------------

  lemma WipePartialKeeps(s: State, a: Agent, h: Handle, k: WipeFor, d: Dir)
    requires Mine(s, a) && PcOf(s, a) == Wipe(h, k) && h.id in Dirs(s, h.root)
    requires PrunedDir(d, Dirs(s, h.root)[h.id])
    ensures Carries(s, Goto(SetDirs(s, h.root, Dirs(s, h.root)[h.id := d]), a, Wipe(h, k)), a)
  {
    hide Good, LeaseInv, DirInv, HoldsOnly;
    BornHere(s, h);
    WipePartialFacts(s, a, h, k, d);
    OwnDirGood(s, a, h, Dirs(s, h.root)[h.id := d], Wipe(h, k));
  }

  lemma BornHere(s: State, h: Handle)
    requires DirInv(s) && h.id in Dirs(s, h.root)
    ensures Dirs(s, h.root)[h.id].born == h.root
  {
  }

  lemma WipePartialFacts(s: State, a: Agent, h: Handle, k: WipeFor, d: Dir)
    requires AgentInv(s, a, Wipe(h, k)) && h.id in Dirs(s, h.root)
    ensures AgentInv(Goto(SetDirs(s, h.root, Dirs(s, h.root)[h.id := d]), a, Wipe(h, k)), a, Wipe(h, k))
  {
    hide ValidOutputTree, CompleteDir, Holder, PublishedBy;
    var s' := Goto(SetDirs(s, h.root, Dirs(s, h.root)[h.id := d]), a, Wipe(h, k));
    assert s'.staging.Keys == s.staging.Keys && s'.sources.Keys == s.sources.Keys;
  }

  // After the directory is gone its lease is released.
  lemma WipedKeeps(s: State, a: Agent, h: Handle, k: WipeFor, pc: Pc)
    requires Mine(s, a) && PcOf(s, a) == Wipe(h, k)
    requires (k.ForBeginError? && pc == Release(h, BackWithError))
          || ((k.ForDrop? && k.leased) && pc == Release(h, ThenDropped))
          || (k.ForExisting? && pc == Release(h, ThenExisting(k.c)))
    ensures Carries(s, Goto(SetDirs(s, h.root, Dirs(s, h.root) - {h.id}), a, pc), a)
  {
    hide Good, LeaseInv, DirInv, HoldsOnly, Facts, ValidOutputTree, CompleteDir, Holder, PublishedBy, PrunedDir,
         LockInv, HeldInv, ResultInv;
    WipedFacts(s, a, h, k, pc);
    OwnDirGood(s, a, h, Dirs(s, h.root) - {h.id}, pc);
  }

  lemma WipedFacts(s: State, a: Agent, h: Handle, k: WipeFor, pc: Pc)
    requires AgentInv(s, a, Wipe(h, k))
    requires (k.ForBeginError? && pc == Release(h, BackWithError))
          || ((k.ForDrop? && k.leased) && pc == Release(h, ThenDropped))
          || (k.ForExisting? && pc == Release(h, ThenExisting(k.c)))
    ensures AgentInv(Goto(SetDirs(s, h.root, Dirs(s, h.root) - {h.id}), a, pc), a, pc)
  {
    hide ValidOutputTree, CompleteDir, Holder, PublishedBy;
  }

  lemma ScanWipedKeeps(s: State, a: Agent, h: Handle, rec: Rec, rec': Rec, root: Root, todo: set<TxId>)
    requires Mine(s, a) && PcOf(s, a) == Wipe(h, ForScan(rec, root, todo))
    ensures Carries(s, Goto(SetDirs(s, h.root, Dirs(s, h.root) - {h.id}), a, Release(h, ThenScan(rec', root, todo))), a)
  {
    hide Good, LeaseInv, DirInv, HoldsOnly;
    hide ValidOutputTree, CompleteDir, Holder, PublishedBy;
    OwnDirGood(s, a, h, Dirs(s, h.root) - {h.id}, Release(h, ThenScan(rec', root, todo)));
  }

  lemma NotWipedKeeps(s: State, a: Agent, h: Handle, k: WipeFor, pc: Pc)
    requires Mine(s, a) && PcOf(s, a) == Wipe(h, k)
    requires (k.ForBeginError? && pc == Release(h, BackWithError))
          || ((k.ForDrop? && k.leased) && pc == Release(h, ThenDropped))
          || ((k.ForDrop? && !k.leased) && pc == DropDone)
    ensures Carries(s, Goto(s, a, pc), a)
  {
    hide ValidOutputTree, CompleteDir, Holder, PublishedBy;
    hide Good, LeaseInv, DirInv, HoldsOnly;
    PcGood(s, a, pc);
  }

  lemma ExistingNotWipedKeeps(s: State, a: Agent, h: Handle, c: Cx)
    requires Mine(s, a) && PcOf(s, a) == Wipe(h, ForExisting(c))
    ensures Carries(s, Goto(s, a, EarlyErr(c, true)), a)
  {
    hide ValidOutputTree, CompleteDir, Holder, PublishedBy;
    hide Good, LeaseInv, DirInv, HoldsOnly;
    PcGood(s, a, EarlyErr(c, true));
  }

  lemma ScanNotWipedKeeps(s: State, a: Agent, h: Handle, rec: Rec, root: Root, todo: set<TxId>)
    requires Mine(s, a) && PcOf(s, a) == Wipe(h, ForScan(rec, root, todo))
    ensures Carries(s, Goto(Closed(s, h), a, RecoverEnd(rec, false)), a)
  {
    hide Good, LeaseInv, DirInv, HoldsOnly;
    CloseGood(s, a, h, RecoverEnd(rec, false));
  }

  // ----- release_and_remove_lock_file --------------------------------------------------------

  lemma UnlinkKeeps(s: State, a: Agent, h: Handle, next: After)
    requires Mine(s, a) && PcOf(s, a) == Release(h, next)
    ensures Carries(s, Goto(s.(leases := s.leases - {h.id}), a, Unlock(h, next)), a)
  {
    hide Good, LeaseInv, DirInv, HoldsOnly;
    UnlinkFacts(s, a, h, next);
    UnlinkGood(s, a, h, Unlock(h, next));
  }

  lemma UnlinkFacts(s: State, a: Agent, h: Handle, next: After)
    requires AgentInv(s, a, Release(h, next)) && LeaseInv(s)
    ensures AgentInv(Goto(s.(leases := s.leases - {h.id}), a, Unlock(h, next)), a, Unlock(h, next))
  {
    hide ValidOutputTree, CompleteDir, Holder, PublishedBy;
  }

  // Released, or failed to release: the lease lock goes with the file handle.
  lemma ReleasedKeeps(s: State, a: Agent, h: Handle, next: After)
    requires Mine(s, a) && PcOf(s, a) == Unlock(h, next)
    ensures Carries(s, Goto(Closed(s, h), a, Released(next)), a)
  {
    hide Good, LeaseInv, DirInv, HoldsOnly;
    CloseGood(s, a, h, Released(next));
    ReleasedFacts(s, a, h, next);
  }

  lemma ReleasedFacts(s: State, a: Agent, h: Handle, next: After)
    requires AgentInv(s, a, Unlock(h, next))
    ensures AgentInv(Goto(Closed(s, h), a, Released(next)), a, Released(next))
  {
    hide ValidOutputTree, CompleteDir, Holder, PublishedBy;
  }

  lemma NotReleasedKeeps(s: State, a: Agent, h: Handle, next: After)
    requires Mine(s, a) && (PcOf(s, a) == Unlock(h, next) || PcOf(s, a) == Release(h, next))
    ensures Carries(s, Goto(Closed(s, h), a, NotReleased(next)), a)
  {
    hide Good, LeaseInv, DirInv, HoldsOnly;
    CloseGood(s, a, h, NotReleased(next));
    NotReleasedFacts(s, a, h, next);
  }

  lemma NotReleasedFacts(s: State, a: Agent, h: Handle, next: After)
    requires AgentInv(s, a, Unlock(h, next)) || AgentInv(s, a, Release(h, next))
    ensures AgentInv(Goto(Closed(s, h), a, NotReleased(next)), a, NotReleased(next))
  {
    hide ValidOutputTree, CompleteDir, Holder, PublishedBy;
  }

  // ----- giving up locks -----------------------------------------------------------------------

  // Dropping the store lock on return, with the event it records.
  lemma ReturnKeeps(s: State, a: Agent, pc: Pc, log: seq<Event>)
    requires Mine(s, a) && s.lock == Some(a) && !GripOf(pc).lock && SameLease(s, a, pc)
    requires pc.Idle? || pc.Live? || pc.CloseLease? || pc.DropWait?
    requires pc.Live? ==> PcOf(s, a) == Ready(pc.h)
    requires pc.CloseLease? ==> PcOf(s, a).FailDone? && PcOf(s, a).c.h == pc.h
    requires pc.DropWait? ==> PcOf(s, a).EarlyErr? && PcOf(s, a).c.h == pc.h && PcOf(s, a).leased == pc.leased
    ensures Carries(s, Goto(s.(lock := None, log := log), a, pc), a)
  {
    hide Good, LeaseInv, DirInv, HoldsOnly;
    UnlockGood(s, a, pc, log);
  }

  // A crash, or closing the lease of a handle that could not be dropped.
  lemma AbandonKeeps(s: State, a: Agent, h: Handle)
    requires Mine(s, a) && HoldsIno(GripOf(PcOf(s, a)), h.ino)
    ensures Carries(s, Goto(Closed(s, h).(lock := if s.lock == Some(a) then None else s.lock,
                                         abandoned := s.abandoned + {h.ino}), a, Idle), a)
  {
    hide Good, LeaseInv, DirInv, HoldsOnly;
    AbandonGood(s, a, h);
  }

  lemma CrashKeeps(s: State, a: Agent)
    requires Mine(s, a) && Holds(GripOf(PcOf(s, a))).None?
    ensures Carries(s, Goto(s.(lock := if s.lock == Some(a) then None else s.lock), a, Idle), a)
  {
    hide Good, LeaseInv, DirInv, HoldsOnly;
    if s.lock == Some(a) { UnlockGood(s, a, Idle, s.log); } else { PcGood(s, a, Idle); }
  }

  // ----- recover_abandoned ---------------------------------------------------------------------

  lemma StartRecoverKeeps(s: State, a: Agent, rec: Rec)
    requires Mine(s, a) && PcOf(s, a) == Idle && s.lock.None?
    ensures Carries(s, Goto(s.(lock := Some(a)), a, Scan(rec, Results, s.staging.Keys)), a)
  {
    hide Good, LeaseInv, DirInv, HoldsOnly;
    LockGood(s, a, Scan(rec, Results, s.staging.Keys));
  }

  // An entry or a lease is passed over, a listing is exhausted, or the recovery ends.
  lemma RecoverMovesKeeps(s: State, a: Agent, pc: Pc)
    requires Mine(s, a) && (PcOf(s, a).Scan? || PcOf(s, a).Orphans?)
    requires pc.Scan? || pc.Orphans? || pc.RecoverEnd?
    requires pc.Scan? ==> pc.todo <= Dirs(s, pc.root).Keys
    requires pc.Orphans? ==> pc.todo <= s.leases.Keys
    ensures Carries(s, Goto(s, a, pc), a)
  {
    hide Good, LeaseInv, DirInv, HoldsOnly;
    PcGood(s, a, pc);
  }

  lemma TakeEntryKeeps(s: State, a: Agent, rec: Rec, root: Root, todo: set<TxId>, id: TxId)
    requires Mine(s, a) && PcOf(s, a) == Scan(rec, root, todo) && id in todo
    requires id in s.leases && s.leases[id] !in s.held
    ensures Carries(s, Goto(s.(held := s.held[s.leases[id] := a]), a,
                            Wipe(Handle(root, id, s.leases[id]), ForScan(rec, root, todo - {id}))), a)
  {
    hide Good, DirInv, HoldsOnly;
    var h := Handle(root, id, s.leases[id]);
    HoldGood(s, a, h, Wipe(h, ForScan(rec, root, todo - {id})));
  }

  lemma TakeOrphanKeeps(s: State, a: Agent, rec: Rec, todo: set<TxId>, id: TxId)
    requires Mine(s, a) && PcOf(s, a) == Orphans(rec, todo) && id in todo
    requires id in s.leases && s.leases[id] !in s.held
    ensures Carries(s, Goto(s.(held := s.held[s.leases[id] := a]), a,
                            Release(Handle(Results, id, s.leases[id]), ThenOrphans(rec, todo - {id}))), a)
  {
    hide Good, DirInv, HoldsOnly;
    var h := Handle(Results, id, s.leases[id]);
    HoldGood(s, a, h, Release(h, ThenOrphans(rec, todo - {id})));
  }
}
