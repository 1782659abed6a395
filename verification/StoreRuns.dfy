// The protocol's main theorem: the invariant holds in every state of every run.
module StoreRuns {
  import opened Prelude
  import opened OutputTree
  import opened TransactionIds
  import opened StoreState
  import opened StoreInvariant
  import opened StorePreservation
  import opened StoreTransitions

  lemma BeginCarries(s: State, a: Agent, op: Op)
    requires Mine(s, a) && StepBegin(s, a, op).Some? && FreshName(s, a, op)
    ensures Carries(s, StepBegin(s, a, op).value, a)
  {
    hide Carries, LeaseInv, DirInv, HoldsOnly, CompleteDir, ValidTransactionId;
    match (PcOf(s, a), op) {
      case (Idle, StartBegin(root)) => StartBeginKeeps(s, a, root);
      case (BeginTry(root, n), CreateLease(id, creation)) => CreateCarries(s, a, root, n, id, creation);
      case (BeginFile(n, h), LockLease(ok)) => if ok { LockLeaseKeeps(s, a, n, h); } else { NoLeaseKeeps(s, a, n, h); }
      case (BeginLeased(n, h), MakeStage(ok)) =>
        if h.id in Dirs(s, h.root) { NoStageKeeps(s, a, n, h, BackToTry(h.root, n)); }
        else if ok { MakeStageKeeps(s, a, n, h); } else { NoStageKeeps(s, a, n, h, BackWithError); }
      case (BeginPrefix(h), MakePrefix(ok)) => if ok { MakePrefixKeeps(s, a, h); } else { NoPrefixKeeps(s, a, h); }
    }
  }

  lemma CreateCarries(s: State, a: Agent, root: Root, n: nat, id: TxId, creation: Creation)
    requires Mine(s, a) && PcOf(s, a) == BeginTry(root, n) && ValidTransactionId(id)
    requires StepBegin(s, a, CreateLease(id, creation)).Some?
    ensures Carries(s, StepBegin(s, a, CreateLease(id, creation)).value, a)
  {
    hide Carries, AgentInv, LeaseInv, DirInv, HoldsOnly, CompleteDir, ValidTransactionId;
    if id in s.leases { TryAgainKeeps(s, a, root, n, Retry(root, n)); }
    else if creation.NotCreated? { TryAgainKeeps(s, a, root, n, BeginErr); }
    else if creation.Created? { CreateLeaseKeeps(s, a, root, n, id, BeginFile(n, Handle(root, id, s.nextInode))); }
    else { CreateLeaseKeeps(s, a, root, n, id, BeginErr); }
  }

  lemma LiveCarries(s: State, a: Agent, op: Op)
    requires Mine(s, a) && StepLive(s, a, op).Some?
    ensures Carries(s, StepLive(s, a, op).value, a)
  {
    hide Carries, AgentInv, LeaseInv, DirInv, HoldsOnly, CompleteDir, ValidTransactionId;
    match (PcOf(s, a), op) {
      case (Live(h), Write(dir)) => WriteKeeps(s, a, h, dir);
      case (Live(h), StartCommit(rid)) => HandleEndsKeeps(s, a, h, CommitWait(h, rid));
      case (Live(h), StartDrop) => HandleEndsKeeps(s, a, h, DropWait(h, true));
      case (CommitWait(h, rid), LockStore(ok)) =>
        if ok { CommitLockKeeps(s, a, h, rid); } else { NoCommitLockKeeps(s, a, h, rid); }
      case (DropWait(h, leased), LockStore(ok)) =>
        if ok { DropLockKeeps(s, a, h, leased); } else { NoDropLockKeeps(s, a, h, leased); }
      case (CloseLease(h), Close) => AbandonKeeps(s, a, h);
    }
  }

  lemma MetaCarries(s: State, a: Agent, c: Cx, ok: bool, left: Meta)
    requires Mine(s, a) && PcOf(s, a) == CommitMeta(c) && StepCommit(s, a, WriteMeta(ok, left)).Some?
    ensures Carries(s, StepCommit(s, a, WriteMeta(ok, left)).value, a)
  {
    hide Carries, AgentInv, LeaseInv, DirInv, HoldsOnly, CompleteDir, ValidTransactionId;
    var d := s.staging[c.h.id];
    if ok { MetaWrittenKeeps(s, a, c, d.(meta := Complete(c.rid))); }
    else { MetaFailedKeeps(s, a, c, if d.meta.NoMeta? then d.(meta := left) else d); }
  }

  lemma UnpublishedYet(s: State, rid: ResultId)
    requires ResultInv(s)
    ensures rid !in s.results ==> PublishedBy(s.log, rid).None? && rid !in s.tainted
  {
  }

  lemma CommitCarries(s: State, a: Agent, op: Op)
    requires Mine(s, a) && ResultInv(s) && StepCommit(s, a, op).Some?
    ensures Carries(s, StepCommit(s, a, op).value, a)
  {
    hide Carries, LeaseInv, DirInv, HoldsOnly, CompleteDir, ValidTransactionId, ResultInv, GripInv;
    match PcOf(s, a) {
      case CommitCheck(c) => CheckTreeKeeps(s, a, c, if op.ok then CommitMeta(c) else EarlyErr(c, true));
      case CommitMeta(c) => MetaCarries(s, a, c, op.ok, op.left);
      case CommitPlace(c) => DestinationCarries(s, a, c, op.ok);
      case CommitRename(c) => RenameCarries(s, a, c, op.ok);
      case _ => SettleCarries(s, a, op);
    }
  }

  lemma SettleCarries(s: State, a: Agent, op: Op)
    requires Mine(s, a) && StepCommit(s, a, op).Some? && (PcOf(s, a).CommitVerify? || PcOf(s, a).CommitSync?)
    ensures Carries(s, StepCommit(s, a, op).value, a)
  {
    hide Carries, AgentInv, LeaseInv, DirInv, HoldsOnly, CompleteDir, ValidTransactionId;
    var c := PcOf(s, a).c;
    if op.VerifyPublished? { VerifyKeeps(s, a, c, if op.ok then Release(c.h, ThenSync(c)) else Rollback(c, true)); }
    else { SyncKeeps(s, a, c, if op.ok then CommitDone(c, Published) else Rollback(c, false)); }
  }

  lemma DestinationCarries(s: State, a: Agent, c: Cx, ok: bool)
    requires Mine(s, a) && PcOf(s, a) == CommitPlace(c) && StepCommit(s, a, CheckDestination(ok)).Some?
    ensures Carries(s, StepCommit(s, a, CheckDestination(ok)).value, a)
  {
    hide Carries, AgentInv, LeaseInv, DirInv, HoldsOnly, CompleteDir, ValidTransactionId;
    CheckDestinationKeeps(s, a, c, PcOf(StepCommit(s, a, CheckDestination(ok)).value, a));
  }

  lemma RenameCarries(s: State, a: Agent, c: Cx, ok: bool)
    requires Mine(s, a) && ResultInv(s) && PcOf(s, a) == CommitRename(c) && StepCommit(s, a, Rename(ok)).Some?
    ensures Carries(s, StepCommit(s, a, Rename(ok)).value, a)
  {
    hide Carries, AgentInv, LeaseInv, DirInv, HoldsOnly, CompleteDir, ValidTransactionId;
    UnpublishedYet(s, c.rid);
    if ok { RenameKeeps(s, a, c, s.staging[c.h.id]); } else { RenameFailsKeeps(s, a, c); }
  }

  lemma RollbackCarries(s: State, a: Agent, op: Op)
    requires Mine(s, a) && StepRollback(s, a, op).Some?
    ensures Carries(s, StepRollback(s, a, op).value, a)
  {
    hide Carries, AgentInv, LeaseInv, DirInv, HoldsOnly, CompleteDir, ValidTransactionId;
    var pc := PcOf(StepRollback(s, a, op).value, a);
    match (PcOf(s, a), op) {
      case (Rollback(c, cleanup), RollbackCheck(ok)) => RollbackCheckKeeps(s, a, c, cleanup, pc);
      case (RollbackWipe(c, cleanup), RollbackPartial(dir)) => RollbackPartialKeeps(s, a, c, cleanup, dir);
      case (RollbackWipe(c, cleanup), RollbackRemove(ok)) =>
        if ok { RollbackRemoveKeeps(s, a, c, cleanup); } else { RollbackFailsKeeps(s, a, c, cleanup); }
      case (RollbackSync(c, cleanup), RollbackSynced(ok)) => RollbackSyncedKeeps(s, a, c, cleanup, pc);
    }
  }

  lemma WipeCarries(s: State, a: Agent, op: Op)
    requires Mine(s, a) && StepWipe(s, a, op).Some?
    ensures Carries(s, StepWipe(s, a, op).value, a)
  {
    hide Carries, LeaseInv, DirInv, HoldsOnly, CompleteDir, ValidTransactionId;
    var h, k := PcOf(s, a).h, PcOf(s, a).k;
    if op.WipePartial? {
      WipePartialKeeps(s, a, h, k, op.dir);
    } else if op.ok {
      match k {
        case ForScan(rec, root, todo) => ScanWipedKeeps(s, a, h, rec, rec.(gone := rec.gone + {h.id}), root, todo);
        case _ => WipedKeeps(s, a, h, k, PcOf(StepWipe(s, a, op).value, a));
      }
    } else {
      match k {
        case ForScan(rec, root, todo) => ScanNotWipedKeeps(s, a, h, rec, root, todo);
        case ForExisting(c) => ExistingNotWipedKeeps(s, a, h, c);
        case _ => NotWipedKeeps(s, a, h, k, PcOf(StepWipe(s, a, op).value, a));
      }
    }
  }

  lemma ReleaseCarries(s: State, a: Agent, op: Op)
    requires Mine(s, a) && StepRelease(s, a, op).Some?
    ensures Carries(s, StepRelease(s, a, op).value, a)
  {
    hide Carries, AgentInv, LeaseInv, DirInv, HoldsOnly, CompleteDir, ValidTransactionId;
    match (PcOf(s, a), op) {
      case (Release(h, next), RemoveLease(ok)) =>
        if ok { UnlinkKeeps(s, a, h, next); } else { NotReleasedKeeps(s, a, h, next); }
      case (Unlock(h, next), UnlockLease(ok)) =>
        if ok { ReleasedKeeps(s, a, h, next); } else { NotReleasedKeeps(s, a, h, next); }
    }
  }

  lemma UnlockedCarries(s: State, a: Agent)
    requires Mine(s, a) && StepUnlocked(s, a).Some?
    ensures Carries(s, StepUnlocked(s, a).value, a)
  {
    hide Carries, AgentInv, LeaseInv, DirInv, HoldsOnly, CompleteDir, ValidTransactionId;
    ReturnKeeps(s, a, AfterReturn(PcOf(s, a)).value, s.log + ReturnEvents(PcOf(s, a)));
  }

  lemma RecoverCarries(s: State, a: Agent, op: Op)
    requires Mine(s, a) && StepRecover(s, a, op).Some?
    ensures Carries(s, StepRecover(s, a, op).value, a)
  {
    hide Carries, LeaseInv, DirInv, HoldsOnly, CompleteDir, ValidTransactionId;
    match (PcOf(s, a), op) {
      case (Idle, StartRecover) =>
        StartRecoverKeeps(s, a, Rec(0, {}, s.staging.Keys + s.sources.Keys, s.abandoned));
      case (Scan(rec, root, todo), TryEntry(id, ok)) => EntryCarries(s, a, rec, root, todo, id, ok);
      case (Scan(rec, root, todo), NextRoot(ok)) => RecoverMovesKeeps(s, a, PcOf(StepRecover(s, a, op).value, a));
      case (Orphans(rec, todo), TryOrphan(id, ok)) => OrphanCarries(s, a, rec, todo, id, ok);
      case (Orphans(rec, todo), OrphansDone) => RecoverMovesKeeps(s, a, RecoverEnd(rec, true));
    }
  }

  lemma EntryCarries(s: State, a: Agent, rec: Rec, root: Root, todo: set<TxId>, id: TxId, ok: bool)
    requires Mine(s, a) && PcOf(s, a) == Scan(rec, root, todo) && id in todo
    requires StepRecover(s, a, TryEntry(id, ok)).Some?
    ensures Carries(s, StepRecover(s, a, TryEntry(id, ok)).value, a)
  {
    hide Carries, LeaseInv, DirInv, HoldsOnly, CompleteDir, ValidTransactionId;
    if !ok || !ValidTransactionId(id) || id !in s.leases { RecoverMovesKeeps(s, a, RecoverEnd(rec, false)); }
    else if s.leases[id] in s.held { RecoverMovesKeeps(s, a, Scan(rec, root, todo - {id})); }
    else { TakeEntryKeeps(s, a, rec, root, todo, id); }
  }

  lemma OrphanCarries(s: State, a: Agent, rec: Rec, todo: set<TxId>, id: TxId, ok: bool)
    requires Mine(s, a) && PcOf(s, a) == Orphans(rec, todo) && id in todo
    requires StepRecover(s, a, TryOrphan(id, ok)).Some?
    ensures Carries(s, StepRecover(s, a, TryOrphan(id, ok)).value, a)
  {
    hide Carries, LeaseInv, DirInv, HoldsOnly, CompleteDir, ValidTransactionId;
    var pc := PcOf(StepRecover(s, a, TryOrphan(id, ok)).value, a);
    if pc.Release? { TakeOrphanKeeps(s, a, rec, todo, id); } else { RecoverMovesKeeps(s, a, pc); }
  }

  lemma CrashCarries(s: State, a: Agent)
    requires Mine(s, a)
    ensures Carries(s, StepCrash(s, a), a)
  {
    hide Carries, AgentInv, LeaseInv, DirInv, HoldsOnly, CompleteDir, ValidTransactionId;
    match GripOf(PcOf(s, a)) {
      case Grip(_, h, true, _, _) => AbandonKeeps(s, a, h);
      case _ => CrashKeeps(s, a);
    }
  }

  // ----- the results and the history ---------------------------------------------------

  lemma Quiet(s: State, s': State)
    requires ResultInv(s) && s'.results == s.results && s'.tainted == s.tainted && s'.log == s.log
    ensures ResultInv(s')
  {
  }

  // An event other than a rename or a rollback, when it says only what is the case.
  lemma Recorded(s: State, s': State, e: Event)
    requires ResultInv(s) && s'.results == s.results && s'.tainted == s.tainted && s'.log == s.log + [e]
    requires (e.Returned? || e.Got?) && Justified(s.log, e)
    requires e.Returned? && e.outcome.Published? ==> e.rid in s.results && e.rid !in s.tainted
    ensures ResultInv(s')
  {
    assert s'.log[..|s'.log| - 1] == s.log;
  }

  lemma CommitRecords(s: State, a: Agent, op: Op)
    requires AgentInv(s, a, PcOf(s, a)) && DirInv(s) && ResultInv(s) && StepCommit(s, a, op).Some?
    ensures ResultInv(StepCommit(s, a, op).value)
  {
    hide ResultInv, GripInv, LeaseInv, CompleteDir, Holder, PublishedBy;
    if op.Rename? && op.ok { RenameRecords(s, a, PcOf(s, a).c); }
    else { Quiet(s, StepCommit(s, a, op).value); }
  }

  lemma RenameRecords(s: State, a: Agent, c: Cx)
    requires AgentInv(s, a, CommitRename(c)) && PcOf(s, a) == CommitRename(c) && DirInv(s) && ResultInv(s)
    ensures ResultInv(StepCommit(s, a, Rename(true)).value)
  {
    hide ResultInv, GripInv, LeaseInv, CompleteDir, Holder, PublishedBy;
    RenameResults(s, c.h.id, c.rid, s.staging[c.h.id], StepCommit(s, a, Rename(true)).value);
  }

  lemma RollbackRecords(s: State, a: Agent, op: Op)
    requires AgentInv(s, a, PcOf(s, a)) && ResultInv(s) && StepRollback(s, a, op).Some?
    ensures ResultInv(StepRollback(s, a, op).value)
  {
    hide ResultInv, AgentInv, StepRollback;
    if op.RollbackPartial? { PartialRecords(s, a, op.dir); }
    else if op == RollbackRemove(true) { RemoveRecords(s, a); }
    else { QuietRollback(s, a, op); Quiet(s, StepRollback(s, a, op).value); }
  }

  lemma QuietRollback(s: State, a: Agent, op: Op)
    requires StepRollback(s, a, op).Some? && !op.RollbackPartial? && op != RollbackRemove(true)
    ensures SameStory(s, StepRollback(s, a, op).value)
  {
  }

  lemma PartialRecords(s: State, a: Agent, dir: Dir)
    requires AgentInv(s, a, PcOf(s, a)) && ResultInv(s) && StepRollback(s, a, RollbackPartial(dir)).Some?
    ensures ResultInv(StepRollback(s, a, RollbackPartial(dir)).value)
  {
    hide ResultInv, AgentInv;
    RollbackWipeFacts(s, a, PcOf(s, a).c, PcOf(s, a).cleanup);
    RollbackPartialResults(s, StepRollback(s, a, RollbackPartial(dir)).value, PcOf(s, a).c.rid, dir);
  }

  lemma RemoveRecords(s: State, a: Agent)
    requires AgentInv(s, a, PcOf(s, a)) && ResultInv(s) && StepRollback(s, a, RollbackRemove(true)).Some?
    ensures ResultInv(StepRollback(s, a, RollbackRemove(true)).value)
  {
    hide ResultInv, AgentInv;
    var c := PcOf(s, a).c;
    RollbackWipeFacts(s, a, c, PcOf(s, a).cleanup);
    RollbackRemoveResults(s, StepRollback(s, a, RollbackRemove(true)).value, c.h.id, c.rid);
  }

  lemma RollbackWipeFacts(s: State, a: Agent, c: Cx, cleanup: bool)
    requires AgentInv(s, a, RollbackWipe(c, cleanup)) && ResultInv(s)
    ensures c.rid in s.results && s.results[c.rid].born.Results? && PublishedBy(s.log, c.rid).None?
    ensures Holder(s.log, c.rid).Some? && Holder(s.log, c.rid).value.0 == c.h.id
  {
    hide GoodLog, CompleteDir, Holder, PublishedBy;
  }

  lemma UnlockedRecords(s: State, a: Agent)
    requires Facts(s, PcOf(s, a)) && ResultInv(s) && StepUnlocked(s, a).Some?
    ensures ResultInv(StepUnlocked(s, a).value)
  {
    hide ResultInv, Facts;
    var s' := StepUnlocked(s, a).value;
    assert s.log + [] == s.log;
    match PcOf(s, a) {
      case CommitDone(c, outcome) => SuccessRecords(s, s', c, outcome);
      case FailDone(c, outcome, leaseOpen) =>
        FailureFacts(s, c, outcome, leaseOpen);
        FailureRecords(s, s', c, outcome);
      case EarlyErr(c, _) => FailureRecords(s, s', c, Failed);
      case _ => Quiet(s, s');
    }
  }

  lemma FailureFacts(s: State, c: Cx, outcome: Outcome, leaseOpen: bool)
    requires Facts(s, FailDone(c, outcome, leaseOpen))
    ensures outcome.Failed? || outcome.Corrupt?
  {
  }

  lemma SuccessRecords(s: State, s': State, c: Cx, outcome: Outcome)
    requires ResultInv(s) && Facts(s, CommitDone(c, outcome))
    requires s'.results == s.results && s'.tainted == s.tainted && s'.log == s.log + [Returned(c.h.id, c.rid, outcome)]
    ensures ResultInv(s')
  {
    hide GripInv, GoodLog, CompleteDir, Holder, PublishedBy;
    Recorded(s, s', Returned(c.h.id, c.rid, outcome));
  }

  lemma FailureRecords(s: State, s': State, c: Cx, outcome: Outcome)
    requires ResultInv(s) && (outcome.Failed? || outcome.Corrupt?)
    requires s'.results == s.results && s'.tainted == s.tainted && s'.log == s.log + [Returned(c.h.id, c.rid, outcome)]
    ensures ResultInv(s')
  {
    hide ResultInv, GripInv, LeaseInv, CompleteDir, Holder, PublishedBy;
    Recorded(s, s', Returned(c.h.id, c.rid, outcome));
  }

  lemma GetRecords(s: State, a: Agent, rid: ResultId)
    requires ResultInv(s) && StepGet(s, a, rid).Some?
    ensures ResultInv(StepGet(s, a, rid).value)
  {
    hide GripInv, GoodLog, CompleteDir, Holder, PublishedBy;
    var s' := StepGet(s, a, rid).value;
    if rid !in s.results { Recorded(s, s', Got(rid, None)); }
    else if CompleteDir(s.results[rid], rid) { Recorded(s, s', Got(rid, Some(s.results[rid]))); }
  }

  // ----- every step, every run ------------------------------------------------------------

  lemma OwnPart(s: State, a: Agent)
    requires Inv(s)
    ensures Mine(s, a) && ResultInv(s) && DirInv(s)
  {
  }

  lemma GetCarries(s: State, a: Agent, rid: ResultId)
    requires Mine(s, a) && StepGet(s, a, rid).Some?
    ensures Carries(s, StepGet(s, a, rid).value, a)
  {
    hide Carries, AgentInv, LeaseInv, DirInv, HoldsOnly, CompleteDir, ValidTransactionId;
    if rid !in s.results { LogCarries(s, a, s.log + [Got(rid, None)]); }
    else if CompleteDir(s.results[rid], rid) { LogCarries(s, a, s.log + [Got(rid, Some(s.results[rid]))]); }
    else { LogCarries(s, a, s.log); }
  }

  lemma LogCarries(s: State, a: Agent, log: seq<Event>)
    requires Mine(s, a) && s.lock.None? && PcOf(s, a).Idle?
    ensures Carries(s, Goto(s.(log := log), a, Idle), a)
  {
    hide LeaseInv, DirInv, HoldsOnly, CompleteDir, ValidTransactionId;
    LogGood(s, a, log);
  }

  lemma LogGood(s: State, a: Agent, log: seq<Event>)
    requires Own(s, a) && s.lock.None? && PcOf(s, a).Idle?
    ensures Good(s, Goto(s.(log := log), a, Idle), a)
  {
  }

  lemma StepCarries(s: State, a: Agent, op: Op)
    requires Mine(s, a) && ResultInv(s) && Allowed(s, a, op)
    ensures Carries(s, Step(s, a, op).value, a)
  {
    hide Carries, AgentInv, LeaseInv, DirInv, HoldsOnly, CompleteDir, ValidTransactionId;
    if Step(s, a, op) == StepBegin(s, a, op) { BeginCarries(s, a, op); }
    else if Step(s, a, op) == StepLive(s, a, op) { LiveCarries(s, a, op); }
    else if Step(s, a, op) == StepWipe(s, a, op) { WipeCarries(s, a, op); }
    else if Step(s, a, op) == StepCommit(s, a, op) { CommitCarries(s, a, op); }
    else { MoreCarries(s, a, op); }
  }

  lemma MoreCarries(s: State, a: Agent, op: Op)
    requires Mine(s, a) && Step(s, a, op).Some?
    requires Step(s, a, op) != StepBegin(s, a, op) && Step(s, a, op) != StepLive(s, a, op)
    requires Step(s, a, op) != StepWipe(s, a, op) && Step(s, a, op) != StepCommit(s, a, op)
    ensures Carries(s, Step(s, a, op).value, a)
  {
    hide Carries, AgentInv, LeaseInv, DirInv, HoldsOnly, CompleteDir, ValidTransactionId;
    if op.Unlocked? { UnlockedCarries(s, a); }
    else if op.Get? { GetCarries(s, a, op.rid); }
    else if op.Crash? { CrashCarries(s, a); }
    else if Step(s, a, op) == StepRelease(s, a, op) { ReleaseCarries(s, a, op); }
    else if Step(s, a, op) == StepRollback(s, a, op) { RollbackCarries(s, a, op); }
    else { RecoverCarries(s, a, op); }
  }

  lemma StepRecords(s: State, a: Agent, op: Op)
    requires Mine(s, a) && ResultInv(s) && Step(s, a, op).Some?
    ensures ResultInv(Step(s, a, op).value)
  {
    hide ResultInv, GripInv, LeaseInv, CompleteDir, Holder, PublishedBy;
    if StepCommit(s, a, op) == Step(s, a, op) { CommitRecords(s, a, op); }
    else if StepRollback(s, a, op) == Step(s, a, op) { RollbackRecords(s, a, op); }
    else if op.Unlocked? { UnlockedRecords(s, a); }
    else if op.Get? { GetRecords(s, a, op.rid); }
    else { QuietStep(s, a, op); Quiet(s, Step(s, a, op).value); }
  }

  // Only commits, rollbacks, returns and gets touch the results or the history.
  lemma QuietStep(s: State, a: Agent, op: Op)
    requires Step(s, a, op).Some? && !op.Unlocked? && !op.Get?
    requires StepCommit(s, a, op) != Step(s, a, op) && StepRollback(s, a, op) != Step(s, a, op)
    ensures SameStory(s, Step(s, a, op).value)
  {
    hide SameStory;
    QuietBegin(s, a, op);
    QuietLive(s, a, op);
    QuietWipe(s, a, op);
    QuietRelease(s, a, op);
    QuietRecover(s, a, op);
    QuietCrash(s, a);
  }

  ghost predicate SameStory(s: State, s': State) {
    s'.results == s.results && s'.tainted == s.tainted && s'.log == s.log
  }

  lemma QuietBegin(s: State, a: Agent, op: Op)
    ensures StepBegin(s, a, op).Some? ==> SameStory(s, StepBegin(s, a, op).value)
  {
    hide StepBegin;
    match op {
      case CreateLease(id, creation) => QuietCreate(s, a, id, creation);
      case MakeStage(ok) => QuietMakeStage(s, a, ok);
      case MakePrefix(ok) => QuietMakePrefix(s, a, ok);
      case _ => QuietEarly(s, a, op);
    }
  }

  lemma QuietCreate(s: State, a: Agent, id: TxId, creation: Creation)
    ensures var s1 := StepBegin(s, a, CreateLease(id, creation)); s1.Some? ==> SameStory(s, s1.value)
  {
    hide ValidTransactionId;
  }

  lemma QuietEarly(s: State, a: Agent, op: Op)
    requires !op.CreateLease? && !op.MakeStage? && !op.MakePrefix?
    ensures StepBegin(s, a, op).Some? ==> SameStory(s, StepBegin(s, a, op).value)
  {
  }

  lemma QuietMakeStage(s: State, a: Agent, ok: bool)
    ensures var s1 := StepBegin(s, a, MakeStage(ok)); s1.Some? ==> SameStory(s, s1.value)
  {
  }

  lemma QuietMakePrefix(s: State, a: Agent, ok: bool)
    ensures var s1 := StepBegin(s, a, MakePrefix(ok)); s1.Some? ==> SameStory(s, s1.value)
  {
  }

  lemma QuietLive(s: State, a: Agent, op: Op)
    ensures StepLive(s, a, op).Some? ==> SameStory(s, StepLive(s, a, op).value)
  {
    hide CompleteDir, ValidOutputTree, ValidTransactionId;
  }

  lemma QuietWipe(s: State, a: Agent, op: Op)
    ensures StepWipe(s, a, op).Some? ==> SameStory(s, StepWipe(s, a, op).value)
  {
    if op.WipePartial? { QuietPartial(s, a, op.dir); } else if op.WipeAll? { QuietWiped(s, a, op.ok); }
  }

  lemma QuietPartial(s: State, a: Agent, dir: Dir)
    ensures var s1 := StepWipe(s, a, WipePartial(dir)); s1.Some? ==> SameStory(s, s1.value)
  {
    hide PrunedDir;
  }

  lemma QuietWiped(s: State, a: Agent, ok: bool)
    ensures var s1 := StepWipe(s, a, WipeAll(ok)); s1.Some? ==> SameStory(s, s1.value)
  {
  }

  lemma QuietRelease(s: State, a: Agent, op: Op)
    ensures StepRelease(s, a, op).Some? ==> SameStory(s, StepRelease(s, a, op).value)
  {
  }

  lemma QuietRecover(s: State, a: Agent, op: Op)
    ensures StepRecover(s, a, op).Some? ==> SameStory(s, StepRecover(s, a, op).value)
  {
    hide StepRecover;
    match op {
      case TryEntry(id, ok) => QuietEntry(s, a, id, ok);
      case TryOrphan(id, ok) => QuietOrphan(s, a, id, ok);
      case _ => QuietScan(s, a, op);
    }
  }

  lemma QuietScan(s: State, a: Agent, op: Op)
    requires !op.TryEntry? && !op.TryOrphan?
    ensures StepRecover(s, a, op).Some? ==> SameStory(s, StepRecover(s, a, op).value)
  {
  }

  lemma QuietEntry(s: State, a: Agent, id: TxId, ok: bool)
    ensures var s1 := StepRecover(s, a, TryEntry(id, ok)); s1.Some? ==> SameStory(s, s1.value)
  {
    hide ValidTransactionId;
  }

  lemma QuietOrphan(s: State, a: Agent, id: TxId, ok: bool)
    ensures var s1 := StepRecover(s, a, TryOrphan(id, ok)); s1.Some? ==> SameStory(s, s1.value)
  {
    hide ValidTransactionId;
  }

  lemma QuietCrash(s: State, a: Agent)
    ensures SameStory(s, StepCrash(s, a))
  {
  }

  // The invariant is kept by every allowed step, faults and crashes included.
  lemma StepKeeps(s: State, a: Agent, op: Op)
    requires Inv(s) && Allowed(s, a, op)
    ensures Inv(Step(s, a, op).value)
  {
    OwnPart(s, a);
    StepCarries(s, a, op);
    StepRecords(s, a, op);
    Assemble(s, Step(s, a, op).value, a);
  }

  lemma OthersStay(s: State, a: Agent, b: Agent, op: Op)
    requires Inv(s) && Allowed(s, b, op) && a != b
    ensures PcOf(Step(s, b, op).value, a) == PcOf(s, a)
  {
    OwnPart(s, b);
    StepCarries(s, b, op);
  }

  // ----- runs ---------------------------------------------------------------------------------

  lemma StartsWell()
    ensures Inv(Init())
  {
  }

  // The state after a list of steps; None when some step is not what its agent does next.
  function Run(s: State, steps: seq<(Agent, Op)>): Option<State>
    decreases |steps|
  {
    if steps == [] then Some(s)
    else
      match Step(s, steps[0].0, steps[0].1)
      case None => None
      case Some(s1) => Run(s1, steps[1..])
  }

  // Every step of the run satisfies the hypotheses.
  ghost predicate AllowedRun(s: State, steps: seq<(Agent, Op)>)
    decreases |steps|
  {
    steps == [] ||
    (Allowed(s, steps[0].0, steps[0].1) && AllowedRun(Step(s, steps[0].0, steps[0].1).value, steps[1..]))
  }

  // Every interleaving, every pattern of faults and crashes.
  lemma {:induction false} RunKeeps(s: State, steps: seq<(Agent, Op)>)
    requires Inv(s) && AllowedRun(s, steps)
    ensures Run(s, steps).Some? && Inv(Run(s, steps).value)
    decreases |steps|
  {
    if steps != [] {
      StepKeeps(s, steps[0].0, steps[0].1);
      RunKeeps(Step(s, steps[0].0, steps[0].1).value, steps[1..]);
    }
  }

  // One step longer.
  lemma {:induction false} RunSnoc(s: State, steps: seq<(Agent, Op)>, a: Agent, op: Op)
    requires Run(s, steps).Some? && Step(Run(s, steps).value, a, op).Some?
    ensures Run(s, steps + [(a, op)]) == Step(Run(s, steps).value, a, op)
    ensures AllowedRun(s, steps) && Allowed(Run(s, steps).value, a, op) ==> AllowedRun(s, steps + [(a, op)])
    decreases |steps|
  {
    hide Step, Allowed;
    var all := steps + [(a, op)];
    if steps == [] {
      assert all[1..] == [];
    } else {
      assert all[0] == steps[0] && all[1..] == steps[1..] + [(a, op)];
      RunSnoc(Step(s, steps[0].0, steps[0].1).value, steps[1..], a, op);
    }
  }
}
