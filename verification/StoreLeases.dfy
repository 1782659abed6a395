// The lease files and the staging directories: which directories have their lease, and what a
// recovery has to show for itself. None of it is needed for the results.
module StoreLeases {
  import opened Prelude
  import opened OutputTree
  import opened TransactionIds
  import opened StoreCalls
  import opened StoreState
  import opened StoreInvariant
  import opened StorePreservation
  import opened StoreRuns

  ghost predicate Absent(s: State, id: TxId) { id !in s.staging && id !in s.sources }

  // No id is in both staging roots.
  ghost predicate Apart(s: State) { forall id | id in s.staging :: id !in s.sources }

  // Every directory in either staging root has its lease file.
  ghost predicate Covered(s: State) {
    forall id | id in s.staging || id in s.sources :: id in s.leases
  }

  // ----- which directories and leases a step makes or removes --------------------------------

  // The same directories and lease files are there.
  ghost predicate SameNames(s: State, s': State) {
    && s'.staging.Keys == s.staging.Keys && s'.sources.Keys == s.sources.Keys && s'.leases.Keys == s.leases.Keys
    && s'.nextInode == s.nextInode
  }

  // The five calls that may make or remove one.
  predicate Renames(op: Op) {
    op.CreateLease? || op == MakeStage(true) || op == Rename(true) || op == WipeAll(true) || op == RemoveLease(true)
  }

  lemma NamesAtGoto(s: State, a: Agent)
    ensures forall t: State, pc: Pc :: SameNames(s, Goto(t, a, pc)) <==> SameNames(s, t)
  {
  }

  lemma BeginNames(s: State, a: Agent, op: Op)
    requires Step(s, a, op).Some? && Step(s, a, op) == StepBegin(s, a, op) && !Renames(op)
    ensures SameNames(s, Step(s, a, op).value)
  {
    hide Step, StepBegin, StepLive, StepCommit, StepRollback, StepWipe, StepRelease, StepRecover, StepGet, StepUnlocked,
         StepCrash, CompleteDir, ValidOutputTree, PrunedDir, ValidTransactionId;
    BeginAt(s, a, op);
    match op {
      case StartBegin(_) => LeadsStart(s, a, op);
      case LockLease(ok) => LeadsLockLease(s, a, PcOf(s, a).n, PcOf(s, a).h, ok);
      case MakeStage(ok) => LeadsMakeStage(s, a, PcOf(s, a).n, PcOf(s, a).h, ok);
      case MakePrefix(ok) => LeadsMakePrefix(s, a, PcOf(s, a).h, ok);
    }
  }

  lemma LiveNames(s: State, a: Agent, op: Op)
    requires Step(s, a, op).Some? && Step(s, a, op) == StepLive(s, a, op)
    ensures SameNames(s, Step(s, a, op).value)
  {
    hide Step, StepBegin, StepLive, StepCommit, StepRollback, StepWipe, StepRelease, StepRecover, StepGet, StepUnlocked,
         StepCrash, CompleteDir, ValidOutputTree, PrunedDir, ValidTransactionId;
    LiveAt(s, a, op);
    match PcOf(s, a) {
      case Live(h) => if op.Write? { LeadsWrite(s, a, h, op.dir); } else { LeadsEnd(s, a, h, op); }
      case CommitWait(h, rid) => LeadsCommitLock(s, a, h, rid, op.ok);
      case DropWait(h, leased) => LeadsDropLock(s, a, h, leased, op.ok);
      case CloseLease(h) => LeadsClose(s, a, h);
    }
  }

  lemma CommitNames(s: State, a: Agent, op: Op)
    requires Step(s, a, op).Some? && Step(s, a, op) == StepCommit(s, a, op) && !Renames(op)
    ensures SameNames(s, Step(s, a, op).value)
  {
    hide Step, StepBegin, StepLive, StepCommit, StepRollback, StepWipe, StepRelease, StepRecover, StepGet, StepUnlocked,
         StepCrash, CompleteDir, ValidOutputTree, PrunedDir, ValidTransactionId;
    CommitAt(s, a, op);
    NamesAtGoto(s, a);
    hide Goto, PcOf;
    match PcOf(s, a) {
      case CommitCheck(c) => LeadsCheckTree(s, a, c, op.ok);
      case CommitMeta(c) => LeadsWriteMeta(s, a, c, op.ok, op.left);
      case CommitPlace(c) => LeadsCheckDestination(s, a, c, op.ok);
      case CommitRename(c) => LeadsRename(s, a, c, op.ok);
      case CommitVerify(c) => LeadsVerify(s, a, c, op.ok);
      case CommitSync(c) => LeadsSync(s, a, c, op.ok);
    }
  }

  lemma RollbackNames(s: State, a: Agent, op: Op)
    requires Step(s, a, op).Some? && Step(s, a, op) == StepRollback(s, a, op)
    ensures SameNames(s, Step(s, a, op).value)
  {
    hide Step, StepBegin, StepLive, StepCommit, StepRollback, StepWipe, StepRelease, StepRecover, StepGet, StepUnlocked,
         StepCrash, CompleteDir, ValidOutputTree, PrunedDir, ValidTransactionId;
    RollbackAt(s, a, op);
    NamesAtGoto(s, a);
    hide Goto, PcOf;
    match PcOf(s, a) {
      case Rollback(c, cleanup) => LeadsRollback(s, a, c, cleanup, op.ok);
      case RollbackWipe(c, cleanup) =>
        if op.RollbackPartial? { LeadsRollbackPartial(s, a, c, cleanup, op.dir); }
        else { LeadsRollbackRemove(s, a, c, cleanup, op.ok); }
      case RollbackSync(c, cleanup) => LeadsRollbackSynced(s, a, c, cleanup, op.ok);
    }
  }

  lemma WipeNames(s: State, a: Agent, op: Op)
    requires Step(s, a, op).Some? && Step(s, a, op) == StepWipe(s, a, op) && !Renames(op)
    ensures SameNames(s, Step(s, a, op).value)
  {
    hide Step, StepBegin, StepLive, StepCommit, StepRollback, StepWipe, StepRelease, StepRecover, StepGet, StepUnlocked,
         StepCrash, CompleteDir, ValidOutputTree, PrunedDir, ValidTransactionId;
    WipeAt(s, a, op);
    var h, k := PcOf(s, a).h, PcOf(s, a).k;
    if op.WipePartial? { LeadsWipePartial(s, a, h, k, op.dir); } else { LeadsWipe(s, a, h, k, op.ok); }
  }

  lemma ReleaseNames(s: State, a: Agent, op: Op)
    requires Step(s, a, op).Some? && Step(s, a, op) == StepRelease(s, a, op) && !Renames(op)
    ensures SameNames(s, Step(s, a, op).value)
  {
    hide Step, StepBegin, StepLive, StepCommit, StepRollback, StepWipe, StepRelease, StepRecover, StepGet, StepUnlocked,
         StepCrash, CompleteDir, ValidOutputTree, PrunedDir, ValidTransactionId;
    ReleaseAt(s, a, op);
    var h, next := PcOf(s, a).h, PcOf(s, a).next;
    if op.RemoveLease? { LeadsRemoveLease(s, a, h, next, op.ok); } else { LeadsUnlockLease(s, a, h, next, op.ok); }
  }

  lemma RecoverNames(s: State, a: Agent, op: Op)
    requires Step(s, a, op).Some? && Step(s, a, op) == StepRecover(s, a, op)
    ensures SameNames(s, Step(s, a, op).value)
  {
    hide Step, StepBegin, StepLive, StepCommit, StepRollback, StepWipe, StepRelease, StepRecover, StepGet, StepUnlocked,
         StepCrash, CompleteDir, ValidOutputTree, PrunedDir, ValidTransactionId;
    RecoverAt(s, a, op);
    match op {
      case StartRecover => LeadsStart(s, a, op);
      case TryEntry(id, ok) => LeadsTryEntry(s, a, PcOf(s, a).rec, PcOf(s, a).root, PcOf(s, a).todo, id, ok);
      case NextRoot(ok) => LeadsNextRoot(s, a, PcOf(s, a).rec, PcOf(s, a).root, PcOf(s, a).todo, ok);
      case TryOrphan(id, ok) => LeadsTryOrphan(s, a, PcOf(s, a).rec, PcOf(s, a).todo, id, ok);
      case OrphansDone => LeadsOrphansDone(s, a, PcOf(s, a).rec);
    }
  }

  lemma ReturnNames(s: State, a: Agent)
    requires StepUnlocked(s, a).Some?
    ensures SameNames(s, StepUnlocked(s, a).value)
  {
  }

  lemma GetNames(s: State, a: Agent, rid: ResultId)
    requires StepGet(s, a, rid).Some?
    ensures SameNames(s, StepGet(s, a, rid).value)
  {
  }

  lemma CrashNames(s: State, a: Agent)
    ensures SameNames(s, StepCrash(s, a))
  {
  }

  lemma StepNames(s: State, a: Agent, op: Op)
    requires Step(s, a, op).Some? && !Renames(op)
    ensures SameNames(s, Step(s, a, op).value)
  {
    hide SameNames, StepBegin, StepLive, StepCommit, StepRollback, StepWipe, StepRelease, StepRecover, StepUnlocked,
         StepGet, StepCrash;
    if Step(s, a, op) == StepBegin(s, a, op) { BeginNames(s, a, op); }
    else if Step(s, a, op) == StepLive(s, a, op) { LiveNames(s, a, op); }
    else if Step(s, a, op) == StepCommit(s, a, op) { CommitNames(s, a, op); }
    else if Step(s, a, op) == StepRollback(s, a, op) { RollbackNames(s, a, op); }
    else if Step(s, a, op) == StepWipe(s, a, op) { WipeNames(s, a, op); }
    else if Step(s, a, op) == StepRelease(s, a, op) { ReleaseNames(s, a, op); }
    else if Step(s, a, op) == StepRecover(s, a, op) { RecoverNames(s, a, op); }
    else if op.Unlocked? { ReturnNames(s, a); }
    else if op.Get? { GetNames(s, a, op.rid); }
    else { CrashNames(s, a); }
  }

  lemma CreateNames(s: State, a: Agent, id: TxId, creation: Creation)
    requires Step(s, a, CreateLease(id, creation)).Some?
    ensures var s' := Step(s, a, CreateLease(id, creation)).value;
      && s'.staging == s.staging && s'.sources == s.sources
      && (s'.leases == s.leases || (id !in s.leases && s'.leases.Keys == s.leases.Keys + {id}))
  {
    hide StepLive, StepCommit, StepRollback, StepWipe, StepRelease, StepRecover, StepGet, StepUnlocked, StepCrash;
    hide ValidTransactionId;
  }

  lemma MakeStageNames(s: State, a: Agent)
    requires Step(s, a, MakeStage(true)).Some?
    ensures PcOf(s, a).BeginLeased?
    ensures var s', h := Step(s, a, MakeStage(true)).value, PcOf(s, a).h;
      && s'.leases == s.leases && s'.nextInode == s.nextInode
      && (h.root.Results? ==> s'.sources == s.sources && s'.staging.Keys == s.staging.Keys + {h.id})
      && (h.root.Sources? ==> s'.staging == s.staging && s'.sources.Keys == s.sources.Keys + {h.id})
  {
    hide StepLive, StepCommit, StepRollback, StepWipe, StepRelease, StepRecover, StepGet, StepUnlocked, StepCrash;
    var h := PcOf(s, a).h;
    if h.id in Dirs(s, h.root) {
      assert s.staging.Keys + {h.id} == s.staging.Keys || s.sources.Keys + {h.id} == s.sources.Keys;
    }
  }

  lemma UnlinkNames(s: State, a: Agent)
    requires Step(s, a, RemoveLease(true)).Some?
    ensures PcOf(s, a).Release?
    ensures var s' := Step(s, a, RemoveLease(true)).value;
      && s'.leases == s.leases - {PcOf(s, a).h.id} && s'.staging == s.staging && s'.sources == s.sources
      && s'.nextInode == s.nextInode
      && PcOf(s', a) == Unlock(PcOf(s, a).h, PcOf(s, a).next)
  {
    hide StepBegin, StepLive, StepCommit, StepRollback, StepWipe, StepRecover, StepGet, StepUnlocked, StepCrash;
  }

  lemma RenameNames(s: State, a: Agent)
    requires Step(s, a, Rename(true)).Some?
    ensures PcOf(s, a).CommitRename?
    ensures var s', c := Step(s, a, Rename(true)).value, PcOf(s, a).c;
      && s'.leases == s.leases && s'.sources == s.sources && s'.nextInode == s.nextInode
      && c.h.id in s.staging && s'.staging == s.staging - {c.h.id}
  {
    hide StepBegin, StepLive, StepRollback, StepWipe, StepRelease, StepRecover, StepGet, StepUnlocked, StepCrash,
         CompleteDir;
  }

  lemma WipedNames(s: State, a: Agent)
    requires Step(s, a, WipeAll(true)).Some?
    ensures PcOf(s, a).Wipe?
    ensures var s', h := Step(s, a, WipeAll(true)).value, PcOf(s, a).h;
      && s'.leases == s.leases && s'.nextInode == s.nextInode && h.id in Dirs(s, h.root)
      && (h.root.Results? ==> s'.sources == s.sources && s'.staging == s.staging - {h.id})
      && (h.root.Sources? ==> s'.staging == s.staging && s'.sources == s.sources - {h.id})
  {
    hide StepBegin, StepLive, StepCommit, StepRollback, StepWipe, StepRelease, StepRecover, StepGet, StepUnlocked,
         StepCrash;
    WipeAt(s, a, WipeAll(true));
    LeadsWipe(s, a, PcOf(s, a).h, PcOf(s, a).k, true);
    hide Step;
  }

  // Only `begin` makes directories.
  lemma NoneAppear(s: State, a: Agent, op: Op)
    requires Step(s, a, op).Some? && op != MakeStage(true)
    ensures var s' := Step(s, a, op).value; s'.staging.Keys <= s.staging.Keys && s'.sources.Keys <= s.sources.Keys
    ensures op != RemoveLease(true) ==> s.leases.Keys <= Step(s, a, op).value.leases.Keys
    ensures !op.CreateLease? ==> Step(s, a, op).value.nextInode == s.nextInode
  {
    hide Step, PcOf;
    if op.CreateLease? { CreateNames(s, a, op.id, op.creation); }
    else if op == Rename(true) { RenameNames(s, a); }
    else if op == WipeAll(true) { WipedNames(s, a); }
    else if op == RemoveLease(true) { UnlinkNames(s, a); }
    else { StepNames(s, a, op); }
  }

  // ----- every directory has its lease ---------------------------------------------------------

  // The step does not delete the lease file of a directory that is still there.
  ghost predicate KeepsLease(s: State, a: Agent, op: Op) {
    op == RemoveLease(true) && PcOf(s, a).Release? ==> Absent(s, PcOf(s, a).h.id)
  }

  // Nothing else takes the lease from a directory.
  lemma CoveredExactly(s: State, a: Agent, op: Op)
    requires Inv(s) && Covered(s) && Step(s, a, op).Some?
    ensures Covered(Step(s, a, op).value) <==> KeepsLease(s, a, op)
  {
    hide Step, Inv;
    if op == MakeStage(true) {
      MakeStageNames(s, a);
      Linked(s, a);
    } else if op == RemoveLease(true) {
      UnlinkNames(s, a);
    } else {
      NoneAppear(s, a, op);
    }
  }

  lemma Linked(s: State, a: Agent)
    requires Inv(s)
    ensures var g := GripOf(PcOf(s, a)); g.Grip? && g.linked ==> g.h.id in s.leases && s.leases[g.h.id] == g.h.ino
  {
    assert AgentInv(s, a, PcOf(s, a));
  }

  // What goes with it: the directory of a new lease does not exist yet, and whoever releases a lease has
  // removed its directory, but for a drop and a failed `begin`, which ignore what became of the removal.
  ghost predicate Proper(s: State, pc: Pc) {
    match pc
    case BeginFile(_, h) => Absent(s, h.id)
    case BeginLeased(_, h) => Absent(s, h.id)
    case CommitVerify(c) => Absent(s, c.h.id)
    case Rollback(c, cleanup) => cleanup ==> Absent(s, c.h.id)
    case RollbackWipe(c, cleanup) => cleanup ==> Absent(s, c.h.id)
    case RollbackSync(c, cleanup) => cleanup ==> Absent(s, c.h.id)
    case Release(h, next) => next.BackWithError? || next.ThenDropped? || Absent(s, h.id)
    case _ => true
  }

  ghost predicate Sheltered(s: State) {
    Covered(s) && Apart(s) && forall a: Agent :: Proper(s, PcOf(s, a))
  }

  lemma ProperCreate(s: State, a: Agent, id: TxId, creation: Creation)
    requires Covered(s) && StepBegin(s, a, CreateLease(id, creation)).Some?
    ensures var s' := StepBegin(s, a, CreateLease(id, creation)).value; Proper(s', PcOf(s', a))
  {
    hide ValidTransactionId;
  }

  lemma ProperStage(s: State, a: Agent, n: nat, h: Handle, ok: bool)
    requires PcOf(s, a) == BeginLeased(n, h) && Absent(s, h.id)
    ensures var s1 := StepBegin(s, a, MakeStage(ok));
      s1.Some? && (PcOf(s1.value, a) == Release(h, BackWithError) || PcOf(s1.value, a).BeginPrefix? ||
        PcOf(s1.value, a).Ready?)
  {
    hide Absent;
    assert h.id !in Dirs(s, h.root) by { NowhereIn(s, h); }
  }

  lemma NowhereIn(s: State, h: Handle)
    requires Absent(s, h.id)
    ensures h.id !in Dirs(s, h.root)
  {
  }

  lemma ProperPrefix(s: State, a: Agent, ok: bool)
    requires StepBegin(s, a, MakePrefix(ok)).Some?
    ensures var pc := PcOf(StepBegin(s, a, MakePrefix(ok)).value, a); pc.Ready? || pc.Wipe?
  {
  }

  lemma ProperLock(s: State, a: Agent, n: nat, h: Handle, ok: bool)
    requires PcOf(s, a) == BeginFile(n, h) && Absent(s, h.id) && StepBegin(s, a, LockLease(ok)).Some?
    ensures var s' := StepBegin(s, a, LockLease(ok)).value; Proper(s', PcOf(s', a))
  {
  }

  lemma ProperBegin(s: State, a: Agent, op: Op)
    requires Proper(s, PcOf(s, a)) && StepBegin(s, a, op).Some? && !op.CreateLease?
    ensures Proper(StepBegin(s, a, op).value, PcOf(StepBegin(s, a, op).value, a))
  {
    hide Absent;
    match (PcOf(s, a), op) {
      case (Idle, StartBegin(_)) =>
      case (BeginFile(n, h), LockLease(ok)) => ProperLock(s, a, n, h, ok);
      case (BeginLeased(n, h), MakeStage(ok)) => ProperStage(s, a, n, h, ok);
      case (_, MakePrefix(ok)) => ProperPrefix(s, a, ok);
    }
  }

  lemma ProperLive(s: State, a: Agent, op: Op)
    requires Step(s, a, op).Some? && Step(s, a, op) == StepLive(s, a, op)
    ensures Proper(Step(s, a, op).value, PcOf(Step(s, a, op).value, a))
  {
    hide Step, StepBegin, StepLive, StepCommit, StepRollback, StepWipe, StepRelease, StepRecover, PcOf, CompleteDir;
    LiveAt(s, a, op);
    LiveGoes(s, a, op);
    NoneAppear(s, a, op);
  }

  lemma ProperCommit(s: State, a: Agent, op: Op)
    requires Step(s, a, op).Some? && Step(s, a, op) == StepCommit(s, a, op) && Apart(s) && Proper(s, PcOf(s, a))
    ensures Proper(Step(s, a, op).value, PcOf(Step(s, a, op).value, a))
  {
    hide Step, StepBegin, StepLive, StepCommit, StepRollback, StepWipe, StepRelease, StepRecover, PcOf, CompleteDir,
      ValidOutputTree;
    CommitAt(s, a, op);
    CommitGoes(s, a, op);
    if op == Rename(true) { RenameNames(s, a); } else { NoneAppear(s, a, op); }
  }

  lemma ProperRollback(s: State, a: Agent, op: Op)
    requires Step(s, a, op).Some? && Step(s, a, op) == StepRollback(s, a, op) && Proper(s, PcOf(s, a))
    ensures Proper(Step(s, a, op).value, PcOf(Step(s, a, op).value, a))
  {
    hide Step, StepBegin, StepLive, StepCommit, StepRollback, StepWipe, StepRelease, StepRecover, PcOf, PrunedDir;
    RollbackAt(s, a, op);
    RollbackGoes(s, a, op);
    NoneAppear(s, a, op);
  }

  lemma ProperRelease(s: State, a: Agent, op: Op)
    requires Step(s, a, op).Some? && Step(s, a, op) == StepRelease(s, a, op)
    ensures Proper(Step(s, a, op).value, PcOf(Step(s, a, op).value, a))
  {
    hide Step, StepBegin, StepLive, StepCommit, StepRollback, StepWipe, StepRelease, StepRecover, PcOf;
    ReleaseAt(s, a, op);
    ReleaseGoes(s, a, op);
  }

  lemma ProperRecover(s: State, a: Agent, op: Op)
    requires Step(s, a, op).Some? && Step(s, a, op) == StepRecover(s, a, op)
    ensures Proper(Step(s, a, op).value, PcOf(Step(s, a, op).value, a))
  {
    hide Step, StepBegin, StepLive, StepCommit, StepRollback, StepWipe, StepRelease, StepRecover, PcOf,
      ValidTransactionId;
    RecoverAt(s, a, op);
    RecoverGoes(s, a, op);
    NoneAppear(s, a, op);
  }

  lemma WipedAbsent(s: State, h: Handle)
    requires Apart(s) && h.id in Dirs(s, h.root)
    ensures Absent(SetDirs(s, h.root, Dirs(s, h.root) - {h.id}), h.id)
  {
  }

  lemma ProperWiped(s: State, a: Agent, h: Handle, k: WipeFor, ok: bool)
    requires Apart(s) && PcOf(s, a) == Wipe(h, k) && StepWipe(s, a, WipeAll(ok)).Some?
    ensures var s' := StepWipe(s, a, WipeAll(ok)).value; Proper(s', PcOf(s', a))
  {
    hide Apart, SetDirs, Dirs;
    if ok { WipedAbsent(s, h); }
  }

  lemma ProperWipe(s: State, a: Agent, op: Op)
    requires Apart(s) && StepWipe(s, a, op).Some?
    ensures Proper(StepWipe(s, a, op).value, PcOf(StepWipe(s, a, op).value, a))
  {
    hide PrunedDir;
    if op.WipeAll? { ProperWiped(s, a, PcOf(s, a).h, PcOf(s, a).k, op.ok); }
  }

  lemma ProperReturn(s: State, a: Agent)
    requires StepUnlocked(s, a).Some?
    ensures Proper(StepUnlocked(s, a).value, PcOf(StepUnlocked(s, a).value, a))
  {
  }

  lemma ProperGet(s: State, a: Agent, rid: ResultId)
    requires StepGet(s, a, rid).Some?
    ensures Proper(StepGet(s, a, rid).value, PcOf(StepGet(s, a, rid).value, a))
  {
    hide CompleteDir;
  }

  lemma ProperCrash(s: State, a: Agent)
    ensures Proper(StepCrash(s, a), PcOf(StepCrash(s, a), a))
  {
    hide GripOf;
  }

  lemma OwnProper(s: State, a: Agent, op: Op)
    requires Sheltered(s) && Step(s, a, op).Some?
    ensures Proper(Step(s, a, op).value, PcOf(Step(s, a, op).value, a))
  {
    hide Proper, StepBegin, StepLive, StepCommit, StepRollback, StepWipe, StepRelease, StepRecover, StepUnlocked,
         StepGet, StepCrash;
    assert Proper(s, PcOf(s, a));
    if op.CreateLease? { ProperCreate(s, a, op.id, op.creation); }
    else if Step(s, a, op) == StepBegin(s, a, op) { ProperBegin(s, a, op); }
    else if Step(s, a, op) == StepLive(s, a, op) { ProperLive(s, a, op); }
    else if Step(s, a, op) == StepCommit(s, a, op) { ProperCommit(s, a, op); }
    else if Step(s, a, op) == StepRollback(s, a, op) { ProperRollback(s, a, op); }
    else if Step(s, a, op) == StepWipe(s, a, op) { ProperWipe(s, a, op); }
    else if Step(s, a, op) == StepRelease(s, a, op) { ProperRelease(s, a, op); }
    else if Step(s, a, op) == StepRecover(s, a, op) { ProperRecover(s, a, op); }
    else if op.Unlocked? { ProperReturn(s, a); }
    else if op.Get? { ProperGet(s, a, op.rid); }
    else { ProperCrash(s, a); }
  }

  // Only the holder of the store lock makes or removes directories.
  lemma OthersProper(s: State, s': State, a: Agent, b: Agent)
    requires Inv(s) && Rely(s, s', a) && b != a && Proper(s, PcOf(s, b))
    ensures Proper(s', PcOf(s', b))
  {
    assert GripOf(PcOf(s, b)).lock <==> s.lock == Some(b);
  }

  lemma ApartStep(s: State, a: Agent, op: Op)
    requires Apart(s) && Step(s, a, op).Some?
    requires op == MakeStage(true) && PcOf(s, a).BeginLeased? ==>
      PcOf(s, a).h.id in Dirs(s, PcOf(s, a).h.root) || Absent(s, PcOf(s, a).h.id)
    ensures Apart(Step(s, a, op).value)
  {
    hide Step;
    if op == MakeStage(true) { MakeStageNames(s, a); } else { NoneAppear(s, a, op); }
  }

  lemma ShelteredStep(s: State, a: Agent, op: Op)
    requires Inv(s) && Sheltered(s) && Allowed(s, a, op) && KeepsLease(s, a, op)
    ensures Sheltered(Step(s, a, op).value)
  {
    hide Inv, Step, Rely, FreshName, KeepsLease;
    var s' := Step(s, a, op).value;
    CoveredExactly(s, a, op);
    assert Proper(s, PcOf(s, a));
    ApartStep(s, a, op);
    OwnPart(s, a);
    StepCarries(s, a, op);
    OwnProper(s, a, op);
    hide Proper, Covered, Apart;
    forall b: Agent ensures Proper(s', PcOf(s', b)) {
      if b != a { OthersProper(s, s', a, b); }
    }
  }

  ghost predicate KeepsLeases(s: State, steps: seq<(Agent, Op)>)
    decreases |steps|
  {
    steps == [] ||
    (Step(s, steps[0].0, steps[0].1).Some? && KeepsLease(s, steps[0].0, steps[0].1)
     && KeepsLeases(Step(s, steps[0].0, steps[0].1).value, steps[1..]))
  }

  lemma {:induction false} ShelteredRun(s: State, steps: seq<(Agent, Op)>)
    requires Inv(s) && Sheltered(s) && AllowedRun(s, steps) && KeepsLeases(s, steps)
    ensures Run(s, steps).Some? && Sheltered(Run(s, steps).value)
    decreases |steps|
  {
    hide Inv, Sheltered, Allowed, KeepsLease;
    if steps != [] {
      assert Allowed(s, steps[0].0, steps[0].1);
      StepKeeps(s, steps[0].0, steps[0].1);
      ShelteredStep(s, steps[0].0, steps[0].1);
      ShelteredRun(Step(s, steps[0].0, steps[0].1).value, steps[1..]);
    }
  }

  // The first deletion of the lease of a directory, in any run, is by a drop or a failed `begin` whose removal
  // failed.
  lemma OnlyIgnoredFailuresUncover(steps: seq<(Agent, Op)>, a: Agent, op: Op)
    requires AllowedRun(Init(), steps) && KeepsLeases(Init(), steps)
    requires Run(Init(), steps).Some? && !KeepsLease(Run(Init(), steps).value, a, op)
    ensures var pc := PcOf(Run(Init(), steps).value, a);
      pc.Release? && (pc.next.BackWithError? || pc.next.ThenDropped?)
  {
    hide Run, AllowedRun, KeepsLeases, Inv;
    StartsWell();
    ShelteredRun(Init(), steps);
    assert Proper(Run(Init(), steps).value, PcOf(Run(Init(), steps).value, a));
  }

  // A directory of the chosen name never exists when `begin` makes it, in either root.
  lemma StageNameIsFree(s: State, a: Agent)
    requires Sheltered(s) && PcOf(s, a).BeginLeased?
    ensures Absent(s, PcOf(s, a).h.id)
  {
    assert Proper(s, PcOf(s, a));
  }

  // Barring those releases, every staging directory has its lease and no id is in both roots.
  lemma LeasesProtectStaging(steps: seq<(Agent, Op)>, id: TxId)
    requires AllowedRun(Init(), steps) && KeepsLeases(Init(), steps)
    ensures Run(Init(), steps).Some?
    ensures var s := Run(Init(), steps).value;
      (id in s.staging || id in s.sources ==> id in s.leases) && !(id in s.staging && id in s.sources)
  {
    hide Run, AllowedRun, KeepsLeases, Inv;
    StartsWell();
    ShelteredRun(Init(), steps);
  }

  // The agent has a handle in its hands: it may still write, commit or drop.
  predicate HasHandle(pc: Pc) { pc.Live? || pc.CommitWait? || (pc.DropWait? && pc.leased) }

  // Whatever removals fail, a live handle has its directory, its linked lease file and the lock on it.
  lemma HandlesHoldLeases(steps: seq<(Agent, Op)>, a: Agent)
    requires AllowedRun(Init(), steps)
    ensures Run(Init(), steps).Some?
    ensures var s := Run(Init(), steps).value;
      HasHandle(PcOf(s, a)) ==>
        var h := PcOf(s, a).h;
        && h.id in Dirs(s, h.root)
        && h.id in s.leases && s.leases[h.id] == h.ino
        && h.ino in s.held && s.held[h.ino] == a
  {
    hide Run, AllowedRun, ResultInv, LockInv, HeldInv, LeaseInv, Facts;
    StartsWell();
    RunKeeps(Init(), steps);
    var s := Run(Init(), steps).value;
    assert AgentInv(s, a, PcOf(s, a));
  }
}
