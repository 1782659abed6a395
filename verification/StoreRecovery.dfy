// What a recovery has to show for itself, at every point and whatever the others do meanwhile: when it
// ends without an error, every lease and directory left is in use, even where directories had lost their
// leases before.
module StoreRecovery {
  import opened Prelude
  import opened OutputTree
  import opened TransactionIds
  import opened StoreCalls
  import opened StoreState
  import opened StoreInvariant
  import opened StorePreservation
  import opened StoreRuns
  import opened StoreLeases

  // The lease of `id` is locked, or was given up by its holder during this recovery.
  ghost predicate Busy(s: State, rec: Rec, id: TxId) {
    id in s.leases &&
    (s.leases[id] in s.held || (s.leases[id] in s.abandoned && s.leases[id] !in rec.abandoned0))
  }

  ghost predicate RecOk(s: State, rec: Rec) {
    && rec.abandoned0 <= s.abandoned
    && rec.gone <= rec.dirs0
    && s.staging.Keys + s.sources.Keys == rec.dirs0 - rec.gone
  }

  ghost predicate ScanOk(s: State, rec: Rec, root: Root, todo: set<TxId>) {
    && RecOk(s, rec)
    && (forall id | id in s.staging && (root.Results? ==> id !in todo) :: Busy(s, rec, id))
    && (root.Sources? ==> forall id | id in s.sources && id !in todo :: Busy(s, rec, id))
  }

  ghost predicate AllBusy(s: State, rec: Rec, todo: set<TxId>) {
    forall id | id in s.leases && id !in todo :: Busy(s, rec, id)
  }

  ghost predicate OrphansOk(s: State, rec: Rec, todo: set<TxId>) {
    && RecOk(s, rec)
    && (forall id | id in s.staging || id in s.sources :: Busy(s, rec, id))
    && AllBusy(s, rec, todo)
  }

  // The entry `h` of a scan is being removed.
  ghost predicate ScanTakes(s: State, h: Handle, rec: Rec, root: Root, todo: set<TxId>) {
    && RecOk(s, rec) && |rec.gone| == rec.count
    && (forall id | id in s.staging && id != h.id && (root.Results? ==> id !in todo) :: Busy(s, rec, id))
    && (root.Sources? ==> forall id | id in s.sources && id != h.id && id !in todo :: Busy(s, rec, id))
  }

  // The lease of `h` is being removed.
  ghost predicate OrphanGoes(s: State, h: Handle, rec: Rec, todo: set<TxId>) {
    && RecOk(s, rec) && |rec.gone| == rec.count
    && (forall id | id in s.staging || id in s.sources :: Busy(s, rec, id))
    && AllBusy(s, rec, todo + {h.id})
  }

  // A recovery about to give back, or that has just unlinked, the lease of an entry it removed.
  ghost predicate LeaseFacts(s: State, h: Handle, next: After) {
    match next
    case ThenScan(rec, root, todo) => Absent(s, h.id) && ScanOk(s, rec, root, todo) && |rec.gone| == rec.count + 1
    case ThenOrphans(rec, todo) => Absent(s, h.id) && OrphanGoes(s, h, rec, todo)
    case _ => true
  }

  ghost predicate RecFacts(s: State, pc: Pc) {
    match pc
    case Wipe(h, ForScan(rec, root, todo)) => ScanTakes(s, h, rec, root, todo)
    case Release(h, next) => LeaseFacts(s, h, next)
    case Unlock(h, next) => LeaseFacts(s, h, next)
    case Scan(rec, root, todo) => ScanOk(s, rec, root, todo) && |rec.gone| == rec.count
    case Orphans(rec, todo) => OrphansOk(s, rec, todo) && |rec.gone| == rec.count
    case RecoverEnd(rec, ok) =>
      ok ==> OrphansOk(s, rec, {}) && |rec.gone| == rec.count
    case _ => true
  }

  ghost predicate Orderly(s: State) { Apart(s) && forall a: Agent :: RecFacts(s, PcOf(s, a)) }

  // A new stage does not take the name of a directory left in the other root.
  ghost predicate NewName(s: State, a: Agent, op: Op) {
    op == MakeStage(true) && PcOf(s, a).BeginLeased? ==>
      PcOf(s, a).h.id in Dirs(s, PcOf(s, a).h.root) || Absent(s, PcOf(s, a).h.id)
  }

  // ----- the steps of others -------------------------------------------------------------------

  // A lease that stops being held was given up meanwhile.
  lemma BusyKeeps(s: State, s': State, a: Agent, b: Agent, rec: Rec, id: TxId)
    requires Rely(s, s', a) && b != a && s.lock == Some(b)
    requires LockInv(s) && HeldInv(s) && AgentInv(s, a, PcOf(s, a))
    requires rec.abandoned0 <= s.abandoned && Busy(s, rec, id)
    ensures Busy(s', rec, id)
  {
    assert !GripOf(PcOf(s, a)).lock;
  }

  // What a recovery needs to keep its facts.
  ghost predicate SameScene(s: State, s': State, rec: Rec) {
    && s'.leases == s.leases && s'.staging.Keys == s.staging.Keys && s'.sources.Keys == s.sources.Keys
    && s.abandoned <= s'.abandoned
    && (rec.abandoned0 <= s.abandoned ==> forall id | Busy(s, rec, id) :: Busy(s', rec, id))
  }

  lemma SceneKeeps(s: State, s': State, a: Agent, b: Agent, rec: Rec)
    requires Rely(s, s', a) && b != a && s.lock == Some(b)
    requires LockInv(s) && HeldInv(s) && AgentInv(s, a, PcOf(s, a))
    ensures SameScene(s, s', rec)
  {
    if rec.abandoned0 <= s.abandoned {
      forall id | Busy(s, rec, id) ensures Busy(s', rec, id) { BusyKeeps(s, s', a, b, rec, id); }
    }
  }

  function RecOf(pc: Pc): Rec {
    match pc
    case Wipe(_, ForScan(rec, _, _)) => rec
    case Release(_, ThenScan(rec, _, _)) => rec
    case Release(_, ThenOrphans(rec, _)) => rec
    case Unlock(_, ThenScan(rec, _, _)) => rec
    case Unlock(_, ThenOrphans(rec, _)) => rec
    case Scan(rec, _, _) => rec
    case Orphans(rec, _) => rec
    case RecoverEnd(rec, _) => rec
    case _ => Rec(0, {}, {}, {})
  }

  lemma SceneIsEnough(s: State, s': State, pc: Pc)
    requires Recovering(pc) && RecFacts(s, pc) && SameScene(s, s', RecOf(pc))
    ensures RecFacts(s', pc)
  {
    hide Busy;
    var rec := RecOf(pc);
    assert RecOk(s, rec) ==> RecOk(s', rec);
    match pc {
      case Wipe(h, ForScan(_, root, todo)) =>
      case Release(h, next) => assert LeaseFacts(s', h, next);
      case Unlock(h, next) => assert LeaseFacts(s', h, next);
      case Scan(_, root, todo) =>
      case Orphans(_, todo) =>
      case RecoverEnd(_, ok) =>
    }
  }

  lemma OthersOrderly(s: State, s': State, a: Agent, b: Agent)
    requires Inv(s) && Rely(s, s', a) && b != a && RecFacts(s, PcOf(s, b))
    ensures RecFacts(s', PcOf(s', b))
  {
    hide Rely, RecFacts, Facts;
    assert PcOf(s', b) == PcOf(s, b) by { SamePc(s, s', a, b); }
    if Recovering(PcOf(s, b)) {
      OwnPart(s, a);
      assert GripOf(PcOf(s, b)).lock <==> s.lock == Some(b);
      SceneKeeps(s, s', a, b, RecOf(PcOf(s, b)));
      SceneIsEnough(s, s', PcOf(s, b));
    } else {
      NotRecovering(s', PcOf(s, b));
    }
  }

  lemma SamePc(s: State, s': State, a: Agent, b: Agent)
    requires Rely(s, s', a) && b != a
    ensures PcOf(s', b) == PcOf(s, b)
  {
  }

  lemma NotRecovering(s: State, pc: Pc)
    requires !Recovering(pc)
    ensures RecFacts(s, pc)
  {
  }

  // ----- the steps of the recovery itself ------------------------------------------------------

  // Facts speak of the shared state only, and not of who holds what for what reason.
  lemma FactsMove(s: State, a: Agent, pc: Pc, facts: Pc)
    requires RecFacts(s, facts)
    ensures RecFacts(Goto(s, a, pc), facts)
  {
  }

  lemma StartsOrderly(s: State, a: Agent)
    requires PcOf(s, a) == Idle && StepRecover(s, a, StartRecover).Some?
    ensures var s' := StepRecover(s, a, StartRecover).value; RecFacts(s', PcOf(s', a))
  {
  }

  // Locking one more lease leaves the others locked.
  lemma MoreBusy(s: State, ino: Inode, a: Agent)
    ensures forall rec, id | Busy(s, rec, id) :: Busy(s.(held := s.held[ino := a]), rec, id)
  {
  }

  lemma EntryOrderly(s: State, a: Agent, rec: Rec, root: Root, todo: set<TxId>, id: TxId, ok: bool)
    requires PcOf(s, a) == Scan(rec, root, todo) && id in todo && RecFacts(s, Scan(rec, root, todo))
    ensures var s1 := StepRecover(s, a, TryEntry(id, ok)); s1.Some? ==> RecFacts(s1.value, PcOf(s1.value, a))
  {
    hide StepBegin, StepLive, StepCommit, StepRollback, StepWipe, StepRelease, StepRecover, StepGet, StepUnlocked,
         StepCrash, ValidTransactionId;
    LeadsTryEntry(s, a, rec, root, todo, id, ok);
    if id in s.leases { MoreBusy(s, s.leases[id], a); }
    hide Step;
  }

  lemma NextOrderly(s: State, a: Agent, rec: Rec, root: Root, ok: bool)
    requires PcOf(s, a) == Scan(rec, root, {}) && RecFacts(s, Scan(rec, root, {}))
    ensures var s1 := StepRecover(s, a, NextRoot(ok)); s1.Some? ==> RecFacts(s1.value, PcOf(s1.value, a))
  {
  }

  lemma OrphanOrderly(s: State, a: Agent, rec: Rec, todo: set<TxId>, id: TxId, ok: bool)
    requires PcOf(s, a) == Orphans(rec, todo) && id in todo && RecFacts(s, Orphans(rec, todo))
    ensures var s1 := StepRecover(s, a, TryOrphan(id, ok)); s1.Some? ==> RecFacts(s1.value, PcOf(s1.value, a))
  {
    hide StepBegin, StepLive, StepCommit, StepRollback, StepWipe, StepRelease, StepRecover, StepGet, StepUnlocked,
         StepCrash, ValidTransactionId;
    LeadsTryOrphan(s, a, rec, todo, id, ok);
    if id in s.leases { MoreBusy(s, s.leases[id], a); }
    hide Step;
  }

  lemma DoneOrderly(s: State, a: Agent, rec: Rec)
    requires PcOf(s, a) == Orphans(rec, {}) && RecFacts(s, Orphans(rec, {}))
    ensures var s1 := StepRecover(s, a, OrphansDone); s1.Some? ==> RecFacts(s1.value, PcOf(s1.value, a))
  {
  }

  // The entry is gone.
  lemma ScanStill(s: State, h: Handle, rec: Rec, root: Root, todo: set<TxId>)
    requires ScanTakes(s, h, rec, root, todo) && Apart(s) && h.id in Dirs(s, h.root) && h.root == root
    ensures var s', rec' := SetDirs(s, h.root, Dirs(s, h.root) - {h.id}), rec.(gone := rec.gone + {h.id});
      Absent(s', h.id) && ScanOk(s', rec', root, todo) && |rec'.gone| == rec.count + 1
  {
    var s', rec' := SetDirs(s, h.root, Dirs(s, h.root) - {h.id}), rec.(gone := rec.gone + {h.id});
    assert h.id in s.staging.Keys + s.sources.Keys;
    assert h.id !in rec.gone;
    assert s'.staging.Keys + s'.sources.Keys == (s.staging.Keys + s.sources.Keys) - {h.id};
    assert forall id | Busy(s, rec, id) :: Busy(s', rec', id);
  }

  lemma WipedOrderly(s: State, a: Agent, h: Handle, rec: Rec, root: Root, todo: set<TxId>, ok: bool)
    requires PcOf(s, a) == Wipe(h, ForScan(rec, root, todo)) && ScanTakes(s, h, rec, root, todo)
    requires Apart(s) && h.root == root && StepWipe(s, a, WipeAll(ok)).Some?
    ensures var s' := StepWipe(s, a, WipeAll(ok)).value; RecFacts(s', PcOf(s', a))
  {
    hide RecFacts, ScanTakes, ScanOk, Apart, LeaseFacts;
    if ok {
      ScanStill(s, h, rec, root, todo);
      var s1 := SetDirs(s, h.root, Dirs(s, h.root) - {h.id});
      var pc := Release(h, ThenScan(rec.(gone := rec.gone + {h.id}), root, todo));
      GivesBack(s1, h, pc.next);
      FactsMove(s1, a, pc, pc);
    } else {
      Ends(Goto(Closed(s, h), a, RecoverEnd(rec, false)), rec);
    }
  }

  lemma Ends(s: State, rec: Rec)
    ensures RecFacts(s, RecoverEnd(rec, false))
  {
  }

  lemma GivesBack(s: State, h: Handle, next: After)
    requires next.ThenScan? && Absent(s, h.id) && ScanOk(s, next.rec, next.root, next.todo)
    requires |next.rec.gone| == next.rec.count + 1
    ensures RecFacts(s, Release(h, next))
  {
  }

  lemma OthersBusy(s: State, h: Handle)
    ensures forall rec, id | Busy(s, rec, id) && id != h.id :: Busy(s.(leases := s.leases - {h.id}), rec, id)
  {
  }

  lemma UnlinkOrderly(s: State, h: Handle, next: After)
    requires LeaseFacts(s, h, next)
    ensures LeaseFacts(s.(leases := s.leases - {h.id}), h, next)
  {
    OthersBusy(s, h);
  }

  // Closing a file no name leads to changes no directory's protection.
  lemma StillBusy(s: State, h: Handle)
    requires Unlinked(s, h)
    ensures forall rec, id | Busy(s, rec, id) :: Busy(Closed(s, h), rec, id)
  {
  }

  lemma ReleasedOrderly(s: State, h: Handle, next: After)
    requires LeaseFacts(s, h, next) && Unlinked(s, h)
    ensures RecFacts(Closed(s, h), Released(next))
  {
    StillBusy(s, h);
  }

  lemma NotReleasedOrderly(s: State, next: After)
    ensures RecFacts(s, NotReleased(next))
  {
  }

  lemma ReleaseOrderly(s: State, a: Agent, op: Op)
    requires StepRelease(s, a, op).Some? && RecFacts(s, PcOf(s, a)) && AgentInv(s, a, PcOf(s, a))
    ensures var s' := StepRelease(s, a, op).value; RecFacts(s', PcOf(s', a))
  {
    hide LeaseFacts, Released, NotReleased, AfterFacts, Unlinked, GripInv, Closed;
    var h, next := PcOf(s, a).h, PcOf(s, a).next;
    match (PcOf(s, a), op) {
      case (Release(_, _), RemoveLease(ok)) =>
        if ok {
          UnlinkOrderly(s, h, next);
          FactsMove(s.(leases := s.leases - {h.id}), a, Unlock(h, next), Unlock(h, next));
        } else {
          NotReleasedOrderly(Goto(Closed(s, h), a, NotReleased(next)), next);
        }
      case (Unlock(_, _), UnlockLease(ok)) =>
        if ok {
          ReleasedOrderly(s, h, next);
          FactsMove(Closed(s, h), a, Released(next), Released(next));
        } else {
          NotReleasedOrderly(Goto(Closed(s, h), a, NotReleased(next)), next);
        }
    }
  }

  lemma RecoverOrderly(s: State, a: Agent, op: Op)
    requires StepRecover(s, a, op).Some? && RecFacts(s, PcOf(s, a))
    ensures var s' := StepRecover(s, a, op).value; RecFacts(s', PcOf(s', a))
  {
    hide RecFacts, StepRecover;
    RecoverAt(s, a, op);
    match (PcOf(s, a), op) {
      case (Idle, StartRecover) => StartsOrderly(s, a);
      case (Scan(rec, root, todo), TryEntry(id, ok)) => EntryOrderly(s, a, rec, root, todo, id, ok);
      case (Scan(rec, root, todo), NextRoot(ok)) =>
        if ok { NextOrderly(s, a, rec, root, ok); } else { StopsOrderly(s, a); }
      case (Orphans(rec, todo), TryOrphan(id, ok)) => OrphanOrderly(s, a, rec, todo, id, ok);
      case (Orphans(rec, todo), OrphansDone) => DoneOrderly(s, a, rec);
    }
  }

  lemma StopsOrderly(s: State, a: Agent)
    requires StepRecover(s, a, NextRoot(false)).Some?
    ensures var s' := StepRecover(s, a, NextRoot(false)).value; RecFacts(s', PcOf(s', a))
  {
  }

  lemma PartialOrderly(s: State, a: Agent, dir: Dir)
    requires StepWipe(s, a, WipePartial(dir)).Some? && RecFacts(s, PcOf(s, a))
    ensures var s' := StepWipe(s, a, WipePartial(dir)).value; RecFacts(s', PcOf(s', a))
  {
    hide PrunedDir, RecFacts;
    var s' := StepWipe(s, a, WipePartial(dir)).value;
    PartialScene(s, a, dir, RecOf(PcOf(s, a)));
    if Recovering(PcOf(s, a)) { SceneIsEnough(s, s', PcOf(s, a)); } else { NotRecovering(s', PcOf(s, a)); }
  }

  lemma PartialScene(s: State, a: Agent, dir: Dir, rec: Rec)
    requires StepWipe(s, a, WipePartial(dir)).Some?
    ensures var s' := StepWipe(s, a, WipePartial(dir)).value; SameScene(s, s', rec) && PcOf(s', a) == PcOf(s, a)
  {
    hide PrunedDir;
  }

  lemma WipeOrderly(s: State, a: Agent, op: Op)
    requires StepWipe(s, a, op).Some? && RecFacts(s, PcOf(s, a)) && Apart(s) && Facts(s, PcOf(s, a))
    ensures var s' := StepWipe(s, a, op).value; RecFacts(s', PcOf(s', a))
  {
    hide PrunedDir, RecFacts, Apart;
    if op.WipePartial? {
      PartialOrderly(s, a, op.dir);
    } else {
      match PcOf(s, a) {
        case Wipe(h, ForScan(rec, root, todo)) =>
          ScanFacts(s, h, rec, root, todo);
          WipedOrderly(s, a, h, rec, root, todo, op.ok);
        case Wipe(h, k) =>
          WipesElsewhere(s, a, h, k, op.ok);
          NotRecovering(StepWipe(s, a, op).value, PcOf(StepWipe(s, a, op).value, a));
      }
    }
  }

  lemma ScanFacts(s: State, h: Handle, rec: Rec, root: Root, todo: set<TxId>)
    requires RecFacts(s, Wipe(h, ForScan(rec, root, todo)))
    ensures ScanTakes(s, h, rec, root, todo)
  {
  }

  lemma WipesElsewhere(s: State, a: Agent, h: Handle, k: WipeFor, ok: bool)
    requires PcOf(s, a) == Wipe(h, k) && !k.ForScan? && StepWipe(s, a, WipeAll(ok)).Some?
    ensures !Recovering(PcOf(StepWipe(s, a, WipeAll(ok)).value, a))
  {
  }

  // The other operations do not recover.
  lemma BeginElsewhere(s: State, a: Agent, op: Op)
    requires Step(s, a, op).Some? && Step(s, a, op) == StepBegin(s, a, op)
    ensures !Recovering(PcOf(Step(s, a, op).value, a))
  {
    hide Step, StepBegin, StepLive, StepCommit, StepRollback, StepWipe, StepRelease, StepRecover, PcOf, CompleteDir,
      ValidOutputTree, ValidTransactionId, PrunedDir, Dirs;
    BeginAt(s, a, op);
    BeginGoes(s, a, op);
  }

  lemma LiveElsewhere(s: State, a: Agent, op: Op)
    requires Step(s, a, op).Some? && Step(s, a, op) == StepLive(s, a, op)
    ensures !Recovering(PcOf(Step(s, a, op).value, a))
  {
    hide Step, StepBegin, StepLive, StepCommit, StepRollback, StepWipe, StepRelease, StepRecover, PcOf, CompleteDir,
      ValidOutputTree, ValidTransactionId, PrunedDir, Dirs;
    LiveAt(s, a, op);
    LiveGoes(s, a, op);
  }

  lemma CommitElsewhere(s: State, a: Agent, op: Op)
    requires Step(s, a, op).Some? && Step(s, a, op) == StepCommit(s, a, op)
    ensures !Recovering(PcOf(Step(s, a, op).value, a))
  {
    hide Step, StepBegin, StepLive, StepCommit, StepRollback, StepWipe, StepRelease, StepRecover, PcOf, CompleteDir,
      ValidOutputTree, ValidTransactionId, PrunedDir, Dirs;
    CommitAt(s, a, op);
    CommitGoes(s, a, op);
  }

  lemma RollbackElsewhere(s: State, a: Agent, op: Op)
    requires Step(s, a, op).Some? && Step(s, a, op) == StepRollback(s, a, op)
    ensures !Recovering(PcOf(Step(s, a, op).value, a))
  {
    hide Step, StepBegin, StepLive, StepCommit, StepRollback, StepWipe, StepRelease, StepRecover, PcOf, CompleteDir,
      ValidOutputTree, ValidTransactionId, PrunedDir, Dirs;
    RollbackAt(s, a, op);
    RollbackGoes(s, a, op);
  }

  lemma RestElsewhere(s: State, a: Agent, op: Op)
    requires Step(s, a, op).Some? && (op.Unlocked? || op.Get? || op.Crash?)
    ensures !Recovering(PcOf(Step(s, a, op).value, a))
  {
    hide StepBegin, StepLive, StepCommit, StepRollback, StepWipe, StepRelease, StepRecover, CompleteDir, GripOf;
  }

  lemma OwnOrderly(s: State, a: Agent, op: Op)
    requires Mine(s, a) && Apart(s) && RecFacts(s, PcOf(s, a)) && Step(s, a, op).Some?
    ensures var s' := Step(s, a, op).value; RecFacts(s', PcOf(s', a))
  {
    hide Apart, RecFacts, Facts, Own, GripInv, StepBegin, StepLive, StepCommit, StepRollback, StepWipe, StepRelease,
         StepRecover, StepUnlocked, StepGet, StepCrash, Recovering;
    var s' := Step(s, a, op).value;
    if Step(s, a, op) == StepRecover(s, a, op) { RecoverOrderly(s, a, op); }
    else if Step(s, a, op) == StepWipe(s, a, op) { WipeOrderly(s, a, op); }
    else if Step(s, a, op) == StepRelease(s, a, op) { ReleaseOrderly(s, a, op); }
    else {
      if Step(s, a, op) == StepBegin(s, a, op) { BeginElsewhere(s, a, op); }
      else if Step(s, a, op) == StepLive(s, a, op) { LiveElsewhere(s, a, op); }
      else if Step(s, a, op) == StepCommit(s, a, op) { CommitElsewhere(s, a, op); }
      else if Step(s, a, op) == StepRollback(s, a, op) { RollbackElsewhere(s, a, op); }
      else { RestElsewhere(s, a, op); }
      NotRecovering(s', PcOf(s', a));
    }
  }

  lemma OrderlyStep(s: State, a: Agent, op: Op)
    requires Inv(s) && Orderly(s) && Allowed(s, a, op) && NewName(s, a, op)
    ensures Orderly(Step(s, a, op).value)
  {
    hide Inv, Step, Rely, FreshName, RecFacts;
    var s' := Step(s, a, op).value;
    assert RecFacts(s, PcOf(s, a));
    ApartStep(s, a, op);
    OwnPart(s, a);
    StepCarries(s, a, op);
    OwnOrderly(s, a, op);
    hide Apart;
    forall b: Agent ensures RecFacts(s', PcOf(s', b)) {
      if b != a { OthersOrderly(s, s', a, b); }
    }
  }

  // ----- runs ------------------------------------------------------------------------------------

  ghost predicate NewNames(s: State, steps: seq<(Agent, Op)>)
    decreases |steps|
  {
    steps == [] ||
    (Step(s, steps[0].0, steps[0].1).Some? && NewName(s, steps[0].0, steps[0].1)
     && NewNames(Step(s, steps[0].0, steps[0].1).value, steps[1..]))
  }

  lemma {:induction false} OrderlyRun(s: State, steps: seq<(Agent, Op)>)
    requires Inv(s) && Orderly(s) && AllowedRun(s, steps) && NewNames(s, steps)
    ensures Run(s, steps).Some? && Inv(Run(s, steps).value) && Orderly(Run(s, steps).value)
    decreases |steps|
  {
    hide Inv, Orderly, Allowed, NewName;
    if steps != [] {
      assert Allowed(s, steps[0].0, steps[0].1);
      StepKeeps(s, steps[0].0, steps[0].1);
      OrderlyStep(s, steps[0].0, steps[0].1);
      OrderlyRun(Step(s, steps[0].0, steps[0].1).value, steps[1..]);
    }
  }

  // While every directory has its lease, a new lease is a new name.
  lemma ShelteredNamesAreNew(s: State, a: Agent, op: Op)
    requires Sheltered(s)
    ensures NewName(s, a, op)
  {
    assert Proper(s, PcOf(s, a));
  }

  // A recovery that reaches its end without an error, whatever the others do meanwhile and whatever
  // happened before: every lease left, and every directory left, has a lease that is held or was given
  // up during this very recovery; the counter is the number of directories it removed, and no others
  // went or came.
  lemma RecoveryIsComplete(steps: seq<(Agent, Op)>, a: Agent)
    requires AllowedRun(Init(), steps) && NewNames(Init(), steps)
    requires Run(Init(), steps).Some?
    requires var pc := PcOf(Run(Init(), steps).value, a); pc.RecoverEnd? && pc.ok
    ensures var s := Run(Init(), steps).value;
      RecoveredIn(s, PcOf(s, a).rec)
  {
    hide Run, AllowedRun, NewNames;
    StartsWell();
    OrderlyRun(Init(), steps);
    EndsRecovered(Run(Init(), steps).value, a);
  }

  lemma {:induction false} ShelteredRunNamesAreNew(s: State, steps: seq<(Agent, Op)>)
    requires Inv(s) && Sheltered(s) && AllowedRun(s, steps) && KeepsLeases(s, steps)
    ensures NewNames(s, steps)
    decreases |steps|
  {
    hide Inv, Sheltered, Step, FreshName, NewName, KeepsLease;
    if steps != [] {
      var (a, op) := steps[0];
      ShelteredNamesAreNew(s, a, op);
      StepKeeps(s, a, op);
      ShelteredStep(s, a, op);
      ShelteredRunNamesAreNew(Step(s, a, op).value, steps[1..]);
    }
  }

  // The same, where no lease of a directory was ever deleted: the names take care of themselves.
  lemma RecoveryIsCompleteWhileLeased(steps: seq<(Agent, Op)>, a: Agent)
    requires AllowedRun(Init(), steps) && KeepsLeases(Init(), steps)
    requires Run(Init(), steps).Some?
    requires var pc := PcOf(Run(Init(), steps).value, a); pc.RecoverEnd? && pc.ok
    ensures var s := Run(Init(), steps).value;
      RecoveredIn(s, PcOf(s, a).rec)
  {
    hide Run, AllowedRun, NewNames, KeepsLeases, RecoveredIn, Inv;
    StartsWell();
    ShelteredRunNamesAreNew(Init(), steps);
    RecoveryIsComplete(steps, a);
  }

  ghost predicate RecoveredIn(s: State, rec: Rec) {
    && (forall id | id in s.leases ::
          s.leases[id] in s.held || (s.leases[id] in s.abandoned && s.leases[id] !in rec.abandoned0))
    && (forall id | id in s.staging || id in s.sources :: id in s.leases)
    && rec.gone <= rec.dirs0 && s.staging.Keys + s.sources.Keys == rec.dirs0 - rec.gone
    && rec.count == |rec.gone|
  }

  lemma EndsRecovered(s: State, a: Agent)
    requires Orderly(s) && PcOf(s, a).RecoverEnd? && PcOf(s, a).ok
    ensures RecoveredIn(s, PcOf(s, a).rec)
  {
    var rec := PcOf(s, a).rec;
    assert RecFacts(s, PcOf(s, a));
    forall id | id in s.leases
      ensures s.leases[id] in s.held || (s.leases[id] in s.abandoned && s.leases[id] !in rec.abandoned0)
    {
      assert Busy(s, rec, id);
    }
  }

  // ----- a directory that has lost its lease -------------------------------------------------------

  ghost predicate Stray(s: State, root: Root, id: TxId) { id in Dirs(s, root) && id !in s.leases }

  // It stays, with no lease, until a lease of its name is created again.
  lemma StrayStays(s: State, a: Agent, op: Op, root: Root, id: TxId)
    requires Inv(s) && Stray(s, root, id) && Step(s, a, op).Some? && !(op.CreateLease? && op.id == id)
    ensures Stray(Step(s, a, op).value, root, id)
  {
    hide Step, Inv;
    if Renames(op) { StrayRenamed(s, a, op, root, id); } else { StepNames(s, a, op); }
  }

  lemma StrayRenamed(s: State, a: Agent, op: Op, root: Root, id: TxId)
    requires Inv(s) && Stray(s, root, id) && Step(s, a, op).Some? && !(op.CreateLease? && op.id == id) && Renames(op)
    ensures Stray(Step(s, a, op).value, root, id)
  {
    hide Step, Inv, PcOf, GripOf;
    if op.CreateLease? { CreateNames(s, a, op.id, op.creation); }
    else if op.MakeStage? { MakeStageNames(s, a); }
    else if op.RemoveLease? { UnlinkNames(s, a); }
    else if op.Rename? { RenamesOwn(s, a, id); }
    else { WipesOwn(s, a, root, id); }
  }

  // Who renames or removes a directory has its lease.
  lemma RenamesOwn(s: State, a: Agent, id: TxId)
    requires Inv(s) && Step(s, a, Rename(true)).Some? && id !in s.leases
    ensures var s' := Step(s, a, Rename(true)).value;
      s'.leases == s.leases && s'.sources == s.sources && (id in s.staging ==> id in s'.staging)
  {
    hide Step, Inv;
    RenameNames(s, a);
    Linked(s, a);
  }

  lemma WipesOwn(s: State, a: Agent, root: Root, id: TxId)
    requires Inv(s) && Step(s, a, WipeAll(true)).Some? && id !in s.leases
    ensures var s' := Step(s, a, WipeAll(true)).value;
      s'.leases == s.leases && (id in Dirs(s, root) ==> id in Dirs(s', root))
  {
    hide Step, Inv;
    WipedNames(s, a);
    WipeLeased(s, a);
  }

  lemma WipeLeased(s: State, a: Agent)
    requires Inv(s) && PcOf(s, a).Wipe? && PcOf(s, a).h.id in Dirs(s, PcOf(s, a).h.root)
    ensures PcOf(s, a).h.id in s.leases
  {
    assert AgentInv(s, a, PcOf(s, a));
  }

  // A scan of `todo` in `now` has yet to come to `id` in `root`.
  predicate Ahead(now: Root, todo: set<TxId>, root: Root, id: TxId) {
    if now == root then id in todo else now.Results?
  }

  // The recovery has not passed `id` in `root`.
  predicate Owes(pc: Pc, root: Root, id: TxId) {
    match pc
    case Scan(_, now, todo) => Ahead(now, todo, root, id)
    case Wipe(_, ForScan(_, now, todo)) => Ahead(now, todo, root, id)
    case Release(_, ThenScan(_, now, todo)) => Ahead(now, todo, root, id)
    case Unlock(_, ThenScan(_, now, todo)) => Ahead(now, todo, root, id)
    case Release(_, ThenOrphans(_, _)) => false
    case Unlock(_, ThenOrphans(_, _)) => false
    case Orphans(_, _) => false
    case RecoverEnd(_, ok) => !ok
    case _ => true
  }

  lemma OwesRecover(s: State, a: Agent, op: Op, root: Root, id: TxId)
    requires Step(s, a, op).Some? && Step(s, a, op) == StepRecover(s, a, op) && Stray(s, root, id) &&
        Owes(PcOf(s, a), root, id)
    ensures Owes(PcOf(Step(s, a, op).value, a), root, id)
  {
    hide Step, StepBegin, StepLive, StepCommit, StepRollback, StepWipe, StepRelease, StepRecover, PcOf,
      ValidTransactionId, PrunedDir;
    RecoverAt(s, a, op);
    RecoverGoes(s, a, op);
  }

  lemma OwesWipe(s: State, a: Agent, op: Op, root: Root, id: TxId)
    requires Step(s, a, op).Some? && Step(s, a, op) == StepWipe(s, a, op) && Owes(PcOf(s, a), root, id)
    ensures Owes(PcOf(Step(s, a, op).value, a), root, id)
  {
    hide Step, StepBegin, StepLive, StepCommit, StepRollback, StepWipe, StepRelease, StepRecover, PcOf,
      ValidTransactionId, PrunedDir;
    WipeAt(s, a, op);
    WipeGoes(s, a, op);
  }

  lemma OwesRelease(s: State, a: Agent, op: Op, root: Root, id: TxId)
    requires Step(s, a, op).Some? && Step(s, a, op) == StepRelease(s, a, op) && Owes(PcOf(s, a), root, id)
    ensures Owes(PcOf(Step(s, a, op).value, a), root, id)
  {
    hide Step, StepBegin, StepLive, StepCommit, StepRollback, StepWipe, StepRelease, StepRecover, PcOf,
      ValidTransactionId, PrunedDir;
    ReleaseAt(s, a, op);
    ReleaseGoes(s, a, op);
  }

  lemma OwesNothing(pc: Pc, root: Root, id: TxId)
    requires !Recovering(pc)
    ensures Owes(pc, root, id)
  {
  }

  lemma OwesStep(s: State, a: Agent, op: Op, root: Root, id: TxId)
    requires Stray(s, root, id) && Owes(PcOf(s, a), root, id) && Step(s, a, op).Some?
    ensures Owes(PcOf(Step(s, a, op).value, a), root, id)
  {
    hide Owes, Stray, StepBegin, StepLive, StepCommit, StepRollback, StepWipe, StepRelease,
         StepRecover, StepUnlocked, StepGet, StepCrash, Recovering;
    var pc := PcOf(Step(s, a, op).value, a);
    if Step(s, a, op) == StepRecover(s, a, op) { OwesRecover(s, a, op, root, id); }
    else if Step(s, a, op) == StepWipe(s, a, op) { OwesWipe(s, a, op, root, id); }
    else if Step(s, a, op) == StepRelease(s, a, op) { OwesRelease(s, a, op, root, id); }
    else {
      if Step(s, a, op) == StepBegin(s, a, op) { BeginElsewhere(s, a, op); }
      else if Step(s, a, op) == StepLive(s, a, op) { LiveElsewhere(s, a, op); }
      else if Step(s, a, op) == StepCommit(s, a, op) { CommitElsewhere(s, a, op); }
      else if Step(s, a, op) == StepRollback(s, a, op) { RollbackElsewhere(s, a, op); }
      else { RestElsewhere(s, a, op); }
      OwesNothing(pc, root, id);
    }
  }

  // Once a directory has lost its lease, no recovery ends without an error until the name is used again.
  lemma {:induction false} StrayStopsRecovery(s: State, steps: seq<(Agent, Op)>, a: Agent, root: Root, id: TxId)
    requires Inv(s) && AllowedRun(s, steps) && Stray(s, root, id) && Owes(PcOf(s, a), root, id)
    requires forall i | 0 <= i < |steps| :: !(steps[i].1.CreateLease? && steps[i].1.id == id)
    ensures Run(s, steps).Some?
    ensures var s' := Run(s, steps).value;
      Stray(s', root, id) && Owes(PcOf(s', a), root, id) && !(PcOf(s', a).RecoverEnd? && PcOf(s', a).ok)
    decreases |steps|
  {
    hide Inv, Step, Stray, FreshName;
    if steps != [] {
      var (b, op) := steps[0];
      StepKeeps(s, b, op);
      StrayStays(s, b, op, root, id);
      if b == a { OwesStep(s, a, op, root, id); } else { OthersStay(s, a, b, op); }
      StrayStopsRecovery(Step(s, b, op).value, steps[1..], a, root, id);
    }
  }
}
