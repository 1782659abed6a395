// A recovery that stops anywhere, by a fault or a crash, and the recovery that is run after it.
module StoreRestart {
  import opened Prelude
  import opened TransactionIds
  import opened Faults
  import opened StoreCalls
  import opened StoreState
  import opened StoreInvariant
  import opened StorePreservation
  import opened StoreRuns
  import opened StoreLeases
  import opened StoreSafety
  import opened StoreProgram

  // What one agent does in a recovery, with any calls failing.
  ghost predicate RecoverySteps(steps: seq<(Agent, Op)>, b: Agent) {
    forall i | 0 <= i < |steps| :: steps[i].0 == b && Clearing(steps[i].1)
  }

  // ----- the state of a recovery under way ---------------------------------------------------------

  ghost predicate Resting(pc: Pc) { pc.Idle? || Recovering(pc) }

  // No lease that is free, or that `b` holds, has a directory in both roots.
  ghost predicate TwiceOnlyOthers(s: State, b: Agent) {
    forall id | id in s.staging && id in s.sources ::
      id in s.leases && s.leases[id] in s.held && s.held[s.leases[id]] != b
  }

  ghost predicate NamesValid(s: State) {
    forall id | id in s.staging || id in s.sources || id in s.leases :: ValidTransactionId(id)
  }

  // `b` deletes no lease but of a directory that has gone.
  ghost predicate ReleasesGone(s: State, pc: Pc) { pc.Release? ==> Absent(s, pc.h.id) }

  ghost predicate Resumable(s: State, b: Agent) {
    && Covered(s) && NamesValid(s) && TwiceOnlyOthers(s, b)
    && Resting(PcOf(s, b)) && ReleasesGone(s, PcOf(s, b))
  }

  lemma StartsResumable(s: State, b: Agent)
    requires Inv(s) && Recoverable(s) && PcOf(s, b) == Idle
    ensures Resumable(s, b)
  {
    hide ValidTransactionId;
    HoldsNothing(s, b);
  }

  lemma HoldsNothing(s: State, b: Agent)
    requires Inv(s) && PcOf(s, b) == Idle
    ensures forall i | i in s.held :: s.held[i] != b
  {
    forall i | i in s.held ensures s.held[i] != b { assert HoldsIno(GripOf(PcOf(s, s.held[i])), i); }
  }

  // ----- every step of it ---------------------------------------------------------------------------

  lemma RecoverRests(s: State, b: Agent, op: Op)
    requires Step(s, b, op).Some? && Step(s, b, op) == StepRecover(s, b, op) && Resumable(s, b)
    ensures var s' := Step(s, b, op).value; Resting(PcOf(s', b)) && ReleasesGone(s', PcOf(s', b))
  {
    hide Step, StepBegin, StepLive, StepCommit, StepRollback, StepWipe, StepRelease, StepRecover, PcOf, Covered,
         NamesValid, ValidTransactionId;
    RecoverAt(s, b, op);
    RecoverGoes(s, b, op);
    RecoverNames(s, b, op);
  }

  lemma WipeRests(s: State, b: Agent, op: Op)
    requires Inv(s) && Step(s, b, op).Some? && Step(s, b, op) == StepWipe(s, b, op) && Resumable(s, b)
    ensures var s' := Step(s, b, op).value; Resting(PcOf(s', b)) && ReleasesGone(s', PcOf(s', b))
  {
    hide Step, StepBegin, StepLive, StepCommit, StepRollback, StepWipe, StepRelease, StepRecover, PcOf, Covered,
         NamesValid, ValidTransactionId, Inv, PrunedDir;
    WipeAt(s, b, op);
    WipeGoes(s, b, op);
    if op == WipeAll(true) {
      WipedNames(s, b);
      HeldByWiper(s, b);
    }
  }

  lemma HeldByWiper(s: State, b: Agent)
    requires Inv(s) && PcOf(s, b).Wipe? && PcOf(s, b).k.ForScan?
    ensures var h := PcOf(s, b).h; h.id in s.leases && s.leases[h.id] in s.held && s.held[s.leases[h.id]] == b
  {
    assert AgentInv(s, b, PcOf(s, b));
  }

  lemma ReleaseRests(s: State, b: Agent, op: Op)
    requires Step(s, b, op).Some? && Step(s, b, op) == StepRelease(s, b, op) && Resumable(s, b)
    ensures var s' := Step(s, b, op).value; Resting(PcOf(s', b)) && ReleasesGone(s', PcOf(s', b))
  {
    hide Step, StepBegin, StepLive, StepCommit, StepRollback, StepWipe, StepRelease, StepRecover, PcOf, Covered,
         NamesValid, ValidTransactionId;
    ReleaseAt(s, b, op);
    ReleaseGoes(s, b, op);
  }

  lemma ReturnRests(s: State, b: Agent)
    requires StepUnlocked(s, b).Some? && Resting(PcOf(s, b))
    ensures PcOf(StepUnlocked(s, b).value, b) == Idle
  {
  }

  lemma StepRests(s: State, b: Agent, op: Op)
    requires Inv(s) && Resumable(s, b) && Step(s, b, op).Some? && Clearing(op)
    ensures var s' := Step(s, b, op).value; Resting(PcOf(s', b)) && ReleasesGone(s', PcOf(s', b))
  {
    hide Inv, Resting, ReleasesGone, StepBegin, StepLive, StepCommit, StepRollback, StepWipe, StepRelease,
         StepRecover, StepUnlocked, StepGet, StepCrash, Covered, NamesValid, TwiceOnlyOthers;
    if op.WipeAll? || op.WipePartial? { WipeRests(s, b, op); }
    else if op.RemoveLease? || op.UnlockLease? { ReleaseRests(s, b, op); }
    else if op.Unlocked? {
      ReturnRests(s, b);
      IdleRests(Step(s, b, op).value);
    }
    else { RecoverRests(s, b, op); }
  }

  lemma IdleRests(s: State)
    ensures Resting(Idle) && ReleasesGone(s, Idle)
  {
  }

  lemma ClearingIsAllowed(s: State, b: Agent, op: Op)
    requires Clearing(op)
    ensures FreshName(s, b, op)
  {
  }

  lemma ClearingKeepsResults(s: State, b: Agent, op: Op)
    requires Step(s, b, op).Some? && Clearing(op)
    ensures Step(s, b, op).value.results == s.results
  {
    hide StepBegin, StepLive, StepCommit, StepRollback, StepWipe, StepRelease, StepRecover, StepUnlocked, StepGet,
         StepCrash;
    if StepCommit(s, b, op).Some? { CommitAt(s, b, op); }
    if StepRollback(s, b, op).Some? { RollbackAt(s, b, op); }
    if op.Unlocked? { UnlockedKeepsResults(s, b); } else { QuietStep(s, b, op); }
  }

  lemma ResumableStep(s: State, b: Agent, op: Op)
    requires Inv(s) && Resumable(s, b) && Step(s, b, op).Some? && Clearing(op)
    ensures Allowed(s, b, op) && Resumable(Step(s, b, op).value, b) && Clears(s, Step(s, b, op).value, b)
  {
    hide Inv, Step, FreshName, Clearing, Resting, Covered, PrunedDir, ValidTransactionId;
    var s' := Step(s, b, op).value;
    ClearingIsAllowed(s, b, op);
    StepClears(s, b, op);
    StepRests(s, b, op);
    CoveredExactly(s, b, op);
  }

  lemma {:induction false} ResumableRun(s: State, steps: seq<(Agent, Op)>, b: Agent)
    requires Inv(s) && Resumable(s, b) && RecoverySteps(steps, b) && Run(s, steps).Some?
    ensures AllowedRun(s, steps)
    ensures var t := Run(s, steps).value; Inv(t) && Resumable(t, b) && Clears(s, t, b) && t.results == s.results
    ensures forall a | a != b :: PcOf(Run(s, steps).value, a) == PcOf(s, a)
    decreases |steps|
  {
    hide Inv, Resumable, Step, FreshName, Clearing, Clears, PcOf;
    if steps == [] {
      ClearsNothing(s, b);
    } else {
      var op := steps[0].1;
      assert steps[0] == (b, op);
      ResumableStep(s, b, op);
      StepKeeps(s, b, op);
      ClearingKeepsResults(s, b, op);
      var s1 := Step(s, b, op).value;
      forall a | a != b ensures PcOf(s1, a) == PcOf(s, a) { OthersStay(s, a, b, op); }
      ResumableRun(s1, steps[1..], b);
      ClearsTwice(s, s1, Run(s, steps).value, b);
    }
  }

  // ----- the crash --------------------------------------------------------------------------------

  lemma CrashRests(s: State, b: Agent)
    requires Inv(s) && Resumable(s, b)
    ensures var s' := StepCrash(s, b);
      && Recoverable(s') && Clears(s, s', b) && PcOf(s', b) == Idle && s'.results == s.results
      && forall a | a != b :: PcOf(s', a) == PcOf(s, a)
  {
    hide ValidTransactionId, LockInv, LeaseInv, DirInv, ResultInv, Facts, PrunedDir, Shrinks;
    CrashShrinks(s, b);
    CrashSpares(s, b);
  }

  lemma CrashShrinks(s: State, b: Agent)
    ensures Shrinks(s, StepCrash(s, b)) && SameDirs(s, StepCrash(s, b)) && StepCrash(s, b).leases == s.leases
  {
    hide GripOf;
    SameShrinks(s, StepCrash(s, b));
  }

  lemma CrashSpares(s: State, b: Agent)
    requires Inv(s)
    ensures Spares(s, StepCrash(s, b), b)
  {
    hide Spares, Inv;
    LeadsCrash(s, b);
    StepSpares(s, b, Crash);
  }

  lemma CrashUnlocks(s: State, b: Agent)
    requires Inv(s) && forall a | a != b :: !GripOf(PcOf(s, a)).lock
    ensures StepCrash(s, b).lock.None?
  {
    hide HeldInv, LeaseInv, DirInv, ResultInv, AgentInv, GripOf;
    if s.lock.Some? { assert GripOf(PcOf(s, s.lock.value)).lock; }
  }

  // ----- the end ------------------------------------------------------------------------------------

  // What others hold is what is held; the rest has only become less.
  lemma SameLeft(s: State, s1: State, b: Agent)
    requires Clears(s, s1, b)
    requires (forall i | i in s.held :: s.held[i] != b) && forall i | i in s1.held :: s1.held[i] != b
    ensures s1.held == s.held && LeasedLeases(s1) == LeasedLeases(s)
    ensures Leased(s1, s1.staging) == Leased(s, s.staging) && Leased(s1, s1.sources) == Leased(s, s.sources)
  {
    hide PrunedDir;
  }

  // What is on disk when nothing but what was held in `s` is left.
  ghost predicate OnlyHeldLeft(s: State, s': State) {
    && s'.staging == Leased(s, s.staging) && s'.sources == Leased(s, s.sources)
    && s'.leases == LeasedLeases(s) && s'.held == s.held
  }

  // Where a recovery could succeed, one that is run after another stopped anywhere can, and it leaves exactly
  // what the first would have left.
  lemma StoppedRecoveryIsFinished(s: State, steps: seq<(Agent, Op)>, b: Agent)
    requires Inv(s) && Recoverable(s) && s.lock.None? && PcOf(s, b) == Idle
    requires RecoverySteps(steps, b) && Run(s, steps).Some?
    ensures var s1 := StepCrash(Run(s, steps).value, b);
      && Inv(s1) && Recoverable(s1) && s1.lock.None? && PcOf(s1, b) == Idle && s1.results == s.results
      && forall s2, n | Recovers(s1, s2, n) :: OnlyHeldLeft(s, s2)
  {
    hide Inv, Recoverable, Resumable, Clears, Step, FreshName, RecoverySteps, GripOf, PcOf, Leased, LeasedLeases,
         StepCrash;
    StartsResumable(s, b);
    ResumableRun(s, steps, b);
    var t := Run(s, steps).value;
    var s1 := StepCrash(t, b);
    CrashRests(t, b);
    ClearsTwice(s, t, s1, b);
    NobodyLocks(s);
    CrashUnlocks(t, b);
    LeadsCrash(t, b);
    NoNameNeeded(t, b);
    StepKeeps(t, b, Crash);
    HoldsNothing(s, b);
    HoldsNothing(s1, b);
    SameLeft(s, s1, b);
  }

  lemma NobodyLocks(s: State)
    requires Inv(s) && s.lock.None?
    ensures forall a: Agent :: !GripOf(PcOf(s, a)).lock
  {
    hide GripOf, HeldInv, LeaseInv, DirInv, ResultInv, AgentInv;
  }

  lemma NoNameNeeded(s: State, b: Agent)
    ensures FreshName(s, b, Crash)
  {
  }

  // `recover_abandoned` after a recovery that stopped anywhere: without faults it finishes the job.
  method RecoverAgain(store: Store, ghost s: State, ghost steps: seq<(Agent, Op)>, ghost b: Agent)
    returns (r: Option<nat>)
    requires Inv(s) && Recoverable(s) && s.lock.None? && PcOf(s, b) == Idle
    requires RecoverySteps(steps, b) && Run(s, steps).Some?
    requires store.Valid() && store.s == StepCrash(Run(s, steps).value, b)
    requires PcOf(store.s, store.me) == Idle && Calm(store.faults)
    modifies store
    ensures store.Valid() && store.s.lock.None? && store.s.results == s.results
    ensures r.Some? && OnlyHeldLeft(s, store.s)
  {
    hide Inv, Recoverable, Recovers, Clears, Run, StepCrash, RecoverySteps, PcOf, Calm, OnlyHeldLeft;
    StoppedRecoveryIsFinished(s, steps, b);
    r := store.RecoverAbandoned();
  }
}
