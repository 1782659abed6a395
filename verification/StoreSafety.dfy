// What the invariant means for the results and for what `commit` returns, whatever removals fail.
module StoreSafety {
  import opened Prelude
  import opened OutputTree
  import opened TransactionIds
  import opened StoreCalls
  import opened StoreState
  import opened StoreInvariant
  import opened StorePreservation
  import opened StoreRuns

  // ----- the history --------------------------------------------------------------------

  ghost predicate PlacesOrUndoes(e: Event, rid: ResultId) { (e.Placed? || e.Undone?) && e.rid == rid }

  ghost predicate PublishesAt(e: Event, rid: ResultId) { e.Returned? && e.rid == rid && e.outcome.Published? }

  // `Holder` is the last placing of the id, with nothing about the id after it.
  lemma {:induction false} HolderIsLast(log: seq<Event>, rid: ResultId) returns (i: nat)
    requires Holder(log, rid).Some?
    ensures i < |log| && log[i] == Placed(Holder(log, rid).value.0, rid, Holder(log, rid).value.1)
    ensures forall j | i < j < |log| :: !PlacesOrUndoes(log[j], rid)
    decreases |log|
  {
    var n := |log| - 1;
    if log[n].Placed? && log[n].rid == rid { i := n; } else { i := HolderIsLast(log[..n], rid); }
  }

  lemma {:induction false} PublishedFound(log: seq<Event>, rid: ResultId, i: nat)
    requires i < |log| && PublishesAt(log[i], rid)
    ensures PublishedBy(log, rid).Some?
    decreases |log|
  {
    if i < |log| - 1 { PublishedFound(log[..|log| - 1], rid, i); }
  }

  // After a commit returned `Published`, its id is neither placed, undone nor published again.
  lemma {:induction false} PublishedIsFinal(log: seq<Event>, rid: ResultId, i: nat, j: nat)
    requires GoodLog(log) && i < j < |log| && PublishesAt(log[i], rid)
    ensures !PublishesAt(log[j], rid) && !PlacesOrUndoes(log[j], rid)
    decreases |log|
  {
    var prev := log[..|log| - 1];
    if j < |log| - 1 {
      PublishedIsFinal(prev, rid, i, j);
    } else {
      PublishedFound(prev, rid, i);
      PublishedHolds(prev, rid);
    }
  }

  lemma {:induction false} PublishedHolds(log: seq<Event>, rid: ResultId)
    requires GoodLog(log) && PublishedBy(log, rid).Some?
    ensures Holder(log, rid).Some? && Holder(log, rid).value.0 == PublishedBy(log, rid).value
    decreases |log|
  {
    var prev, e := log[..|log| - 1], log[|log| - 1];
    if !PublishesAt(e, rid) { PublishedHolds(prev, rid); }
  }

  // Of all commits of one id in one run, at most one returns `Published`.
  lemma AtMostOnePublished(steps: seq<(Agent, Op)>, rid: ResultId, i: nat, j: nat)
    requires AllowedRun(Init(), steps)
    ensures Run(Init(), steps).Some?
    ensures var log := Run(Init(), steps).value.log;
      i < |log| && j < |log| && PublishesAt(log[i], rid) && PublishesAt(log[j], rid) ==> i == j
  {
    StartsWell();
    RunKeeps(Init(), steps);
    var log := Run(Init(), steps).value.log;
    if i < j < |log| && PublishesAt(log[i], rid) { PublishedIsFinal(log, rid, i, j); }
    if j < i < |log| && PublishesAt(log[j], rid) { PublishedIsFinal(log, rid, j, i); }
  }

  // ----- the results ------------------------------------------------------------------------

  // Every entry no rollback has begun to delete is a complete tree for its id, made in the
  // build staging root, and is what exactly one commit placed there.
  lemma ResultsAreCommitted(steps: seq<(Agent, Op)>, rid: ResultId) returns (i: nat)
    requires AllowedRun(Init(), steps)
    requires Run(Init(), steps).Some? && rid in Run(Init(), steps).value.results
    requires rid !in Run(Init(), steps).value.tainted
    ensures var s := Run(Init(), steps).value;
      && CompleteDir(s.results[rid], rid)
      && s.results[rid].born.Results?
      && i < |s.log| && s.log[i].Placed? && s.log[i].rid == rid && s.log[i].dir == s.results[rid]
      && (forall j | i < j < |s.log| :: !PlacesOrUndoes(s.log[j], rid))
  {
    StartsWell();
    RunKeeps(Init(), steps);
    i := HolderIsLast(Run(Init(), steps).value.log, rid);
  }

  // What a rollback leaves behind: part of what was last placed at the id, and never anything else. What
  // is left passes for a result exactly when its metadata file and its prefix directory are still there.
  lemma LeftByRollback(steps: seq<(Agent, Op)>, rid: ResultId) returns (i: nat)
    requires AllowedRun(Init(), steps)
    requires Run(Init(), steps).Some? && rid in Run(Init(), steps).value.results
    ensures var s := Run(Init(), steps).value;
      && i < |s.log| && s.log[i].Placed? && s.log[i].rid == rid && PrunedDir(s.results[rid], s.log[i].dir)
      && (forall j | i < j < |s.log| :: !PlacesOrUndoes(s.log[j], rid))
      && (CompleteDir(s.results[rid], rid) <==> !s.results[rid].meta.NoMeta? && s.results[rid].prefix.Some?)
  {
    StartsWell();
    RunKeeps(Init(), steps);
    var s := Run(Init(), steps).value;
    i := HolderIsLast(s.log, rid);
    PassesExactly(s.results[rid], s.log[i].dir, rid);
  }

  lemma PassesExactly(left: Dir, was: Dir, rid: ResultId)
    requires PrunedDir(left, was) && CompleteDir(was, rid)
    ensures CompleteDir(left, rid) <==> !left.meta.NoMeta? && left.prefix.Some?
  {
    if left.prefix.Some? { PrunedStillPasses(0, left.prefix.value, was.prefix.value); }
  }

  // The commit of `rid` that is being rolled back, before it returned.
  ghost predicate RollsBack(s: State, a: Agent, rid: ResultId) {
    PcOf(s, a).RollbackWipe? && PcOf(s, a).c.rid == rid && PublishedBy(s.log, rid).None?
  }

  // No entry is altered or removed except by the rollback of the commit that placed it, and then only by
  // taking parts of it away.
  lemma OnlyRollbackAlters(s: State, a: Agent, op: Op, rid: ResultId)
    requires Inv(s) && Step(s, a, op).Some? && rid in s.results
    ensures var s' := Step(s, a, op).value;
      (rid in s'.results && s'.results[rid] == s.results[rid])
      || (RollsBack(s, a, rid) && (rid in s'.results ==> PrunedDir(s'.results[rid], s.results[rid])))
  {
    hide PrunedDir, StepBegin, StepLive, StepCommit, StepRollback, StepWipe, StepRelease, StepRecover, StepGet,
         StepUnlocked, StepCrash, Inv, LeaseInv, DirInv, ResultInv, HoldsOnly, GripInv, Facts, PublishedBy;
    OwnPart(s, a);
    if StepCommit(s, a, op) == Step(s, a, op) { CommitAdds(s, a, op, rid); }
    else if StepRollback(s, a, op) == Step(s, a, op) { RollbackAlters(s, a, op, rid); }
    else if op.Unlocked? { UnlockedKeepsResults(s, a); }
    else if op.Get? { GetKeepsResults(s, a, op.rid); }
    else { QuietStep(s, a, op); }
  }

  lemma CommitAdds(s: State, a: Agent, op: Op, rid: ResultId)
    requires StepCommit(s, a, op).Some? && rid in s.results
    ensures var s' := StepCommit(s, a, op).value; rid in s'.results && s'.results[rid] == s.results[rid]
  {
  }

  lemma RollbackAlters(s: State, a: Agent, op: Op, rid: ResultId)
    requires StepRollback(s, a, op).Some? && rid in s.results && Facts(s, PcOf(s, a))
    ensures var s' := StepRollback(s, a, op).value;
      (rid in s'.results && s'.results[rid] == s.results[rid])
      || (RollsBack(s, a, rid) && (rid in s'.results ==> PrunedDir(s'.results[rid], s.results[rid])))
  {
    hide PrunedDir;
  }

  lemma UnlockedKeepsResults(s: State, a: Agent)
    requires StepUnlocked(s, a).Some?
    ensures StepUnlocked(s, a).value.results == s.results && Grows(s.log, StepUnlocked(s, a).value.log)
  {
  }

  lemma GetKeepsResults(s: State, a: Agent, rid: ResultId)
    requires StepGet(s, a, rid).Some?
    ensures StepGet(s, a, rid).value.results == s.results && Grows(s.log, StepGet(s, a, rid).value.log)
  {
    hide CompleteDir;
  }

  lemma RollbackGrows(s: State, a: Agent, op: Op)
    requires StepRollback(s, a, op).Some?
    ensures Grows(s.log, StepRollback(s, a, op).value.log)
  {
  }

  lemma CommitGrows(s: State, a: Agent, op: Op)
    requires StepCommit(s, a, op).Some?
    ensures Grows(s.log, StepCommit(s, a, op).value.log)
  {
  }

  ghost predicate Grows(log: seq<Event>, log': seq<Event>) {
    log' == log || (|log'| == |log| + 1 && log'[..|log|] == log)
  }

  // A published result stays, byte for byte, through every later step of everybody.
  lemma {:induction false} PublishedForever(s: State, steps: seq<(Agent, Op)>, rid: ResultId)
    requires Inv(s) && AllowedRun(s, steps) && PublishedBy(s.log, rid).Some?
    ensures rid in s.results && Run(s, steps).Some?
    ensures rid in Run(s, steps).value.results && Run(s, steps).value.results[rid] == s.results[rid]
    decreases |steps|
  {
    if steps != [] {
      var (a, op) := steps[0];
      var s' := Step(s, a, op).value;
      OnlyRollbackAlters(s, a, op, rid);
      StepKeeps(s, a, op);
      LogGrows(s, a, op);
      StillPublished(s.log, s'.log, rid);
      PublishedForever(s', steps[1..], rid);
    }
  }

  lemma LogGrows(s: State, a: Agent, op: Op)
    requires Step(s, a, op).Some?
    ensures Grows(s.log, Step(s, a, op).value.log)
  {
    if StepCommit(s, a, op) == Step(s, a, op) { CommitGrows(s, a, op); }
    else if StepRollback(s, a, op) == Step(s, a, op) { RollbackGrows(s, a, op); }
    else if op.Unlocked? { UnlockedKeepsResults(s, a); }
    else if op.Get? { GetKeepsResults(s, a, op.rid); }
    else { QuietStep(s, a, op); }
  }

  lemma StillPublished(log: seq<Event>, log': seq<Event>, rid: ResultId)
    requires PublishedBy(log, rid).Some?
    requires Grows(log, log')
    ensures PublishedBy(log', rid).Some?
  {
  }

  // Safety needs the word untainted: a rollback that crashed after deleting part of its entry leaves the
  // rest, and while the metadata and the prefix directory are there `get` returns that as the result.
  lemma CrashedRollbackCanBeServed(s: State, a: Agent, b: Agent, d: Dir)
    requires Inv(s) && PcOf(s, a).RollbackWipe? && PcOf(s, b).Idle? && PcOf(s, a).c.rid in s.results
    requires PrunedDir(d, s.results[PcOf(s, a).c.rid]) && !d.meta.NoMeta? && d.prefix.Some?
    ensures var rid := PcOf(s, a).c.rid;
      Run(s, [(a, RollbackPartial(d)), (a, Crash), (b, Get(rid))]).Some?
      && Run(s, [(a, RollbackPartial(d)), (a, Crash), (b, Get(rid))]).value.log == s.log + [Got(rid, Some(d))]
  {
    hide Inv, PrunedDir, CompleteDir, Step, Run;
    var c, cleanup := PcOf(s, a).c, PcOf(s, a).cleanup;
    Locked(s, a);
    StillPasses(s, c.rid, d);
    LeadsRollbackPartial(s, a, c, cleanup, d);
    var s1 := Step(s, a, RollbackPartial(d)).value;
    CrashFrees(s1, a);
    LeadsCrash(s1, a);
    hide StepCrash;
    var s2 := StepCrash(s1, a);
    ServedFrom(s2, b, c.rid);
    ThreeSteps(s, s1, s2, a, RollbackPartial(d), a, Crash, b, Get(c.rid));
  }

  lemma ThreeSteps(s: State, s1: State, s2: State, a: Agent, x: Op, b: Agent, y: Op, c: Agent, z: Op)
    requires Step(s, a, x) == Some(s1) && Step(s1, b, y) == Some(s2)
    ensures Run(s, [(a, x), (b, y), (c, z)]) == Step(s2, c, z)
  {
    hide Step;
    var steps: seq<(Agent, Op)> := [(a, x), (b, y), (c, z)];
    assert steps[1..] == [(b, y), (c, z)];
    assert steps[1..][1..] == [(c, z)];
    assert [(c, z)][1..] == [];
    assert Run(s2, [(c, z)]) == Step(s2, c, z);
    assert Run(s1, steps[1..]) == Run(s2, [(c, z)]);
  }

  lemma Locked(s: State, a: Agent)
    requires Inv(s) && PcOf(s, a).RollbackWipe?
    ensures s.lock == Some(a)
  {
    assert GripOf(PcOf(s, a)).lock;
  }

  lemma StillPasses(s: State, rid: ResultId, d: Dir)
    requires Inv(s) && rid in s.results && PrunedDir(d, s.results[rid]) && !d.meta.NoMeta? && d.prefix.Some?
    ensures CompleteDir(d, rid)
  {
    hide LockInv, HeldInv, LeaseInv, DirInv, GoodLog, Facts, GripInv;
    PrunedDirTwice(d, s.results[rid], Holder(s.log, rid).value.1);
    PassesExactly(d, Holder(s.log, rid).value.1, rid);
  }

  lemma CrashFrees(s: State, a: Agent)
    requires s.lock == Some(a)
    ensures var s' := StepCrash(s, a);
      s'.lock.None? && s'.results == s.results && s'.log == s.log && forall b | b != a :: PcOf(s', b) == PcOf(s, b)
  {
    CrashMoves(s, a);
    hide StepCrash;
  }

  lemma CrashMoves(s: State, a: Agent)
    ensures var s' := StepCrash(s, a);
      && s'.lock == (if s.lock == Some(a) then None else s.lock)
      && s'.results == s.results && s'.log == s.log && s'.pcs == s.pcs[a := Idle]
  {
    hide GripOf, PcOf, CompleteDir, PrunedDir, GoodLog, Holder, PublishedBy;
    var g, s1 := GripOf(PcOf(s, a)), Goto(s.(lock := if s.lock == Some(a) then None else s.lock), a, Idle);
    if g.Grip? && g.held {
      assert StepCrash(s, a) == Closed(s1, g.h).(abandoned := s.abandoned + {g.h.ino});
    } else {
      assert StepCrash(s, a) == s1;
    }
    hide StepCrash;
  }

  lemma ServedFrom(s: State, b: Agent, rid: ResultId)
    requires s.lock.None? && PcOf(s, b).Idle? && rid in s.results && CompleteDir(s.results[rid], rid)
    ensures Step(s, b, Get(rid)).Some?
    ensures Step(s, b, Get(rid)).value.log == s.log + [Got(rid, Some(s.results[rid]))]
  {
  }

  // ----- what commit returns ----------------------------------------------------------------

  function CxOf(pc: Pc): Option<Cx> {
    match pc
    case CommitCheck(c) => Some(c)
    case CommitMeta(c) => Some(c)
    case CommitPlace(c) => Some(c)
    case CommitRename(c) => Some(c)
    case CommitVerify(c) => Some(c)
    case CommitSync(c) => Some(c)
    case CommitDone(c, _) => Some(c)
    case Rollback(c, _) => Some(c)
    case RollbackWipe(c, _) => Some(c)
    case RollbackSync(c, _) => Some(c)
    case FailDone(c, _, _) => Some(c)
    case EarlyErr(c, _) => Some(c)
    case Wipe(_, ForExisting(c)) => Some(c)
    case Release(_, ThenExisting(c)) => Some(c)
    case Release(_, ThenSync(c)) => Some(c)
    case Release(_, ThenFail(c)) => Some(c)
    case Unlock(_, ThenExisting(c)) => Some(c)
    case Unlock(_, ThenSync(c)) => Some(c)
    case Unlock(_, ThenFail(c)) => Some(c)
    case _ => None
  }

  // What a commit that took the lock in `s0` may report, and what it must have done by then.
  ghost predicate CommitMeans(outcome: Outcome, rid: ResultId, before: map<ResultId, Dir>, staged: Option<Node>,
                              after: map<ResultId, Dir>) {
    match outcome
    case Published =>
      // The id was absent; it now holds this transaction's prefix, complete, and nothing else changed.
      rid !in before && rid in after && after == before[rid := after[rid]]
      && CompleteDir(after[rid], rid) && after[rid].prefix == staged
    case Existing => after == before && rid in before && CompleteDir(before[rid], rid)
    case Failed => after == before
    case Corrupt(undone) =>
      // The results are as they were, unless the rollback itself failed: then the id may also have part of
      // this transaction's complete directory, and nothing else changed.
      rid !in before &&
      (after == before ||
       (!undone && rid in after && after == before[rid := after[rid]]
        && PrunedDir(after[rid], Dir(Results, staged, Complete(rid)))))
  }

  // The outcome the agent is about to return, if it is about to return from `commit`.
  function Returning(pc: Pc): Option<Outcome> {
    match pc
    case CommitDone(_, outcome) => Some(outcome)
    case FailDone(_, outcome, _) => Some(outcome)
    case EarlyErr(_, _) => Some(Failed)
    case _ => None
  }

  lemma ReturnMeans(s: State, a: Agent)
    requires Inv(s) && Returning(PcOf(s, a)).Some?
    ensures var c := CxOf(PcOf(s, a)).value;
      CommitMeans(Returning(PcOf(s, a)).value, c.rid, c.before, c.tree, s.results)
  {
    OwnPart(s, a);
    PlacedIsIntact(s, CxOf(PcOf(s, a)).value);
    PlacingIsPart(s, CxOf(PcOf(s, a)).value);
  }

  lemma PlacingIsPart(s: State, c: Cx)
    requires ResultInv(s)
    ensures Placing(s, c) ==> PrunedDir(s.results[c.rid], Dir(Results, c.tree, Complete(c.rid)))
  {
  }

  lemma PlacedIsIntact(s: State, c: Cx)
    requires ResultInv(s)
    ensures PlacedIntact(s, c) ==> CompleteDir(s.results[c.rid], c.rid) && s.results[c.rid].prefix == c.tree
  {
  }

  // Which steps there are at a program counter of `commit`.
  lemma BeginNeeds(s: State, a: Agent, op: Op)
    ensures StepBegin(s, a, op).Some? ==> CxOf(PcOf(s, a)).None?
  {
    hide ValidTransactionId;
  }

  lemma LiveNeeds(s: State, a: Agent, op: Op)
    ensures StepLive(s, a, op).Some? ==> CxOf(PcOf(s, a)).None?
  {
  }

  lemma RecoverNeeds(s: State, a: Agent, op: Op)
    ensures StepRecover(s, a, op).Some? ==> CxOf(PcOf(s, a)).None?
  {
    hide ValidTransactionId;
  }

  lemma GetNeeds(s: State, a: Agent, rid: ResultId)
    ensures StepGet(s, a, rid).Some? ==> CxOf(PcOf(s, a)).None?
  {
  }

  // Between taking the store lock and returning, a commit's context does not change.
  lemma CxStays(s: State, a: Agent, op: Op)
    requires Step(s, a, op).Some? && CxOf(PcOf(s, a)).Some? && !op.Unlocked? && !op.Crash?
    ensures CxOf(PcOf(Step(s, a, op).value, a)) == CxOf(PcOf(s, a))
  {
    hide StepBegin, StepLive, StepCommit, StepRollback, StepWipe, StepRelease, StepRecover, StepGet, CxOf, PcOf;
    BeginNeeds(s, a, op);
    LiveNeeds(s, a, op);
    RecoverNeeds(s, a, op);
    if op.Get? { GetNeeds(s, a, op.rid); }
    if StepCommit(s, a, op) == Step(s, a, op) { CxStaysCommit(s, a, op); }
    else if StepRollback(s, a, op) == Step(s, a, op) { CxStaysRollback(s, a, op); }
    else if StepWipe(s, a, op) == Step(s, a, op) { CxStaysWipe(s, a, op); }
    else { CxStaysRelease(s, a, op); }
  }

  lemma CxStaysWipe(s: State, a: Agent, op: Op)
    requires Step(s, a, op).Some? && Step(s, a, op) == StepWipe(s, a, op) && CxOf(PcOf(s, a)).Some?
    ensures CxOf(PcOf(Step(s, a, op).value, a)) == CxOf(PcOf(s, a))
  {
    hide Step, StepBegin, StepLive, StepCommit, StepRollback, StepWipe, StepRelease, StepRecover, PcOf, CompleteDir,
      ValidOutputTree, PrunedDir;
    WipeAt(s, a, op);
    WipeGoes(s, a, op);
  }

  lemma CxStaysRelease(s: State, a: Agent, op: Op)
    requires Step(s, a, op).Some? && Step(s, a, op) == StepRelease(s, a, op)
    ensures CxOf(PcOf(Step(s, a, op).value, a)) == CxOf(PcOf(s, a))
  {
    hide Step, StepBegin, StepLive, StepCommit, StepRollback, StepWipe, StepRelease, StepRecover, PcOf, CompleteDir,
      ValidOutputTree, PrunedDir;
    ReleaseAt(s, a, op);
    ReleaseGoes(s, a, op);
  }

  lemma CxStaysRollback(s: State, a: Agent, op: Op)
    requires Step(s, a, op).Some? && Step(s, a, op) == StepRollback(s, a, op)
    ensures CxOf(PcOf(Step(s, a, op).value, a)) == CxOf(PcOf(s, a))
  {
    hide Step, StepBegin, StepLive, StepCommit, StepRollback, StepWipe, StepRelease, StepRecover, PcOf, CompleteDir,
      ValidOutputTree, PrunedDir;
    RollbackAt(s, a, op);
    RollbackGoes(s, a, op);
  }

  lemma CxStaysCommit(s: State, a: Agent, op: Op)
    requires Step(s, a, op).Some? && Step(s, a, op) == StepCommit(s, a, op)
    ensures CxOf(PcOf(Step(s, a, op).value, a)) == CxOf(PcOf(s, a))
  {
    hide Step, StepBegin, StepLive, StepCommit, StepRollback, StepWipe, StepRelease, StepRecover, PcOf, CompleteDir,
      ValidOutputTree, PrunedDir;
    CommitAt(s, a, op);
    CommitGoes(s, a, op);
  }

  // A commit from its store lock to its return, with everybody else's steps in between:
  // what it returns is judged against the results and the staged prefix at its start.
  lemma {:induction false} CommitOutcome(s: State, steps: seq<(Agent, Op)>, a: Agent)
    requires Inv(s) && PcOf(s, a).CommitWait? && s.lock.None? && Allowed(s, a, LockStore(true))
    requires var s1 := Step(s, a, LockStore(true)).value;
      AllowedRun(s1, steps) && forall i | 0 <= i < |steps| :: steps[i] != (a, Unlocked) && steps[i] != (a, Crash)
    ensures var s1 := Step(s, a, LockStore(true)).value;
      && Run(s1, steps).Some?
      && var s2 := Run(s1, steps).value;
      Returning(PcOf(s2, a)).Some? ==>
        CommitMeans(Returning(PcOf(s2, a)).value, PcOf(s, a).rid, s.results,
                    s.staging[PcOf(s, a).h.id].prefix, s2.results)
  {
    var s1 := Step(s, a, LockStore(true)).value;
    CommitTakesLock(s, a);
    StepKeeps(s, a, LockStore(true));
    ReturnedOnRun(s1, steps, a);
  }

  lemma CommitTakesLock(s: State, a: Agent)
    requires PcOf(s, a).CommitWait? && Step(s, a, LockStore(true)).Some?
    ensures var h := PcOf(s, a).h;
      h.id in s.staging &&
      CxOf(PcOf(Step(s, a, LockStore(true)).value, a)) ==
        Some(Cx(h, PcOf(s, a).rid, s.results, s.staging[h.id].prefix))
  {
  }

  lemma ReturnedOnRun(s: State, steps: seq<(Agent, Op)>, a: Agent)
    requires Inv(s) && AllowedRun(s, steps) && CxOf(PcOf(s, a)).Some?
    requires forall i | 0 <= i < |steps| :: steps[i] != (a, Unlocked) && steps[i] != (a, Crash)
    ensures Run(s, steps).Some?
    ensures var c, s2 := CxOf(PcOf(s, a)).value, Run(s, steps).value;
      Returning(PcOf(s2, a)).Some? ==>
        CommitMeans(Returning(PcOf(s2, a)).value, c.rid, c.before, c.tree, s2.results)
  {
    hide Inv, Step;
    RunKeeps(s, steps);
    CxStaysOnRun(s, steps, a);
    if Returning(PcOf(Run(s, steps).value, a)).Some? { ReturnMeans(Run(s, steps).value, a); }
  }

  lemma {:induction false} CxStaysOnRun(s: State, steps: seq<(Agent, Op)>, a: Agent)
    requires Inv(s) && AllowedRun(s, steps) && CxOf(PcOf(s, a)).Some?
    requires forall i | 0 <= i < |steps| :: steps[i] != (a, Unlocked) && steps[i] != (a, Crash)
    ensures Run(s, steps).Some? && CxOf(PcOf(Run(s, steps).value, a)) == CxOf(PcOf(s, a))
    decreases |steps|
  {
    hide Inv, Step, CxOf, PcOf;
    if steps != [] {
      var (b, op) := steps[0];
      StepKeeps(s, b, op);
      if a == b { assert steps[0] != (a, Unlocked); CxStays(s, a, op); } else { OthersStay(s, a, b, op); }
      CxStaysOnRun(Step(s, b, op).value, steps[1..], a);
    }
  }

  // ----- staging directories in use ---------------------------------------------------------

  // Nobody deletes or changes the contents of a staging directory whose lease another agent holds.
  lemma HeldStagingIsSafe(s: State, a: Agent, op: Op, id: TxId)
    requires Inv(s) && Allowed(s, a, op)
    requires id in s.leases && s.leases[id] in s.held && s.held[s.leases[id]] != a
    ensures var s' := Step(s, a, op).value;
      && (id in s.staging ==> id in s'.staging && s'.staging[id] == s.staging[id])
      && (id in s.sources ==> id in s'.sources && s'.sources[id] == s.sources[id])
      && id in s'.leases && s'.leases[id] == s.leases[id]
  {
    OwnPart(s, a);
    StepCarries(s, a, op);
  }
}
