// Runs that the program can make, from the empty store, and that show what each hypothesis is for.
module StoreExamples {
  import opened Prelude
  import opened OutputTree
  import opened TransactionIds
  import opened StoreCalls
  import opened StoreState
  import opened StoreInvariant
  import opened StoreRuns
  import opened StoreLeases
  import opened StoreRecovery
  import opened StoreSafety

  type Steps = seq<(Agent, Op)>

  // ----- putting runs together ---------------------------------------------------------------------

  // `steps` lead from `s` to `s'`, and every step of them satisfies the hypothesis on names if `unique`.
  ghost predicate Goes(s: State, steps: Steps, s': State, unique: bool) {
    Run(s, steps) == Some(s') && (unique ==> AllowedRun(s, steps))
  }

  lemma Start(s: State, unique: bool) returns (steps: Steps, s': State)
    ensures Goes(s, steps, s', unique) && steps == [] && s' == s
  {
    steps, s' := [], s;
  }

  lemma Next(s: State, steps: Steps, s1: State, unique: bool, a: Agent, op: Op) returns (steps': Steps, s2: State)
    requires Goes(s, steps, s1, unique) && Step(s1, a, op).Some?
    requires unique && PcOf(s1, a).BeginLeased? ==> Unreserved(s1, a, PcOf(s1, a).h.root, PcOf(s1, a).h.id)
    ensures Goes(s, steps', s2, unique) && steps' == steps + [(a, op)] && Step(s1, a, op) == Some(s2)
  {
    hide Step, Unreserved, GripOf, Reserves;
    RunSnoc(s, steps, a, op);
    steps', s2 := steps + [(a, op)], Step(s1, a, op).value;
    if unique { Unopposed(s1, a, op); }
  }

  ghost predicate Unreserved(s: State, a: Agent, root: Root, id: TxId) {
    forall b: Agent | b != a :: !Reserves(GripOf(PcOf(s, b)), root, id)
  }

  lemma Unopposed(s: State, a: Agent, op: Op)
    requires PcOf(s, a).BeginLeased? ==> Unreserved(s, a, PcOf(s, a).h.root, PcOf(s, a).h.id)
    ensures FreshName(s, a, op)
  {
  }

  lemma {:induction false} Then(s: State, steps: Steps, s1: State, more: Steps, s2: State, unique: bool)
    requires Goes(s, steps, s1, unique) && Goes(s1, more, s2, unique)
    ensures Goes(s, steps + more, s2, unique)
    decreases |steps|
  {
    hide Step, FreshName;
    var all := steps + more;
    if steps == [] {
      assert all == more;
    } else {
      assert all[0] == steps[0] && all[1..] == steps[1..] + more;
      Then(Step(s, steps[0].0, steps[0].1).value, steps[1..], s1, more, s2, unique);
    }
  }

  // ----- begin ----------------------------------------------------------------------------------------

  ghost predicate OthersWait(s: State, s': State, a: Agent) { forall b: Agent | b != a :: PcOf(s', b) == PcOf(s, b) }

  ghost predicate CanBegin(s: State, a: Agent, root: Root, id: TxId) {
    && s.lock.None? && PcOf(s, a) == Idle && ValidTransactionId(id) && id !in s.leases && id !in Dirs(s, root)
    && s.nextInode !in s.held
  }

  // A lease, created and locked.
  lemma Leases(s: State, a: Agent, root: Root, id: TxId, unique: bool) returns (steps: Steps, s': State)
    requires CanBegin(s, a, root, id)
    ensures Goes(s, steps, s', unique) && OthersWait(s, s', a)
    ensures PcOf(s', a) == BeginLeased(0, Handle(root, id, s.nextInode))
    ensures s'.staging == s.staging && s'.sources == s.sources && s'.results == s.results && s'.log == s.log
    ensures s'.leases == s.leases[id := s.nextInode] && s'.held == s.held[s.nextInode := a]
    ensures s'.nextInode == s.nextInode + 1
  {
    hide Goes, Step, ValidTransactionId;
    steps, s' := Start(s, unique);
    LeadsStart(s', a, StartBegin(root));
    steps, s' := Next(s, steps, s', unique, a, StartBegin(root));
    LeadsCreate(s', a, root, 0, id, Created);
    steps, s' := Next(s, steps, s', unique, a, CreateLease(id, Created));
    LeadsLockLease(s', a, 0, Handle(root, id, s.nextInode), true);
    steps, s' := Next(s, steps, s', unique, a, LockLease(true));
  }

  // A live handle on a new stage.
  ghost predicate Begun(s: State, s': State, a: Agent, root: Root, id: TxId) {
    && OthersWait(s, s', a) && s'.lock.None? && PcOf(s', a) == Live(Handle(root, id, s.nextInode))
    && s'.results == s.results && s'.log == s.log
    && s'.leases == s.leases[id := s.nextInode] && s'.held == s.held[s.nextInode := a]
    && s'.nextInode == s.nextInode + 1
    && s'.staging == (if root.Results? then s.staging[id := NewStage(root)] else s.staging)
    && s'.sources == (if root.Results? then s.sources else s.sources[id := NewStage(root)])
  }

  // The stage of a leased id.
  lemma Stages(s: State, steps: Steps, s1: State, a: Agent, h: Handle, unique: bool) returns (steps': Steps, s': State)
    requires Goes(s, steps, s1, unique) && PcOf(s1, a) == BeginLeased(0, h) && h.id !in Dirs(s1, h.root)
    requires unique ==> Unreserved(s1, a, h.root, h.id)
    ensures Goes(s, steps', s', unique) && OthersWait(s1, s', a) && PcOf(s', a) == Ready(h)
    ensures s' == s1.(staging := s'.staging, sources := s'.sources, pcs := s'.pcs)
    ensures s'.staging == (if h.root.Results? then s1.staging[h.id := NewStage(h.root)] else s1.staging)
    ensures s'.sources == (if h.root.Results? then s1.sources else s1.sources[h.id := NewStage(h.root)])
  {
    hide Goes, Step, Unreserved;
    LeadsMakeStage(s1, a, 0, h, true);
    steps', s' := Next(s, steps, s1, unique, a, MakeStage(true));
    if h.root.Results? {
      LeadsMakePrefix(s', a, h, true);
      steps', s' := Next(s, steps', s', unique, a, MakePrefix(true));
      assert s'.staging == s1.staging[h.id := NewStage(h.root)];
    }
  }

  lemma Begins(s: State, a: Agent, root: Root, id: TxId, unique: bool) returns (steps: Steps, s': State)
    requires CanBegin(s, a, root, id) && (unique ==> Unreserved(s, a, root, id))
    ensures Goes(s, steps, s', unique) && Begun(s, s', a, root, id)
  {
    hide Goes, Step, ValidTransactionId, NewStage, Reserves, GripOf;
    steps, s' := Leases(s, a, root, id, unique);
    assert unique ==> Unreserved(s', a, root, id);
    hide Unreserved;
    steps, s' := Stages(s, steps, s', a, Handle(root, id, s.nextInode), unique);
    LeadsReturn(s', a);
    assert s'.log + [] == s'.log;
    steps, s' := Next(s, steps, s', unique, a, Unlocked);
  }

  // ----- a directory without its lease ----------------------------------------------------------------

  // A drop ignores that the directory could not be removed, and deletes its lease.
  lemma DropsLease(s: State, steps: Steps, s1: State, a: Agent, h: Handle) returns (steps': Steps, s': State)
    requires Goes(s, steps, s1, true) && PcOf(s1, a) == Live(h) && s1.lock.None?
    ensures Goes(s, steps', s', true) && OthersWait(s1, s', a) && PcOf(s', a) == Unlock(h, ThenDropped)
    ensures s' == s1.(lock := Some(a), leases := s1.leases - {h.id}, pcs := s'.pcs)
  {
    hide Goes, Step;
    steps', s' := FailsToWipe(s, steps, s1, a, h);
    hide PcOf;
    steps', s' := Unlinks(s, steps', s', a, h, ThenDropped);
  }

  lemma FailsToWipe(s: State, steps: Steps, s1: State, a: Agent, h: Handle) returns (steps': Steps, s': State)
    requires Goes(s, steps, s1, true) && PcOf(s1, a) == Live(h) && s1.lock.None?
    ensures Goes(s, steps', s', true) && OthersWait(s1, s', a) && PcOf(s', a) == Release(h, ThenDropped)
    ensures s' == s1.(lock := Some(a), pcs := s'.pcs)
  {
    hide Goes, Step;
    LeadsEnd(s1, a, h, StartDrop);
    steps', s' := Next(s, steps, s1, true, a, StartDrop);
    LeadsDropLock(s', a, h, true, true);
    steps', s' := Next(s, steps', s', true, a, LockStore(true));
    LeadsWipe(s', a, h, ForDrop(true), false);
    steps', s' := Next(s, steps', s', true, a, WipeAll(false));
  }

  lemma Unlinks(s: State, steps: Steps, s1: State, a: Agent, h: Handle, next: After) returns (steps': Steps, s': State)
    requires Goes(s, steps, s1, true) && PcOf(s1, a) == Release(h, next)
    ensures Goes(s, steps', s', true) && OthersWait(s1, s', a) && PcOf(s', a) == Unlock(h, next)
    ensures s' == s1.(leases := s1.leases - {h.id}, pcs := s'.pcs)
  {
    hide Goes, Step;
    LeadsRemoveLease(s1, a, h, next, true);
    steps', s' := Next(s, steps, s1, true, a, RemoveLease(true));
  }

  lemma Uncovers() returns (steps: Steps, s': State)
    ensures Goes(Init(), steps, s', true) && OthersWait(Init(), s', 0)
    ensures PcOf(s', 0) == Unlock(Handle(Sources, "txn-1", 0), ThenDropped)
    ensures s'.lock == Some(0) && s'.sources.Keys == {"txn-1"} && s'.staging == map[] && s'.leases == map[]
    ensures s'.held == map[0 := 0] && s'.nextInode == 1
  {
    hide Goes, Reserves, GripOf;
    assert ValidTransactionId("txn-1");
    assert Unreserved(Init(), 0, Sources, "txn-1") by { NobodyReserves(Init(), 0, Sources, "txn-1"); }
    var s1;
    steps, s1 := Begins(Init(), 0, Sources, "txn-1", true);
    hide PcOf;
    steps, s' := DropsLease(Init(), steps, s1, 0, Handle(Sources, "txn-1", 0));
  }

  // From the empty store: a directory without a lease.
  lemma DropUncovers() returns (steps: Steps)
    ensures AllowedRun(Init(), steps) && Run(Init(), steps).Some?
    ensures Stray(Run(Init(), steps).value, Sources, "txn-1") && !Covered(Run(Init(), steps).value)
  {
    hide Goes;
    var s';
    steps, s' := Uncovers();
    Arrives(Init(), steps, s');
  }

  lemma Arrives(s: State, steps: Steps, s': State)
    requires Goes(s, steps, s', true)
    ensures AllowedRun(s, steps) && Run(s, steps) == Some(s')
  {
  }

  lemma NobodyReserves(s: State, a: Agent, root: Root, id: TxId)
    requires forall b: Agent | b != a :: PcOf(s, b) == Idle
    ensures Unreserved(s, a, root, id)
  {
  }

  // ----- commit ---------------------------------------------------------------------------------------

  // Nothing but the agent, the results and its stage moved.
  ghost predicate SameLeases(s: State, s': State) {
    s'.leases == s.leases && s'.held == s.held && s'.nextInode == s.nextInode && s'.sources == s.sources
  }

  ghost predicate CanCommit(s: State, h: Handle) {
    && h.root.Results? && h.id in s.staging && s.staging[h.id].prefix.Some? && s.staging[h.id].meta.NoMeta?
    && ValidOutputTree(s.staging[h.id].prefix.value)
  }

  // A live handle whose stage has all that `commit` asks for.
  ghost predicate CanCommitNow(s: State, a: Agent, h: Handle) {
    s.lock.None? && PcOf(s, a) == Live(h) && CanCommit(s, h)
  }

  function CxFor(s: State, h: Handle, rid: ResultId): Cx
    requires h.id in s.staging
  {
    Cx(h, rid, s.results, s.staging[h.id].prefix)
  }

  // Up to the store lock.
  lemma Locks(s: State, a: Agent, h: Handle, rid: ResultId, unique: bool) returns (steps: Steps, s': State)
    requires CanCommitNow(s, a, h)
    ensures Goes(s, steps, s', unique) && OthersWait(s, s', a) && PcOf(s', a) == CommitCheck(CxFor(s, h, rid))
    ensures s' == s.(lock := Some(a), pcs := s'.pcs)
  {
    hide Goes, Step, ValidOutputTree;
    steps, s' := Start(s, unique);
    LeadsEnd(s', a, h, StartCommit(rid));
    steps, s' := Next(s, steps, s', unique, a, StartCommit(rid));
    LeadsCommitLock(s', a, h, rid, true);
    steps, s' := Next(s, steps, s', unique, a, LockStore(true));
  }

  // Up to the metadata.
  lemma Enters(s: State, a: Agent, h: Handle, rid: ResultId, unique: bool) returns (steps: Steps, s': State)
    requires CanCommitNow(s, a, h)
    ensures Goes(s, steps, s', unique) && OthersWait(s, s', a) && SameLeases(s, s')
    ensures PcOf(s', a) == CommitPlace(CxFor(s, h, rid)) && s'.lock == Some(a)
    ensures s'.results == s.results && s'.log == s.log
    ensures s'.staging == s.staging[h.id := s.staging[h.id].(meta := Complete(rid))]
  {
    hide Goes, Step, ValidOutputTree;
    steps, s' := Locks(s, a, h, rid, unique);
    LeadsCheckTree(s', a, CxFor(s, h, rid), true);
    steps, s' := Next(s, steps, s', unique, a, CheckTree(true));
    LeadsWriteMeta(s', a, CxFor(s, h, rid), true, Junk);
    steps, s' := Next(s, steps, s', unique, a, WriteMeta(true, Junk));
  }

  // Up to the rename.
  lemma Places(s: State, a: Agent, h: Handle, rid: ResultId, unique: bool) returns (steps: Steps, s': State)
    requires CanCommitNow(s, a, h) && rid !in s.results
    ensures Goes(s, steps, s', unique) && OthersWait(s, s', a) && SameLeases(s, s')
    ensures PcOf(s', a) == CommitVerify(CxFor(s, h, rid)) && s'.lock == Some(a) && s'.staging == s.staging - {h.id}
    ensures s'.results == s.results[rid := s.staging[h.id].(meta := Complete(rid))]
    ensures s'.log == s.log + [Placed(h.id, rid, s.staging[h.id].(meta := Complete(rid)))]
  {
    hide Goes, Step, ValidOutputTree;
    var c := CxFor(s, h, rid);
    steps, s' := Enters(s, a, h, rid, unique);
    LeadsCheckDestination(s', a, c, true);
    steps, s' := Next(s, steps, s', unique, a, CheckDestination(true));
    ghost var s1 := s';
    LeadsRename(s', a, c, true);
    steps, s' := Next(s, steps, s', unique, a, Rename(true));
    assert s1.staging - {h.id} == s.staging - {h.id};
  }

  // The lease is removed, and its lock goes.
  lemma GivesBack(s: State, steps: Steps, s1: State, a: Agent, h: Handle, next: After, ok: bool, unique: bool)
    returns (steps': Steps, s': State)
    requires Goes(s, steps, s1, unique) && PcOf(s1, a) == Release(h, next)
    ensures Goes(s, steps', s', unique) && OthersWait(s1, s', a)
    ensures PcOf(s', a) == if ok then Released(next) else NotReleased(next)
    ensures s' == s1.(leases := s1.leases - {h.id}, held := s1.held - {h.ino}, pcs := s'.pcs)
  {
    hide Goes, Step;
    LeadsRemoveLease(s1, a, h, next, true);
    steps', s' := Next(s, steps, s1, unique, a, RemoveLease(true));
    LeadsUnlockLease(s', a, h, next, ok);
    steps', s' := Next(s, steps', s', unique, a, UnlockLease(ok));
  }

  // Up to the return of `Published`.
  lemma Settles(s: State, steps: Steps, s1: State, a: Agent, c: Cx, unique: bool) returns (steps': Steps, s': State)
    requires Goes(s, steps, s1, unique) && PcOf(s1, a) == CommitVerify(c)
    requires c.rid in s1.results && CompleteDir(s1.results[c.rid], c.rid)
    ensures Goes(s, steps', s', unique) && OthersWait(s1, s', a) && PcOf(s', a) == Idle && s'.lock.None?
    ensures s'.staging == s1.staging && s'.sources == s1.sources && s'.results == s1.results
    ensures s'.leases == s1.leases - {c.h.id} && s'.held == s1.held - {c.h.ino} && s'.nextInode == s1.nextInode
  {
    hide Goes, Step, CompleteDir;
    LeadsVerify(s1, a, c, true);
    steps', s' := Next(s, steps, s1, unique, a, VerifyPublished(true));
    steps', s' := GivesBack(s, steps', s', a, c.h, ThenSync(c), true, unique);
    assert OthersWait(s1, s', a);
    steps', s' := Finishes(s, steps', s', a, c, unique);
  }

  lemma Finishes(s: State, steps: Steps, s1: State, a: Agent, c: Cx, unique: bool) returns (steps': Steps, s': State)
    requires Goes(s, steps, s1, unique) && PcOf(s1, a) == CommitSync(c)
    ensures Goes(s, steps', s', unique) && OthersWait(s1, s', a) && PcOf(s', a) == Idle
    ensures s' == s1.(lock := None, log := s'.log, pcs := s'.pcs)
  {
    hide Goes, Step;
    LeadsSync(s1, a, c, true);
    steps', s' := Next(s, steps, s1, unique, a, SyncResults(true));
    LeadsReturn(s', a);
    steps', s' := Next(s, steps', s', unique, a, Unlocked);
  }

  // The result is there already, and the lease cannot be given back: the handle is dropped without it.
  lemma GivesUp(s: State, a: Agent, h: Handle, rid: ResultId, unique: bool) returns (steps: Steps, s': State)
    requires CanCommitNow(s, a, h) && rid in s.results && CompleteDir(s.results[rid], rid)
    ensures Goes(s, steps, s', unique) && OthersWait(s, s', a) && PcOf(s', a) == DropWait(h, false) && s'.lock.None?
    ensures s'.staging == s.staging - {h.id} && s'.sources == s.sources && s'.results == s.results
    ensures s'.leases == s.leases - {h.id} && s'.held == s.held - {h.ino} && s'.nextInode == s.nextInode
  {
    hide Goes, Step, CompleteDir, CanCommit;
    assert h.id in s.staging && h.root.Results? by { StagedFor2(s, h); }
    var c := CxFor(s, h, rid);
    steps, s' := Enters(s, a, h, rid, unique);
    ghost var s1 := s';
    hide CanCommitNow;
    steps, s' := Clears(s, steps, s', a, c, unique);
    assert s1.staging - {h.id} == s.staging - {h.id};
    steps, s' := Abandons(s, steps, s', a, c, unique);
  }

  // The stage of a commit whose result is there already.
  lemma Clears(s: State, steps: Steps, s1: State, a: Agent, c: Cx, unique: bool) returns (steps': Steps, s': State)
    requires Goes(s, steps, s1, unique) && PcOf(s1, a) == CommitPlace(c) && c.h.root.Results? && c.h.id in s1.staging
    requires c.rid in s1.results && CompleteDir(s1.results[c.rid], c.rid)
    ensures Goes(s, steps', s', unique) && OthersWait(s1, s', a) && PcOf(s', a) == Release(c.h, ThenExisting(c))
    ensures s' == s1.(staging := s1.staging - {c.h.id}, pcs := s'.pcs)
  {
    hide Goes, Step, CompleteDir;
    LeadsCheckDestination(s1, a, c, true);
    steps', s' := Next(s, steps, s1, unique, a, CheckDestination(true));
    LeadsWipe(s', a, c.h, ForExisting(c), true);
    steps', s' := Next(s, steps', s', unique, a, WipeAll(true));
  }

  lemma StagedFor2(s: State, h: Handle)
    requires CanCommit(s, h)
    ensures h.id in s.staging && h.root.Results?
  {
  }

  lemma Abandons(s: State, steps: Steps, s1: State, a: Agent, c: Cx, unique: bool) returns (steps': Steps, s': State)
    requires Goes(s, steps, s1, unique) && PcOf(s1, a) == Release(c.h, ThenExisting(c))
    ensures Goes(s, steps', s', unique) && OthersWait(s1, s', a) && PcOf(s', a) == DropWait(c.h, false) && s'.lock.None?
    ensures s'.staging == s1.staging && s'.sources == s1.sources && s'.results == s1.results
    ensures s'.leases == s1.leases - {c.h.id} && s'.held == s1.held - {c.h.ino} && s'.nextInode == s1.nextInode
  {
    hide Goes, Step;
    steps', s' := GivesBack(s, steps, s1, a, c.h, ThenExisting(c), false, unique);
    LeadsReturn(s', a);
    steps', s' := Next(s, steps', s', unique, a, Unlocked);
  }

  // ----- a name used again in the other root ---------------------------------------------------------

  lemma DropEnds(s: State, steps: Steps, s1: State, a: Agent, h: Handle) returns (steps': Steps, s': State)
    requires Goes(s, steps, s1, true) && PcOf(s1, a) == Unlock(h, ThenDropped)
    ensures Goes(s, steps', s', true) && OthersWait(s1, s', a) && PcOf(s', a) == Idle
    ensures s' == s1.(lock := None, held := s1.held - {h.ino}, log := s'.log, pcs := s'.pcs)
  {
    hide Goes, Step;
    LeadsUnlockLease(s1, a, h, ThenDropped, true);
    steps', s' := Next(s, steps, s1, true, a, UnlockLease(true));
    LeadsReturn(s', a);
    steps', s' := Next(s, steps', s', true, a, Unlocked);
  }

  // The drop is over, and agent 1 makes a stage of the same name in the other root.
  lemma StagesAgain() returns (steps: Steps, s': State)
    ensures Goes(Init(), steps, s', true) && s'.lock.None? && PcOf(s', 1) == Live(Handle(Results, "txn-1", 1))
    ensures PcOf(s', 2) == Idle && s'.staging.Keys == {"txn-1"} && s'.sources.Keys == {"txn-1"}
    ensures s'.leases == map["txn-1" := 1] && s'.held == map[1 := 1]
  {
    hide Goes, Reserves, GripOf;
    var s1, more;
    steps, s1 := Uncovers();
    assert forall b: Agent :: PcOf(Init(), b) == Idle;
    hide PcOf;
    steps, s1 := DropEnds(Init(), steps, s1, 0, Handle(Sources, "txn-1", 0));
    assert ValidTransactionId("txn-1");
    assert Unreserved(s1, 1, Results, "txn-1") by { NobodyReserves(s1, 1, Results, "txn-1"); }
    more, s' := Begins(s1, 1, Results, "txn-1", true);
    Then(Init(), steps, s1, more, s', true);
    steps := steps + more;
  }

  // A recovery finds the one stage in the first root held, and goes on to the second.
  lemma SkipsHeld(s: State, steps: Steps, s1: State, a: Agent, id: TxId) returns (steps': Steps, s': State)
    requires Goes(s, steps, s1, true) && PcOf(s1, a) == Idle && s1.lock.None? && ValidTransactionId(id)
    requires s1.staging.Keys == {id} && id in s1.leases && s1.leases[id] in s1.held
    ensures Goes(s, steps', s', true) && OthersWait(s1, s', a)
    ensures PcOf(s', a).Scan? && PcOf(s', a).root.Sources? && PcOf(s', a).todo == s1.sources.Keys
    ensures s' == s1.(lock := Some(a), pcs := s'.pcs)
  {
    hide Goes, Step, ValidTransactionId;
    LeadsStart(s1, a, StartRecover);
    steps', s' := Next(s, steps, s1, true, a, StartRecover);
    var rec := PcOf(s', a).rec;
    LeadsTryEntry(s', a, rec, Results, {id}, id, true);
    steps', s' := Next(s, steps', s', true, a, TryEntry(id, true));
    assert {id} - {id} == {};
    LeadsNextRoot(s', a, rec, Results, {}, true);
    steps', s' := Next(s, steps', s', true, a, NextRoot(true));
  }

  // It finds the one in the second root given up, and removes that with its lease.
  lemma TakesLast(s: State, steps: Steps, s1: State, a: Agent, id: TxId) returns (steps': Steps, s': State)
    requires Goes(s, steps, s1, true) && ValidTransactionId(id) && id in s1.leases && s1.leases[id] !in s1.held
    requires PcOf(s1, a).Scan? && PcOf(s1, a).root.Sources? && PcOf(s1, a).todo == {id} && id in s1.sources
    ensures Goes(s, steps', s', true)
    ensures PcOf(s', a).Scan? && PcOf(s', a).root.Sources? && PcOf(s', a).todo == {}
    ensures s'.leases == s1.leases - {id} && s'.staging == s1.staging
  {
    hide Goes, Step, ValidTransactionId;
    var rec, h := PcOf(s1, a).rec, Handle(Sources, id, s1.leases[id]);
    assert {id} - {id} == {};
    LeadsTryEntry(s1, a, rec, Sources, {id}, id, true);
    steps', s' := Next(s, steps, s1, true, a, TryEntry(id, true));
    LeadsWipe(s', a, h, ForScan(rec, Sources, {}), true);
    steps', s' := Next(s, steps', s', true, a, WipeAll(true));
    steps', s' := GivesBack(s, steps', s', a, h, PcOf(s', a).next, true, true);
  }

  // So a recovery passes the stage while it is held, and deletes its lease after it was given up.
  lemma PassesTwice(steps: Steps, s: State) returns (steps': Steps, s': State)
    requires Goes(Init(), steps, s, true) && s.lock.None? && PcOf(s, 1) == Live(Handle(Results, "txn-1", 1))
    requires PcOf(s, 2) == Idle && s.staging.Keys == {"txn-1"} && s.sources.Keys == {"txn-1"}
    requires s.leases == map["txn-1" := 1] && s.held == map[1 := 1]
    ensures Goes(Init(), steps', s', true) && PcOf(s', 2).Scan? && PcOf(s', 2).root.Sources? && PcOf(s', 2).todo == {}
    ensures s'.leases == map[] && s'.staging == s.staging
  {
    hide Goes, Step, StepCrash;
    assert ValidTransactionId("txn-1");
    hide ValidTransactionId;
    steps', s' := SkipsHeld(Init(), steps, s, 2, "txn-1");
    CrashGivesUp(s', 1);
    LeadsCrash(s', 1);
    steps', s' := Next(Init(), steps', s', true, 1, Crash);
    hide PcOf;
    steps', s' := TakesLast(Init(), steps', s', 2, "txn-1");
  }

  lemma CrashGivesUp(s: State, a: Agent)
    requires PcOf(s, a).Live? && s.lock != Some(a)
    ensures StepCrash(s, a) == Closed(Goto(s, a, Idle), PcOf(s, a).h).(abandoned := s.abandoned + {PcOf(s, a).h.ino})
  {
  }

  // From the empty store: a recovery ends without an error, and leaves a directory without a lease. So its
  // account of itself does need that a new stage takes no name left over in the other root.
  lemma ReusedNameEscapesRecovery() returns (steps: Steps)
    ensures AllowedRun(Init(), steps) && Run(Init(), steps).Some?
    ensures var s := Run(Init(), steps).value;
      PcOf(s, 2).RecoverEnd? && PcOf(s, 2).ok && Stray(s, Results, "txn-1")
  {
    hide Goes, Step;
    var s';
    steps, s' := StagesAgain();
    steps, s' := PassesTwice(steps, s');
    var rec := PcOf(s', 2).rec;
    LeadsNextRoot(s', 2, rec, Sources, {}, true);
    steps, s' := Next(Init(), steps, s', true, 2, NextRoot(true));
    LeadsOrphansDone(s', 2, rec);
    steps, s' := Next(Init(), steps, s', true, 2, OrphansDone);
    Arrives(Init(), steps, s');
  }

  // ----- a damaged result is served -------------------------------------------------------------------

  const TwoFiles := Folder(map["a" := File(1, "a"), "b" := File(1, "b")])
  const OneFile := Folder(map["a" := File(1, "a")])

  lemma TwoFilesValid()
    ensures ValidOutputTree(TwoFiles) && Pruned(OneFile, TwoFiles) && OneFile != TwoFiles
  {
    assert "b" in TwoFiles.children && "b" !in OneFile.children;
  }

  function TwoFilesDir(meta: Meta): Dir { Dir(Results, Some(TwoFiles), meta) }

  // A commit of two files that fails its validation, up to the removal.
  lemma RollsBackTwoFiles() returns (steps: Steps, s': State)
    ensures Goes(Init(), steps, s', true) && PcOf(s', 0).RollbackWipe? && PcOf(s', 0).c.rid == "r"
    ensures s'.lock == Some(0) && s'.results == map["r" := TwoFilesDir(Complete("r"))] && PcOf(s', 1) == Idle
    ensures s'.log == [Placed("txn-1", "r", TwoFilesDir(Complete("r")))]
  {
    hide Goes, Step, Reserves, GripOf, ValidOutputTree, TwoFilesDir;
    var h := Handle(Results, "txn-1", 0);
    assert ValidTransactionId("txn-1");
    assert Unreserved(Init(), 0, Results, "txn-1") by { NobodyReserves(Init(), 0, Results, "txn-1"); }
    steps, s' := Begins(Init(), 0, Results, "txn-1", true);
    WritesTwoFiles(s', 0, h);
    steps, s' := Next(Init(), steps, s', true, 0, Write(TwoFilesDir(NoMeta)));
    steps, s' := PlacedThenRolledBack(steps, s', h);
  }

  lemma WritesTwoFiles(s: State, a: Agent, h: Handle)
    requires PcOf(s, a) == Live(h) && h.root.Results? && h.id in s.staging && s.lock.None?
    ensures Step(s, a, Write(TwoFilesDir(NoMeta))).Some?
    ensures var s' := Step(s, a, Write(TwoFilesDir(NoMeta))).value;
      && s' == s.(staging := s.staging[h.id := TwoFilesDir(NoMeta)], pcs := s'.pcs)
      && CanCommitNow(s', a, h) && forall b | b != a :: PcOf(s', b) == PcOf(s, b)
  {
    hide Step, ValidOutputTree;
    LeadsWrite(s, a, h, TwoFilesDir(NoMeta));
    TwoFilesValid();
  }

  lemma PlacedThenRolledBack(steps: Steps, s: State, h: Handle) returns (steps': Steps, s': State)
    requires Goes(Init(), steps, s, true) && CanCommitNow(s, 0, h) && s.results == map[] && s.log == []
    requires s.staging[h.id] == TwoFilesDir(NoMeta) && h.id == "txn-1" && PcOf(s, 1) == Idle
    ensures Goes(Init(), steps', s', true) && PcOf(s', 0).RollbackWipe? && PcOf(s', 0).c.rid == "r"
    ensures s'.lock == Some(0) && s'.results == map["r" := TwoFilesDir(Complete("r"))] && PcOf(s', 1) == Idle
    ensures s'.log == [Placed("txn-1", "r", TwoFilesDir(Complete("r")))]
  {
    hide Goes, Step, ValidOutputTree;
    var more;
    more, s' := Places(s, 0, h, "r", true);
    Then(Init(), steps, s, more, s', true);
    steps' := steps + more;
    LeadsVerify(s', 0, CxFor(s, h, "r"), false);
    steps', s' := Next(Init(), steps', s', true, 0, VerifyPublished(false));
    LeadsRollback(s', 0, CxFor(s, h, "r"), true, true);
    steps', s' := Next(Init(), steps', s', true, 0, RollbackCheck(true));
  }

  // From the empty store, all names unique: a commit of two files fails its validation, its rollback
  // removes one of them and crashes, and `get` returns the other as the result.
  lemma DamagedResultIsServed() returns (steps: Steps)
    ensures AllowedRun(Init(), steps) && Run(Init(), steps).Some?
    ensures OneFile != TwoFiles
    ensures Run(Init(), steps).value.log ==
      [Placed("txn-1", "r", TwoFilesDir(Complete("r"))), Got("r", Some(Dir(Results, Some(OneFile), Complete("r"))))]
  {
    hide Goes, Step, ValidOutputTree, CompleteDir, PrunedDir, StepCrash;
    TwoFilesValid();
    var s1;
    steps, s1 := RollsBackTwoFiles();
    var d := Dir(Results, Some(OneFile), Complete("r"));
    assert PrunedDir(d, TwoFilesDir(Complete("r"))) && CompleteDir(d, "r") by { OnePasses(d); }
    hide TwoFilesDir;
    steps, s1 := CrashesOver(steps, s1, d);
    ServedFrom(s1, 1, "r");
    steps, s1 := Next(Init(), steps, s1, true, 1, Get("r"));
    Arrives(Init(), steps, s1);
  }

  lemma CrashesOver(steps: Steps, s1: State, d: Dir) returns (steps': Steps, s': State)
    requires Goes(Init(), steps, s1, true) && PcOf(s1, 0).RollbackWipe? && PcOf(s1, 0).c.rid == "r" &&
        s1.lock == Some(0)
    requires "r" in s1.results && PrunedDir(d, s1.results["r"])
    ensures Goes(Init(), steps', s', true) && s'.lock.None? && s'.log == s1.log && PcOf(s', 1) == PcOf(s1, 1)
    ensures "r" in s'.results && s'.results["r"] == d
  {
    hide Goes, Step, PrunedDir, StepCrash;
    LeadsRollbackPartial(s1, 0, PcOf(s1, 0).c, PcOf(s1, 0).cleanup, d);
    steps', s' := Next(Init(), steps, s1, true, 0, RollbackPartial(d));
    CrashFrees(s', 0);
    LeadsCrash(s', 0);
    steps', s' := Next(Init(), steps', s', true, 0, Crash);
  }

  lemma OnePasses(d: Dir)
    requires d == Dir(Results, Some(OneFile), Complete("r"))
    ensures PrunedDir(d, TwoFilesDir(Complete("r"))) && CompleteDir(d, "r")
  {
    TwoFilesValid();
    PrunedStillPasses(0, OneFile, TwoFiles);
  }

  // ----- a name used twice ----------------------------------------------------------------------------

  // From the empty store, with one name used again: agent 1 gives its lease up and is about to remove its
  // stage, which has gone; agent 2 makes a stage of the same name, and agent 1 removes that. The handle of
  // agent 2 is live, and has no directory.
  lemma ReusedNameLosesStage() returns (steps: Steps)
    ensures Run(Init(), steps).Some?
    ensures var s := Run(Init(), steps).value;
      HasHandle(PcOf(s, 2)) && PcOf(s, 2).h.root.Results? && PcOf(s, 2).h.id !in s.staging
  {
    hide Goes, Step, CanCommitNow, CompleteDir, CanBegin, GripOf, Reserves;
    var s, more, s1;
    steps, s := PublishesFirst(Init(), 0, "txn-1", "r");
    more, s1 := GivesUpSecond(s, 1, "txn-2", "r");
    Then(Init(), steps, s, more, s1, false);
    steps, s := steps + more, s1;
    assert CanBegin(s, 2, Results, "txn-2") by { NameFree(s, 2, "txn-2"); }
    more, s1 := Begins(s, 2, Results, "txn-2", false);
    Then(Init(), steps, s, more, s1, false);
    steps, s := steps + more, s1;
    steps, s := DropsOther(steps, s, PcOf(s, 1).h);
    Comes(Init(), steps, s);
  }

  lemma Comes(s: State, steps: Steps, s': State)
    requires Goes(s, steps, s', false)
    ensures Run(s, steps) == Some(s')
  {
  }

  lemma NameFree(s: State, a: Agent, id: TxId)
    requires s.lock.None? && PcOf(s, a) == Idle && ValidTransactionId(id) && id !in s.leases && id !in s.staging
    requires forall i | i in s.held :: i < s.nextInode
    ensures CanBegin(s, a, Results, id)
  {
  }

  // What the next agent starts from.
  ghost predicate Quiet(s: State) {
    s.lock.None? && s.leases == map[] && s.staging == map[] && s.held == map[]
  }

  // `begin` and `commit`, without a fault.
  lemma PublishesFirst(s: State, a: Agent, id: TxId, rid: ResultId) returns (steps: Steps, s': State)
    requires Quiet(s) && PcOf(s, a) == Idle && ValidTransactionId(id) && rid !in s.results
    ensures Goes(s, steps, s', false) && OthersWait(s, s', a) && Quiet(s') && PcOf(s', a) == Idle
    ensures rid in s'.results && CompleteDir(s'.results[rid], rid)
  {
    hide Goes, Step, ValidTransactionId;
    var h, more, s1 := Handle(Results, id, s.nextInode), [], s;
    NameFree(s, a, id);
    steps, s1 := Begins(s, a, Results, id, false);
    more, s' := Places(s1, a, h, rid, false);
    Then(s, steps, s1, more, s', false);
    steps := steps + more;
    assert CompleteDir(s'.results[rid], rid);
    hide CompleteDir;
    steps, s' := Settles(s, steps, s', a, CxFor(s1, h, rid), false);
    Emptied(s, s1.leases, s1.held, s1.staging, h);
  }

  lemma Emptied(s: State, leases: map<TxId, Inode>, held: map<Inode, Agent>, staging: map<TxId, Dir>, h: Handle)
    requires Quiet(s) && leases.Keys == {h.id} && held.Keys == {h.ino} && staging.Keys == {h.id}
    ensures leases - {h.id} == map[] && held - {h.ino} == map[] && staging - {h.id} == map[]
  {
  }

  lemma GivesUpSecond(s: State, a: Agent, id: TxId, rid: ResultId) returns (steps: Steps, s': State)
    requires Quiet(s) && PcOf(s, a) == Idle && ValidTransactionId(id)
    requires rid in s.results && CompleteDir(s.results[rid], rid)
    ensures Goes(s, steps, s', false) && OthersWait(s, s', a) && Quiet(s')
    ensures PcOf(s', a).DropWait? && !PcOf(s', a).leased && PcOf(s', a).h.root.Results? && PcOf(s', a).h.id == id
  {
    hide Goes, Step, CompleteDir, ValidTransactionId;
    var h, more, s1 := Handle(Results, id, s.nextInode), [], s;
    NameFree(s, a, id);
    steps, s1 := Begins(s, a, Results, id, false);
    more, s' := GivesUp(s1, a, h, rid, false);
    Then(s, steps, s1, more, s', false);
    steps := steps + more;
    Emptied(s, s1.leases, s1.held, s1.staging, h);
  }

  lemma DropsOther(steps: Steps, s: State, h: Handle) returns (steps': Steps, s': State)
    requires Goes(Init(), steps, s, false) && PcOf(s, 1) == DropWait(h, false) && s.lock.None? && h.root.Results?
    requires h.id in s.staging
    ensures Goes(Init(), steps', s', false) && PcOf(s', 2) == PcOf(s, 2) && h.id !in s'.staging
  {
    hide Goes, Step;
    LeadsDropLock(s, 1, h, false, true);
    steps', s' := Next(Init(), steps, s, false, 1, LockStore(true));
    LeadsWipe(s', 1, h, ForDrop(false), true);
    steps', s' := Next(Init(), steps', s', false, 1, WipeAll(true));
  }
}