// Every allowed step keeps the invariant.
module StorePreservation {
  import opened Prelude
  import opened TransactionIds
  import opened StoreState
  import opened StoreInvariant

  // What one step of agent `a` leaves alone, as the other agents need it.
  ghost predicate Rely(s: State, s': State, a: Agent) {
    && (forall b: Agent :: b != a ==> PcOf(s', b) == PcOf(s, b))
    && (forall i | i in s.held && s.held[i] != a :: i in s'.held && s'.held[i] == s.held[i])
    && (forall i | i in s'.held && s'.held[i] != a :: i in s.held && s'.held[i] == s.held[i])
    && (forall i | i in s.held && i !in s'.held && s.lock != Some(a) :: i in s'.abandoned)
    && s.abandoned <= s'.abandoned
    && (forall i | i in s'.abandoned && i !in s.abandoned :: i in s.held && s.held[i] == a)
    && s.nextInode <= s'.nextInode
    && (forall id | id in s.leases && s.leases[id] in s.held && s.held[s.leases[id]] != a ::
          && id in s'.leases && s'.leases[id] == s.leases[id]
          && (id in s.staging ==> id in s'.staging && s'.staging[id] == s.staging[id])
          && (id in s.sources ==> id in s'.sources && s'.sources[id] == s.sources[id]))
    && (s.lock.Some? && s.lock != Some(a) ==>
          && s'.leases == s.leases && s'.results == s.results && s'.tainted == s.tainted
          && s'.log == s.log && s'.staging.Keys == s.staging.Keys && s'.sources.Keys == s.sources.Keys
          && (forall i | i in s'.held :: i in s.held))
  }

  // A directory the step makes has a name no other agent counts on being unused.
  ghost predicate Unreused(s: State, s': State, a: Agent) {
    forall root, id, b: Agent | b != a && id in Dirs(s', root) && id !in Dirs(s, root) ::
      !Reserves(GripOf(PcOf(s, b)), root, id)
  }

  ghost predicate Recovering(pc: Pc) {
    Reclaims(pc) || pc.Scan? || pc.Orphans? || pc.RecoverEnd?
  }

  // The facts of a recovery bound what it has still to look at.
  lemma RecoveryFactsKeep(s: State, s': State, a: Agent, b: Agent)
    requires Rely(s, s', a) && b != a && s.lock == Some(b)
    requires Recovering(PcOf(s, b)) && Facts(s, PcOf(s, b))
    ensures Facts(s', PcOf(s, b))
  {
    hide CompleteDir, Holder, PublishedBy;
    assert forall root :: Dirs(s', root).Keys == Dirs(s, root).Keys;
  }

  lemma CommitFactsKeep(s: State, s': State, a: Agent, b: Agent)
    requires Rely(s, s', a) && b != a && s.lock == Some(b)
    requires AgentInv(s, b, PcOf(s, b)) && !Recovering(PcOf(s, b))
    ensures Facts(s', PcOf(s, b))
  {
    var pc := PcOf(s, b);
    var g := GripOf(pc);
    if g.Grip? && g.held && g.linked && g.dir.Here? && g.h.root.Results? {
      assert g.h.id in s'.staging && s'.staging[g.h.id] == s.staging[g.h.id];
    }
  }

  lemma FactsKeep(s: State, s': State, a: Agent, b: Agent)
    requires Rely(s, s', a) && b != a
    requires LockInv(s) && HeldInv(s) && AgentInv(s, a, PcOf(s, a)) && AgentInv(s, b, PcOf(s, b))
    ensures Facts(s', PcOf(s, b))
  {
    if s.lock == Some(b) {
      if Recovering(PcOf(s, b)) { RecoveryFactsKeep(s, s', a, b); } else { CommitFactsKeep(s, s', a, b); }
    } else {
      assert !GripOf(PcOf(s, b)).lock;
    }
  }

  lemma OthersKeep(s: State, s': State, a: Agent, b: Agent)
    requires Rely(s, s', a) && Unreused(s, s', a) && b != a
    requires LockInv(s) && HeldInv(s) && AgentInv(s, a, PcOf(s, a)) && AgentInv(s, b, PcOf(s, b))
    ensures AgentInv(s', b, PcOf(s', b))
  {
    hide Facts;
    FactsKeep(s, s', a, b);
    var pc := PcOf(s, b);
    assert GripOf(pc).lock <==> s.lock == Some(b);
  }

  // What a step must establish about the shared state, its agent's facts apart.
  ghost predicate Local(s: State, s': State, a: Agent) {
    && (s'.lock == s.lock || (s.lock == None && s'.lock == Some(a)) || (s.lock == Some(a) && s'.lock == None))
    && (GripOf(PcOf(s', a)).lock <==> s'.lock == Some(a))
    && HoldsOnly(s', a)
    && LeaseInv(s') && DirInv(s')
  }

  ghost predicate HoldsOnly(s: State, a: Agent) {
    forall i | i in s.held && s.held[i] == a :: HoldsIno(GripOf(PcOf(s, a)), i)
  }

  ghost predicate Good(s: State, s': State, a: Agent) {
    Rely(s, s', a) && Unreused(s, s', a) && Local(s, s', a)
  }

  lemma Assemble(s: State, s': State, a: Agent)
    requires Inv(s) && Good(s, s', a) && ResultInv(s') && AgentInv(s', a, PcOf(s', a))
    ensures Inv(s')
  {
    hide ResultInv, LeaseInv, DirInv, GripInv, Facts;
    forall b: Agent ensures AgentInv(s', b, PcOf(s', b)) {
      if b != a { OthersKeep(s, s', a, b); }
    }
    assert LockInv(s') by {
      forall b: Agent ensures GripOf(PcOf(s', b)).lock <==> s'.lock == Some(b) {
        assert GripOf(PcOf(s, b)).lock <==> s.lock == Some(b);
      }
    }
    assert HeldInv(s');
  }

  // The part of the invariant the kinds of change below start from.
  ghost predicate Own(s: State, a: Agent) {
    LeaseInv(s) && DirInv(s) && (GripOf(PcOf(s, a)).lock <==> s.lock == Some(a)) && HoldsOnly(s, a)
  }

  function Holds(g: Grip): Option<Inode> { if g.Grip? && g.held then Some(g.h.ino) else None }

  // The step from the agent's program counter to `pc` changes neither lock.
  ghost predicate SameLease(s: State, a: Agent, pc: Pc) { Holds(GripOf(pc)) == Holds(GripOf(PcOf(s, a))) }

  ghost predicate SameGrip(s: State, a: Agent, pc: Pc) {
    GripOf(pc).lock == GripOf(PcOf(s, a)).lock && SameLease(s, a, pc)
  }

  // `h` is the agent's, locked and linked.
  ghost predicate Leases(s: State, a: Agent, h: Handle) {
    h.ino in s.held && s.held[h.ino] == a && h.id in s.leases && s.leases[h.id] == h.ino
  }

  // ----- one lemma for each kind of change a step makes ------------------------------

  lemma PcGood(s: State, a: Agent, pc: Pc)
    requires Own(s, a) && SameGrip(s, a, pc)
    ensures Good(s, Goto(s, a, pc), a)
  {
    hide ValidTransactionId;
  }

  lemma LockGood(s: State, a: Agent, pc: Pc)
    requires Own(s, a) && s.lock.None? && GripOf(pc).lock && SameLease(s, a, pc)
    ensures Good(s, Goto(s.(lock := Some(a)), a, pc), a)
  {
    hide ValidTransactionId;
  }

  lemma UnlockGood(s: State, a: Agent, pc: Pc, log: seq<Event>)
    requires Own(s, a) && s.lock == Some(a) && !GripOf(pc).lock && SameLease(s, a, pc)
    ensures Good(s, Goto(s.(lock := None, log := log), a, pc), a)
  {
    hide ValidTransactionId;
  }

  lemma HoldGood(s: State, a: Agent, h: Handle, pc: Pc)
    requires Own(s, a) && s.lock == Some(a) && GripOf(pc).lock && Holds(GripOf(PcOf(s, a))).None?
    requires h.ino !in s.held && h.ino < s.nextInode && HoldsIno(GripOf(pc), h.ino)
    ensures Good(s, Goto(s.(held := s.held[h.ino := a]), a, pc), a)
  {
    hide Rely, Own, Holds, HoldsIno, GripOf;
    HoldRely(s, a, h, pc);
    HoldLocal(s, a, h, pc);
  }

  lemma HoldRely(s: State, a: Agent, h: Handle, pc: Pc)
    requires s.lock == Some(a) && h.ino !in s.held
    ensures Rely(s, Goto(s.(held := s.held[h.ino := a]), a, pc), a)
  {
  }

  lemma HoldLocal(s: State, a: Agent, h: Handle, pc: Pc)
    requires Own(s, a) && s.lock == Some(a) && GripOf(pc).lock && Holds(GripOf(PcOf(s, a))).None?
    requires h.ino !in s.held && h.ino < s.nextInode && HoldsIno(GripOf(pc), h.ino)
    ensures Local(s, Goto(s.(held := s.held[h.ino := a]), a, pc), a)
  {
    hide ValidTransactionId;
  }

  lemma CloseGood(s: State, a: Agent, h: Handle, pc: Pc)
    requires Own(s, a) && s.lock == Some(a) && GripOf(pc).lock && HoldsIno(GripOf(PcOf(s, a)), h.ino)
    requires h.ino in s.held && s.held[h.ino] == a && Holds(GripOf(pc)).None?
    ensures Good(s, Goto(Closed(s, h), a, pc), a)
  {
    hide ValidTransactionId;
  }

  lemma AbandonGood(s: State, a: Agent, h: Handle)
    requires Own(s, a) && HoldsIno(GripOf(PcOf(s, a)), h.ino) && h.ino in s.held && s.held[h.ino] == a
    ensures var s' := Goto(Closed(s, h).(lock := if s.lock == Some(a) then None else s.lock,
                                         abandoned := s.abandoned + {h.ino}), a, Idle);
            Good(s, s', a)
  {
    hide ValidTransactionId;
  }

  // The directory of the agent's own id changes, appears or goes.
  ghost predicate OnlyOwnDir(s: State, h: Handle, dirs: map<TxId, Dir>) {
    forall id | id != h.id ::
      (id in dirs <==> id in Dirs(s, h.root)) && (id in dirs ==> dirs[id] == Dirs(s, h.root)[id])
  }

  lemma OwnDirRely(s: State, a: Agent, h: Handle, dirs: map<TxId, Dir>, pc: Pc)
    requires Leases(s, a, h) && OnlyOwnDir(s, h, dirs)
    requires s.lock == Some(a) || dirs.Keys == Dirs(s, h.root).Keys
    ensures Rely(s, Goto(SetDirs(s, h.root, dirs), a, pc), a)
  {
    if h.root.Results? { assert SetDirs(s, h.root, dirs) == s.(staging := dirs); }
  }

  lemma OwnDirUnreused(s: State, a: Agent, h: Handle, dirs: map<TxId, Dir>, pc: Pc)
    requires OnlyOwnDir(s, h, dirs)
    requires h.id in dirs && h.id !in Dirs(s, h.root) ==>
      forall b: Agent :: b != a ==> !Reserves(GripOf(PcOf(s, b)), h.root, h.id)
    ensures Unreused(s, Goto(SetDirs(s, h.root, dirs), a, pc), a)
  {
    hide GripOf, PcOf;
  }

  lemma OwnDirGood(s: State, a: Agent, h: Handle, dirs: map<TxId, Dir>, pc: Pc)
    requires Own(s, a) && SameGrip(s, a, pc)
    requires Leases(s, a, h) && OnlyOwnDir(s, h, dirs)
    requires s.lock == Some(a) || dirs.Keys == Dirs(s, h.root).Keys
    requires h.id in dirs ==> dirs[h.id].born == h.root
    requires h.id in dirs && h.id !in Dirs(s, h.root) ==>
      forall b: Agent :: b != a ==> !Reserves(GripOf(PcOf(s, b)), h.root, h.id)
    ensures Good(s, Goto(SetDirs(s, h.root, dirs), a, pc), a)
  {
    hide Rely, Unreused, Local, Own, OnlyOwnDir;
    OwnDirRely(s, a, h, dirs, pc);
    OwnDirUnreused(s, a, h, dirs, pc);
    OwnDirLocal(s, a, h, dirs, pc);
  }

  lemma OwnDirLocal(s: State, a: Agent, h: Handle, dirs: map<TxId, Dir>, pc: Pc)
    requires Own(s, a) && SameGrip(s, a, pc)
    requires Leases(s, a, h) && OnlyOwnDir(s, h, dirs)
    requires h.id in dirs ==> dirs[h.id].born == h.root
    ensures Local(s, Goto(SetDirs(s, h.root, dirs), a, pc), a)
  {
    hide ValidTransactionId, DirInv, OnlyOwnDir, Leases;
    OwnDirBorn(s, a, h, dirs, pc);
  }

  lemma OwnDirBorn(s: State, a: Agent, h: Handle, dirs: map<TxId, Dir>, pc: Pc)
    requires DirInv(s) && OnlyOwnDir(s, h, dirs)
    requires h.id in dirs ==> dirs[h.id].born == h.root
    ensures DirInv(Goto(SetDirs(s, h.root, dirs), a, pc))
  {
    if h.root.Results? { assert SetDirs(s, h.root, dirs) == s.(staging := dirs); }
  }

  lemma NewLeaseGood(s: State, a: Agent, id: TxId, pc: Pc)
    requires Own(s, a) && s.lock == Some(a) && SameGrip(s, a, pc)
    requires id !in s.leases && ValidTransactionId(id)
    ensures Good(s, Goto(s.(leases := s.leases[id := s.nextInode], nextInode := s.nextInode + 1), a, pc), a)
  {
    hide ValidTransactionId;
  }

  lemma UnlinkGood(s: State, a: Agent, h: Handle, pc: Pc)
    requires Own(s, a) && s.lock == Some(a) && SameGrip(s, a, pc)
    requires Leases(s, a, h)
    ensures Good(s, Goto(s.(leases := s.leases - {h.id}), a, pc), a)
  {
    hide ValidTransactionId;
  }

  // A change to the results or to the history.
  lemma ResultsGood(s: State, a: Agent, results: map<ResultId, Dir>,
                    tainted: set<ResultId>, log: seq<Event>, pc: Pc)
    requires Own(s, a) && s.lock == Some(a) && SameGrip(s, a, pc)
    ensures Good(s, Goto(s.(results := results, tainted := tainted, log := log), a, pc), a)
  {
    hide ValidTransactionId;
  }

  // The rename out of the staging root.
  lemma PublishGood(s: State, a: Agent, h: Handle, results: map<ResultId, Dir>, log: seq<Event>, pc: Pc)
    requires Own(s, a) && s.lock == Some(a) && SameGrip(s, a, pc)
    requires Leases(s, a, h)
    ensures Good(s, Goto(s.(staging := s.staging - {h.id}, results := results, log := log), a, pc), a)
  {
    hide ValidTransactionId;
  }

  // What a step of `a` may assume, and what it must bring.
  ghost predicate Mine(s: State, a: Agent) { Own(s, a) && AgentInv(s, a, PcOf(s, a)) }

  ghost predicate Carries(s: State, s': State, a: Agent) {
    Good(s, s', a) && AgentInv(s', a, PcOf(s', a))
  }
}
