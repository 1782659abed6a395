// That names are not used twice: what the hypotheses about the names of stages come to, when no two
// leases are created for the same process, time and count.
module StoreNames {
  import opened Prelude
  import opened TransactionIds
  import opened StoreCalls
  import opened StoreState
  import opened StoreInvariant
  import opened StoreRuns
  import opened StoreLeases
  import opened StoreRecovery

  // A name and the staging root it was made for. The inode of its lease file is its place in the list.
  type Made = (TxId, Root)

  // The lease the step creates, if it does.
  function Creates(s: State, a: Agent, op: Op): seq<Made> {
    match (PcOf(s, a), op)
    case (BeginTry(root, _), CreateLease(id, creation)) =>
      if id in s.leases || creation.NotCreated? then [] else [(id, root)]
    case _ => []
  }

  // The leases a run creates, in order.
  function Creations(s: State, steps: seq<(Agent, Op)>): seq<Made>
    decreases |steps|
  {
    if steps == [] then []
    else
      Creates(s, steps[0].0, steps[0].1) +
      match Step(s, steps[0].0, steps[0].1)
      case None => []
      case Some(s1) => Creations(s1, steps[1..])
  }

  ghost predicate Distinct(made: seq<Made>) {
    forall i, j | 0 <= i < |made| && 0 <= j < |made| && made[i].0 == made[j].0 :: i == j
  }

  // The handle an agent made itself: a recovery works on those of others.
  ghost function HandleOf(pc: Pc): Option<Handle> {
    if GripOf(pc).Grip? && !Reclaims(pc) then Some(GripOf(pc).h) else None
  }

  ghost predicate Named(made: seq<Made>, s: State) {
    && |made| == s.nextInode
    && (forall a: Agent | HandleOf(PcOf(s, a)).Some? ::
          var h := HandleOf(PcOf(s, a)).value; h.ino < |made| && made[h.ino] == (h.id, h.root))
    && (forall a: Agent, b: Agent | a != b && HandleOf(PcOf(s, a)).Some? && HandleOf(PcOf(s, b)).Some? ::
          HandleOf(PcOf(s, a)).value.ino != HandleOf(PcOf(s, b)).value.ino)
    && (forall root, id | id in Dirs(s, root) :: (id, root) in made)
  }

  // ----- handles come from creations ---------------------------------------------------------------

  ghost predicate KeepsHandle(pc: Pc, pc': Pc) { HandleOf(pc').None? || HandleOf(pc') == HandleOf(pc) }

  lemma CreateHandle(s: State, a: Agent, id: TxId, creation: Creation)
    requires StepBegin(s, a, CreateLease(id, creation)).Some?
    ensures var s', made := StepBegin(s, a, CreateLease(id, creation)).value, Creates(s, a, CreateLease(id, creation));
      if made == [] then s'.nextInode == s.nextInode && KeepsHandle(PcOf(s, a), PcOf(s', a))
      else HandleOf(PcOf(s', a)).Some? ==> HandleOf(PcOf(s', a)).value == Handle(made[0].1, made[0].0, s.nextInode)
  {
    hide ValidTransactionId;
  }

  lemma BeginHandle(s: State, a: Agent, op: Op)
    requires Step(s, a, op).Some? && Step(s, a, op) == StepBegin(s, a, op) && !op.CreateLease?
    ensures KeepsHandle(PcOf(s, a), PcOf(Step(s, a, op).value, a))
  {
    hide Step, StepBegin, StepLive, StepCommit, StepRollback, StepWipe, StepRelease, StepRecover, PcOf, CompleteDir,
      ValidTransactionId, Holder, PublishedBy;
    BeginAt(s, a, op);
    BeginGoes(s, a, op);
  }

  lemma LiveHandle(s: State, a: Agent, op: Op)
    requires Step(s, a, op).Some? && Step(s, a, op) == StepLive(s, a, op)
    ensures KeepsHandle(PcOf(s, a), PcOf(Step(s, a, op).value, a))
  {
    hide Step, StepBegin, StepLive, StepCommit, StepRollback, StepWipe, StepRelease, StepRecover, PcOf, CompleteDir,
      ValidTransactionId, Holder, PublishedBy;
    LiveAt(s, a, op);
    LiveGoes(s, a, op);
  }

  lemma CommitHandle(s: State, a: Agent, op: Op)
    requires Step(s, a, op).Some? && Step(s, a, op) == StepCommit(s, a, op)
    ensures KeepsHandle(PcOf(s, a), PcOf(Step(s, a, op).value, a))
  {
    hide Step, StepBegin, StepLive, StepCommit, StepRollback, StepWipe, StepRelease, StepRecover, PcOf, CompleteDir,
      ValidTransactionId, Holder, PublishedBy;
    CommitAt(s, a, op);
    CommitGoes(s, a, op);
  }

  lemma RollbackHandle(s: State, a: Agent, op: Op)
    requires Step(s, a, op).Some? && Step(s, a, op) == StepRollback(s, a, op)
    ensures KeepsHandle(PcOf(s, a), PcOf(Step(s, a, op).value, a))
  {
    hide Step, StepBegin, StepLive, StepCommit, StepRollback, StepWipe, StepRelease, StepRecover, PcOf, CompleteDir,
      ValidTransactionId, Holder, PublishedBy;
    RollbackAt(s, a, op);
    RollbackGoes(s, a, op);
  }

  lemma WipeHandle(s: State, a: Agent, op: Op)
    requires Step(s, a, op).Some? && Step(s, a, op) == StepWipe(s, a, op) && Facts(s, PcOf(s, a))
    ensures KeepsHandle(PcOf(s, a), PcOf(Step(s, a, op).value, a))
  {
    hide Step, StepBegin, StepLive, StepCommit, StepRollback, StepWipe, StepRelease, StepRecover, PcOf, CompleteDir,
      ValidTransactionId, Holder, PublishedBy;
    WipeAt(s, a, op);
    WipeGoes(s, a, op);
  }

  lemma ReleaseHandle(s: State, a: Agent, op: Op)
    requires Step(s, a, op).Some? && Step(s, a, op) == StepRelease(s, a, op) && Facts(s, PcOf(s, a))
    ensures KeepsHandle(PcOf(s, a), PcOf(Step(s, a, op).value, a))
  {
    hide Step, StepBegin, StepLive, StepCommit, StepRollback, StepWipe, StepRelease, StepRecover, PcOf, CompleteDir,
      ValidTransactionId, Holder, PublishedBy;
    ReleaseAt(s, a, op);
    ReleaseGoes(s, a, op);
  }

  lemma RecoverHandle(s: State, a: Agent, op: Op)
    requires Step(s, a, op).Some? && Step(s, a, op) == StepRecover(s, a, op)
    ensures KeepsHandle(PcOf(s, a), PcOf(Step(s, a, op).value, a))
  {
    hide Step, StepBegin, StepLive, StepCommit, StepRollback, StepWipe, StepRelease, StepRecover, PcOf, CompleteDir,
      ValidTransactionId, Holder, PublishedBy;
    RecoverAt(s, a, op);
    RecoverGoes(s, a, op);
  }

  lemma RestHandle(s: State, a: Agent, op: Op)
    requires Step(s, a, op).Some? && (op.Unlocked? || op.Get? || op.Crash?)
    ensures KeepsHandle(PcOf(s, a), PcOf(Step(s, a, op).value, a))
  {
    hide StepBegin, StepLive, StepCommit, StepRollback, StepWipe, StepRelease, StepRecover, StepUnlocked, StepGet,
         StepCrash, KeepsHandle;
    if op.Unlocked? { ReturnHandle(s, a); } else if op.Get? { GetHandle(s, a, op.rid); } else { CrashHandle(s, a); }
  }

  lemma ReturnHandle(s: State, a: Agent)
    requires StepUnlocked(s, a).Some?
    ensures KeepsHandle(PcOf(s, a), PcOf(StepUnlocked(s, a).value, a))
  {
  }

  lemma GetHandle(s: State, a: Agent, rid: ResultId)
    requires StepGet(s, a, rid).Some?
    ensures KeepsHandle(PcOf(s, a), PcOf(StepGet(s, a, rid).value, a))
  {
    hide CompleteDir;
  }

  lemma CrashHandle(s: State, a: Agent)
    ensures KeepsHandle(PcOf(s, a), PcOf(StepCrash(s, a), a))
  {
  }

  lemma StepHandle(s: State, a: Agent, op: Op)
    requires Step(s, a, op).Some? && Facts(s, PcOf(s, a)) && !op.CreateLease?
    ensures KeepsHandle(PcOf(s, a), PcOf(Step(s, a, op).value, a)) && Creates(s, a, op) == []
  {
    hide KeepsHandle, Facts, StepBegin, StepLive, StepCommit, StepRollback, StepWipe, StepRelease, StepRecover,
         StepUnlocked, StepGet, StepCrash;
    if Step(s, a, op) == StepBegin(s, a, op) { BeginHandle(s, a, op); }
    else if Step(s, a, op) == StepLive(s, a, op) { LiveHandle(s, a, op); }
    else if Step(s, a, op) == StepCommit(s, a, op) { CommitHandle(s, a, op); }
    else if Step(s, a, op) == StepRollback(s, a, op) { RollbackHandle(s, a, op); }
    else if Step(s, a, op) == StepWipe(s, a, op) { WipeHandle(s, a, op); }
    else if Step(s, a, op) == StepRelease(s, a, op) { ReleaseHandle(s, a, op); }
    else if Step(s, a, op) == StepRecover(s, a, op) { RecoverHandle(s, a, op); }
    else { RestHandle(s, a, op); }
  }

  // ----- every step ----------------------------------------------------------------------------------

  lemma OthersNamed(made: seq<Made>, s: State, s': State, a: Agent)
    requires Named(made, s) && s'.nextInode == s.nextInode && KeepsHandle(PcOf(s, a), PcOf(s', a))
    requires forall b: Agent | b != a :: PcOf(s', b) == PcOf(s, b)
    requires forall root, id | id in Dirs(s', root) :: (id, root) in made
    ensures Named(made, s')
  {
    hide HandleOf, PcOf, Dirs;
  }

  lemma CreateNamed(made: seq<Made>, s: State, s': State, a: Agent, e: Made)
    requires Named(made, s) && s'.nextInode == s.nextInode + 1
    requires HandleOf(PcOf(s', a)).Some? ==> HandleOf(PcOf(s', a)).value == Handle(e.1, e.0, s.nextInode)
    requires forall b: Agent | b != a :: PcOf(s', b) == PcOf(s, b)
    requires forall root :: Dirs(s', root) == Dirs(s, root)
    ensures Named(made + [e], s')
  {
    hide HandleOf, PcOf, Dirs;
  }

  lemma StageNamed(made: seq<Made>, s: State, a: Agent)
    requires Named(made, s) && Step(s, a, MakeStage(true)).Some?
    ensures forall root, id | id in Dirs(Step(s, a, MakeStage(true)).value, root) :: (id, root) in made
  {
    hide Step;
    MakeStageNames(s, a);
    var h := PcOf(s, a).h;
    assert HandleOf(PcOf(s, a)) == Some(h);
    assert made[h.ino] == (h.id, h.root);
  }

  lemma NoneNamed(made: seq<Made>, s: State, a: Agent, op: Op)
    requires Named(made, s) && Step(s, a, op).Some? && op != MakeStage(true)
    ensures forall root, id | id in Dirs(Step(s, a, op).value, root) :: (id, root) in made
  {
    hide Step, HandleOf;
    NoneAppear(s, a, op);
    var s' := Step(s, a, op).value;
    forall root, id | id in Dirs(s', root) ensures (id, root) in made { assert id in Dirs(s, root); }
  }

  lemma StepNamed(made: seq<Made>, s: State, a: Agent, op: Op)
    requires Named(made, s) && Inv(s) && Allowed(s, a, op)
    ensures Named(made + Creates(s, a, op), Step(s, a, op).value)
  {
    hide Named, Inv, Step, HandleOf, KeepsHandle, FreshName, Creates, Facts;
    var s' := Step(s, a, op).value;
    forall b: Agent | b != a ensures PcOf(s', b) == PcOf(s, b) { OthersStay(s, b, a, op); }
    hide PcOf;
    if op.CreateLease? {
      CreateStepNamed(made, s, a, op.id, op.creation);
    } else {
      OwnFacts(s, a);
      PlainStepNamed(made, s, a, op);
      assert made + [] == made;
    }
  }

  lemma PlainStepNamed(made: seq<Made>, s: State, a: Agent, op: Op)
    requires Named(made, s) && Facts(s, PcOf(s, a)) && Step(s, a, op).Some? && !op.CreateLease?
    requires forall b: Agent | b != a :: PcOf(Step(s, a, op).value, b) == PcOf(s, b)
    ensures Named(made, Step(s, a, op).value) && Creates(s, a, op) == []
  {
    hide Named, Step, HandleOf, KeepsHandle, Creates, Facts;
    if op == MakeStage(true) {
      MakeStageNames(s, a);
      StageNamed(made, s, a);
    } else {
      NoneAppear(s, a, op);
      NoneNamed(made, s, a, op);
    }
    StepHandle(s, a, op);
    OthersNamed(made, s, Step(s, a, op).value, a);
  }

  lemma OwnFacts(s: State, a: Agent)
    requires Inv(s)
    ensures Facts(s, PcOf(s, a))
  {
    assert AgentInv(s, a, PcOf(s, a));
  }

  lemma CreateStepNamed(made: seq<Made>, s: State, a: Agent, id: TxId, creation: Creation)
    requires Named(made, s) && Step(s, a, CreateLease(id, creation)).Some?
    requires forall b: Agent | b != a :: PcOf(Step(s, a, CreateLease(id, creation)).value, b) == PcOf(s, b)
    ensures Named(made + Creates(s, a, CreateLease(id, creation)), Step(s, a, CreateLease(id, creation)).value)
  {
    hide Named, StepBegin, HandleOf, KeepsHandle, Creates, PcOf;
    var s', e := Step(s, a, CreateLease(id, creation)).value, Creates(s, a, CreateLease(id, creation));
    CreateNames(s, a, id, creation);
    CreateHandle(s, a, id, creation);
    assert forall root :: Dirs(s', root) == Dirs(s, root);
    if e == [] {
      NoneNamed(made, s, a, CreateLease(id, creation));
      assert made + [] == made;
      OthersNamed(made, s, s', a);
    } else {
      CreateCounts(s, a, id, creation);
      assert e == [e[0]];
      CreateNamed(made, s, s', a, e[0]);
    }
  }

  lemma CreateCounts(s: State, a: Agent, id: TxId, creation: Creation)
    requires StepBegin(s, a, CreateLease(id, creation)).Some? && Creates(s, a, CreateLease(id, creation)) != []
    ensures |Creates(s, a, CreateLease(id, creation))| == 1
    ensures StepBegin(s, a, CreateLease(id, creation)).value.nextInode == s.nextInode + 1
  {
    hide ValidTransactionId;
  }

  // Where every name was made once, a stage takes no name that anybody counts on or that is left over.
  lemma DistinctNamesAreFresh(made: seq<Made>, s: State, a: Agent, op: Op)
    requires Named(made, s) && Distinct(made)
    ensures FreshName(s, a, op) && NewName(s, a, op)
  {
    match PcOf(s, a) {
      case BeginLeased(n, h) =>
        assert HandleOf(PcOf(s, a)) == Some(h);
        forall b: Agent | b != a ensures !Reserves(GripOf(PcOf(s, b)), h.root, h.id) { NotReserved(made, s, a, b, h); }
        OnlyItsRoot(made, s, h);
      case _ =>
    }
  }

  lemma NotReserved(made: seq<Made>, s: State, a: Agent, b: Agent, h: Handle)
    requires Named(made, s) && Distinct(made) && a != b && HandleOf(PcOf(s, a)) == Some(h)
    ensures !Reserves(GripOf(PcOf(s, b)), h.root, h.id)
  {
    OwnHandle(PcOf(s, b));
    hide GripOf, Reclaims;
  }

  lemma OwnHandle(pc: Pc)
    ensures GripOf(pc).Grip? && GripOf(pc).dir.Gone? ==> HandleOf(pc) == Some(GripOf(pc).h)
  {
  }

  lemma OnlyItsRoot(made: seq<Made>, s: State, h: Handle)
    requires Distinct(made) && h.ino < |made| && made[h.ino] == (h.id, h.root)
    requires forall root, id | id in Dirs(s, root) :: (id, root) in made
    ensures h.id in Dirs(s, h.root) || Absent(s, h.id)
  {
    var other := if h.root.Results? then Sources else Results;
    assert h.id in Dirs(s, other) ==> (h.id, other) in made;
    assert forall k | 0 <= k < |made| && made[k].0 == h.id :: k == h.ino;
  }

  // ----- every run --------------------------------------------------------------------------------------

  // Of which process, time and count an id is made.
  datatype Stamp = Stamp(pid: nat, nanos: nat, counter: nat)

  function IdOf(stamp: Stamp): TxId { TransactionId(stamp.pid, stamp.nanos, stamp.counter) }

  // When no two leases are created for the same process, time and count, both hypotheses about names hold
  // of the whole run.
  lemma DistinctStampsSuffice(steps: seq<(Agent, Op)>, stamps: seq<Stamp>)
    requires Run(Init(), steps).Some?
    requires |stamps| == |Creations(Init(), steps)|
    requires forall i | 0 <= i < |stamps| :: Creations(Init(), steps)[i].0 == IdOf(stamps[i])
    requires forall i, j | 0 <= i < j < |stamps| :: stamps[i] != stamps[j]
    ensures AllowedRun(Init(), steps) && NewNames(Init(), steps)
  {
    hide Run, AllowedRun, NewNames, Creations, IdOf;
    var made := Creations(Init(), steps);
    forall i, j | 0 <= i < |made| && 0 <= j < |made| && made[i].0 == made[j].0 ensures i == j {
      assert made[i].0 == IdOf(stamps[i]) && made[j].0 == IdOf(stamps[j]);
      StampOf(stamps[i], stamps[j]);
    }
    StartsWell();
    StartsNamed();
    assert [] + made == made;
    FreshFrom(Init(), steps, []);
  }

  lemma StampOf(x: Stamp, y: Stamp)
    requires IdOf(x) == IdOf(y)
    ensures x == y
  {
    hide TransactionId;
    TransactionIdInjective(x.pid, x.nanos, x.counter, y.pid, y.nanos, y.counter);
  }

  lemma StartsNamed()
    ensures Named([], Init())
  {
  }

  lemma {:induction false} FreshFrom(s: State, steps: seq<(Agent, Op)>, made: seq<Made>)
    requires Inv(s) && Named(made, s) && Run(s, steps).Some? && Distinct(made + Creations(s, steps))
    ensures AllowedRun(s, steps) && NewNames(s, steps)
    decreases |steps|
  {
    hide Inv, Named, Step, FreshName, NewName, Creates;
    if steps != [] {
      var (a, op) := steps[0];
      var s1, all := Step(s, a, op).value, made + Creations(s, steps);
      assert made == all[..|made|];
      assert Distinct(made);
      DistinctNamesAreFresh(made, s, a, op);
      StepKeeps(s, a, op);
      StepNamed(made, s, a, op);
      assert made + Creates(s, a, op) + Creations(s1, steps[1..]) == all;
      FreshFrom(s1, steps[1..], made + Creates(s, a, op));
    }
  }
}
