// The content-addressed source cache as a state machine over filesystem micro-steps:
// a blob is written to a part file in a leased stage, linked under its digest, and
// then loses the part's name. A crash or a fault may come between any two steps.
module SourceCache {
  import opened Prelude
  import opened Bytes

  type Agent = nat
  type Inode = nat
  type StageId = nat
  type Digest = Str

  const MaxCacheBytes: nat := 0x400_0000

  // What a call of `cache_source_blob` works on, once its copied bytes have passed the digest check.
  datatype Job = Job(stage: StageId, digest: Digest, bytes: Str, max: nat)

  datatype Pc =
    | Idle
    | Wanting(job: Job)
    | Checking(job: Job)
    | Creating(job: Job)
    | Writing(job: Job, ino: Inode)
    | Verifying(job: Job, ino: Inode)
    | Linking(job: Job, ino: Inode)
    | Cleaning(job: Job, ino: Inode, ok: bool)
    | Removing(stage: StageId)
    | Done(ok: bool, call: Option<Job>)

  datatype State = State(
    lock: Option<Agent>,
    stages: set<StageId>,
    owner: map<StageId, Agent>,       // stages whose lease is held
    parts: map<StageId, Inode>,       // `cache.part` in a stage
    cache: map<Digest, Inode>,        // the names in the cache directory
    content: map<Inode, Str>,
    nextInode: Inode,
    pcs: map<Agent, Pc>)

  datatype Op =
    | BeginStage(stage: StageId)
    | StartCache(job: Job)
    | LockStore
    | Check
    | CreatePart(ok: bool)
    | WritePart(ok: bool, n: nat)
    | VerifyPart(ok: bool)
    | Link(ok: bool)
    | RemovePart(ok: bool)
    | StartRemove(stage: StageId)     // a drop by the owner, or a recovery of an abandoned stage
    | RemoveDirectory(ok: bool)
    | Return
    | Crash

  function PcOf(s: State, a: Agent): Pc { if a in s.pcs then s.pcs[a] else Idle }

  function Goto(s: State, a: Agent, pc: Pc): State { s.(pcs := s.pcs[a := pc]) }

  // The number of names of a file.
  function Links(s: State, ino: Inode): nat {
    |set d | d in s.cache && s.cache[d] == ino| + |set st | st in s.parts && s.parts[st] == ino|
  }

  datatype ReadError = TooLarge | NotSingle | Corrupt

  // `read_cached_source_blob_locked`: fails on a file with a second name.
  function ReadBlob(s: State, d: Digest, max: nat, sha: Str -> Str): Result<Option<Str>, ReadError> {
    if d !in s.cache then Ok(None)
    else if Links(s, s.cache[d]) != 1 then Err(NotSingle)
    else
      var bytes := if s.cache[d] in s.content then s.content[s.cache[d]] else [];
      if max > MaxCacheBytes || |bytes| > max then Err(TooLarge)
      else if sha(bytes) != d then Err(Corrupt)
      else Ok(Some(bytes))
  }

  predicate Readable(s: State, job: Job, sha: Str -> Str) {
    ReadBlob(s, job.digest, job.max, sha).Ok? && ReadBlob(s, job.digest, job.max, sha).value.Some?
  }

  function StepCache(s: State, a: Agent, op: Op, sha: Str -> Str): Option<State> {
    match (PcOf(s, a), op)
    case (Idle, StartCache(job)) =>
      if job.stage in s.owner && s.owner[job.stage] == a
         && job.max <= MaxCacheBytes && |job.bytes| <= job.max && sha(job.bytes) == job.digest
      then Some(Goto(s, a, Wanting(job))) else None
    case (Wanting(job), LockStore) => if s.lock.None? then Some(Goto(s.(lock := Some(a)), a, Checking(job))) else None
    case (Checking(job), Check) =>
      Some(Goto(s, a, if job.digest in s.cache then Done(Readable(s, job, sha), Some(job)) else Creating(job)))
    case (Creating(job), CreatePart(ok)) =>
      if !ok || job.stage in s.parts then Some(Goto(s, a, Done(false, Some(job))))
      else Some(Goto(s.(parts := s.parts[job.stage := s.nextInode], content := s.content[s.nextInode := []],
                       nextInode := s.nextInode + 1), a, Writing(job, s.nextInode)))
    case (Writing(job, ino), WritePart(ok, n)) =>
      if ok then Some(Goto(s.(content := s.content[ino := job.bytes]), a, Verifying(job, ino)))
      else if n <= |job.bytes|
      then Some(Goto(s.(content := s.content[ino := job.bytes[..n]]), a, Cleaning(job, ino, false)))
      else None
    case (Verifying(job, ino), VerifyPart(ok)) =>
      Some(Goto(s, a, if ok && Links(s, ino) == 1 then Linking(job, ino) else Cleaning(job, ino, false)))
    case (Linking(job, ino), Link(ok)) =>
      if !ok then Some(Goto(s, a, Cleaning(job, ino, false)))
      else if job.digest in s.cache then Some(Goto(s, a, Cleaning(job, ino, Readable(s, job, sha))))
      else Some(Goto(s.(cache := s.cache[job.digest := ino]), a, Cleaning(job, ino, true)))
    case (Cleaning(job, ino, ok0), RemovePart(ok)) =>
      Some(Goto(if ok then s.(parts := s.parts - {job.stage}) else s, a, Done(ok0 && ok, Some(job))))
    case _ => None
  }

  function StepStage(s: State, a: Agent, op: Op): Option<State> {
    match (PcOf(s, a), op)
    case (Idle, BeginStage(st)) =>
      if st in s.stages || s.lock.Some? then None
      else Some(s.(stages := s.stages + {st}, owner := s.owner[st := a]))
    case (Idle, StartRemove(st)) =>
      if s.lock.None? && st in s.stages && (st in s.owner ==> s.owner[st] == a)
      then Some(Goto(s.(lock := Some(a)), a, Removing(st))) else None
    case (Removing(st), RemovePart(ok)) =>
      if st !in s.parts then None
      else if ok then Some(Goto(s.(parts := s.parts - {st}), a, Removing(st)))
      else Some(Goto(s, a, Done(false, None)))
    case (Removing(st), RemoveDirectory(ok)) =>
      if !ok then Some(Goto(s, a, Done(false, None)))
      else if st in s.parts then None
      else Some(Goto(s.(stages := s.stages - {st}, owner := s.owner - {st}), a, Done(true, None)))
    case (Done(_, _), Return) => Some(Goto(s.(lock := None), a, Idle))
    case _ => None
  }

  // The agent's locks go; nothing on disk changes.
  function StepCrash(s: State, a: Agent): State {
    Goto(s.(lock := if s.lock == Some(a) then None else s.lock,
            owner := map st | st in s.owner && s.owner[st] != a :: s.owner[st]), a, Idle)
  }

  function Step(s: State, a: Agent, op: Op, sha: Str -> Str): Option<State> {
    if op.Crash? then Some(StepCrash(s, a))
    else if StepStage(s, a, op).Some? then StepStage(s, a, op)
    else StepCache(s, a, op, sha)
  }

  function Init(): State { State(None, {}, map[], map[], map[], map[], 0, map[]) }

  function Run(s: State, steps: seq<(Agent, Op)>, sha: Str -> Str): Option<State>
    decreases |steps|
  {
    if steps == [] then Some(s)
    else
      match Step(s, steps[0].0, steps[0].1, sha)
      case None => None
      case Some(s1) => Run(s1, steps[1..], sha)
  }

  // ----- the invariant ------------------------------------------------------------------------

  predicate Critical(pc: Pc) { !pc.Idle? && !pc.Wanting? }

  function JobOf(pc: Pc): Option<Job> {
    match pc
    case Wanting(job) => Some(job)
    case Checking(job) => Some(job)
    case Creating(job) => Some(job)
    case Writing(job, _) => Some(job)
    case Verifying(job, _) => Some(job)
    case Linking(job, _) => Some(job)
    case Cleaning(job, _, _) => Some(job)
    case _ => None
  }

  // The part file of the job is this one, and the cache does not name it yet.
  ghost predicate OwnPart(s: State, job: Job, ino: Inode) {
    job.stage in s.parts && s.parts[job.stage] == ino && job.digest !in s.cache &&
    forall d | d in s.cache :: s.cache[d] != ino
  }

  ghost predicate AgentInv(s: State, a: Agent, pc: Pc, sha: Str -> Str) {
    && (Critical(pc) <==> s.lock == Some(a))
    && (JobOf(pc).Some? ==>
          var job := JobOf(pc).value;
          job.stage in s.owner && s.owner[job.stage] == a && sha(job.bytes) == job.digest && job.max <= MaxCacheBytes)
    && (match pc
        case Creating(job) => job.digest !in s.cache
        case Writing(job, ino) => OwnPart(s, job, ino)
        case Verifying(job, ino) => OwnPart(s, job, ino) && ino in s.content && s.content[ino] == job.bytes
        case Linking(job, ino) => OwnPart(s, job, ino) && ino in s.content && s.content[ino] == job.bytes
        case Cleaning(job, ino, ok) =>
          job.stage in s.parts && s.parts[job.stage] == ino && (ok ==> job.digest in s.cache)
        case Done(true, Some(job)) => job.digest in s.cache && sha(job.bytes) == job.digest
        case Removing(st) => st in s.stages && (st in s.owner ==> s.owner[st] == a)
        case _ => true)
  }

  // A name in the cache is a digest of the file it names, and no two names share a file.
  ghost predicate CacheInv(s: State, sha: Str -> Str) {
    && (forall d | d in s.cache ::
          s.cache[d] < s.nextInode && s.cache[d] in s.content && sha(s.content[s.cache[d]]) == d)
    && (forall d, e | d in s.cache && e in s.cache && s.cache[d] == s.cache[e] :: d == e)
  }

  ghost predicate StageInv(s: State) {
    && (forall st | st in s.owner :: st in s.stages)
    && (forall st | st in s.parts :: st in s.stages && s.parts[st] < s.nextInode)
    && (forall st, tt | st in s.parts && tt in s.parts && s.parts[st] == s.parts[tt] :: st == tt)
  }

  ghost predicate Inv(s: State, sha: Str -> Str) {
    CacheInv(s, sha) && StageInv(s) && forall a: Agent :: AgentInv(s, a, PcOf(s, a), sha)
  }

  // What a step of `a` leaves alone, as the other agents need it.
  ghost predicate Rely(s: State, s': State, a: Agent) {
    && (forall b: Agent :: b != a ==> PcOf(s', b) == PcOf(s, b))
    && (s'.lock == s.lock || (s.lock.None? && s'.lock == Some(a)) || (s.lock == Some(a) && s'.lock.None?))
    && (forall st | st in s.owner && s.owner[st] != a :: st in s'.owner && s'.owner[st] == s.owner[st])
    && (s.lock.Some? && s.lock != Some(a) ==>
          s'.cache == s.cache && s'.parts == s.parts && s'.content == s.content && s'.stages == s.stages
          && forall st | st in s'.owner :: st in s.owner && s'.owner[st] == s.owner[st])
  }

  ghost predicate Mine(s: State, a: Agent, pc: Pc, sha: Str -> Str) {
    PcOf(s, a) == pc && CacheInv(s, sha) && StageInv(s) && AgentInv(s, a, pc, sha)
  }

  ghost predicate Carries(s: State, s': State, a: Agent, sha: Str -> Str) {
    Rely(s, s', a) && CacheInv(s', sha) && StageInv(s') && AgentInv(s', a, PcOf(s', a), sha)
  }

  lemma OthersKeep(s: State, s': State, a: Agent, b: Agent, sha: Str -> Str)
    requires Rely(s, s', a) && b != a && AgentInv(s, b, PcOf(s, b), sha)
    ensures AgentInv(s', b, PcOf(s', b), sha)
  {
  }

  lemma Assemble(s: State, s': State, a: Agent, sha: Str -> Str)
    requires Inv(s, sha) && Carries(s, s', a, sha)
    ensures Inv(s', sha)
  {
    hide Rely, CacheInv, StageInv, AgentInv;
    forall b: Agent ensures AgentInv(s', b, PcOf(s', b), sha) { if b != a { OthersKeep(s, s', a, b, sha); } }
  }

  // A step that changes the agent's program counter, and perhaps the lock, and nothing else.
  lemma MoveCarries(s: State, a: Agent, pc: Pc, lock: Option<Agent>, pc': Pc, sha: Str -> Str)
    requires Mine(s, a, pc, sha)
    requires lock == s.lock || (s.lock.None? && lock == Some(a)) || (s.lock == Some(a) && lock.None?)
    requires AgentInv(s.(lock := lock), a, pc', sha)
    ensures Carries(s, Goto(s.(lock := lock), a, pc'), a, sha)
  {
  }

  lemma BeginCarries(s: State, a: Agent, st: StageId, sha: Str -> Str)
    requires Mine(s, a, Idle, sha) && st !in s.stages && s.lock.None?
    ensures Carries(s, s.(stages := s.stages + {st}, owner := s.owner[st := a]), a, sha)
  {
  }

  lemma CreateCarries(s: State, a: Agent, job: Job, sha: Str -> Str)
    requires Mine(s, a, Creating(job), sha) && job.stage !in s.parts
    ensures Carries(s, Goto(s.(parts := s.parts[job.stage := s.nextInode], content := s.content[s.nextInode := []],
                             nextInode := s.nextInode + 1), a, Writing(job, s.nextInode)), a, sha)
  {
  }

  lemma WriteCarries(s: State, a: Agent, job: Job, ino: Inode, bytes: Str, pc': Pc, sha: Str -> Str)
    requires Mine(s, a, Writing(job, ino), sha)
    requires pc' == Cleaning(job, ino, false) || (pc' == Verifying(job, ino) && bytes == job.bytes)
    ensures Carries(s, Goto(s.(content := s.content[ino := bytes]), a, pc'), a, sha)
  {
  }

  lemma LinkCarries(s: State, a: Agent, job: Job, ino: Inode, sha: Str -> Str)
    requires Mine(s, a, Linking(job, ino), sha)
    ensures Carries(s, Goto(s.(cache := s.cache[job.digest := ino]), a, Cleaning(job, ino, true)), a, sha)
  {
  }

  lemma RemovePartCarries(s: State, a: Agent, pc: Pc, st: StageId, pc': Pc, sha: Str -> Str)
    requires Mine(s, a, pc, sha)
    requires (pc == Removing(st) && pc' == pc) || (pc.Cleaning? && pc.job.stage == st &&
        pc'.Done? && pc'.call == Some(pc.job) && (pc'.ok ==> pc.ok))
    ensures Carries(s, Goto(s.(parts := s.parts - {st}), a, pc'), a, sha)
  {
  }

  lemma RemoveDirectoryCarries(s: State, a: Agent, st: StageId, sha: Str -> Str)
    requires Mine(s, a, Removing(st), sha) && st !in s.parts
    ensures Carries(s, Goto(s.(stages := s.stages - {st}, owner := s.owner - {st}), a, Done(true, None)), a, sha)
  {
  }

  lemma CrashCarries(s: State, a: Agent, sha: Str -> Str)
    requires Mine(s, a, PcOf(s, a), sha)
    ensures Carries(s, StepCrash(s, a), a, sha)
  {
  }

  lemma StageStepCarries(s: State, a: Agent, op: Op, sha: Str -> Str)
    requires Mine(s, a, PcOf(s, a), sha) && StepStage(s, a, op).Some?
    ensures Carries(s, StepStage(s, a, op).value, a, sha)
  {
    hide CacheInv, StageInv, Rely;
    match (PcOf(s, a), op) {
      case (Idle, BeginStage(st)) => BeginCarries(s, a, st, sha);
      case (Idle, StartRemove(st)) => MoveCarries(s, a, Idle, Some(a), Removing(st), sha);
      case (Removing(st), RemovePart(ok)) =>
        if ok { RemovePartCarries(s, a, Removing(st), st, Removing(st), sha); }
        else { MoveCarries(s, a, Removing(st), s.lock, Done(false, None), sha); }
      case (Removing(st), RemoveDirectory(ok)) =>
        if ok { RemoveDirectoryCarries(s, a, st, sha); }
        else { MoveCarries(s, a, Removing(st), s.lock, Done(false, None), sha); }
      case (Done(ok, job), Return) => MoveCarries(s, a, Done(ok, job), None, Idle, sha);
    }
  }

  lemma CacheStepCarries(s: State, a: Agent, op: Op, sha: Str -> Str)
    requires Mine(s, a, PcOf(s, a), sha) && StepCache(s, a, op, sha).Some?
    ensures Carries(s, StepCache(s, a, op, sha).value, a, sha)
  {
    hide Mine, Carries, StepCache;
    if op.StartCache? || op.LockStore? || op.Check? || op.CreatePart? { EarlyCarries(s, a, op, sha); }
    else { LateCarries(s, a, op, sha); }
  }

  lemma EarlyCarries(s: State, a: Agent, op: Op, sha: Str -> Str)
    requires Mine(s, a, PcOf(s, a), sha) && StepCache(s, a, op, sha).Some?
    requires op.StartCache? || op.LockStore? || op.Check? || op.CreatePart?
    ensures Carries(s, StepCache(s, a, op, sha).value, a, sha)
  {
    hide CacheInv, StageInv, Rely, ReadBlob, Links;
    var pc' := PcOf(StepCache(s, a, op, sha).value, a);
    match PcOf(s, a) {
      case Idle => MoveCarries(s, a, Idle, s.lock, pc', sha);
      case Wanting(job) => MoveCarries(s, a, Wanting(job), Some(a), pc', sha);
      case Checking(job) => MoveCarries(s, a, Checking(job), s.lock, pc', sha);
      case Creating(job) =>
        if pc'.Writing? { CreateCarries(s, a, job, sha); } else { MoveCarries(s, a, Creating(job), s.lock, pc', sha); }
    }
  }

  lemma LateCarries(s: State, a: Agent, op: Op, sha: Str -> Str)
    requires Mine(s, a, PcOf(s, a), sha) && StepCache(s, a, op, sha).Some?
    requires !op.StartCache? && !op.LockStore? && !op.Check? && !op.CreatePart?
    ensures Carries(s, StepCache(s, a, op, sha).value, a, sha)
  {
    hide CacheInv, StageInv, Rely, ReadBlob, Links;
    var pc' := PcOf(StepCache(s, a, op, sha).value, a);
    match PcOf(s, a) {
      case Writing(job, ino) => WriteCarries(s, a, job, ino, if op.ok then job.bytes else job.bytes[..op.n], pc', sha);
      case Verifying(job, ino) => MoveCarries(s, a, Verifying(job, ino), s.lock, pc', sha);
      case Linking(job, ino) =>
        if op.ok { LinkCarries(s, a, job, ino, sha); } else { MoveCarries(s, a, Linking(job, ino), s.lock, pc', sha); }
      case Cleaning(job, ino, ok) =>
        if op.ok { RemovePartCarries(s, a, Cleaning(job, ino, ok), job.stage, pc', sha); }
        else { MoveCarries(s, a, Cleaning(job, ino, ok), s.lock, pc', sha); }
    }
  }

  lemma OwnPartOf(s: State, a: Agent, sha: Str -> Str)
    requires Inv(s, sha)
    ensures Mine(s, a, PcOf(s, a), sha)
  {
    hide CacheInv, StageInv;
    assert AgentInv(s, a, PcOf(s, a), sha);
  }

  // Every step of every agent, faults and crashes included, keeps the invariant.
  lemma StepKeeps(s: State, a: Agent, op: Op, sha: Str -> Str)
    requires Inv(s, sha) && Step(s, a, op, sha).Some?
    ensures Inv(Step(s, a, op, sha).value, sha) && Carries(s, Step(s, a, op, sha).value, a, sha)
  {
    hide Inv, Carries, Mine, StepStage, StepCache, StepCrash;
    OwnPartOf(s, a, sha);
    if op.Crash? { CrashCarries(s, a, sha); }
    else if StepStage(s, a, op).Some? { StageStepCarries(s, a, op, sha); }
    else { CacheStepCarries(s, a, op, sha); }
    Assemble(s, Step(s, a, op, sha).value, a, sha);
  }

  lemma {:induction false} RunKeeps(s: State, steps: seq<(Agent, Op)>, sha: Str -> Str)
    requires Inv(s, sha) && Run(s, steps, sha).Some?
    ensures Inv(Run(s, steps, sha).value, sha)
    decreases |steps|
  {
    hide Inv, Step, Carries;
    if steps != [] {
      StepKeeps(s, steps[0].0, steps[0].1, sha);
      RunKeeps(Step(s, steps[0].0, steps[0].1, sha).value, steps[1..], sha);
    }
  }

  // ----- the cache agrees with its names ---------------------------------------------------------

  // In every run: a name in the cache is the digest of the file's bytes, and a read never finds
  // other bytes than these; so it fails only on a second name or on the size.
  lemma CacheAgrees(steps: seq<(Agent, Op)>, d: Digest, max: nat, sha: Str -> Str)
    requires Run(Init(), steps, sha).Some?
    ensures var s := Run(Init(), steps, sha).value;
      && (d in s.cache ==> s.cache[d] in s.content && sha(s.content[s.cache[d]]) == d)
      && ReadBlob(s, d, max, sha) != Err(Corrupt)
      && (ReadBlob(s, d, max, sha).Ok? && ReadBlob(s, d, max, sha).value.Some? ==>
            d in s.cache && ReadBlob(s, d, max, sha).value.value == s.content[s.cache[d]])
  {
    hide Run, Links;
    assert Inv(Init(), sha) by { StartsWell(sha); }
    RunKeeps(Init(), steps, sha);
  }

  lemma StartsWell(sha: Str -> Str)
    ensures Inv(Init(), sha)
  {
  }

  // A present name is never removed, given to another file, or given other bytes.
  lemma NeverOverwritten(s: State, a: Agent, op: Op, d: Digest, sha: Str -> Str)
    requires Inv(s, sha) && Step(s, a, op, sha).Some? && d in s.cache
    ensures var s' := Step(s, a, op, sha).value;
      d in s'.cache && s'.cache[d] == s.cache[d] && s.cache[d] in s'.content
      && s'.content[s.cache[d]] == s.content[s.cache[d]]
  {
    hide CacheInv, StageInv, Links, ReadBlob;
    assert s.cache[d] < s.nextInode && s.cache[d] in s.content by { assert CacheInv(s, sha); NamedFile(s, d, sha); }
    assert AgentInv(s, a, PcOf(s, a), sha);
  }

  lemma NamedFile(s: State, d: Digest, sha: Str -> Str)
    requires CacheInv(s, sha) && d in s.cache
    ensures s.cache[d] < s.nextInode && s.cache[d] in s.content && sha(s.content[s.cache[d]]) == d
  {
  }

  // A cached file has one name or two: its own, and that of the part file of one stage.
  ghost predicate HasSecondName(s: State, d: Digest)
    requires d in s.cache
  {
    exists st :: st in s.parts && s.parts[st] == s.cache[d]
  }

  lemma AtMostOne<T>(x: set<T>)
    requires forall p, q | p in x && q in x :: p == q
    ensures |x| == if x == {} then 0 else 1
  {
    if x != {} {
      var p :| p in x;
      assert x == {p};
    }
  }

  lemma LinksAre(s: State, d: Digest, sha: Str -> Str)
    requires CacheInv(s, sha) && StageInv(s) && d in s.cache
    ensures Links(s, s.cache[d]) == if HasSecondName(s, d) then 2 else 1
  {
    var ino := s.cache[d];
    var names, parts := set e | e in s.cache && s.cache[e] == ino, set st | st in s.parts && s.parts[st] == ino;
    assert d in names;
    AtMostOne(names);
    AtMostOne(parts);
    if HasSecondName(s, d) {
      var st :| st in s.parts && s.parts[st] == ino;
      assert st in parts;
    }
  }

  // Reads fail closed exactly while the part file is still there: otherwise a cached blob that
  // fits is returned, whole.
  lemma ReadsExactly(s: State, d: Digest, max: nat, sha: Str -> Str)
    requires Inv(s, sha) && d in s.cache
    ensures s.cache[d] in s.content
    ensures ReadBlob(s, d, max, sha) ==
      if HasSecondName(s, d) then Err(NotSingle)
      else if max > MaxCacheBytes || |s.content[s.cache[d]]| > max then Err(TooLarge)
      else Ok(Some(s.content[s.cache[d]]))
  {
    hide Links;
    LinksAre(s, d, sha);
    NamedFile(s, d, sha);
  }

  // A second name is left over only where a job is still at work on it, holding the store lock,
  // or in a stage that has not been removed since a crash or a failed removal of the part.
  lemma SecondNameInStage(s: State, d: Digest, sha: Str -> Str) returns (st: StageId)
    requires Inv(s, sha) && d in s.cache && HasSecondName(s, d)
    ensures st in s.stages && st in s.parts && s.parts[st] == s.cache[d]
    ensures forall tt | tt in s.parts && s.parts[tt] == s.cache[d] :: tt == st
  {
    st :| st in s.parts && s.parts[st] == s.cache[d];
  }

  // Removing that stage, as recovery does, makes the blob readable again, with the copied bytes.
  lemma RecoveryRestoresReads(s: State, a: Agent, d: Digest, st: StageId, max: nat, sha: Str -> Str)
    requires Inv(s, sha) && d in s.cache && PcOf(s, a) == Removing(st) && st in s.parts && s.parts[st] == s.cache[d]
    requires s.cache[d] in s.content && |s.content[s.cache[d]]| <= max <= MaxCacheBytes
    ensures ReadBlob(s, d, max, sha) == Err(NotSingle)
    ensures Step(s, a, RemovePart(true), sha).Some?
    ensures ReadBlob(Step(s, a, RemovePart(true), sha).value, d, max, sha) == Ok(Some(s.content[s.cache[d]]))
  {
    hide Inv, ReadBlob;
    assert Step(s, a, RemovePart(true), sha) == Some(Goto(s.(parts := s.parts - {st}), a, Removing(st)));
    StepKeeps(s, a, RemovePart(true), sha);
    ReadsExactly(s, d, max, sha);
    var s' := Step(s, a, RemovePart(true), sha).value;
    ReadsExactly(s', d, max, sha);
    OnlyThatPart(s, d, st, sha);
  }

  lemma OnlyThatPart(s: State, d: Digest, st: StageId, sha: Str -> Str)
    requires Inv(s, sha) && d in s.cache && st in s.parts && s.parts[st] == s.cache[d]
    ensures HasSecondName(s, d) && !HasSecondName(s.(parts := s.parts - {st}), d)
  {
  }

  // ----- a whole recovery ---------------------------------------------------------------------------

  // One abandoned stage: the part, if there is one, and the directory.
  function RemovalSteps(s: State, a: Agent, st: StageId): seq<(Agent, Op)> {
    [(a, StartRemove(st))] + (if st in s.parts then [(a, RemovePart(true))] else []) +
    [(a, RemoveDirectory(true)), (a, Return)]
  }

  // The stages `gone` have gone, and nothing else.
  ghost predicate Removed(s: State, s': State, a: Agent, gone: set<StageId>) {
    && s'.lock.None? && PcOf(s', a) == Idle && s'.cache == s.cache && s'.content == s.content && s'.owner == s.owner
    && s'.stages == s.stages - gone && s'.parts == s.parts - gone
  }

  lemma RemovesOne(s: State, a: Agent, st: StageId, sha: Str -> Str) returns (s': State)
    requires s.lock.None? && PcOf(s, a) == Idle && st in s.stages && st !in s.owner
    ensures Run(s, RemovalSteps(s, a, st), sha) == Some(s') && Removed(s, s', a, {st})
  {
    hide Step;
    var s1 := Goto(s.(lock := Some(a)), a, Removing(st));
    StartsRemoving(s, a, st, sha);
    var s2 := if st in s.parts then Goto(s1.(parts := s1.parts - {st}), a, Removing(st)) else s1;
    if st in s.parts { RemovesPart(s1, a, st, sha); }
    assert s2.parts == s.parts - {st};
    RemovesDirectory(s2, a, st, sha);
    var s3 := Goto(s2.(stages := s2.stages - {st}, owner := s2.owner - {st}), a, Done(true, None));
    assert s3.owner == s.owner;
    Returns(s3, a, sha);
    s' := Goto(s3.(lock := None), a, Idle);
    FirstStep(s3, a, Return, [], sha);
    FirstStep(s2, a, RemoveDirectory(true), [(a, Return)], sha);
    if st in s.parts { FirstStep(s1, a, RemovePart(true), [(a, RemoveDirectory(true)), (a, Return)], sha); }
    var rest := (if st in s.parts then [(a, RemovePart(true))] else []) + [(a, RemoveDirectory(true)), (a, Return)];
    FirstStep(s, a, StartRemove(st), rest, sha);
  }

  lemma FirstStep(s: State, a: Agent, op: Op, rest: seq<(Agent, Op)>, sha: Str -> Str)
    requires Step(s, a, op, sha).Some?
    ensures Run(s, [(a, op)] + rest, sha) == Run(Step(s, a, op, sha).value, rest, sha)
  {
    assert ([(a, op)] + rest)[1..] == rest;
  }

  lemma StartsRemoving(s: State, a: Agent, st: StageId, sha: Str -> Str)
    requires s.lock.None? && PcOf(s, a) == Idle && st in s.stages && st !in s.owner
    ensures Step(s, a, StartRemove(st), sha) == Some(Goto(s.(lock := Some(a)), a, Removing(st)))
  {
    hide StepCache;
  }

  lemma RemovesPart(s: State, a: Agent, st: StageId, sha: Str -> Str)
    requires PcOf(s, a) == Removing(st) && st in s.parts
    ensures Step(s, a, RemovePart(true), sha) == Some(Goto(s.(parts := s.parts - {st}), a, Removing(st)))
  {
    hide StepCache;
  }

  lemma RemovesDirectory(s: State, a: Agent, st: StageId, sha: Str -> Str)
    requires PcOf(s, a) == Removing(st) && st !in s.parts
    ensures Step(s, a, RemoveDirectory(true), sha) ==
      Some(Goto(s.(stages := s.stages - {st}, owner := s.owner - {st}), a, Done(true, None)))
  {
    hide StepCache;
  }

  lemma Returns(s: State, a: Agent, sha: Str -> Str)
    requires PcOf(s, a).Done?
    ensures Step(s, a, Return, sha) == Some(Goto(s.(lock := None), a, Idle))
  {
    hide StepCache;
  }

  lemma {:induction false} RunJoins(s: State, steps: seq<(Agent, Op)>, more: seq<(Agent, Op)>, sha: Str -> Str)
    requires Run(s, steps, sha).Some?
    ensures Run(s, steps + more, sha) == Run(Run(s, steps, sha).value, more, sha)
    decreases |steps|
  {
    hide Step;
    var all := steps + more;
    if steps == [] {
      assert all == more;
    } else {
      assert all[0] == steps[0] && all[1..] == steps[1..] + more;
      RunJoins(Step(s, steps[0].0, steps[0].1, sha).value, steps[1..], more, sha);
    }
  }

  lemma {:induction false} RemovesAll(s: State, a: Agent, gone: set<StageId>, sha: Str -> Str)
    returns (steps: seq<(Agent, Op)>, s': State)
    requires s.lock.None? && PcOf(s, a) == Idle && gone <= s.stages && forall st | st in gone :: st !in s.owner
    ensures Run(s, steps, sha) == Some(s') && Removed(s, s', a, gone)
    decreases |gone|
  {
    hide Step, RemovalSteps;
    steps, s' := [], s;
    if gone == {} {
      assert s.parts - {} == s.parts;
    } else {
      var st :| st in gone;
      var s1 := RemovesOne(s, a, st, sha);
      var more;
      more, s' := RemovesAll(s1, a, gone - {st}, sha);
      steps := RemovalSteps(s, a, st) + more;
      RunJoins(s, RemovalSteps(s, a, st), more, sha);
      assert s.parts - {st} - (gone - {st}) == s.parts - gone;
      assert s.stages - {st} - (gone - {st}) == s.stages - gone;
    }
  }

  // A recovery that removes every stage nobody holds: after it a read fails closed only while the second
  // name is in a stage whose lease is held; every other blob that fits comes back with the copied bytes.
  lemma WholeRecoveryRestoresReads(s: State, a: Agent, sha: Str -> Str) returns (steps: seq<(Agent, Op)>, s': State)
    requires Inv(s, sha) && s.lock.None? && PcOf(s, a) == Idle
    ensures Run(s, steps, sha) == Some(s') && s'.cache == s.cache && s'.content == s.content &&
        s'.stages == s.owner.Keys
    ensures forall d, max | d in s.cache && max <= MaxCacheBytes ::
      s.cache[d] in s.content && (|s.content[s.cache[d]]| <= max ==>
        ReadBlob(s', d, max, sha) ==
          if exists st :: st in s.owner && st in s.parts && s.parts[st] == s.cache[d] then Err(NotSingle)
          else Ok(Some(s.content[s.cache[d]])))
  {
    hide Step, ReadBlob, AgentInv;
    assert s.owner.Keys <= s.stages;
    steps, s' := RemovesAll(s, a, s.stages - s.owner.Keys, sha);
    RunKeeps(s, steps, sha);
    hide Run;
    forall d, max: nat | d in s.cache && max <= MaxCacheBytes
      ensures s.cache[d] in s.content && (|s.content[s.cache[d]]| <= max ==>
        ReadBlob(s', d, max, sha) ==
          if exists st :: st in s.owner && st in s.parts && s.parts[st] == s.cache[d] then Err(NotSingle)
          else Ok(Some(s.content[s.cache[d]])))
    {
      ReadsExactly(s', d, max, sha);
      HeldSecondName(s, s', a, d, sha);
    }
  }

  lemma HeldSecondName(s: State, s': State, a: Agent, d: Digest, sha: Str -> Str)
    requires Inv(s, sha) && d in s.cache && Removed(s, s', a, s.stages - s.owner.Keys)
    ensures HasSecondName(s', d) <==> exists st :: st in s.owner && st in s.parts && s.parts[st] == s.cache[d]
  {
    hide AgentInv;
    if st :| st in s.owner && st in s.parts && s.parts[st] == s.cache[d] {
      assert st in s'.parts;
    }
  }

  // ----- what a call does ---------------------------------------------------------------------------

  // A call that reports success has its blob in the cache.
  lemma SuccessIsCached(steps: seq<(Agent, Op)>, a: Agent, job: Job, sha: Str -> Str)
    requires Run(Init(), steps, sha).Some? && PcOf(Run(Init(), steps, sha).value, a) == Done(true, Some(job))
    ensures var s := Run(Init(), steps, sha).value;
      && job.digest in s.cache && s.cache[job.digest] in s.content
      && sha(s.content[s.cache[job.digest]]) == job.digest == sha(job.bytes)
  {
    hide Run, StageInv;
    StartsWell(sha);
    RunKeeps(Init(), steps, sha);
    var s := Run(Init(), steps, sha).value;
    assert AgentInv(s, a, PcOf(s, a), sha);
  }

  // Where a call can start: a leased stage, and copied bytes within the bound that have the digest asked for.
  ghost predicate Callable(s: State, a: Agent, job: Job, sha: Str -> Str) {
    && s.lock.None? && PcOf(s, a) == Idle && job.stage in s.owner && s.owner[job.stage] == a
    && job.max <= MaxCacheBytes && |job.bytes| <= job.max && sha(job.bytes) == job.digest
  }

  lemma CallStarts(s: State, a: Agent, job: Job, sha: Str -> Str)
    requires Callable(s, a, job, sha)
    ensures Run(s, [(a, StartCache(job)), (a, LockStore)], sha) == Some(Goto(s.(lock := Some(a)), a, Checking(job)))
  {
    var s1 := Goto(s, a, Wanting(job));
    assert Step(s, a, StartCache(job), sha) == Some(s1);
    FirstStep(s, a, StartCache(job), [(a, LockStore)], sha);
    FirstStep(s1, a, LockStore, [], sha);
    assert s1.(lock := Some(a)).pcs[a := Checking(job)] == s.pcs[a := Checking(job)];
  }

  lemma ChecksPresent(s: State, a: Agent, job: Job, sha: Str -> Str)
    requires PcOf(s, a) == Checking(job) && job.digest in s.cache
    ensures Step(s, a, Check, sha) == Some(Goto(s, a, Done(Readable(s, job, sha), Some(job))))
  {
    hide ReadBlob;
  }

  // The blob is there already: the call succeeds exactly if it can be read, and changes nothing.
  lemma PresentCall(s: State, a: Agent, job: Job, sha: Str -> Str)
    requires Inv(s, sha) && Callable(s, a, job, sha) && job.digest in s.cache
    ensures Run(s, [(a, StartCache(job)), (a, LockStore), (a, Check)], sha) ==
      Some(Goto(s.(lock := Some(a)), a, Done(Readable(s, job, sha), Some(job))))
    ensures s.cache[job.digest] in s.content
    ensures Readable(s, job, sha) <==> ReadBlob(s, job.digest, job.max, sha) == Ok(Some(s.content[s.cache[job.digest]]))
  {
    hide Step, ReadBlob, Readable, Inv, Callable;
    var s1 := Goto(s.(lock := Some(a)), a, Checking(job));
    CallStarts(s, a, job, sha);
    ChecksPresent(s1, a, job, sha);
    SameReads(s, s1, job, sha);
    ReadableExactly(s, job, sha);
    var first: seq<(Agent, Op)> := [(a, StartCache(job)), (a, LockStore)];
    RunJoins(s, first, [(a, Check)], sha);
    assert first + [(a, Check)] == [(a, StartCache(job)), (a, LockStore), (a, Check)];
    OneStep(s1, a, Check, sha);
    hide Run;
    var end := Done(Readable(s, job, sha), Some(job));
    assert s1.pcs[a := end] == s.pcs[a := end];
  }

  lemma OneStep(s: State, a: Agent, op: Op, sha: Str -> Str)
    ensures Run(s, [(a, op)], sha) == Step(s, a, op, sha)
  {
    hide Step;
    assert [(a, op)][1..] == [];
    if Step(s, a, op, sha).Some? { assert Run(Step(s, a, op, sha).value, [], sha) == Step(s, a, op, sha); }
  }

  lemma ReadableExactly(s: State, job: Job, sha: Str -> Str)
    requires Inv(s, sha) && job.digest in s.cache
    ensures s.cache[job.digest] in s.content
    ensures Readable(s, job, sha) <==> ReadBlob(s, job.digest, job.max, sha) == Ok(Some(s.content[s.cache[job.digest]]))
  {
    hide Inv, ReadBlob;
    ReadsExactly(s, job.digest, job.max, sha);
  }

  lemma SameReads(s: State, s': State, job: Job, sha: Str -> Str)
    requires s'.cache == s.cache && s'.parts == s.parts && s'.content == s.content
    ensures Readable(s', job, sha) == Readable(s, job, sha)
  {
  }

  // The part file, written and not yet linked.
  ghost predicate PartWritten(s: State, s': State, a: Agent, job: Job) {
    && s'.lock == Some(a) && PcOf(s', a) == Verifying(job, s.nextInode)
    && s'.stages == s.stages && s'.owner == s.owner && s'.cache == s.cache
    && s'.parts == s.parts[job.stage := s.nextInode] && s'.content == s.content[s.nextInode := job.bytes]
  }

  lemma ChecksNew(s: State, a: Agent, job: Job, sha: Str -> Str)
    requires PcOf(s, a) == Checking(job) && job.digest !in s.cache
    ensures Step(s, a, Check, sha) == Some(Goto(s, a, Creating(job)))
  {
    hide ReadBlob;
  }

  lemma CreatesPart(s: State, a: Agent, job: Job, sha: Str -> Str)
    requires PcOf(s, a) == Creating(job) && job.stage !in s.parts
    ensures Step(s, a, CreatePart(true), sha) ==
      Some(Goto(s.(parts := s.parts[job.stage := s.nextInode], content := s.content[s.nextInode := []],
                   nextInode := s.nextInode + 1), a, Writing(job, s.nextInode)))
  {
    hide ReadBlob;
  }

  lemma FillsPart(s: State, a: Agent, job: Job, ino: Inode, sha: Str -> Str)
    requires PcOf(s, a) == Writing(job, ino)
    ensures Step(s, a, WritePart(true, 0), sha) ==
      Some(Goto(s.(content := s.content[ino := job.bytes]), a, Verifying(job, ino)))
  {
    hide ReadBlob;
  }

  lemma WritesPart(s: State, a: Agent, job: Job, sha: Str -> Str) returns (s': State)
    requires s.lock == Some(a) && PcOf(s, a) == Checking(job) && job.digest !in s.cache && job.stage !in s.parts
    ensures Run(s, [(a, Check), (a, CreatePart(true)), (a, WritePart(true, 0))], sha) == Some(s')
    ensures PartWritten(s, s', a, job)
  {
    hide Step;
    var ops: seq<(Agent, Op)> := [(a, Check), (a, CreatePart(true)), (a, WritePart(true, 0))];
    var s2 := Goto(s, a, Creating(job));
    var s3 := Goto(s2.(parts := s.parts[job.stage := s.nextInode], content := s.content[s.nextInode := []],
                       nextInode := s.nextInode + 1), a, Writing(job, s.nextInode));
    s' := Goto(s3.(content := s3.content[s.nextInode := job.bytes]), a, Verifying(job, s.nextInode));
    ChecksNew(s, a, job, sha);
    CreatesPart(s2, a, job, sha);
    FillsPart(s3, a, job, s.nextInode, sha);
    OneStep(s3, a, WritePart(true, 0), sha);
    FirstStep(s2, a, CreatePart(true), [(a, WritePart(true, 0))], sha);
    FirstStep(s, a, Check, [(a, CreatePart(true)), (a, WritePart(true, 0))], sha);
    hide Run, PcOf;
    assert [(a, Check)] + [(a, CreatePart(true)), (a, WritePart(true, 0))] == ops;
    assert [(a, CreatePart(true))] + [(a, WritePart(true, 0))] == [(a, CreatePart(true)), (a, WritePart(true, 0))];
  }

  // A part file that is left over in the stage is in the way: the call fails and changes nothing.
  lemma PartInTheWay(s: State, a: Agent, job: Job, sha: Str -> Str)
    requires PcOf(s, a) == Checking(job) && job.digest !in s.cache && job.stage in s.parts
    ensures Run(s, [(a, Check), (a, CreatePart(true))], sha) == Some(Goto(s, a, Done(false, Some(job))))
  {
    var s1 := Goto(s, a, Creating(job));
    ChecksNew(s, a, job, sha);
    PartExists(s1, a, job, sha);
    hide Step, PcOf;
    OneStep(s1, a, CreatePart(true), sha);
    FirstStep(s, a, Check, [(a, CreatePart(true))], sha);
    hide Run;
    var both: seq<(Agent, Op)> := [(a, Check), (a, CreatePart(true))];
    assert [(a, Check)] + [(a, CreatePart(true))] == both;
    assert s1.pcs[a := Done(false, Some(job))] == s.pcs[a := Done(false, Some(job))];
  }

  lemma PartExists(s: State, a: Agent, job: Job, sha: Str -> Str)
    requires PcOf(s, a) == Creating(job) && job.stage in s.parts
    ensures Step(s, a, CreatePart(true), sha) == Some(Goto(s, a, Done(false, Some(job))))
  {
    hide ReadBlob;
  }

  // A part file that was just made has no other name.
  lemma OnePart(s: State, s': State, a: Agent, job: Job, sha: Str -> Str)
    requires Inv(s, sha) && PartWritten(s, s', a, job)
    ensures Links(s', s.nextInode) == 1
  {
    hide AgentInv;
    assert (set d | d in s'.cache && s'.cache[d] == s.nextInode) == {};
    assert (set st | st in s'.parts && s'.parts[st] == s.nextInode) == {job.stage};
  }

  lemma LinksPart(s: State, s1: State, a: Agent, job: Job, sha: Str -> Str) returns (s': State)
    requires Inv(s, sha) && PartWritten(s, s1, a, job) && job.digest !in s.cache && job.stage !in s.parts
    ensures Run(s1, [(a, VerifyPart(true)), (a, Link(true)), (a, RemovePart(true))], sha) == Some(s')
    ensures PcOf(s', a) == Done(true, Some(job)) && s'.lock == Some(a)
    ensures s'.cache == s.cache[job.digest := s.nextInode] && s'.parts == s.parts
    ensures s'.content == s.content[s.nextInode := job.bytes] && s'.stages == s.stages && s'.owner == s.owner
  {
    OnePart(s, s1, a, job, sha);
    hide Inv, Links, ReadBlob, Readable;
    var third := [(a, VerifyPart(true)), (a, Link(true)), (a, RemovePart(true))];
    var s2 := Goto(s1, a, Linking(job, s.nextInode));
    var s3 := Goto(s2.(cache := s.cache[job.digest := s.nextInode]), a, Cleaning(job, s.nextInode, true));
    s' := Goto(s3.(parts := s3.parts - {job.stage}), a, Done(true, Some(job)));
    FirstStep(s1, a, VerifyPart(true), third[1..], sha);
    FirstStep(s2, a, Link(true), third[2..], sha);
    FirstStep(s3, a, RemovePart(true), [], sha);
    assert third == [(a, VerifyPart(true))] + third[1..] && third[1..] == [(a, Link(true))] + third[2..];
    assert third[2..] == [(a, RemovePart(true))] + [];
    assert s.parts[job.stage := s.nextInode] - {job.stage} == s.parts;
  }

  // The blob is new: without faults the call puts it under its digest, and from then on a read returns it.
  lemma NewCall(s: State, a: Agent, job: Job, sha: Str -> Str) returns (s': State)
    requires Inv(s, sha) && Callable(s, a, job, sha) && job.digest !in s.cache && job.stage !in s.parts
    ensures Run(s, [(a, StartCache(job)), (a, LockStore), (a, Check), (a, CreatePart(true)), (a, WritePart(true, 0)),
                    (a, VerifyPart(true)), (a, Link(true)), (a, RemovePart(true))], sha) == Some(s')
    ensures PcOf(s', a) == Done(true, Some(job)) && s'.lock == Some(a)
    ensures s'.cache == s.cache[job.digest := s.nextInode] && s'.parts == s.parts
    ensures s'.stages == s.stages && s'.owner == s.owner
    ensures forall max | |job.bytes| <= max <= MaxCacheBytes ::
      ReadBlob(s', job.digest, max, sha) == Ok(Some(job.bytes))
  {
    var s1 := Goto(s.(lock := Some(a)), a, Checking(job));
    hide Inv, Callable, PartWritten, ReadBlob, Step, Run;
    CallStarts(s, a, job, sha);
    var s2 := WritesPart(s1, a, job, sha);
    SamePart(s, s1, s2, a, job);
    s' := LinksPart(s, s2, a, job, sha);
    var first: seq<(Agent, Op)> := [(a, StartCache(job)), (a, LockStore)];
    var second: seq<(Agent, Op)> := [(a, Check), (a, CreatePart(true)), (a, WritePart(true, 0))];
    var third: seq<(Agent, Op)> := [(a, VerifyPart(true)), (a, Link(true)), (a, RemovePart(true))];
    RunJoins(s, first, second, sha);
    RunJoins(s, first + second, third, sha);
    assert first + second + third == [(a, StartCache(job)), (a, LockStore), (a, Check), (a, CreatePart(true)),
      (a, WritePart(true, 0)), (a, VerifyPart(true)), (a, Link(true)), (a, RemovePart(true))];
    RunKeeps(s, first + second + third, sha);
    forall max: nat | |job.bytes| <= max <= MaxCacheBytes
      ensures ReadBlob(s', job.digest, max, sha) == Ok(Some(job.bytes))
    {
      ReadsExactly(s', job.digest, max, sha);
      NoSecondName(s, s', job, sha);
    }
  }

  lemma SamePart(s: State, s1: State, s2: State, a: Agent, job: Job)
    requires s1.stages == s.stages && s1.owner == s.owner && s1.cache == s.cache && s1.parts == s.parts
    requires s1.content == s.content && s1.nextInode == s.nextInode && PartWritten(s1, s2, a, job)
    ensures PartWritten(s, s2, a, job)
  {
  }

  lemma NoSecondName(s: State, s': State, job: Job, sha: Str -> Str)
    requires Inv(s, sha) && s'.cache == s.cache[job.digest := s.nextInode] && s'.parts == s.parts
    ensures !HasSecondName(s', job.digest)
  {
    hide AgentInv;
  }
}
