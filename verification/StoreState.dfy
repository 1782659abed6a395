// The result store as a state machine over filesystem micro-steps.
//
// One agent is one thread of activity: a call of `begin`, the transaction handle
// it returns, the `commit` or the drop that consumes it, a `recover_abandoned`
// or a `get`. Every operation the program performs on the filesystem is one
// `Op`; faults and the contents written by builders are parameters of the ops,
// so a list of (agent, op) pairs is one interleaving with one pattern of faults.
// A crash is an op of its own and may come between any two others.
module StoreState {
  import opened Prelude
  import opened OutputTree
  import opened TransactionIds

  type Agent = nat
  type Inode = nat
  type TxId = string
  type ResultId = string

  // `.staging` and `.source-staging`.
  datatype Root = Results | Sources

  // The node `result.toml`: absent, complete and pinned for an id, or anything else.
  datatype Meta = NoMeta | Complete(id: ResultId) | Junk

  // A staging or result directory. `born` is the staging root it was made in.
  datatype Dir = Dir(born: Root, prefix: Option<Node>, meta: Meta)

  // A staging id together with the inode of its lease file.
  datatype Handle = Handle(root: Root, id: TxId, ino: Inode)

  // `Corrupt` is the error of a failed rollback or, with the rollback done, of a failed lease cleanup.
  datatype Outcome = Published | Existing | Failed | Corrupt(undone: bool)

  // What happened to the results, in order.
  datatype Event =
    | Placed(tx: TxId, rid: ResultId, dir: Dir)      // rename into results
    | Undone(tx: TxId, rid: ResultId)                // rollback removed the entry
    | Returned(tx: TxId, rid: ResultId, outcome: Outcome)
    | Got(rid: ResultId, found: Option<Dir>)         // a `get` that did not fail

  // A commit under way: its handle, its target, and the results and the staged
  // prefix as they were when it took the store lock.
  datatype Cx = Cx(h: Handle, rid: ResultId, before: map<ResultId, Dir>, tree: Option<Node>)

  // A recovery under way: the counter, the ids whose directory it removed, and
  // the directories and the abandoned leases when it took the store lock.
  datatype Rec = Rec(count: nat, gone: set<TxId>, dirs0: set<TxId>, abandoned0: set<Inode>)

  // Where `release_and_remove_lock_file` returns to.
  datatype After =
    | BackToTry(root: Root, n: nat)
    | BackWithError
    | ThenExisting(c: Cx)
    | ThenSync(c: Cx)
    | ThenFail(c: Cx)
    | ThenDropped
    | ThenScan(rec: Rec, root: Root, todo: set<TxId>)
    | ThenOrphans(rec: Rec, todo: set<TxId>)

  // Where `remove_dir_all` of a staging directory returns to.
  datatype WipeFor =
    | ForBeginError
    | ForExisting(c: Cx)
    | ForDrop(leased: bool)
    | ForScan(rec: Rec, root: Root, todo: set<TxId>)

  // Program counters: what the agent does next.
  datatype Pc =
    | Idle
    | BeginTry(root: Root, n: nat)
    | BeginFile(n: nat, h: Handle)
    | BeginLeased(n: nat, h: Handle)
    | BeginPrefix(h: Handle)
    | Ready(h: Handle)
    | BeginErr
    | Live(h: Handle)
    | CommitWait(h: Handle, rid: ResultId)
    | CommitCheck(c: Cx)
    | CommitMeta(c: Cx)
    | CommitPlace(c: Cx)
    | CommitRename(c: Cx)
    | CommitVerify(c: Cx)
    | CommitSync(c: Cx)
    | CommitDone(c: Cx, outcome: Outcome)
    | Rollback(c: Cx, cleanup: bool)
    | RollbackWipe(c: Cx, cleanup: bool)
    | RollbackSync(c: Cx, cleanup: bool)
    | FailDone(c: Cx, outcome: Outcome, leaseOpen: bool)
    | EarlyErr(c: Cx, leased: bool)
    | DropWait(h: Handle, leased: bool)
    | CloseLease(h: Handle)
    | Wipe(h: Handle, k: WipeFor)
    | Release(h: Handle, next: After)
    | Unlock(h: Handle, next: After)
    | DropDone
    | Scan(rec: Rec, root: Root, todo: set<TxId>)
    | Orphans(rec: Rec, todo: set<TxId>)
    | RecoverEnd(rec: Rec, ok: bool)

  datatype State = State(
    lock: Option<Agent>,             // holder of `.store.lock`
    staging: map<TxId, Dir>,
    sources: map<TxId, Dir>,
    leases: map<TxId, Inode>,        // `.locks/<id>.lock`
    held: map<Inode, Agent>,         // who has locked which lease file
    nextInode: Inode,
    results: map<ResultId, Dir>,
    tainted: set<ResultId>,          // entries a rollback has begun to delete
    abandoned: set<Inode>,           // leases closed without being released
    pcs: map<Agent, Pc>,
    log: seq<Event>)

  datatype Creation = Created | CreatedUnverified | NotCreated

  datatype Op =
    | StartBegin(root: Root)
    | CreateLease(id: TxId, creation: Creation)
    | LockLease(ok: bool)
    | MakeStage(ok: bool)
    | MakePrefix(ok: bool)
    | Unlocked                        // drop the store lock and return
    | Write(dir: Dir)
    | StartCommit(rid: ResultId)
    | StartDrop
    | LockStore(ok: bool)
    | CheckTree(ok: bool)
    | WriteMeta(ok: bool, left: Meta)
    | CheckDestination(ok: bool)
    | Rename(ok: bool)
    | VerifyPublished(ok: bool)
    | SyncResults(ok: bool)
    | RollbackCheck(ok: bool)
    | RollbackPartial(dir: Dir)
    | RollbackRemove(ok: bool)
    | RollbackSynced(ok: bool)
    | WipePartial(dir: Dir)
    | WipeAll(ok: bool)
    | RemoveLease(ok: bool)
    | UnlockLease(ok: bool)
    | Close
    | StartRecover
    | TryEntry(id: TxId, ok: bool)
    | NextRoot(ok: bool)
    | TryOrphan(id: TxId, ok: bool)
    | OrphansDone
    | Get(rid: ResultId)
    | Crash

  const MaxTries := 128

  function PcOf(s: State, a: Agent): Pc { if a in s.pcs then s.pcs[a] else Idle }

  function Goto(s: State, a: Agent, pc: Pc): State { s.(pcs := s.pcs[a := pc]) }

  function Dirs(s: State, root: Root): map<TxId, Dir> {
    if root.Results? then s.staging else s.sources
  }

  function SetDirs(s: State, root: Root, dirs: map<TxId, Dir>): State {
    s.(staging := if root.Results? then dirs else s.staging,
       sources := if root.Results? then s.sources else dirs)
  }

  // `validate_existing_result` on a readable entry.
  predicate CompleteDir(d: Dir, rid: ResultId) {
    d.prefix.Some? && ValidOutputTree(d.prefix.value) && d.meta == Complete(rid)
  }

  // A directory some of which a recursive removal has taken away.
  predicate PrunedDir(left: Dir, was: Dir) {
    && left.born == was.born
    && (left.meta.NoMeta? || left.meta == was.meta)
    && (left.prefix.Some? ==> was.prefix.Some? && Pruned(left.prefix.value, was.prefix.value))
  }

  // `for _ in 0..128`: the next attempt, or the error after the loop.
  function Retry(root: Root, n: nat): Pc {
    if n + 1 < MaxTries then BeginTry(root, n + 1) else BeginErr
  }

  // Closing the lease file of a handle: the operating system drops the lock.
  function Closed(s: State, h: Handle): State { s.(held := s.held - {h.ino}) }

  function Init(): State {
    State(None, map[], map[], map[], map[], 0, map[], {}, {}, map[], [])
  }

  // ----- begin, begin_unverified_source ---------------------------------------

  function StepBegin(s: State, a: Agent, op: Op): Option<State> {
    match (PcOf(s, a), op)
    case (Idle, StartBegin(root)) =>
      if s.lock.None? then Some(Goto(s.(lock := Some(a)), a, BeginTry(root, 0))) else None
    case (BeginTry(root, n), CreateLease(id, creation)) =>
      if !ValidTransactionId(id) then None
      else if id in s.leases then Some(Goto(s, a, Retry(root, n)))
      else if creation.NotCreated? then Some(Goto(s, a, BeginErr))
      else
        var s1 := s.(leases := s.leases[id := s.nextInode], nextInode := s.nextInode + 1);
        if creation.Created? then Some(Goto(s1, a, BeginFile(n, Handle(root, id, s.nextInode))))
        else Some(Goto(s1, a, BeginErr))
    case (BeginFile(n, h), LockLease(ok)) =>
      if ok && h.ino !in s.held
      then Some(Goto(s.(held := s.held[h.ino := a]), a, BeginLeased(n, h)))
      else if !ok then Some(Goto(s, a, BeginErr)) else None
    case (BeginLeased(n, h), MakeStage(ok)) =>
      if h.id in Dirs(s, h.root) then Some(Goto(s, a, Release(h, BackToTry(h.root, n))))
      else if !ok then Some(Goto(s, a, Release(h, BackWithError)))
      else
        var s1 := SetDirs(s, h.root, Dirs(s, h.root)[h.id := Dir(h.root, None, NoMeta)]);
        Some(Goto(s1, a, if h.root.Results? then BeginPrefix(h) else Ready(h)))
    case (BeginPrefix(h), MakePrefix(ok)) =>
      if h.id !in s.staging then None
      else if ok
      then Some(Goto(s.(staging := s.staging[h.id := Dir(Results, Some(EmptyFolder), NoMeta)]), a, Ready(h)))
      else Some(Goto(s, a, Wipe(h, ForBeginError)))
    case _ => None
  }

  // ----- the live handle --------------------------------------------------------

  // Builders write below the staging directory while the handle is live, and only then.
  function StepLive(s: State, a: Agent, op: Op): Option<State> {
    match (PcOf(s, a), op)
    case (Live(h), Write(dir)) =>
      if h.id in Dirs(s, h.root) && dir.born == h.root
      then Some(Goto(SetDirs(s, h.root, Dirs(s, h.root)[h.id := dir]), a, Live(h))) else None
    case (Live(h), StartCommit(rid)) =>
      if h.root.Results? then Some(Goto(s, a, CommitWait(h, rid))) else None
    case (Live(h), StartDrop) => Some(Goto(s, a, DropWait(h, true)))
    case (CommitWait(h, rid), LockStore(ok)) =>
      if !ok then Some(Goto(s, a, DropWait(h, true)))
      else if s.lock.None? && h.id in s.staging
      then Some(Goto(s.(lock := Some(a)), a, CommitCheck(Cx(h, rid, s.results, s.staging[h.id].prefix))))
      else None
    case (DropWait(h, leased), LockStore(ok)) =>
      if !ok then Some(Goto(s, a, if leased then CloseLease(h) else Idle))
      else if s.lock.None? then Some(Goto(s.(lock := Some(a)), a, Wipe(h, ForDrop(leased))))
      else None
    case (CloseLease(h), Close) =>
      Some(Goto(Closed(s, h).(abandoned := s.abandoned + {h.ino}), a, Idle))
    case _ => None
  }

  // ----- commit -----------------------------------------------------------------

  function StepCommit(s: State, a: Agent, op: Op): Option<State> {
    match (PcOf(s, a), op)
    case (CommitCheck(c), CheckTree(ok)) =>
      if !ok then Some(Goto(s, a, EarlyErr(c, true)))
      else if c.h.id in s.staging && s.staging[c.h.id].prefix.Some?
              && ValidOutputTree(s.staging[c.h.id].prefix.value)
      then Some(Goto(s, a, CommitMeta(c))) else None
    case (CommitMeta(c), WriteMeta(ok, left)) =>
      if c.h.id !in s.staging then None
      else
        var d := s.staging[c.h.id];
        if ok && d.meta.NoMeta?
        then Some(Goto(s.(staging := s.staging[c.h.id := d.(meta := Complete(c.rid))]), a, CommitPlace(c)))
        else if ok then None
        else
          var d1 := if d.meta.NoMeta? then d.(meta := left) else d;
          Some(Goto(s.(staging := s.staging[c.h.id := d1]), a, EarlyErr(c, true)))
    case (CommitPlace(c), CheckDestination(ok)) =>
      if !ok then Some(Goto(s, a, EarlyErr(c, true)))
      else if c.rid !in s.results then Some(Goto(s, a, CommitRename(c)))
      else if CompleteDir(s.results[c.rid], c.rid) then Some(Goto(s, a, Wipe(c.h, ForExisting(c))))
      else Some(Goto(s, a, EarlyErr(c, true)))
    case (CommitRename(c), Rename(ok)) =>
      if !ok then
        // The destination is looked at again before the error is returned.
        if c.rid in s.results && CompleteDir(s.results[c.rid], c.rid)
        then Some(Goto(s, a, Wipe(c.h, ForExisting(c))))
        else Some(Goto(s, a, EarlyErr(c, true)))
      else if c.h.id !in s.staging || c.rid in s.results then None
      else
        var d := s.staging[c.h.id];
        Some(Goto(s.(staging := s.staging - {c.h.id}, results := s.results[c.rid := d],
                    log := s.log + [Placed(c.h.id, c.rid, d)]), a, CommitVerify(c)))
    case (CommitVerify(c), VerifyPublished(ok)) =>
      if !ok then Some(Goto(s, a, Rollback(c, true)))
      else if c.rid in s.results && CompleteDir(s.results[c.rid], c.rid)
      then Some(Goto(s, a, Release(c.h, ThenSync(c)))) else None
    case (CommitSync(c), SyncResults(ok)) =>
      Some(Goto(s, a, if ok then CommitDone(c, Published) else Rollback(c, false)))
    case _ => None
  }

  // ----- fail_after_publish, rollback_published_result ---------------------------

  function StepRollback(s: State, a: Agent, op: Op): Option<State> {
    match (PcOf(s, a), op)
    case (Rollback(c, cleanup), RollbackCheck(ok)) =>
      Some(Goto(s, a, if ok then RollbackWipe(c, cleanup) else FailDone(c, Corrupt(false), cleanup)))
    case (RollbackWipe(c, cleanup), RollbackPartial(dir)) =>
      if c.rid in s.results && PrunedDir(dir, s.results[c.rid])
      then Some(Goto(s.(results := s.results[c.rid := dir], tainted := s.tainted + {c.rid}), a,
        RollbackWipe(c, cleanup)))
      else None
    case (RollbackWipe(c, cleanup), RollbackRemove(ok)) =>
      if ok
      then Some(Goto(s.(results := s.results - {c.rid}, tainted := s.tainted - {c.rid},
                       log := s.log + [Undone(c.h.id, c.rid)]), a, RollbackSync(c, cleanup)))
      else Some(Goto(s, a, FailDone(c, Corrupt(false), cleanup)))
    case (RollbackSync(c, cleanup), RollbackSynced(ok)) =>
      if !ok then Some(Goto(s, a, FailDone(c, Corrupt(false), cleanup)))
      else if cleanup then Some(Goto(s, a, Release(c.h, ThenFail(c))))
      else Some(Goto(s, a, FailDone(c, Failed, false)))
    case _ => None
  }

  // ----- remove_dir_all of a staging directory -----------------------------------

  // `begin` and both drops ignore an error of the removal; the others return it.
  function StepWipe(s: State, a: Agent, op: Op): Option<State> {
    match (PcOf(s, a), op)
    case (Wipe(h, k), WipePartial(dir)) =>
      if h.id in Dirs(s, h.root) && PrunedDir(dir, Dirs(s, h.root)[h.id])
      then Some(Goto(SetDirs(s, h.root, Dirs(s, h.root)[h.id := dir]), a, Wipe(h, k))) else None
    case (Wipe(h, k), WipeAll(ok)) =>
      if ok && h.id !in Dirs(s, h.root) then None
      else
        var s1 := if ok then SetDirs(s, h.root, Dirs(s, h.root) - {h.id}) else s;
        (match k
         case ForBeginError => Some(Goto(s1, a, Release(h, BackWithError)))
         case ForExisting(c) =>
           Some(Goto(s1, a, if ok then Release(h, ThenExisting(c)) else EarlyErr(c, true)))
         case ForDrop(leased) =>
           Some(Goto(s1, a, if leased then Release(h, ThenDropped) else DropDone))
         case ForScan(rec, root, todo) =>
           if ok
           then Some(Goto(s1, a, Release(h, ThenScan(rec.(gone := rec.gone + {h.id}), root, todo))))
           else Some(Goto(Closed(s1, h), a, RecoverEnd(rec, false))))
    case _ => None
  }

  // ----- release_and_remove_lock_file ---------------------------------------------

  function Released(next: After): Pc {
    match next
    case BackToTry(root, n) => Retry(root, n)
    case BackWithError => BeginErr
    case ThenExisting(c) => CommitDone(c, Existing)
    case ThenSync(c) => CommitSync(c)
    case ThenFail(c) => FailDone(c, Failed, false)
    case ThenDropped => DropDone
    case ThenScan(rec, root, todo) => Scan(rec.(count := rec.count + 1), root, todo)
    case ThenOrphans(rec, todo) => Orphans(rec, todo)
  }

  // The same on an error; the file is closed by then.
  function NotReleased(next: After): Pc {
    match next
    case BackToTry(root, n) => if root.Results? then Retry(root, n) else BeginErr
    case BackWithError => BeginErr
    case ThenExisting(c) => EarlyErr(c, false)
    case ThenSync(c) => Rollback(c, false)
    case ThenFail(c) => FailDone(c, Corrupt(true), false)
    case ThenDropped => DropDone
    case ThenScan(rec, root, todo) => RecoverEnd(rec, false)
    case ThenOrphans(rec, todo) => RecoverEnd(rec, false)
  }

  function StepRelease(s: State, a: Agent, op: Op): Option<State> {
    match (PcOf(s, a), op)
    case (Release(h, next), RemoveLease(ok)) =>
      if ok then Some(Goto(s.(leases := s.leases - {h.id}), a, Unlock(h, next)))
      else Some(Goto(Closed(s, h), a, NotReleased(next)))
    case (Unlock(h, next), UnlockLease(ok)) =>
      Some(Goto(Closed(s, h), a, if ok then Released(next) else NotReleased(next)))
    case _ => None
  }

  // ----- dropping the store lock on return -----------------------------------------

  // Where an agent goes that returns, dropping the store lock.
  function AfterReturn(pc: Pc): Option<Pc> {
    match pc
    case Ready(h) => Some(Live(h))
    case BeginErr => Some(Idle)
    case CommitDone(_, _) => Some(Idle)
    case FailDone(c, _, leaseOpen) => Some(if leaseOpen then CloseLease(c.h) else Idle)
    // The store lock is a local of `commit` and goes first; then the handle drops.
    case EarlyErr(c, leased) => Some(DropWait(c.h, leased))
    case DropDone => Some(Idle)
    case RecoverEnd(_, _) => Some(Idle)
    case _ => None
  }

  // What a return from `commit` is recorded as.
  function ReturnEvents(pc: Pc): seq<Event> {
    match pc
    case CommitDone(c, outcome) => [Returned(c.h.id, c.rid, outcome)]
    case FailDone(c, outcome, _) => [Returned(c.h.id, c.rid, outcome)]
    case EarlyErr(c, _) => [Returned(c.h.id, c.rid, Failed)]
    case _ => []
  }

  function StepUnlocked(s: State, a: Agent): Option<State> {
    match AfterReturn(PcOf(s, a))
    case None => None
    case Some(pc) => Some(Goto(s.(lock := None, log := s.log + ReturnEvents(PcOf(s, a))), a, pc))
  }

  // ----- recover_abandoned -----------------------------------------------------------

  function StepRecover(s: State, a: Agent, op: Op): Option<State> {
    match (PcOf(s, a), op)
    case (Idle, StartRecover) =>
      if s.lock.None?
      then Some(Goto(s.(lock := Some(a)), a,
                    Scan(Rec(0, {}, s.staging.Keys + s.sources.Keys, s.abandoned), Results, s.staging.Keys)))
      else None
    case (Scan(rec, root, todo), TryEntry(id, ok)) =>
      if id !in todo then None
      else if !ok || !ValidTransactionId(id) || id !in s.leases then Some(Goto(s, a, RecoverEnd(rec, false)))
      else if s.leases[id] in s.held then Some(Goto(s, a, Scan(rec, root, todo - {id})))
      else Some(Goto(s.(held := s.held[s.leases[id] := a]), a,
                    Wipe(Handle(root, id, s.leases[id]), ForScan(rec, root, todo - {id}))))
    case (Scan(rec, root, todo), NextRoot(ok)) =>
      if !ok then Some(Goto(s, a, RecoverEnd(rec, false)))
      else if todo != {} then None
      else if root.Results? then Some(Goto(s, a, Scan(rec, Sources, s.sources.Keys)))
      else Some(Goto(s, a, Orphans(rec, s.leases.Keys)))
    case (Orphans(rec, todo), TryOrphan(id, ok)) =>
      if id !in todo then None
      else if !ok || !ValidTransactionId(id) then Some(Goto(s, a, RecoverEnd(rec, false)))
      else if id in s.staging || id in s.sources then Some(Goto(s, a, Orphans(rec, todo - {id})))
      else if id !in s.leases then Some(Goto(s, a, RecoverEnd(rec, false)))
      else if s.leases[id] in s.held then Some(Goto(s, a, Orphans(rec, todo - {id})))
      else Some(Goto(s.(held := s.held[s.leases[id] := a]), a,
                    Release(Handle(Results, id, s.leases[id]), ThenOrphans(rec, todo - {id}))))
    case (Orphans(rec, todo), OrphansDone) =>
      if todo == {} then Some(Goto(s, a, RecoverEnd(rec, true))) else None
    case _ => None
  }

  // ----- get ---------------------------------------------------------------------------

  // `get` only reads, under the store lock: one step. A corrupt entry is an error, not an event.
  function StepGet(s: State, a: Agent, rid: ResultId): Option<State> {
    if !PcOf(s, a).Idle? || s.lock.Some? then None
    else if rid !in s.results then Some(Goto(s.(log := s.log + [Got(rid, None)]), a, Idle))
    else if CompleteDir(s.results[rid], rid)
    then Some(Goto(s.(log := s.log + [Got(rid, Some(s.results[rid]))]), a, Idle))
    else Some(Goto(s, a, Idle))
  }

  // ----- crash ---------------------------------------------------------------------------

  datatype DirAt = Anywhere | Here | Gone

  // What an agent at a program counter holds: the store lock, and for its handle
  // whether it has locked the lease file, whether the file is linked under the id,
  // and whether the staging directory is there, in the root of the handle.
  datatype Grip = NoHandle(lock: bool) | Grip(lock: bool, h: Handle, held: bool, linked: bool, dir: DirAt)

  // A commit releases its lease when its directory has gone; the others release theirs in any case.
  function DirAfter(next: After): DirAt {
    if next.ThenExisting? || next.ThenSync? || next.ThenFail? then Gone else Anywhere
  }

  function GripOf(pc: Pc): Grip {
    match pc
    case Idle => NoHandle(false)
    case BeginTry(_, _) => NoHandle(true)
    case BeginFile(_, h) => Grip(true, h, false, true, Anywhere)
    case BeginLeased(_, h) => Grip(true, h, true, true, Anywhere)
    case BeginPrefix(h) => Grip(true, h, true, true, Here)
    case Ready(h) => Grip(true, h, true, true, Here)
    case BeginErr => NoHandle(true)
    case Live(h) => Grip(false, h, true, true, Here)
    case CommitWait(h, _) => Grip(false, h, true, true, Here)
    case CommitCheck(c) => Grip(true, c.h, true, true, Here)
    case CommitMeta(c) => Grip(true, c.h, true, true, Here)
    case CommitPlace(c) => Grip(true, c.h, true, true, Here)
    case CommitRename(c) => Grip(true, c.h, true, true, Here)
    case CommitVerify(c) => Grip(true, c.h, true, true, Gone)
    case CommitSync(_) => NoHandle(true)
    case CommitDone(_, _) => NoHandle(true)
    case Rollback(c, cleanup) => if cleanup then Grip(true, c.h, true, true, Gone) else NoHandle(true)
    case RollbackWipe(c, cleanup) => if cleanup then Grip(true, c.h, true, true, Gone) else NoHandle(true)
    case RollbackSync(c, cleanup) => if cleanup then Grip(true, c.h, true, true, Gone) else NoHandle(true)
    case FailDone(c, _, leaseOpen) => if leaseOpen then Grip(true, c.h, true, true, Anywhere) else NoHandle(true)
    case EarlyErr(c, leased) => Grip(true, c.h, leased, leased, if leased then Here else Gone)
    case DropWait(h, leased) => Grip(false, h, leased, leased, if leased then Here else Gone)
    case CloseLease(h) => Grip(false, h, true, true, Anywhere)
    case Wipe(h, k) =>
      if k.ForDrop? && !k.leased then Grip(true, h, false, false, Gone) else Grip(true, h, true, true, Here)
    case Release(h, next) => Grip(true, h, true, true, DirAfter(next))
    case Unlock(h, next) => Grip(true, h, true, false, DirAfter(next))
    case DropDone => NoHandle(true)
    case Scan(_, _, _) => NoHandle(true)
    case Orphans(_, _) => NoHandle(true)
    case RecoverEnd(_, _) => NoHandle(true)
  }

  // Every lock of the agent goes; nothing on disk changes.
  function StepCrash(s: State, a: Agent): State {
    var s1 := Goto(s.(lock := if s.lock == Some(a) then None else s.lock), a, Idle);
    match GripOf(PcOf(s, a))
    case Grip(_, h, true, _, _) => Closed(s1, h).(abandoned := s.abandoned + {h.ino})
    case _ => s1
  }

  // One step of one agent; None when the op is not what the agent does next.
  function Step(s: State, a: Agent, op: Op): Option<State> {
    match op
    case StartBegin(_) => StepBegin(s, a, op)
    case CreateLease(_, _) => StepBegin(s, a, op)
    case LockLease(_) => StepBegin(s, a, op)
    case MakeStage(_) => StepBegin(s, a, op)
    case MakePrefix(_) => StepBegin(s, a, op)
    case Unlocked => StepUnlocked(s, a)
    case Write(_) => StepLive(s, a, op)
    case StartCommit(_) => StepLive(s, a, op)
    case StartDrop => StepLive(s, a, op)
    case LockStore(_) => StepLive(s, a, op)
    case Close => StepLive(s, a, op)
    case CheckTree(_) => StepCommit(s, a, op)
    case WriteMeta(_, _) => StepCommit(s, a, op)
    case CheckDestination(_) => StepCommit(s, a, op)
    case Rename(_) => StepCommit(s, a, op)
    case VerifyPublished(_) => StepCommit(s, a, op)
    case SyncResults(_) => StepCommit(s, a, op)
    case RollbackCheck(_) => StepRollback(s, a, op)
    case RollbackPartial(_) => StepRollback(s, a, op)
    case RollbackRemove(_) => StepRollback(s, a, op)
    case RollbackSynced(_) => StepRollback(s, a, op)
    case WipePartial(_) => StepWipe(s, a, op)
    case WipeAll(_) => StepWipe(s, a, op)
    case RemoveLease(_) => StepRelease(s, a, op)
    case UnlockLease(_) => StepRelease(s, a, op)
    case StartRecover => StepRecover(s, a, op)
    case TryEntry(_, _) => StepRecover(s, a, op)
    case NextRoot(_) => StepRecover(s, a, op)
    case TryOrphan(_, _) => StepRecover(s, a, op)
    case OrphansDone => StepRecover(s, a, op)
    case Get(rid) => StepGet(s, a, rid)
    case Crash => Some(StepCrash(s, a))
  }
}
