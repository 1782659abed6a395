# A verified model of Prep 2's core

Prep 2 builds packages from locked sources into a content-addressed store. This project models the parts
of it that have to be right for the rest to be trusted, and proves what they promise:

* **the result store** as a state machine over filesystem micro-steps (`StoreState.dfy`), with any number of
  agents, faults at every call and a crash between any two steps; its invariant (`StoreInvariant.dfy`,
  `StorePreservation.dfy`, `StoreTransitions.dfy`, `StoreRuns.dfy`), what follows for results and commits
  (`StoreSafety.dfy`), for leases and handles (`StoreLeases.dfy`) and for recovery (`StoreRecovery.dfy`), why the
  names may be relied on (`StoreNames.dfy`), what each call does (`StoreCalls.dfy`), concrete runs
  (`StoreExamples.dfy`), the store's operations as programs that perform those steps (`StoreProgram.dfy`), and
  recoveries that stop and are run again (`StoreRestart.dfy`);
* **the output tree** check and what its links can reach (`OutputTree.dfy`, `OutputContainment.dfy`), and the
  collisions of activated results (`Activation.dfy`);
* **the source cache** and the spooling of archives (`SourceCache.dfy`, `SourceSpool.dfy`), transaction ids
  (`TransactionIds.dfy`);
* **the archive pipeline**: admission policy (`ArchivePolicy.dfy`), the ustar preflight over a chunked reader
  (`ChunkedReader.dfy`, `Ustar.dfy`, `UstarStream.dfy`), what a name and a header means (`EntryNames.dfy`, `UstarHeader.dfy`),
  the round trip (`UstarRoundTrip.dfy`), snapshots with their second offset pass (`VerifiedUstar.dfy`) and
  extraction (`DirectoryTree.dfy`, `Extract.dfy`);
* **dependency ordering** (`DependencyGraph.dfy`, `Lockfiles.dfy`), **build identities** (`Manifest.dfy`,
  `Frames.dfy`, `Identity.dfy`) and **git tree listings** (`GitTree.dfy`).

`Prelude.dfy`, `Bytes.dfy`, `Ordering.dfy` and `Faults.dfy` are shared. `dafny verify dfyconfig.toml` checks it all.

## How the model stands for the program

* Text is bytes. The archive code refuses anything that is not ASCII, and text that is not UTF-8 with the same
  error, so UTF-8 decoding is not modelled there; git paths may be any UTF-8, which is a parameter.
* SHA-256 (FIPS 180-4) is a function parameter, in lower-case hexadecimal. Nothing is assumed of it; the one
  theorem that needs it says "unless it collides on these two streams".
* The archive format is the ustar Interchange Format of the `pax` utility in POSIX.1 (IEEE Std 1003.1), restricted
  as the program restricts it. Readers and schedules of failing calls are parameters: a reader delivers pieces of
  any size, can be interrupted and can fail, and holds fewer than 2^64 bytes.
* The 128 names that `begin` tries are a parameter, each of them one that `transaction_id` can make.
* A `BTreeMap` is a map where its order does not matter, and its list of entries in key order where it does.
* In the store one agent is one thread of activity; a crash of a process is a crash of each of its agents. The
  operating system drops the locks of a crashed agent and nothing on disk changes. Syncing is part of the step
  that can fail with it and changes nothing visible. `get` only reads under the store lock and is one step.
* One hypothesis stands before the store invariant, and so before everything said of results, commits and handles.
  *FreshName*: a new stage does not take the name of a transaction that is being dropped after its lease was given
  up. What goes wrong without it is `StoreExamples.ReusedNameLosesStage`. The account a recovery gives of itself also
  needs *NewName*: a new stage does not take the name of a directory left in the other root; what goes wrong without
  that is `StoreExamples.ReusedNameEscapesRecovery`. Both hold in every run whose created leases come from distinct
  processes, times and counts (`StoreNames.DistinctStampsSuffice`).
* No theorem about results assumes that a removal succeeds. That every staging directory has its lease is kept by
  exactly the steps that do not unlink the lease of a directory that is still there (`StoreLeases.CoveredExactly`).
* Nobody writes below a staging prefix once its commit has begun.

## What the code does not do

* A rollback that is interrupted leaves its entry in the results; if what is left still validates it is served
  (`StoreSafety.CrashedRollbackCanBeServed`; `StoreExamples.DamagedResultIsServed` is a run that does it). What is
  left is always part of what was placed, and validates exactly when its metadata and prefix directory are still there
  (`StoreSafety.LeftByRollback`). All other guarantees about results therefore speak of entries that no rollback has
  begun to delete, and of published ones, which no rollback touches.
* A drop, or a `begin` that fails, deletes the lease of a directory whether or not the directory could be removed. A
  directory that is left that way (`StoreExamples.DropUncovers`) makes every later recovery end in an error, since
  recovery opens the lease of each directory it lists (`StoreRecovery.StrayStopsRecovery`), until the name is used
  again.
* The check on symlinks is lexical. `OutputContainment.ContainedExactly` says for which targets that is enough.
* `ResultId::parse` accepts a doubled tag (`Identity.DoubledTag`), and cycles out of reach of the roots are accepted
  (`Lockfiles.UnreachableCycleAccepted`).
* `verify_archive_bytes` does not retry interrupted reads, although every other reader here does: the locked bytes
  are refused with an I/O error exactly when one of the reads it makes is interrupted or fails
  (`VerifiedUstar.FailsExactly`, `VerifiedUstar.InterruptedIsRefused`).
* The error branches of the offset loop and of the extractor's size checks cannot be taken on an inspected archive.

## Model

| member | source | states |
|---|---|---|
| `StoreRuns.StartsWell` | crates/prep-store/src/lib.rs:195-221 | an empty store satisfies the invariant |
| `StoreRuns.StepKeeps` | crates/prep-store/src/lib.rs:228-961 | every step of every agent (begin, write, commit, rollback, both drops, recovery, get, crash), faulty or not, keeps the whole invariant; the one hypothesis is *FreshName* on the names of new stages |
| `StoreRuns.RunKeeps` | crates/prep-store/src/lib.rs:228-961 | the same for every finite interleaving of any number of agents, with a crash possible between any two micro-steps |
| `StoreLeases.HandlesHoldLeases` | crates/prep-store/src/lib.rs:228-338 | in every reachable state, whatever removals failed before, every live handle still has its directory, its linked lease and the lock on it |
| `StoreLeases.CoveredExactly` | crates/prep-store/src/lib.rs:474-526 | a step keeps "every directory has its lease" if and only if it is not the unlink of a lease whose directory is still there |
| `StoreLeases.OnlyIgnoredFailuresUncover` | crates/prep-store/src/lib.rs:949-961 | in every run, the first such unlink is one of a drop or of a failed `begin`, which ignore what became of the removal |
| `StoreExamples.DropUncovers` | crates/prep-store/src/lib.rs:781-792 | a concrete run from the empty store in which it happens: a drop whose removal fails leaves a directory without a lease |
| `StoreRecovery.StrayStopsRecovery` | crates/prep-store/src/lib.rs:474-526 | once a directory has no lease, a recovery that has not passed it never ends without an error, whatever all agents do, until a lease of that name is created again |
| `StoreLeases.LeasesProtectStaging` | crates/prep-store/src/lib.rs:228-338 | in every run without the unlink of a lease whose directory is still there, every directory of either staging root has its lease file and no id is in both roots |
| `StoreLeases.StageNameIsFree` | crates/prep-store/src/lib.rs:243-258 | while every directory has its lease, a name whose lease was just created names no directory in either root, so the `AlreadyExists` retry of the directory is never taken |
| `StoreNames.DistinctStampsSuffice` | crates/prep-store/src/lib.rs:1594-1600 | in a run whose created leases come from pairwise distinct (pid, time, count), every step satisfies both hypotheses on names |
| `StoreExamples.ReusedNameLosesStage` | crates/prep-store/src/lib.rs:949-961 | a concrete run from the empty store, with one name used again, in which a drop without a lease removes the directory of another live handle |
| `StoreSafety.HolderIsLast` | crates/prep-store/src/lib.rs:851-867 | the holder of a result id is the last rename to it, with no rename or rollback of the id after it |
| `StoreSafety.PublishedIsFinal` | crates/prep-store/src/lib.rs:817-889 | after a commit returned `Published`, no later event renames to, rolls back or publishes that id again |
| `StoreSafety.AtMostOnePublished` | crates/prep-store/src/lib.rs:817-889 | in every run at most one commit of an id returns `Published` |
| `StoreSafety.ResultsAreCommitted` | crates/prep-store/src/lib.rs:1125-1163 | in every reachable state an entry that no rollback has begun to delete is a complete tree with metadata for its id, comes from the build staging root, and is byte for byte what the last rename to that id placed |
| `StoreSafety.OnlyRollbackAlters` | crates/prep-store/src/lib.rs:919-928 | no step alters or removes a result except the rollback of the commit that placed it, before that commit returned `Published`, and that only by taking parts of it away |
| `StoreSafety.PublishedForever` | crates/prep-store/src/lib.rs:817-928 | a published result is still there, unchanged, after any continuation of the run |
| `StoreSafety.CrashedRollbackCanBeServed` | crates/prep-store/src/lib.rs:919-928 | where the guarantee stops: from every state with a rollback in its removal, for every part of the entry that keeps metadata and prefix directory, a crash after removing the rest lets `get` return that part |
| `StoreSafety.LeftByRollback` | crates/prep-store/src/lib.rs:919-928 | in every reachable state every entry, interrupted rollbacks included, is part of what was last placed at its id, and it passes validation if and only if its metadata and prefix directory are still there |
| `StoreExamples.DamagedResultIsServed` | crates/prep-store/src/lib.rs:919-928 | a concrete run from the empty store that ends with `get` returning a tree with one of two committed files |
| `StoreSafety.ReturnMeans` | crates/prep-store/src/lib.rs:881-917 | at every return point of `commit` the reported outcome is true of the results, compared with those at the store lock |
| `StoreSafety.CommitOutcome` | crates/prep-store/src/lib.rs:817-928 | for every interleaving between taking the lock and returning: `Published` means the id was absent and now holds exactly the prefix staged at the lock, complete, and nothing else changed; `Existing`, an error, and the corruption reported for a failed lease cleanup after the rollback leave the results as they were; the one reported for a failed rollback means that at most the id now has part of the complete directory that was placed |
| `StoreSafety.HeldStagingIsSafe` | crates/prep-store/src/lib.rs:474-526 | no step of anyone, recovery included, removes or changes a staging directory or lease that another agent holds |
| `StoreRecovery.RecoveryIsComplete` | crates/prep-store/src/lib.rs:466-566 | a recovery that ends without an error, whatever others do meanwhile and whatever removals failed before, leaves only leases that are held or were given up during it, no directory without a lease, and a count equal to the directories it removed, and no other directory came or went |
| `StoreRecovery.RecoveryIsCompleteWhileLeased` | crates/prep-store/src/lib.rs:466-566 | the same without any hypothesis on names left in the other root, in every run that unlinks no lease of a directory |
| `StoreExamples.ReusedNameEscapesRecovery` | crates/prep-store/src/lib.rs:474-526 | a concrete run from the empty store, with a name used again in the other root, in which a recovery ends without an error and leaves a directory without a lease |
| `StoreProgram.Store.Begin` | crates/prep-store/src/lib.rs:228-338 | without faults it takes the first of the 128 names that has neither a lease nor a directory in that root, makes exactly its lease and an empty stage and changes nothing else, and gives up exactly when every name is taken; under any faults, a live handle with its own new stage, linked lease and lease lock, or nothing; results untouched and the store lock released |
| `StoreProgram.Store.Stage` | crates/prep-store/src/lib.rs:247-260 | the directories of one attempt: exactly the stage is made, or the name is taken and the lease goes again; where only the making of the directory fails, the lease is gone too |
| `StoreProgram.Store.MakePrefixIn` | crates/prep-store/src/lib.rs:260-265 | where only the making of the prefix fails, stage and lease are gone and nothing else is |
| `StoreProgram.StepClears` | crates/prep-store/src/lib.rs:474-566 | a step of recovery only removes, and removes nothing whose lease another agent holds |
| `StoreProgram.Store.ReleaseAndRemoveLockFile` | crates/prep-store/src/lib.rs:1513-1531 | unlinks, then unlocks; on success the lease is gone, nothing else changes |
| `StoreProgram.Store.RollbackPublishedResult` | crates/prep-store/src/lib.rs:919-928 | check, removal and sync, each able to fail; on success the entry is gone and the others are as they were, on failure it is whole, gone or part of what it was, and the others are as they were; without faults it succeeds |
| `StoreProgram.Store.FailAfterPublish` | crates/prep-store/src/lib.rs:891-917 | rolls back and cleans up the lease; `Failed`, and the corruption reported for the lease, mean the entry is gone and the other results are as they were; the one reported for the rollback that at most this entry was cut down; without faults the outcome is `Failed` |
| `StoreProgram.Store.Settle` | crates/prep-store/src/lib.rs:869-889 | validates the published entry, releases the lease and syncs; without faults the outcome is `Published` |
| `StoreProgram.Store.FinishExisting` | crates/prep-store/src/lib.rs:832-849 | removes the redundant stage and its lease; without faults the outcome is `Existing` |
| `StoreProgram.Store.Publish` | crates/prep-store/src/lib.rs:818-889 | `commit` under the store lock; without faults the outcome is decided by the staged tree and the destination alone |
| `StoreProgram.Store.Commit` | crates/prep-store/src/lib.rs:817-961 | the whole of `commit` with the drop of its handle, in any store whose names were in order, whatever removals failed before: the outcome is true of the results, what is published is permitted path by path, and the store lock is released; without faults it is `Published` exactly when everything in the staged tree is permitted, no metadata is in the way and the id is free, `Existing` exactly when a whole result is there, and nothing but the stage and its lease is gone from the staging roots and leases |
| `StoreProgram.Store.Drop` | crates/prep-store/src/lib.rs:949-961 | changes no result; without faults exactly the directory and its lease are gone |
| `StoreProgram.Store.RecoverStagingRoot` | crates/prep-store/src/lib.rs:474-526 | without an error, exactly the listed directories and leases that nobody held are gone, unchanged otherwise, and the count is theirs; without faults it ends so if every listed directory has a lease and a valid name |
| `StoreProgram.Store.RemoveOrphanedUnlockedLeases` | crates/prep-store/src/lib.rs:528-566 | without an error, exactly the leases that nobody held and that had no directory are gone; without faults it ends so if and only if the names are valid |
| `StoreProgram.Store.RecoverAbandoned` | crates/prep-store/src/lib.rs:466-472 | on success exactly the directories and leases that somebody holds are left, unchanged, and the count is exactly that of the directories that went; without faults it succeeds if and only if every directory has a lease, every name is valid and no lease that nobody holds has directories in both roots |
| `StoreProgram.RecoversAll` | crates/prep-store/src/lib.rs:466-566 | the two passes over the staging roots and the one over the leases together leave exactly what is held, and were possible only where every directory has its lease |
| `StoreProgram.RecoversTwice` | crates/prep-store/src/lib.rs:466-566 | a second recovery removes nothing and counts nothing, and can succeed where the first could |
| `StoreProgram.ShelteredIsRecoverable` | crates/prep-store/src/lib.rs:466-566 | where every directory has its lease, in every state of the store the condition for a successful recovery holds |
| `StoreRestart.StoppedRecoveryIsFinished` | crates/prep-store/src/lib.rs:466-566 | a store that could be recovered still can be after a recovery that stopped anywhere, by failing calls or a crash, and whatever recovery then succeeds leaves exactly what the first, not stopped, would have left |
| `StoreRestart.RecoverAgain` | crates/prep-store/src/lib.rs:466-566 | `recover_abandoned` after such a recovery: without faults it succeeds and leaves exactly what was held before the first one |
| `TransactionIds.TransactionIdValid` | crates/prep-store/src/lib.rs:1594-1608 | every id made from a 32-bit pid, 128-bit nanoseconds and a 64-bit counter is one recovery recognises, at most 64 characters long |
| `TransactionIds.TransactionIdInjective` | crates/prep-store/src/lib.rs:1594-1600 | equal ids come from equal pid, time and counter |
| `TransactionIds.DigitsRead` | crates/prep-store/src/lib.rs:1594-1600 | the parts of an id are the decimal and hexadecimal digits of their numbers, without leading zeros |
| `TransactionIds.ValidNamesAFile` | crates/prep-store/src/lib.rs:1602-1608 | a name that recovery recognises is that of one file below the directory it is joined to |
| `OutputTree.ValidateSymlink` | crates/prep-store/src/lib.rs:1244-1294 | the vector loop accepts a target exactly when it is relative and no beginning of it has more `..` than levels to go up |
| `OutputTree.CheckDirectory` | crates/prep-store/src/lib.rs:1206-1242 | the recursive loop accepts exactly the trees in which every path leads to a directory, a file with one name or a relative link that never climbs above the prefix, and so nothing special |
| `OutputTree.ValidIsSound` | crates/prep-store/src/lib.rs:1189-1242 | the check as a whole: the root is a real directory and every path below it leads to something permitted |
| `OutputContainment.StaysInside` | crates/prep-store/src/lib.rs:1206-1294 | in an accepted tree whose links go up first, a walk that goes up first and not too far never leaves the tree through any chain of links, and arrives only at real objects |
| `OutputContainment.PathsStayInside` | crates/prep-store/src/lib.rs:1206-1294 | no path without `..` leads out of such a tree, for any number of steps |
| `OutputContainment.ContainedExactly` | crates/prep-store/src/lib.rs:1265-1292 | a target at a given depth is contained in every accepted tree whose links go up first if and only if the lexical check accepts it and every `..` in it precedes every ordinary component |
| `OutputContainment.AcceptedYetEscapes` | crates/prep-store/src/lib.rs:1265-1292 | a concrete accepted tree in which following a link leads out |
| `Activation.CollectLeafPaths` | crates/prep-store/src/lib.rs:1322-1348 | adds the result's id at exactly its leaves, in whatever order directories are read |
| `Activation.CheckResults` | crates/prep-store/src/lib.rs:1018-1027 | passes exactly distinct results with valid trees |
| `Activation.Collisions` | crates/prep-store/src/lib.rs:1017-1071 | reports exactly the paths at which two or more results have a leaf, each with all of them in the given order |
| `Activation.IdsAreTheirs` | crates/prep-store/src/lib.rs:1322-1348 | an id is listed at a path exactly when its result has a leaf there |
| `Activation.FileOverDirectoryIsSilent` | crates/prep-store/src/lib.rs:1051-1063 | a file of one result where another has a directory is not reported |
| `SourceCache.StepKeeps` | crates/prep-store/src/lib.rs:354-450 | every step of caching, stage removal and crash keeps the cache invariant, in which a call that is about to report success has its digest in the cache |
| `SourceCache.RunKeeps` | crates/prep-store/src/lib.rs:354-450 | the same for every interleaving |
| `SourceCache.CacheAgrees` | crates/prep-store/src/lib.rs:354-376 | in every run a name in the cache is the digest of its file, and a read returns those bytes or fails for size or a second name, never as corrupt |
| `SourceCache.SuccessIsCached` | crates/prep-store/src/lib.rs:399-450 | in every run, a call that reports success has its digest in the cache, on bytes with that digest |
| `SourceCache.NewCall` | crates/prep-store/src/lib.rs:399-450 | without faults, a call for a digest that is not cached ends in success with exactly that name added, and every read of it from then on returns the bytes |
| `SourceCache.PresentCall` | crates/prep-store/src/lib.rs:405-411 | without faults, a call for a digest that is cached succeeds exactly if it can be read, and changes nothing |
| `SourceCache.PartInTheWay` | crates/prep-store/src/lib.rs:413-424 | a part file that is left over in the stage makes the call fail and changes nothing |
| `SourceCache.NeverOverwritten` | crates/prep-store/src/lib.rs:399-450 | no step removes a cached name, gives it to another file or changes its bytes |
| `SourceCache.LinksAre` | crates/prep-store/src/lib.rs:1478-1493 | a cached file has two names exactly while some stage still has its part file, else one |
| `SourceCache.ReadsExactly` | crates/prep-store/src/lib.rs:354-376 | the result of every read in every reachable state: it fails closed exactly while there is a second name or the size is over the limit, else it returns the whole blob |
| `SourceCache.SecondNameInStage` | crates/prep-store/src/lib.rs:443-448 | a second name is in exactly one existing stage |
| `SourceCache.RecoveryRestoresReads` | crates/prep-store/src/lib.rs:474-526 | removing that stage's part makes a blob that could not be read readable again, with the copied bytes |
| `SourceCache.WholeRecoveryRestoresReads` | crates/prep-store/src/lib.rs:474-526 | a recovery of all stages that nobody holds takes nothing from the cache, and after it a blob that fits is read as it was copied unless its second name is in a stage that is held |
| `SourceSpool.SourceStage.SpoolUnverifiedArchive` | crates/prep-store/src/lib.rs:611-687 | for every schedule of short, interrupted and failing reads: the blob appears only as the whole input, never over another, within the cap; `AlreadyStaged` exactly when one is there and the store lock was had; without faults the result depends on the bytes alone |
| `SourceSpool.SourceStage.Transfer` | crates/prep-store/src/lib.rs:641-682 | the loop, the sync and the rename, with the same guarantee |
| `SourceSpool.OneWholeBlob` | crates/prep-store/src/lib.rs:611-687 | several threads spooling into one new stage, in every interleaving of their steps with failures: at most one call returns `Ok`, the blob is its whole input, and once there it stays |
| `SourceSpool.OneThread` | crates/prep-store/src/lib.rs:611-687 | one thread alone, no call failing: the whole input is in the blob and the call returns `Ok`, or it is over the limit and there is no blob |
| `ArchivePolicy.ValidateInventory` | crates/prep-core/src/archive_policy.rs:45-130 | accepts exactly the admissible inventories, an order-free predicate, with their exact total; every accepted entry is as `ArchivePolicy.EntryOkExactly` says; every error is attributed and equals the policy function |
| `ArchivePolicy.EntryOkExactly` | crates/prep-core/src/archive_policy.rs:58-110 | an entry is in order if and only if its name has no backslash, colon, control byte or DEL, is the one spelling of a way down from the target, at most 128 steps long, and means nothing else on other systems, and it is a file within the limit or an empty directory |
| `EntryNames.PathOkExactly` | crates/prep-core/src/source.rs:83-102 | a name is admitted if and only if it is within the length, has only harmless bytes and, read as a path with `.`, `..` and repeated slashes in force, leads below the directory and is the one spelling of that way, which is its components one by one |
| `EntryNames.PortableExactly` | crates/prep-core/src/archive_policy.rs:60-70 | a name is portable if and only if it is ASCII, no dot or space comes before a slash or the end, and no component is a device |
| `EntryNames.ReservedExactly` | crates/prep-core/src/archive_policy.rs:133-145 | a component is reserved if and only if what comes before its first dot is one of the listed devices, case aside |
| `Bytes.FoldsAlike` | crates/prep-core/src/archive_policy.rs:84-97 | two texts fold to the same if and only if they differ only in the case of letters |
| `ArchivePolicy.SpellComponents` | crates/prep-core/src/archive_policy.rs:79-97 | the component loop keeps ids 1..len in bijection with the folded prefixes seen, and fails only on a deep path or on two spellings of one prefix |
| `ArchivePolicy.CheckAncestors` | crates/prep-core/src/archive_policy.rs:117-128 | finds a regular file above another entry exactly if there is one |
| `ArchivePolicy.KnownIsOneSpelling` | crates/prep-core/src/archive_policy.rs:76-97 | case folding is injective on an accepted inventory: prefixes equal after folding are spelled the same |
| `ArchivePolicy.OpenIsNoFileAbove` | crates/prep-core/src/archive_policy.rs:117-128 | the check on folded names is the absence of a file above an entry |
| `ArchivePolicy.AdmissiblePermutes` | crates/prep-core/src/archive_policy.rs:45-130 | acceptance and the total do not depend on the order of the entries |
| `ChunkedReader.Reader.ReadExact` | crates/prep-core/src/archive_tar.rs:128-141 | delivers exactly the next bytes over any short and interrupted reads, and fails only at the end or on a fault |
| `Ustar.ParsedSpells` | crates/prep-core/src/archive_tar.rs:19-126 | an accepted stream is exactly header, data and zero padding for each entry, then at least 1024 zero bytes, within the cap and the limits |
| `Ustar.SpelledParses` | crates/prep-core/src/archive_tar.rs:19-126 | every stream of that layout is accepted, as exactly those entries |
| `Ustar.SpellsOnce` | crates/prep-core/src/archive_tar.rs:19-126 | a stream splits into headers, data and padding in only one way and has at most one inventory |
| `Ustar.CutShort` | crates/prep-core/src/archive_tar.rs:19-141 | a stream that is in order but ends before its second zero block is complete is an I/O error, wherever it ends |
| `Ustar.TooManyMembers` | crates/prep-core/src/archive_tar.rs:50-53 | a stream in order with more members than allowed is too large |
| `Ustar.CapTooSmall` | crates/prep-core/src/archive_tar.rs:128-141 | a stream in order whose second zero block ends beyond the cap is too large |
| `UstarStream.ReadBlock` | crates/prep-core/src/archive_tar.rs:128-141 | the block read, against the cap, is the abstract block read |
| `UstarStream.Checksum` | crates/prep-core/src/archive_tar.rs:58-65 | the checksum loop is the sum that `UstarHeader.ChecksumCounts` speaks of |
| `UstarHeader.ChecksumCounts` | crates/prep-core/src/archive_tar.rs:58-65 | the checksum is the sum of the 504 bytes outside its field, plus 256 |
| `UstarHeader.OctalMeans` | crates/prep-core/src/archive_tar.rs:153-165 | a numeric field is read as a number exactly when it is spaces, octal digits of that value, spaces and then NULs or spaces |
| `UstarHeader.HeaderMeans` | crates/prep-core/src/archive_tar.rs:54-98 | a header is accepted as an entry if and only if its fields say so: "ustar" and version "00", the sum of the other bytes plus 256, a size within the limit, a kind, and an ASCII name made of prefix and name that is harmless and the one spelling of a way down |
| `UstarHeader.HeaderFails` | crates/prep-core/src/archive_tar.rs:54-98 | a refused header is `TooLarge` exactly when magic and checksum are right and the size is over the limit, and `UnsafeEntryPath` otherwise |
| `UstarStream.SkipData` | crates/prep-core/src/archive_tar.rs:111-124 | consumes exactly the padded data and rejects a non-zero tail of the last block |
| `UstarStream.ReadTrailer` | crates/prep-core/src/archive_tar.rs:22-49 | the second zero block, then only zeros to the end, within the cap, over any pieces |
| `UstarStream.InspectUstar` | crates/prep-core/src/archive_tar.rs:11-126 | whatever pieces the reader delivers, an `Ok` is right, and without faults the result is a function of the bytes, `Ok` exactly when they parse and the inventory is admissible |
| `UstarRoundTrip.OctalInverse` | crates/prep-core/src/archive_tar.rs:153-165 | printing a number in octal and parsing it gives it back |
| `UstarRoundTrip.HeaderNumbersFit` | crates/prep-core/src/archive_tar.rs:153-165 | no header field can hold a number of 2^36 or more, so the overflow error of the octal parser is unreachable |
| `UstarRoundTrip.ChecksumReads` | crates/prep-core/src/archive_tar.rs:172-190 | the written checksum is the one the preflight computes |
| `UstarRoundTrip.HeaderReads` | crates/prep-core/src/archive_tar.rs:172-190 | a written header reads back as its inventory entry |
| `UstarRoundTrip.RoundTrip` | crates/prep-core/src/archive_tar.rs:172-190 | every admissible list of encodable members, encoded and concatenated, parses to exactly its inventory |
| `VerifiedUstar.VerifyArchiveBytes` | crates/prep-core/src/source.rs:46-78 | the result as a function of the bytes and of the fate of every read: `Io` exactly when a read it makes is interrupted or fails, else the verdict on length and digest |
| `VerifiedUstar.DigestDecides` | crates/prep-core/src/source.rs:46-78 | with reads that succeed: `Ok` exactly within the cap and with the locked digest, `TooLarge` exactly over the cap, a mismatch exactly within it and with another digest |
| `VerifiedUstar.FailsExactly` | crates/prep-core/src/source.rs:60-78 | every read succeeds if and only if none of those the loop makes, before the end or the cap, is interrupted or fails |
| `VerifiedUstar.InterruptedIsRefused` | crates/prep-core/src/source.rs:60-78 | the very bytes that are locked are refused when the first read is interrupted |
| `VerifiedUstar.SlicesAreData` | crates/prep-core/src/verified_ustar.rs:70-98 | the two passes agree: the offsets recomputed from the sizes select exactly the data the first pass read |
| `VerifiedUstar.SlicesDisjoint` | crates/prep-core/src/verified_ustar.rs:70-98 | the slices of different entries do not overlap |
| `VerifiedUstar.NoOverwrite` | crates/prep-core/src/verified_ustar.rs:95-97 | no entry overwrites another in the file index |
| `VerifiedUstar.IndexFiles` | crates/prep-core/src/verified_ustar.rs:70-98 | the offset loop never takes an error branch on an inspected stream, and indexes exactly the regular files |
| `VerifiedUstar.IndexExposes` | crates/prep-core/src/verified_ustar.rs:35-40 | every regular file is exposed under its name with exactly its bytes, and no other name is |
| `VerifiedUstar.ReadVerifiedUstarSnapshot` | crates/prep-core/src/verified_ustar.rs:46-105 | a snapshot is made only of bytes with the locked digest, exposes exactly their files, and without read faults the outcome, error by error, is fixed by the bytes |
| `VerifiedUstar.SnapshotRoundTrip` | crates/prep-core/src/verified_ustar.rs:46-105 | from encoded files to a snapshot: every file comes back byte for byte and nothing else does |
| `Extract.FileIsLeaf` | crates/prep-core/src/archive_policy.rs:117-128 | in an admitted inventory nothing else lies at or below a regular file |
| `Extract.AnswersAlike` | crates/prep-core/src/source_extract.rs:60-81 | whatever a case-insensitive directory answers to a component about to be made is spelled exactly like it |
| `Extract.EnsureSubdirectory` | crates/prep-core/src/source_extract.rs:60-81 | makes the directory, or reuses one of this extraction, or fails because something else is there |
| `Extract.WriteFile` | crates/prep-core/src/source_extract.rs:117-140 | the checks and the exclusive creation of a file all succeed, unless a call fails |
| `Extract.ExtractEntry` | crates/prep-core/src/source_extract.rs:99-142 | one entry extends the tree by exactly its directories and file |
| `Extract.ExtractVerifiedUstar` | crates/prep-core/src/source_extract.rs:87-147 | an admitted inventory extracts completely into an empty directory, on case-sensitive and case-insensitive trees, to exactly the intended tree with the exact total, and fails only by a failing call; otherwise nothing is written |
| `Extract.IntendedOnce` | crates/prep-core/src/source_extract.rs:99-142 | the intended tree is unique and does not depend on the order of the entries |
| `Extract.PackAndUnpack` | crates/prep-core/src/source_extract.rs:87-147 | files encoded, read through the lock and extracted are exactly those files, with exactly their ancestor directories |
| `DependencyGraph.VisitedRight` | crates/prep-core/src/graph.rs:101-133 | one visit extends a correct order, or finds a real simple cycle |
| `DependencyGraph.OrderedIsAcyclic` | crates/prep-core/src/graph.rs:88-99 | a complete dependency-first order excludes every reachable cycle |
| `DependencyGraph.BuildOrderRight` | crates/prep-core/src/graph.rs:88-133 | the traversal gives an order without duplicates, of exactly the reachable packages, dependencies first, and there is no reachable cycle; or it gives a reachable simple cycle |
| `DependencyGraph.LeftToRight` | crates/prep-core/src/graph.rs:88-133 | roots and dependencies are followed in the order of their lists, so that the order is one function of the lists |
| `DependencyGraph.Traversal.Visit` | crates/prep-core/src/graph.rs:101-133 | the recursion over the mutable sets, stack and order does what the functional traversal does, and terminates by the packages not yet on the stack |
| `DependencyGraph.BuildOrder` | crates/prep-core/src/graph.rs:88-99 | fails exactly when a cycle is reachable, reporting a real simple one; otherwise returns the build order |
| `Lockfiles.Validate` | crates/prep-manifest/src/lib.rs:465-500 | passes exactly the lockfiles with the schema, https archives, and no duplicate package, dependency or root dependency |
| `Lockfiles.FromLockfile` | crates/prep-core/src/graph.rs:44-86 | succeeds exactly when the lockfile validates, every dependency edge is closed and no cycle is reachable; a missing dependency is the first in byte order of the root, or else of the first package in byte order that misses one, and a cycle is a real simple one in a closed graph |
| `Lockfiles.GraphPermutes` | crates/prep-core/src/graph.rs:44-86 | rearranging packages and dependency lists changes neither validity nor graph nor build order |
| `Lockfiles.NormalisedIsRearranged` | crates/prep-manifest/src/lib.rs:551-560 | what `to_toml` writes is a rearrangement of the lockfile |
| `Lockfiles.NormalisedAscends` | crates/prep-manifest/src/lib.rs:551-560 | packages by name, and every dependency list, are written in ascending byte order |
| `Ordering.LeExactly` | crates/prep-manifest/src/lib.rs:551-560 | the order is that of strings: the first byte in which they differ decides, else the shorter comes first |
| `Lockfiles.NormalisedOnce` | crates/prep-manifest/src/lib.rs:551-560 | what is written depends on the contents alone, and has the same graph |
| `Lockfiles.UnreachableCycleAccepted` | crates/prep-core/src/graph.rs:94-98 | a cycle that no root reaches is accepted |
| `Manifest.CanonicalInjective` | crates/prep-manifest/src/lib.rs:407-415 | the canonical source text gives back kind, URL and commit or digest, whatever separators the URL holds |
| `Manifest.ParseDigest` | crates/prep-manifest/src/lib.rs:219-232 | accepts exactly 64 hexadecimal characters in either case, with or without the tag in any case, and returns them in lower case |
| `Frames.FramedInjective` | crates/prep-core/src/identity.rs:194-224 | a list of length-prefixed fields can be read back in only one way |
| `Frames.CountedInjective` | crates/prep-core/src/identity.rs:136-145 | a counted list inside the stream says where it ends |
| `Frames.DecimalInjective` | crates/prep-core/src/identity.rs:206-208 | different counts print differently |
| `Frames.DecimalReads` | crates/prep-core/src/identity.rs:206-208 | a count is printed as its decimal digits without leading zeros |
| `Frames.BigEndianReads` | crates/prep-core/src/identity.rs:210-213 | a length is the number that its bytes say, the most significant first |
| `Frames.IdentityHasher.Feed` | crates/prep-core/src/identity.rs:210-213 | feeds the 8-byte big-endian length and the bytes |
| `Identity.CheckDependencies` | crates/prep-core/src/identity.rs:106-113 | passes exactly lists without a repeated package; the package it names is one that occurs twice |
| `Identity.CheckTools` | crates/prep-core/src/identity.rs:117-123 | passes exactly valid tools without a repeated role; the role it names is one that occurs twice |
| `Identity.HashTool` | crates/prep-core/src/identity.rs:180-184 | feeds the three labelled fields of a tool |
| `Identity.HashMap` | crates/prep-core/src/identity.rs:186-192 | feeds the counted entries of a map |
| `Identity.ResultIdentity` | crates/prep-core/src/identity.rs:96-156 | an identity exactly for acceptable inputs, and then the tagged digest of the pre-image; a duplicate that is reported occurs twice |
| `Identity.FedInOrder` | crates/prep-core/src/identity.rs:104-123 | dependencies and tools are fed in ascending byte order of package and role, each as often as given |
| `Identity.StreamSpelledOut` | crates/prep-core/src/identity.rs:130-192 | the fields of the stream, label by label, for an input with one of everything |
| `Identity.PreImageInjective` | crates/prep-core/src/identity.rs:96-156 | two accepted inputs feed the digest the same bytes if and only if they agree on source kind, URL and commit or digest, target, toolchain, plugin and both maps, and on dependencies and tools up to order |
| `Identity.IdentityDecides` | crates/prep-core/src/identity.rs:96-156 | identities are equal exactly for the same build, unless the digest collides on these two streams |
| `Identity.DoubledTag` | crates/prep-core/src/identity.rs:11-20 | an accepted result identifier is one the store accepts if and only if its tag is not doubled |
| `Identity.TagsOfDigest` | crates/prep-core/src/identity.rs:11-20 | a doubled tag is accepted by `ResultId::parse` and refused by the store; a single one is read back by both |
| `GitTree.LineParses` | crates/prep-core/src/git_tree.rs:21-59 | a written record is read back |
| `GitTree.ParsedLine` | crates/prep-core/src/git_tree.rs:21-59 | whatever is read is what that record is written as |
| `GitTree.ValidateGitTreeListing` | crates/prep-core/src/git_tree.rs:7-62 | accepts `n` exactly when the bytes are `n` records written one after the other (mode, " blob ", object id, tab, path, NUL), each with a full object id and a harmless path that is the one spelling of a way down, with distinct paths and one object-id length, within the limit; the error is `TooLarge` exactly when the records up to the limit are in order and there is more |
| `GitTree.ListingInjective` | crates/prep-core/src/git_tree.rs:7-62 | a listing is spelled by only one list of records |

## Left out

- StoreRuns.StepKeeps: holds under *FreshName*; a run without it that loses a live handle's directory is `StoreExamples.ReusedNameLosesStage`.
- StoreRecovery.RecoveryIsComplete: holds under *FreshName* and *NewName*; a run without the second that escapes it is `StoreExamples.ReusedNameEscapesRecovery`.
- StoreProgram.Store.Commit: the programs run without interference from other agents; interleavings are the subject of the state machine.
- StoreProgram.Store.RecoverAbandoned: directory listings are complete and recovery reads each of them once, as under the store lock.
- SourceCache.StepKeeps: the store lock, stages and leases appear as far as the cache needs them; their own protocol is in the store modules.
- SourceSpool.SourceStage.SpoolUnverifiedArchive: no other thread acts between its two regions under the store lock; interleavings are the subject of `SourceSpool.OneWholeBlob`.
- Activation.Collisions: search paths of the plan (`bin`, `pkgconfig`) and the sorted order of the report are not modelled.
- OutputTree.CheckDirectory: the order in which a directory is read is arbitrary, and read errors are the fault branch of the commit step.
- Extract.ExtractVerifiedUstar: what a failed extraction leaves behind is not described; callers discard the target.
- Real operating-system calls, permissions, modes, canonical paths and inode races by outsiders: replaced by abstract steps that may fail.
- fsync and the order in which a power failure would lose writes: a crash here loses locks, never completed steps.
- `begin_unverified_source_tree` and `open_unverified_archive`: one guarded call each.
- TOML and JSON text, serde derivations, `Display` and `Error` implementations.
- Validators of names, versions, references and URLs, apart from the character sets that identities rely on.
- `validate_against` of the lockfile and manifests: equality checks field by field.
- Plugins, protocol frames, git processes, the command line and path resolution of the user's directories.
- Non-Unix branches and Unicode normalisation.
