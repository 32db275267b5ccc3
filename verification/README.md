# zfsbackup: a verified model

zfsbackup cuts a `zfs send` stream into numbered volumes, uploads them to several destinations and
publishes a manifest last. It resumes interrupted sends, plans its own fulls and incrementals,
restores chains and cleans up orphans. This project models those five parts in Dafny and proves what
each promises, over every input, every interleaving and every reachable state.

`dafny verify dfyconfig.toml` checks the whole project.

## The components

- **The send / resume / publish / clean protocol** (`Manifests`, `Resume`, `Protocol`,
  `ProtocolInvariant`, `ProtocolSteps`, `ProtocolWrites`, `ProtocolTheorems`, `ProtocolCovered`,
  `ProtocolPaths`, `ProtocolProgress`, `ProtocolCleanProgress`, `StaleCopy`). A state machine whose
  state is what survives a crash: the objects at each destination and the cached manifests. Each of
  its 25 steps is one write or one decision, so a run can die between any two. Uploads may be torn,
  sends go to any destinations, datasets are locked one at a time, cleans run beside sends of other
  datasets. The theorems say what no behaviour breaks, and that none gets stuck.
- **The goroutines of one send** (`Pipeline`). Splitter, forwarder, upload stages, recorder and
  finaliser as interleaved atomic steps with a cancel flag and the `pendingVolumes` counter.
- **The splitter and the manifest estimate** (`Splitter`, `Estimate`).
- **The smart planner** (`Planner`, `PlannerFacts`, `PlanRules`, `Chains`, `BackupRuns`,
  `PartialSets`, `Convergence`, `DestinationOrder`), **its simulator** (`Simulator`,
  `SimulatorRuns`, `SimulatorSchedule`, `SimulatorChecks`, `SimulatorTheorem`) **and snapshot
  schedule** (`Schedule`, `ScheduleComposition`, `ScheduleMeaning`).
- **Restore** (`Links`, `Restore`, `RestoreTheorem`, `Destroy`, `DestroyGuard`), with a small specification of what
  `zfs receive -F` accepts and destroys.
- **Clean and object names** (`Text`, `Names`, `Clean`, `CleanTheorems`, `CleanOthers`,
  `CleanStray`), on the real strings. `CleanRefines` proves that what this clean deletes is what the protocol's clean may
  delete.

The planner's decision is the function `Planner.PlanSmart`, exit by exit as `planSmart` has them;
loops and objects that the program updates in place are methods and classes.

## Where the program does not do what it says

Each of these is a proved lemma with a concrete input, next to the exact condition under which the
promise holds.

- **A crash between uploading a copied manifest and caching it can cost a volume.**
  `uploadManifest` (backup/backup.go:1101-1123) uploads first and caches second, and readers prefer
  the cached copy (backup/sync.go:371-381). If an older, shorter copy is cached for that destination
  and the run dies in between, a later clean goes by the short copy and deletes volumes of the
  published set. `StaleCopy.IntegrityCanFail` is such a behaviour from the empty state.
  `ProtocolTheorems.PublishedManifestsRestore` proves integrity for every behaviour, that crash
  included, as long as each clean decides while the cached copies list what the manifests list;
  `ProtocolTheorems.ReachableCleanBreaksIff` proves that in every such reachable state a clean may
  break a set exactly when a copy does not. `ProtocolCovered.OnlyThatCrashMatters`: without that one
  crash the copies are always complete.
- **The `-F` guard does not protect the snapshot a chain starts from.** A `--replication`
  incremental after the first step destroys what the sender no longer had, and the guard exempts the
  chain's source (backup/restore.go:849-886). `Destroy.GuardMissesSource`, `Destroy.GuardSoundIff`.
- **A full can mix raw and plain streams in an existing chain.** `planSmart` compares stream kinds
  for incrementals only; a full with the other `--raw` of a snapshot that already has children
  becomes their parent. `BackupRuns.FullCanMixKinds`, `BackupRuns.FullKeepsKindsIff`.
- **Completing a partial set can mix them too.** Its volumes are checked and its manifest is
  copied to the destinations that lack it (backup/plan.go:271-274, backup/backup.go:1059-1096),
  whatever kind its parent has there.
  `BackupRuns.PartialCanMixKinds`, `BackupRuns.PartialKeepsKindsIff`.
- **The advised `--volsize` need not be the smallest that fits**, which the comment at
  backup/backup.go:1373 says it is. `Estimate.AdviceNotSmallest` is a stream for which a smaller one
  passes; `Estimate.AdviceSmallestIff` says when the advice is smallest.
- **The advised `--volsize` can be refused in turn.** Larger volumes have sizes with more digits, so
  each costs more in the manifest. `Estimate.AdviceCanBeRefused`, `Estimate.FollowedAdviceIff`.
- **A second clean can delete more.** When a manifest of a busy dataset lists a volume of another
  dataset whose name reads as the manifest of a nested destination, the first clean deletes it, and
  the second the orphans it protected. `CleanStray.SecondCleanDeletes`; `CleanTheorems.SecondDeletesIff`
  says what a second clean deletes, `CleanTheorems.CleanTwice` when it is nothing.
- **`--separator " "` passes the check** (files/jobinfo.go:46) although zfs allows a space in names.
  `Names.SpaceIsAcceptedButUnsafe`; `Names.AcceptedSafeIff` says which accepted separators are safe.

## Model

| member | source | states |
|---|---|---|
| `ProtocolTheorems.PublishedManifestsRestore` | backup/backup.go:992-1123 | In every state of every behaviour (any sends, resumes, manifest copies and cleans without --force, to any destinations, under the lock, dying anywhere) in which each clean decides on complete cached copies, each volume a manifest at a destination lists is stored there with the recorded size and hash, the volumes decode in order to one whole stream, and each cache records only what is absent or stored byte for byte |
| `ProtocolTheorems.ReachableCleanBreaksIff` | backup/sync.go:371-411 | In every state such a behaviour reaches, a clean of a dataset may delete a volume of a published manifest if and only if some cached copy lists fewer volumes than its manifest |
| `ProtocolCovered.OnlyThatCrashMatters` | backup/backup.go:1101-1123 | In every behaviour without a crash between the upload of a copied manifest and its cache write, every clean decides on complete copies, so integrity and cache truth hold throughout |
| `ProtocolCovered.NextCovered` | backup/backup.go:1101-1123 | Every one of the 25 steps but that crash keeps the cached copies as long as the manifests |
| `ProtocolTheorems.NextKeeps` | backup/backup.go:1654-1745 | Every one of the 25 steps, dying at any point included, keeps the protocol invariant; a clean's decision when it is made on complete copies |
| `ProtocolTheorems.CleanBreaksIffCopyStale` | backup/sync.go:371-411 | The same of any state whose manifests and caches are sound, reachable or not |
| `StaleCopy.IntegrityCanFail` | backup/backup.go:1101-1123 | Integrity fails at the end of a concrete behaviour from the empty state: whole set at A, interrupted attempt at B, copied manifest whose cache write is lost, clean of B |
| `ProtocolInvariant.InvGivesIntegrity` | backup/backup.go:1751-1757 | The invariant gives published-manifest integrity and cache truth |
| `ProtocolTheorems.CleanDeleteKeeps` | backup/clean.go:580-586 | Deleting one object of a decided clean breaks no published set and no cache, whatever other datasets' sends do meanwhile |
| `ProtocolSteps.ResumeKeeps` | backup/backup.go:1659-1745 | A resume that keeps the longest verified prefix starts from volumes that are right at every destination, even after earlier sends to only some of them |
| `ProtocolProgress.SendCanFinish` | backup/backup.go:992-1123 | From every state, whatever crashed before, a job whose dataset is free and that no destination has a manifest of can be sent: some steps lead to the volume and a final manifest of the whole stream at every destination, with nothing else changed but caches |
| `ProtocolProgress.ResumeCanFinish` | backup/backup.go:1659-1745 | From every state where the cached attempt is of this identity and compressor and a prefix of its volumes stands everywhere, a resume with a stream that starts as they do leads to a final manifest of them and the rest at every destination |
| `ProtocolProgress.ReuploadCanFinish` | backup/backup.go:1720-1745 | With a final cached manifest and all its volumes in place a resume leads to that manifest at every destination |
| `ProtocolProgress.CopyCanFinish` | backup/backup.go:1059-1123 | When some destinations have the manifest and the others hold its volumes, a resumed or completing run leads to that manifest at all |
| `ProtocolProgress.OthersResumeNothing` | backup/backup.go:1689-1706 | A run without --resume, or of another identity or compressor than the cached attempt, keeps none of its volumes |
| `ProtocolProgress.CanStop` | backup/backup.go:992-1123 | Any run can end, or die, at any point |
| `ProtocolProgress.CanTearVolume` | backup/backup.go:1846-1858 | Any upload of a volume can be cut short with any bytes under its name |
| `ProtocolProgress.CanTearManifest` | backup/backup.go:1101-1123 | So can the upload of a manifest |
| `ProtocolProgress.CanTearCopy` | backup/backup.go:1101-1123 | And of a copied one |
| `ProtocolProgress.CanSync` | backup/sync.go:371-411 | A reader fills any cache that lacks a manifest |
| `ProtocolCleanProgress.CleanCanFinish` | backup/clean.go:286-663 | Clean can lock any free datasets and then delete everything deletable and forget every local manifest it may, beside sends of other datasets |
| `ProtocolCleanProgress.DecidesOnOrphans` | backup/clean.go:480-586 | What a clean decides to delete is a volume of a dataset it locked, that some manifest there is for, and that no manifest of a locked dataset lists |
| `Resume.VerifiedVolumes` | backup/backup.go:1803-1862 | Fails exactly when a listing fails, or the size of a volume that the run still has to check cannot be told; otherwise returns the longest prefix, numbered from 1, that every destination lists with the recorded sizes |
| `Resume.CachedAtEveryDestination` | backup/backup.go:1758-1796 | Returns the longest prefix every destination's cache records with the same name, number, size and hash |
| `Resume.KeptVolumes` | backup/backup.go:1690-1706 | The two filters in sequence, on a cached list in any order, keep the longest prefix both accept, and fail exactly when the first does |
| `Resume.KeptIff` | backup/backup.go:1758-1862 | A cached volume is kept if and only if it and all before it have the next number, are listed everywhere, with the recorded size wherever sizes are told, and are recorded alike in every other cache |
| `Resume.FailsIffUnlisted` | backup/backup.go:1803-1825 | When every size can be told, the check fails if and only if a listing does |
| `Resume.FailsWhenAsked` | backup/backup.go:1847-1852 | It fails on a size that cannot be told, of a volume that all before it and the destinations before hold |
| `Pipeline.PublishOnlyWhenComplete` | backup/backup.go:692-829 | In every interleaving, once the final manifest exists anywhere, the stream ended cleanly and every volume 1..N is recorded and stored by every stage |
| `Pipeline.ReadyIffDone` | backup/backup.go:756-829 | The finaliser may go on exactly when the stream is closed, the forwarder is done, every volume is recorded and nothing canceled: never early, never stuck |
| `Pipeline.CancelNeverPublishes` | backup/backup.go:1625-1645 | Once canceled before the finaliser went on, no final manifest is ever made, whatever the count does |
| `Pipeline.NeverStuck` | backup/backup.go:692-829 | In every interleaving in which nothing failed, something can go on until the final manifest went through every stage |
| `Pipeline.ReplayCounter` | backup/backup.go:391-419 | After the calls of any interleaving, the counter object holds one for a running forwarder and one for each volume taken and not yet recorded, and is closed exactly when there is neither |
| `Splitter.SendStream` | backup/backup.go:1458-1576 | Succeeds exactly when the stream ends cleanly and starts as the kept volumes' hash says; then the cuts tile the rest of the stream, numbered on, each with its size and the hash of the stream through it, each cut at its first write over the limit |
| `Splitter.CutRest` | backup/backup.go:1500-1576 | The same from a given byte, and on failure what was cut tiles a prefix |
| `Splitter.TotalBytesStreamedAndVols` | files/jobinfo.go:205-218 | Keeps the volumes before the first out of order number, their byte sum, and the next number |
| `Splitter.KeptAndCutAreTheStream` | backup/backup.go:1458-1576 | Kept and cut volumes concatenate to exactly the current stream, are contiguously numbered, record prefix hashes, and none is empty unless the stream is |
| `Splitter.GenuineKept` | backup/backup.go:1478-1496 | The volumes a resume keeps from a genuine manifest are the parts the hash check is about |
| `Splitter.StartsAsKeptIff` | backup/backup.go:1478-1496 | A resume goes on if and only if the stream starts with what the kept volumes hold, all of it included |
| `Splitter.CutAtLimit` | backup/backup.go:1500-1542 | Every volume but the last ends with the first 512 KiB write with which its file has volsize MiB but for 50 KiB; before that none is cut |
| `Splitter.UncodedVolumes` | backup/backup.go:1500-1542 | Without compression and encryption every volume but the last a run cuts holds exactly volsize MiB, the last no more |
| `Estimate.EstimateCoversCut` | backup/backup.go:1364-1366 | The estimated volume count is never below what the splitter cuts an uncompressed, unencrypted stream into |
| `Estimate.SizeFitsIff` | backup/backup.go:1364-1371 | A --volsize passes at a cost exactly when the volumes the limit has room for hold the stream |
| `Estimate.FitsIsMonotone` | backup/backup.go:1364-1371 | At one cost a larger --volsize passes whenever a smaller one does |
| `Estimate.AdviceFits` | backup/backup.go:1373-1375 | With room for two volumes the advised --volsize passes at the cost it was computed with, with a volume to spare |
| `Estimate.AdviceSmallestIff` | backup/backup.go:1373-1375 | At that cost, with room for two volumes, it is the smallest that passes if and only if it is 1, or the stream fills all volumes there is room for at the size one below |
| `Estimate.FollowedAdviceIff` | backup/backup.go:1364-1414 | The advice leaves the cost of a volume to spare; a run with the advised size passes if and only if what its volumes cost more, by the digits of their bytes and numbers, fits into what is spare |
| `Estimate.FollowedAdvicePasses` | backup/backup.go:1364-1414 | With room for two volumes it passes whenever the bytes of its volumes have as many digits as before |
| `Estimate.AdviceCanBeRefused` | backup/backup.go:1373-1414 | A stream that is advised 2 MiB at 1 MiB and refused at 2 MiB, with the program's limit of 1 GiB |
| `Estimate.AdviceNotSmallest` | backup/backup.go:1373-1375 | A stream that is advised 4 MiB at 2 MiB and passes at 3 MiB, with the program's limit of 1 GiB |
| `Planner.ValidateSnapshotExists` | backup/sync.go:496-512 | Finds a snapshot by name and time, prefers it to a bookmark whatever the order, and flags a bookmark exactly when only that is there |
| `Planner.NoDestinationIsEmpty` | backup/plan.go:393-399 | When the last fulls agree and one exists, no destination is empty: the scan for the furthest behind never meets a missing last backup |
| `PlannerFacts.IncrementalContinues` | backup/plan.go:233-482 | Every newly planned incremental continues, at every destination, the newest backup there, on an unbroken chain of the run's stream kind, to a strictly newer snapshot on the pool |
| `PlannerFacts.SmartSendsCandidate` | backup/plan.go:240-241 | What is sent anew is the newest snapshot of the full or incremental criteria |
| `PlanRules.FullIff` | backup/plan.go:364-482 | Under --fullIfOlderThan, with nothing stopping the run: a full for lack of any, if and only if there is none and a candidate; for age, if and only if the newest snapshot is more than the window (less ten minutes when over an hour) younger than the last full and the candidate is newer than some destination's last backup; for a broken chain and for a source that is gone, with the exact conditions; and no other full |
| `PlanRules.IncrementalIff` | backup/plan.go:412-482 | An incremental if and only if no full takes its place, no chain is broken, the last backups agree, the candidate is newer, its source is on the pool (as a bookmark unless -R or -I) and the stream kinds match; it is the candidate, from that source |
| `PlanRules.NothingIff` | backup/plan.go:401-482 | Nothing if and only if a chain is broken or the source is gone with no newer full candidate, or the candidate is not newer |
| `PlanRules.StopsIff` | backup/plan.go:236-362 | No snapshots, a set to complete, a backup from the future and last fulls that differ, each if and only if that is so |
| `PlanRules.PartialIff` | backup/plan.go:982-1029 | A set is lacking if and only if one destination is ahead by its newest, all others have its sets or all but that, and some lack it; it is the first such destination's |
| `PlanRules.CompletionIs` | backup/plan.go:271-281 | Completing it plans that set, with its base and source |
| `PlanRules.ExplicitFullIff` | backup/plan.go:245-269 | --full: a full of the candidate if and only if some destination lacks one of it, and none has one unless --resume is given; nothing if and only if all have; the errors else |
| `PlanRules.ExplicitIncrementalIff` | backup/plan.go:326-362 | --increment: an incremental from the last backup if and only if all destinations are at one snapshot, the candidate is newer, all chains are whole and the kinds match; each error and nothing with its condition |
| `PlanRules.FutureSnapshotIgnored` | backup/plan.go:132-180 | A snapshot dated more than a day after now changes no plan, wherever it is listed |
| `PlanRules.FutureBackupIgnored` | backup/plan.go:132-180 | Nor does such a backup at any destination |
| `PlanRules.PresentCounts` | backup/plan.go:132-180 | Nothing else is ignored |
| `Chains.BrokenLinkIsExact` | backup/plan.go:202-216 | brokenLink finds nothing missing exactly when a chain from the newest backup to a full exists; its step bound never misjudges |
| `Chains.SentRestores` | backup/plan.go:202-216 | A set that continues an unbroken newest backup restores after it is added, future-dated backups or not |
| `BackupRuns.IncrementalsStayRestorable` | backup/plan.go:401-482 | After any history of smart runs (any options, pools and parts of the destinations, partly failed sends, fulls and completed sets of any kind), a run that plans an incremental leaves at every destination it was planned for, published there or not, the newest backup restorable from a full; where it was published, that is the incremental |
| `BackupRuns.IncrementalsKeepOneKind` | backup/plan.go:401-510 | When every set sent so far fitted the kinds where it went, the incremental restores along one stream kind |
| `BackupRuns.RunKeepsKindsIff` | backup/plan.go:497-510 | A run keeps the kinds of a destination it publishes at exactly when its set fits there: its children there have its kind if it takes over as their parent, and so does its parent if it is a completed set |
| `BackupRuns.NewestFits` | backup/plan.go:401-482 | A new set that is not older than anything where it goes always fits |
| `BackupRuns.KindsKeptIff` | backup/plan.go:497-510 | A new set keeps a destination's kinds exactly when its parent there has its kind and, if it takes over as a parent, its children there do |
| `BackupRuns.CanPublish` | backup/backup.go:992-1123 | A set that is new to a destination has a place in its list, so that every plan of the history can be carried out |
| `BackupRuns.FullKeepsKindsIff` | backup/plan.go:243-269 | A planned full keeps the kinds exactly when the incrementals from its snapshot have its kind |
| `BackupRuns.FullCanMixKinds` | backup/plan.go:243-269 | An explicit raw full that the planner lets through and that mixes the kinds of a plain chain |
| `BackupRuns.PartialKeepsKindsIff` | backup/plan.go:982-1006 | A completed partial set keeps them exactly when its parent where it lags has its kind and, if it takes over as a parent, its children do |
| `BackupRuns.PartialCanMixKinds` | backup/plan.go:982-1006 | A raw incremental that the planner completes at a destination whose full of its source is plain |
| `Simulator.RunScenario` | backup/plan.go:597-630 | The simulation loop computes the simulation its recursive specification defines, which the next rows describe |
| `SimulatorRuns.SimulationIs` | backup/plan.go:597-630 | A simulation has a step for each run time through --until outside the skips, in order, and no other; each sees what the given pool, advanced once from the newest snapshot given to its time, has by then, plans with what the runs before it recorded and a clock not behind the wall clock, and what they recorded is what is left |
| `SimulatorRuns.OneRunIs` | backup/plan.go:604-609 | Without --until it is one run, now, on the given pool |
| `SimulatorSchedule.ScheduledSimulationIs` | backup/plan.go:611-627 | With a snapshot schedule, a run sees a snapshot if and only if it is in the given pool advanced by the schedule to the run's time and was created by then or is in a backup |
| `SimulatorSchedule.PolicyComposes` | backup/plan_schedule.go:131-194 | Such a schedule composes, before the newest given snapshot too, so that run after run it gives what one advance gives |
| `Simulator.RecordManifest` | backup/plan.go:779-791 | The new set replaces one of the same names and goes after the entries that are not older |
| `Simulator.RecordRun` | backup/plan.go:677-702 | What a run sends is added at every destination, and nothing when it fails or sends nothing |
| `Simulator.VisibleAt` | backup/plan.go:647-662 | A run sees only pool snapshots, all of those taken by then and all those backed up, and on a pool listed newest first no others |
| `SimulatorChecks.FindParent` | backup/plan_checks.go:492-506 | The scan returns the first full of the snapshot, else its first backup |
| `SimulatorChecks.CheckChainLinks` | backup/plan_checks.go:119-136 | Finds nothing exactly when every incremental at every destination has a backup of its source there |
| `SimulatorChecks.CheckSourcePresent` | backup/plan_checks.go:141-158 | Finds nothing exactly when every incremental's source was on the pool, as a snapshot under -R or -I |
| `SimulatorChecks.SourceOnPoolIff` | backup/plan_checks.go:141-158 | That is: some listed snapshot, or without -R and -I some bookmark, has the source's name and time |
| `SimulatorChecks.CheckNoDuplicateSend` | backup/plan_checks.go:165-194 | Finds nothing exactly when no judged send but an explicit full repeats a snapshot the destination had or was sent |
| `SimulatorChecks.CheckNoOrphanFull` | backup/plan_checks.go:198-221 | Finds nothing exactly when the incremental sent next after a full continues from it |
| `SimulatorTheorem.ChecksHold` | backup/plan_checks.go:119-221 | For every pool history, run times and skips, a one-destination --fullIfOlderThan simulation that starts linked, unbroken and without future-dated backups satisfies all four checks |
| `SimulatorTheorem.JudgeScenario` | backup/plan.go:597-702 | The simulator followed by the four checks reports no violation |
| `Convergence.Converges` | backup/plan.go:271-482 | Against a fixed pool and clock, for any number of destinations, with or without --resume, runs complete at most one set, then send at most one full, then at most one incremental, each in the run after the one before; from the fourth run on nothing is sent ever, and from the third when the first completes nothing |
| `Convergence.CompletionThenAnew` | backup/plan.go:271-281 | After a completion nothing is completed again, without assumptions on the destinations |
| `Convergence.FullThenNoCompletion` | backup/backup.go:104-113 | After a full nothing is completed: a set lacking then was lacking, and not completable, before |
| `PartialSets.CompletionAligns` | backup/plan.go:982-1006 | Once the lacking set is recorded everywhere, all destinations have the same sets in the same order |
| `PartialSets.NewKeepsPartial` | backup/plan.go:982-1006 | A set new to every destination, recorded at all of them, makes no set lacking that was not lacking before |
| `Convergence.FullThenNoFull` | backup/plan.go:377-411 | After a full no full is planned anew, without assumptions on the destinations |
| `Convergence.IncrementalThenNothing` | backup/plan.go:440-482 | After an incremental nothing is planned, and nothing completed |
| `DestinationOrder.PlanAtUnordered` | backup/plan.go:132-142 | Permuting or repeating the destinations changes neither the error nor the plan's action, base, reason, full-due flag and, for an incremental, source |
| `DestinationOrder.PartialUnordered` | backup/plan.go:982-1006 | Which destination leads does not matter: the partial set is the same, its source included |
| `DestinationOrder.ComparablesAgreeIff` | backup/plan.go:306-324 | The comparison of neighbours is the comparison of all pairs |
| `Schedule.PruneMarked` | backup/plan_schedule.go:236-263 | The marking loop with its decreasing counter drops exactly the snapshots that are past the keep newest of their period and expired |
| `ScheduleComposition.PruneKeepsExactly` | backup/plan_schedule.go:232-235 | A snapshot stays exactly when, for each period it is of, it is among the keep newest or not yet expired |
| `Schedule.AdvancePool` | backup/plan_schedule.go:137-194 | Grouping boundaries by time, spacing ties by the gap, skipping names already used, sorting and pruning give the specified pool; from the zero time, the boundaries of the last keep + 2 lengths of each period count |
| `ScheduleMeaning.AdvanceIs` | backup/plan_schedule.go:131-263 | The pool after an advance: of the pool and all snapshots due in between, each with the name and time of its period, boundary and place among the ties, those that stay: for each period they are of, fewer than keep newer ones are there or they are not older than keep times its length |
| `ScheduleMeaning.FoundIff` | backup/plan_schedule.go:137-230 | What is found, from a time or from the zero time: a snapshot of each period that keeps any at each of its boundaries, from the zero time those of the last keep + 2 lengths |
| `ScheduleMeaning.OlderIsPruned` | backup/plan_schedule.go:199-263 | Starting from the zero time loses nothing: what is older than that start would be pruned |
| `ScheduleComposition.FoundIsTaken` | backup/plan_schedule.go:143-187 | When boundaries are further apart than the ties of one, as they always are without a gap (`NoGapSpreads`), what the grouping finds, sorted, is each boundary's snapshots in tie order, newest boundary first |
| `ScheduleComposition.AdvanceComposes` | backup/plan_schedule.go:131-194 | When no name repeats and boundaries are further apart than the ties of one, advancing a to b and then, from the later of the two, to c gives the same pool, in the same order, as a to c |
| `ScheduleComposition.SanoidHasOnePeriod` | backup/plan_schedule.go:241-243 | No snapshot is of two of sanoid's periods |
| `ScheduleComposition.AdvanceKeepsDated` | backup/plan_schedule.go:137-194 | A schedule whose names tell their time keeps pools whose names do, as the simulation theorem asks |
| `Links.LinkManifests` | backup/list.go:178-223 | Every incremental's parent becomes the last full of its source in the list, else the first backup of it, else none; fulls get none |
| `Links.IndexedExactly` | backup/list.go:190-201 | A parent is found exactly when a backup of the snapshot exists, a full exactly when one does |
| `Links.ReadersAgree` | backup/list.go:139-223 | For any listing, the parent a restore links (oldest-first sort) is the one the planner finds (newest-first sort) |
| `Links.SortNewestInOrder` | backup/backup.go:283-295 | The planner's sort is newest first, fulls first in a tie, and loses nothing |
| `Links.LatestIsNewest` | backup/restore.go:101-106 | The last backup of the restore's sort, taken when no snapshot is named, is as new as any |
| `Links.ChainDepth` | backup/plan_checks.go:464-482 | The parent map answers as the scan does, and the depth is that of the bounded walk |
| `Links.DepthIsChainLength` | backup/plan_checks.go:464-482 | For a restorable backup the depth is the number of incrementals of its chain |
| `Restore.WalkChain` | backup/restore.go:150-203 | The walk ends on every linking, looping ones too; it succeeds exactly when a restore plan exists and returns it; each error tells where the walk came to and why it stops there |
| `Restore.PlanProperties` | backup/restore.go:150-203 | In a plan the newest link is the requested backup, each base is the next source, kinds agree, no base is local, and the oldest is a full or starts at a present snapshot |
| `Restore.PlanIff` | backup/restore.go:150-203 | A plan is nothing, for a snapshot that is there under the same guid, or a walk along parents of one kind, over incrementals whose source and snapshots that are not there, to a full, a source that is there or a parent whose snapshot is there under the same guid; and every such walk is a plan |
| `Restore.ReachesLocal` | backup/restore.go:255-270 | Decides whether a backup's chain of parents reaches a local snapshot, on looping links too |
| `Restore.ReachesIff` | backup/restore.go:255-270 | It reaches one if and only if along parents, before a full is passed, some backup's snapshot is at the target or some incremental's source is |
| `Restore.BackupThatApplies` | backup/restore.go:254-279 | The first backup whose chain reaches a local snapshot, else the first full, else the first, none only of none |
| `Restore.AppliesLeads` | backup/restore.go:254-279 | If any backup leads to a snapshot of the target, so does the one that applies, and none before it does |
| `Restore.AppliesElse` | backup/restore.go:272-279 | If none does, it is the first full, and without a full the first |
| `Restore.PrefersLocalChain` | backup/restore.go:246-253 | Without --origin, if any backup of the snapshot leads to a snapshot of the target, so does the one walked, and a plan that takes anything starts at a source the target has, not at a full |
| `RestoreTheorem.AutoRestore` | backup/restore.go:101-203 | Selection and walk together, of the latest snapshot when none is named: not found exactly when no backup has the name, otherwise the plan of the backup that applies, or no plan exists |
| `RestoreTheorem.RestoreRestorable` | backup/restore.go:79-203 | Whatever the listing order and however many backups share the snapshot's name, when the one chosen for an empty target (the first full of the name, else the first backup) restores in one kind, it is restored along exactly that chain |
| `RestoreTheorem.RestoreAfterIncremental` | backup/restore.go:152-203 | What any history of smart runs whose sets fitted leaves after an incremental, receive --auto restores whole into an empty target, when names tell their time |
| `Destroy.SnapshotsNotOlder` | backup/restore.go:849-860 | Reports newer and tied snapshots other than the source exactly when there are some |
| `Destroy.ReplicationLoss` | backup/restore.go:876-903 | Reports a loss exactly when an older snapshot or a dataset below exists, or the datasets cannot be listed |
| `Destroy.RefuseDestroy` | backup/restore.go:787-828 | Refuses exactly a forced receive without --allowDestroy that may destroy something |
| `DestroyGuard.GuardIsExact` | backup/restore.go:787-903 | For a chain that can be received: the guard refuses if and only if some run of it, into some target that looks as the guard saw it, destroys something other than the chain's source |
| `DestroyGuard.AbsentIsNeverRefused` | backup/restore.go:803-805 | A restore into a dataset that does not exist is never refused |
| `Destroy.GuardKeepsOthers` | backup/restore.go:787-828 | If the guard passes, no step of any run of the chain destroys any snapshot or dataset the target had, other than the chain's source |
| `Destroy.GuardSoundIff` | backup/restore.go:787-828 | For a chain that applies, the guard protects everything in every run if and only if no step after the first is a replication stream |
| `Destroy.FullChainKeepsAll` | backup/restore.go:805-808 | A chain that starts with a full destroys nothing when the guard passes |
| `Destroy.GuardMissesSource` | backup/restore.go:876-886 | A chain and target the guard passes where the source is destroyed |
| `Names.RoundTrip` | files/jobinfo.go:323-386 | Reading a built volume name gives back dataset, source, base and number, for a separator with a character in no name and a dotless compressor other than zstream and pgp |
| `Names.NamesAreDistinct` | files/jobinfo.go:323-335 | Two sets, two volume numbers or two lists of extensions never share an object name |
| `Names.ManifestNamesAreDistinct` | files/jobinfo.go:307-318 | Two sets, or an encrypted or signed and a plain one, never share a manifest name |
| `Names.ManifestIsNoVolume` | files/jobinfo.go:307-335 | No manifest has the name of a volume |
| `Names.ParseIsExact` | files/jobinfo.go:342-386 | A name is read only if it is that set's parts, the marker, valid extensions and that number |
| `Names.ReadExtensions` | files/jobinfo.go:360-386 | The extensions of a name that is read are at most two, none empty, and of two the last is the one for encryption or signing and the first is not |
| `Names.FullLooks` | files/jobinfo.go:307-335 | The names of a full's twelfth volume and manifest, letter by letter |
| `Names.IncrementalLooks` | files/jobinfo.go:323-335 | The name of an incremental's volume, letter by letter |
| `Names.DatasetNameLetters` | files/jobinfo.go:46 | The characters of the separator check's class |
| `Names.SeparatorSafeIff` | files/jobinfo.go:36-46 | A separator keeps all sets apart if and only if one of its characters is in no name |
| `Names.AcceptedSafeIff` | files/jobinfo.go:46 | A separator the check accepts keeps all sets of zfs names apart if and only if it has a character that is neither in the check's class nor a space |
| `Names.SpaceIsAcceptedButUnsafe` | files/jobinfo.go:253-258 | The check accepts a space, and two sets then share a name |
| `Clean.LockAndRead` | backup/clean.go:316-362 | Ends within three reads; every dataset of the deciding read was locked, or found busy, in an earlier round |
| `Clean.Decide` | backup/clean.go:366-586 | Refuses a destination without manifests that holds objects; otherwise deletes exactly the specified objects and local manifests |
| `CleanOthers.OtherPrefixSpared` | backup/clean.go:66-94 | When the objects hold the manifest of a set under another prefix, by any separator in use, no volume of the set that no manifest here lists is deleted, fulls and incrementals alike |
| `CleanOthers.NestedSpared` | backup/clean.go:96-112 | No volume that no manifest here lists, below the directory of a manifest like this job's, is deleted |
| `CleanOthers.UnknownSpared` | backup/clean.go:503-508 | A volume of a dataset that no manifest here, nor one cached for this prefix, is for is no candidate |
| `CleanOthers.OrphanIsDeleted` | backup/clean.go:480-586 | With this job's manifests alone, a volume of a known dataset that is not busy is deleted when no manifest lists it but, under --force, those of sets that lack a volume |
| `CleanOthers.BrokenSetGoes` | backup/clean.go:529-578 | The manifest of such a set is deleted |
| `CleanOthers.LocalGoesIff` | backup/clean.go:419-445 | A manifest only in the cache goes if and only if --cleanLocal is given, it is this prefix's and its dataset is not busy |
| `CleanOthers.OwnWithAnySeparator` | backup/sync.go:326-360 | This job's manifests are known whatever separator of other symbols they were written with |
| `CleanOthers.LongerPrefixIsOther` | backup/sync.go:326-360 | A manifest whose prefix goes on after this job's is another job's |
| `Clean.Judge` | backup/clean.go:529-578 | The keep set is what judged, unforced manifests list; the forced sets are the broken ones at the destination of datasets that are not busy |
| `Clean.Site.Apply` | backup/clean.go:605-663 | Local manifests go only after every delete succeeded |
| `Clean.Site.Run` | backup/clean.go:286-663 | Whatever disappears, also when a delete fails half way, is what a decision on a read under the locks deletes; on success all of it does; cached manifests go only once all of it is gone |
| `CleanTheorems.RunSafely` | backup/clean.go:316-663 | Each object a run of clean makes disappear is a volume of a dataset locked before the deciding read and not busy, or the manifest object of a broken set under --force, and none is a volume that a staying manifest lists |
| `CleanTheorems.DeletesOnlyLocked` | backup/clean.go:480-513 | A deleted object is a volume of a known dataset that is not busy, or the manifest object of a forced broken set |
| `CleanTheorems.ListedNeverDeleted` | backup/clean.go:529-586 | No volume that a kept manifest lists is deleted, busy datasets' manifests included |
| `CleanTheorems.ManifestsStay` | backup/clean.go:484-487 | Without --force no manifest object is deleted |
| `CleanTheorems.SecondDeletesIff` | backup/clean.go:460-586 | Without --force and --cleanLocal a second clean with nothing in between deletes exactly the unlisted volumes that a nested destination or another prefix's manifest protected from the first, and that nothing protects after it |
| `CleanTheorems.CleanTwice` | backup/clean.go:66-149 | It deletes nothing, unless a manifest of a busy dataset lists a volume of a dataset that is not busy below a nested destination |
| `CleanTheorems.OwnNamesAreNoStrays` | backup/clean.go:480-513 | No such volume exists when the manifests of busy datasets list volumes of their own dataset's name, so none without busy datasets |
| `CleanStray.SecondCleanDeletes` | backup/clean.go:480-513 | A listing with such a volume where the second clean deletes an orphan that the first left |
| `CleanTheorems.SameScope` | backup/clean.go:460-478 | Manifests, separators, nested roots and other-prefix sets are unchanged by what the first clean deleted |
| `CleanRefines.DeletedIsDeletable` | backup/clean.go:480-586 | Without --force, with one prefix and the default separator, every object a decision on what it read deletes is the name of a volume that the protocol lets a clean with those locks delete |

## Left out

- `ProtocolTheorems.PublishedManifestsRestore`: asks that each clean decides on complete cached copies, because `StaleCopy.IntegrityCanFail` shows that it fails otherwise, and has no cleans with --force, which delete sets on purpose.
- `BackupRuns.IncrementalsKeepOneKind`: asks that the sets sent fit the kinds where they go, because `BackupRuns.FullCanMixKinds` and `BackupRuns.PartialCanMixKinds` show that the planner does not check it.
- `RestoreTheorem.RestoreAfterIncremental`: asks the same, because a restore refuses a chain of two kinds, and that a snapshot name tells its creation time.
- `Destroy.GuardKeepsOthers`: exempts the chain's source, because `Destroy.GuardMissesSource` shows that it can be lost.
- `SimulatorTheorem.ChecksHold`: asks that a snapshot name tells its creation time, because a recorded backup replaces one of the same names.
- `Convergence.Converges`: asks that of names too, for that reason, and that destinations are listed newest first. What a destination holds of the volumes of a set it lacks is a fixed predicate on sets.
- `CleanTheorems.CleanTwice`: asks that no manifest of a busy dataset lists a volume of a dataset that is not busy below a nested destination, because `CleanStray.SecondCleanDeletes` shows that it fails otherwise; `CleanTheorems.SecondDeletesIff` is exact without that.
- `Estimate.AdviceFits`: is about the cost the advice was computed with; `Estimate.FollowedAdviceIff` is about the cost a run with the advised size computes.
- `ScheduleComposition.AdvanceComposes`: starts from a given time; the zero time, from which the pool is seeded, is modelled in `Schedule.AdvancePool`.
- `CleanOthers.OtherPrefixSpared`: asks that one character of the separator is in no name and that no other separator in use occurs in the set's name; without that a name reads in several ways.
- `SimulatorRuns.SimulationIs`: asks that the schedule composes; `SimulatorSchedule.PolicyComposes` shows when a snapshot schedule does.
- `DestroyGuard.GuardIsExact`: is about chains whose snapshot names the target does not have, as zfs needs.
- `ScheduleMeaning.FoundIff`: is about snapshots of one boundary taken at one time, as the program takes them outside its tests.
- `CleanTheorems.RunSafely`: asks that the volumes of a manifest carry its dataset's name, and leaves out listed volumes whose name is a manifest's.
- `CleanTheorems.ListedNeverDeleted`: asks that the volumes of a manifest carry its dataset's name and, under --force, do not have a manifest's name.
- The lock is exclusive: stale locks and boot ids are not modelled; the program says that their removal is not atomic.
- One manifest prefix and one separator per destination in the protocol, and different destinations within one run. `Clean` itself handles several prefixes and separators; `CleanRefines` connects the two for one prefix and the default separator.
- Encryption, compression and SHA-256: reading a volume is a function on bytes, storing a part is any bytes that read back to it, the hash is collision free. In the protocol the compressor stands for the extension it gives a volume name.
- A volume is cut before it is uploaded; the pipe mode, where it is uploaded while it is written, is covered by uploads that store any bytes.
- The file-buffer tokens of the pipeline and the retries of uploads: leaving them out allows more interleavings.
- `CopyFrom` takes any destination that has the manifest; the program takes the first.
- Integers are unbounded where the program uses 64 bits, except for volume numbers in names.
- Times are whole seconds; time zones, daylight saving time and calendar arithmetic are a predicate that says when a period's snapshots are due, and a strictly increasing next-run function.
- Two cached volumes with one number: the program's sort leaves their order open, the model keeps it.
- The splitting of a name at an empty separator inside `otherPrefixSets`: it gives two-character keys that equal no set name.
- The texts of warnings, errors and violations; the plan's warnings; the simulator's list of created snapshots; the checks for errors, cadence, depth, coverage and only, which judge a policy rather than the planner.
- Dry runs, mountpoint guards, the download pipeline of a restore, listing and rendering, flag and scenario parsing, the backends, and running zfs: foreign code or easy members.
