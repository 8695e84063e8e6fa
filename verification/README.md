# Verification of the media pipeline

This Dafny project models the parts of the video platform whose correctness is not visible from any single
function, and proves what they promise:

- **The distributed transcode pipeline.** `JobTable`, `Selection` and `JobQueue` model the `jobs` table, the
  selection rule of a claim and the queue's methods. `QueueRuns` puts any number of workers, users and crashes around
  it; `ClaimInterleaving` splits a claim into its SQL statements, `ClaimHazards` says which selections can go wrong and
  `SplitLeases` carries the leases of `QueueRuns` over to split claims; `JobLife` counts how often one job is claimed and
  `JobProjection` carries that over to runs of the whole queue.
  `WorkerLoop` is the event loop of one worker, `TranscodeSem` the reference-counted semaphore per entry and
  `Pipeline` the flavor and entry state machine.
- **The storage layer.** `S3Reader` (ranged reader), `Cache` (disk LRU cache), `Fallback` (read-through wrapper),
  `Migrate` (parallel copy), `Keys` and `Storage` (key layout, parser, classification, grouping).
- **Small components with real bounds.** `RateLimit`, `LoginGuard`, `RotatingLog`, `Analytics`, `Categories`.

Each SQL statement or transaction, each critical section and each store call is one step. Objects the program updates
in place are classes; each method is tied to a specification function or states its new state outright, and the
results about whole runs are lemmas over those functions. Runs are sequences of operations of any length; "in every
reachable state" means after every such run. Times are integers (nanoseconds) in the queue and the login guard and
reals in the rate limiter. `dafny verify dfyconfig.toml` checks the whole project.

## What does not hold as documented

The model follows the code. Where the code does less than its comments or its callers expect, there is a lemma with a
concrete input and, where possible, the exact condition:

- `Claim` (internal/queue/queue.go:80-87) says advisory locks prevent two flavors of one entry from running. A row
  enqueued between the two reads belongs to an entry that was never locked, and two claims can then start two flavors
  of it (`ClaimInterleaving.UnlockedRowsRunTwice`). A retried lower-id download can likewise overtake a selected one
  (`ClaimInterleaving.OvertakenDownloadsRunTwice`). Which selections carry that risk is exact: those with no locked
  transcode among them, and those on which a claim that is waiting already can intrude
  (`ClaimHazards.TranscodesSafeExactly`, `ClaimHazards.DownloadsSafeExactly`).
- `RequeueStale` (internal/queue/queue.go:314-316) says long-running jobs are never falsely reclaimed. That needs the
  beat (`QueueRuns.SilentWorkerLosesItsJob`), and `claimRound` blocks the loop that sends it whenever it claims more
  jobs than it has free slots (`WorkerLoop.RoundBlocksBeat`). Such jobs also show as running while they wait, which
  its comment rules out (`WorkerLoop.JobsAccounted`). A claim also stamps its rows with the start of its transaction, so
  the jobs of one that waits too long for a lock are stale from the start (`SplitLeases.BornStaleExactly`).
- `Fail` reads and writes in two statements; a write that arrives after a user retry gives an extra attempt
  (`JobLife.LateWriteOverruns`), exactly when an execution was left that could still re-queue the job
  (`JobLife.PromiseExactlyWhenNonePending`). Its shift wraps for more than 33 attempts (`JobQueue.BackoffExact`).
- A cancel request on a job that has already failed outlives the user's retry: the abort watcher, which polls the
  flag every two seconds, aborts the new attempt outright, and a failure before that is settled as cancelled
  (`JobTable.OldRequestFlagsRetry`, `JobLife.EveryPollFindsOldRequest`, `JobLife.FlagExactly`).
- A cancel request (internal/queue/queue.go:219-220) or the time limit that stops the encoder leaves its job running:
  `finalizeTranscode` takes the entry it cannot read with the ended context for deleted, so the handler reports success
  (`Transcode` of class `Runner` in `Pipeline`), and `Done` fails with that context (`JobQueue.Settle`). While the worker
  beats, the row stays running and no other flavor of the entry is claimed (`QueueRuns.UnsettledBlocksEntry`).
- `Probe` leaves the row of a ticked flavor that has been disabled unfinished, so the entry never leaves `transcoding`
  (`Pipeline.DisabledFlavorStrandsEntry`, exact condition in `Pipeline.ProbeThenTranscode`).
- `emptyReads` is documented as consecutive zero-progress responses (internal/store/s3.go:80). A response that ends
  together with its last bytes is counted too (`S3Reader.ProgressIsCountedAsEmpty`), and neither a seek nor a read to the
  end of the object ends the count (`S3Reader.RereadIsReportedShrunk`, exact condition in `S3Reader.ShrunkExactly`).
- `Migrate` promises to skip existing target keys; a failing Stat on the target counts as "not there"
  (`Migrate.ExistingTargetChanges`, `Migrate.FailedStatOverwrites`).
- Re-inserting a cached key does not adjust the recorded size (`Cache.GrowingKeyOverflows`, `Cache.DriftReachesLimit`,
  exact condition in `Cache.FootprintWithinLimit`), and an object larger than the limit is evicted before it can be
  served (`Open` of class `Cache`).
- A write to the cache ignores how its re-read ends: a backend that does not open leaves the stale file, a copy that
  breaks off removes the file of a key that stays indexed, so that the next `Open` aborts on a mutex it does not hold,
  and a failing Stat indexes the file with size zero (`Put` and `Open` of class `Cache`).
- `Fallback.Delete` says a deleted object cannot resurface; it does when the legacy delete fails.
- The category roll-up reads counts it is changing: a child listed before its parent is counted twice at the
  grandparent (`Categories.MisplacedCountsTwice`, `Categories.GrandchildCountsTwice`).
- The log keeps six files, `log` and `.1` to `.5`, where the comments speak of five (`RotatingLog.SixFilesAreKept`).
- The rate limiter's comment says buckets are pruned on access; the code never removes one.
- The login check and the failure are separate calls: five failures per lockout without a login in between are kept
  exactly when no two requests of an account overlap (`LoginGuard.FiveExactlyWhenOneAtATime`); the exact maximum is in
  `LoginGuard.BoundAttained`. A login clears the count, so failures on both sides of it add up
  (`LoginGuard.LoginsStartOver`).
- A subtitle in a language called `original`, `poster` or `sprite` is classified as one of those files
  (`Storage.ClassifyRecoversExactly`).

## Model

| member | source | states |
|---|---|---|
| `JobTable.RowStatements` | internal/queue/queue.go:249-312 | cancelling, finishing and re-queueing a row keep every row's status, worker, heartbeat and pause fields consistent and start nothing |
| `JobTable.UserStatements` | internal/queue/queue.go:203-256 | pause, resume, cancel requests and user retries keep every row consistent and start nothing |
| `JobTable.InsertStatement` | internal/queue/queue.go:37-58 | inserting a row keeps every row consistent and starts nothing |
| `JobTable.TableStatements` | internal/queue/queue.go:194-354 | heartbeats and stale reclaims keep every row consistent and start nothing |
| `JobTable.StillExclusive` | internal/queue/queue.go:115-139 | a statement that starts nothing cannot break one running transcode per entry nor one running download |
| `JobTable.NewJobIsDue` | internal/queue/queue.go:37-58 | a new job is due from its time on, unused, with the given attempt limit or five |
| `JobTable.ClaimTakesOver` | internal/queue/queue.go:182-187 | a claimed job is running, owned, freshly beating and one attempt older; other jobs stay as they are |
| `JobTable.BeatRestartsClock` | internal/queue/queue.go:194-201 | a beat restarts the stale clock of exactly the worker's running jobs |
| `JobTable.PauseUntilResume` | internal/queue/queue.go:203-217 | a paused job has no turn until resumed; pausing and resuming change nothing else, and nothing about a job that does not wait |
| `JobTable.CancelEndsOrFlags` | internal/queue/queue.go:219-256 | a cancel request ends a waiting job and only flags any other; the worker's cancel ends the job and clears the flag |
| `JobTable.FinishOrRequeue` | internal/queue/queue.go:277-312 | a finished job has no owner; a re-queued one has its turn from the given time on unless paused |
| `JobTable.ReclaimReturnsStale` | internal/queue/queue.go:326-334 | a job whose last beat, or start, is older than the threshold has its turn again five seconds later unless paused; no other job changes |
| `JobTable.RetryStartsOver` | internal/api/activity.go:118-139 | a failed or cancelled job gets fresh attempts from now on, its pause and cancel flags kept; no other job changes |
| `JobTable.RevertedExactly` | internal/queue/queue.go:335-349 | flavors being encoded without a running transcode of their own go back, all others stay |
| `JobTable.OldRequestFlagsRetry` | internal/api/activity.go:126-129 | a cancel request on a failed job survives the user's retry: the retried job runs its first attempt already flagged |
| `Selection.LowestIdsUnique` | internal/queue/queue.go:137-139 | `ORDER BY id LIMIT n` has exactly one result for a set of candidates |
| `Selection.ThinMembers` | internal/queue/queue.go:161-176 | a row survives the in-place filter exactly when no earlier selected row is a transcode of its entry |
| `Selection.DroppedForEarlier` | internal/queue/queue.go:161-176 | every dropped row has an earlier kept row of its entry |
| `Selection.GreedyThinning` | internal/queue/queue.go:115-176 | the batch is the one-per-entry greedy thinning of the n lowest-id eligible jobs: each claimed transcode is the lowest eligible one of its entry, a claimed download has no lower queued download, and the batch is empty only when nothing is eligible |
| `Selection.DownloadHeadOfLine` | internal/queue/queue.go:121-128 | a download is claimable exactly when none runs and the lowest-id queued one is due, unpaused and not excluded: a parked head holds back all later downloads |
| `Selection.BatchKeepsExclusive` | internal/queue/queue.go:115-192 | claiming a batch in one step keeps both exclusion properties |
| `JobQueue.Queue.constructor` | internal/queue/queue.go:17-23 | an empty queue satisfies the table invariant |
| `JobQueue.Queue.EnqueueAt` | internal/queue/queue.go:37-58 | inserts exactly one fresh row, always with a positive attempt limit, and keeps the table invariant |
| `JobQueue.Queue.Select` | internal/queue/queue.go:115-139 | the scan returns the n lowest-id eligible rows, with no row locked elsewhere |
| `JobQueue.Queue.Claim` | internal/queue/queue.go:67-192 | returns the greedy batch and starts exactly its rows; one transcode per entry and one download still run at most |
| `JobQueue.KeepFirstOfEntry` | internal/queue/queue.go:161-176 | the filter that compacts the slice it reads yields the one-per-entry thinning of the original rows |
| `JobQueue.Queue.SetRunning` | internal/queue/queue.go:182-187 | exactly the given rows become running, owned, beating and one attempt older |
| `JobQueue.Queue.Heartbeat` | internal/queue/queue.go:194-201 | refreshes exactly the running rows of the worker |
| `JobQueue.Queue.Pause` | internal/queue/queue.go:203-209 | parks the row only while it is queued |
| `JobQueue.Queue.Resume` | internal/queue/queue.go:211-217 | clears the pause flag and nothing else |
| `JobQueue.Queue.RequestCancel` | internal/queue/queue.go:219-247 | cancels a queued row at once, flags any other, reports a missing one |
| `JobQueue.Queue.Cancel` | internal/queue/queue.go:249-256 | writes the cancelled row and clears owner, heartbeat and flag |
| `JobQueue.Queue.MarkDone` | internal/queue/queue.go:277-284 | writes the finished row whatever its status was |
| `JobQueue.Queue.Fail` | internal/queue/queue.go:286-312 | dead-letters at `max_attempts`, otherwise re-queues after the backoff of the attempts so far |
| `JobQueue.Queue.RequeueStale` | internal/queue/queue.go:314-354 | re-queues exactly the stale rows and, only if there were any, sends exactly the transcoding flavors without a running transcode of their own back to pending |
| `JobQueue.Queue.RequeueRows` | internal/queue/queue.go:326-334 | re-queues exactly the running rows whose heartbeat is older than the threshold, five seconds later, and tells whether there were any |
| `JobQueue.Queue.Retry` | internal/api/activity.go:118-139 | re-queues exactly failed or cancelled rows with attempts reset |
| `JobQueue.Settle` | cmd/vidsilo/worker.go:234-250 | a handler outcome becomes Done, Cancel when the flag is set, or Fail, in that order of tests; once the context of the job has ended only the cancel is written |
| `JobQueue.BackoffExact` | internal/queue/queue.go:303-306 | the delay is min(2^attempts, 300) s for exactly the attempt counts up to 33 and 37, 41, 42, 45, 47, 50, 51, 53; elsewhere the int64 product has wrapped |
| `JobQueue.BackoffMonotone` | internal/queue/queue.go:303-306 | within the range that does not wrap the delay never shrinks and stays between 1 s and 300 s |
| `JobLife.ClaimsBounded` | internal/queue/queue.go:286-334 | with `Fail` as two statements, crashes and late settlers, the claims since the last user retry are at most `max_attempts` plus stale reclaims plus the executions that could still re-queue the job at that retry |
| `JobLife.RetryJustRetries` | internal/api/activity.go:126-129 | a user retry leaves the job in a state the next two results speak of |
| `JobLife.ClaimsAttained` | internal/queue/queue.go:288-312 | after a user retry `max_attempts` plus all pending executions is reached, without any reclaim |
| `JobLife.PromiseExactlyWhenNonePending` | internal/queue/queue.go:288-334 | everything that can follow a user retry keeps to `max_attempts` plus reclaims exactly when no execution is left that could still re-queue the job |
| `JobLife.FlagExactly` | internal/queue/queue.go:219-264 | a failing handler finds the cancel flag set exactly if a request was made while the job was not queued, or the flag was set before, with no cancel by a worker since; nothing else clears it |
| `JobLife.EveryPollFindsOldRequest` | cmd/vidsilo/worker.go:214-232 | from a user retry of a flagged job on, every poll of the abort watcher finds the flag until a worker cancels the job |
| `JobLife.FreshAccounted` | internal/queue/queue.go:37-58 | a newly enqueued job starts in a state the bound applies to |
| `JobLife.ClaimsBoundedWhenFailIsAtomic` | internal/queue/queue.go:286-334 | with no step inside `Fail` the bound is `max_attempts` plus reclaims |
| `JobLife.LateWriteOverruns` | internal/queue/queue.go:288-312 | a concrete run from a new job to such a state and on to one claim more than `max_attempts` without any reclaim since the retry |
| `JobProjection.StepProjects` | internal/queue/queue.go:60-354 | every step of the whole queue is no step, one step or, in a crash, several steps of the one-job machine |
| `JobProjection.RunProjects` | internal/queue/queue.go:60-354 | every run of the queue projects to a run of each of its jobs with the same claims and reclaims |
| `JobProjection.NewJobClaims` | internal/queue/queue.go:60-334 | in every run of any number of workers a new job that the user does not retry is claimed at most `max_attempts` times plus once per stale reclaim of it |
| `JobProjection.RetriedJobClaims` | internal/queue/queue.go:60-334 | from a user retry on, at most that often plus once for each execution left over that could still re-queue it |
| `QueueRuns.StepSafe` | internal/queue/queue.go:60-354 | every step of workers, users and reclaim keeps row consistency and both exclusions |
| `QueueRuns.RunsAreSafe` | internal/queue/queue.go:60-354 | in every reachable state at most one transcode per entry and one download run, worker and heartbeat are set exactly on running rows and no running row is paused, whatever the workers do |
| `QueueRuns.StepLeased` | cmd/vidsilo/worker.go:152-251 | every step keeps each unsettled execution in possession of its row when reclaims find the beats in time |
| `QueueRuns.LeasesHold` | internal/queue/queue.go:314-334 | with beats in time at every reclaim, each unsettled execution owns its running row, refreshed no earlier than its worker beat, and no job is in two hands |
| `QueueRuns.NoSecondClaim` | internal/queue/queue.go:182-192 | from a claim to the write that ends it no other claim returns the job, in every run with beats in time |
| `QueueRuns.OneExecutionPerEntry` | cmd/vidsilo/worker.go:184-251 | with beats in time no two workers work on flavors of one entry, or on two downloads, at the same time |
| `QueueRuns.UnsettledBlocksEntry` | internal/queue/queue.go:115-139 | with beats in time a job whose execution is never settled stays running, and no claim returns another flavor of its entry, or another download if it is one |
| `QueueRuns.ReclaimTakes` | internal/queue/queue.go:326-334 | a reclaim takes the row of an unsettled execution exactly when its heartbeat has aged past the threshold |
| `QueueRuns.ReclaimSparesLiveFlavors` | internal/queue/queue.go:335-349 | the second update of a reclaim leaves the row of a flavor that a punctual worker is transcoding as it is |
| `QueueRuns.SilentWorkerLosesItsJob` | cmd/vidsilo/worker.go:184-201 | a concrete run: a worker that stays silent past the threshold has its job handed to a second worker while it still works |
| `WorkerLoop.JobsAccounted` | cmd/vidsilo/worker.go:184-201 | over every run each claimed job works, waits for a slot or has ended; at most `concurrency` work and at most twice as many are claimed at a time |
| `WorkerLoop.BeatWaitsForJobs` | cmd/vidsilo/worker.go:152-201 | before the loop beats again at least as many jobs have ended as claimed and working jobs exceed the slots |
| `WorkerLoop.RoundBlocksBeat` | cmd/vidsilo/worker.go:184-201 | a round lets the next beat through without waiting for a job exactly when its jobs fit into the free slots |
| `ClaimInterleaving.SelectInv` | internal/queue/queue.go:115-139 | the SELECT keeps the invariant when its transcode rows belong to locked entries |
| `ClaimInterleaving.UpdateInv` | internal/queue/queue.go:161-187 | filter and UPDATE keep the invariant |
| `ClaimInterleaving.CommitInv` | internal/queue/queue.go:188-192 | a commit keeps one running transcode per entry because the rows are still guarded by their entry locks |
| `ClaimInterleaving.OneTranscodePerEntry` | internal/queue/queue.go:67-192 | over every interleaving of split claims and other statements no entry has two running transcodes, if selected transcode rows belong to entries the claim has locked |
| `ClaimInterleaving.UnlockedRowsRunTwice` | internal/queue/queue.go:80-139 | a concrete interleaving in which rows enqueued between the two reads make two flavors of one entry run |
| `ClaimInterleaving.ClaimsNeverDeadlock` | internal/queue/queue.go:108-113 | in every reachable state no set of claims waits in a cycle for advisory locks |
| `ClaimInterleaving.OneDownloadRuns` | internal/queue/queue.go:121-128 | over every interleaving at most one download runs, if no lower-id download is re-queued while a claim has one selected |
| `ClaimInterleaving.OvertakenDownloadsRunTwice` | internal/queue/queue.go:121-128 | a concrete interleaving in which a retried lower-id download lets two downloads run |
| `ClaimHazards.SelectPicks` | internal/queue/queue.go:115-139 | every SELECT leaves its claim in the state the hazard results speak of |
| `ClaimHazards.UncoveredRunsTwice` | internal/queue/queue.go:80-139 | from every state, whoever else is in flight, in which a claim has selected a transcode and locked the entry of none it selected, a covered continuation makes two transcodes of one entry run |
| `ClaimHazards.OvertakingRunsTwice` | internal/queue/queue.go:121-139 | from every such state in which it has selected a download before its turn, a continuation without further overtaking makes two downloads run |
| `ClaimHazards.IntruderRunsTwice` | internal/queue/queue.go:80-139 | even with a locked entry, a claim still at its locks that waits for nothing the first holds and locks an entry the first selected without locking it can start a second transcode of that entry |
| `ClaimHazards.WaiterDownloadsToo` | internal/queue/queue.go:108-139 | the same for downloads, through any claim at its locks that waits for nothing the first holds |
| `ClaimHazards.GuardedRuns` | internal/queue/queue.go:80-139 | a claim that has locked the entry of one transcode it selected, with every other claim either waiting for it or unable to touch its unlocked entries, is joined by no second transcode of its entries |
| `ClaimHazards.GuardedDownloads` | internal/queue/queue.go:80-139 | such a claim, with every other one waiting for it or selecting no downloads, runs its download alone even if it has overtaken one |
| `ClaimHazards.SelectIsFirst` | internal/queue/queue.go:115-139 | the first claim to pass its locks and select is in the state the next two results speak of, whoever else is at their locks |
| `ClaimHazards.TranscodesSafeExactly` | internal/queue/queue.go:80-139 | for the first claim to select, with any others still at their locks, all covered continuations keep one transcode per entry exactly when it selected no transcode, or locked the entry of one it selected and no waiting claim can intrude on another |
| `ClaimHazards.DownloadsSafeExactly` | internal/queue/queue.go:121-139 | for the first claim to select, all continuations without further overtaking keep one running download exactly when it overtook none, or locked the entry of a transcode it selected and no unhindered waiting claim may select downloads |
| `SplitLeases.PlainLeased` | internal/queue/queue.go:89-113 | beginning, locking and rolling back a claim keep every lease and every claim's rows |
| `SplitLeases.SelectLeased` | internal/queue/queue.go:115-139 | the SELECT reserves queued rows no other claim has locked |
| `SplitLeases.UpdateLeased` | internal/queue/queue.go:161-187 | filter and UPDATE keep the reservation |
| `SplitLeases.CommitLeased` | internal/queue/queue.go:182-192 | a commit that stamps its rows with the start of the transaction keeps every lease: the start is no older than its worker's beat |
| `SplitLeases.StepLeased` | cmd/vidsilo/worker.go:152-251 | every statement of a claim and every other step keeps the leases when reclaims find the beats in time |
| `SplitLeases.SplitLeasesHold` | internal/queue/queue.go:67-192 | over every interleaving of split claims, however long they wait for locks, with beats in time at reclaims each unsettled execution holds its row and no job is in two hands |
| `SplitLeases.CommitsNothingInHand` | internal/queue/queue.go:182-192 | no commit in such a run hands out a job that is still in hand |
| `SplitLeases.SplitOneExecutionPerEntry` | internal/queue/queue.go:67-192 | with covered selections and no overtaking as well, no two executions in hand share an entry or are both downloads |
| `SplitLeases.ReclaimNeverWaits` | internal/queue/queue.go:326-334 | a reclaim touches no row a claim has locked |
| `SplitLeases.BornStaleExactly` | internal/queue/queue.go:182-187 | a reclaim right after a commit takes the claimed rows back exactly if the claim's transaction began longer ago than the threshold |
| `SplitLeases.SplitClaimIsClaim` | internal/queue/queue.go:67-192 | with no other claim in flight the statements of a claim one after the other do exactly what the one-step claim of `QueueRuns` does, for every batch |
| `TranscodeSem.StepInv` | internal/jobs/jobs.go:67-105 | each critical section and channel operation keeps the invariant of the semaphore table |
| `TranscodeSem.MutualExclusion` | internal/jobs/jobs.go:67-105 | over every interleaving callers of an entry share one semaphore, at most one holds it, and `active` is their number |
| `TranscodeSem.TableIsEntriesInUse` | internal/jobs/jobs.go:90-103 | the map lists an entry exactly while somebody waits for, holds or is leaving it |
| `TranscodeSem.WaiterCanTake` | internal/jobs/jobs.go:82-83 | a waiter can proceed exactly when nobody holds its entry |
| `TranscodeSem.CancelledWaiterLeaves` | internal/jobs/jobs.go:96-104 | a waiter whose context ends leaves at once, moves nobody, takes no token, and the entry is dropped exactly if it was the last user |
| `TranscodeSem.ReleaseAdmitsNext` | internal/jobs/jobs.go:85-93 | the next waiter can take the entry as soon as the holder has put the token back |
| `TranscodeSem.TwoCallersComeAndGo` | internal/jobs/jobs.go:67-105 | a concrete run of two callers: one holds, one waits and gives up, both leave and the table is empty again |
| `TranscodeSem.Runner.constructor` | internal/jobs/jobs.go:44-58 | the empty runner is the initial state of the protocol |
| `TranscodeSem.Runner.Lookup` | internal/jobs/jobs.go:68-80 | finding or making the semaphore and counting the caller is one Enter step |
| `TranscodeSem.Runner.TrySend` | internal/jobs/jobs.go:82-83 | the send succeeds exactly when the slot is free and is then one Take step |
| `TranscodeSem.Runner.Receive` | internal/jobs/jobs.go:85-88 | the receive of release frees the slot and changes nothing else |
| `TranscodeSem.Runner.Drop` | internal/jobs/jobs.go:89-103 | the last critical section uncounts the caller and drops the entry when it was the last |
| `Pipeline.StaysTranscoding` | internal/jobs/jobs.go:609-623 | while some unfinished flavor has not been attempted the entry's status and master do not change |
| `Pipeline.AttemptsDecideEntry` | internal/jobs/jobs.go:520-640 | once every unfinished flavor was attempted, in any order, with any outcomes and repeats, the entry is ready exactly if some flavor is done and failed otherwise, and the master lists exactly the done flavors by id |
| `Pipeline.MixedCalls` | internal/jobs/jobs.go:520-640 | after any mix of attempts, missing sources and aborted waits: while a flavor remains the master is untouched and the entry failed exactly if a source was missing; afterwards the last call that was not an aborted wait decides, so a missing source fails even a finished entry |
| `Pipeline.MixedRows` | internal/jobs/jobs.go:520-603 | in such runs the flavor rows are those of the attempts alone |
| `Pipeline.OrderDoesNotMatter` | internal/jobs/jobs.go:520-640 | rows, status and master do not depend on the processing order |
| `Pipeline.PlayedRows` | internal/jobs/jobs.go:600-602 | each row ends with the outcome of its latest attempt and no row appears or disappears |
| `Pipeline.QueuedMembers` | internal/jobs/jobs.go:434-468 | probe queues exactly the enabled, ticked flavors no taller than the source |
| `Pipeline.ProbeOutcome` | internal/jobs/jobs.go:434-480 | from rows, catalog and height alone: wanted flavors become pending or, if taller, skipped and other rows stay; with nothing to transcode the entry is ready with the source as master and no job, otherwise transcoding with its old master |
| `Pipeline.QueuedOnce` | internal/jobs/jobs.go:449-468 | no flavor is queued twice |
| `Pipeline.ProbeThenTranscode` | internal/jobs/jobs.go:434-480 | after all queued transcodes the entry has left transcoding exactly if every row unfinished before the probe belongs to an enabled flavor of the catalog |
| `Pipeline.DisabledFlavorStrandsEntry` | internal/jobs/jobs.go:434-468 | a ticked flavor disabled before the probe leaves the entry in transcoding for good |
| `Pipeline.AscendingUnique` | internal/jobs/jobs.go:695-719 | there is only one ascending list of a set of flavor ids |
| `Pipeline.InOrder` | internal/jobs/jobs.go:695-696 | the ordered read lists the set's ids in that order |
| `Pipeline.KeepDone` | internal/jobs/jobs.go:704-719 | the loop keeps the done flavors that still exist, in order |
| `Pipeline.KeptMembers` | internal/jobs/jobs.go:704-719 | what the loop keeps is ascending and is exactly the done, existing part of the list |
| `Pipeline.Runner.BuildMaster` | internal/jobs/jobs.go:694-729 | writes the master of exactly the done flavors in id order |
| `Pipeline.Runner.FinalizeTranscode` | internal/jobs/jobs.go:605-640 | does nothing for a deleted entry or while flavors remain, else decides ready or failed, and reports failure exactly when all failed |
| `Pipeline.Runner.MarkFlavor` | internal/jobs/jobs.go:737-740 | no row appears or vanishes and no other row changes; what remains and what is done change by that flavor alone |
| `Pipeline.Runner.Transcode` | internal/jobs/jobs.go:520-603 | an attempted flavor ends done exactly if it still exists and its encode succeeded, failed otherwise, and the entry is finalized; without a source the entry fails and no row changes; an aborted wait changes nothing; when the entry is deleted or the context ends during the call, rows, entry and reported outcome are exact for each stage |
| `Pipeline.Runner.AttemptFlavor` | internal/jobs/jobs.go:549-603 | the part after the semaphore: an ended context leaves the flavor marked as transcoding, and the call reports success unless one of the two checks around the encoder notices |
| `Pipeline.Runner.EncodeFlavor` | internal/jobs/jobs.go:556-602 | the encoder between its two checks, which find the entry gone or fail with an ended context |
| `Pipeline.Runner.Conclude` | internal/jobs/jobs.go:584-602 | the closing mark and the finalization; after a loss nothing is written and success is reported |
| `Pipeline.Runner.Probe` | internal/jobs/jobs.go:434-480 | writes the flavor rows and publishes the source directly when nothing is to be transcoded |
| `Pipeline.Runner.QueueFlavors` | internal/jobs/jobs.go:449-468 | the loop over enabled flavors skips unticked ones, marks tall ones skipped and queues the rest |
| `S3Reader.ReadDelivers` | internal/store/s3.go:83-116 | a read hands over exactly the bytes it moves past unless it reports a shrunken object, signals EOF only at or past the end, and lowers the measure (size - pos, 4 - emptyReads) |
| `S3Reader.CounterIsEndsSinceProgress` | internal/store/s3.go:93-115 | in every reachable state `emptyReads` is the number of responses that ended early since the last read that did not end one |
| `S3Reader.ShrunkExactly` | internal/store/s3.go:105-115 | over every run a call reports a shrunken object if and only if its response ends early and at least three others did since the last read that did not end one, whatever seeks and reads to the end lie in between; its bytes are dropped |
| `S3Reader.RereadIsReportedShrunk` | internal/store/s3.go:93-115 | three early ends, a read that delivers the rest, a seek to the start and one early end are reported as a shrunken object |
| `S3Reader.ProgressIsCountedAsEmpty` | internal/store/s3.go:105-114 | four responses of one byte each are progress every time and still end in that error |
| `S3Reader.ReaderIsByteArray` | internal/store/s3.go:83-169 | for any responses and any mix of Seek and Read, every call answers like a byte array with a cursor, up to the first shrunken-object error |
| `S3Reader.S3Object.constructor` | internal/store/s3.go:62-68 | a fresh reader stands at position zero with no response open |
| `S3Reader.S3Object.ReadInto` | internal/store/s3.go:83-116 | the method computes the specified read, state included |
| `S3Reader.S3Object.SeekTo` | internal/store/s3.go:146-169 | seeks to the target or reports the error, abandoning the open response |
| `S3Reader.S3Object.CloseBody` | internal/store/s3.go:139-144 | no response stays open |
| `S3Reader.S3Object.Close` | internal/store/s3.go:171-178 | closing closes the response and closing again changes nothing |
| `S3Reader.S3Object.Drain` | internal/store/s3.go:83-116 | reading to the end terminates against every server; what it returns is what its Reads have handed over up to the first error, which is the one reported |
| `S3Reader.S3Object.Fetch` | internal/store/s3.go:83-116 | one Read of an open reader before the end: what it delivers, its errors and its progress |
| `Migrate.MigrateKey` | internal/store/migrate.go:73-98 | one key's copy: the verdict and both stores, and every other key untouched |
| `Migrate.StepInv` | internal/store/migrate.go:38-53 | every store call of every worker keeps the invariant of the pool |
| `Migrate.EveryScheduleAgrees` | internal/store/migrate.go:24-98 | every complete schedule with any number of workers ends in the stores and counters of copying each key alone |
| `Migrate.SchedulesCommute` | internal/store/migrate.go:24-98 | two schedules, even with different numbers of workers, end in one state |
| `Migrate.CountersAddUp` | internal/store/migrate.go:42-51 | copied, skipped and failed add up to the listed keys |
| `Migrate.NothingIsLost` | internal/store/migrate.go:89-96 | after every step a listed object is in the source or its bytes are in the target |
| `Migrate.ExistingTargetChanges` | internal/store/migrate.go:75-79 | without force an existing target value changes exactly when Stat on the target fails and the copy then goes through with other bytes |
| `Migrate.ForceCopies` | internal/store/migrate.go:73-98 | with force, after every complete schedule each listed source object that can be read and written is in the target with the source's bytes, any other key is untouched, and nothing is skipped |
| `Migrate.UnforcedCopiesMissing` | internal/store/migrate.go:73-98 | without force the keys the target has and can tell so are skipped, counted and left alone in both stores; missing ones that can be read and written are copied |
| `Migrate.PruneRemovesExactly` | internal/store/migrate.go:89-98 | a listed source object is removed exactly when pruning is on, its copy went through and the delete works |
| `Migrate.FailedStatOverwrites` | internal/store/migrate.go:75-92 | a concrete complete schedule overwrites an existing target object |
| `Migrate.RerunCopiesExactly` | internal/store/migrate.go:21-23 | for any failures of the first run, forced or not, a second run copies exactly the keys whose target Stat fails while the rest of their copy works |
| `Migrate.RerunCopiesNothing` | internal/store/migrate.go:21-23 | when no target Stat fails a second run copies nothing and changes nothing |
| `Migrate.SchedulesEnd` | internal/store/migrate.go:55-71 | every schedule is bounded and one that cannot go on has finished |
| `Migrate.PoolStops` | internal/store/migrate.go:55-71 | from the start every schedule ends within seven steps per key |
| `Cache.EvictedIsLongestPrefix` | internal/store/cache.go:107-116 | eviction keeps the longest most-recently-used prefix that fits, counting the drift of the recorded size |
| `Cache.InsertNew` | internal/store/cache.go:95-105 | a new key goes first, survivors are the longest fitting prefix, and it survives itself exactly if it fits alone |
| `Cache.InsertKeepsLongestFittingPrefix` | internal/store/cache.go:95-116 | with an exact recorded size the survivors are the longest prefix whose sizes fit the limit |
| `Cache.OrderedByUse` | internal/store/cache.go:95-122 | in every run from the empty index the listed keys are ordered by their latest insert or touch, newest first, and each has the size of its last insert |
| `Cache.EvictsLeastRecent` | internal/store/cache.go:95-116 | after any run, a new key leaves the longest fitting prefix of all keys in order of latest use: every evicted key was used before every key that stays |
| `Cache.RecordedSize` | internal/store/cache.go:95-122 | over every run no key is listed twice, the recorded size stays within the limit, and it is the listed sum plus the net (old - new) of re-inserts |
| `Cache.InsertWithinLimit` | internal/store/cache.go:95-116 | one insert leaves the real footprint within the limit exactly when a listed key grows by no more than what is left, or for a new key no prefix fits by the recorded size only |
| `Cache.FootprintWithinLimit` | internal/store/cache.go:95-122 | over every run the footprint stays within the limit exactly when each insert is admissible in that sense when it is made |
| `Cache.FixedSizesStayWithinLimit` | internal/store/cache.go:95-122 | when a key's size never changes the recorded size is the footprint and fits the limit |
| `Cache.DriftedCacheHoldsNothing` | internal/store/cache.go:95-105 | a drift that has reached the limit makes every new key evict itself |
| `Cache.DriftReachesLimit` | internal/store/cache.go:95-105 | two inserts of one key reach that drift for every limit |
| `Cache.GrowingKeyOverflows` | internal/store/cache.go:95-100 | a key that grows is re-inserted without being accounted for and overflows the limit |
| `Cache.KeptUnlessListed` | internal/store/cache.go:130-133 | a write that cannot be re-read keeps the cache coherent exactly when the key was not cached or its bytes did not change |
| `Cache.LostUnlessUnlisted` | internal/store/cache.go:146-150 | a re-read that breaks off keeps the cache coherent, and every indexed file in place, exactly when the key was not cached |
| `Cache.InsertFaithful` | internal/store/cache.go:134-152 | a complete re-read keeps it coherent exactly when the key is indexed at its size or evicted at once |
| `Cache.Cache.constructor` | internal/store/cache.go:34-74 | the index rebuilt from disk is the run of inserts of the walked files, exact in size, within the limit, and no file is left that is not indexed |
| `Cache.Cache.RebuildIndex` | internal/store/cache.go:59-74 | the loop over the walked files keeps that |
| `Cache.Cache.EvictLocked` | internal/store/cache.go:107-116 | the loop computes the eviction and deletes exactly the evicted files |
| `Cache.Cache.InsertLocked` | internal/store/cache.go:95-105 | index, recency list, size and files after an insert |
| `Cache.Cache.TouchLocked` | internal/store/cache.go:118-122 | moves a listed key to the front and changes nothing else; over runs `Cache.OrderedByUse` says what that order means |
| `Cache.Cache.RemoveLocked` | internal/store/cache.go:209-215 | removes exactly the key and its recorded size |
| `Cache.Cache.Put` | internal/store/cache.go:124-154 | index, files and backend for every outcome of the re-read, and for each whether the cache stays coherent and every indexed file exists, if and only if |
| `Cache.Cache.Open` | internal/store/cache.go:156-207 | what is served under the index invariant alone: the listed file whatever it holds, an abort without it, else the backend's bytes if they fit; a coherent cache stays coherent |
| `Cache.Cache.Stat` | internal/store/cache.go:217-228 | the recorded size of a listed key, stale or not, else the backend's; exactly the backend's for a coherent cache |
| `Cache.Cache.Delete` | internal/store/cache.go:230-236 | the key leaves index and files even when the backend refuses, and coherence is kept |
| `Fallback.PrimaryOverrides` | internal/store/fallback.go:11-30 | a key is visible if either store has it, with the primary's value whenever that has it |
| `Fallback.PromotionKeepsView` | internal/store/fallback.go:56-60 | copying a legacy object into the primary changes nothing a reader can see |
| `Fallback.Fallback.constructor` | internal/store/fallback.go:22-24 | wraps the two stores and has promoted nothing |
| `Fallback.Fallback.Open` | internal/store/fallback.go:37-67 | serves the view's object, never changes the view even when promotion fails, finds nothing only if the view has nothing, and counts exactly the promotions |
| `Fallback.Fallback.Stat` | internal/store/fallback.go:69-78 | reports the view's size and fails exactly when a store it must ask fails |
| `Fallback.Fallback.Put` | internal/store/fallback.go:31-35 | acts on the view as a write to one map |
| `Fallback.Fallback.Delete` | internal/store/fallback.go:80-89 | the key stays visible exactly when a store that held it kept it; a reported success with a failed legacy delete brings the legacy copy back |
| `Fallback.Fallback.List` | internal/store/fallback.go:91-113 | lists exactly the view's keys under the prefix, sorted and without duplicates |
| `Fallback.SortedIsRising` | internal/store/fallback.go:111-111 | sorting a duplicate-free list gives a strictly rising list of the same keys |
| `Fallback.RisingUnique` | internal/store/fallback.go:91-113 | two wrappers with the same view list the same sequence |
| `RateLimit.TokensInRange` | internal/api/ratelimit.go:35-51 | in every reachable state tokens lie in [0, burst] and the bucket's clock is the client's last request |
| `RateLimit.WindowBound` | internal/api/ratelimit.go:35-51 | in every run with a non-decreasing clock the requests of one client admitted in [t1, t2] number at most burst + rate * (t2 - t1) |
| `RateLimit.ServerWindows` | internal/api/server.go:69-95 | the bounds of the general, login and media limiters with their rates and bursts |
| `RateLimit.SpentSinceFull` | internal/api/ratelimit.go:44-50 | since it was last full a bucket accounts exactly for what was admitted and refilled |
| `RateLimit.AdmitsExactly` | internal/api/ratelimit.go:35-51 | a request is admitted if and only if it keeps every window [t, now] within burst + rate * (now - t) |
| `RateLimit.SpacedIsAdmitted` | internal/api/ratelimit.go:35-51 | a client whose earlier requests lie at least 1/rate back is never refused |
| `RateLimit.SmallBurstExceeds` | internal/api/ratelimit.go:39-43 | with a burst below one the first request already exceeds the bound |
| `RateLimit.BoundExactlyFromBurstOne` | internal/api/ratelimit.go:35-51 | the bound holds for all windows of all runs exactly when the burst is at least one |
| `RateLimit.ClientsAreIndependent` | internal/api/ratelimit.go:39-41 | other clients' requests never change a client's bucket |
| `RateLimit.RateLimiter.constructor` | internal/api/ratelimit.go:27-33 | a new limiter has no history |
| `RateLimit.RateLimiter.Allow` | internal/api/ratelimit.go:35-51 | for a burst of at least one a request is admitted exactly when it fits into every window ending now, at `rate` tokens a second |
| `RateLimit.RateLimiter.Serve` | internal/api/ratelimit.go:35-51 | answers and lengthens the history the bounds speak of |
| `RateLimit.RateLimiter.Spend` | internal/api/ratelimit.go:39-50 | the in-place refill and spend for any limit |
| `Categories.RollUp` | internal/api/media.go:77-102 | counts and visibility after the in-place loops: visible exactly when the subtree holds something, counts equal to the subtree totals exactly when no misplaced pair exists |
| `Categories.Loaded` | internal/api/media.go:63-74 | the counts start as each category's own entries |
| `Categories.Indexed` | internal/api/media.go:77-80 | the id map holds exactly the listed categories and their parents |
| `Categories.OwnMarks` | internal/api/media.go:81-86 | marks exactly the categories with entries of their own |
| `Categories.HandOn` | internal/api/media.go:88-102 | the loop that reads and updates the same counts computes the stated credit for every category |
| `Categories.Walk` | internal/api/media.go:92-101 | the ancestor walk ends and adds the count once to each ancestor |
| `Categories.RollUpExact` | internal/api/media.go:87-102 | every count is its subtree's total exactly when no nonempty category is listed before an ancestor that has a parent |
| `Categories.MisplacedCountsTwice` | internal/api/media.go:87-102 | each such pair inflates the count of that ancestor's parent by at least the entries concerned |
| `Categories.GrandchildCountsTwice` | internal/api/media.go:87-102 | a concrete list of three rows, grandchild first, counts its one entry twice at the top |
| `Categories.CreditIffBelow` | internal/api/media.go:81-102 | whatever the order, a category receives something exactly when its subtree below holds something |
| `Categories.Build` | internal/api/media.go:111-129 | the recursive closure with its loop builds the specified tree |
| `Categories.ShownOnce` | internal/api/media.go:111-129 | under each parent a category hanging there is shown once, with its own parent and count, and nothing else is |
| `Categories.EveryVisibleShownOnce` | internal/api/media.go:111-133 | the navigation shows every category with a nonempty subtree exactly once, under its own parent and with its count, and nothing else |
| `Categories.SiblingsInOrder` | internal/api/media.go:111-133 | siblings stand in the order of the list, at every level |
| `RotatingLog.NothingLost` | internal/logging/rotate.go:54-66 | read in order the files of the unbounded reference hold all earlier records and every record written, whole and in order |
| `RotatingLog.HeldRotated` | internal/logging/rotate.go:68-85 | a rotation drops the oldest file whole, or nothing when there is a gap before it |
| `RotatingLog.DirectoryIsRecordSuffix` | internal/logging/rotate.go:54-85 | whatever files existed at the start, log.5 to log joined are the end of everything written, cut between two records |
| `RotatingLog.FilesAreNewest` | internal/logging/rotate.go:54-85 | from files without gaps, writing to the six files is writing to the unbounded reference and looking at its newest six |
| `RotatingLog.GapFreeIsWindow` | internal/logging/rotate.go:27-52 | every directory without gaps is such a view of some reference |
| `RotatingLog.SixFilesAreKept` | internal/logging/rotate.go:73-84 | as many files exist as were ever started, up to six |
| `RotatingLog.RunIsWellCut` | internal/logging/rotate.go:58-62 | every file a run has started holds at most MaxBytes or one oversize record, and the file before it could not have taken its first record |
| `RotatingLog.RunRetains` | internal/logging/rotate.go:68-85 | after five rotations more than three times MaxBytes are retained |
| `RotatingLog.RunBounded` | internal/logging/rotate.go:68-85 | after six rotations without oversize records the six files hold at most six times MaxBytes |
| `RotatingLog.RotatingFile.constructor` | internal/logging/rotate.go:27-52 | opening any directory continues the log at its recorded size |
| `RotatingLog.RotatingFile.Write` | internal/logging/rotate.go:54-66 | the record goes whole to the current file or to a new one, and `size` is the current file's length |
| `RotatingLog.RotatingFile.Rotate` | internal/logging/rotate.go:68-85 | every file moves up one number, the oldest is dropped, and an empty log is started |
| `RotatingLog.RotatingFile.ShiftBackups` | internal/logging/rotate.go:73-81 | the descending loop shifts the backups, leaves number one free, and keeps the oldest if none takes its place |
| `LoginGuard.RunRemembers` | internal/api/auth.go:36-94 | in every reachable state the guard's maps hold exactly what the account's failures since its last login demand, whether or not it prunes |
| `LoginGuard.RefusesExactly` | internal/api/auth.go:61-74 | an attempt is refused exactly when those failures number a multiple of five and the latest is less than a lockout old |
| `LoginGuard.PruningIsInvisible` | internal/api/auth.go:42-59 | a guard that never prunes gives the same answers in every run of one-step attempts |
| `LoginGuard.SixFailuresSpanLockout` | internal/api/auth.go:76-86 | six failed logins of one account without a success between them span at least the lockout |
| `LoginGuard.StepLimited` | internal/api/auth.go:61-86 | check, failure, login, silent end and everything else, each on its own, keep the accounting of one account's failures since its last login |
| `LoginGuard.SplitWindowBound` | internal/api/auth.go:125-154 | with check and failure as separate calls and at most c requests of an account in between, no window shorter than the lockout holds more than 4 + c failures plus min(4, c - 1) since the account's last login |
| `LoginGuard.OthersAreElsewhere` | internal/api/auth.go:42-94 | pruning and calls for other accounts leave what the bound speaks of alone |
| `LoginGuard.OneInstant` | internal/api/auth.go:125-154 | 4 + c failures at one instant with no login between them are attained for every c |
| `LoginGuard.BoundAttained` | internal/api/auth.go:42-86 | the whole bound is attained with no login between the failures: late ones count for nothing once an older lock expires |
| `LoginGuard.FiveExactlyWhenOneAtATime` | internal/api/auth.go:125-154 | every run keeps to five failures per lockout since the account's last login exactly when no two of its requests are between check and outcome at a time |
| `LoginGuard.LoginsStartOver` | internal/api/auth.go:88-94 | with one request at a time, any number of rounds of four failures and a login fit into one instant: logins start the count over, and two rounds hold eight failures |
| `LoginGuard.PruningShows` | internal/api/auth.go:42-86 | for a failure without its own check, pruning changes what is remembered exactly when an expired lock has failures counted beside it |
| `LoginGuard.LoginGuard.constructor` | internal/api/auth.go:36-40 | the new guard is empty |
| `LoginGuard.LoginGuard.Prune` | internal/api/auth.go:44-59 | deletes exactly spent counters and expired locks with their counters, in any iteration order |
| `LoginGuard.LoginGuard.Locked` | internal/api/auth.go:61-74 | answers and remaining time; an expired lock is cleared |
| `LoginGuard.LoginGuard.Failure` | internal/api/auth.go:76-86 | counts the failure and locks at the fifth |
| `LoginGuard.LoginGuard.Success` | internal/api/auth.go:88-94 | forgets the account |
| `LoginGuard.LoginGuard.Login` | internal/api/auth.go:113-154 | the handler's order of calls refuses exactly when the history demands it |
| `Analytics.MetricsTellAll` | internal/analytics/analytics.go:132-153 | plays, watch time and bytes are added separately and are all there is to a delta |
| `Analytics.SumUpsert` | internal/analytics/analytics.go:133-140 | adding a delta to a row adds it once to its entry's sum |
| `Analytics.SumAdded` | internal/analytics/analytics.go:132-153 | writing a batch adds the batch's sum to every entry's daily sum |
| `Analytics.SumKept` | internal/analytics/analytics.go:193-205 | pruning splits an entry's sum into what is kept and what is removed |
| `Analytics.BatchCommitted` | internal/analytics/analytics.go:132-164 | a committed batch moves from pending to totals and daily rows and both balances still hold |
| `Analytics.BatchLost` | internal/analytics/analytics.go:126-164 | a failed batch moves from pending to lost and both balances still hold |
| `Analytics.WriteOne` | internal/analytics/analytics.go:132-153 | one iteration of the flush, whichever key it takes, writes exactly that key |
| `Analytics.Accumulator.constructor` | internal/analytics/analytics.go:45-57 | an empty accumulator is balanced |
| `Analytics.Accumulator.AddPlay` | internal/analytics/analytics.go:61-79 | one play is reported and pending, and the viewer noted, unless disabled |
| `Analytics.Accumulator.AddWatch` | internal/analytics/analytics.go:81-94 | positive seconds are reported and pending, anything else is ignored |
| `Analytics.Accumulator.AddBytes` | internal/analytics/analytics.go:96-109 | positive bytes are reported and pending, anything else is ignored |
| `Analytics.Accumulator.Flush` | internal/analytics/analytics.go:111-164 | a flush of a nonempty batch succeeds exactly when neither a statement nor the commit fails; success adds exactly the batch, failure loses exactly the batch; reported equals totals plus pending plus lost and totals equal daily plus pruned throughout |
| `Analytics.Accumulator.Store` | internal/analytics/analytics.go:126-163 | the transaction of a batch that is no longer pending, booked as written or as lost |
| `Analytics.Accumulator.Transact` | internal/analytics/analytics.go:126-163 | commits exactly when none of its 2 * days + viewers statements and not the commit fails; a committed transaction leaves the old tables plus the batch |
| `Analytics.Accumulator.WriteDays` | internal/analytics/analytics.go:132-153 | the loop over the map writes every key once in whatever order |
| `Analytics.Accumulator.Prune` | internal/analytics/analytics.go:193-206 | removes exactly the daily rows before the cutoff, books them as pruned and leaves totals alone; says exactly when it fails and what it has done by then |
| `Keys.PrintParse` | internal/store/keys.go:22-24 | printing and parsing an id are inverse for every 64-bit integer |
| `Keys.ParseExactly` | internal/store/keys.go:78-82 | the parser reads exactly the decimal forms of the 64-bit integers, with leading zeros and a sign allowed, and their values |
| `Keys.SplitSlashed` | internal/store/keys.go:74-74 | splitting undoes joining elements without slashes |
| `Keys.JoinSegments` | internal/store/keys.go:22-56 | on clean segments path.Join only adds slashes and splitting gives the segments back |
| `Keys.JoinIsClean` | internal/store/keys.go:22-56 | a joined path is clean, joins to itself, and is empty only for empty elements |
| `Keys.SanitizeLang` | internal/store/keys.go:58-69 | the result is a nonempty string of a-z, 0-9, - and _, the one `Keys.LangExactly` describes |
| `Keys.LangExactly` | internal/store/keys.go:58-69 | a name with white space around it becomes its lower-case form when every character folds to a-z, 0-9, - or _, and `en` otherwise |
| `Keys.LangIsStable` | internal/store/keys.go:58-69 | a sanitized language is a clean segment and is left alone when sanitized again |
| `Keys.BuildSplits` | internal/store/keys.go:26-56 | every builder's key splits into the documented path elements |
| `Keys.KeyLayout` | internal/store/keys.go:10-56 | every builder's key is spelled as the documented layout says |
| `Keys.ParserInvertsBuilders` | internal/store/keys.go:71-83 | the parser finds the entry id in every builder's key, with or without slashes around it |
| `Keys.EntryIDExactly` | internal/store/keys.go:71-83 | the parser accepts exactly the paths at or below `entries/{id}`, with slashes in front, and answers that id |
| `Keys.KeysCoincideExactly` | internal/store/keys.go:10-56 | two builder calls give one key exactly when they name the same file: ids, kinds and names never collide otherwise |
| `Storage.BaseOfBuild` | internal/api/storage.go:64-64 | the base name of a builder's key is its file name |
| `Storage.ClassifyRecoversExactly` | internal/api/storage.go:60-78 | kind and flavor are recovered from every builder's key, except exactly for subtitles in the languages original, poster and sprite and segments whose names start like those files |
| `Storage.HoldsSubsExactly` | internal/api/storage.go:72-74 | the substring test holds exactly for keys with /subs/ in them |
| `Storage.StrayFlavorFile` | internal/api/storage.go:66-71 | a file directly in the flavors directory counts as the flavor of its name |
| `Storage.EntryOfBuild` | internal/api/storage.go:104-112 | a builder's file is counted for its own entry |
| `Storage.EntryOfExactly` | internal/api/storage.go:104-112 | a file is counted for an entry exactly if its key has a second element that reads as the id and something behind it |
| `Storage.GroupFiles` | internal/api/storage.go:100-126 | per entry and class the group holds the sizes and number of exactly its files; entries in order of first appearance |
| `Storage.GroupStep` | internal/api/storage.go:104-126 | one more file changes exactly its own group |
| `Storage.GroupsAddUp` | internal/api/storage.go:142-155 | in whatever order the groups are summed an entry's total is the size of all its files |

## Left out

- ClaimInterleaving.OneTranscodePerEntry: sufficient hypothesis; the exact condition is `ClaimHazards.TranscodesSafeExactly`.
- ClaimInterleaving.OneDownloadRuns: sufficient hypothesis; the exact condition is `ClaimHazards.DownloadsSafeExactly`.
- ClaimHazards.TranscodesSafeExactly: for the first claim to select; when others have selected too only the unsafe half is stated (`ClaimHazards.UncoveredRunsTwice`).
- ClaimHazards.DownloadsSafeExactly: likewise, with `ClaimHazards.OvertakingRunsTwice`.
- QueueRuns.LeasesHold: the beats at every reclaim are a hypothesis, because the loop that sends them can block in a claim round.
- WorkerLoop.RoundBlocksBeat: counts jobs, not durations; tickers, draining and pruning are left out.
- QueueRuns.RunsAreSafe: a claim is one step here; `ClaimInterleaving` and `SplitLeases` split it.
- SplitLeases.SplitLeasesHold: a statement that meets a row a claim has locked is not taken until the claim ends.
- TranscodeSem.Runner.Lookup: semaphore objects are named by their index instead of by pointer; the once-guard of release is the order Receive then Drop.
- Pipeline.AttemptsDecideEntry: attempted flavors only, mixed runs are in `Pipeline.MixedCalls`; failing store or database calls are not modelled, except where the context of the job has ended.
- Pipeline.Runner.Transcode: a deletion or an ended context between the check in `finalizeTranscode` and its last write, and the files of a deleted entry, are not modelled.
- Pipeline.Runner.Probe: the flavor selection and its rows only, not probing, posters and sprites.
- S3Reader.S3Object.ReadInto: what `openRange` answers is a parameter; the object's bytes do not change while it is read.
- Migrate.EveryScheduleAgrees: distinct keys, failures that depend on the key and call only, atomic Put, no context cancellation.
- Cache.Cache.Open: failures of the local file system are left out; a broken backend is one flag.
- Cache.Cache.TouchLocked: the list element a map entry points to is its position in the recency list, so pointers into the list are not captured.
- Fallback.Fallback.List: what the two stores list is a parameter.
- RateLimit.RateLimiter.Allow: reals instead of float64 rounding, and a clock that does not run backwards, as the window bound needs.
- LoginGuard.LoginGuard.Login: each call reads the clock once, and accounts are already case-folded.
- RotatingLog.RotatingFile.Write: file-system errors are left out.
- Analytics.Accumulator.Prune: days are numbers; rows that disappear with a deleted entry are left out.
- Categories.EveryVisibleShownOnce: ids, parents and counts only, not names and slugs; parents exist, as the foreign key demands, and the links form a forest.
- Keys.ParserInvertsBuilders: names are single clean path segments; `path.Clean` is modelled for relative paths only.
- Storage.GroupFiles: sorting the rows, paging and the system row are left out.
- PostgreSQL itself (planning, re-evaluation of locked rows, serialization failures): READ COMMITTED is a snapshot per statement and SKIP LOCKED passes over locked rows.
- The spool cache of downloaded sources, the download handler and its own semaphore.
- The web interface, HTTP routing, cookies, tokens, password hashing, CORS and security headers.
- ffmpeg and ffprobe, the AWS client, upload handling, settings, configuration and the other CRUD files: easy members only.
- Prefix deletion on S3 and the two-level `CategoryTree`, whose behaviour differs from the code modelled here.
