# CronHive: a verified model of the scheduling protocol

CronHive runs any number of scheduler processes, workers and API servers against one Postgres
database, one Redis store and one BullMQ queue. This project models the protocol between them and
proves what it guarantees over all runs: in every interleaving, with calls that throw before or after
they took effect, locks that expire at any time, clocks that disagree, leader flags that are stale,
processes that die, and jobs that are edited and deleted meanwhile.

## How the model is built

Each concurrent part is a step system. A `State` holds the tables and stores, the program point of
every running process, and history variables; a `Step` is what happens between two awaits; `Next` is
total (a step whose guard fails changes nothing), so every sequence of steps is a run and the theorems
quantify over all of them.

| file | part of the system |
|---|---|
| `Domain`, `Database`, `Redis`, `Claims` | rows and settings; the two tables with their constraints; SET NX, compare-and-delete, compare-and-extend; claims and queue entries |
| `CronUtils`, `LockTtl`, `Keys` | the due fire-slot, the retry policy and the lock TTL, the Redis keys |
| `LockFree` | ticks and triggers with locks and leadership erased; the double-fire guarantee is proved here |
| `Scheduler`, `SchedulerLocks`, `SchedulerLiveness`, `SchedulerDisable`, `ManualTrigger` | the full protocol, its refinement to `LockFree`, and its run theorems |
| `Leader`, `LeaderTiming`, `LeaderFailover` | the timed lease and the local flags; when a flag can be relied on; how fast another instance takes over |
| `Worker`, `WorkerFrame`, `WorkerQueue`, `WorkerRerun`, `WorkerBreaker`, `Stats` | attempts and execution records; what workers leave alone; what the retry rule bounds, and when a success runs again; the circuit breaker; the statistics |
| `JobCache` | API writes and cache commands |
| `SchedulerWitnesses`, `LeaderWitnesses`, `WorkerWitnesses`, `JobCacheWitnesses` | runs from the initial state in which the failures listed below happen |
| `SchedulerProcess` (with `SchedulerVisits`), `LeaderProcess`, `WorkerProcess`, `JobService` | the source's procedures as imperative methods on mutable stores |

The last row ties the code to the step systems. Each class keeps the stores as fields and calls
`Await`, which lets everybody else take any number of steps, wherever the source has an `await`. Its
methods change the fields statement by statement, as the source does, and are proved to take protocol
steps only (`Valid` says that the fields are the state reached by the recorded steps), so every run
theorem holds of them. Where a method has a parameter `calm`, it stands for a run in which none of this
process's own calls fails; the contract then says exactly what the method achieves, while others may
still do anything.

Modelling decisions: execution ids, lock tokens and attempts are numbered, which stands for cuid and
UUID values never repeating; job ids are never reused; the scheduler's own clock readings are
arbitrary, only Redis has a clock that expires keys; the cron library is the function `Env.prev` with
the contract `CronUtils.IsPrev`; an execution has at most one queue entry, as `LockFree.RunKeepsInv`
shows of the scheduler; BullMQ runs the processor again only after a throw, up to `attempts` times,
waiting `delay * 2^(k-1)` after the k-th failure; each database statement is atomic; a callback is a
`CallbackResult` supplied from outside.

## Where the code promises less than its documentation

- "Exactly once per slot": at most once holds without any condition (`NeverFiresTwice`). Exactly once
  holds for the slots that no failure hit and whose job still exists (`QuiescentExactlyOnce`), and for a
  slot in general exactly if its claim was made and not lost (`FiredExactlyOnceIff`). A death after the
  insert strands the row for good (`DeathStrandsClaim`, `StrandedRun`). A lock whose process threw or
  died without releasing it suppresses the slot until it expires (`OrphanedIff`,
  `OrphanSuppressesSlot`, `SuppressedRun`).
- "Exactly one leader at a time": a raised flag is right exactly until the last lease granted to its
  instance expires or is released (`FlagExactlyUntilExpiry`). A slow leader overlaps with its successor
  and `stop` lowers the flag only after the release (`SlowLeaderRun`, `StoppingLeaderRun`). Neither
  happens to instances that are prompt and not stopping (`PromptRunsAreTimely`, `TimelySafety`). `stop`
  is final exactly if no acquire of the instance is under way (`StopIsFinalIff`, `StoppedLeaderRun`).
- The lock TTL is computed exactly if and only if the final sum is below 2^53 (`ExactIff`), which fails
  for retry policies the API accepts (`NotExactFrom32`).
- A run ends in SUCCESS or DEAD unless the job is seen disabled on the way (`RunEntry`). A successful
  execution runs again exactly if its attempt throws after the SUCCESS write with attempts remaining
  (`RetriedIff`, `SuccessRunsAgainIff`, `RerunRun`).
- The breaker's two writes can straddle a success (`StraddledRun`), and only then does a disable find
  the streak below the threshold (`DisableFindsStreak`); re-enabling does not clear the streak
  (`ReenabledTripsAtOnce`, `ReenabledRun`), and the cache keeps showing the job as enabled
  (`BreakerUnseen`, `UnseenRun`).
- Overlapping API operations can leave an old row, or a deleted job, in the cache
  (`StaleRun`, `UndeletedRun`); one that runs alone to its end does not (`CoherentAtRest`).

## Model

| member | source | states |
|---|---|---|
| `Database.WriteKeepsValid` | prisma/schema.prisma:35-57 | every update, delete with cascade and creation keeps: rows belong to existing jobs, (jobId, scheduledFor) is unique, ids are never reused |
| `Database.WriteIsExact` | prisma/schema.prisma:35-57 | each write leaves exactly its row as written, or gone with its executions, and every other row alone |
| `Database.InsertKeepsValid` | prisma/schema.prisma:38-54 | an insert that passes the foreign key and the unique index keeps the same |
| `CronUtils.DueExactly` | src/lib/cron-utils.ts:23-41 | a fire time f of the expression in its time zone, UTC if empty, is the due slot at `now` iff f < now <= f + scan interval + 5000 and no other fire time lies in between |
| `CronUtils.SlotStability` | src/lib/cron-utils.ts:17-22 | two evaluations with no fire time between them agree whenever the later one is due |
| `CronUtils.SlotsSeparated` | src/lib/cron-utils.ts:28-37 | evaluations separated by a fire time never return the same slot |
| `CronUtils.Coverage` | src/lib/cron-utils.ts:33-37 | with ticks no further apart than the window, a fire time is returned by some tick iff a tick falls after it and no later than the next one |
| `CronUtils.NoneMissed` | src/scheduler.ts:108-109 | if fire times are at least a tick gap apart, none between the first and the last tick is missed |
| `CronUtils.DenseScheduleMisses` | src/lib/cron-utils.ts:33-37 | a schedule denser than the ticks does lose a fire time |
| `LockTtl.ComputeJobLockTtlSeconds` | src/lib/lock-ttl.ts:7-15 | the accumulation loop yields the closed form of the retry budget, rounded up to seconds, at least one |
| `LockTtl.PartialBackoffClosed` | src/lib/lock-ttl.ts:9-12 | after i rounds the loop holds backoffMs * (2^i - 1) |
| `LockTtl.TtlCoversRun` | src/lib/lock-ttl.ts:6-15 | any run of at most maxRetries + 1 callbacks within the job's own timeout, or the default if it has none, with the doubling waits, plus the buffer fits into the TTL |
| `LockTtl.TtlIsTight` | src/lib/lock-ttl.ts:13-14 | one second less would not cover the slowest such run plus the buffer, and the least TTL is one second |
| `LockTtl.ExactIff` | src/lib/lock-ttl.ts:8-13 | all intermediate integers stay below 2^53 iff the final sum does |
| `LockTtl.ExactUpTo31` | src/routes/jobs.router.ts:20-23 | they do for every accepted policy with at most 31 retries |
| `LockTtl.NotExactFrom32` | src/routes/jobs.router.ts:20-23 | they do not for 32 or more retries with the longest accepted backoff |
| `Keys.LockKeysInjective` | src/lib/lock.ts:22-24 | two lock keys are equal iff job and slot are, even for ids containing colons |
| `Keys.KeyFamiliesDisjoint` | src/lib/job-cache.ts:4-8 | lock keys, config keys and the leader key never collide |
| `Claims.CreatedKeepsInv` | src/services/execution.service.ts:29-47 | a row that passes the constraints is the first claim ever of its slot, even after earlier deletions |
| `Claims.InsertKeepsInv` | src/services/execution.service.ts:29-47 | an insert wins a fresh claim, or finds the slot claimed, or throws leaving nothing or a claim known to be lost |
| `LockFree.RunKeepsInv` | src/services/execution.service.ts:18-28 | in all runs each claim is enqueued, about to be by one process, or lost, never two of these |
| `LockFree.LostForever` | src/scheduler.ts:57-67 | a claim whose queue entry was lost is not enqueued by any later step |
| `Scheduler.StepRefines` | src/scheduler.ts:44-52 | each step, with locks and leaders erased, is one lock-free step or none |
| `Scheduler.RunRefines` | src/scheduler.ts:92-96 | every run maps to a lock-free run with the same rows, claims and queue |
| `Scheduler.NeverFiresTwice` | src/scheduler.ts:54-67 | in all runs no fire time of a job is enqueued twice, and the entry carries the id of that slot's only claim |
| `SchedulerLocks.RunKeepsInv` | src/lib/lock.ts:45-63 | in all runs a key is granted again only after its release or expiry, a grant stays stored until then, and every grant is held, released, kept for an enqueued slot, or its process threw or died |
| `SchedulerLocks.OnlyOwnerDeletes` | src/lib/lock.ts:26-33 | an unexpired lock is removed only by the release of the process it was granted to |
| `SchedulerLocks.TickAccounting` | src/scheduler.ts:40-74 | after a normal return the unexpired locks of a tick are exactly those of the slots it enqueued, and enqueued plus deduped equals due |
| `SchedulerLiveness.RunKeepsLiveInv` | src/scheduler.ts:41-68 | for slots no failure hit: a stored lock implies a claim or a process about to insert, and a slot found due is claimed or pursued |
| `SchedulerLiveness.QuiescentExactlyOnce` | src/scheduler.ts:40-74 | once all processes are done, each such slot of an existing job has exactly one row and exactly one queue entry, which belong together |
| `SchedulerLiveness.FiredExactlyOnceIff` | src/scheduler.ts:54-73 | once all processes are done, a slot of an existing job has fired exactly once iff its claim was made and no failure came between insert and enqueue, whatever else failed |
| `SchedulerLiveness.CleanRunsFireExactlyOnce` | src/scheduler.ts:40-74 | hence exactly once for every due slot in runs without failing calls and deaths |
| `SchedulerLiveness.QuiescentClaims` | src/scheduler.ts:57-67 | once all processes are done, a claim is enqueued iff no failure came between its insert and its enqueue |
| `SchedulerLiveness.DeathStrandsClaim` | src/scheduler.ts:57-67 | a death between insert and enqueue leaves a row that no continuation enqueues |
| `SchedulerLiveness.OrphanedIff` | src/scheduler.ts:48-73 | in all reachable states a lock is left over for an unclaimed slot that nobody is about to insert iff its process threw or died and no release took effect |
| `SchedulerLiveness.OrphanSuppressesSlot` | src/scheduler.ts:48-52 | such a lock keeps the slot unclaimed in every continuation until it expires |
| `SchedulerLiveness.DeathSuppressesSlot` | src/scheduler.ts:48-57 | so does a death between acquire and insert |
| `SchedulerLiveness.AcquireOrphans` | src/scheduler.ts:48 | an acquire that throws after taking effect leaves such a lock, as it is outside the try block |
| `SchedulerLiveness.ReleaseOrphans` | src/scheduler.ts:70-73 | so does a failing release after an insert that threw without effect |
| `SchedulerWitnesses.StrandedRun` | src/scheduler.ts:57-67 | a run from the initial state to a due slot whose row is stranded, with all processes done |
| `SchedulerWitnesses.SuppressedRun` | src/scheduler.ts:48-57 | a run from the initial state to a due slot that is suppressed |
| `SchedulerDisable.DisableIsEffective` | src/scheduler.ts:34-40 | while a job is disabled, paused or deleted, the scheduled entries still added for it are at most the ticks that already had it in their snapshot |
| `SchedulerDisable.RunKeepsSnapshotInv` | src/scheduler.ts:34-36 | in all runs no process meets the same job twice |
| `ManualTrigger.ManualRunsDoNotOverlap` | src/routes/jobs.router.ts:164-181 | two accepted triggers of a job never have overlapping retry runs if queueing and overhead fit the buffer |
| `SchedulerProcess.World.FindMany` | src/scheduler.ts:34-36 | the snapshot holds exactly the enabled, unpaused rows of the table, each once |
| `SchedulerProcess.World.AcquireJobLock` | src/lib/lock.ts:45-55 | succeeds iff the key is free or expired, and then stores a fresh token for exactly the TTL; a refusal changes nothing, an error leaves the tick |
| `SchedulerProcess.World.CreateExecution` | src/services/execution.service.ts:15-47 | one insert step: exactly one new first row (PENDING, attempt 1, its source) for an existing job's free slot, or None iff the slot has a row, or a throw that may leave the new row behind; without failures it throws iff the job is gone |
| `SchedulerProcess.World.NextDueSlot` | src/lib/cron-utils.ts:23-41 | the slot is the last fire time of the job's expression in its time zone before the clock reading, if no older than the window |
| `SchedulerProcess.World.QueueAdd` | src/scheduler.ts:63-68 | the entry, with the job's retry options, is appended and nothing else changes; a throw may have appended it, and leads to the release path |
| `SchedulerProcess.World.ReleaseJobLock` | src/lib/lock.ts:61-63 | the key is deleted iff it still holds this token, unless the call fails; a failing release on the dedupe path is repeated by the catch block |
| `SchedulerProcess.World.ClaimSlot` | src/scheduler.ts:54-73 | a slot ends enqueued, its lock in the store until it expires, or deduped, its lock gone from the store, or in a throw |
| `SchedulerProcess.World.Tick` | src/scheduler.ts:30-77 | the scan takes protocol steps only; if it returns normally everything it did is accounted for; without failing calls it visits each job of its snapshot, in order: a due slot whose key is held or which has a row is deduped, any other gets exactly one row and one entry with its id, the counters say how many, and it throws only where a job is gone |
| `SchedulerProcess.World.RunOnce` | src/scheduler.ts:92-97 | with leader election on, exactly the instances whose flag is true begin a tick and finish it; the others take no step |
| `SchedulerProcess.World.TriggerJob` | src/routes/jobs.router.ts:153-185 | 404, 409, 202 or an error as the handler answers, a failing read of the job included; 202 means one acknowledged enqueue whose lock is in the store until it expires, the other answers mean none; without failing calls, 409 iff the key is held, and otherwise one row and one entry and 202, unless the job is gone |
| `Leader.DefaultHeartbeatMs` | src/lib/leader.ts:52-53 | the heartbeat is the largest whole number of milliseconds of which three fit into the lease |
| `Leader.OnlyHolderChangesLease` | src/lib/leader.ts:10-27 | no renew, release or acquire with another token changes an unexpired lease |
| `Leader.FlagExactlyUntilExpiry` | src/lib/leader.ts:66-100 | in all reachable states an instance, stopped or not, holds the lease iff the last one granted to it has neither expired nor been released; only a stopping instance has its flag up after a release |
| `LeaderTiming.TimelySafety` | src/lib/leader.ts:66-100 | if replies are handled before the lease they concern expires, a raised flag means the unexpired token unless the instance's own release took effect, and no two other flags are up |
| `LeaderTiming.PromptRunsAreTimely` | src/lib/leader.ts:52-85 | campaigning every heartbeat and handling each reply within d makes replies timely whenever heartbeat + 2d is less than the lease and stop finds no acquire under way |
| `LeaderTiming.DefaultHeartbeatIsSafe` | src/lib/leader.ts:52-53 | so under the default heartbeat at most one unreleased flag is up, the holder's, if every reply is handled within a third of the lease and stop finds no acquire under way |
| `Leader.SlowLeaderOverlaps` | src/lib/leader.ts:69-72 | once the lease lapsed, a follower's campaign makes a second flag true |
| `Leader.StopOverlaps` | src/lib/leader.ts:89-99 | between the release and the lowering of the flag a follower can already lead |
| `Leader.AcquireOutlivesStop` | src/lib/leader.ts:74-76 | an acquire under way during stop can set the flag after stop returned |
| `Leader.StopIsFinalIff` | src/lib/leader.ts:89-100 | in every continuation the flag is down once the release is handled, iff no acquire of the instance was under way at stop |
| `LeaderWitnesses.SlowLeaderRun` | src/lib/leader.ts:69-72 | a run from the initial state to two raised flags after a lapse |
| `LeaderWitnesses.StoppingLeaderRun` | src/lib/leader.ts:89-99 | one to two raised flags during a stop |
| `LeaderWitnesses.StoppedLeaderRun` | src/lib/leader.ts:74-76 | one to the raised flag of a stopped instance that nothing will lower |
| `LeaderFailover.Failover` | src/lib/leader.ts:36-47 | once the holder falls silent, while Redis serves nothing for it or for dead instances and a follower campaigns every heartbeat until somebody has taken over, a live instance holds the lease within lease plus heartbeat |
| `LeaderProcess.Cluster.EvalRenew` | src/lib/leader.ts:13-19 | renewal succeeds iff the token is stored and unexpired, and then extends it by the lease |
| `LeaderProcess.Cluster.SetLease` | src/lib/leader.ts:75 | an acquire succeeds iff no unexpired lease is stored |
| `LeaderProcess.Cluster.EvalRelease` | src/lib/leader.ts:21-27 | the holder's release deletes the key unless the call fails; anybody else's changes nothing |
| `LeaderProcess.Cluster.RunCampaign` | src/lib/leader.ts:66-82 | one campaign from request to handled reply: a leader renews, a follower acquires, and the flag ends as the reply demands; a stopped instance does nothing |
| `LeaderProcess.Cluster.RunStop` | src/lib/leader.ts:89-100 | afterwards the instance is stopped, and if it led, its release was answered and its flag is down |
| `Worker.RecordsAlwaysFit` | src/worker.ts:139-148 | in all runs finishedAt is set iff SUCCESS, FAILED or DEAD, those rows have a duration, startedAt is set iff not PENDING, and every row's job exists |
| `WorkerFrame.StaysDisabled` | src/worker.ts:29-58 | in all continuations a disabled job stays disabled until an edit enables it, whatever workers do |
| `WorkerFrame.OnlyEditsEnable` | src/worker.ts:53-58 | no other step switches a job on |
| `WorkerFrame.RowsKeepIdentity` | src/worker.ts:139-182 | in all continuations a row keeps its job, slot, trigger and creation time |
| `WorkerBreaker.BreakerSound` | src/worker.ts:29-58 | in all runs the counter is the number of increments since the last reset, an increment reaching the threshold is followed by that attempt's disable unless it fails, and every disable goes back to such an increment |
| `WorkerBreaker.StreakMeansIncrements` | src/worker.ts:29-58 | a streak of n is n increments with no reset among them, starting right after the last reset |
| `WorkerBreaker.ReenabledTripsAtOnce` | src/worker.ts:30-38 | after re-enabling, one more dead execution disables the job again iff the old streak plus one reaches the threshold |
| `WorkerBreaker.DisableAfterReset` | src/worker.ts:34-38 | a success between increment and disable leaves the job disabled with counter 0 |
| `WorkerBreaker.DisableFindsStreak` | src/worker.ts:30-38 | in all runs each disable finds the streak at the threshold unless it was reset after the attempt's increment, and then finds what was counted since |
| `WorkerBreaker.DeletedJobsNeverCallBack` | src/worker.ts:128-148 | after a job's deletion only attempts that had already marked their row as running call back for its executions, whatever the cache says |
| `WorkerQueue.OneCallPerAttempt` | src/worker.ts:160-170 | in all runs no attempt calls back twice, and each callback is for its attempt's execution |
| `WorkerQueue.EntryBounds` | src/worker.ts:111-121 | in all runs, with failures, deaths and deletions: at most as many callbacks as attempts, at most max attempts, one at a time, at most one dead letter, and that by the last attempt |
| `WorkerRerun.RetriedIff` | src/lib/queues.ts:77-82 | in every continuation of every reachable state a further attempt follows an attempt iff it threw and attempts remained |
| `WorkerRerun.SuccessRunsAgainIff` | src/worker.ts:173-198 | in all reachable states a SUCCESS row can become RUNNING again iff its latest attempt has not reached the row yet, or threw or can still throw with attempts remaining |
| `WorkerWitnesses.RerunRun` | src/worker.ts:173-198 | a run from the initial state to a SUCCESS row that can be run again |
| `WorkerWitnesses.StraddledRun` | src/worker.ts:34-38 | for every threshold, a run to a job disabled with counter 0 |
| `WorkerWitnesses.ReenabledRun` | src/worker.ts:30-38 | for every threshold, a run to a re-enabled job that one more dead execution disables |
| `WorkerProcess.Pool.MarkRunning` | src/worker.ts:139-148 | unless it throws, the row becomes RUNNING with this attempt's number and no end, the start time the attempt had read is kept, and no other column or row changes |
| `WorkerProcess.Pool.RecordResult` | src/worker.ts:172-223 | unless it throws, the row gets SUCCESS, DEAD on the last attempt or FAILED, and reports the callback's status code, duration and error, and no other column or row changes |
| `WorkerProcess.Pool.ResetDeadStreak` | src/worker.ts:53-58 | unless it throws, the counter of this job becomes 0, and nothing else in the tables changes |
| `WorkerProcess.Pool.IncrementDeadCount` | src/worker.ts:30-33 | unless it throws, the counter of this job grows by one, and nothing else changes |
| `WorkerProcess.Pool.DisableJob` | src/worker.ts:35-38 | unless it throws, this job is switched off, and nothing else changes |
| `WorkerProcess.Pool.AddDeadLetter` | src/worker.ts:78-83 | unless it throws, one dead letter with the execution's id, job and error is added, the tables untouched |
| `WorkerProcess.Pool.ApplyCircuitBreaker` | src/worker.ts:29-51 | increments at once, and disables afterwards iff the increment reached the threshold, leaving the execution untouched |
| `WorkerProcess.Pool.Conclude` | src/worker.ts:172-236 | the result is recorded, dead-lettered once iff DEAD, and the attempt throws iff FAILED; a success resets the streak and a dead execution counts |
| `WorkerProcess.Pool.ProcessExecutionJob` | src/worker.ts:122-237 | the attempt goes by the cached job, or on a miss by a row the job had meanwhile; without failures: one callback and its verdict if that job is enabled, nothing at all otherwise |
| `WorkerProcess.Pool.RunEntry` | src/lib/queues.ts:77-82 | in all runs at most maxRetries + 1 callbacks and one dead letter, and no attempt is due at the end; without failures, for every sequence of outcomes: callbacks up to the first success, the first time the job is seen disabled, or maxRetries + 1; SUCCESS, DEAD with exactly one dead letter, or neither, accordingly; attemptNumber is the count, the first start time is kept the row reports the last callback's result, a success resets the streak and a dead execution counts |
| `Stats.CountsAreExact` | src/services/execution.service.ts:79-98 | there are statistics iff the job exists; in all reachable states each count is the number of executions with that status, so the finishedAt condition drops none |
| `Stats.StatsConsistent` | src/services/execution.service.ts:95-115 | the counts sum to totalRuns, the rate is the successes' share, 0 without runs, and the average is null iff there are no runs and otherwise between the least and greatest duration |
| `Stats.AverageIsExact` | src/services/execution.service.ts:99-103 | in all reachable states the average is the rounded mean of the durations of all the executions counted |
| `Stats.RoundBounds` | src/services/execution.service.ts:102-103 | the rounded mean is the nearest integer and stays within integer bounds on the values |
| `JobCache.EntriesAreVersions` | src/lib/job-cache.ts:10-29 | in all interleavings every cache entry, and every pending one, is a row the job once had |
| `JobCache.CoherentAtRest` | src/services/job.service.ts:80-120 | if the latest operation on a job ran alone to its end, its entry is then absent or equals the row on every API-only column, whatever failed or raced before |
| `JobCache.RacingUpdatesGoStale` | src/services/job.service.ts:93-95 | two overlapping updates can leave the older configuration cached |
| `JobCache.RacingDeleteLeavesEntry` | src/services/job.service.ts:93-105 | an update overlapping a delete can leave the deleted job cached |
| `JobCache.BreakerUnseen` | src/worker.ts:34-38 | after the breaker's write workers see the job enabled iff an unexpired cached entry says so |
| `JobCacheWitnesses.StaleRun` | src/services/job.service.ts:93-95 | a run from the initial state to a cached configuration older than the row |
| `JobCacheWitnesses.UndeletedRun` | src/services/job.service.ts:93-105 | one to a cached deleted job |
| `JobCacheWitnesses.UnseenRun` | src/worker.ts:34-38 | one to a job that the breaker disabled and workers see enabled |
| `JobService.Service.CreateJob` | src/services/job.service.ts:52-70 | the write adds exactly this row, then it is cached; on success, certain without failing calls, the entry is exactly the new row |
| `JobService.Service.UpdateJob` | src/services/job.service.ts:92-99 | None and no step for a missing job; otherwise the write leaves exactly the requested row, and on success, certain without failing calls, it was invalidated and then cached |
| `JobService.Service.DeleteJob` | src/services/job.service.ts:102-110 | no step for a missing job, otherwise exactly its row is deleted first; reports true only if the job existed and its entry is gone, and then certainly without failing calls |
| `JobService.Service.UpdateMany` | src/services/job.service.ts:117 | every named job has the new value and its other columns, every other row is unchanged, and the count is that of the named existing jobs, each once |
| `JobService.Service.BulkSetEnabled` | src/services/job.service.ts:116-120 | the one write comes first, then one invalidation per id is sent whatever the others do, and it throws iff one failed |
| `JobService.Service.SeeJob` | src/worker.ts:128-129 | what a worker reads is a row the job once had |

## Left out

- cron-parser, time zones and daylight saving: the library is a function with a `prev` contract.
- BullMQ, Prisma and ioredis internals, stalled-job recovery included: only the contracts named above.
- The HTTP callback and its signature (`src/services/callback.service.ts`): an outcome with a duration.
- `src/lib/ssrf.ts`, `src/lib/auth.ts`, request validation, pagination: flat filters without state.
- `src/server.ts`, metrics, logging, event payloads and the frontend: publishing an event is a call that may throw; only the enqueued and deduped counters are kept.
- `src/config/env.ts`: its values are the fields of `Env`.
- Job creation's `createdAt`, and `updatedAt` outside `JobCache`: no modelled code reads them.
- JavaScript rounding of sums beyond 2^53: `LockTtl.ExactIff` says when it does not occur, the TTL theorems are about exact integers.
- WorkerProcess.Pool.RunEntry: the end state is stated for runs without infrastructure errors and with the job kept in the table; for the others it states the bounds, and the theorems of `WorkerQueue`, `WorkerRerun` and `WorkerBreaker` hold.
- Failing database writes in the `JobService` methods: a write that fails takes no step, one that fails after committing is the write step followed by a failing cache step, which `JobCache` covers; the methods show only the cache commands failing.
- JobService.Service.BulkSetEnabled: returns when all invalidations have been answered, whereas a rejected Promise.all returns at the first failure; the step system has no such restriction.
