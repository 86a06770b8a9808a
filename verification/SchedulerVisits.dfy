/**
  What one scan, one slot and one trigger did, told by the states before and after the process's own steps:
  the vocabulary of the contracts in SchedulerProcess.
 */
module SchedulerVisits {
  import opened Domain
  import opened Database
  import opened Claims
  import opened LockTtl
  import opened Scheduler
  import CronUtils

  /** Exactly the enabled, unpaused rows, each once. */
  ghost predicate IsSnapshot(db: Db, jobs: seq<Job>) {
    && Distinct(jobs)
    && forall job :: job in jobs <==> job.id in db.jobs && db.jobs[job.id] == job && job.enabled && !job.config.paused
  }

  /** The table has a row for this fire time of the job. */
  ghost predicate HasSlot(db: Db, jobId: JobId, ms: int) {
    exists e :: e in db.execs && db.execs[e].jobId == jobId && db.execs[e].scheduledFor == Some(ms)
  }

  /** The job exists, its slot was free, and what changed is its new row for the slot. */
  ghost predicate RowAdded(db: Db, db': Db, e: ExecId, jobId: JobId, slot: FireSlot) {
    && e !in db.execs && jobId in db.jobs && (slot.At? ==> !HasSlot(db, jobId, slot.ms))
    && e in db'.execs && db' == db.(execs := db.execs[e := db'.execs[e]], nextExec := e + 1)
    && FirstRow(db'.execs[e], jobId, slot)
  }

  /** A row that nobody has worked on yet. */
  predicate FirstRow(row: Execution, jobId: JobId, slot: FireSlot) {
    && row.jobId == jobId && row.status == PENDING && row.attemptNumber == 1
    && row.startedAt.None? && row.finishedAt.None?
    && row.responseCode.None? && row.durationMs.None? && row.errorMessage.None?
    && match slot
       case At(ms) => row.scheduledFor == Some(ms) && row.triggerSource == "schedule"
       case Manual => row.scheduledFor.None? && row.triggerSource == "manual"
  }

  /** A new row, or None for a slot that has one, or a throw that may have left a row behind. */
  ghost predicate Inserts(db: Db, db': Db, exec: Option<ExecId>, threw: bool, jobId: JobId, slot: FireSlot) {
    if exec.Some? then !threw && RowAdded(db, db', exec.value, jobId, slot)
    else if threw then db' == db || RowAdded(db, db', db.nextExec, jobId, slot)
    else slot.At? && HasSlot(db, jobId, slot.ms) && db' == db
  }

  function StateAt(env: Env, start: int, steps: seq<Step>, k: nat): State
    requires k <= |steps|
  {
    Run(env, Init(start), steps[..k])
  }

  /** At step `k` process `p` asked for the slot's lock; it was free, or held by somebody. */
  ghost predicate AcquiredAt(env: Env, start: int, steps: seq<Step>, k: nat, p: ProcId, key: Claim, free: bool) {
    && k < |steps| && steps[k] == Acquire(p, Done)
    && var s := StateAt(env, start, steps, k); free <==> !(key in s.locks && s.now < s.locks[key].expiry)
  }

  /** At step `k` process `p` inserted the row; the insert throws iff the job is gone. */
  ghost predicate InsertedAt(env: Env, start: int, steps: seq<Step>, k: nat, p: ProcId, jobId: JobId, slot: FireSlot,
                             exec: Option<ExecId>, threw: bool) {
    && k < |steps| && steps[k].Insert? && steps[k].p == p
    && var db, db' := StateAt(env, start, steps, k).core.db, StateAt(env, start, steps, k + 1).core.db;
       && Inserts(db, db', exec, threw, jobId, slot)
       && (threw <==> jobId !in db.jobs) && (threw ==> db' == db)
  }

  /** At step `k` process `p` appended this entry to the queue. */
  ghost predicate AddedAt(env: Env, start: int, steps: seq<Step>, k: nat, p: ProcId, entry: Entry) {
    && k < |steps| && steps[k] == Add(p, Done)
    && StateAt(env, start, steps, k + 1).core.queue == StateAt(env, start, steps, k).core.queue + [entry]
  }

  /** The queue entry for a row of the job's slot. */
  function EntryOf(e: ExecId, job: Job, slot: FireSlot): Entry {
    Entry(e, job.id, slot, JobsOptions(job.config.maxRetries + 1, job.config.backoffMs))
  }

  /** How a slot ended: the lock was held, the slot has a row, the job is gone, or the new row was enqueued. */
  datatype Result = Held | Occupied | Gone | Enqueued(exec: ExecId)

  /** The steps at which a process dealt with a slot, as far as it got, and how that ended. */
  datatype Course = Course(acquired: nat, inserted: nat, added: nat, result: Result)

  /** Without failing calls: a held lock ends it; a free one leads to the insert, which a job that is gone ends in a
      throw and a row that is there in a release; otherwise exactly one row is inserted and its entry appended. */
  ghost predicate Ran(env: Env, start: int, steps: seq<Step>, p: ProcId, job: Job, slot: FireSlot, c: Course) {
    && AcquiredAt(env, start, steps, c.acquired, p, Claim(job.id, slot), !c.result.Held?)
    && (!c.result.Held? ==> c.acquired < c.inserted && Claimed(env, start, steps, p, job, slot, c))
  }

  /** From the insert on. */
  ghost predicate Claimed(env: Env, start: int, steps: seq<Step>, p: ProcId, job: Job, slot: FireSlot, c: Course) {
    match c.result
    case Held => false
    case Gone => InsertedAt(env, start, steps, c.inserted, p, job.id, slot, None, true)
    case Occupied => InsertedAt(env, start, steps, c.inserted, p, job.id, slot, None, false)
    case Enqueued(e) =>
      && InsertedAt(env, start, steps, c.inserted, p, job.id, slot, Some(e), false) && c.inserted < c.added
      && AddedAt(env, start, steps, c.added, p, EntryOf(e, job, slot))
  }

  /** What the trigger handler answers. */
  function Answer(result: Result): nat {
    match result
    case Held => 409
    case Enqueued(_) => 202
    case _ => 500
  }

  /** One round of the scan loop: the slot found at this clock reading, and what became of it. */
  datatype Visit = Visit(clock: int, slot: Option<int>, course: Course)

  ghost predicate Visited(env: Env, start: int, steps: seq<Step>, p: ProcId, job: Job, v: Visit) {
    && CronUtils.IsDue(env, job.config.cronExpression, job.config.timezone, v.clock, v.slot)
    && (v.slot.Some? ==> Ran(env, start, steps, p, job, At(v.slot.value), v.course))
  }

  predicate Enqueues(v: Visit) { v.slot.Some? && v.course.result.Enqueued? }

  predicate Dedupes(v: Visit) { v.slot.Some? && (v.course.result.Held? || v.course.result.Occupied?) }

  predicate FindsGone(v: Visit) { v.slot.Some? && v.course.result.Gone? }

  function Count(visits: seq<Visit>, what: Visit -> bool): nat {
    if visits == [] then 0
    else Count(visits[..|visits| - 1], what) + if what(visits[|visits| - 1]) then 1 else 0
  }

  /** The jobs were visited in order, each once, and none was found to be gone. */
  ghost predicate VisitedAll(env: Env, start: int, steps: seq<Step>, p: ProcId, jobs: seq<Job>, visits: seq<Visit>) {
    && |visits| <= |jobs|
    && forall i :: 0 <= i < |visits| ==> Visited(env, start, steps, p, jobs[i], visits[i]) && !FindsGone(visits[i])
  }

  /** At step `k` process `p` took this snapshot. */
  ghost predicate ScannedAt(env: Env, start: int, steps: seq<Step>, k: nat, p: ProcId, jobs: seq<Job>) {
    k < |steps| && steps[k].Snapshot? && steps[k].p == p && IsSnapshot(StateAt(env, start, steps, k).core.db, jobs)
  }

  /** A job found to be gone: the tick throws there, having visited the jobs before it. */
  ghost predicate BrokenOff(env: Env, start: int, steps: seq<Step>, p: ProcId, jobs: seq<Job>, visits: seq<Visit>) {
    && 0 < |visits| <= |jobs|
    && var n := |visits| - 1;
       && VisitedAll(env, start, steps, p, jobs, visits[..n])
       && Visited(env, start, steps, p, jobs[n], visits[n]) && FindsGone(visits[n])
  }

  // ---------- what happened stays on record ----------

  lemma StateStays(env: Env, start: int, steps: seq<Step>, more: seq<Step>, k: nat)
    requires k <= |steps| && steps <= more
    ensures StateAt(env, start, steps, k) == StateAt(env, start, more, k)
  {
    assert steps[..k] == more[..k];
  }

  lemma AcquiredStays(env: Env, start: int, steps: seq<Step>, more: seq<Step>, k: nat, p: ProcId, key: Claim,
                      free: bool)
    requires steps <= more && AcquiredAt(env, start, steps, k, p, key, free)
    ensures AcquiredAt(env, start, more, k, p, key, free)
  {
    StateStays(env, start, steps, more, k);
  }

  lemma InsertedStays(env: Env, start: int, steps: seq<Step>, more: seq<Step>, k: nat, p: ProcId, jobId: JobId,
                      slot: FireSlot, exec: Option<ExecId>, threw: bool)
    requires steps <= more && InsertedAt(env, start, steps, k, p, jobId, slot, exec, threw)
    ensures InsertedAt(env, start, more, k, p, jobId, slot, exec, threw)
  {
    StateStays(env, start, steps, more, k);
    StateStays(env, start, steps, more, k + 1);
  }

  /** The last step was the insert. */
  lemma LastInserted(env: Env, start: int, before: seq<Step>, at: int, p: ProcId, jobId: JobId, slot: FireSlot,
                     exec: Option<ExecId>, threw: bool)
    requires var db := Run(env, Init(start), before).core.db;
      var db' := Run(env, Init(start), before + [Insert(p, at, Done)]).core.db;
      Inserts(db, db', exec, threw, jobId, slot) && (threw <==> jobId !in db.jobs) && (threw ==> db' == db)
    ensures InsertedAt(env, start, before + [Insert(p, at, Done)], |before|, p, jobId, slot, exec, threw)
  {
    var steps := before + [Insert(p, at, Done)];
    assert steps[..|before|] == before && steps[..|before| + 1] == steps;
  }

  lemma AddedStays(env: Env, start: int, steps: seq<Step>, more: seq<Step>, k: nat, p: ProcId, entry: Entry)
    requires steps <= more && AddedAt(env, start, steps, k, p, entry)
    ensures AddedAt(env, start, more, k, p, entry)
  {
    StateStays(env, start, steps, more, k);
    StateStays(env, start, steps, more, k + 1);
  }

  lemma ClaimedStays(env: Env, start: int, steps: seq<Step>, more: seq<Step>, p: ProcId, job: Job,
                      slot: FireSlot, c: Course)
    requires steps <= more && Claimed(env, start, steps, p, job, slot, c)
    ensures Claimed(env, start, more, p, job, slot, c)
  {
    match c.result
    case Gone => InsertedStays(env, start, steps, more, c.inserted, p, job.id, slot, None, true);
    case Occupied => InsertedStays(env, start, steps, more, c.inserted, p, job.id, slot, None, false);
    case Enqueued(e) =>
      InsertedStays(env, start, steps, more, c.inserted, p, job.id, slot, Some(e), false);
      AddedStays(env, start, steps, more, c.added, p, EntryOf(e, job, slot));
  }

  lemma RanStays(env: Env, start: int, steps: seq<Step>, more: seq<Step>, p: ProcId, job: Job,
                  slot: FireSlot, c: Course)
    requires steps <= more && Ran(env, start, steps, p, job, slot, c)
    ensures Ran(env, start, more, p, job, slot, c)
  {
    AcquiredStays(env, start, steps, more, c.acquired, p, Claim(job.id, slot), !c.result.Held?);
    if !c.result.Held? {
      ClaimedStays(env, start, steps, more, p, job, slot, c);
    }
  }

  lemma VisitedStays(env: Env, start: int, steps: seq<Step>, more: seq<Step>, p: ProcId, job: Job, v: Visit)
    requires steps <= more && Visited(env, start, steps, p, job, v)
    ensures Visited(env, start, more, p, job, v)
  {
    if v.slot.Some? {
      RanStays(env, start, steps, more, p, job, At(v.slot.value), v.course);
    }
  }

  lemma VisitedAllStays(env: Env, start: int, steps: seq<Step>, more: seq<Step>, p: ProcId, jobs: seq<Job>,
                        visits: seq<Visit>)
    requires steps <= more && VisitedAll(env, start, steps, p, jobs, visits)
    ensures VisitedAll(env, start, more, p, jobs, visits)
  {
    forall i | 0 <= i < |visits|
      ensures Visited(env, start, more, p, jobs[i], visits[i])
    {
      VisitedStays(env, start, steps, more, p, jobs[i], visits[i]);
    }
  }

  lemma ScannedStays(env: Env, start: int, steps: seq<Step>, more: seq<Step>, k: nat, p: ProcId, jobs: seq<Job>)
    requires steps <= more && ScannedAt(env, start, steps, k, p, jobs)
    ensures ScannedAt(env, start, more, k, p, jobs)
  {
    StateStays(env, start, steps, more, k);
  }

  // ---------- the scan loop ----------

  /** A tick without failing calls, after some rounds: what it did, and what its counters say. */
  ghost predicate Progress(env: Env, start: int, steps: seq<Step>, scanned: nat, p: ProcId, jobs: seq<Job>,
                           visits: seq<Visit>, enqueued: nat, deduped: nat) {
    && ScannedAt(env, start, steps, scanned, p, jobs) && VisitedAll(env, start, steps, p, jobs, visits)
    && enqueued == Count(visits, Enqueues) && deduped == Count(visits, Dedupes)
  }

  lemma ProgressStays(env: Env, start: int, steps: seq<Step>, more: seq<Step>, scanned: nat, p: ProcId, jobs: seq<Job>,
                      visits: seq<Visit>, enqueued: nat, deduped: nat)
    requires steps <= more && Progress(env, start, steps, scanned, p, jobs, visits, enqueued, deduped)
    ensures Progress(env, start, more, scanned, p, jobs, visits, enqueued, deduped)
  {
    ScannedStays(env, start, steps, more, scanned, p, jobs);
    VisitedAllStays(env, start, steps, more, p, jobs, visits);
  }

  lemma ProgressGrows(env: Env, start: int, steps: seq<Step>, scanned: nat, p: ProcId, jobs: seq<Job>,
                      visits: seq<Visit>, enqueued: nat, deduped: nat, v: Visit)
    requires Progress(env, start, steps, scanned, p, jobs, visits, enqueued, deduped) && |visits| < |jobs|
    requires Visited(env, start, steps, p, jobs[|visits|], v)
    ensures if FindsGone(v) then BrokenOff(env, start, steps, p, jobs, visits + [v])
      else Progress(env, start, steps, scanned, p, jobs, visits + [v],
                    enqueued + (if Enqueues(v) then 1 else 0), deduped + if Dedupes(v) then 1 else 0)
  {
    assert (visits + [v])[..|visits|] == visits;
  }
}
