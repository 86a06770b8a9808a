/**
  The code of src/scheduler.ts and of the trigger handler, statement by statement, running against
  shared stores that everybody else changes at every await. Each method is proved to take steps of
  the Scheduler protocol only, so all its run theorems hold of this code.
 */
module SchedulerProcess {
  import opened Domain
  import opened Database
  import opened Claims
  import opened LockTtl
  import opened Redis
  import opened Scheduler
  import opened SchedulerVisits
  import CronUtils
  import LF = LockFree
  import SL = SchedulerLocks

  /** Steps in which process `p` takes no part. */
  predicate Foreign(step: Step, p: ProcId) {
    step.Advance? || step.SetFlag? || step.Store? || step.p != p
  }

  lemma ForeignKeepsProc(env: Env, s: State, step: Step, p: ProcId)
    requires p in s.procs && Foreign(step, p)
    ensures var s' := Next(env, s, step); p in s'.procs && s'.procs[p] == s.procs[p]
  {
  }

  lemma RunAppend(env: Env, s: State, steps: seq<Step>, step: Step)
    ensures Run(env, s, steps + [step]) == Next(env, Run(env, s, steps), step)
  {
  }

  /** What the insert step does to the stores and to the process. */
  ghost predicate InsertDone(s: State, s': State, p: ProcId, at: int, oc: Outcome)
    requires p in s.procs && s.procs[p].pc.Inserting?
  {
    var r := s.procs[p]; var pc := r.pc;
    var row := Database.Insert(s.core.db, pc.job.id, pc.slot, at); var key := Claim(pc.job.id, pc.slot);
    && s'.now == s.now && s'.locks == s.locks && s'.leaders == s.leaders && s'.core.queue == s.core.queue
    && s'.core.db == (if row.Created? && !oc.FailedBefore? then row.db else s.core.db)
    && p in s'.procs && s'.grants == s.grants
    && s'.procs[p] == if row.Created? && oc.Done? then r.(pc := Adding(pc.job, pc.slot, pc.token, row.exec, pc.rest))
                      else if row.UniqueViolation? && oc.Done?
                      then r.(pc := Releasing(key, pc.token, pc.rest, false), deduped := r.deduped + 1)
                      else r.(pc := Releasing(key, pc.token, pc.rest, true))
  }

  lemma InsertOutcome(env: Env, s: State, p: ProcId, at: int, oc: Outcome)
    requires Enabled(env, s, Insert(p, at, oc))
    ensures InsertDone(s, Next(env, s, Insert(p, at, oc)), p, at, oc)
  {
  }

  lemma TablesValid(env: Env, start: int, steps: seq<Step>)
    ensures Database.Valid(Run(env, Init(start), steps).core.db)
  {
    RunRefines(env, start, steps);
    LF.RunKeepsInv(env, EraseRun(env, Init(start), steps));
  }

  lemma ScanIsSnapshot(db: Db, order: seq<JobId>)
    requires Database.Valid(db) && LF.IsScan(db, order)
    ensures IsSnapshot(db, LF.Rows(db, order))
  {
    var jobs := LF.Rows(db, order);
    forall id | id in db.jobs && db.jobs[id].enabled && !db.jobs[id].config.paused
      ensures db.jobs[id] in jobs
    {
      var i :| 0 <= i < |order| && order[i] == id;
      assert jobs[i] == db.jobs[id];
    }
  }

  /** Token `t` for `key` is in the store unless it has expired. */
  ghost predicate LockKept(s: State, key: Claim, t: Token) {
    t < |s.grants| && s.grants[t].key == key
    && (s.now < s.grants[t].expiry ==> key in s.locks && s.locks[key].value == t)
  }

  /** Token `t` is not in the store, unless expired. */
  ghost predicate LockGone(s: State, key: Claim, t: Token) { !(Live(s.locks, s.now, key) && s.locks[key].value == t) }

  /** The trigger `p` of the job had one enqueue acknowledged, and keeps the lock of it. */
  ghost predicate Accepted(s: State, p: ProcId, id: JobId) {
    p in s.procs && |s.procs[p].enqueued| == 1
    && var t := s.procs[p].enqueued[0]; t in s.accepted && LockKept(s, Claim(id, Manual), t)
  }

  /** What a run has granted, accepted and released stays on record. */
  ghost predicate HistoryGrows(s: State, s': State) {
    s.grants <= s'.grants && s.accepted <= s'.accepted && s.released <= s'.released
  }

  lemma StepGrowsHistory(env: Env, s: State, step: Step)
    ensures HistoryGrows(s, Next(env, s, step))
  {
  }

  /** A process about to insert carries a token granted for its slot. */
  lemma OwnToken(env: Env, start: int, steps: seq<Step>, p: ProcId)
    requires var s := Run(env, Init(start), steps); p in s.procs && s.procs[p].pc.Inserting?
    ensures var s := Run(env, Init(start), steps); var pc := s.procs[p].pc;
      pc.token < |s.grants| && s.grants[pc.token].key == Claim(pc.job.id, pc.slot)
  {
    SL.RunKeepsInv(env, start, steps);
  }

  lemma AcceptedKept(env: Env, start: int, steps: seq<Step>, key: Claim, t: Token)
    requires var s := Run(env, Init(start), steps); t in s.accepted && t < |s.grants| && s.grants[t].key == key
    ensures LockKept(Run(env, Init(start), steps), key, t)
  {
    SL.RunKeepsInv(env, start, steps);
  }

  lemma ReleasedGone(env: Env, start: int, steps: seq<Step>, key: Claim, t: Token)
    requires t in Run(env, Init(start), steps).released
    ensures LockGone(Run(env, Init(start), steps), key, t)
  {
    SL.RunKeepsInv(env, start, steps);
  }

  class World {
    const env: Env
    const start: int
    var now: int
    var db: Db
    var queue: seq<Entry>
    var locks: map<Claim, Slot<Token>>
    var leaders: set<nat>
    var st: State               // the protocol state the stores above are part of
    ghost var steps: seq<Step>  // how it was reached

    ghost predicate Valid()
      reads this
    {
      && st == Run(env, Init(start), steps)
      && now == st.now && db == st.core.db && queue == st.core.queue
      && locks == st.locks && leaders == st.leaders
    }

    constructor (env: Env, start: int)
      ensures Valid() && this.env == env && this.start == start && steps == []
    {
      this.env, this.start := env, start;
      now, db, queue, locks, leaders := start, Database.EMPTY, [], map[], {};
      st, steps := Init(start), [];
    }

    /** Process `p` awaits: the others take any number of steps of any kind. */
    method Await(p: ProcId)
      requires Valid() && p in st.procs
      modifies this
      ensures Valid() && old(steps) <= steps && HistoryGrows(old(st), st)
      ensures p in st.procs && st.procs[p] == old(st.procs[p])
    {
      var n: nat := *;
      while n > 0
        invariant Valid() && old(steps) <= steps && HistoryGrows(old(st), st)
        invariant p in st.procs && st.procs[p] == old(st.procs[p])
      {
        var step: Step := *;
        if Foreign(step, p) {
          ForeignKeepsProc(env, st, step, p);
          StepGrowsHistory(env, st, step);
          RunAppend(env, Init(start), steps, step);
          st, steps := Next(env, st, step), steps + [step];
          now, db, queue, locks, leaders := st.now, st.core.db, st.core.queue, st.locks, st.leaders;
        }
        n := n - 1;
      }
    }

    /** Records that the stores changed by one protocol step. */
    method Commit(step: Step)
      requires st == Run(env, Init(start), steps)
      modifies `st, `steps
      ensures steps == old(steps) + [step]
      ensures st == Next(env, old(st), step) && st == Run(env, Init(start), steps)
    {
      RunAppend(env, Init(start), steps, step);
      st, steps := Next(env, st, step), steps + [step];
    }

    /** How a call of this process ends; in calm runs none fails. */
    method Try(calm: bool) returns (oc: Outcome)
      ensures calm ==> oc == Done
    {
      oc := *;
      if calm { oc := Done; }
    }

    /** The rows that match, in some order. */
    method ListRunnable() returns (order: seq<JobId>, jobs: seq<Job>)
      ensures LF.IsScan(db, order) && jobs == LF.Rows(db, order)
    {
      order, jobs := [], [];
      var left := set id | id in db.jobs && db.jobs[id].enabled && !db.jobs[id].config.paused;
      ghost var all := left;
      while left != {}
        invariant left <= all && (forall id :: id in all <==> id in order || id in left)
        invariant (forall id :: id in order ==> id !in left) && Distinct(order)
        invariant |jobs| == |order|
        invariant forall i :: 0 <= i < |order| ==> order[i] in db.jobs && jobs[i] == db.jobs[order[i]]
        decreases left
      {
        var id :| id in left;
        order, jobs, left := order + [id], jobs + [db.jobs[id]], left - {id};
      }
    }

    method FindMany(p: ProcId, calm: bool) returns (jobs: seq<Job>, threw: bool)
      requires Valid() && p in st.procs && st.procs[p].pc == Scanning
      modifies this
      ensures Valid() && old(steps) <= steps && p in st.procs && (calm ==> !threw)
      ensures st.procs[p] == old(st.procs[p]).(pc := if threw then Finished(true) else Head(jobs))
      ensures !threw ==> IsSnapshot(db, jobs) && ScannedAt(env, start, steps, |old(steps)|, p, jobs)
    {
      var oc := Try(calm);
      threw, jobs := oc != Done, [];
      if threw {
        Commit(Abort(p));
        return;
      }
      var order;
      order, jobs := ListRunnable();
      TablesValid(env, start, steps);
      ScanIsSnapshot(db, order);
      Commit(Snapshot(p, order));
      assert steps[..|old(steps)|] == old(steps);
    }

    /** SET NX EX with a fresh token. Thrown errors leave the tick or handler at once. */
    method AcquireJobLock(p: ProcId, jobId: JobId, slot: FireSlot, ttlSeconds: nat, calm: bool)
      returns (lock: Option<Token>, threw: bool)
      requires Valid() && p in st.procs && st.procs[p].pc.Locking?
      requires jobId == st.procs[p].pc.job.id && slot == st.procs[p].pc.slot
      requires ttlSeconds == TtlSeconds(env, st.procs[p].pc.job.config)
      modifies this
      ensures Valid() && old(steps) <= steps && p in st.procs && (threw ==> lock.None?)
      ensures now == old(now) && db == old(db) && queue == old(queue)
      ensures !threw ==> (lock.Some? <==> !Live(old(locks), now, Claim(jobId, slot)))
      ensures !threw && lock.None? ==> locks == old(locks)
      ensures lock.Some? ==> locks == old(locks)[Claim(jobId, slot) := Slot(lock.value, now + ttlSeconds * 1000)]
      ensures lock.Some? ==> lock.value == |old(st.grants)|
      ensures calm ==> !threw && AcquiredAt(env, start, steps, |old(steps)|, p, Claim(jobId, slot), lock.Some?)
      ensures var r := old(st.procs[p]); var pc := r.pc;
        st.procs[p] == if threw then r.(pc := Finished(true))
                       else if lock.Some? then r.(pc := Inserting(pc.job, slot, lock.value, pc.rest))
                       else r.(pc := Head(pc.rest), deduped := r.deduped + 1)
    {
      var oc := Try(calm);
      threw, lock := oc != Done, None;
      var ttl := if ttlSeconds < 1 then 1 else ttlSeconds;
      var key, token := Claim(jobId, slot), |st.grants|;
      var held := key in locks && now < locks[key].expiry;
      if oc != FailedBefore && !held {
        locks := locks[key := Slot(token, now + ttl * 1000)];
        lock := if threw then None else Some(token);
      }
      Commit(Acquire(p, oc));
      assert steps[..|old(steps)|] == old(steps);
    }

    /** prisma.execution.create, with the checks the table makes. */
    method InsertRow(jobId: JobId, slot: FireSlot, at: int) returns (r: Inserted)
      requires Database.Valid(db)
      modifies `db
      ensures r == Database.Insert(old(db), jobId, slot, at) && db == if r.Created? then r.db else old(db)
      ensures r.Created? ==> RowAdded(old(db), db, r.exec, jobId, slot)
    {
      if jobId !in db.jobs { return ForeignKeyViolation; }
      if slot.At?
         && exists e :: e in db.execs && db.execs[e].jobId == jobId && db.execs[e].scheduledFor == Some(slot.ms) {
        return UniqueViolation;
      }
      var e := db.nextExec;
      db := db.(execs := db.execs[e := PendingRow(jobId, slot, at)], nextExec := e + 1);
      r := Created(e, db);
    }

    method CommitInsert(p: ProcId, at: int, oc: Outcome)
      requires st == Run(env, Init(start), steps) && p in st.procs && st.procs[p].pc.Inserting?
      modifies `st, `steps
      ensures steps == old(steps) + [Insert(p, at, oc)] && st == Run(env, Init(start), steps)
      ensures InsertDone(old(st), st, p, at, oc)
    {
      InsertOutcome(env, st, p, at, oc);
      Commit(Insert(p, at, oc));
    }

    /** The insert as its caller sees it: a unique violation is None, other violations and failures throw. */
    method TryInsert(jobId: JobId, slot: FireSlot, at: int, oc: Outcome) returns (exec: Option<ExecId>, threw: bool)
      requires Database.Valid(db)
      modifies `db
      ensures Inserts(old(db), db, exec, threw, jobId, slot)
      ensures var r := Database.Insert(old(db), jobId, slot, at);
        && db == (if r.Created? && oc != FailedBefore then r.db else old(db))
        && exec == (if r.Created? && oc == Done then Some(r.exec) else None)
        && threw == (oc != Done || r.ForeignKeyViolation?)
    {
      exec, threw := None, oc != Done;
      if oc != FailedBefore {
        var r := InsertRow(jobId, slot, at);
        threw := threw || r == ForeignKeyViolation;
        exec := if r.Created? && !threw then Some(r.exec) else None;
      }
    }

    /** createScheduledExecution or createExecution: None is a slot already claimed. */
    method CreateExecution(p: ProcId, jobId: JobId, slot: FireSlot, calm: bool)
      returns (exec: Option<ExecId>, threw: bool)
      requires Valid() && p in st.procs && st.procs[p].pc.Inserting?
      requires jobId == st.procs[p].pc.job.id && slot == st.procs[p].pc.slot
      modifies this
      ensures Valid() && old(steps) <= steps && p in st.procs && (threw ==> exec.None?)
      ensures now == old(now) && queue == old(queue) && locks == old(locks) && st.grants == old(st.grants)
      ensures Inserts(old(db), db, exec, threw, jobId, slot)
      ensures calm ==> InsertedAt(env, start, steps, |old(steps)|, p, jobId, slot, exec, threw)
      ensures var r := old(st.procs[p]); var pc := r.pc;
        st.procs[p] == if exec.Some? then r.(pc := Adding(pc.job, slot, pc.token, exec.value, pc.rest))
                       else if threw then r.(pc := Releasing(Claim(jobId, slot), pc.token, pc.rest, true))
                       else r.(pc := Releasing(Claim(jobId, slot), pc.token, pc.rest, false), deduped := r.deduped + 1)
    {
      var oc := Try(calm);
      var at: int := *;
      TablesValid(env, start, steps);
      exec, threw := TryInsert(jobId, slot, at, oc);
      CommitInsert(p, at, oc);
      if calm {
        LastInserted(env, start, old(steps), at, p, jobId, slot, exec, threw);
      }
    }

    method QueueAdd(p: ProcId, entry: Entry, calm: bool) returns (threw: bool)
      requires Valid() && p in st.procs && st.procs[p].pc.Adding?
      requires var pc := st.procs[p].pc;
        entry == Entry(pc.exec, pc.job.id, pc.slot, ExecutionJobOptions(pc.job.config))
      modifies this
      ensures Valid() && old(steps) <= steps && p in st.procs
      ensures now == old(now) && db == old(db) && locks == old(locks) && st.grants == old(st.grants)
      ensures queue == old(queue) + [entry] || (threw && queue == old(queue))
      ensures !threw ==> old(st.procs[p].pc.token) in st.accepted
      ensures calm ==> !threw && AddedAt(env, start, steps, |old(steps)|, p, entry)
      ensures var r := old(st.procs[p]); var pc := r.pc;
        st.procs[p] == if threw then r.(pc := Releasing(Claim(pc.job.id, pc.slot), pc.token, pc.rest, true))
                       else r.(pc := Head(pc.rest), enqueued := r.enqueued + [pc.token])
    {
      var oc := Try(calm);
      threw := oc != Done;
      if oc != FailedBefore {
        queue := queue + [entry];
      }
      Commit(Add(p, oc));
      assert steps[..|old(steps)|] == old(steps) && steps[..|old(steps)| + 1] == steps;
    }

    /** The compare-and-delete script. */
    method ReleaseJobLock(p: ProcId, jobId: JobId, slot: FireSlot, token: Token, calm: bool) returns (threw: bool)
      requires Valid() && p in st.procs && st.procs[p].pc.Releasing?
      requires Claim(jobId, slot) == st.procs[p].pc.key && token == st.procs[p].pc.token
      modifies this
      ensures Valid() && old(steps) <= steps && p in st.procs
      ensures now == old(now) && db == old(db) && queue == old(queue)
      ensures locks == DeleteIfEqual(old(locks), now, Claim(jobId, slot), token) || (threw && locks == old(locks))
      ensures (!threw ==> token in st.released) && (calm ==> !threw)
      ensures var r := old(st.procs[p]); var pc := r.pc;
        st.procs[p] == r.(pc := if pc.rethrow then Finished(true)
                                else if threw then pc.(rethrow := true) else Head(pc.rest))
    {
      var oc := Try(calm);
      threw := oc != Done;
      var key := Claim(jobId, slot);
      if oc != FailedBefore && key in locks && now < locks[key].expiry && locks[key].value == token {
        locks := locks - {key};
      }
      Commit(Release(p, oc));
    }

    /** The rest of the try block once the insert has returned or thrown, with its release paths. */
    method Settle(p: ProcId, job: Job, slot: FireSlot, lock: Token, exec: Option<ExecId>, failed: bool, calm: bool)
      returns (threw: bool, ghost added: nat)
      requires Valid() && p in st.procs && (exec.Some? ==> !failed)
      requires var pc := st.procs[p].pc;
        if exec.Some? then pc.Adding? && pc.job == job && pc.slot == slot && pc.token == lock && pc.exec == exec.value
        else pc.Releasing? && pc.key == Claim(job.id, slot) && pc.token == lock && pc.rethrow == failed
      requires lock < |st.grants| && st.grants[lock].key == Claim(job.id, slot)
      modifies this
      ensures Valid() && old(steps) <= steps && p in st.procs && (failed ==> threw)
      ensures var r := old(st.procs[p]);
        if threw then st.procs[p].pc == Finished(true) && st.procs[p].enqueued == r.enqueued
        else if exec.Some? then st.procs[p] == r.(pc := Head(r.pc.rest), enqueued := r.enqueued + [lock])
        else st.procs[p] == r.(pc := Head(r.pc.rest))
      ensures !threw ==>
        if exec.Some? then LockKept(st, Claim(job.id, slot), lock) else LockGone(st, Claim(job.id, slot), lock)
      ensures calm ==> threw == failed
      ensures calm && exec.Some? ==>
        |old(steps)| <= added && AddedAt(env, start, steps, added, p, EntryOf(exec.value, job, slot))
    {
      threw, added := failed, |steps|;
      if exec.Some? {
        threw := QueueAdd(p, Entry(exec.value, job.id, slot, ExecutionJobOptions(job.config)), calm);
        ghost var before := steps;
        Await(p);
        if calm {
          AddedStays(env, start, before, steps, added, p, EntryOf(exec.value, job, slot));
        }
      } else if !threw {
        threw := ReleaseJobLock(p, job.id, slot, lock, calm);
        Await(p);
      }
      if threw {
        var _ := ReleaseJobLock(p, job.id, slot, lock, calm);
      } else if exec.Some? {
        AcceptedKept(env, start, steps, Claim(job.id, slot), lock);
      } else {
        ReleasedGone(env, start, steps, Claim(job.id, slot), lock);
      }
    }

    /** The body of the try block for one slot. */
    method ClaimSlot(p: ProcId, job: Job, slot: FireSlot, lock: Token, calm: bool)
      returns (exec: Option<ExecId>, added: bool, threw: bool, ghost course: Course)
      requires Valid() && p in st.procs && st.procs[p].pc.Inserting?
      requires job == st.procs[p].pc.job && slot == st.procs[p].pc.slot && lock == st.procs[p].pc.token
      modifies this
      ensures Valid() && old(steps) <= steps && p in st.procs
      ensures !threw ==> added == exec.Some? && (slot == Manual ==> added)
      ensures var r := old(st.procs[p]);
        if threw then st.procs[p].pc == Finished(true) && st.procs[p].enqueued == r.enqueued
        else if added then st.procs[p] == r.(pc := Head(r.pc.rest), enqueued := r.enqueued + [lock])
        else st.procs[p] == r.(pc := Head(r.pc.rest), deduped := r.deduped + 1)
      ensures !threw && added ==> LockKept(st, Claim(job.id, slot), lock)
      ensures !threw && !added ==> LockGone(st, Claim(job.id, slot), lock)
      ensures calm ==> |old(steps)| <= course.inserted && Claimed(env, start, steps, p, job, slot, course)
      ensures calm ==> course.result == if threw then Gone else if added then Enqueued(exec.value) else Occupied
    {
      OwnToken(env, start, steps, p);
      ghost var at := |steps|;
      var failed;
      exec, failed := CreateExecution(p, job.id, slot, calm);
      ghost var inserted := steps;
      Await(p);
      ghost var addedAt;
      threw, addedAt := Settle(p, job, slot, lock, exec, failed, calm);
      added := exec.Some? && !threw;
      course := Course(0, at, addedAt, if threw then Gone else if added then Enqueued(exec.value) else Occupied);
      if calm {
        InsertedStays(env, start, inserted, steps, at, p, job.id, slot, exec, failed);
      }
    }

    /** A slot from its lock on: acquire, claim, release. */
    method WithLock(p: ProcId, job: Job, slot: FireSlot, calm: bool)
      returns (lock: Option<Token>, added: bool, threw: bool, ghost course: Course)
      requires Valid() && p in st.procs && st.procs[p].pc.Locking?
      requires job == st.procs[p].pc.job && slot == st.procs[p].pc.slot
      modifies this
      ensures Valid() && old(steps) <= steps && p in st.procs && (added ==> lock.Some?)
      ensures !threw && lock.Some? && slot == Manual ==> added
      ensures var r := old(st.procs[p]);
        if threw then st.procs[p].pc == Finished(true) && st.procs[p].enqueued == r.enqueued
        else if added then st.procs[p] == r.(pc := Head(r.pc.rest), enqueued := r.enqueued + [lock.value])
        else st.procs[p] == r.(pc := Head(r.pc.rest), deduped := r.deduped + 1)
      ensures !threw && added ==> LockKept(st, Claim(job.id, slot), lock.value)
      ensures calm ==> Ran(env, start, steps, p, job, slot, course)
      ensures calm ==> (threw <==> course.result.Gone?) && (!threw && added <==> course.result.Enqueued?)
                       && (lock.None? <==> course.result.Held?)
    {
      added := false;
      var ttl := ComputeJobLockTtlSeconds(env, job.config);
      Await(p);
      course := Course(|steps|, 0, 0, Held);
      lock, threw := AcquireJobLock(p, job.id, slot, ttl, calm);
      if lock.Some? {
        ghost var acquired := steps;
        Await(p);
        var exec;
        ghost var c;
        exec, added, threw, c := ClaimSlot(p, job, slot, lock.value, calm);
        if calm {
          AcquiredStays(env, start, acquired, steps, course.acquired, p, Claim(job.id, slot), true);
        }
        course := c.(acquired := course.acquired);
      }
    }

    method BeginTick(p: ProcId, instance: nat)
      requires Valid() && p !in st.procs && (env.leaderElection ==> instance in leaders)
      modifies this
      ensures Valid() && steps == old(steps) + [Begin(p, instance)]
      ensures p in st.procs && st.procs[p] == Proc(Scanning, 0, 0, [])
    {
      Commit(Begin(p, instance));
    }

    /** dueFireSlot for the next job of the snapshot, on this node's own clock. */
    method NextDueSlot(p: ProcId, job: Job) returns (slot: Option<int>, clock: int)
      requires Valid() && p in st.procs && st.procs[p].pc.Head?
      requires st.procs[p].pc.rest != [] && st.procs[p].pc.rest[0] == job
      modifies this
      ensures Valid() && old(steps) <= steps && p in st.procs
      ensures CronUtils.IsDue(env, job.config.cronExpression, job.config.timezone, clock, slot)
      ensures var r := old(st.procs[p]); var rest := r.pc.rest[1..];
        st.procs[p] == if slot.None? then r.(pc := Head(rest))
                       else r.(pc := Locking(job, At(slot.value), rest), due := r.due + 1)
    {
      clock := *;
      slot := CronUtils.DueFireSlot(env, job.config.cronExpression, job.config.timezone, clock);
      Commit(Evaluate(p, clock));
    }

    /** A tick or handler that comes to its end has accounted for everything it did. */
    method Return(p: ProcId)
      requires Valid() && p in st.procs && st.procs[p].pc == Head([])
      modifies this
      ensures Valid() && old(steps) <= steps && p in st.procs
      ensures st.procs[p] == old(st.procs[p]).(pc := Finished(false)) && st.grants == old(st.grants)
      ensures SL.Accounted(st, p) && forall t :: t in st.procs[p].enqueued ==> t in st.accepted
    {
      Commit(Finish(p));
      SL.RunKeepsInv(env, start, steps);
      SL.InvGivesAccounted(st, p);
    }

    /** One round of the scan loop. */
    method VisitJob(p: ProcId, job: Job, calm: bool)
      returns (threw: bool, due: nat, enqueued: nat, deduped: nat, ghost visit: Visit)
      requires Valid() && p in st.procs && st.procs[p].pc.Head?
      requires st.procs[p].pc.rest != [] && st.procs[p].pc.rest[0] == job
      modifies this
      ensures Valid() && old(steps) <= steps && p in st.procs
      ensures threw ==> st.procs[p].pc == Finished(true)
      ensures !threw ==> var r, r' := old(st.procs[p]), st.procs[p];
        && r'.pc == Head(r.pc.rest[1..]) && due == enqueued + deduped
        && r'.due == r.due + due && |r'.enqueued| == |r.enqueued| + enqueued && r'.deduped == r.deduped + deduped
      ensures calm ==> Visited(env, start, steps, p, job, visit) && (threw <==> FindsGone(visit))
      ensures calm && !threw ==>
        enqueued == (if Enqueues(visit) then 1 else 0) && deduped == if Dedupes(visit) then 1 else 0
    {
      threw, due, enqueued, deduped := false, 0, 0, 0;
      var slot, clock := NextDueSlot(p, job);
      visit := Visit(clock, slot, Course(0, 0, 0, Held));
      if slot.Some? {
        var lock, added;
        ghost var course;
        lock, added, threw, course := WithLock(p, job, At(slot.value), calm);
        visit := Visit(clock, slot, course);
        due, enqueued, deduped := 1, if added then 1 else 0, if added then 0 else 1;
      }
    }

    /** One round for the next job of the snapshot, and the await after it. */
    method VisitNext(p: ProcId, job: Job, calm: bool, ghost scanned: nat, ghost jobs: seq<Job>,
                     ghost visits: seq<Visit>, ghost enq: nat, ghost ded: nat)
      returns (threw: bool, due: nat, enqueued: nat, deduped: nat, ghost visit: Visit)
      requires Valid() && p in st.procs && |visits| < |jobs| && st.procs[p].pc == Head(jobs[|visits|..])
      requires job == jobs[|visits|]
      requires calm ==> Progress(env, start, steps, scanned, p, jobs, visits, enq, ded)
      modifies this
      ensures Valid() && old(steps) <= steps && p in st.procs
      ensures threw ==> st.procs[p].pc == Finished(true)
      ensures !threw ==> var r, r' := old(st.procs[p]), st.procs[p];
        && r'.pc == Head(jobs[|visits| + 1..]) && due == enqueued + deduped
        && r'.due == r.due + due && |r'.enqueued| == |r.enqueued| + enqueued && r'.deduped == r.deduped + deduped
      ensures calm && threw ==> BrokenOff(env, start, steps, p, jobs, visits + [visit])
      ensures calm && threw ==> ScannedAt(env, start, steps, scanned, p, jobs)
      ensures calm && !threw ==>
        Progress(env, start, steps, scanned, p, jobs, visits + [visit], enq + enqueued, ded + deduped)
    {
      ghost var before := steps;
      assert jobs[|visits|..][1..] == jobs[|visits| + 1..];
      threw, due, enqueued, deduped, visit := VisitJob(p, job, calm);
      if calm {
        ProgressStays(env, start, before, steps, scanned, p, jobs, visits, enq, ded);
        ProgressGrows(env, start, steps, scanned, p, jobs, visits, enq, ded, visit);
      }
      if !threw {
        before := steps;
        Await(p);
        if calm {
          ProgressStays(env, start, before, steps, scanned, p, jobs, visits + [visit], enq + enqueued, ded + deduped);
        }
      }
    }

    /** The scan loop. */
    method VisitAll(p: ProcId, jobs: seq<Job>, calm: bool, ghost scanned: nat)
      returns (threw: bool, due: nat, enqueued: nat, deduped: nat, ghost visits: seq<Visit>)
      requires Valid() && p in st.procs && st.procs[p] == Proc(Head(jobs), 0, 0, [])
      requires calm ==> ScannedAt(env, start, steps, scanned, p, jobs)
      modifies this
      ensures Valid() && old(steps) <= steps && p in st.procs
      ensures threw ==> st.procs[p].pc == Finished(true)
      ensures !threw ==> st.procs[p].pc == Head([]) && due == enqueued + deduped
      ensures !threw ==> due == st.procs[p].due && enqueued == |st.procs[p].enqueued| && deduped == st.procs[p].deduped
      ensures calm ==> ScannedAt(env, start, steps, scanned, p, jobs)
      ensures calm && threw ==> BrokenOff(env, start, steps, p, jobs, visits)
      ensures calm && !threw ==>
        |visits| == |jobs| && Progress(env, start, steps, scanned, p, jobs, visits, enqueued, deduped)
    {
      threw, due, enqueued, deduped, visits := false, 0, 0, 0, [];
      var i := 0;
      while i < |jobs|
        invariant 0 <= i == |visits| <= |jobs| && Valid() && old(steps) <= steps && !threw
        invariant p in st.procs && st.procs[p].pc == Head(jobs[i..]) && due == enqueued + deduped
        invariant due == st.procs[p].due && enqueued == |st.procs[p].enqueued| && deduped == st.procs[p].deduped
        invariant calm ==> Progress(env, start, steps, scanned, p, jobs, visits, enqueued, deduped)
      {
        var d, e, n;
        ghost var visit;
        threw, d, e, n, visit := VisitNext(p, jobs[i], calm, scanned, jobs, visits, enqueued, deduped);
        visits := visits + [visit];
        if threw { return; }
        i, due, enqueued, deduped := i + 1, due + d, enqueued + e, deduped + n;
      }
    }

    method Scan(p: ProcId, instance: nat, calm: bool) returns (jobs: seq<Job>, threw: bool, ghost scanned: nat)
      requires Valid() && p !in st.procs && (env.leaderElection ==> instance in leaders)
      modifies this
      ensures Valid() && old(steps) + [Begin(p, instance)] <= steps && p in st.procs && (calm ==> !threw)
      ensures if threw then st.procs[p].pc == Finished(true) else st.procs[p] == Proc(Head(jobs), 0, 0, [])
      ensures !threw ==> ScannedAt(env, start, steps, scanned, p, jobs)
    {
      BeginTick(p, instance);
      Await(p);
      scanned := |steps|;
      jobs, threw := FindMany(p, calm);
    }

    /**
      One scan. The counters are the tick's contributions to slotsEnqueuedTotal and slotsDedupedTotal. Without
      failing calls it visits every job of its snapshot, and throws only if it finds one gone.
     */
    method Tick(p: ProcId, instance: nat, calm: bool)
      returns (threw: bool, due: nat, enqueued: nat, deduped: nat,
               ghost scanned: nat, ghost jobs: seq<Job>, ghost visits: seq<Visit>)
      requires Valid() && p !in st.procs && (env.leaderElection ==> instance in leaders)
      modifies this
      ensures Valid() && old(steps) + [Begin(p, instance)] <= steps
      ensures p in st.procs && st.procs[p].pc == Finished(threw)
      ensures !threw ==> due == enqueued + deduped && SL.Accounted(st, p)
      ensures !threw ==> due == st.procs[p].due && enqueued == |st.procs[p].enqueued| && deduped == st.procs[p].deduped
      ensures calm ==> ScannedAt(env, start, steps, scanned, p, jobs)
      ensures calm && !threw ==>
        |visits| == |jobs| && Progress(env, start, steps, scanned, p, jobs, visits, enqueued, deduped)
      ensures calm && threw ==> BrokenOff(env, start, steps, p, jobs, visits)
    {
      due, enqueued, deduped, visits := 0, 0, 0, [];
      var snapshot;
      snapshot, threw, scanned := Scan(p, instance, calm);
      jobs := snapshot;
      if threw { return; }
      threw, due, enqueued, deduped, visits := VisitAll(p, snapshot, calm, scanned);
      if threw { return; }
      ghost var before := steps;
      Return(p);
      if calm {
        ProgressStays(env, start, before, steps, scanned, p, jobs, visits, enqueued, deduped);
      }
    }

    /** `run`: with leader election on, only a scheduler whose flag is true scans. */
    method RunOnce(p: ProcId, instance: nat, calm: bool) returns (scanned: bool)
      requires Valid() && p !in st.procs
      modifies this
      ensures Valid() && old(steps) <= steps
      ensures scanned == (env.leaderElection ==> instance in old(leaders))
      ensures scanned ==> old(steps) + [Begin(p, instance)] <= steps && p in st.procs && st.procs[p].pc.Finished?
      ensures !scanned ==> steps == old(steps)
    {
      scanned := !env.leaderElection || instance in leaders;
      if scanned {
        var threw, due, enqueued, deduped, _, _, _ := Tick(p, instance, calm);
      }
    }

    /** getJobById and the checks on the job: 202 means the handler goes on. A failing read is no protocol step. */
    method ReadJob(p: ProcId, id: JobId, calm: bool) returns (status: nat, job: Option<Job>)
      requires Valid() && p !in st.procs
      modifies this
      ensures Valid() && old(steps) <= steps
      ensures status == 500 ==> !calm && job == None && steps == old(steps) && p !in st.procs
      ensures status != 500 ==> p in st.procs
      ensures status != 500 ==>
        status == if id !in old(db.jobs) then 404 else if !old(db.jobs)[id].enabled then 409 else 202
      ensures status == 202 ==>
        job == Some(old(db.jobs)[id]) && st.procs[p] == Proc(Locking(job.value, Manual, []), 1, 0, [])
      ensures status == 404 || status == 409 ==> job == None && st.procs[p] == Proc(Finished(false), 0, 0, [])
    {
      var oc := Try(calm);
      if oc != Done { return 500, None; }
      status := if id !in db.jobs then 404 else if !db.jobs[id].enabled then 409 else 202;
      job := if status == 202 then Some(db.jobs[id]) else None;
      Commit(Trigger(p, id));
    }

    /** The handler once it has read an enabled job. */
    method TriggerEnabled(p: ProcId, job: Job, calm: bool) returns (status: nat, ghost course: Course)
      requires Valid() && p in st.procs && st.procs[p] == Proc(Locking(job, Manual, []), 1, 0, [])
      modifies this
      ensures Valid() && old(steps) <= steps && p in st.procs && st.procs[p].pc == Finished(status == 500)
      ensures status == 202 || status == 409 || status == 500
      ensures if status == 202 then Accepted(st, p, job.id) else st.procs[p].enqueued == []
      ensures calm ==> Ran(env, start, steps, p, job, Manual, course) && status == Answer(course.result)
    {
      var lock, added, threw;
      lock, added, threw, course := WithLock(p, job, Manual, calm);
      if threw { return 500, course; }
      ghost var done := steps;
      Return(p);
      if added {
        AcceptedKept(env, start, steps, Claim(job.id, Manual), lock.value);
      }
      if calm {
        RanStays(env, start, done, steps, p, job, Manual, course);
      }
      status := if added then 202 else 409;
    }

    /** POST /:id/trigger; `status` is the HTTP status, 500 standing for next(e). */
    method TriggerJob(p: ProcId, id: JobId, calm: bool) returns (status: nat, ghost course: Course)
      requires Valid() && p !in st.procs
      modifies this
      ensures Valid() && old(steps) <= steps
      ensures status == 202 || status == 404 || status == 409 || status == 500
      ensures status == 404 ==> id !in old(db.jobs)
      ensures id !in old(db.jobs) ==> status == 404 || status == 500
      ensures id in old(db.jobs) && !old(db.jobs)[id].enabled ==> status == 409 || status == 500
      ensures p !in st.procs ==> status == 500 && steps == old(steps)
      ensures p in st.procs ==> st.procs[p].pc == Finished(status == 500)
      ensures p in st.procs && status != 202 ==> st.procs[p].enqueued == []
      ensures status == 202 ==> Accepted(st, p, id)
      ensures calm && (id !in old(db.jobs) || !old(db.jobs)[id].enabled) ==> status != 500
      ensures calm && id in old(db.jobs) && old(db.jobs)[id].enabled ==>
        Ran(env, start, steps, p, old(db.jobs)[id], Manual, course) && status == Answer(course.result)
    {
      TablesValid(env, start, steps);
      course := Course(0, 0, 0, Held);
      var job;
      status, job := ReadJob(p, id, calm);
      if job.Some? {
        status, course := TriggerEnabled(p, job.value, calm);
      }
    }
  }
}
