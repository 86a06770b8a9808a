/**
  The two Postgres tables. Each operation is one committed statement; the schema's constraints
  are the guards and the error results of these operations.
 */
module Database {
  import opened Domain

  /** `usedIds` and `nextExec` record which ids were ever handed out: ids are never reused. */
  datatype Db = Db(
    jobs: map<JobId, Job>,
    usedIds: set<JobId>,
    execs: map<ExecId, Execution>,
    nextExec: ExecId)

  const EMPTY := Db(map[], {}, map[], 0)

  /** UNIQUE(jobId, scheduledFor); NULLs are distinct. */
  ghost predicate UniqueSlots(execs: map<ExecId, Execution>) {
    forall d, e ::
      d in execs && e in execs && d != e && execs[d].scheduledFor.Some? && execs[d].jobId == execs[e].jobId
      ==> execs[d].scheduledFor != execs[e].scheduledFor
  }

  /** What the schema enforces, plus the bookkeeping of ids. */
  ghost predicate Valid(db: Db) {
    && db.jobs.Keys <= db.usedIds
    && (forall id :: id in db.jobs ==> db.jobs[id].id == id)
    && (forall e :: e in db.execs ==> e < db.nextExec && db.execs[e].jobId in db.jobs)
    && UniqueSlots(db.execs)
  }

  /** A committed write other than an insert into the execution table. */
  datatype Op =
    | CreateJob(job: Job)
    | UpdateJob(job: Job)
    | DeleteJob(id: JobId)
    | UpdateExecution(exec: ExecId, row: Execution)

  /** Ids are fresh on creation; an update finds its row and leaves the row's identity alone. */
  predicate Allowed(db: Db, op: Op) {
    match op
    case CreateJob(job) => job.id !in db.usedIds
    case UpdateJob(job) => job.id in db.jobs
    case DeleteJob(id) => id in db.jobs
    case UpdateExecution(e, row) =>
      e in db.execs && row.jobId == db.execs[e].jobId && row.scheduledFor == db.execs[e].scheduledFor
  }

  function Write(db: Db, op: Op): Db
    requires Allowed(db, op)
  {
    match op
    case CreateJob(job) => db.(jobs := db.jobs[job.id := job], usedIds := db.usedIds + {job.id})
    case UpdateJob(job) => db.(jobs := db.jobs[job.id := job])
    case DeleteJob(id) => db.(jobs := db.jobs - {id}, execs := Cascade(db.execs, id))
    case UpdateExecution(e, row) => db.(execs := db.execs[e := row])
  }

  /** ON DELETE CASCADE */
  function Cascade(execs: map<ExecId, Execution>, id: JobId): map<ExecId, Execution> {
    map e | e in execs && execs[e].jobId != id :: execs[e]
  }

  datatype Inserted = Created(exec: ExecId, db: Db) | UniqueViolation | ForeignKeyViolation

  predicate SlotTaken(db: Db, jobId: JobId, scheduledFor: Option<int>) {
    scheduledFor.Some? &&
    exists e :: e in db.execs && db.execs[e].jobId == jobId && db.execs[e].scheduledFor == scheduledFor
  }

  /** The row createExecution and createScheduledExecution write. */
  function PendingRow(jobId: JobId, slot: FireSlot, at: int): Execution {
    Execution(jobId, at, if slot.At? then Some(slot.ms) else None, None, None, PENDING, 1, None, None, None,
              if slot.At? then "schedule" else "manual")
  }

  function Insert(db: Db, jobId: JobId, slot: FireSlot, at: int): Inserted {
    var row := PendingRow(jobId, slot, at);
    if jobId !in db.jobs then ForeignKeyViolation
    else if SlotTaken(db, jobId, row.scheduledFor) then UniqueViolation
    else Created(db.nextExec, db.(execs := db.execs[db.nextExec := row], nextExec := db.nextExec + 1))
  }

  lemma WriteKeepsValid(db: Db, op: Op)
    requires Valid(db) && Allowed(db, op)
    ensures Valid(Write(db, op))
  {
  }

  lemma InsertKeepsValid(db: Db, jobId: JobId, slot: FireSlot, at: int)
    requires Valid(db)
    ensures var r := Insert(db, jobId, slot, at); r.Created? ==> Valid(r.db)
  {
  }

  /** What a write leaves in each row, and that it leaves every other row alone. */
  lemma WriteIsExact(db: Db, op: Op)
    requires Valid(db) && Allowed(db, op)
    ensures var db' := Write(db, op); db'.nextExec == db.nextExec
    ensures forall id :: id in Write(db, op).jobs <==>
      (id in db.jobs || (op.CreateJob? && id == op.job.id)) && !(op.DeleteJob? && id == op.id)
    ensures forall id :: id in Write(db, op).jobs ==>
      Write(db, op).jobs[id] == if (op.CreateJob? || op.UpdateJob?) && id == op.job.id then op.job else db.jobs[id]
    ensures forall e :: e in Write(db, op).execs <==> e in db.execs && !(op.DeleteJob? && db.execs[e].jobId == op.id)
    ensures forall e :: e in Write(db, op).execs ==>
      Write(db, op).execs[e] == if op.UpdateExecution? && e == op.exec then op.row else db.execs[e]
  {
  }
}
