/**
  The durable effects of claiming fire-slots: rows inserted into the execution table and
  entries added to the execution queue (src/services/execution.service.ts, src/scheduler.ts).
 */
module Claims {
  import opened Domain
  import opened Database
  import opened LockTtl

  /** A job and the slot an execution was created for. */
  datatype Claim = Claim(jobId: JobId, slot: FireSlot)

  datatype Entry = Entry(executionId: ExecId, jobId: JobId, fireSlot: FireSlot, options: JobsOptions)

  /**
    The database and the queue, with two history variables: every claim ever inserted, which
    outlives the row when the job is deleted, and the claims whose queue entry never came.
   */
  datatype Core = Core(
    db: Db,
    queue: seq<Entry>,
    claims: map<ExecId, Claim>,
    lost: set<ExecId>)

  const EMPTY := Core(Database.EMPTY, [], map[], {})

  datatype ClaimResult = Won(exec: ExecId) | Taken | Threw

  /** createScheduledExecution and createExecution: a unique violation is `Taken`, other errors throw. */
  function InsertClaim(c: Core, job: Job, slot: FireSlot, at: int, oc: Outcome): (Core, ClaimResult) {
    if oc.FailedBefore? then (c, Threw) else
      match Insert(c.db, job.id, slot, at)
      case ForeignKeyViolation => (c, Threw)
      case UniqueViolation => (c, if oc.Done? then Taken else Threw)
      case Created(e, db) =>
        var c' := c.(db := db, claims := c.claims[e := Claim(job.id, slot)]);
        if oc.Done? then (c', Won(e)) else (Forget(c', e), Threw)
  }

  /** queue.add */
  function Enqueue(c: Core, job: Job, slot: FireSlot, e: ExecId, oc: Outcome): Core {
    if oc.FailedBefore? then Forget(c, e)
    else c.(queue := c.queue + [Entry(e, job.id, slot, ExecutionJobOptions(job.config))])
  }

  /** The process holding `e` will never enqueue it. */
  function Forget(c: Core, e: ExecId): Core { c.(lost := c.lost + {e}) }

  ghost predicate Queued(c: Core, e: ExecId) {
    exists i :: 0 <= i < |c.queue| && c.queue[i].executionId == e
  }

  function RowClaim(row: Execution): Claim {
    Claim(row.jobId, if row.scheduledFor.Some? then At(row.scheduledFor.value) else Manual)
  }

  /** A claim's row is in the table exactly until its job is deleted. */
  ghost predicate RowsMatchClaims(c: Core) {
    && (forall e :: e in c.claims ==>
      && e < c.db.nextExec
      && c.claims[e].jobId in c.db.usedIds
      && (c.claims[e].jobId in c.db.jobs ==> e in c.db.execs))
    && (forall e :: e in c.db.execs ==> e in c.claims && c.claims[e] == RowClaim(c.db.execs[e]))
  }

  /** A cron fire time of a job is claimed at most once, ever. */
  ghost predicate ClaimedOnce(claims: map<ExecId, Claim>) {
    forall d, e :: d in claims && e in claims && claims[d].slot.At? && claims[d] == claims[e] ==> d == e
  }

  ghost predicate QueueMatchesClaims(c: Core) {
    && c.lost <= c.claims.Keys
    && (forall i :: 0 <= i < |c.queue| ==>
      var q := c.queue[i];
      q.executionId in c.claims && q.executionId !in c.lost && c.claims[q.executionId] == Claim(q.jobId, q.fireSlot))
    && (forall i, j :: 0 <= i < j < |c.queue| ==> c.queue[i].executionId != c.queue[j].executionId)
  }

  ghost predicate Inv(c: Core) {
    Valid(c.db) && RowsMatchClaims(c) && ClaimedOnce(c.claims) && QueueMatchesClaims(c)
  }

  lemma WriteKeepsInv(c: Core, op: Op)
    requires Inv(c) && Allowed(c.db, op)
    ensures Inv(c.(db := Write(c.db, op)))
  {
  }

  /** A row that passes both constraints is a first claim of its slot. */
  lemma CreatedKeepsInv(c: Core, jobId: JobId, slot: FireSlot, at: int)
    requires Inv(c) && Insert(c.db, jobId, slot, at).Created?
    ensures var Created(e, db) := Insert(c.db, jobId, slot, at);
      e !in c.claims && Inv(c.(db := db, claims := c.claims[e := Claim(jobId, slot)]))
  {
    InsertKeepsValid(c.db, jobId, slot, at);
    assert forall d :: d in c.claims && slot.At? ==> c.claims[d] != Claim(jobId, slot);
  }

  lemma InsertKeepsInv(c: Core, job: Job, slot: FireSlot, at: int, oc: Outcome)
    requires Inv(c)
    ensures var (c', r) := InsertClaim(c, job, slot, at, oc);
      && Inv(c') && c'.queue == c.queue && c'.db.jobs == c.db.jobs && c'.db.usedIds == c.db.usedIds
      && (r.Won? ==> r.exec !in c.claims && c'.claims == c.claims[r.exec := Claim(job.id, slot)]
                     && !Queued(c', r.exec) && c'.lost == c.lost)
      && (r.Taken? ==> c' == c && exists e :: e in c.claims && c.claims[e] == Claim(job.id, slot))
      && (r.Threw? ==> c' == c || exists e :: e !in c.claims && c'.lost == c.lost + {e}
                                         && c'.claims == c.claims[e := Claim(job.id, slot)])
  {
    match Insert(c.db, job.id, slot, at)
    case ForeignKeyViolation =>
    case UniqueViolation =>
      var e :| e in c.db.execs && c.db.execs[e].jobId == job.id
               && c.db.execs[e].scheduledFor == PendingRow(job.id, slot, at).scheduledFor;
      assert c.claims[e] == Claim(job.id, slot);
    case Created(e, _) =>
      CreatedKeepsInv(c, job.id, slot, at);
      assert !oc.FailedBefore? ==> InsertClaim(c, job, slot, at, oc).0.claims == c.claims[e := Claim(job.id, slot)];
  }

  lemma EnqueueKeepsInv(c: Core, job: Job, slot: FireSlot, e: ExecId, oc: Outcome)
    requires Inv(c) && e in c.claims && c.claims[e] == Claim(job.id, slot) && !Queued(c, e) && e !in c.lost
    ensures var c' := Enqueue(c, job, slot, e, oc);
      Inv(c') && (forall d :: d in c.claims ==> (Queued(c', d) <==> Queued(c, d) || (d == e && !oc.FailedBefore?)))
  {
    var c' := Enqueue(c, job, slot, e, oc);
    forall d | d in c.claims
      ensures Queued(c', d) <==> Queued(c, d) || (d == e && !oc.FailedBefore?)
    {
      if Queued(c, d) {
        var i :| 0 <= i < |c.queue| && c.queue[i].executionId == d;
        assert c'.queue[i].executionId == d;
      }
      if d == e && !oc.FailedBefore? {
        assert c'.queue[|c.queue|].executionId == d;
      }
    }
  }
}
