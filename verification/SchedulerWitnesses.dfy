/** Runs from the initial state in which a due fire-slot never fires, or not for a long time. */
module SchedulerWitnesses {
  import opened Domain
  import opened Database
  import opened Claims
  import opened Scheduler
  import opened SchedulerLiveness
  import LF = LockFree

  /** A job that fired a millisecond ago, whenever one looks. */
  const EVERY_MS := (cron: string, zone: string, at: int) => Some(at - 1)

  const ENV := Env(1000, 5000, 5000, 5, false, EVERY_MS)

  const JOB := Job("job", Config("", "", "", "", 0, 0, 0, false), true, 0, 0)

  const KEY := Claim("job", At(9))

  lemma Extend(now: int, steps: seq<Step>, step: Step) returns (more: seq<Step>)
    ensures more == steps + [step] && Run(ENV, Init(now), more) == Next(ENV, Run(ENV, Init(now), steps), step)
  {
    more := steps + [step];
  }

  /** A tick has the job in its snapshot. */
  lemma Scanned(now: int) returns (steps: seq<Step>)
    ensures var s := Run(ENV, Init(now), steps);
      && s.now == now && s.core.db.jobs == map["job" := JOB] && s.core.db.execs == map[] && s.core.claims == map[]
      && s.locks == map[] && s.grants == [] && s.released == {}
      && s.procs == map[0 := Proc(Head([JOB]), 0, 0, [])]
  {
    steps := Extend(now, [], Store(CreateJob(JOB)));
    steps := Extend(now, steps, Begin(0, 0));
    var s := Run(ENV, Init(now), steps);
    assert s.core.db.jobs == map["job" := JOB] && s.procs == map[0 := Proc(Scanning, 0, 0, [])];
    assert LF.IsScan(s.core.db, ["job"]) && LF.Rows(s.core.db, ["job"]) == [JOB];
    steps := Extend(now, steps, Snapshot(0, ["job"]));
  }

  /** A tick has found the job due. */
  lemma FoundDue(now: int) returns (steps: seq<Step>)
    ensures var s := Run(ENV, Init(now), steps);
      && s.now == now && s.core.db.jobs == map["job" := JOB] && s.core.db.execs == map[] && s.core.claims == map[]
      && s.locks == map[] && s.grants == [] && s.released == {} && KEY in s.seen
      && s.procs == map[0 := Proc(Locking(JOB, At(9), []), 1, 0, [])]
  {
    steps := Scanned(now);
    assert LF.Due(ENV, JOB, 10) == Some(9) && [JOB][1..] == [];
    steps := Extend(now, steps, Evaluate(0, 10));
  }

  /** A tick holds the slot's lock. */
  lemma Locked(now: int) returns (steps: seq<Step>)
    ensures var s := Run(ENV, Init(now), steps);
      && s.now == now && s.core.db.jobs == map["job" := JOB] && s.core.db.execs == map[] && s.core.claims == map[]
      && |s.grants| == 1 && s.grants[0].key == KEY && s.grants[0].expiry > now && s.released == {} && KEY in s.seen
      && s.procs == map[0 := Proc(Inserting(JOB, At(9), 0, []), 1, 0, [])]
  {
    steps := FoundDue(now);
    steps := Extend(now, steps, Acquire(0, Done));
  }

  /** A death strands the row of a slot that was found due: it is PENDING, and never enqueued. */
  lemma StrandedRun(now: int) returns (steps: seq<Step>)
    ensures var s := Run(ENV, Init(now), steps);
      Quiescent(s) && KEY in s.seen
      && exists e :: e in s.core.db.execs && e in s.core.lost && RowClaim(s.core.db.execs[e]) == KEY
  {
    steps := Locked(now);
    steps := Extend(now, steps, Insert(0, 0, Done));
    var e := Run(ENV, Init(now), steps).core.db.nextExec - 1;
    assert Run(ENV, Init(now), steps).procs[0].pc == Adding(JOB, At(9), 0, e, []);
    steps := Extend(now, steps, Abort(0));
  }

  /** A death suppresses a slot that was found due. */
  lemma SuppressedRun(now: int) returns (steps: seq<Step>)
    ensures var s := Run(ENV, Init(now), steps);
      KEY in s.seen && Orphaned(s, 0) && s.grants[0].key == KEY && s.now < s.grants[0].expiry
  {
    steps := Locked(now);
    steps := Extend(now, steps, Abort(0));
  }
}
