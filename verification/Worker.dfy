/**
  src/worker.ts as a step system: any number of attempts run concurrently, every await is a step,
  every call may throw before or after it took effect, and the API changes the tables meanwhile.
 */
module Worker {
  import opened Domain
  import opened Database

  /** What invokeCallback reports. */
  datatype CallbackResult = CallbackResult(ok: bool, statusCode: Option<int>, error: string, durationMs: nat)

  datatype Pc =
    | Reading                          // cache, then database
    | LookingUp
    | Marking(started: Option<int>)
    | Publishing(after: Pc)
    | Calling
    | Recording(result: CallbackResult)
    | Resetting
    | Burying(error: string)           // adding to the dead-letter queue
    | Counting
    | Disabling(mark: nat)             // `mark` is the log position of this attempt's increment
    | Returned
    | Thrown
    | Gone                             // the process died

  /** One call of processExecutionJob. */
  datatype Attempt = Attempt(exec: ExecId, jobId: JobId, number: nat, max: nat, pc: Pc)

  /** A callback made by attempt `w`. */
  datatype Callback = Callback(w: nat, exec: ExecId)

  datatype DeadLetter = DeadLetter(executionId: ExecId, jobId: JobId, reason: string, lastError: string)

  /** The committed writes to a job's dead streak and its breaker. */
  datatype Event =
    | Counted(w: nat, jobId: JobId)
    | Reset(w: nat, jobId: JobId)
    | Disabled(w: nat, jobId: JobId, mark: nat)

  datatype State = State(
    db: Db,
    deadLetters: seq<DeadLetter>,
    callbacks: seq<Callback>,
    log: seq<Event>,
    attempts: map<nat, Attempt>,
    last: map<ExecId, nat>)            // the latest attempt of each execution's queue entry

  const INIT := State(EMPTY, [], [], [], map[], map[])

  datatype Step =
    | CreateJob(job: Job)
    | EditJob(job: Job)
    | DeleteJob(id: JobId)
    | NewExecution(jobId: JobId, slot: FireSlot, at: int)
    | Begin(w: nat, exec: ExecId, jobId: JobId, attemptsMade: nat, max: nat)
    | Read(w: nat, cached: Option<Job>)
    | LookUp(w: nat)
    | Mark(w: nat, at: int, oc: Outcome)
    | Publish(w: nat, oc: Outcome)
    | Call(w: nat, result: CallbackResult)
    | Record(w: nat, at: int, oc: Outcome)
    | ResetStreak(w: nat, oc: Outcome)
    | Bury(w: nat, oc: Outcome)
    | Count(w: nat, oc: Outcome)
    | Disable(w: nat, oc: Outcome)
    | Fail(w: nat)                     // a read throws
    | Die(w: nat)

  predicate Ended(pc: Pc) { pc.Returned? || pc.Thrown? || pc.Gone? }

  predicate Enabled(s: State, step: Step) {
    match step
    case CreateJob(job) => Allowed(s.db, Database.CreateJob(job)) && job.consecutiveDeadCount == 0
    case EditJob(job) => Allowed(s.db, UpdateJob(job))
                         && job.consecutiveDeadCount == s.db.jobs[job.id].consecutiveDeadCount
    case DeleteJob(id) => Allowed(s.db, Database.DeleteJob(id))
    case NewExecution(jobId, slot, at) => Insert(s.db, jobId, slot, at).Created?
    case Begin(w, e, jobId, made, max) =>
      w !in s.attempts && if e in s.last then Retries(s, e, jobId, made, max) else made == 0
    case Read(w, _) => w in s.attempts && s.attempts[w].pc.Reading?
    case LookUp(w) => w in s.attempts && s.attempts[w].pc.LookingUp?
    case Mark(w, _, _) => w in s.attempts && s.attempts[w].pc.Marking?
    case Publish(w, _) => w in s.attempts && s.attempts[w].pc.Publishing?
    case Call(w, _) => w in s.attempts && s.attempts[w].pc.Calling?
    case Record(w, _, _) => w in s.attempts && s.attempts[w].pc.Recording?
    case ResetStreak(w, _) => w in s.attempts && s.attempts[w].pc.Resetting?
    case Bury(w, _) => w in s.attempts && s.attempts[w].pc.Burying?
    case Count(w, _) => w in s.attempts && s.attempts[w].pc.Counting?
    case Disable(w, _) => w in s.attempts && s.attempts[w].pc.Disabling?
    case Fail(w) => w in s.attempts && (s.attempts[w].pc.Reading? || s.attempts[w].pc.LookingUp?)
    case Die(w) => w in s.attempts && !Ended(s.attempts[w].pc)
  }

  /** The queue runs an entry again only after a throw, and while attempts remain. */
  predicate Retries(s: State, e: ExecId, jobId: JobId, made: nat, max: nat)
    requires e in s.last
  {
    s.last[e] in s.attempts
    && var a := s.attempts[s.last[e]];
       a.pc.Thrown? && a.number < a.max && jobId == a.jobId && made == a.number && max == a.max
  }

  function Goto(s: State, w: nat, pc: Pc): State
    requires w in s.attempts
  {
    s.(attempts := s.attempts[w := s.attempts[w].(pc := pc)])
  }

  /** A write that finds its row: then on to `pc`, unless the call throws. */
  function Settle(s: State, s': State, w: nat, oc: Outcome, pc: Pc): State
    requires w in s.attempts && s'.attempts == s.attempts
  {
    if oc.FailedBefore? then Goto(s, w, Thrown) else Goto(s', w, if oc.Done? then pc else Thrown)
  }

  function PutRow(s: State, e: ExecId, row: Execution): State { s.(db := s.db.(execs := s.db.execs[e := row])) }

  function PutJob(s: State, id: JobId, job: Job): State { s.(db := s.db.(jobs := s.db.jobs[id := job])) }

  function RunningRow(row: Execution, started: Option<int>, number: nat, at: int): Execution {
    row.(status := RUNNING, startedAt := if started.Some? then started else Some(at), attemptNumber := number,
         finishedAt := None)
  }

  function Verdict(a: Attempt, result: CallbackResult): Status {
    if result.ok then SUCCESS else if a.number >= a.max then DEAD else FAILED
  }

  function FinishedRow(row: Execution, status: Status, result: CallbackResult, at: int): Execution {
    row.(status := status, finishedAt := Some(at), responseCode := result.statusCode,
         durationMs := Some(result.durationMs), errorMessage := if result.ok then None else Some(result.error))
  }

  function AfterRecord(a: Attempt, result: CallbackResult): Pc {
    match Verdict(a, result)
    case SUCCESS => Resetting
    case DEAD => Burying(result.error)
    case _ => Publishing(Thrown)
  }

  function DoRead(s: State, w: nat, cached: Option<Job>): State
    requires Enabled(s, Read(w, cached))
  {
    var id := s.attempts[w].jobId;
    var job := if cached.Some? then cached else if id in s.db.jobs then Some(s.db.jobs[id]) else None;
    Goto(s, w, if job.None? || !job.value.enabled then Returned else LookingUp)
  }

  function DoMark(s: State, w: nat, at: int, oc: Outcome): State
    requires Enabled(s, Mark(w, at, oc))
  {
    var a := s.attempts[w];
    if a.exec !in s.db.execs then Goto(s, w, Thrown)
    else Settle(s, PutRow(s, a.exec, RunningRow(s.db.execs[a.exec], a.pc.started, a.number, at)), w, oc,
                Publishing(Calling))
  }

  function DoRecord(s: State, w: nat, at: int, oc: Outcome): State
    requires Enabled(s, Record(w, at, oc))
  {
    var a := s.attempts[w];
    if a.exec !in s.db.execs then Goto(s, w, Thrown)
    else Settle(s, PutRow(s, a.exec, FinishedRow(s.db.execs[a.exec], Verdict(a, a.pc.result), a.pc.result, at)), w, oc,
                AfterRecord(a, a.pc.result))
  }

  function DoReset(s: State, w: nat, oc: Outcome): State
    requires Enabled(s, ResetStreak(w, oc))
  {
    var id := s.attempts[w].jobId;
    if id !in s.db.jobs then Goto(s, w, Thrown)
    else Settle(s, PutJob(s, id, s.db.jobs[id].(consecutiveDeadCount := 0)).(log := s.log + [Reset(w, id)]), w, oc,
                Publishing(Returned))
  }

  function DoBury(s: State, w: nat, oc: Outcome): State
    requires Enabled(s, Bury(w, oc))
  {
    var a := s.attempts[w];
    var letter := DeadLetter(a.exec, a.jobId, "max_retries_exceeded", a.pc.error);
    Settle(s, s.(deadLetters := s.deadLetters + [letter]), w, oc, Counting)
  }

  function DoCount(env: Env, s: State, w: nat, oc: Outcome): State
    requires Enabled(s, Count(w, oc))
  {
    var id := s.attempts[w].jobId;
    if id !in s.db.jobs then Goto(s, w, Thrown)
    else
      var count := s.db.jobs[id].consecutiveDeadCount + 1;
      Settle(s, PutJob(s, id, s.db.jobs[id].(consecutiveDeadCount := count)).(log := s.log + [Counted(w, id)]), w, oc,
             if count >= env.breakerThreshold then Disabling(|s.log|) else Publishing(Publishing(Returned)))
  }

  function DoDisable(s: State, w: nat, oc: Outcome): State
    requires Enabled(s, Disable(w, oc))
  {
    var a := s.attempts[w];
    if a.jobId !in s.db.jobs then Goto(s, w, Thrown)
    else Settle(s, PutJob(s, a.jobId, s.db.jobs[a.jobId].(enabled := false))
                     .(log := s.log + [Disabled(w, a.jobId, a.pc.mark)]),
                w, oc, Publishing(Publishing(Publishing(Returned))))
  }

  function Apply(env: Env, s: State, step: Step): State
    requires Enabled(s, step)
  {
    match step
    case CreateJob(job) => s.(db := Write(s.db, Database.CreateJob(job)))
    case EditJob(job) => s.(db := Write(s.db, UpdateJob(job)))
    case DeleteJob(id) => s.(db := Write(s.db, Database.DeleteJob(id)))
    case NewExecution(jobId, slot, at) => s.(db := Insert(s.db, jobId, slot, at).db)
    case Begin(w, e, jobId, made, max) =>
      s.(attempts := s.attempts[w := Attempt(e, jobId, made + 1, max, Reading)], last := s.last[e := w])
    case Read(w, cached) => DoRead(s, w, cached)
    case LookUp(w) =>
      var e := s.attempts[w].exec;
      Goto(s, w, if e in s.db.execs then Marking(s.db.execs[e].startedAt) else Returned)
    case Mark(w, at, oc) => DoMark(s, w, at, oc)
    case Publish(w, oc) => Goto(s, w, if oc.Done? then s.attempts[w].pc.after else Thrown)
    case Call(w, result) => Goto(s.(callbacks := s.callbacks + [Callback(w, s.attempts[w].exec)]), w, Recording(result))
    case Record(w, at, oc) => DoRecord(s, w, at, oc)
    case ResetStreak(w, oc) => DoReset(s, w, oc)
    case Bury(w, oc) => DoBury(s, w, oc)
    case Count(w, oc) => DoCount(env, s, w, oc)
    case Disable(w, oc) => DoDisable(s, w, oc)
    case Fail(w) => Goto(s, w, Thrown)
    case Die(w) => Goto(s, w, Gone)
  }

  function Next(env: Env, s: State, step: Step): State {
    if Enabled(s, step) then Apply(env, s, step) else s
  }

  function Run(env: Env, s: State, steps: seq<Step>): State {
    if steps == [] then s else Next(env, Run(env, s, steps[..|steps| - 1]), steps[|steps| - 1])
  }

  // ---------- execution records ----------

  predicate Over(status: Status) { status == SUCCESS || status == FAILED || status == DEAD }

  /** The columns of a row fit its status. */
  predicate RecordOk(row: Execution) {
    && (row.finishedAt.Some? <==> Over(row.status))
    && (Over(row.status) ==> row.durationMs.Some?)
    && (row.startedAt.Some? <==> row.status != PENDING)
  }

  /** The attempt has marked its row as running. */
  predicate Underway(pc: Pc) {
    !(pc.Reading? || pc.LookingUp? || pc.Marking? || Ended(pc))
  }

  ghost predicate RecordInv(s: State) {
    && Valid(s.db)
    && (forall e :: e in s.db.execs ==> RecordOk(s.db.execs[e]))
    && (forall w :: w in s.attempts && Underway(s.attempts[w].pc) ==>
          s.attempts[w].exec < s.db.nextExec
          && (s.attempts[w].exec in s.db.execs ==> s.db.execs[s.attempts[w].exec].status != PENDING))
  }

  /** Attempt `w` rewrites its row, if it has one, and moves on. */
  ghost predicate RowStep(s: State, s': State, w: nat) {
    && w in s.attempts && w in s'.attempts && s'.attempts == s.attempts[w := s'.attempts[w]]
    && s'.attempts[w] == s.attempts[w].(pc := s'.attempts[w].pc)
    && s'.db.usedIds == s.db.usedIds && s'.db.nextExec == s.db.nextExec
    && s'.db.jobs.Keys == s.db.jobs.Keys && (forall id :: id in s.db.jobs ==> s'.db.jobs[id].id == s.db.jobs[id].id)
    && var e := s.attempts[w].exec;
       || (s'.db.execs == s.db.execs && (Underway(s'.attempts[w].pc) ==> Underway(s.attempts[w].pc)))
       || (&& e in s.db.execs && e in s'.db.execs && s'.db.execs == s.db.execs[e := s'.db.execs[e]]
           && s'.db.execs[e].status != PENDING
           && RecordOk(s'.db.execs[e]) && s'.db.execs[e].jobId == s.db.execs[e].jobId
           && s'.db.execs[e].scheduledFor == s.db.execs[e].scheduledFor)
  }

  lemma RowStepKeeps(s: State, s': State, w: nat)
    requires RecordInv(s) && RowStep(s, s', w)
    ensures RecordInv(s')
  {
  }

  lemma MarkIsRowStep(s: State, w: nat, at: int, oc: Outcome)
    requires RecordInv(s) && Enabled(s, Mark(w, at, oc))
    ensures RowStep(s, DoMark(s, w, at, oc), w)
  {
  }

  lemma RecordIsRowStep(s: State, w: nat, at: int, oc: Outcome)
    requires RecordInv(s) && Enabled(s, Record(w, at, oc))
    ensures RowStep(s, DoRecord(s, w, at, oc), w)
  {
  }

  lemma ResetIsRowStep(s: State, w: nat, oc: Outcome)
    requires RecordInv(s) && Enabled(s, ResetStreak(w, oc))
    ensures RowStep(s, DoReset(s, w, oc), w)
  {
  }

  lemma CountIsRowStep(env: Env, s: State, w: nat, oc: Outcome)
    requires RecordInv(s) && Enabled(s, Count(w, oc))
    ensures RowStep(s, DoCount(env, s, w, oc), w)
  {
  }

  lemma DisableIsRowStep(s: State, w: nat, oc: Outcome)
    requires RecordInv(s) && Enabled(s, Disable(w, oc))
    ensures RowStep(s, DoDisable(s, w, oc), w)
  {
  }

  lemma OtherIsRowStep(env: Env, s: State, step: Step)
    requires RecordInv(s) && Enabled(s, step)
    requires step.Read? || step.LookUp? || step.Publish? || step.Call? || step.Bury? || step.Fail? || step.Die?
    ensures RowStep(s, Next(env, s, step), step.w)
  {
  }

  lemma TableKeepsRecordInv(env: Env, s: State, step: Step)
    requires RecordInv(s) && Enabled(s, step)
    requires step.CreateJob? || step.EditJob? || step.DeleteJob? || step.NewExecution? || step.Begin?
    ensures RecordInv(Next(env, s, step))
  {
    match step
    case CreateJob(job) => WriteKeepsValid(s.db, Database.CreateJob(job));
    case EditJob(job) => WriteKeepsValid(s.db, UpdateJob(job));
    case DeleteJob(id) => WriteKeepsValid(s.db, Database.DeleteJob(id));
    case NewExecution(jobId, slot, at) => InsertKeepsValid(s.db, jobId, slot, at);
    case Begin(w, _, _, _, _) =>
  }

  /** The steps that are not an attempt's. */
  predicate Outside(step: Step) {
    step.CreateJob? || step.EditJob? || step.DeleteJob? || step.NewExecution? || step.Begin?
  }

  lemma AttemptIsRowStep(env: Env, s: State, step: Step)
    requires RecordInv(s) && Enabled(s, step) && !Outside(step)
    ensures RowStep(s, Next(env, s, step), step.w)
  {
    match step
    case Mark(w, at, oc) => MarkIsRowStep(s, w, at, oc);
    case Record(w, at, oc) => RecordIsRowStep(s, w, at, oc);
    case ResetStreak(w, oc) => ResetIsRowStep(s, w, oc);
    case Count(w, oc) => CountIsRowStep(env, s, w, oc);
    case Disable(w, oc) => DisableIsRowStep(s, w, oc);
    case _ => OtherIsRowStep(env, s, step);
  }

  lemma NextKeepsRecordInv(env: Env, s: State, step: Step)
    requires RecordInv(s)
    ensures RecordInv(Next(env, s, step))
  {
    if Enabled(s, step) {
      if Outside(step) {
        TableKeepsRecordInv(env, s, step);
      } else {
        AttemptIsRowStep(env, s, step);
        RowStepKeeps(s, Next(env, s, step), step.w);
      }
    }
  }

  /** In every reachable state: finishedAt is set iff the status is terminal for its attempt, such rows
      have a duration, startedAt is set iff the row left PENDING, and every row's job exists. */
  lemma {:induction false} RecordsAlwaysFit(env: Env, steps: seq<Step>)
    ensures RecordInv(Run(env, INIT, steps))
  {
    if steps != [] {
      RecordsAlwaysFit(env, steps[..|steps| - 1]);
      NextKeepsRecordInv(env, Run(env, INIT, steps[..|steps| - 1]), steps[|steps| - 1]);
    }
  }
}
