/**
  The code of processExecutionJob in src/worker.ts, and the queue's retry loop around it, while other
  workers and the API change the tables at every await. Each method takes steps of the Worker system.
 */
module WorkerProcess {
  import opened Domain
  import opened Database
  import opened LockTtl
  import opened Worker
  import opened WorkerQueue
  import opened WorkerBreaker

  lemma RunAppend(env: Env, s: State, steps: seq<Step>, step: Step)
    ensures Run(env, s, steps + [step]) == Next(env, Run(env, s, steps), step)
  {
  }

  /** What the outside world can tell about an execution. */
  datatype View = View(row: Option<Execution>, dead: nat, calls: nat)

  function ViewOf(s: State, e: ExecId): View {
    View(if e in s.db.execs then Some(s.db.execs[e]) else None, DeadFor(s.deadLetters, e), CallsFor(s.callbacks, e))
  }

  function StartOf(s: State, e: ExecId): Option<int> {
    if e in s.db.execs then s.db.execs[e].startedAt else None
  }

  /** The row's start, once set, is kept. */
  predicate KeepsStart(v: View, v': View) {
    v.row.Some? && v'.row.Some? && (v.row.value.startedAt.Some? ==> v'.row.value.startedAt == v.row.value.startedAt)
  }

  /** The row reports this callback's status code, duration and error. */
  predicate Reports(row: Execution, result: CallbackResult) {
    && row.durationMs == Some(result.durationMs) && row.responseCode == result.statusCode
    && row.errorMessage == if result.ok then None else Some(result.error)
  }

  /** A step that is not this attempt's; a calm run also keeps the job in the table. */
  predicate Foreign(step: Step, w: nat, id: JobId, calm: bool) {
    if step.DeleteJob? then calm ==> step.id != id
    else Outside(step) || step.w != w
  }

  /** Attempt `w` is the latest on its execution. */
  predicate Latest(s: State, w: nat) {
    w in s.attempts && s.attempts[w].exec in s.last && s.last[s.attempts[w].exec] == w
  }

  /** The execution's row and its job are in the tables. */
  predicate Present(s: State, e: ExecId, id: JobId) {
    e < s.db.nextExec && e in s.db.execs && s.db.execs[e].jobId == id && id in s.db.jobs
  }

  lemma ForeignOutside(env: Env, s: State, step: Step, w: nat, e: ExecId, id: JobId, calm: bool)
    requires RecordInv(s) && Foreign(step, w, id, calm) && Outside(step)
    requires Latest(s, w) && s.attempts[w].exec == e && !Ended(s.attempts[w].pc)
    requires calm ==> Present(s, e, id)
    ensures var s' := Next(env, s, step);
      && Latest(s', w) && s'.attempts[w] == s.attempts[w] && s'.log == s.log
      && s'.deadLetters == s.deadLetters && s'.callbacks == s.callbacks
      && (calm ==> Present(s', e, id) && s'.db.execs[e] == s.db.execs[e])
  {
  }

  lemma ForeignLogs(env: Env, s: State, step: Step, e: ExecId)
    requires Enabled(s, step) && !Outside(step) && s.attempts[step.w].exec != e
    ensures var s' := Next(env, s, step);
      DeadFor(s'.deadLetters, e) == DeadFor(s.deadLetters, e) && CallsFor(s'.callbacks, e) == CallsFor(s.callbacks, e)
  {
    AttemptAdds(env, s, step);
  }

  lemma LogGrows(env: Env, s: State, step: Step)
    ensures s.log <= Next(env, s, step).log
  {
  }

  /** While an attempt is under way, the queue hands its execution to nobody else. */
  lemma ForeignKeeps(env: Env, s: State, step: Step, w: nat, e: ExecId, id: JobId, calm: bool)
    requires RecordInv(s) && QueueInv(s) && Foreign(step, w, id, calm)
    requires Latest(s, w) && s.attempts[w].exec == e && !Ended(s.attempts[w].pc)
    requires calm ==> Present(s, e, id)
    ensures var s' := Next(env, s, step);
      && Latest(s', w) && s'.attempts[w] == s.attempts[w] && s.log <= s'.log
      && (calm ==> Present(s', e, id) && ViewOf(s', e) == ViewOf(s, e))
  {
    LogGrows(env, s, step);
    if Outside(step) {
      ForeignOutside(env, s, step, w, e, id, calm);
    } else if Enabled(s, step) {
      AttemptMoves(env, s, step);
      AttemptIsRowStep(env, s, step);
      assert Superseded(s, step.w);
      ForeignLogs(env, s, step, e);
    }
  }

  /** What the record step does to the row and to the attempt. */
  ghost predicate RecordDone(s: State, s': State, w: nat, at: int, oc: Outcome)
    requires w in s.attempts && s.attempts[w].pc.Recording?
  {
    var a := s.attempts[w]; var r := a.pc.result;
    && s' == s.(db := s'.db, attempts := s'.attempts)
    && s'.db == (if a.exec in s.db.execs && oc != FailedBefore
         then s.db.(execs := s.db.execs[a.exec := FinishedRow(s.db.execs[a.exec], Verdict(a, r), r, at)]) else s.db)
    && s'.attempts == s.attempts[w := a.(pc :=
         if oc != Done || a.exec !in s.db.execs then Thrown else AfterRecord(a, r))]
  }

  class Pool {
    const env: Env
    var db: Db
    var deadLetters: seq<DeadLetter>
    var callbacks: seq<Callback>
    var st: State               // the system state the fields above are part of
    ghost var steps: seq<Step>  // how it was reached

    ghost predicate Valid()
      reads this
    {
      && st == Run(env, INIT, steps)
      && db == st.db && deadLetters == st.deadLetters && callbacks == st.callbacks
    }

    constructor (env: Env)
      ensures Valid() && this.env == env && steps == []
    {
      this.env := env;
      db, deadLetters, callbacks, st, steps := EMPTY, [], [], INIT, [];
    }

    method Commit(step: Step)
      requires st == Run(env, INIT, steps)
      modifies `st, `steps
      ensures steps == old(steps) + [step] && st == Run(env, INIT, steps)
      ensures st == Next(env, old(st), step)
    {
      RunAppend(env, INIT, steps, step);
      st, steps := Next(env, st, step), steps + [step];
    }

    /** Attempt `w` awaits. */
    method Await(w: nat, calm: bool)
      requires Valid() && Latest(st, w) && !Ended(st.attempts[w].pc)
      requires calm ==> Present(st, st.attempts[w].exec, st.attempts[w].jobId)
      modifies this
      ensures Valid() && old(steps) <= steps && Latest(st, w)
      ensures st.attempts[w] == old(st.attempts[w]) && old(st.log) <= st.log
      ensures calm ==> Present(st, st.attempts[w].exec, st.attempts[w].jobId)
      ensures calm ==> ViewOf(st, st.attempts[w].exec) == old(ViewOf(st, st.attempts[w].exec))
    {
      var n: nat := *;
      while n > 0
        invariant Valid() && old(steps) <= steps && Latest(st, w)
        invariant st.attempts[w] == old(st.attempts[w]) && old(st.log) <= st.log
        invariant calm ==> Present(st, st.attempts[w].exec, st.attempts[w].jobId)
        invariant calm ==> ViewOf(st, st.attempts[w].exec) == old(ViewOf(st, st.attempts[w].exec))
      {
        var step: Step := *;
        if Foreign(step, w, st.attempts[w].jobId, calm) {
          RecordsAlwaysFit(env, steps);
          RunKeepsQueue(env, steps);
          ForeignKeeps(env, st, step, w, st.attempts[w].exec, st.attempts[w].jobId, calm);
          Commit(step);
          db, deadLetters, callbacks := st.db, st.deadLetters, st.callbacks;
        }
        n := n - 1;
      }
    }

    /** How a call ends; calm runs have no failing calls. */
    method Try(calm: bool) returns (oc: Outcome)
      ensures calm ==> oc == Done
    {
      oc := *;
      if calm { oc := Done; }
    }

    /** The queue hands the execution to a worker. */
    method Start(w: nat, e: ExecId, id: JobId, attemptsMade: nat, max: nat)
      requires Valid() && Enabled(st, Begin(w, e, id, attemptsMade, max))
      modifies this
      ensures Valid() && old(steps) <= steps
      ensures st.attempts == old(st.attempts)[w := Attempt(e, id, attemptsMade + 1, max, Reading)]
      ensures st.last == old(st.last)[e := w]
      ensures st.db == old(st.db) && st.deadLetters == old(st.deadLetters) && st.callbacks == old(st.callbacks)
    {
      Commit(Begin(w, e, id, attemptsMade, max));
    }

    /** getCachedJob, else findUnique: the job the attempt goes by, and whether it may go on. */
    method SeeJob(w: nat, cached: Option<Job>, calm: bool) returns (seen: Option<Job>, goOn: bool, threw: bool)
      requires Valid() && Latest(st, w) && st.attempts[w].pc == Reading
      modifies this
      ensures Valid() && steps == old(steps) + [if threw then Fail(w) else Read(w, cached)]
      ensures Latest(st, w) && !(goOn && threw) && (calm ==> !threw)
      ensures st.attempts[w] ==
        old(st.attempts[w]).(pc := if threw then Thrown else if goOn then LookingUp else Returned)
      ensures !threw ==> goOn == (seen.Some? && seen.value.enabled)
      ensures !threw ==> var id := st.attempts[w].jobId;
        if cached.Some? then seen == cached else if id in st.db.jobs then seen == Some(st.db.jobs[id]) else seen == None
      ensures st.db == old(st.db) && st.deadLetters == old(st.deadLetters) && st.callbacks == old(st.callbacks)
    {
      var id := st.attempts[w].jobId;
      var oc := Try(calm);
      threw := oc != Done;
      seen := if cached.Some? then cached else if id in db.jobs then Some(db.jobs[id]) else None;
      goOn := !threw && seen.Some? && seen.value.enabled;
      if threw {
        Commit(Fail(w));
      } else {
        Commit(Read(w, cached));
      }
    }

    method FindExecution(w: nat, calm: bool) returns (found: bool, threw: bool)
      requires Valid() && Latest(st, w) && st.attempts[w].pc == LookingUp
      modifies this
      ensures Valid() && old(steps) <= steps && Latest(st, w) && !(found && threw) && (calm ==> !threw)
      ensures st.db == old(st.db) && st.deadLetters == old(st.deadLetters) && st.callbacks == old(st.callbacks)
      ensures !threw ==> (found <==> st.attempts[w].exec in db.execs)
      ensures st.attempts[w] == old(st.attempts[w]).(pc := st.attempts[w].pc)
      ensures if found then st.attempts[w].pc == Marking(StartOf(st, st.attempts[w].exec))
              else st.attempts[w].pc == if threw then Thrown else Returned
    {
      var oc := Try(calm);
      threw, found := oc != Done, oc == Done && st.attempts[w].exec in db.execs;
      Commit(if threw then Fail(w) else LookUp(w));
    }

    method MarkRunning(w: nat, calm: bool) returns (threw: bool)
      requires Valid() && Latest(st, w) && st.attempts[w].pc.Marking?
      requires calm ==> Present(st, st.attempts[w].exec, st.attempts[w].jobId)
      requires calm ==> st.attempts[w].pc.started == StartOf(st, st.attempts[w].exec)
      modifies this
      ensures Valid() && old(steps) <= steps && Latest(st, w) && (calm ==> !threw)
      ensures st.attempts[w] == old(st.attempts[w]).(pc := if threw then Thrown else Publishing(Calling))
      ensures calm ==> Present(st, st.attempts[w].exec, st.attempts[w].jobId)
      ensures var a := old(st.attempts[w]); var v, v' := old(ViewOf(st, st.attempts[w].exec)), ViewOf(st, a.exec);
        Marked(v, v', a) || (threw && v' == v)
      ensures calm ==> KeepsStart(old(ViewOf(st, st.attempts[w].exec)), ViewOf(st, st.attempts[w].exec))
      ensures OnlyRow(old(db), db, st.attempts[w].exec)
    {
      var oc := Try(calm);
      var now: int := *;
      var a := st.attempts[w];
      threw := oc != Done || a.exec !in db.execs;
      if a.exec in db.execs && oc != FailedBefore {
        var started := if a.pc.started.Some? then a.pc.started else Some(now);
        db := db.(execs := db.execs[a.exec := db.execs[a.exec].(
          status := RUNNING, startedAt := started, attemptNumber := a.number, finishedAt := None)]);
      }
      Commit(Mark(w, now, oc));
    }

    method PublishEvent(w: nat, calm: bool) returns (threw: bool)
      requires Valid() && Latest(st, w) && st.attempts[w].pc.Publishing?
      modifies this
      ensures Valid() && old(steps) <= steps && Latest(st, w) && (calm ==> !threw)
      ensures st.attempts[w] == old(st.attempts[w]).(pc := if threw then Thrown else old(st.attempts[w]).pc.after)
      ensures st.db == old(st.db) && st.deadLetters == old(st.deadLetters) && st.callbacks == old(st.callbacks)
      ensures st.log == old(st.log)
    {
      var oc := Try(calm);
      threw := oc != Done;
      Commit(Publish(w, oc));
    }

    method InvokeCallback(w: nat, result: CallbackResult)
      requires Valid() && Latest(st, w) && st.attempts[w].pc == Calling
      modifies this
      ensures Valid() && old(steps) <= steps && Latest(st, w)
      ensures st.attempts[w] == old(st.attempts[w]).(pc := Recording(result)) && st.db == old(st.db)
      ensures var v := old(ViewOf(st, st.attempts[w].exec)); ViewOf(st, st.attempts[w].exec) == v.(calls := v.calls + 1)
    {
      callbacks := callbacks + [Callback(w, st.attempts[w].exec)];
      assert callbacks[..|callbacks| - 1] == old(callbacks);
      Commit(Call(w, result));
    }

    method CommitRecord(w: nat, at: int, oc: Outcome)
      requires st == Run(env, INIT, steps) && Latest(st, w) && st.attempts[w].pc.Recording?
      modifies `st, `steps
      ensures steps == old(steps) + [Record(w, at, oc)] && st == Run(env, INIT, steps)
      ensures RecordDone(old(st), st, w, at, oc)
    {
      Commit(Record(w, at, oc));
    }

    /** The write that records the attempt's result: SUCCESS, DEAD or FAILED. */
    method RecordResult(w: nat, calm: bool) returns (threw: bool)
      requires Valid() && Latest(st, w) && st.attempts[w].pc.Recording?
      requires calm ==> Present(st, st.attempts[w].exec, st.attempts[w].jobId)
      modifies this
      ensures Valid() && old(steps) <= steps && Latest(st, w) && (calm ==> !threw)
      ensures var a := old(st.attempts[w]);
        st.attempts[w] == a.(pc := if threw then Thrown else AfterRecord(a, a.pc.result))
      ensures calm ==> Present(st, st.attempts[w].exec, st.attempts[w].jobId)
      ensures OnlyRow(old(db), db, st.attempts[w].exec) && st.log == old(st.log)
      ensures var a := old(st.attempts[w]); var v, v' := old(ViewOf(st, st.attempts[w].exec)), ViewOf(st, a.exec);
        Recorded(v, v', Verdict(a, a.pc.result), a.pc.result) || (threw && v' == v)
    {
      var oc := Try(calm);
      var now: int := *;
      var a := st.attempts[w];
      var r := a.pc.result;
      threw := oc != Done || a.exec !in db.execs;
      if a.exec in db.execs && oc != FailedBefore {
        var status := if r.ok then SUCCESS else if a.number >= a.max then DEAD else FAILED;
        db := db.(execs := db.execs[a.exec := db.execs[a.exec].(
          status := status, finishedAt := Some(now), responseCode := r.statusCode, durationMs := Some(r.durationMs),
          errorMessage := if r.ok then None else Some(r.error))]);
      }
      CommitRecord(w, now, oc);
    }

    /** What a write to the job table leaves of an execution: everything. */
    method ResetDeadStreak(w: nat, calm: bool) returns (threw: bool)
      requires Valid() && Latest(st, w) && st.attempts[w].pc == Resetting
      requires calm ==> Present(st, st.attempts[w].exec, st.attempts[w].jobId)
      modifies this
      ensures Valid() && old(steps) <= steps && Latest(st, w) && (calm ==> !threw)
      ensures st.attempts[w] == old(st.attempts[w]).(pc := if threw then Thrown else Publishing(Returned))
      ensures calm ==> Present(st, st.attempts[w].exec, st.attempts[w].jobId)
      ensures ViewOf(st, st.attempts[w].exec) == old(ViewOf(st, st.attempts[w].exec))
      ensures st.attempts[w].jobId !in old(db.jobs) ==> threw && db == old(db)
      ensures var id := st.attempts[w].jobId; id in old(db.jobs) ==>
        JobWrite(old(db), db, id, old(db.jobs[id]).(consecutiveDeadCount := 0), threw)
      ensures !threw ==> st.log == old(st.log) + [Reset(w, st.attempts[w].jobId)]
    {
      var oc := Try(calm);
      var id := st.attempts[w].jobId;
      threw := oc != Done || id !in db.jobs;
      if id in db.jobs && oc != FailedBefore {
        db := db.(jobs := db.jobs[id := db.jobs[id].(consecutiveDeadCount := 0)]);
      }
      Commit(ResetStreak(w, oc));
    }

    method AddDeadLetter(w: nat, calm: bool) returns (threw: bool)
      requires Valid() && Latest(st, w) && st.attempts[w].pc.Burying?
      modifies this
      ensures Valid() && old(steps) <= steps && Latest(st, w) && (calm ==> !threw) && st.db == old(st.db)
      ensures st.attempts[w] == old(st.attempts[w]).(pc := if threw then Thrown else Counting) && st.log == old(st.log)
      ensures var v, v' := old(ViewOf(st, st.attempts[w].exec)), ViewOf(st, st.attempts[w].exec);
        v' == v.(dead := v.dead + 1) || (threw && v' == v)
      ensures var a := old(st.attempts[w]);
        deadLetters == old(deadLetters) + [DeadLetter(a.exec, a.jobId, "max_retries_exceeded", a.pc.error)]
        || (threw && deadLetters == old(deadLetters))
    {
      var oc := Try(calm);
      var a := st.attempts[w];
      threw := oc != Done;
      if oc != FailedBefore {
        deadLetters := deadLetters + [DeadLetter(a.exec, a.jobId, "max_retries_exceeded", a.pc.error)];
        assert deadLetters[..|deadLetters| - 1] == old(deadLetters);
      }
      Commit(Bury(w, oc));
    }

    method IncrementDeadCount(w: nat, calm: bool) returns (count: nat, threw: bool)
      requires Valid() && Latest(st, w) && st.attempts[w].pc == Counting
      requires calm ==> Present(st, st.attempts[w].exec, st.attempts[w].jobId)
      modifies this
      ensures Valid() && old(steps) <= steps && Latest(st, w) && (calm ==> !threw)
      ensures calm ==> Present(st, st.attempts[w].exec, st.attempts[w].jobId)
      ensures ViewOf(st, st.attempts[w].exec) == old(ViewOf(st, st.attempts[w].exec))
      ensures st.attempts[w] == old(st.attempts[w]).(pc := st.attempts[w].pc)
      ensures !threw ==> var id := st.attempts[w].jobId;
        && id in old(db.jobs) && count == old(db.jobs[id].consecutiveDeadCount) + 1
        && st.log == old(st.log) + [Counted(w, id)]
        && id in db.jobs && db.jobs[id].consecutiveDeadCount == count
      ensures var id := st.attempts[w].jobId; id in old(db.jobs) ==>
        var job := old(db.jobs[id]);
        JobWrite(old(db), db, id, job.(consecutiveDeadCount := job.consecutiveDeadCount + 1), threw)
      ensures st.attempts[w].jobId !in old(db.jobs) ==> threw && db == old(db)
      ensures st.attempts[w].pc == if threw then Thrown
        else if count >= env.breakerThreshold then Disabling(|old(st.log)|) else Publishing(Publishing(Returned))
    {
      var oc := Try(calm);
      var id := st.attempts[w].jobId;
      threw, count := oc != Done || id !in db.jobs, 0;
      if id in db.jobs && oc != FailedBefore {
        count := db.jobs[id].consecutiveDeadCount + 1;
        db := db.(jobs := db.jobs[id := db.jobs[id].(consecutiveDeadCount := count)]);
      }
      Commit(Count(w, oc));
    }

    method DisableJob(w: nat, calm: bool) returns (threw: bool)
      requires Valid() && Latest(st, w) && st.attempts[w].pc.Disabling?
      requires calm ==> Present(st, st.attempts[w].exec, st.attempts[w].jobId)
      modifies this
      ensures Valid() && old(steps) <= steps && Latest(st, w) && (calm ==> !threw)
      ensures calm ==> Present(st, st.attempts[w].exec, st.attempts[w].jobId)
      ensures ViewOf(st, st.attempts[w].exec) == old(ViewOf(st, st.attempts[w].exec))
      ensures st.attempts[w] ==
        old(st.attempts[w]).(pc := if threw then Thrown else Publishing(Publishing(Publishing(Returned))))
      ensures old(st.log) <= st.log
      ensures !threw ==> var id := st.attempts[w].jobId;
        id in db.jobs && !db.jobs[id].enabled && st.log == old(st.log) + [Disabled(w, id, old(st.attempts[w].pc.mark))]
      ensures var id := st.attempts[w].jobId; id in old(db.jobs) ==>
        JobWrite(old(db), db, id, old(db.jobs[id]).(enabled := false), threw)
      ensures st.attempts[w].jobId !in old(db.jobs) ==> threw && db == old(db)
    {
      var oc := Try(calm);
      var id := st.attempts[w].jobId;
      threw := oc != Done || id !in db.jobs;
      if id in db.jobs && oc != FailedBefore {
        db := db.(jobs := db.jobs[id := db.jobs[id].(enabled := false)]);
      }
      Commit(Disable(w, oc));
    }

    /** Publishes what is left to publish. */
    method PublishRest(w: nat, calm: bool) returns (threw: bool)
      requires Valid() && Latest(st, w) && st.attempts[w].pc.Publishing?
      requires calm ==> Present(st, st.attempts[w].exec, st.attempts[w].jobId)
      modifies this
      ensures Valid() && old(steps) <= steps && Latest(st, w) && (calm ==> !threw)
      ensures calm ==> Present(st, st.attempts[w].exec, st.attempts[w].jobId)
      ensures calm ==> ViewOf(st, st.attempts[w].exec) == old(ViewOf(st, st.attempts[w].exec))
      ensures old(st.log) <= st.log
      ensures var a := old(st.attempts[w]);
        st.attempts[w] == a.(pc := st.attempts[w].pc) && (threw ==> st.attempts[w].pc == Thrown)
        && (!threw ==> !st.attempts[w].pc.Publishing? && st.attempts[w].pc == LastPc(a.pc))
    {
      threw := false;
      while !threw && st.attempts[w].pc.Publishing?
        invariant Valid() && old(steps) <= steps && Latest(st, w) && (calm ==> !threw)
        invariant old(st.log) <= st.log && st.attempts[w] == old(st.attempts[w]).(pc := st.attempts[w].pc)
        invariant if threw then st.attempts[w].pc == Thrown
                  else LastPc(st.attempts[w].pc) == LastPc(old(st.attempts[w].pc))
        invariant calm ==> Present(st, st.attempts[w].exec, st.attempts[w].jobId)
        invariant calm ==> ViewOf(st, st.attempts[w].exec) == old(ViewOf(st, st.attempts[w].exec))
        decreases !threw, st.attempts[w].pc
      {
        Await(w, calm);
        threw := PublishEvent(w, calm);
      }
    }

    /** The breaker's second write, and the events after it. */
    method Trip(w: nat, calm: bool) returns (threw: bool)
      requires Valid() && Latest(st, w) && st.attempts[w].pc.Disabling? && st.attempts[w].pc.mark < |st.log|
      requires calm ==> Present(st, st.attempts[w].exec, st.attempts[w].jobId)
      modifies this
      ensures Valid() && old(steps) <= steps && Latest(st, w) && (calm ==> !threw) && old(st.log) <= st.log
      ensures calm ==> Present(st, st.attempts[w].exec, st.attempts[w].jobId)
      ensures calm ==> ViewOf(st, st.attempts[w].exec) == old(ViewOf(st, st.attempts[w].exec))
      ensures st.attempts[w] == old(st.attempts[w]).(pc := if threw then Thrown else Returned)
      ensures !threw ==> Tripped(st.log, old(st.attempts[w].pc.mark), w, st.attempts[w].jobId)
    {
      threw := DisableJob(w, calm);
      if threw { return; }
      ghost var disabled := st.log;
      threw := PublishRest(w, calm);
      assert st.log[|old(st.log)|] == disabled[|old(st.log)|];
    }

    /** applyCircuitBreaker and the rest of deadLetter after the dead-letter queue. */
    method ApplyCircuitBreaker(w: nat, calm: bool) returns (threw: bool)
      requires Valid() && Latest(st, w) && st.attempts[w].pc == Counting
      requires calm ==> Present(st, st.attempts[w].exec, st.attempts[w].jobId)
      modifies this
      ensures Valid() && old(steps) <= steps && Latest(st, w) && (calm ==> !threw)
      ensures calm ==> Present(st, st.attempts[w].exec, st.attempts[w].jobId)
      ensures calm ==> ViewOf(st, st.attempts[w].exec) == old(ViewOf(st, st.attempts[w].exec))
      ensures st.attempts[w] == old(st.attempts[w]).(pc := if threw then Thrown else Returned)
      ensures !threw ==> var id, mark := st.attempts[w].jobId, |old(st.log)|;
        && id in old(db.jobs) && mark < |st.log| && st.log[mark] == Counted(w, id)
        && (old(db.jobs[id].consecutiveDeadCount) + 1 >= env.breakerThreshold <==> Tripped(st.log, mark, w, id))
    {
      var count;
      count, threw := IncrementDeadCount(w, calm);
      if threw { return; }
      BreakerSound(env, steps);
      if count >= env.breakerThreshold {
        Await(w, calm);
        threw := Trip(w, calm);
      } else {
        ghost var counted := st.log;
        threw := PublishRest(w, calm);
        BreakerSound(env, steps);
        NotTripped(env, st, counted, w, st.attempts[w].jobId);
      }
    }

    /** The success path after the row write. */
    method ConcludeSuccess(w: nat, calm: bool) returns (threw: bool)
      requires Valid() && Latest(st, w) && st.attempts[w].pc == Resetting
      requires calm ==> Present(st, st.attempts[w].exec, st.attempts[w].jobId)
      modifies this
      ensures Valid() && old(steps) <= steps && Latest(st, w) && (calm ==> !threw)
      ensures calm ==> Present(st, st.attempts[w].exec, st.attempts[w].jobId)
      ensures calm ==> ViewOf(st, st.attempts[w].exec) == old(ViewOf(st, st.attempts[w].exec))
      ensures st.attempts[w] == old(st.attempts[w]).(pc := if threw then Thrown else Returned)
      ensures !threw ==> LogHas(st.log, |old(st.log)|, Reset(w, st.attempts[w].jobId))
    {
      threw := ResetDeadStreak(w, calm);
      if threw { return; }
      threw := PublishRest(w, calm);
      assert !threw ==> st.log[|old(st.log)|] == Reset(w, st.attempts[w].jobId);
    }

    /** deadLetter after its row write. */
    method ConcludeDead(w: nat, calm: bool) returns (threw: bool)
      requires Valid() && Latest(st, w) && st.attempts[w].pc.Burying?
      requires calm ==> Present(st, st.attempts[w].exec, st.attempts[w].jobId)
      modifies this
      ensures Valid() && old(steps) <= steps && Latest(st, w) && (calm ==> !threw)
      ensures calm ==> Present(st, st.attempts[w].exec, st.attempts[w].jobId)
      ensures calm ==> var v := old(ViewOf(st, st.attempts[w].exec));
        ViewOf(st, st.attempts[w].exec) == v.(dead := v.dead + 1)
      ensures st.attempts[w] == old(st.attempts[w]).(pc := if threw then Thrown else Returned)
      ensures !threw ==> LogHas(st.log, |old(st.log)|, Counted(w, st.attempts[w].jobId))
    {
      threw := AddDeadLetter(w, calm);
      if threw { return; }
      Await(w, calm);
      threw := ApplyCircuitBreaker(w, calm);
    }

    /** Everything after the callback returned. */
    method Conclude(w: nat, calm: bool) returns (threw: bool)
      requires Valid() && Latest(st, w) && st.attempts[w].pc.Recording?
      requires calm ==> Present(st, st.attempts[w].exec, st.attempts[w].jobId)
      modifies this
      ensures Valid() && old(steps) <= steps && Latest(st, w)
      ensures calm ==> Present(st, st.attempts[w].exec, st.attempts[w].jobId)
      ensures st.attempts[w] == old(st.attempts[w]).(pc := if threw then Thrown else Returned)
      ensures calm ==> var a := old(st.attempts[w]); var verdict := Verdict(a, a.pc.result);
        && Concluded(old(ViewOf(st, st.attempts[w].exec)), ViewOf(st, a.exec), verdict, a.pc.result)
        && (threw <==> verdict == FAILED)
      ensures !threw ==> Counts(st.log, |old(st.log)|, old(st.attempts[w]), old(st.attempts[w]).pc.result, w)
    {
      var verdict := Verdict(st.attempts[w], st.attempts[w].pc.result);
      threw := RecordResult(w, calm);
      if threw { return; }
      Await(w, calm);
      if verdict == SUCCESS {
        threw := ConcludeSuccess(w, calm);
      } else if verdict == DEAD {
        threw := ConcludeDead(w, calm);
      } else {
        var failed := PublishRest(w, calm);
        threw := true;   // so that the queue retries
      }
    }

    /** The queue hands over the execution, and the attempt reads the job. */
    method ReadJob(w: nat, e: ExecId, id: JobId, attemptsMade: nat, max: nat, cached: Option<Job>, calm: bool)
      returns (seen: Option<Job>, goOn: bool, threw: bool)
      requires Valid() && Enabled(st, Begin(w, e, id, attemptsMade, max))
      requires calm ==> Present(st, e, id)
      modifies this
      ensures Valid() && old(steps) <= steps && Latest(st, w) && !(goOn && threw)
      ensures st.attempts[w] == Attempt(e, id, attemptsMade + 1, max,
                                        if threw then Thrown else if goOn then LookingUp else Returned)
      ensures calm ==> Present(st, e, id) && !threw && ViewOf(st, e) == old(ViewOf(st, e))
      ensures calm ==> Saw(env, steps, |old(steps)|, id, cached, seen) && goOn == seen.value.enabled
    {
      Start(w, e, id, attemptsMade, max);
      Await(w, calm);
      seen, goOn, threw := SeeJob(w, cached, calm);
      if calm {
        SawNow(env, steps, |old(steps)|, id, cached, seen);
      }
    }

    /** The reads at the start of an attempt: the job must be seen enabled and the row must exist. */
    method Admit(w: nat, e: ExecId, id: JobId, attemptsMade: nat, max: nat, cached: Option<Job>, calm: bool)
      returns (seen: Option<Job>, admitted: bool, threw: bool)
      requires Valid() && Enabled(st, Begin(w, e, id, attemptsMade, max))
      requires calm ==> Present(st, e, id)
      modifies this
      ensures Valid() && old(steps) <= steps && Latest(st, w)
      ensures st.attempts[w] == Attempt(e, id, attemptsMade + 1, max, st.attempts[w].pc)
      ensures if admitted then st.attempts[w].pc.Marking? else st.attempts[w].pc == if threw then Thrown else Returned
      ensures calm && admitted ==> st.attempts[w].pc.started == StartOf(st, e)
      ensures calm ==> Present(st, e, id) && !threw && ViewOf(st, e) == old(ViewOf(st, e))
      ensures calm ==> Saw(env, steps, |old(steps)|, id, cached, seen) && admitted == seen.value.enabled
    {
      seen, admitted, threw := ReadJob(w, e, id, attemptsMade, max, cached, calm);
      ghost var read := steps;
      if !admitted { return; }
      Await(w, calm);
      admitted, threw := FindExecution(w, calm);
      if admitted {
        Await(w, calm);
      }
      if calm {
        SawStays(env, read, steps, |old(steps)|, id, cached, seen);
      }
    }

    /** Marks the row as running and announces it; then the callback is due. */
    method Announce(w: nat, calm: bool) returns (threw: bool)
      requires Valid() && Latest(st, w) && st.attempts[w].pc.Marking?
      requires calm ==> Present(st, st.attempts[w].exec, st.attempts[w].jobId)
      requires calm ==> st.attempts[w].pc.started == StartOf(st, st.attempts[w].exec)
      modifies this
      ensures Valid() && old(steps) <= steps && Latest(st, w) && (calm ==> !threw)
      ensures st.attempts[w] == old(st.attempts[w]).(pc := if threw then Thrown else Calling)
      ensures calm ==> Present(st, st.attempts[w].exec, st.attempts[w].jobId)
      ensures calm ==> var v, v' := old(ViewOf(st, st.attempts[w].exec)), ViewOf(st, st.attempts[w].exec);
        v' == v.(row := v'.row) && KeepsStart(v, v') && v'.row.value.attemptNumber == st.attempts[w].number
    {
      threw := MarkRunning(w, calm);
      if threw { return; }
      Await(w, calm);
      threw := PublishEvent(w, calm);
      if threw { return; }
      Await(w, calm);
    }

    /** An admitted attempt: the row is marked, the callback made, its result recorded. */
    method Perform(w: nat, result: CallbackResult, calm: bool) returns (threw: bool)
      requires Valid() && Latest(st, w) && st.attempts[w].pc.Marking?
      requires calm ==> Present(st, st.attempts[w].exec, st.attempts[w].jobId)
      requires calm ==> st.attempts[w].pc.started == StartOf(st, st.attempts[w].exec)
      modifies this
      ensures Valid() && old(steps) <= steps && Latest(st, w)
      ensures st.attempts[w] == old(st.attempts[w]).(pc := if threw then Thrown else Returned)
      ensures calm ==> Present(st, st.attempts[w].exec, st.attempts[w].jobId)
      ensures calm ==> var a := old(st.attempts[w]); var verdict := Verdict(a, result);
        && Attempted(old(ViewOf(st, st.attempts[w].exec)), ViewOf(st, a.exec), a.number, verdict, result)
        && (threw <==> verdict == FAILED)
      ensures !threw ==> Counts(st.log, |old(st.log)|, old(st.attempts[w]), result, w)
    {
      threw := Announce(w, calm);
      if threw { return; }
      InvokeCallback(w, result);
      Await(w, calm);
      LogsGrow(env, old(steps), steps);
      threw := Conclude(w, calm);
    }

    /** One attempt. In a calm run it makes exactly one callback if the job is seen enabled, and none otherwise. */
    method ProcessExecutionJob(w: nat, e: ExecId, id: JobId, attemptsMade: nat, max: nat,
                               cached: Option<Job>, result: CallbackResult, calm: bool)
      returns (seen: Option<Job>, threw: bool)
      requires Valid() && Enabled(st, Begin(w, e, id, attemptsMade, max))
      requires calm ==> Present(st, e, id)
      modifies this
      ensures Valid() && old(steps) <= steps && Latest(st, w)
      ensures st.attempts[w] == Attempt(e, id, attemptsMade + 1, max, if threw then Thrown else Returned)
      ensures calm ==> Present(st, e, id) && Saw(env, steps, |old(steps)|, id, cached, seen)
      ensures calm && !seen.value.enabled ==> !threw && ViewOf(st, e) == old(ViewOf(st, e))
      ensures calm && seen.value.enabled ==>
        var verdict := Verdict(Attempt(e, id, attemptsMade + 1, max, Calling), result);
        && Attempted(old(ViewOf(st, e)), ViewOf(st, e), attemptsMade + 1, verdict, result)
        && (threw <==> verdict == FAILED)
      ensures calm && seen.value.enabled && !threw ==>
        Counts(st.log, |old(st.log)|, Attempt(e, id, attemptsMade + 1, max, Calling), result, w)
    {
      var admitted;
      seen, admitted, threw := Admit(w, e, id, attemptsMade, max, cached, calm);
      ghost var read := steps;
      if !admitted { return; }
      LogsGrow(env, old(steps), steps);
      threw := Perform(w, result, calm);
      if calm {
        SawStays(env, read, steps, |old(steps)|, id, cached, seen);
      }
    }

    /** An attempt number that is still free. */
    method FreshAttempt() returns (w: nat)
      ensures w !in st.attempts
    {
      var left := st.attempts.Keys;
      w := 0;
      while left != {}
        invariant forall v :: v in st.attempts && v !in left ==> v < w
        decreases left
      {
        var v :| v in left;
        left := left - {v};
        w := if v >= w then v + 1 else w;
      }
    }

    /** One more attempt after those in `seen`; `start` and `from` tell how the run began. */
    method RetryOnce(e: ExecId, id: JobId, max: nat, cached: seq<Option<Job>>, results: seq<CallbackResult>,
                     seen: seq<Option<Job>>, calm: bool, ghost start: View, ghost from: nat, ghost logged: nat)
      returns (job: Option<Job>, again: bool)
      requires Valid() && Handed(st, e, id, |seen|, max, true) && max == |cached| == |results| && from <= |steps|
      requires calm ==> Present(st, e, id) && SawAll(env, steps, from, id, cached, seen)
      requires calm ==> RetriedTo(start, ViewOf(st, e), max, seen, results)
      requires logged <= |st.log|
      modifies this
      ensures Valid() && old(steps) <= steps && Handed(st, e, id, |seen| + 1, max, again)
      ensures calm ==> job.Some? && Present(st, e, id) && SawAll(env, steps, from, id, cached, seen + [job])
      ensures calm ==> Progress(start, ViewOf(st, e), max, seen + [job], results,
                                if job.value.enabled then |seen| + 1 else |seen|, again)
      ensures old(st.log) <= st.log
      ensures calm && !again ==> EndsCounted(st, logged, e, id, max, results,
                                             if job.value.enabled then |seen| + 1 else |seen|)
    {
      var w := FreshAttempt();
      ghost var v, before := ViewOf(st, e), steps;
      var made := |seen|;
      var threw;
      job, threw := ProcessExecutionJob(w, e, id, made, max, cached[made], results[made], calm);
      again := threw && made + 1 < max;
      LogsGrow(env, before, steps);
      if calm {
        SawOneMore(env, before, steps, from, id, cached, seen, job);
        AttemptExtendsRun(start, v, ViewOf(st, e), max, seen, job, results, again);
      }
    }

    /**
      The whole life of a queue entry: BullMQ runs the processor again after each throw while attempts
      remain. `cached[i]` is what attempt i finds in the cache, `results[i]` what its callback would report,
      and `seen` lists the job as each attempt saw it. In every run, no further attempt is due at the end,
      and there were at most maxRetries + 1 callbacks and one dead letter. In a calm run, `n` callbacks are
      made: up to the first success, the first time the job is seen disabled, or the last attempt. The
      execution ends SUCCESS iff the last of them succeeded, DEAD iff all attempts were used up without
      one, with exactly one dead letter iff DEAD; and otherwise, iff the job was seen disabled, in no
      terminal state at all. A success resets the job's streak, and a dead execution counts.
     */
    method RunEntry(e: ExecId, id: JobId, config: Config, cached: seq<Option<Job>>,
                    results: seq<CallbackResult>, calm: bool)
      returns (n: nat, seen: seq<Option<Job>>)
      requires Valid() && e !in st.last
      requires |results| == |cached| == config.maxRetries + 1
      requires calm ==> Present(st, e, id)
      modifies this
      ensures Valid() && old(steps) <= steps && Finished(st, e)
      ensures |seen| <= config.maxRetries + 1
      ensures CallsFor(st.callbacks, e) <= |seen| && DeadFor(st.deadLetters, e) <= 1
      ensures calm ==> RanTo(old(ViewOf(st, e)), ViewOf(st, e), config.maxRetries + 1, seen, results, n)
      ensures calm ==> SawAll(env, steps, |old(steps)|, id, cached, seen)
      ensures calm ==> EndsCounted(st, |old(st.log)|, e, id, config.maxRetries + 1, results, n)
    {
      var options := ExecutionJobOptions(config);
      ghost var start := ViewOf(st, e);
      var again := true;
      n, seen := 0, [];
      while again
        invariant Valid() && old(steps) <= steps && |seen| <= options.attempts
        invariant Handed(st, e, id, |seen|, options.attempts, again)
        invariant calm ==> Present(st, e, id) && SawAll(env, steps, |old(steps)|, id, cached, seen)
        invariant calm ==> Progress(start, ViewOf(st, e), options.attempts, seen, results, n, again)
        invariant old(st.log) <= st.log
        invariant calm && !again ==> EndsCounted(st, |old(st.log)|, e, id, options.attempts, results, n)
        decreases options.attempts - |seen|, again
      {
        var job;
        job, again := RetryOnce(e, id, options.attempts, cached, results, seen, calm,
                                start, |old(steps)|, |old(st.log)|);
        if calm && job.value.enabled {
          n := n + 1;
        }
        seen := seen + [job];
      }
      EntryBounds(env, steps, e);
    }
  }

  /** After `made` attempts the queue is to run the entry again, or has no further attempt to make. */
  predicate Handed(s: State, e: ExecId, id: JobId, made: nat, max: nat, again: bool) {
    if again then made < max && if made == 0 then e !in s.last else e in s.last && Retries(s, e, id, made, max)
    else Finished(s, e) && s.attempts[s.last[e]].number == made
  }

  /** The increment at `mark` was followed by this attempt's disable. */
  ghost predicate Tripped(log: seq<Event>, mark: nat, w: nat, id: JobId) {
    exists k :: mark < k < |log| && log[k] == Disabled(w, id, mark)
  }

  lemma NotTripped(env: Env, s: State, counted: seq<Event>, w: nat, id: JobId)
    requires BreakerInv(env, s) && [] < counted <= s.log && Streak(counted, id) < env.breakerThreshold
    ensures !Tripped(s.log, |counted| - 1, w, id)
  {
    assert s.log[..|counted|] == counted;
    assert !Trips(env, s.log, |counted| - 1, w, id);
  }

  /** The program point reached once every pending event is published. */
  function LastPc(pc: Pc): Pc { if pc.Publishing? then LastPc(pc.after) else pc }

  /** An attempt's result was recorded, and dead-lettered once if DEAD. */
  ghost predicate Concluded(v: View, v': View, verdict: Status, result: CallbackResult) {
    && KeepsStart(v, v') && v'.calls == v.calls && Reports(v'.row.value, result)
    && v'.row.value.status == verdict && v'.row.value.attemptNumber == v.row.value.attemptNumber
    && v'.dead == v.dead + if verdict == DEAD then 1 else 0
  }

  /** One callback was made, as attempt number `number`, and its result recorded. */
  ghost predicate Attempted(v: View, v': View, number: nat, verdict: Status, result: CallbackResult) {
    && KeepsStart(v, v') && v'.calls == v.calls + 1 && Reports(v'.row.value, result)
    && v'.row.value.status == verdict && v'.row.value.attemptNumber == number
    && v'.dead == v.dead + if verdict == DEAD then 1 else 0
  }

  /** Of the tables, at most this row changed. */
  ghost predicate OnlyRow(db: Db, db': Db, e: ExecId) {
    db' == db || (e in db.execs && e in db'.execs && db' == db.(execs := db.execs[e := db'.execs[e]]))
  }

  /** Of the tables, exactly this job's row changed, to this; a failing write may have left it as it was. */
  ghost predicate JobWrite(db: Db, db': Db, id: JobId, job: Job, threw: bool) {
    (id in db.jobs && db' == db.(jobs := db.jobs[id := job])) || (threw && db' == db)
  }

  /** A success resets the job's streak, and a dead execution counts. */
  ghost predicate Counts(log: seq<Event>, from: nat, a: Attempt, result: CallbackResult, w: nat) {
    match Verdict(a, result)
    case SUCCESS => LogHas(log, from, Reset(w, a.jobId))
    case DEAD => LogHas(log, from, Counted(w, a.jobId))
    case _ => true
  }

  /** The last of `n` callbacks for the entry counted as it should. */
  ghost predicate EndsCounted(s: State, from: nat, e: ExecId, id: JobId, max: nat, results: seq<CallbackResult>,
                              n: nat) {
    n > 0 ==> n <= |results| && e in s.last
              && Counts(s.log, from, Attempt(e, id, n, max, Calling), results[n - 1], s.last[e])
  }

  ghost predicate LogHas(log: seq<Event>, from: nat, event: Event) { exists i :: from <= i < |log| && log[i] == event }

  lemma {:induction false} LogsGrow(env: Env, steps: seq<Step>, more: seq<Step>)
    requires steps <= more
    ensures Run(env, INIT, steps).log <= Run(env, INIT, more).log
  {
    if steps == more {
    } else {
      LogsGrow(env, steps, more[..|more| - 1]);
      LogGrows(env, Run(env, INIT, more[..|more| - 1]), more[|more| - 1]);
    }
  }

  /** The row became RUNNING with the attempt's number, and keeps the start time that the attempt had read. */
  ghost predicate Marked(v: View, v': View, a: Attempt) {
    && a.pc.Marking? && v.row.Some? && v'.row.Some? && v' == v.(row := v'.row)
    && var row := v'.row.value;
       && row.startedAt.Some? && (a.pc.started.Some? ==> row.startedAt == a.pc.started)
       && row == v.row.value.(status := RUNNING, attemptNumber := a.number,
                              startedAt := row.startedAt, finishedAt := None)
  }

  /** The row got this status, and reports this result. */
  ghost predicate Recorded(v: View, v': View, verdict: Status, result: CallbackResult) {
    && KeepsStart(v, v') && v' == v.(row := v'.row)
    && var row := v'.row.value;
       && row.finishedAt.Some?
       && row == v.row.value.(status := verdict, finishedAt := row.finishedAt, responseCode := result.statusCode,
                              durationMs := Some(result.durationMs),
                              errorMessage := if result.ok then None else Some(result.error))
  }

  /** The queue has no further attempt to make. */
  predicate Finished(s: State, e: ExecId) {
    e in s.last && s.last[e] in s.attempts && s.attempts[s.last[e]].exec == e
    && var a := s.attempts[s.last[e]]; a.pc.Returned? || (a.pc.Thrown? && a.number >= a.max)
  }

  /** After step `from` the job's row was this one. */
  ghost predicate HadRow(env: Env, steps: seq<Step>, from: nat, id: JobId, job: Job) {
    exists k :: from <= k <= |steps| && HasRow(Run(env, INIT, steps[..k]), id, job)
  }

  predicate HasRow(s: State, id: JobId, job: Job) { id in s.db.jobs && s.db.jobs[id] == job }

  /** An attempt saw the cached job, or on a miss the row. */
  ghost predicate Saw(env: Env, steps: seq<Step>, from: nat, id: JobId, cached: Option<Job>, seen: Option<Job>) {
    seen.Some? && if cached.Some? then seen == cached else HadRow(env, steps, from, id, seen.value)
  }

  lemma SawNow(env: Env, steps: seq<Step>, from: nat, id: JobId, cached: Option<Job>, seen: Option<Job>)
    requires from <= |steps| && seen.Some?
    requires if cached.Some? then seen == cached else HasRow(Run(env, INIT, steps), id, seen.value)
    ensures Saw(env, steps, from, id, cached, seen)
  {
    assert steps[..|steps|] == steps;
  }

  lemma SawStays(env: Env, steps: seq<Step>, more: seq<Step>, from: nat, id: JobId,
                 cached: Option<Job>, seen: Option<Job>)
    requires Saw(env, steps, from, id, cached, seen) && steps <= more
    ensures Saw(env, more, from, id, cached, seen)
  {
    if cached.None? {
      var k :| from <= k <= |steps| && HasRow(Run(env, INIT, steps[..k]), id, seen.value);
      assert steps[..k] == more[..k];
    }
  }

  ghost predicate SawAll(env: Env, steps: seq<Step>, from: nat, id: JobId,
                         cached: seq<Option<Job>>, seen: seq<Option<Job>>) {
    |seen| <= |cached| && forall i :: 0 <= i < |seen| ==> Saw(env, steps, from, id, cached[i], seen[i])
  }

  lemma SawOneMore(env: Env, steps: seq<Step>, more: seq<Step>, from: nat, id: JobId,
                   cached: seq<Option<Job>>, seen: seq<Option<Job>>, job: Option<Job>)
    requires SawAll(env, steps, from, id, cached, seen) && from <= |steps| && steps <= more && |seen| < |cached|
    requires Saw(env, more, |steps|, id, cached[|seen|], job)
    ensures SawAll(env, more, from, id, cached, seen + [job])
  {
    forall i | 0 <= i < |seen| ensures Saw(env, more, from, id, cached[i], seen[i]) {
      SawStays(env, steps, more, from, id, cached[i], seen[i]);
    }
  }

  predicate SeenEnabled(job: Option<Job>) { job.Some? && job.value.enabled }

  /** Every attempt so far called back and failed, and attempts are left. */
  ghost predicate RetriedTo(v: View, v': View, max: nat, seen: seq<Option<Job>>, results: seq<CallbackResult>) {
    var n := |seen|;
    && n < max == |results|
    && (forall i :: 0 <= i < n ==> SeenEnabled(seen[i]) && !results[i].ok)
    && v'.calls == v.calls + n && v'.dead == v.dead && KeepsStart(v, v')
    && (n == 0 ==> v' == v)
    && (n > 0 ==> var row := v'.row.value;
                  row.status == FAILED && row.attemptNumber == n && Reports(row, results[n - 1]))
  }

  /** The run is over after `n` callbacks. */
  ghost predicate RanTo(v: View, v': View, max: nat, seen: seq<Option<Job>>, results: seq<CallbackResult>, n: nat) {
    && n <= |seen| <= max == |results| && KeepsStart(v, v')
    && (forall i :: 0 <= i < n ==> SeenEnabled(seen[i]))
    && (forall i :: 0 <= i < n - 1 ==> !results[i].ok)
    && v'.calls == v.calls + n
    && (n > 0 ==> v'.row.value.attemptNumber == n && Reports(v'.row.value, results[n - 1]))
    && var row := v'.row.value;
       if n > 0 && results[n - 1].ok then |seen| == n && row.status == SUCCESS && v'.dead == v.dead
       else if n == max then n > 0 && row.status == DEAD && v'.dead == v.dead + 1
       else
         && |seen| == n + 1 && !SeenEnabled(seen[n]) && v'.dead == v.dead
         && (if n == 0 then v' == v else row.status == FAILED)
  }

  ghost predicate Progress(v: View, v': View, max: nat, seen: seq<Option<Job>>, results: seq<CallbackResult>,
                           n: nat, again: bool) {
    if again then n == |seen| && RetriedTo(v, v', max, seen, results) else RanTo(v, v', max, seen, results, n)
  }

  /** One more attempt continues a run of failures, or ends it. */
  lemma AttemptExtendsRun(v0: View, v: View, v': View, max: nat, seen: seq<Option<Job>>, job: Option<Job>,
                          results: seq<CallbackResult>, again: bool)
    requires RetriedTo(v0, v, max, seen, results) && job.Some?
    requires var n := |seen|; var verdict := if results[n].ok then SUCCESS else if n + 1 >= max then DEAD else FAILED;
      if job.value.enabled then Attempted(v, v', n + 1, verdict, results[n]) && again == (verdict == FAILED)
      else v' == v && !again
    ensures Progress(v0, v', max, seen + [job], results, if job.value.enabled then |seen| + 1 else |seen|, again)
  {
  }
}
