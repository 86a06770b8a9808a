/** Runs from the initial state in which the circuit breaker and the retry rule surprise. */
module WorkerWitnesses {
  import opened Domain
  import opened Worker
  import opened WorkerBreaker
  import opened WorkerRerun

  const ID := "job"
  const BAD := CallbackResult(false, None, "", 0)
  const GOOD := CallbackResult(true, Some(200), "", 0)

  function JobWith(enabled: bool, count: nat): Job {
    Job(ID, Config("", "", "", "", 0, 0, 0, false), enabled, count, 0)
  }

  lemma Extend(env: Env, s: State, steps: seq<Step>, step: Step) returns (more: seq<Step>)
    ensures more == steps + [step] && Run(env, s, more) == Next(env, Run(env, s, steps), step)
  {
    more := steps + [step];
    RunAppend(env, s, steps, step);
  }

  /** The job exists, and every entry the queue has run is in the table's past. */
  ghost predicate Ready(s: State, w: nat) {
    && ID in s.db.jobs && s.db.jobs[ID].id == ID
    && (forall e :: e in s.last ==> e < s.db.nextExec) && (forall v :: v in s.attempts ==> v < w)
  }

  /** In `m` attempt `w` on a new execution is at `pc`, and nothing else about attempts and jobs changed. */
  ghost predicate At(s: State, m: State, w: nat, max: nat, pc: Pc) {
    var e := s.db.nextExec;
    && m.attempts == s.attempts[w := Attempt(e, ID, 1, max, pc)] && m.last == s.last[e := w] && m.log == s.log
    && m.db.jobs == s.db.jobs && m.db.nextExec == e + 1 && e in m.db.execs
  }

  /** A new execution is created, and its first attempt begins. */
  lemma Begun(env: Env, s: State, w: nat, max: nat) returns (steps: seq<Step>)
    requires Ready(s, w)
    ensures At(s, Run(env, s, steps), w, max, Reading)
  {
    steps := Extend(env, s, [], NewExecution(ID, Manual, 0));
    assert Run(env, s, []) == s;
    steps := Extend(env, s, steps, Begin(w, s.db.nextExec, ID, 0, max));
  }

  /** The attempt finds the job enabled and the execution there, and marks it. */
  lemma Announced(env: Env, s: State, w: nat, max: nat) returns (steps: seq<Step>)
    requires Ready(s, w)
    ensures At(s, Run(env, s, steps), w, max, Publishing(Calling))
  {
    steps := Begun(env, s, w, max);
    steps := Extend(env, s, steps, Read(w, Some(JobWith(true, 0))));
    assert At(s, Run(env, s, steps), w, max, LookingUp);
    steps := Extend(env, s, steps, LookUp(w));
    assert Run(env, s, steps).attempts[w].pc.Marking?;
    steps := Extend(env, s, steps, Mark(w, 0, Done));
  }

  /** The attempt calls back. */
  lemma Called(env: Env, s: State, w: nat, max: nat, result: CallbackResult) returns (steps: seq<Step>)
    requires Ready(s, w)
    ensures At(s, Run(env, s, steps), w, max, Recording(result))
  {
    steps := Announced(env, s, w, max);
    steps := Extend(env, s, steps, Publish(w, Done));
    assert At(s, Run(env, s, steps), w, max, Calling);
    steps := Extend(env, s, steps, Call(w, result));
  }

  /** The attempt records the callback's result. */
  lemma Recorded(env: Env, s: State, w: nat, max: nat, result: CallbackResult) returns (steps: seq<Step>)
    requires Ready(s, w)
    ensures var m := Run(env, s, steps); var e := s.db.nextExec; var a := Attempt(e, ID, 1, max, Calling);
      At(s, m, w, max, AfterRecord(a, result)) && m.db.execs[e].status == Verdict(a, result)
  {
    steps := Called(env, s, w, max, result);
    steps := Extend(env, s, steps, Record(w, 0, Done));
  }

  /** An execution without retries failed, and its attempt is about to count it. */
  lemma ReadyToCount(env: Env, s: State, w: nat) returns (steps: seq<Step>)
    requires Ready(s, w)
    ensures At(s, Run(env, s, steps), w, 1, Counting)
  {
    steps := Recorded(env, s, w, 1, BAD);
    steps := Extend(env, s, steps, Bury(w, Done));
  }

  /** One more dead execution: it is counted, and disables the job from the threshold on. */
  lemma OneMoreDead(env: Env, s: State, w: nat) returns (steps: seq<Step>)
    requires Ready(s, w)
    ensures var m := Run(env, s, steps); var count := s.db.jobs[ID].consecutiveDeadCount + 1;
      && Ready(m, w + 1) && m.db.jobs[ID].consecutiveDeadCount == count
      && (count >= env.breakerThreshold ==> !m.db.jobs[ID].enabled)
      && (count < env.breakerThreshold ==> m.db.jobs[ID].enabled == s.db.jobs[ID].enabled)
  {
    steps := ReadyToCount(env, s, w);
    steps := Extend(env, s, steps, Count(w, Done));
    steps := Extend(env, s, steps, Disable(w, Done));
  }

  /** The job exists and `n` of its executions are dead. */
  lemma {:induction false} DeadRun(env: Env, n: nat) returns (steps: seq<Step>)
    ensures var s := Run(env, INIT, steps);
      && Ready(s, n) && s.db.jobs[ID].consecutiveDeadCount == n
      && (s.db.jobs[ID].enabled <==> n == 0 || n < env.breakerThreshold)
  {
    if n == 0 {
      steps := Extend(env, INIT, [], Worker.CreateJob(JobWith(true, 0)));
    } else {
      steps := DeadRun(env, n - 1);
      var more := OneMoreDead(env, Run(env, INIT, steps), n - 1);
      RunConcat(env, INIT, steps, more);
      steps := steps + more;
    }
  }

  /** With the streak one short of the threshold, one attempt is about to count, and another to reset. */
  lemma Racing(env: Env) returns (steps: seq<Step>, w: nat)
    ensures var s := Run(env, INIT, steps);
      && ID in s.db.jobs && s.db.jobs[ID].consecutiveDeadCount + 1 >= env.breakerThreshold
      && w in s.attempts && s.attempts[w].jobId == ID && s.attempts[w].pc == Counting
      && w + 1 in s.attempts && s.attempts[w + 1].jobId == ID && s.attempts[w + 1].pc == Resetting
  {
    w := if env.breakerThreshold == 0 then 0 else env.breakerThreshold - 1;
    steps := DeadRun(env, w);
    var s := Run(env, INIT, steps);
    var more := ReadyToCount(env, s, w);
    RunConcat(env, INIT, steps, more);
    steps := steps + more;
    StillReady(s, Run(env, INIT, steps), w, 1, Counting);
    more := Recorded(env, Run(env, INIT, steps), w + 1, 1, GOOD);
    RunConcat(env, INIT, steps, more);
    steps := steps + more;
  }

  lemma StillReady(s: State, m: State, w: nat, max: nat, pc: Pc)
    requires Ready(s, w) && At(s, m, w, max, pc)
    ensures Ready(m, w + 1)
  {
  }

  /** One attempt is about to disable the job, and another to reset its streak. */
  lemma Straddling(env: Env) returns (steps: seq<Step>, w: nat)
    ensures var s := Run(env, INIT, steps);
      && ID in s.db.jobs && w in s.attempts && w + 1 in s.attempts
      && s.attempts[w].jobId == ID && s.attempts[w].pc.Disabling?
      && s.attempts[w + 1].jobId == ID && s.attempts[w + 1].pc == Resetting
  {
    steps, w := Racing(env);
    steps := Extend(env, INIT, steps, Count(w, Done));
  }

  /** A success came between an attempt's increment and its disable: the job is disabled with counter 0. */
  lemma StraddledRun(env: Env) returns (steps: seq<Step>)
    ensures var s := Run(env, INIT, steps);
      ID in s.db.jobs && !s.db.jobs[ID].enabled && s.db.jobs[ID].consecutiveDeadCount == 0
  {
    var w;
    steps, w := Straddling(env);
    DisableAfterReset(env, Run(env, INIT, steps), w, w + 1);
    steps := Extend(env, INIT, steps, ResetStreak(w + 1, Done));
    steps := Extend(env, INIT, steps, Disable(w, Done));
  }

  /** The job was disabled and enabled again; then one more dead execution disables it. */
  lemma ReenabledRun(env: Env) returns (before: seq<Step>, after: seq<Step>)
    ensures var s, m := Run(env, INIT, before), Run(env, INIT, after);
      && before <= after && ID in s.db.jobs && s.db.jobs[ID].enabled && ID in m.db.jobs && !m.db.jobs[ID].enabled
      && m.db.jobs[ID].consecutiveDeadCount == s.db.jobs[ID].consecutiveDeadCount + 1
  {
    before := DeadRun(env, env.breakerThreshold + 1);
    var n := env.breakerThreshold + 1;
    var job := Run(env, INIT, before).db.jobs[ID];
    assert !job.enabled;
    before := Extend(env, INIT, before, EditJob(job.(enabled := true)));
    var more := OneMoreDead(env, Run(env, INIT, before), n);
    RunConcat(env, INIT, before, more);
    after := before + more;
  }

  /** An execution succeeded, and can be run again. */
  lemma RerunRun(env: Env) returns (steps: seq<Step>, e: ExecId)
    ensures var s := Run(env, INIT, steps);
      e in s.db.execs && s.db.execs[e].status == SUCCESS && Reopens(env, s, e)
  {
    steps := DeadRun(env, 0);
    var s := Run(env, INIT, steps);
    e := s.db.nextExec;
    var more := Recorded(env, s, 0, 2, GOOD);
    RunConcat(env, INIT, steps, more);
    steps := steps + more;
    SuccessRunsAgainIff(env, steps, e);
  }
}
