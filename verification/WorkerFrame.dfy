/** What workers leave alone, over all runs: a job's configuration, and who an execution belongs to. */
module WorkerFrame {
  import opened Domain
  import opened Database
  import opened Worker

  /** An attempt's step touches at most the streak and the switch of a job, and only switches it off. */
  predicate JobKept(before: Job, after: Job) {
    && after == before.(enabled := after.enabled, consecutiveDeadCount := after.consecutiveDeadCount)
    && (after.enabled ==> before.enabled)
  }

  /** A row keeps its job, its slot, its trigger and its creation time. */
  predicate RowKept(before: Execution, after: Execution) {
    && after.jobId == before.jobId && after.scheduledFor == before.scheduledFor
    && after.triggeredAt == before.triggeredAt && after.triggerSource == before.triggerSource
  }

  lemma RowWritesKeep(env: Env, s: State, step: Step)
    requires Enabled(s, step) && (step.Mark? || step.Record?)
    ensures var s' := Next(env, s, step); s'.db.jobs == s.db.jobs
    ensures var s' := Next(env, s, step);
      s'.db.execs.Keys == s.db.execs.Keys && forall e :: e in s.db.execs ==> RowKept(s.db.execs[e], s'.db.execs[e])
  {
  }

  lemma JobWritesKeep(env: Env, s: State, step: Step)
    requires Enabled(s, step) && (step.ResetStreak? || step.Count? || step.Disable?)
    ensures var s' := Next(env, s, step); s'.db.execs == s.db.execs
    ensures var s' := Next(env, s, step);
      s'.db.jobs.Keys == s.db.jobs.Keys && forall id :: id in s.db.jobs ==> JobKept(s.db.jobs[id], s'.db.jobs[id])
  {
  }

  /** The steps of attempts, in every state. */
  lemma AttemptsKeep(env: Env, s: State, step: Step)
    requires Enabled(s, step) && !Outside(step)
    ensures var s' := Next(env, s, step);
      && s'.db.jobs.Keys == s.db.jobs.Keys && (forall id :: id in s.db.jobs ==> JobKept(s.db.jobs[id], s'.db.jobs[id]))
      && s'.db.execs.Keys == s.db.execs.Keys && (forall e :: e in s.db.execs ==> RowKept(s.db.execs[e], s'.db.execs[e]))
  {
    if step.Mark? || step.Record? {
      RowWritesKeep(env, s, step);
    } else if step.ResetStreak? || step.Count? || step.Disable? {
      JobWritesKeep(env, s, step);
    } else {
      assert Next(env, s, step).db == s.db;
    }
  }

  /** The only step that switches a job on is an edit of that job. */
  lemma OnlyEditsEnable(env: Env, s: State, step: Step, id: JobId)
    requires Valid(s.db) && id in s.db.jobs && !s.db.jobs[id].enabled
    ensures var s' := Next(env, s, step);
      id in s'.db.jobs && s'.db.jobs[id].enabled ==> step.EditJob? && step.job.id == id && step.job.enabled
  {
    if Enabled(s, step) && !Outside(step) {
      AttemptsKeep(env, s, step);
      assert JobKept(s.db.jobs[id], Next(env, s, step).db.jobs[id]);
    }
  }

  /** A disabled job stays disabled until an edit enables it, whatever workers do and however executions end. */
  lemma {:induction false} StaysDisabled(env: Env, s: State, more: seq<Step>, id: JobId)
    requires RecordInv(s) && id in s.db.jobs && !s.db.jobs[id].enabled
    requires forall k :: 0 <= k < |more| && more[k].EditJob? && more[k].job.id == id ==> !more[k].job.enabled
    ensures var m := Run(env, s, more);
      && RecordInv(m) && id in m.db.usedIds && (id in m.db.jobs ==> !m.db.jobs[id].enabled)
  {
    if more != [] {
      var before, m := more[..|more| - 1], Run(env, s, more[..|more| - 1]);
      assert forall k :: 0 <= k < |before| ==> before[k] == more[k];
      StaysDisabled(env, s, before, id);
      NextKeepsRecordInv(env, m, more[|more| - 1]);
      if id in m.db.jobs {
        OnlyEditsEnable(env, m, more[|more| - 1], id);
      }
      GoneStaysGone(env, m, more[|more| - 1], id);
    }
  }

  lemma GoneStaysGone(env: Env, s: State, step: Step, id: JobId)
    requires Valid(s.db) && id in s.db.usedIds
    ensures var s' := Next(env, s, step); id in s'.db.usedIds && (id !in s.db.jobs ==> id !in s'.db.jobs)
  {
    if Enabled(s, step) && !Outside(step) {
      AttemptsKeep(env, s, step);
      IdsKept(env, s, step);
    }
  }

  lemma IdsKept(env: Env, s: State, step: Step)
    requires Enabled(s, step) && !Outside(step)
    ensures Next(env, s, step).db.usedIds == s.db.usedIds
  {
  }

  /** A row that is still there belongs to the same job and slot as ever. */
  lemma {:induction false} RowsKeepIdentity(env: Env, s: State, more: seq<Step>, e: ExecId)
    requires RecordInv(s) && e in s.db.execs
    ensures var m := Run(env, s, more);
      && RecordInv(m) && e < m.db.nextExec && (e in m.db.execs ==> RowKept(s.db.execs[e], m.db.execs[e]))
  {
    if more != [] {
      var m, step := Run(env, s, more[..|more| - 1]), more[|more| - 1];
      RowsKeepIdentity(env, s, more[..|more| - 1], e);
      NextKeepsRecordInv(env, m, step);
      RowStepKept(env, m, step, e);
    }
  }

  lemma RowStepKept(env: Env, s: State, step: Step, e: ExecId)
    requires RecordInv(s) && e < s.db.nextExec
    ensures var s' := Next(env, s, step);
      e < s'.db.nextExec && (e in s'.db.execs ==> e in s.db.execs && RowKept(s.db.execs[e], s'.db.execs[e]))
  {
    if Enabled(s, step) && !Outside(step) {
      AttemptsKeep(env, s, step);
      AttemptIsRowStep(env, s, step);
    }
  }
}
