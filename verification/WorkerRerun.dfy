/** When an execution that succeeded is run again: exactly if its attempt throws afterwards and attempts remain. */
module WorkerRerun {
  import opened Domain
  import opened Worker
  import opened WorkerQueue

  /** Between marking its row as running and recording the result. */
  predicate Active(pc: Pc) { Announcing(pc) || pc.Recording? }

  /** The latest attempt on `e`, in states where there is one. */
  function LastOf(s: State, e: ExecId): Attempt
    requires e in s.last && s.last[e] in s.attempts
  {
    s.attempts[s.last[e]]
  }

  ghost predicate RunningInv(s: State) {
    && (forall e :: e in s.last && s.last[e] in s.attempts && Active(LastOf(s, e).pc) && e in s.db.execs ==>
          s.db.execs[e].status == RUNNING)
    && (forall e :: e in s.db.execs && s.db.execs[e].status != PENDING ==> e in s.last)
  }

  ghost predicate Inv(s: State) { RecordInv(s) && QueueInv(s) && RunningInv(s) }

  /** Which rows a step writes. */
  lemma RowsWritten(env: Env, s: State, step: Step)
    requires Enabled(s, step) && !Outside(step) && Publishes(s.attempts[step.w].pc)
    ensures var s' := Next(env, s, step); var a := s.attempts[step.w]; var pc := s'.attempts[step.w].pc;
      && (!step.Mark? && !step.Record? ==> s'.db.execs == s.db.execs && s'.db.nextExec == s.db.nextExec)
      && (step.Mark? ==> Fresh(a.pc) && (Active(pc) ==> a.exec in s'.db.execs && s'.db.execs[a.exec].status == RUNNING))
      && (step.Record? ==> a.pc.Recording? && !Active(pc))
      && (Active(pc) && !step.Mark? ==> Active(a.pc))
  {
    AttemptMoves(env, s, step);
    WindsDown();
  }

  lemma AttemptKeepsRunning(env: Env, s: State, step: Step)
    requires Inv(s) && Enabled(s, step) && !Outside(step)
    ensures RunningInv(Next(env, s, step))
  {
    AttemptMoves(env, s, step);
    AttemptIsRowStep(env, s, step);
    assert Superseded(s, step.w);
    assert LastOk(s, s.attempts[step.w].exec);
    RowsWritten(env, s, step);
    MoveKeepsRunning(s, Next(env, s, step), step.w);
  }

  lemma MoveKeepsRunning(s: State, s': State, w: nat)
    requires RunningInv(s) && QueueInv(s) && Moves(s, s', w) && RowStep(s, s', w)
    requires var e := s.attempts[w].exec;
      Active(s'.attempts[w].pc) && e in s'.db.execs ==>
        s'.db.execs[e].status == RUNNING || (Active(s.attempts[w].pc) && s'.db.execs == s.db.execs)
    ensures RunningInv(s')
  {
    assert Superseded(s, w);
    forall e | e in s'.last && s'.last[e] in s'.attempts && Active(LastOf(s', e).pc) && e in s'.db.execs
      ensures s'.db.execs[e].status == RUNNING
    {
      assert LastOk(s, e);
    }
  }

  lemma OutsideKeepsRunning(env: Env, s: State, step: Step)
    requires Inv(s) && Enabled(s, step) && Outside(step)
    ensures RunningInv(Next(env, s, step))
  {
    var s' := Next(env, s, step);
    forall e | e in s'.last && s'.last[e] in s'.attempts && Active(LastOf(s', e).pc) && e in s'.db.execs
      ensures s'.db.execs[e].status == RUNNING
    {
      assert LastOk(s, e);
      assert s.last[e] == s'.last[e] && Underway(LastOf(s, e).pc);
    }
  }

  lemma NextKeepsInv(env: Env, s: State, step: Step)
    requires Inv(s)
    ensures Inv(Next(env, s, step))
  {
    NextKeepsRecordInv(env, s, step);
    NextKeepsQueue(env, s, step);
    if Enabled(s, step) {
      if Outside(step) {
        OutsideKeepsRunning(env, s, step);
      } else {
        AttemptKeepsRunning(env, s, step);
      }
    }
  }

  lemma {:induction false} RunKeepsInv(env: Env, s: State, steps: seq<Step>)
    requires Inv(s)
    ensures Inv(Run(env, s, steps))
  {
    if steps != [] {
      RunKeepsInv(env, s, steps[..|steps| - 1]);
      NextKeepsInv(env, Run(env, s, steps[..|steps| - 1]), steps[|steps| - 1]);
    }
  }

  // ---------- a further attempt needs a throw ----------

  /** Attempt `w` is still the latest on `e`, or threw with attempts remaining. */
  ghost predicate OnlyAfterThrow(s: State, m: State, e: ExecId, w: nat)
    requires w in s.attempts
  {
    && w in m.attempts && e in m.last && m.attempts[w] == s.attempts[w].(pc := m.attempts[w].pc)
    && (m.last[e] != w ==> m.attempts[w].pc.Thrown? && s.attempts[w].number < s.attempts[w].max)
  }

  lemma ThrowStep(env: Env, s: State, m: State, e: ExecId, w: nat, step: Step)
    requires QueueInv(m) && w in s.attempts && s.attempts[w].exec == e && OnlyAfterThrow(s, m, e, w)
    ensures OnlyAfterThrow(s, Next(env, m, step), e, w)
  {
    if Enabled(m, step) && !Outside(step) {
      AttemptMoves(env, m, step);
    }
  }

  lemma {:induction false} ThrowRun(env: Env, s: State, more: seq<Step>, e: ExecId, w: nat)
    requires Inv(s) && e in s.last && s.last[e] == w && w in s.attempts && s.attempts[w].exec == e
    ensures OnlyAfterThrow(s, Run(env, s, more), e, w)
  {
    if more != [] {
      ThrowRun(env, s, more[..|more| - 1], e, w);
      RunKeepsInv(env, s, more[..|more| - 1]);
      ThrowStep(env, s, Run(env, s, more[..|more| - 1]), e, w, more[|more| - 1]);
    }
  }

  /** A further attempt on `e` after `w` has begun, or the queue may begin it now. */
  ghost predicate RunsOn(m: State, e: ExecId, w: nat) {
    e in m.last && (m.last[e] != w || exists jobId, made, max :: Retries(m, e, jobId, made, max))
  }

  /** In every continuation of every reachable state, whatever the execution's status: a further attempt follows
      attempt `w` iff `w` threw and attempts remained. */
  lemma RetriedIff(env: Env, steps: seq<Step>, more: seq<Step>, e: ExecId)
    requires e in Run(env, INIT, steps).last
    ensures var s := Run(env, INIT, steps); var m := Run(env, s, more); var w := s.last[e];
      w in s.attempts && w in m.attempts
      && (RunsOn(m, e, w) <==> m.attempts[w].pc.Thrown? && s.attempts[w].number < s.attempts[w].max)
  {
    var s := Run(env, INIT, steps);
    RunKeepsInv(env, INIT, steps);
    assert LastOk(s, e);
    ThrowRun(env, s, more, e, s.last[e]);
    var m, w := Run(env, s, more), s.last[e];
    if m.last[e] == w && m.attempts[w].pc.Thrown? && s.attempts[w].number < s.attempts[w].max {
      assert Retries(m, e, m.attempts[w].jobId, m.attempts[w].number, m.attempts[w].max);
    }
  }

  // ---------- when a success is undone ----------

  /** The execution can be marked as running again in some continuation. */
  ghost predicate Reopens(env: Env, s: State, e: ExecId) {
    exists more :: Reopened(Run(env, s, more), e)
  }

  predicate Reopened(m: State, e: ExecId) { e in m.db.execs && m.db.execs[e].status == RUNNING }

  /** The latest attempt is a new one that has not written the row yet, or it can still throw, or threw, with
      attempts remaining. */
  predicate MayRerun(a: Attempt) { Fresh(a.pc) || (a.number < a.max && !a.pc.Returned? && !a.pc.Gone?) }

  /** The row is gone or says SUCCESS, and no attempt will write it any more. */
  ghost predicate Settled(s: State, e: ExecId) {
    && e < s.db.nextExec && e in s.last && s.last[e] in s.attempts
    && !MayRerun(LastOf(s, e)) && !Active(LastOf(s, e).pc)
    && (e in s.db.execs ==> s.db.execs[e].status == SUCCESS)
  }

  lemma SettledStep(env: Env, s: State, e: ExecId, step: Step)
    requires Inv(s) && Settled(s, e)
    ensures Settled(Next(env, s, step), e)
  {
    assert LastOk(s, e);
    if Enabled(s, step) && !Outside(step) {
      var w := step.w;
      assert Superseded(s, w);
      AttemptMoves(env, s, step);
      AttemptIsRowStep(env, s, step);
      if s.attempts[w].exec == e {
        RowsWritten(env, s, step);
        NeverFreshAgain(env, s, step);
      }
    }
  }

  lemma NeverFreshAgain(env: Env, s: State, step: Step)
    requires Enabled(s, step) && !Outside(step) && !Fresh(s.attempts[step.w].pc) && Publishes(s.attempts[step.w].pc)
    ensures var s' := Next(env, s, step); step.w in s'.attempts && !Fresh(s'.attempts[step.w].pc)
  {
    StepGoes(env, s, step);
  }

  lemma {:induction false} SettledRun(env: Env, s: State, e: ExecId, more: seq<Step>)
    requires Inv(s) && Settled(s, e)
    ensures Settled(Run(env, s, more), e)
  {
    if more != [] {
      SettledRun(env, s, e, more[..|more| - 1]);
      RunKeepsInv(env, s, more[..|more| - 1]);
      SettledStep(env, Run(env, s, more[..|more| - 1]), e, more[|more| - 1]);
    }
  }

  lemma RunAppend(env: Env, s: State, steps: seq<Step>, step: Step)
    ensures Run(env, s, steps + [step]) == Next(env, Run(env, s, steps), step)
  {
  }

  lemma {:induction false} RunConcat(env: Env, s: State, a: seq<Step>, b: seq<Step>)
    ensures Run(env, s, a + b) == Run(env, Run(env, s, a), b)
  {
    if b == [] {
      assert a + b == a;
    } else {
      RunConcat(env, s, a, b[..|b| - 1]);
      assert (a + b)[..|a + b| - 1] == a + b[..|b| - 1];
    }
  }

  /** One step first, then a continuation that reopens the execution. */
  lemma ReopensAfter(env: Env, s: State, step: Step, e: ExecId)
    requires Reopens(env, Next(env, s, step), e)
    ensures Reopens(env, s, e)
  {
    var more :| Reopened(Run(env, Next(env, s, step), more), e);
    RunAppend(env, s, [], step);
    assert [] + [step] == [step];
    RunConcat(env, s, [step], more);
    assert Reopened(Run(env, s, [step] + more), e);
  }

  lemma ReopensNow(env: Env, s: State, e: ExecId)
    requires Reopened(s, e)
    ensures Reopens(env, s, e)
  {
    assert Run(env, s, []) == s;
  }

  const SEEN := Job("", Config("", "", "", "", 0, 0, 0, false), true, 0, 0)

  /** An attempt that has not written the row yet can do so next. */
  lemma FreshReopens(env: Env, s: State, e: ExecId, w: nat)
    requires w in s.attempts && s.attempts[w].exec == e && e in s.db.execs && Fresh(s.attempts[w].pc)
    ensures Reopens(env, s, e)
    decreases if s.attempts[w].pc.Reading? then 2 else if s.attempts[w].pc.LookingUp? then 1 else 0
  {
    if s.attempts[w].pc.Marking? {
      ReopensNow(env, Next(env, s, Mark(w, 0, Done)), e);
      ReopensAfter(env, s, Mark(w, 0, Done), e);
    } else {
      var step := if s.attempts[w].pc.Reading? then Read(w, Some(SEEN)) else LookUp(w);
      FreshReopens(env, Next(env, s, step), e, w);
      ReopensAfter(env, s, step, e);
    }
  }

  lemma FreeAttempt(taken: set<nat>) returns (w: nat)
    ensures w !in taken && forall v :: v in taken ==> v < w
  {
    if taken == {} {
      w := 0;
    } else {
      var v :| v in taken;
      w := FreeAttempt(taken - {v});
      assert forall u :: u in taken ==> u == v || u in taken - {v};
      w := if w <= v then v + 1 else w;
    }
  }

  /** After a throw with attempts remaining, the queue begins another attempt. */
  lemma ThrownReopens(env: Env, s: State, e: ExecId)
    requires e in s.last && s.last[e] in s.attempts && LastOf(s, e).exec == e && e in s.db.execs
    requires LastOf(s, e).pc.Thrown? && LastOf(s, e).number < LastOf(s, e).max
    ensures Reopens(env, s, e)
  {
    var a := LastOf(s, e);
    var w := FreeAttempt(s.attempts.Keys);
    var step := Begin(w, e, a.jobId, a.number, a.max);
    assert Retries(s, e, a.jobId, a.number, a.max);
    FreshReopens(env, Next(env, s, step), e, w);
    ReopensAfter(env, s, step, e);
  }

  /** The step in which an attempt that is past its row write throws. */
  function Throwing(w: nat, pc: Pc): Step {
    match pc
    case Resetting => ResetStreak(w, FailedBefore)
    case Burying(_) => Bury(w, FailedBefore)
    case Counting => Count(w, FailedBefore)
    case Disabling(_) => Disable(w, FailedBefore)
    case _ => Publish(w, FailedBefore)
  }

  lemma ThrowingThrows(env: Env, s: State, w: nat)
    requires w in s.attempts && !Fresh(s.attempts[w].pc) && !Active(s.attempts[w].pc) && !Ended(s.attempts[w].pc)
    ensures var s' := Next(env, s, Throwing(w, s.attempts[w].pc));
      s'.attempts == s.attempts[w := s.attempts[w].(pc := Thrown)] && s'.db == s.db && s'.last == s.last
  {
  }

  /** In every reachable state, an execution that succeeded can be run again iff its latest attempt may rerun it. */
  lemma SuccessRunsAgainIff(env: Env, steps: seq<Step>, e: ExecId)
    requires var s := Run(env, INIT, steps); e in s.db.execs && s.db.execs[e].status == SUCCESS
    ensures var s := Run(env, INIT, steps);
      e in s.last && s.last[e] in s.attempts && (Reopens(env, s, e) <==> MayRerun(LastOf(s, e)))
  {
    var s := Run(env, INIT, steps);
    RunKeepsInv(env, INIT, steps);
    assert LastOk(s, e);
    var w, a := s.last[e], LastOf(s, e);
    if Fresh(a.pc) {
      FreshReopens(env, s, e, w);
    } else if MayRerun(a) {
      if !a.pc.Thrown? {
        ThrowingThrows(env, s, w);
        ThrownReopens(env, Next(env, s, Throwing(w, a.pc)), e);
        ReopensAfter(env, s, Throwing(w, a.pc), e);
      } else {
        ThrownReopens(env, s, e);
      }
    } else {
      forall more
        ensures !Reopened(Run(env, s, more), e)
      {
        SettledRun(env, s, e, more);
      }
    }
  }
}
