/**
  What the queue's retry rule makes of the attempts on one execution, in every interleaving, with failing
  calls, deaths and deletions: how often it calls back, how often it is dead-lettered, and when an
  execution that succeeded runs again.
 */
module WorkerQueue {
  import opened Domain
  import opened Worker

  function DeadFor(dead: seq<DeadLetter>, e: ExecId): nat {
    if dead == [] then 0
    else DeadFor(dead[..|dead| - 1], e) + if dead[|dead| - 1].executionId == e then 1 else 0
  }

  function CallsFor(calls: seq<Callback>, e: ExecId): nat {
    if calls == [] then 0
    else CallsFor(calls[..|calls| - 1], e) + if calls[|calls| - 1].exec == e then 1 else 0
  }

  /** Only events are left to publish before the attempt ends. */
  predicate Winding(pc: Pc) { pc.Returned? || pc.Thrown? || (pc.Publishing? && Winding(pc.after)) }

  /** An event is published before the callback, or after everything else. */
  predicate Publishes(pc: Pc) { pc.Publishing? ==> pc.after == Calling || Winding(pc.after) }

  /** The attempt has not written its row yet. */
  predicate Fresh(pc: Pc) { pc.Reading? || pc.LookingUp? || pc.Marking? }

  /** The attempt has marked its row as running, and not called back yet. */
  predicate Announcing(pc: Pc) { pc == Publishing(Calling) || pc.Calling? }

  /** What holds between the latest attempt on an execution, its callbacks and its dead letters. */
  predicate EntryOk(a: Attempt, calls: nat, dead: nat) {
    && (a.number <= a.max || a.number == 1)
    && calls <= a.number && (Fresh(a.pc) || Announcing(a.pc) ==> calls < a.number)
    && dead <= 1
    && (dead == 1 ==> a.number >= a.max && !Fresh(a.pc) && !Announcing(a.pc) && !a.pc.Recording? && !a.pc.Burying?)
    && (a.pc.Burying? ==> a.number >= a.max)
    && Publishes(a.pc)
  }

  ghost predicate LastOk(s: State, e: ExecId) {
    if e in s.last then
      && s.last[e] in s.attempts && s.attempts[s.last[e]].exec == e
      && EntryOk(s.attempts[s.last[e]], CallsFor(s.callbacks, e), DeadFor(s.deadLetters, e))
    else CallsFor(s.callbacks, e) == 0 && DeadFor(s.deadLetters, e) == 0
  }

  /** An earlier attempt on an execution threw, with attempts remaining. */
  ghost predicate Superseded(s: State, w: nat)
    requires w in s.attempts
  {
    var a := s.attempts[w];
    && a.exec in s.last
    && (w != s.last[a.exec] ==> a.pc.Thrown? && a.number < a.max)
  }

  ghost predicate QueueInv(s: State) {
    (forall e :: LastOk(s, e)) && (forall w :: w in s.attempts ==> Superseded(s, w))
  }

  /** Attempt `w`, the latest on its execution, moves on. */
  ghost predicate Moves(s: State, s': State, w: nat) {
    && w in s.attempts && w in s'.attempts
    && s'.attempts == s.attempts[w := s'.attempts[w]] && s'.attempts[w] == s.attempts[w].(pc := s'.attempts[w].pc)
    && !Ended(s.attempts[w].pc) && s'.last == s.last
  }

  lemma CallsAppend(calls: seq<Callback>, c: Callback, e: ExecId)
    ensures CallsFor(calls + [c], e) == CallsFor(calls, e) + if c.exec == e then 1 else 0
  {
  }

  lemma DeadAppend(dead: seq<DeadLetter>, d: DeadLetter, e: ExecId)
    ensures DeadFor(dead + [d], e) == DeadFor(dead, e) + if d.executionId == e then 1 else 0
  {
  }

  lemma RowWriteMoves(env: Env, s: State, step: Step)
    requires Enabled(s, step) && (step.Mark? || step.Record? || step.ResetStreak? || step.Count? || step.Disable?)
    ensures Moves(s, Next(env, s, step), step.w)
  {
  }

  lemma AttemptMoves(env: Env, s: State, step: Step)
    requires Enabled(s, step) && !Outside(step)
    ensures Moves(s, Next(env, s, step), step.w)
  {
    if step.Mark? || step.Record? || step.ResetStreak? || step.Count? || step.Disable? {
      RowWriteMoves(env, s, step);
    }
  }

  /** What a step adds to the callbacks and the dead letters. */
  lemma AttemptAdds(env: Env, s: State, step: Step)
    requires Enabled(s, step) && !Outside(step)
    ensures var s' := Next(env, s, step); var a := s.attempts[step.w];
      && s'.callbacks == (if step.Call? then s.callbacks + [Callback(step.w, a.exec)] else s.callbacks)
      && s'.deadLetters == (if step.Bury? && !step.oc.FailedBefore?
           then s.deadLetters + [DeadLetter(a.exec, a.jobId, "max_retries_exceeded", a.pc.error)] else s.deadLetters)
  {
  }

  /** What remains to be done once the breaker has done its work is publishing. */
  lemma WindsDown()
    ensures Winding(Publishing(Returned)) && Winding(Publishing(Publishing(Returned)))
  {
    assert Winding(Returned);
  }

  /** Where a step takes its attempt. */
  predicate Goes(a: Attempt, pc: Pc, step: Step) {
    || pc == Thrown
    || (Fresh(a.pc) && (Fresh(pc) || pc.Returned? || pc == Publishing(Calling)))
    || (a.pc.Publishing? && pc == a.pc.after)
    || (a.pc.Calling? && step.Call? && pc.Recording?)
    || (a.pc.Recording? && pc == AfterRecord(a, a.pc.result))
    || (a.pc.Burying? && pc.Counting?)
    || pc.Gone?
    || ((a.pc.Resetting? || a.pc.Counting? || a.pc.Disabling?)
        && (pc.Disabling? || (pc.Publishing? && Winding(pc.after))))
  }

  predicate Writes(step: Step) {
    step.Mark? || step.Record? || step.ResetStreak? || step.Bury? || step.Count? || step.Disable?
  }

  lemma RowWritesGo(env: Env, s: State, step: Step)
    requires Enabled(s, step) && (step.Mark? || step.Record?)
    ensures var s' := Next(env, s, step);
      step.w in s'.attempts && Goes(s.attempts[step.w], s'.attempts[step.w].pc, step)
  {
  }

  lemma WritesGo(env: Env, s: State, step: Step)
    requires Enabled(s, step) && Writes(step)
    ensures var s' := Next(env, s, step);
      step.w in s'.attempts && Goes(s.attempts[step.w], s'.attempts[step.w].pc, step)
  {
    if step.Mark? || step.Record? {
      RowWritesGo(env, s, step);
    } else {
      WindsDown();
    }
  }

  lemma OthersGo(env: Env, s: State, step: Step)
    requires Enabled(s, step) && (step.Read? || step.LookUp? || step.Publish? || step.Call? || step.Fail? || step.Die?)
    ensures var s' := Next(env, s, step);
      step.w in s'.attempts && Goes(s.attempts[step.w], s'.attempts[step.w].pc, step)
  {
  }

  lemma StepGoes(env: Env, s: State, step: Step)
    requires Enabled(s, step) && !Outside(step)
    ensures var s' := Next(env, s, step);
      step.w in s'.attempts && Goes(s.attempts[step.w], s'.attempts[step.w].pc, step)
  {
    if Writes(step) {
      WritesGo(env, s, step);
    } else {
      OthersGo(env, s, step);
    }
  }

  lemma GoesKeepsEntry(a: Attempt, pc: Pc, step: Step, calls: nat, dead: nat)
    requires EntryOk(a, calls, dead) && Goes(a, pc, step) && !Ended(a.pc)
    requires step.Call? ==> a.pc.Calling? && pc.Recording?
    requires step.Bury? ==> a.pc.Burying? && (pc.Counting? || pc.Thrown?)
    ensures EntryOk(a.(pc := pc), calls + (if step.Call? then 1 else 0),
                    dead + if step.Bury? && !step.oc.FailedBefore? then 1 else 0)
  {
  }

  lemma AttemptGoes(env: Env, s: State, step: Step, calls: nat, dead: nat)
    requires Enabled(s, step) && !Outside(step) && EntryOk(s.attempts[step.w], calls, dead)
    ensures var s' := Next(env, s, step);
      step.w in s'.attempts
      && EntryOk(s'.attempts[step.w], calls + (if step.Call? then 1 else 0),
                 dead + if step.Bury? && !step.oc.FailedBefore? then 1 else 0)
  {
    AttemptMoves(env, s, step);
    StepGoes(env, s, step);
    GoesKeepsEntry(s.attempts[step.w], Next(env, s, step).attempts[step.w].pc, step, calls, dead);
  }

  lemma AttemptKeepsQueue(env: Env, s: State, step: Step)
    requires QueueInv(s) && Enabled(s, step) && !Outside(step)
    ensures QueueInv(Next(env, s, step))
  {
    var s', w := Next(env, s, step), step.w;
    AttemptMoves(env, s, step);
    AttemptAdds(env, s, step);
    var e0 := s.attempts[w].exec;
    assert Superseded(s, w) && s.last[e0] == w;
    assert LastOk(s, e0);
    AttemptGoes(env, s, step, CallsFor(s.callbacks, e0), DeadFor(s.deadLetters, e0));
    forall e
      ensures LastOk(s', e)
    {
      assert LastOk(s, e);
      if step.Call? {
        CallsAppend(s.callbacks, Callback(w, e0), e);
      }
      if step.Bury? && !step.oc.FailedBefore? {
        var a := s.attempts[w];
        DeadAppend(s.deadLetters, DeadLetter(e0, a.jobId, "max_retries_exceeded", a.pc.error), e);
      }
    }
    forall v | v in s'.attempts
      ensures Superseded(s', v)
    {
      assert Superseded(s, v);
    }
  }

  lemma BeginKeepsQueue(env: Env, s: State, step: Step)
    requires QueueInv(s) && Enabled(s, step) && step.Begin?
    ensures QueueInv(Next(env, s, step))
  {
    var s' := Next(env, s, step);
    forall e
      ensures LastOk(s', e)
    {
      assert LastOk(s, e);
    }
    forall v | v in s'.attempts
      ensures Superseded(s', v)
    {
      if v in s.attempts {
        assert Superseded(s, v);
      }
    }
  }

  lemma NextKeepsQueue(env: Env, s: State, step: Step)
    requires QueueInv(s)
    ensures QueueInv(Next(env, s, step))
  {
    if Enabled(s, step) {
      if step.Begin? {
        BeginKeepsQueue(env, s, step);
      } else if Outside(step) {
        var s' := Next(env, s, step);
        assert s'.attempts == s.attempts && s'.last == s.last;
        assert s'.callbacks == s.callbacks && s'.deadLetters == s.deadLetters;
        assert forall e :: LastOk(s', e) <==> LastOk(s, e);
        assert forall w :: w in s.attempts ==> (Superseded(s', w) <==> Superseded(s, w));
      } else {
        AttemptKeepsQueue(env, s, step);
      }
    }
  }

  /** A callback's attempt is on record as past its call, and called only once. */
  ghost predicate CalledOnce(s: State) {
    && (forall i :: 0 <= i < |s.callbacks| ==> HasCalled(s, s.callbacks[i]))
    && (forall i, j :: 0 <= i < j < |s.callbacks| ==> s.callbacks[i].w != s.callbacks[j].w)
  }

  predicate HasCalled(s: State, c: Callback) {
    c.w in s.attempts && s.attempts[c.w].exec == c.exec
    && !Fresh(s.attempts[c.w].pc) && !Announcing(s.attempts[c.w].pc)
  }

  lemma AttemptKeepsCalled(env: Env, s: State, step: Step)
    requires QueueInv(s) && CalledOnce(s) && Enabled(s, step) && !Outside(step)
    ensures CalledOnce(Next(env, s, step))
  {
    AttemptMoves(env, s, step);
    AttemptAdds(env, s, step);
    assert Superseded(s, step.w);
    assert LastOk(s, s.attempts[step.w].exec);
    StepGoes(env, s, step);
    MoveKeepsCalled(s, Next(env, s, step), step.w, step);
  }

  lemma MoveKeepsCalled(s: State, s': State, w: nat, step: Step)
    requires CalledOnce(s) && Moves(s, s', w) && Publishes(s.attempts[w].pc)
    requires Goes(s.attempts[w], s'.attempts[w].pc, step)
    requires s'.callbacks != s.callbacks ==>
      && s.attempts[w].pc.Calling? && s'.attempts[w].pc.Recording?
      && s'.callbacks == s.callbacks + [Callback(w, s.attempts[w].exec)]
    ensures CalledOnce(s')
  {
    forall i | 0 <= i < |s.callbacks|
      ensures HasCalled(s', s.callbacks[i]) && (s.attempts[w].pc.Calling? ==> s.callbacks[i].w != w)
    {
      assert HasCalled(s, s.callbacks[i]);
    }
  }

  lemma NextKeepsCalled(env: Env, s: State, step: Step)
    requires QueueInv(s) && CalledOnce(s)
    ensures CalledOnce(Next(env, s, step))
  {
    if Enabled(s, step) {
      if Outside(step) {
        assert Next(env, s, step).callbacks == s.callbacks;
        assert forall c :: HasCalled(s, c) ==> HasCalled(Next(env, s, step), c);
      } else {
        AttemptKeepsCalled(env, s, step);
      }
    }
  }

  /** In every run, no attempt calls back twice, and each callback is for its attempt's execution. */
  lemma {:induction false} OneCallPerAttempt(env: Env, steps: seq<Step>)
    ensures CalledOnce(Run(env, INIT, steps))
  {
    if steps != [] {
      OneCallPerAttempt(env, steps[..|steps| - 1]);
      RunKeepsQueue(env, steps[..|steps| - 1]);
      NextKeepsCalled(env, Run(env, INIT, steps[..|steps| - 1]), steps[|steps| - 1]);
    }
  }

  lemma {:induction false} RunKeepsQueue(env: Env, steps: seq<Step>)
    ensures QueueInv(Run(env, INIT, steps))
  {
    if steps != [] {
      RunKeepsQueue(env, steps[..|steps| - 1]);
      NextKeepsQueue(env, Run(env, INIT, steps[..|steps| - 1]), steps[|steps| - 1]);
    }
  }

  /** In every run, with failures, deaths and deletions: an execution calls back at most as often as it was
      attempted, runs at most `max` attempts, one at a time, and is dead-lettered at most once, and then by its
      last attempt. */
  lemma EntryBounds(env: Env, steps: seq<Step>, e: ExecId)
    requires e in Run(env, INIT, steps).last
    ensures var s := Run(env, INIT, steps);
      && s.last[e] in s.attempts
      && var a := s.attempts[s.last[e]];
      && CallsFor(s.callbacks, e) <= a.number && (a.number <= a.max || a.number == 1)
      && DeadFor(s.deadLetters, e) <= 1 && (DeadFor(s.deadLetters, e) == 1 ==> a.number >= a.max)
      && forall w :: w in s.attempts && s.attempts[w].exec == e && !Ended(s.attempts[w].pc) ==> w == s.last[e]
  {
    RunKeepsQueue(env, steps);
    var s := Run(env, INIT, steps);
    assert LastOk(s, e);
    assert forall w :: w in s.attempts ==> Superseded(s, w);
  }
}
