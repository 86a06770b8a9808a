/** The dead streak and the circuit breaker under concurrent workers, and callbacks of deleted jobs. */
module WorkerBreaker {
  import opened Domain
  import opened Database
  import opened Worker

  /** Increments of a job's dead counter committed since its last reset. */
  function Streak(log: seq<Event>, id: JobId): nat {
    if log == [] then 0 else
      var last, before := log[|log| - 1], log[..|log| - 1];
      if last.jobId != id then Streak(before, id)
      else match last
        case Reset(_, _) => 0
        case Counted(_, _) => Streak(before, id) + 1
        case Disabled(_, _, _) => Streak(before, id)
  }

  lemma StreakAppend(log: seq<Event>, e: Event, id: JobId)
    ensures Streak(log + [e], id) ==
      if e.jobId != id then Streak(log, id)
      else if e.Reset? then 0 else if e.Counted? then Streak(log, id) + 1 else Streak(log, id)
  {
  }

  /** The increment at this position brought the streak to the threshold. */
  predicate Trips(env: Env, log: seq<Event>, mark: nat, w: nat, id: JobId) {
    mark < |log| && log[mark] == Counted(w, id) && Streak(log[..mark + 1], id) >= env.breakerThreshold
  }

  ghost predicate CountersMatch(s: State) {
    && (forall id :: id in s.db.jobs ==> s.db.jobs[id].consecutiveDeadCount == Streak(s.log, id))
    && (forall i :: 0 <= i < |s.log| ==> s.log[i].jobId in s.db.usedIds && s.log[i].w in s.attempts)
  }

  /** An attempt about to disable a job tripped the breaker itself. */
  ghost predicate DisablersTripped(env: Env, s: State) {
    forall w :: w in s.attempts && s.attempts[w].pc.Disabling? ==>
      Trips(env, s.log, s.attempts[w].pc.mark, w, s.attempts[w].jobId)
  }

  ghost predicate DisablesJustified(env: Env, log: seq<Event>) {
    forall k :: 0 <= k < |log| && log[k].Disabled? ==>
      log[k].mark < k && Trips(env, log, log[k].mark, log[k].w, log[k].jobId)
  }

  ghost predicate Followed(s: State, mark: nat, w: nat, id: JobId) {
    || (w in s.attempts && (s.attempts[w].pc == Disabling(mark) || s.attempts[w].pc.Thrown? || s.attempts[w].pc.Gone?))
    || exists k :: mark < k < |s.log| && s.log[k] == Disabled(w, id, mark)
  }

  ghost predicate TripsFollowed(env: Env, s: State) {
    forall mark: nat, w: nat, id: JobId :: Trips(env, s.log, mark, w, id) ==> Followed(s, mark, w, id)
  }

  /** Publishing an event leads on to the callback or to the end. */
  predicate Tail(pc: Pc) {
    pc.Publishing? ==>
      pc.after.Calling? || pc.after.Returned? || pc.after.Thrown? || (pc.after.Publishing? && Tail(pc.after))
  }

  ghost predicate Tame(s: State) {
    (forall w :: w in s.attempts ==> Tail(s.attempts[w].pc)) && s.db.jobs.Keys <= s.db.usedIds
  }

  ghost predicate BreakerInv(env: Env, s: State) {
    && Tame(s) && CountersMatch(s) && DisablersTripped(env, s) && DisablesJustified(env, s.log) && TripsFollowed(env, s)
  }

  lemma {:induction false} FreshStreak(log: seq<Event>, id: JobId)
    requires forall i :: 0 <= i < |log| ==> log[i].jobId != id
    ensures Streak(log, id) == 0
  {
    if log != [] {
      FreshStreak(log[..|log| - 1], id);
    }
  }

  lemma TripsAppend(env: Env, log: seq<Event>, e: Event, mark: nat, w: nat, id: JobId)
    requires mark < |log|
    ensures Trips(env, log + [e], mark, w, id) == Trips(env, log, mark, w, id)
  {
    assert (log + [e])[..mark + 1] == log[..mark + 1];
  }

  predicate Failed(pc: Pc) { pc.Thrown? || pc.Gone? }

  /** Steps that leave the log alone, and neither start nor finish a disable except by throwing. */
  ghost predicate Quiet(s: State, s': State) {
    && s'.log == s.log && s.attempts.Keys <= s'.attempts.Keys
    && (forall w :: w in s'.attempts ==> Tail(s'.attempts[w].pc))
    && s.db.usedIds <= s'.db.usedIds && s'.db.jobs.Keys <= s'.db.usedIds
    && (forall id :: id in s'.db.jobs ==>
          if id in s.db.jobs then s'.db.jobs[id].consecutiveDeadCount == s.db.jobs[id].consecutiveDeadCount
          else s'.db.jobs[id].consecutiveDeadCount == 0 && id !in s.db.usedIds)
    && (forall w :: w in s'.attempts && s'.attempts[w].pc.Disabling? ==>
          w in s.attempts && s'.attempts[w] == s.attempts[w])
    && (forall w :: w in s.attempts && (s.attempts[w].pc.Disabling? || Failed(s.attempts[w].pc)) ==>
          s'.attempts[w].pc == s.attempts[w].pc || Failed(s'.attempts[w].pc))
  }

  lemma QuietKeeps(env: Env, s: State, s': State)
    requires BreakerInv(env, s) && Quiet(s, s')
    ensures BreakerInv(env, s')
  {
    forall id | id in s'.db.jobs && id !in s.db.jobs
      ensures Streak(s.log, id) == 0
    {
      FreshStreak(s.log, id);
    }
    forall mark: nat, w: nat, id: JobId | Trips(env, s'.log, mark, w, id)
      ensures Followed(s', mark, w, id)
    {
      assert Followed(s, mark, w, id);
    }
  }

  /** Attempt `w` commits one event; `pc` is where it goes. */
  ghost predicate Logs(s: State, s': State, w: nat, e: Event, pc: Pc) {
    && w in s.attempts && s'.log == s.log + [e] && e.jobId == s.attempts[w].jobId && e.w == w
    && s'.attempts == s.attempts[w := s.attempts[w].(pc := pc)]
    && s'.db.usedIds == s.db.usedIds && s'.db.jobs.Keys == s.db.jobs.Keys && e.jobId in s.db.jobs
    && (forall id :: id in s.db.jobs && id != e.jobId ==> s'.db.jobs[id] == s.db.jobs[id])
    && s'.db.jobs[e.jobId].consecutiveDeadCount ==
       (match e case Reset(_, _) => 0
                case Counted(_, _) => s.db.jobs[e.jobId].consecutiveDeadCount + 1
                case Disabled(_, _, _) => s.db.jobs[e.jobId].consecutiveDeadCount)
  }

  lemma LogsKeepsCounters(s: State, s': State, w: nat, e: Event, pc: Pc)
    requires Tame(s) && CountersMatch(s) && Logs(s, s', w, e, pc)
    ensures CountersMatch(s')
  {
  }

  lemma LogsKeeps(env: Env, s: State, s': State, w: nat, e: Event, pc: Pc)
    requires BreakerInv(env, s) && Logs(s, s', w, e, pc)
    requires Tail(pc) && (e.Disabled? ==> s.attempts[w].pc == Disabling(e.mark))
    requires pc.Disabling? ==> pc.mark == |s.log| && Trips(env, s'.log, |s.log|, w, e.jobId)
    requires !e.Disabled? ==> !s.attempts[w].pc.Disabling?
    requires s.attempts[w].pc.Thrown? || s.attempts[w].pc.Gone? ==> pc.Thrown? || pc.Gone?
    requires Trips(env, s'.log, |s.log|, w, e.jobId) ==> pc == Disabling(|s.log|) || pc.Thrown?
    ensures BreakerInv(env, s')
  {
    LogsKeepsCounters(s, s', w, e, pc);
    forall mark: nat, v: nat, id: JobId | mark < |s.log|
      ensures Trips(env, s'.log, mark, v, id) == Trips(env, s.log, mark, v, id)
    {
      TripsAppend(env, s.log, e, mark, v, id);
    }
    forall mark: nat, v: nat, id: JobId | Trips(env, s'.log, mark, v, id)
      ensures Followed(s', mark, v, id)
    {
      if mark < |s.log| {
        assert Followed(s, mark, v, id);
        FollowedStays(s, s', w, e, pc, mark, v, id);
      }
    }
  }

  lemma FollowedStays(s: State, s': State, w: nat, e: Event, pc: Pc, mark: nat, v: nat, id: JobId)
    requires Followed(s, mark, v, id) && Logs(s, s', w, e, pc) && mark < |s.log|
    requires s.log[mark] == Counted(v, id)
    requires w == v && s.attempts[w].pc == Disabling(mark) ==> s.attempts[w].jobId == id
    requires e.Disabled? ==> s.attempts[w].pc == Disabling(e.mark)
    requires !e.Disabled? ==> !s.attempts[w].pc.Disabling?
    requires s.attempts[w].pc.Thrown? || s.attempts[w].pc.Gone? ==> pc.Thrown? || pc.Gone?
    ensures Followed(s', mark, v, id)
  {
    if exists k :: mark < k < |s.log| && s.log[k] == Disabled(v, id, mark) {
      var k :| mark < k < |s.log| && s.log[k] == Disabled(v, id, mark);
      assert s'.log[k] == s.log[k];
    } else if v == w && s.attempts[w].pc == Disabling(mark) {
      assert s'.log[|s.log|] == Disabled(v, id, mark);
    }
  }

  /** A write to the streak or the breaker throws without effect, or commits its event. */
  ghost predicate QuietOrLogs(s: State, s': State, w: nat, e: Event) {
    && w in s'.attempts && Tail(s'.attempts[w].pc)
    && if s'.log == s.log then Quiet(s, s') else Logs(s, s', w, e, s'.attempts[w].pc)
  }

  lemma CountEffect(env: Env, s: State, w: nat, oc: Outcome)
    requires Tame(s) && Enabled(s, Count(w, oc))
    ensures var s' := DoCount(env, s, w, oc); var id := s.attempts[w].jobId;
      && QuietOrLogs(s, s', w, Counted(w, id))
      && (s'.log != s.log && id in s.db.jobs ==>
            s'.attempts[w].pc == Thrown
            || if s.db.jobs[id].consecutiveDeadCount + 1 < env.breakerThreshold then !s'.attempts[w].pc.Disabling?
               else s'.attempts[w].pc == Disabling(|s.log|))
  {
    TailsEnd();
  }

  lemma ResetEffect(s: State, w: nat, oc: Outcome)
    requires Tame(s) && Enabled(s, ResetStreak(w, oc))
    ensures var s' := DoReset(s, w, oc);
      QuietOrLogs(s, s', w, Reset(w, s.attempts[w].jobId)) && !s'.attempts[w].pc.Disabling?
  {
  }

  lemma DisableEffect(s: State, w: nat, oc: Outcome)
    requires Tame(s) && Enabled(s, Disable(w, oc))
    ensures var s' := DoDisable(s, w, oc);
      QuietOrLogs(s, s', w, Disabled(w, s.attempts[w].jobId, s.attempts[w].pc.mark)) && !s'.attempts[w].pc.Disabling?
  {
    TailsEnd();
  }

  lemma TailsEnd()
    ensures Tail(Publishing(Publishing(Returned))) && Tail(Publishing(Publishing(Publishing(Returned))))
  {
    assert Tail(Publishing(Returned));
  }

  lemma CountKeeps(env: Env, s: State, w: nat, oc: Outcome)
    requires BreakerInv(env, s) && Enabled(s, Count(w, oc))
    ensures BreakerInv(env, DoCount(env, s, w, oc))
  {
    CountEffect(env, s, w, oc);
    CountedKeeps(env, s, DoCount(env, s, w, oc), w);
  }

  lemma CountedKeeps(env: Env, s: State, s': State, w: nat)
    requires BreakerInv(env, s) && w in s.attempts && s.attempts[w].pc == Counting
    requires var id := s.attempts[w].jobId;
      && QuietOrLogs(s, s', w, Counted(w, id))
      && (s'.log != s.log && id in s.db.jobs ==>
            s'.attempts[w].pc == Thrown
            || if s.db.jobs[id].consecutiveDeadCount + 1 < env.breakerThreshold then !s'.attempts[w].pc.Disabling?
               else s'.attempts[w].pc == Disabling(|s.log|))
    ensures BreakerInv(env, s')
  {
    if s'.log == s.log {
      QuietKeeps(env, s, s');
    } else {
      var e := Counted(w, s.attempts[w].jobId);
      StreakAppend(s.log, e, e.jobId);
      assert s'.log[..|s.log| + 1] == s'.log;
      LogsKeeps(env, s, s', w, e, s'.attempts[w].pc);
    }
  }

  /** A committed write that is not an increment. */
  lemma OtherLogKeeps(env: Env, s: State, s': State, w: nat, e: Event)
    requires BreakerInv(env, s) && w in s.attempts && QuietOrLogs(s, s', w, e) && !s'.attempts[w].pc.Disabling?
    requires !Ended(s.attempts[w].pc) && !e.Counted?
    requires if e.Disabled? then s.attempts[w].pc == Disabling(e.mark) else !s.attempts[w].pc.Disabling?
    ensures BreakerInv(env, s')
  {
    if s'.log == s.log {
      QuietKeeps(env, s, s');
    } else {
      LogsKeeps(env, s, s', w, e, s'.attempts[w].pc);
    }
  }

  lemma ResetKeeps(env: Env, s: State, w: nat, oc: Outcome)
    requires BreakerInv(env, s) && Enabled(s, ResetStreak(w, oc))
    ensures BreakerInv(env, DoReset(s, w, oc))
  {
    ResetEffect(s, w, oc);
    OtherLogKeeps(env, s, DoReset(s, w, oc), w, Reset(w, s.attempts[w].jobId));
  }

  lemma DisableKeeps(env: Env, s: State, w: nat, oc: Outcome)
    requires BreakerInv(env, s) && Enabled(s, Disable(w, oc))
    ensures BreakerInv(env, DoDisable(s, w, oc))
  {
    DisableEffect(s, w, oc);
    OtherLogKeeps(env, s, DoDisable(s, w, oc), w, Disabled(w, s.attempts[w].jobId, s.attempts[w].pc.mark));
  }

  lemma OutsideIsQuiet(env: Env, s: State, step: Step)
    requires Tame(s) && Enabled(s, step) && Outside(step)
    ensures Quiet(s, Next(env, s, step))
  {
  }

  lemma PublishIsQuiet(env: Env, s: State, w: nat, oc: Outcome)
    requires Tame(s) && Enabled(s, Publish(w, oc))
    ensures Quiet(s, Next(env, s, Publish(w, oc)))
  {
    assert Tail(s.attempts[w].pc);
  }

  lemma BuryIsQuiet(env: Env, s: State, w: nat, oc: Outcome)
    requires Tame(s) && Enabled(s, Bury(w, oc))
    ensures Quiet(s, Next(env, s, Bury(w, oc)))
  {
  }

  lemma AttemptIsQuiet(env: Env, s: State, step: Step)
    requires Tame(s) && Enabled(s, step) && (step.Call? || step.Die?)
    ensures Quiet(s, Next(env, s, step))
  {
  }

  lemma ReadIsQuiet(env: Env, s: State, step: Step)
    requires Tame(s) && Enabled(s, step) && (step.Read? || step.LookUp? || step.Fail?)
    ensures Quiet(s, Next(env, s, step))
  {
  }

  lemma MarkIsQuiet(env: Env, s: State, w: nat, at: int, oc: Outcome)
    requires Tame(s) && Enabled(s, Mark(w, at, oc))
    ensures Quiet(s, DoMark(s, w, at, oc))
  {
  }

  lemma RecordIsQuiet(env: Env, s: State, w: nat, at: int, oc: Outcome)
    requires Tame(s) && Enabled(s, Record(w, at, oc))
    ensures Quiet(s, DoRecord(s, w, at, oc))
  {
  }

  lemma StepIsQuiet(env: Env, s: State, step: Step)
    requires BreakerInv(env, s) && Enabled(s, step) && !step.Count? && !step.ResetStreak? && !step.Disable?
    ensures Quiet(s, Next(env, s, step))
  {
    if Outside(step) {
      OutsideIsQuiet(env, s, step);
    } else if step.Mark? {
      MarkIsQuiet(env, s, step.w, step.at, step.oc);
    } else if step.Record? {
      RecordIsQuiet(env, s, step.w, step.at, step.oc);
    } else if step.Read? || step.LookUp? || step.Fail? {
      ReadIsQuiet(env, s, step);
    } else if step.Publish? {
      PublishIsQuiet(env, s, step.w, step.oc);
    } else if step.Bury? {
      BuryIsQuiet(env, s, step.w, step.oc);
    } else {
      AttemptIsQuiet(env, s, step);
    }
  }

  lemma QuietStepKeeps(env: Env, s: State, step: Step)
    requires BreakerInv(env, s) && Enabled(s, step) && !step.Count? && !step.ResetStreak? && !step.Disable?
    ensures BreakerInv(env, Next(env, s, step))
  {
    StepIsQuiet(env, s, step);
    QuietKeeps(env, s, Next(env, s, step));
  }

  lemma NextKeepsBreakerInv(env: Env, s: State, step: Step)
    requires BreakerInv(env, s)
    ensures BreakerInv(env, Next(env, s, step))
  {
    if Enabled(s, step) {
      match step
      case Count(w, oc) => CountKeeps(env, s, w, oc);
      case ResetStreak(w, oc) => ResetKeeps(env, s, w, oc);
      case Disable(w, oc) => DisableKeeps(env, s, w, oc);
      case _ => QuietStepKeeps(env, s, step);
    }
  }

  /** In every interleaving: the counter is the number of increments since the last reset; an attempt
      whose increment reaches the threshold disables the job next, unless it fails; and every disable
      by the breaker was preceded by an increment that reached the threshold. */
  lemma {:induction false} BreakerSound(env: Env, steps: seq<Step>)
    ensures BreakerInv(env, Run(env, INIT, steps))
  {
    if steps != [] {
      BreakerSound(env, steps[..|steps| - 1]);
      NextKeepsBreakerInv(env, Run(env, INIT, steps[..|steps| - 1]), steps[|steps| - 1]);
    }
  }

  /** A streak of n means: n increments in the log with no reset after the first of them. */
  lemma {:induction false} StreakMeansIncrements(log: seq<Event>, id: JobId) returns (from: nat)
    ensures from <= |log| && Increments(log[from..], id) == Streak(log, id)
    ensures forall i :: from <= i < |log| && log[i].jobId == id ==> !log[i].Reset?
    ensures from > 0 ==> log[from - 1].jobId == id && log[from - 1].Reset?
  {
    if log == [] {
      from := 0;
    } else {
      var last, before := log[|log| - 1], log[..|log| - 1];
      if last.jobId == id && last.Reset? {
        from := |log|;
      } else {
        from := StreakMeansIncrements(before, id);
        assert log[from..][..|log| - from - 1] == before[from..];
      }
    }
  }

  function Increments(log: seq<Event>, id: JobId): nat {
    if log == [] then 0
    else Increments(log[..|log| - 1], id) + if log[|log| - 1].Counted? && log[|log| - 1].jobId == id then 1 else 0
  }

  /** A streak goes on growing as long as no reset interrupts it. */
  lemma {:induction false} StreakGrows(log: seq<Event>, from: nat, id: JobId)
    requires from <= |log| && forall i :: from <= i < |log| && log[i].jobId == id ==> !log[i].Reset?
    ensures Streak(log, id) == Streak(log[..from], id) + Increments(log[from..], id)
  {
    if from == |log| {
      assert log[..from] == log;
    } else {
      var before := log[..|log| - 1];
      StreakGrows(before, from, id);
      assert before[..from] == log[..from] && log[from..][..|log| - from - 1] == before[from..];
    }
  }

  /** A streak that reached the threshold at `mark` is still there at `k`, unless a reset came in between. */
  lemma TrippedStreak(env: Env, log: seq<Event>, mark: nat, k: nat, w: nat, id: JobId)
    requires mark < k <= |log| && Trips(env, log, mark, w, id)
    requires forall i :: mark < i < k && log[i].jobId == id ==> !log[i].Reset?
    ensures Streak(log[..k], id) >= env.breakerThreshold
  {
    var before := log[..k];
    StreakGrows(before, mark + 1, id);
    assert before[..mark + 1] == log[..mark + 1];
  }

  lemma LastReset(log: seq<Event>, k: nat, id: JobId) returns (reset: nat)
    requires k <= |log|
    ensures reset <= k && Streak(log[..k], id) == Increments(log[reset..k], id)
    ensures forall i :: reset <= i < k && log[i].jobId == id ==> !log[i].Reset?
    ensures reset > 0 ==> log[reset - 1].Reset? && log[reset - 1].jobId == id
  {
    var before := log[..k];
    reset := StreakMeansIncrements(before, id);
    assert before[reset..] == log[reset..k];
    assert forall i :: 0 <= i < k ==> before[i] == log[i];
  }

  lemma DisableStreak(env: Env, log: seq<Event>, k: nat) returns (reset: nat)
    requires DisablesJustified(env, log) && k < |log| && log[k].Disabled?
    ensures log[k].mark < k && DisableFinds(env, log, k, reset)
  {
    var Disabled(w, id, mark) := log[k];
    reset := LastReset(log, k, id);
    if reset <= mark {
      TrippedStreak(env, log, mark, k, w, id);
    }
  }

  /** With `reset` just after the job's last reset before the disable at `k`: the streak is at the threshold if that
      reset came before the attempt's increment, and otherwise what was counted since. */
  ghost predicate DisableFinds(env: Env, log: seq<Event>, k: nat, reset: nat)
    requires k < |log| && log[k].Disabled?
  {
    var Disabled(_, id, mark) := log[k];
    && reset <= k && (forall i :: reset <= i < k && log[i].jobId == id ==> !log[i].Reset?)
    && if reset <= mark then Streak(log[..k], id) >= env.breakerThreshold
       else log[reset - 1].Reset? && log[reset - 1].jobId == id && Streak(log[..k], id) == Increments(log[reset..k], id)
  }

  /** In every run, each disable by the breaker finds the streak at the threshold unless the streak was reset after
      the attempt's increment. */
  lemma DisableFindsStreak(env: Env, steps: seq<Step>, k: nat) returns (reset: nat)
    requires k < |Run(env, INIT, steps).log| && Run(env, INIT, steps).log[k].Disabled?
    ensures Run(env, INIT, steps).log[k].mark < k && DisableFinds(env, Run(env, INIT, steps).log, k, reset)
  {
    BreakerSound(env, steps);
    reset := DisableStreak(env, Run(env, INIT, steps).log, k);
  }

  /** Counting and then disabling, with nothing in between, switches the job off iff the count reaches the threshold. */
  lemma CountThenDisable(env: Env, s: State, w: nat)
    requires w in s.attempts && s.attempts[w].pc == Counting && s.attempts[w].jobId in s.db.jobs
    requires s.db.jobs[s.attempts[w].jobId].enabled
    ensures var s' := Next(env, Next(env, s, Count(w, Done)), Disable(w, Done)); var id := s.attempts[w].jobId;
      id in s'.db.jobs
      && (!s'.db.jobs[id].enabled <==> s.db.jobs[id].consecutiveDeadCount + 1 >= env.breakerThreshold)
  {
  }

  /** Re-enabling a job does not clear its streak: one more dead execution disables it again iff the streak from
      before is one short of the threshold, or more. */
  lemma ReenabledTripsAtOnce(env: Env, s: State, job: Job, w: nat)
    requires BreakerInv(env, s) && Enabled(s, EditJob(job)) && job.enabled && w in s.attempts
    requires s.attempts[w].pc == Counting && s.attempts[w].jobId == job.id
    ensures var s1 := Next(env, Next(env, s, EditJob(job)), Count(w, Done)); var s2 := Next(env, s1, Disable(w, Done));
      job.id in s2.db.jobs && (!s2.db.jobs[job.id].enabled <==> Streak(s.log, job.id) + 1 >= env.breakerThreshold)
  {
    var s0 := Next(env, s, EditJob(job));
    assert s0.attempts == s.attempts && s0.db.jobs[job.id] == job;
    CountThenDisable(env, s0, w);
  }

  /** The increment and the disable are two writes: a success in between leaves the job disabled with streak 0. */
  lemma DisableAfterReset(env: Env, s: State, w: nat, v: nat)
    requires w in s.attempts && v in s.attempts && w != v
    requires s.attempts[w].pc.Disabling? && s.attempts[v].pc == Resetting
    requires s.attempts[w].jobId == s.attempts[v].jobId && s.attempts[w].jobId in s.db.jobs
    ensures var s' := Next(env, Next(env, s, ResetStreak(v, Done)), Disable(w, Done)); var id := s.attempts[w].jobId;
      id in s'.db.jobs && !s'.db.jobs[id].enabled && s'.db.jobs[id].consecutiveDeadCount == 0
  {
    var s1 := Next(env, s, ResetStreak(v, Done));
    assert s1.attempts[w] == s.attempts[w];
    DisableWrites(env, s1, w);
  }

  lemma DisableWrites(env: Env, s: State, w: nat)
    requires w in s.attempts && s.attempts[w].pc.Disabling? && s.attempts[w].jobId in s.db.jobs
    ensures var s' := Next(env, s, Disable(w, Done)); var id := s.attempts[w].jobId;
      id in s'.db.jobs && s'.db.jobs[id] == s.db.jobs[id].(enabled := false)
  {
  }

  // ---------- deleted jobs ----------

  /** The row existed and is gone, with its job. */
  predicate RowGone(db: Db, e: ExecId) { e < db.nextExec && e !in db.execs }

  /** Every attempt on `e` that is past its row write was already there in `s`. */
  ghost predicate OnlyOldAttempts(s: State, s': State, e: ExecId) {
    && RowGone(s'.db, e)
    && s.attempts.Keys <= s'.attempts.Keys && s.callbacks <= s'.callbacks
    && (forall w :: w in s'.attempts && s'.attempts[w].exec == e && Underway(s'.attempts[w].pc) ==>
          w in s.attempts && s.attempts[w].exec == e && Underway(s.attempts[w].pc))
    && (forall i :: |s.callbacks| <= i < |s'.callbacks| && s'.callbacks[i].exec == e ==>
          var w := s'.callbacks[i].w; w in s.attempts && s.attempts[w].exec == e && Underway(s.attempts[w].pc))
  }

  lemma OldAttemptsStep(env: Env, s: State, m: State, e: ExecId, step: Step)
    requires RecordInv(m) && OnlyOldAttempts(s, m, e)
    ensures OnlyOldAttempts(s, Next(env, m, step), e)
  {
    var m' := Next(env, m, step);
    if Enabled(m, step) {
      if Outside(step) {
        assert m'.callbacks == m.callbacks;
      } else {
        AttemptIsRowStep(env, m, step);
        CallbacksGrow(env, m, step);
      }
    }
  }

  lemma CallbacksGrow(env: Env, s: State, step: Step)
    requires Enabled(s, step) && !Outside(step)
    ensures Next(env, s, step).callbacks ==
      if step.Call? then s.callbacks + [Callback(step.w, s.attempts[step.w].exec)] else s.callbacks
    ensures step.Call? ==> Underway(s.attempts[step.w].pc)
  {
  }

  lemma {:induction false} OldAttemptsRun(env: Env, s: State, e: ExecId, more: seq<Step>)
    requires RecordInv(s) && RowGone(s.db, e)
    ensures RecordInv(Run(env, s, more)) && OnlyOldAttempts(s, Run(env, s, more), e)
  {
    if more != [] {
      OldAttemptsRun(env, s, e, more[..|more| - 1]);
      OldAttemptsStep(env, s, Run(env, s, more[..|more| - 1]), e, more[|more| - 1]);
      NextKeepsRecordInv(env, Run(env, s, more[..|more| - 1]), more[|more| - 1]);
    }
  }

  /** After a job is deleted, the only callbacks still made for its executions come from attempts that had
      already marked their row as running, whatever the job cache still says. */
  lemma DeletedJobsNeverCallBack(env: Env, s: State, id: JobId, e: ExecId, more: seq<Step>)
    requires RecordInv(s) && id in s.db.jobs && e in s.db.execs && s.db.execs[e].jobId == id
    ensures OnlyOldAttempts(Next(env, s, Step.DeleteJob(id)), Run(env, Next(env, s, Step.DeleteJob(id)), more), e)
  {
    NextKeepsRecordInv(env, s, Step.DeleteJob(id));
    OldAttemptsRun(env, Next(env, s, Step.DeleteJob(id)), e, more);
  }
}
