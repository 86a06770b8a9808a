/** POST /:id/trigger: the "manual" lock keeps the retry runs of accepted triggers apart. */
module ManualTrigger {
  import opened Domain
  import opened Claims
  import opened LockTtl
  import opened Scheduler
  import SL = SchedulerLocks

  /** A lock lasts as long as the retry policy it was taken for requires. */
  ghost predicate TtlFits(env: Env, s: State) {
    forall t :: 0 <= t < |s.grants| ==>
      s.grants[t].expiry == s.grants[t].at + TtlSeconds(env, s.grants[t].config) * 1000
  }

  lemma AcquireKeepsTtlFits(env: Env, s: State, p: ProcId, oc: Outcome)
    requires TtlFits(env, s) && Enabled(env, s, Acquire(p, oc))
    ensures TtlFits(env, DoAcquire(env, s, p, oc))
  {
  }

  lemma OthersKeepGrants(env: Env, s: State, step: Step)
    requires !step.Acquire?
    ensures Next(env, s, step).grants == s.grants
  {
  }

  lemma {:induction false} RunKeepsTtlFits(env: Env, now: int, steps: seq<Step>)
    ensures TtlFits(env, Run(env, Init(now), steps))
  {
    if steps != [] {
      var s, step := Run(env, Init(now), steps[..|steps| - 1]), steps[|steps| - 1];
      RunKeepsTtlFits(env, now, steps[..|steps| - 1]);
      if step.Acquire? {
        if Enabled(env, s, step) {
          AcquireKeepsTtlFits(env, s, step.p, step.oc);
        }
      } else {
        OthersKeepGrants(env, s, step);
      }
    }
  }

  /** An accepted trigger of this job: its handler's queue.add returned, so it never released its lock. */
  ghost predicate AcceptedTrigger(s: State, t: Token, id: JobId) {
    t in s.accepted && t < |s.grants| && s.grants[t].key == Claim(id, Manual)
  }

  /** Instants at which the retry run of a grant may end: the attempts last `durations`, each within the
      callback timeout, and queueing and overhead add `overhead` in all. */
  ghost predicate RunEnds(env: Env, g: Grant, durations: seq<nat>, overhead: nat, end: int) {
    && |durations| <= g.config.maxRetries + 1
    && (forall i :: 0 <= i < |durations| ==> WithinTimeout(env, g.config, durations[i]))
    && end == g.at + overhead + RunMs(JobsOptions(g.config.maxRetries + 1, g.config.backoffMs), durations)
  }

  /** Two accepted triggers of one job never have overlapping retry runs, as long as queueing and
      overhead of a run stay within the lock buffer; and each is queued under the policy its lock was sized for. */
  lemma ManualRunsDoNotOverlap(env: Env, now: int, steps: seq<Step>, id: JobId, t: Token, u: Token,
                               durations: seq<nat>, overhead: nat, end: int)
    requires var s := Run(env, Init(now), steps);
      && AcceptedTrigger(s, t, id) && AcceptedTrigger(s, u, id) && t < u
      && overhead <= env.lockBufferMs && RunEnds(env, s.grants[t], durations, overhead, end)
    ensures var s := Run(env, Init(now), steps);
      end <= s.grants[u].at && SL.Enters(s.core.queue, s.grants[t]) && SL.Enters(s.core.queue, s.grants[u])
  {
    SL.RunKeepsInv(env, now, steps);
    RunKeepsTtlFits(env, now, steps);
    var s := Run(env, Init(now), steps);
    TtlCoversRun(env, s.grants[t].config, durations);
    assert s.grants[t].expiry <= s.grants[u].at;
  }
}
