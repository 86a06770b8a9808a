/** Runs from the initial state in which the job cache misleads. */
module JobCacheWitnesses {
  import opened Domain
  import opened JobCache

  lemma Extend(now: int, steps: seq<Step>, step: Step) returns (more: seq<Step>)
    ensures more == steps + [step] && Run(Init(now), more) == Next(Run(Init(now), steps), step)
  {
    more := steps + [step];
  }

  /** The job was created and cached, and nothing is under way. */
  lemma Cached(now: int, job: Job) returns (steps: seq<Step>)
    ensures var s := Run(Init(now), steps);
      && s.now == now && s.ops == map[] && s.rows == map[job.id := job]
      && s.cache.Keys == {job.id} && s.cache[job.id].value == job && s.cache[job.id].expiry == now + CACHE_TTL_MS
  {
    steps := Extend(now, [], Create(0, job));
    assert Run(Init(now), steps).ops[0].todo == [Set(job)];
    steps := Extend(now, steps, Exec(0, Done));
  }

  lemma Finish2(now: int, steps: seq<Step>, o: nat) returns (more: seq<Step>)
    ensures Run(Init(now), more) == Exec2(Run(Init(now), steps), o)
  {
    more := Extend(now, steps, Exec(o, Done));
    more := Extend(now, more, Exec(o, Done));
  }

  /** Two updates overlapped: both are over, and the older configuration is cached. */
  lemma StaleRun(now: int, older: Job, newer: Job) returns (steps: seq<Step>)
    requires older.id == newer.id && older.config != newer.config
    requires older.consecutiveDeadCount == newer.consecutiveDeadCount
    ensures var s := Run(Init(now), steps);
      0 !in s.ops && 1 !in s.ops && older.id in s.rows && older.id in s.cache
      && s.cache[older.id].value.config != s.rows[older.id].config
  {
    steps := Cached(now, older);
    RacingUpdatesGoStale(Run(Init(now), steps), 0, 1, older, newer);
    steps := Extend(now, steps, Update(0, older));
    steps := Extend(now, steps, Update(1, newer));
    steps := Finish2(now, steps, 1);
    steps := Finish2(now, steps, 0);
  }

  /** An update overlapped a delete: both are over, and the deleted job is cached. */
  lemma UndeletedRun(now: int, job: Job) returns (steps: seq<Step>)
    ensures var s := Run(Init(now), steps);
      0 !in s.ops && 1 !in s.ops && job.id !in s.rows && job.id in s.cache && s.cache[job.id].value == job
  {
    steps := Cached(now, job);
    RacingDeleteLeavesEntry(Run(Init(now), steps), 0, 1, job);
    steps := Extend(now, steps, Update(0, job));
    steps := Extend(now, steps, Delete(1, job.id));
    steps := Extend(now, steps, Exec(1, Done));
    steps := Finish2(now, steps, 0);
  }

  /** The breaker has disabled the job, and workers see it enabled. */
  lemma UnseenRun(now: int, job: Job) returns (steps: seq<Step>)
    requires job.enabled
    ensures var s := Run(Init(now), steps);
      job.id in s.rows && !s.rows[job.id].enabled && SeenJob(s, job.id).Some? && SeenJob(s, job.id).value.enabled
  {
    steps := Cached(now, job);
    BreakerUnseen(Run(Init(now), steps), job.id, 0, now, 0);
    steps := Extend(now, steps, WorkerWrite(job.id, false, 0, now));
    steps := Extend(now, steps, Advance(0));
  }
}
