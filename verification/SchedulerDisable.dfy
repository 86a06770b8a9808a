/** Disabling or pausing a job takes effect at the scheduler, whoever wrote the flag. */
module SchedulerDisable {
  import opened Domain
  import opened Database
  import opened Claims
  import opened Scheduler

  predicate Lists(jobs: seq<Job>, id: JobId) { exists i :: 0 <= i < |jobs| && jobs[i].id == id }

  function Rest(pc: Pc): seq<Job> {
    if pc.Head? || pc.Locking? || pc.Inserting? || pc.Adding? || pc.Releasing? then pc.rest else []
  }

  /** The process still has this job ahead of it in its snapshot, or is working on a slot of it. */
  predicate MayFire(pc: Pc, id: JobId) {
    Lists(Rest(pc), id) || ((pc.Locking? || pc.Inserting? || pc.Adding?) && pc.job.id == id && pc.slot.At?)
  }

  function Outstanding(s: State, id: JobId): set<ProcId> {
    set p | p in s.procs && MayFire(s.procs[p].pc, id)
  }

  predicate Fires(e: Entry, id: JobId) { e.jobId == id && e.fireSlot.At? }

  /** Scheduled entries for a job. */
  function Fired(queue: seq<Entry>, id: JobId): nat {
    if queue == [] then 0
    else Fired(queue[..|queue| - 1], id) + if Fires(queue[|queue| - 1], id) then 1 else 0
  }

  /** A snapshot lists each job once, so no process meets a job twice. */
  ghost predicate ListedOnce(pc: Pc) {
    && (forall i, j :: 0 <= i < j < |Rest(pc)| ==> Rest(pc)[i].id != Rest(pc)[j].id)
    && ((pc.Locking? || pc.Inserting? || pc.Adding?) ==> !Lists(pc.rest, pc.job.id))
  }

  ghost predicate SnapshotInv(s: State) {
    && (forall id :: id in s.core.db.jobs ==> s.core.db.jobs[id].id == id)
    && (forall p :: p in s.procs ==> ListedOnce(s.procs[p].pc))
  }

  lemma EvaluateKeeps(env: Env, s: State, p: ProcId, at: int)
    requires SnapshotInv(s) && Enabled(env, s, Evaluate(p, at))
    ensures SnapshotInv(DoEvaluate(env, s, p, at))
  {
    var rest := s.procs[p].pc.rest;
    assert Rest(s.procs[p].pc) == rest;
    assert forall i :: 0 <= i < |rest[1..]| ==> rest[1..][i] == rest[i + 1];
  }

  lemma NextKeepsSnapshotInv(env: Env, s: State, step: Step)
    requires SnapshotInv(s) && Valid(s.core.db)
    ensures SnapshotInv(Next(env, s, step))
  {
    if Enabled(env, s, step) {
      if step.Evaluate? {
        EvaluateKeeps(env, s, step.p, step.at);
      } else if step.Store? {
        WriteKeepsValid(s.core.db, step.op);
      } else if step.Snapshot? {
        SnapshotKeeps(env, s, step.p, step.order);
      } else {
        if !step.Advance? && !step.SetFlag? {
          StepContinues(env, s, step);
        }
      }
    }
  }

  lemma SnapshotKeeps(env: Env, s: State, p: ProcId, order: seq<JobId>)
    requires SnapshotInv(s) && Enabled(env, s, Snapshot(p, order))
    ensures SnapshotInv(Next(env, s, Snapshot(p, order)))
  {
  }

  predicate Works(pc: Pc) { pc.Locking? || pc.Inserting? || pc.Adding? }

  /** A process's step other than a snapshot or an evaluation adds nothing to what it has ahead of it. */
  ghost predicate Continues(s: State, s': State, p: ProcId) {
    && p in s'.procs && s'.procs == s.procs[p := s'.procs[p]] && s'.core.db.jobs == s.core.db.jobs
    && var pc' := s'.procs[p].pc;
       if p !in s.procs then Rest(pc') == [] && (Works(pc') ==> pc'.slot == Manual) else
         var pc := s.procs[p].pc;
         && (Rest(pc') == Rest(pc) || Rest(pc') == [])
         && (Works(pc') ==> Works(pc) && pc'.job == pc.job && pc'.slot == pc.slot)
  }

  lemma AcquireContinues(env: Env, s: State, p: ProcId, oc: Outcome)
    requires Enabled(env, s, Acquire(p, oc))
    ensures Continues(s, DoAcquire(env, s, p, oc), p)
  {
  }

  lemma InsertContinues(env: Env, s: State, p: ProcId, at: int, oc: Outcome)
    requires Enabled(env, s, Insert(p, at, oc))
    ensures Continues(s, DoInsert(env, s, p, at, oc), p)
  {
  }

  lemma AddContinues(env: Env, s: State, p: ProcId, oc: Outcome)
    requires Enabled(env, s, Add(p, oc))
    ensures Continues(s, DoAdd(env, s, p, oc), p)
  {
  }

  lemma StepContinues(env: Env, s: State, step: Step)
    requires Enabled(env, s, step) && !step.Evaluate? && !step.Snapshot?
    requires !step.Store? && !step.Advance? && !step.SetFlag?
    ensures Continues(s, Next(env, s, step), step.p)
  {
    match step
    case Acquire(p, oc) => AcquireContinues(env, s, p, oc);
    case Insert(p, at, oc) => InsertContinues(env, s, p, at, oc);
    case Add(p, oc) => AddContinues(env, s, p, oc);
    case _ =>
  }

  predicate Eligible(db: Db, id: JobId) { id in db.jobs && db.jobs[id].enabled && !db.jobs[id].config.paused }

  /** While a job is not eligible, a step either enqueues nothing for it, or uses up a process that may. */
  lemma StepSpends(env: Env, s: State, step: Step, id: JobId)
    requires SnapshotInv(s) && !Eligible(s.core.db, id)
    ensures var s' := Next(env, s, step);
      Fired(s'.core.queue, id) + |Outstanding(s', id)| <= Fired(s.core.queue, id) + |Outstanding(s, id)|
  {
    var s' := Next(env, s, step);
    OutstandingShrinks(env, s, step, id);
    SetBound(Outstanding(s', id), Outstanding(s, id));
    if Enabled(env, s, step) && step.Add? {
      AddSpends(env, s, step.p, step.oc, id);
    } else {
      QueueUnchanged(env, s, step);
    }
  }

  lemma AddSpends(env: Env, s: State, p: ProcId, oc: Outcome, id: JobId)
    requires SnapshotInv(s) && Enabled(env, s, Add(p, oc))
    requires Outstanding(Next(env, s, Add(p, oc)), id) <= Outstanding(s, id)
    ensures var s' := Next(env, s, Add(p, oc));
      Fired(s'.core.queue, id) + |Outstanding(s', id)| <= Fired(s.core.queue, id) + |Outstanding(s, id)|
  {
    var s', q := Next(env, s, Add(p, oc)), s.core.queue;
    SetBound(Outstanding(s', id), Outstanding(s, id));
    if s'.core.queue != q {
      assert s'.core.queue[..|q|] == q;
      if Fires(s'.core.queue[|q|], id) {
        assert p in Outstanding(s, id) && p !in Outstanding(s', id);
        SetBound(Outstanding(s', id), Outstanding(s, id) - {p});
      }
    }
  }

  lemma QueueUnchanged(env: Env, s: State, step: Step)
    requires !step.Add? || !Enabled(env, s, step)
    ensures Next(env, s, step).core.queue == s.core.queue
  {
  }

  lemma SetBound<T>(a: set<T>, b: set<T>)
    requires a <= b
    ensures |a| <= |b|
  {
    assert a + (b - a) == b;
  }

  lemma OutstandingShrinks(env: Env, s: State, step: Step, id: JobId)
    requires SnapshotInv(s) && !Eligible(s.core.db, id)
    ensures Outstanding(Next(env, s, step), id) <= Outstanding(s, id)
  {
    if Enabled(env, s, step) {
      if step.Evaluate? {
        EvaluateMayFire(env, s, step.p, step.at, id);
      } else if step.Snapshot? {
        SnapshotMayFire(env, s, step.p, step.order, id);
      } else {
        if !step.Advance? && !step.SetFlag? && !step.Store? {
          StepContinues(env, s, step);
        }
      }
    }
  }

  lemma EvaluateMayFire(env: Env, s: State, p: ProcId, at: int, id: JobId)
    requires Enabled(env, s, Evaluate(p, at))
    ensures Outstanding(DoEvaluate(env, s, p, at), id) <= Outstanding(s, id)
  {
  }

  lemma SnapshotMayFire(env: Env, s: State, p: ProcId, order: seq<JobId>, id: JobId)
    requires SnapshotInv(s) && !Eligible(s.core.db, id) && Enabled(env, s, Snapshot(p, order))
    ensures Outstanding(Next(env, s, Snapshot(p, order)), id) <= Outstanding(s, id)
  {
  }

  /** From `s` on, through all of `steps`, the job is never both enabled and unpaused. */
  ghost predicate StaysIneligible(env: Env, s: State, steps: seq<Step>, id: JobId) {
    forall k :: 0 <= k <= |steps| ==> !Eligible(Run(env, s, steps[..k]).core.db, id)
  }

  /** After a job is disabled or paused, and until that is undone, the scheduled entries still added for
      it are at most as many as the ticks that already had it in their snapshot. */
  lemma {:induction false} DisableIsEffective(env: Env, s: State, steps: seq<Step>, id: JobId)
    requires SnapshotInv(s) && Valid(s.core.db) && StaysIneligible(env, s, steps, id)
    ensures var s' := Run(env, s, steps);
      && SnapshotInv(s') && Valid(s'.core.db)
      && Fired(s'.core.queue, id) + |Outstanding(s', id)| <= Fired(s.core.queue, id) + |Outstanding(s, id)|
  {
    if steps != [] {
      var before := steps[..|steps| - 1];
      assert forall k :: 0 <= k <= |before| ==> before[..k] == steps[..k];
      DisableIsEffective(env, s, before, id);
      assert before == steps[..|before|];
      StepSpends(env, Run(env, s, before), steps[|steps| - 1], id);
      NextKeepsSnapshotInv(env, Run(env, s, before), steps[|steps| - 1]);
      NextKeepsDbValid(env, Run(env, s, before), steps[|steps| - 1]);
    }
  }

  lemma NextKeepsDbValid(env: Env, s: State, step: Step)
    requires Valid(s.core.db)
    ensures Valid(Next(env, s, step).core.db)
  {
    if Enabled(env, s, step) {
      if step.Store? {
        WriteKeepsValid(s.core.db, step.op);
      } else if step.Insert? {
        var pc := s.procs[step.p].pc;
        InsertKeepsValid(s.core.db, pc.job.id, pc.slot, step.at);
      }
    }
  }

  /** Reachable states satisfy what DisableIsEffective asks for. */
  lemma {:induction false} RunKeepsSnapshotInv(env: Env, now: int, steps: seq<Step>)
    ensures SnapshotInv(Run(env, Init(now), steps)) && Valid(Run(env, Init(now), steps).core.db)
  {
    if steps != [] {
      RunKeepsSnapshotInv(env, now, steps[..|steps| - 1]);
      NextKeepsSnapshotInv(env, Run(env, Init(now), steps[..|steps| - 1]), steps[|steps| - 1]);
      NextKeepsDbValid(env, Run(env, Init(now), steps[..|steps| - 1]), steps[|steps| - 1]);
    }
  }
}
