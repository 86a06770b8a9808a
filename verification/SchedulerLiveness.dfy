/** When every slot found due does get enqueued, and how a failure can prevent it. */
module SchedulerLiveness {
  import opened Domain
  import opened Database
  import opened Claims
  import opened Redis
  import opened Scheduler
  import LF = LockFree
  import SL = SchedulerLocks

  ghost predicate Made(c: Core, key: Claim) { exists e :: e in c.claims && c.claims[e] == key }

  /** The slot a process is set to claim. */
  function Pursuit(pc: Pc): Option<Claim> {
    if pc.Locking? || pc.Inserting? then Some(Claim(pc.job.id, pc.slot)) else None
  }

  ghost predicate Pursued(s: State, key: Claim) {
    exists p :: p in s.procs && Pursuit(s.procs[p].pc) == Some(key)
  }

  /** Some process is between the acquire and the insert for this slot. */
  ghost predicate BeingInserted(s: State, key: Claim) {
    exists p :: p in s.procs && s.procs[p].pc.Inserting? && Pursuit(s.procs[p].pc) == Some(key)
  }

  /** Nothing went wrong with this slot, and its job still exists. */
  predicate Sound(s: State, key: Claim) { key !in s.faults && key.jobId in s.core.db.jobs }

  ghost predicate SeenPursued(s: State) {
    forall key :: key in s.seen && Sound(s, key) ==> Made(s.core, key) || Pursued(s, key)
  }

  /** A slot lock implies that the row exists or that some process is about to insert it. */
  ghost predicate LockedPursued(s: State) {
    forall key :: key in s.locks && Sound(s, key) ==> Made(s.core, key) || BeingInserted(s, key)
  }

  predicate Jobs(pc: Pc, used: set<JobId>) {
    && (pc.Head? || pc.Locking? || pc.Inserting? || pc.Adding? || pc.Releasing? ==>
          forall j :: j in pc.rest ==> j.id in used)
    && (pc.Locking? || pc.Inserting? || pc.Adding? ==> pc.job.id in used)
  }

  ghost predicate KnownIds(s: State) {
    && (forall key :: key in s.seen || key in s.locks ==> key.jobId in s.core.db.usedIds)
    && (forall p :: p in s.procs ==> Jobs(s.procs[p].pc, s.core.db.usedIds))
  }

  ghost predicate LostFaulted(s: State) {
    forall e :: e in s.core.lost ==> e in s.core.claims && s.core.claims[e] in s.faults
  }

  ghost predicate LiveInv(s: State) {
    && LF.Inv(Erase(s)) && SeenPursued(s) && LockedPursued(s) && KnownIds(s) && LostFaulted(s)
  }

  // ---------- what one process's step does to the pursuit of slots ----------

  /** Process `p` moves, alone; the slot it was set to claim is settled unless it is still set to claim it. */
  ghost predicate Advances(s: State, s': State, p: ProcId) {
    && p in s'.procs && s'.procs == s.procs[p := s'.procs[p]]
    && s'.core.db.jobs == s.core.db.jobs && s'.core.db.usedIds == s.core.db.usedIds
    && s.faults <= s'.faults
    && (forall e :: e in s.core.claims ==> e in s'.core.claims && s'.core.claims[e] == s.core.claims[e])
    && (forall e :: e in s'.core.lost ==> e in s.core.lost || (e in s'.core.claims && s'.core.claims[e] in s'.faults))
    && Jobs(s'.procs[p].pc, s.core.db.usedIds)
    && var pc := s'.procs[p].pc;
       && (forall key :: key in s'.seen ==> key in s.seen || Pursuit(pc) == Some(key))
       && (forall key :: key in s'.locks ==>
            key in s.locks || key in s'.faults || (pc.Inserting? && Pursuit(pc) == Some(key)))
       && (forall key :: key in s'.locks ==> key in s.locks || (p in s.procs && Pursuit(s.procs[p].pc) == Some(key)))
       && (p in s.procs ==> Settles(s, s', s.procs[p].pc, pc))
  }

  ghost predicate Settles(s: State, s': State, pc: Pc, pc': Pc) {
    Pursuit(pc).Some? && !(pc'.Inserting? && Pursuit(pc') == Pursuit(pc)) ==>
      var key := Pursuit(pc).value;
      Made(s'.core, key) || !Sound(s', key) || (pc.Locking? && key in s.locks)
  }

  lemma AdvanceKeeps(s: State, s': State, p: ProcId)
    requires SeenPursued(s) && LockedPursued(s) && KnownIds(s) && LostFaulted(s) && Advances(s, s', p)
    ensures SeenPursued(s') && LockedPursued(s') && KnownIds(s') && LostFaulted(s')
  {
    forall key | Made(s.core, key)
      ensures Made(s'.core, key)
    {
      var e :| e in s.core.claims && s.core.claims[e] == key;
      assert e in s'.core.claims && s'.core.claims[e] == key;
    }
    forall key | key in s'.locks && Sound(s', key)
      ensures Made(s'.core, key) || BeingInserted(s', key)
    {
      LockedStays(s, s', p, key);
    }
    forall key | key in s'.seen && Sound(s', key)
      ensures Made(s'.core, key) || Pursued(s', key)
    {
      SeenStays(s, s', p, key);
    }
  }

  lemma LockedStays(s: State, s': State, p: ProcId, key: Claim)
    requires LockedPursued(s) && Advances(s, s', p) && key in s'.locks && Sound(s', key)
    requires Made(s.core, key) ==> Made(s'.core, key)
    ensures Made(s'.core, key) || BeingInserted(s', key)
  {
    if key in s.locks {
      if !Made(s.core, key) {
        var q :| q in s.procs && s.procs[q].pc.Inserting? && Pursuit(s.procs[q].pc) == Some(key);
        assert q in s'.procs && (q != p ==> s'.procs[q] == s.procs[q]);
      }
    } else {
      assert p in s'.procs && s'.procs[p].pc.Inserting? && Pursuit(s'.procs[p].pc) == Some(key);
    }
  }

  lemma SeenStays(s: State, s': State, p: ProcId, key: Claim)
    requires SeenPursued(s) && LockedPursued(s) && Advances(s, s', p) && key in s'.seen && Sound(s', key)
    requires Made(s.core, key) ==> Made(s'.core, key)
    ensures Made(s'.core, key) || Pursued(s', key)
  {
    if key !in s.seen {
      assert p in s'.procs && Pursuit(s'.procs[p].pc) == Some(key);
    } else if !Made(s.core, key) {
      var q :| q in s.procs && Pursuit(s.procs[q].pc) == Some(key);
      if q != p {
        assert q in s'.procs && Pursuit(s'.procs[q].pc) == Some(key);
      } else if s'.procs[p].pc.Inserting? && Pursuit(s'.procs[p].pc) == Some(key) {
        assert Pursued(s', key);
      } else if !Made(s'.core, key) {
        // the process gave up because the lock was taken: its holder is a different process
        var h :| h in s.procs && s.procs[h].pc.Inserting? && Pursuit(s.procs[h].pc) == Some(key);
        assert h != p && s'.procs[h] == s.procs[h];
      }
    }
  }

  lemma AcquireAdvances(env: Env, s: State, p: ProcId, oc: Outcome)
    requires KnownIds(s) && Enabled(env, s, Acquire(p, oc))
    ensures Advances(s, DoAcquire(env, s, p, oc), p)
  {
  }

  /** Process `p` has tried to claim `key`, and moves on to `s'`. */
  ghost predicate Claimed(s: State, s': State, p: ProcId, key: Claim) {
    && p in s.procs && s.procs[p].pc.Inserting? && Pursuit(s.procs[p].pc) == Some(key)
    && p in s'.procs && s'.procs == s.procs[p := s'.procs[p]] && (s'.procs[p].pc.Adding? || s'.procs[p].pc.Releasing?)
    && s'.core.db.jobs == s.core.db.jobs && s'.core.db.usedIds == s.core.db.usedIds
    && s.faults <= s'.faults && s'.seen == s.seen && s'.locks == s.locks && Jobs(s'.procs[p].pc, s.core.db.usedIds)
  }

  lemma InsertClaims(env: Env, s: State, p: ProcId, at: int, oc: Outcome)
    requires Claims.Inv(s.core) && KnownIds(s) && Enabled(env, s, Insert(p, at, oc))
    ensures var pc := s.procs[p].pc; var s' := DoInsert(env, s, p, at, oc); var key := Claim(pc.job.id, pc.slot);
      && Claimed(s, s', p, key) && s'.core == InsertClaim(s.core, pc.job, pc.slot, at, oc).0
      && (oc.Done? || key in s'.faults)
  {
    InsertKeepsInv(s.core, s.procs[p].pc.job, s.procs[p].pc.slot, at, oc);
  }

  lemma InsertAdvances(env: Env, s: State, p: ProcId, at: int, oc: Outcome)
    requires Claims.Inv(s.core) && KnownIds(s) && Enabled(env, s, Insert(p, at, oc))
    ensures Advances(s, DoInsert(env, s, p, at, oc), p)
  {
    var pc := s.procs[p].pc;
    InsertClaims(env, s, p, at, oc);
    InsertSettles(s, DoInsert(env, s, p, at, oc), p, pc.job, pc.slot, at, oc);
  }

  /** A claim that was won or taken is made; after a throw the job is gone or the slot faulted. */
  lemma InsertSettles(s: State, s': State, p: ProcId, job: Job, slot: FireSlot, at: int, oc: Outcome)
    requires Claims.Inv(s.core) && Claimed(s, s', p, Claim(job.id, slot))
    requires s'.core == InsertClaim(s.core, job, slot, at, oc).0 && (oc.Done? || Claim(job.id, slot) in s'.faults)
    ensures Advances(s, s', p)
  {
    InsertKeepsInv(s.core, job, slot, at, oc);
    var (c, r) := InsertClaim(s.core, job, slot, at, oc);
    if r.Won? {
      assert c.claims[r.exec] == Claim(job.id, slot);
    }
  }

  lemma AddAdvances(env: Env, s: State, p: ProcId, oc: Outcome)
    requires LF.Inv(Erase(s)) && KnownIds(s) && Enabled(env, s, Add(p, oc))
    ensures Advances(s, DoAdd(env, s, p, oc), p)
  {
    assert Erase(s).procs[p].Adding?;
  }

  lemma AbortAdvances(env: Env, s: State, p: ProcId)
    requires LF.Inv(Erase(s)) && KnownIds(s) && Enabled(env, s, Abort(p))
    ensures Advances(s, DoAbort(env, s, p), p)
  {
    assert s.procs[p].pc.Adding? ==> Erase(s).procs[p].Adding?;
  }

  lemma ReleaseAdvances(env: Env, s: State, p: ProcId, oc: Outcome)
    requires KnownIds(s) && Enabled(env, s, Release(p, oc))
    ensures Advances(s, DoRelease(env, s, p, oc), p)
  {
  }

  lemma EvaluateAdvances(env: Env, s: State, p: ProcId, at: int)
    requires KnownIds(s) && Enabled(env, s, Evaluate(p, at))
    ensures Advances(s, DoEvaluate(env, s, p, at), p)
  {
  }

  lemma StartOrFinishAdvances(env: Env, s: State, step: Step)
    requires Valid(s.core.db) && KnownIds(s) && Enabled(env, s, step)
    requires step.Begin? || step.Snapshot? || step.Trigger? || step.Finish?
    ensures Advances(s, Next(env, s, step), step.p)
  {
  }

  lemma StoreKeeps(env: Env, s: State, op: Op)
    requires LiveInv(s) && Allowed(s.core.db, op)
    ensures var s' := s.(core := s.core.(db := Write(s.core.db, op)));
      SeenPursued(s') && LockedPursued(s') && KnownIds(s') && LostFaulted(s')
  {
  }

  lemma ClockKeeps(s: State, s': State)
    requires LiveInv(s) && s' == s.(now := s'.now, leaders := s'.leaders)
    ensures SeenPursued(s') && LockedPursued(s') && KnownIds(s') && LostFaulted(s')
  {
  }

  lemma StepAdvances(env: Env, s: State, step: Step)
    requires LiveInv(s) && Enabled(env, s, step) && !step.Advance? && !step.SetFlag? && !step.Store?
    ensures Advances(s, Next(env, s, step), step.p)
  {
    match step
    case Acquire(p, oc) => AcquireAdvances(env, s, p, oc);
    case Insert(p, at, oc) => InsertAdvances(env, s, p, at, oc);
    case Add(p, oc) => AddAdvances(env, s, p, oc);
    case Release(p, oc) => ReleaseAdvances(env, s, p, oc);
    case Abort(p) => AbortAdvances(env, s, p);
    case Evaluate(p, at) => EvaluateAdvances(env, s, p, at);
    case _ => StartOrFinishAdvances(env, s, step);
  }

  lemma NextKeepsErasedInv(env: Env, s: State, step: Step)
    requires LF.Inv(Erase(s))
    ensures LF.Inv(Erase(Next(env, s, step)))
  {
    StepRefines(env, s, step);
    var e := EraseStep(env, s, step);
    if e != [] {
      LF.NextKeepsInv(env, Erase(s), e[0]);
    }
  }

  lemma NextKeepsLiveInv(env: Env, s: State, step: Step)
    requires LiveInv(s)
    ensures LiveInv(Next(env, s, step))
  {
    NextKeepsErasedInv(env, s, step);
    var s' := Next(env, s, step);
    if !Enabled(env, s, step) {
    } else if step.Store? {
      StoreKeeps(env, s, step.op);
    } else if step.Advance? || step.SetFlag? {
      ClockKeeps(s, s');
    } else {
      StepAdvances(env, s, step);
      AdvanceKeeps(s, s', step.p);
    }
  }

  lemma {:induction false} RunKeepsLiveInv(env: Env, now: int, steps: seq<Step>)
    ensures LiveInv(Run(env, Init(now), steps))
  {
    if steps != [] {
      RunKeepsLiveInv(env, now, steps[..|steps| - 1]);
      NextKeepsLiveInv(env, Run(env, Init(now), steps[..|steps| - 1]), steps[|steps| - 1]);
    }
  }

  // ---------- exactly once ----------

  ghost predicate Quiescent(s: State) { forall p :: p in s.procs ==> s.procs[p].pc.Finished? }

  /** Exactly one row and exactly one queue entry stand for the slot, and they belong together. */
  ghost predicate FiredExactlyOnce(c: Core, key: Claim) {
    exists e, i :: FiredAs(c, key, e, i)
  }

  ghost predicate FiredAs(c: Core, key: Claim, e: ExecId, i: nat) {
    && e in c.db.execs && i < |c.queue| && c.queue[i].executionId == e
    && (forall d :: d in c.db.execs && RowClaim(c.db.execs[d]) == key <==> d == e)
    && (forall j :: 0 <= j < |c.queue| && Claim(c.queue[j].jobId, c.queue[j].fireSlot) == key <==> j == i)
  }

  /** Once all ticks are done, every slot that any of them found due, that no failure hit and whose
      job still exists, has exactly one row and exactly one queue entry. */
  lemma QuiescentExactlyOnce(env: Env, now: int, steps: seq<Step>, key: Claim)
    requires var s := Run(env, Init(now), steps);
      Quiescent(s) && key in s.seen && key.slot.At? && Sound(s, key)
    ensures FiredExactlyOnce(Run(env, Init(now), steps).core, key)
  {
    RunKeepsLiveInv(env, now, steps);
    SettledFiredOnce(Run(env, Init(now), steps), key);
  }

  /** The slot was claimed, and no failure came between that claim and its enqueue. */
  ghost predicate Kept(c: Core, key: Claim) { exists e :: e in c.claims && c.claims[e] == key && e !in c.lost }

  /** Once all ticks are done, a slot of a job that still exists has fired exactly once iff its claim was kept,
      whatever failures hit the slot otherwise. */
  lemma FiredExactlyOnceIff(env: Env, now: int, steps: seq<Step>, key: Claim)
    requires var s := Run(env, Init(now), steps); Quiescent(s) && key.slot.At? && key.jobId in s.core.db.jobs
    ensures var s := Run(env, Init(now), steps); FiredExactlyOnce(s.core, key) <==> Kept(s.core, key)
  {
    RunKeepsLiveInv(env, now, steps);
    var s := Run(env, Init(now), steps);
    if Kept(s.core, key) {
      KeptFires(s, key);
    } else if FiredExactlyOnce(s.core, key) {
      FiredKept(s, key);
    }
  }

  lemma KeptFires(s: State, key: Claim)
    requires LiveInv(s) && Quiescent(s) && key.slot.At? && key.jobId in s.core.db.jobs && Kept(s.core, key)
    ensures FiredExactlyOnce(s.core, key)
  {
    var c := s.core;
    var e :| e in c.claims && c.claims[e] == key && e !in c.lost;
    assert !LF.BeingAdded(Erase(s), e);
    var i :| 0 <= i < |c.queue| && c.queue[i].executionId == e;
    assert FiredAs(c, key, e, i);
  }

  lemma FiredKept(s: State, key: Claim)
    requires LiveInv(s) && FiredExactlyOnce(s.core, key)
    ensures Kept(s.core, key)
  {
    var e, i :| FiredAs(s.core, key, e, i);
    assert RowClaim(s.core.db.execs[e]) == key;
  }

  lemma SettledFiredOnce(s: State, key: Claim)
    requires LiveInv(s) && Quiescent(s) && key in s.seen && key.slot.At? && Sound(s, key)
    ensures FiredExactlyOnce(s.core, key)
  {
    var e :| e in s.core.claims && s.core.claims[e] == key;
    KeptFires(s, key);
  }

  /** No call fails and nobody dies. */
  predicate Clean(step: Step) {
    match step
    case Acquire(_, oc) => oc.Done?
    case Insert(_, _, oc) => oc.Done?
    case Add(_, oc) => oc.Done?
    case Abort(_) => false
    case _ => true
  }

  lemma CleanStep(env: Env, s: State, step: Step)
    requires Clean(step)
    ensures Next(env, s, step).faults == s.faults
  {
  }

  lemma {:induction false} CleanRun(env: Env, now: int, steps: seq<Step>)
    requires forall k :: 0 <= k < |steps| ==> Clean(steps[k])
    ensures Run(env, Init(now), steps).faults == {}
  {
    if steps != [] {
      CleanRun(env, now, steps[..|steps| - 1]);
      CleanStep(env, Run(env, Init(now), steps[..|steps| - 1]), steps[|steps| - 1]);
    }
  }

  /** So in a run without failures and deaths, every slot found due of a job that still exists fires exactly once. */
  lemma CleanRunsFireExactlyOnce(env: Env, now: int, steps: seq<Step>, key: Claim)
    requires forall k :: 0 <= k < |steps| ==> Clean(steps[k])
    requires var s := Run(env, Init(now), steps);
      Quiescent(s) && key in s.seen && key.slot.At? && key.jobId in s.core.db.jobs
    ensures FiredExactlyOnce(Run(env, Init(now), steps).core, key)
  {
    CleanRun(env, now, steps);
    QuiescentExactlyOnce(env, now, steps, key);
  }

  /** A claim ends up in the queue exactly when no failure came between its insert and its enqueue. */
  lemma QuiescentClaims(env: Env, now: int, steps: seq<Step>, e: ExecId)
    requires var s := Run(env, Init(now), steps); Quiescent(s) && e in s.core.claims
    ensures var s := Run(env, Init(now), steps); Queued(s.core, e) <==> e !in s.core.lost
  {
    RunKeepsLiveInv(env, now, steps);
    assert !LF.BeingAdded(Erase(Run(env, Init(now), steps)), e);
  }

  // ---------- how failures break it ----------

  lemma {:induction false} LostStaysLost(env: Env, s: State, e: ExecId, more: seq<Step>)
    requires LiveInv(s) && e in s.core.lost
    ensures var s' := Run(env, s, more); LiveInv(s') && e in s'.core.lost && !Queued(s'.core, e)
  {
    if more != [] {
      var m, step := Run(env, s, more[..|more| - 1]), more[|more| - 1];
      LostStaysLost(env, s, e, more[..|more| - 1]);
      NextKeepsLiveInv(env, m, step);
      StepRefines(env, m, step);
      var a := EraseStep(env, m, step);
      if a != [] {
        LF.LostForever(env, Erase(m), a[0], e);
      }
    }
  }

  /** A death between the insert and queue.add strands the row: it stays as long as its job does,
      and no continuation whatsoever enqueues it. */
  lemma DeathStrandsClaim(env: Env, s: State, p: ProcId, more: seq<Step>)
    requires LiveInv(s) && p in s.procs && s.procs[p].pc.Adding?
    ensures var e := s.procs[p].pc.exec; var s' := Run(env, Next(env, s, Abort(p)), more);
      && e in s'.core.lost && !Queued(s'.core, e)
      && (e in s'.core.claims && s'.core.claims[e].jobId in s'.core.db.jobs ==> e in s'.core.db.execs)
  {
    NextKeepsLiveInv(env, s, Abort(p));
    LostStaysLost(env, Next(env, s, Abort(p)), s.procs[p].pc.exec, more);
  }

  /** Token `t` holds the slot's lock although nobody is left to use or release it. */
  ghost predicate Orphaned(s: State, t: Token) {
    && t < |s.grants| && t !in s.released
    && (forall p :: p in s.procs ==> SL.Held(s.procs[p].pc) != Some(t))
    && !BeingInserted(s, s.grants[t].key) && !Made(s.core, s.grants[t].key)
  }

  lemma {:induction false} OrphanStays(env: Env, s: State, t: Token, more: seq<Step>)
    requires SL.Inv(s) && Orphaned(s, t)
    ensures var s' := Run(env, s, more);
      SL.Inv(s') && t < |s'.grants| && s'.grants[t] == s.grants[t]
      && s.now <= s'.now && (s'.now < s.grants[t].expiry ==> Orphaned(s', t))
  {
    if more != [] {
      var m, step := Run(env, s, more[..|more| - 1]), more[|more| - 1];
      OrphanStays(env, s, t, more[..|more| - 1]);
      SL.NextKeepsInv(env, m, step);
      OrphanStep(env, m, t, step);
    }
  }

  /** An unexpired orphan survives the step. */
  ghost predicate OrphanSurvives(s: State, s': State, t: Token) {
    && |s.grants| <= |s'.grants| && (t < |s.grants| ==> s'.grants[t] == s.grants[t])
    && s.now <= s'.now
    && (Orphaned(s, t) && s.now < s.grants[t].expiry ==> Orphaned(s', t))
  }

  lemma OrphanStep(env: Env, s: State, t: Token, step: Step)
    requires SL.LockInv(s) && t < |s.grants|
    ensures OrphanSurvives(s, Next(env, s, step), t)
  {
    if Enabled(env, s, step) {
      match step
      case Acquire(p, oc) => OrphanAcquire(env, s, t, p, oc);
      case Insert(p, at, oc) => OrphanInsert(env, s, t, p, at, oc);
      case Release(p, oc) => OrphanRelease(env, s, t, p, oc);
      case _ => OrphanOtherStep(env, s, t, step);
    }
  }

  lemma OrphanOtherStep(env: Env, s: State, t: Token, step: Step)
    requires t < |s.grants| && Enabled(env, s, step) && !step.Acquire? && !step.Insert? && !step.Release?
    ensures OrphanSurvives(s, Next(env, s, step), t)
  {
    if step.Advance? || step.SetFlag? || step.Store? {
      assert Next(env, s, step).procs == s.procs;
    } else {
      OrphanOther(s, Next(env, s, step), t, step.p);
    }
  }

  lemma OrphanAcquire(env: Env, s: State, t: Token, p: ProcId, oc: Outcome)
    requires SL.StoredGrants(s) && SL.GrantsLast(s) && t < |s.grants| && Enabled(env, s, Acquire(p, oc))
    ensures OrphanSurvives(s, DoAcquire(env, s, p, oc), t)
  {
    var s' := DoAcquire(env, s, p, oc);
    if Orphaned(s, t) && s.now < s.grants[t].expiry {
      assert Live(s.locks, s.now, s.grants[t].key);
      assert s'.procs[p].pc.Inserting? ==> Pursuit(s'.procs[p].pc) != Some(s.grants[t].key);
      assert forall q :: q in s'.procs && q != p ==> s'.procs[q] == s.procs[q];
    }
  }

  lemma OrphanInsert(env: Env, s: State, t: Token, p: ProcId, at: int, oc: Outcome)
    requires t < |s.grants| && Enabled(env, s, Insert(p, at, oc))
    ensures OrphanSurvives(s, DoInsert(env, s, p, at, oc), t)
  {
  }

  lemma OrphanRelease(env: Env, s: State, t: Token, p: ProcId, oc: Outcome)
    requires t < |s.grants| && Enabled(env, s, Release(p, oc))
    ensures OrphanSurvives(s, DoRelease(env, s, p, oc), t)
  {
  }

  lemma OrphanOther(s: State, s': State, t: Token, p: ProcId)
    requires t < |s.grants| && s'.grants == s.grants && s'.released == s.released && s'.now == s.now
    requires s'.core.claims == s.core.claims && p in s'.procs && s'.procs == s.procs[p := s'.procs[p]]
    requires !s'.procs[p].pc.Inserting?
    requires SL.Held(s'.procs[p].pc).Some? ==> p in s.procs && SL.Held(s'.procs[p].pc) == SL.Held(s.procs[p].pc)
    ensures OrphanSurvives(s, s', t)
  {
  }

  /** In every reachable state, a token suppresses its slot iff its process threw or died without its release
      taking effect, while the slot is unclaimed and nobody is about to insert it. */
  lemma OrphanedIff(env: Env, now: int, steps: seq<Step>, t: Token)
    requires t < |Run(env, Init(now), steps).grants|
    ensures var s := Run(env, Init(now), steps); var g := s.grants[t];
      Orphaned(s, t) <==>
        && g.proc in s.procs && s.procs[g.proc].pc == Finished(true) && t !in s.released
        && !Made(s.core, g.key) && !BeingInserted(s, g.key)
  {
    SL.RunKeepsInv(env, now, steps);
    RunKeepsLiveInv(env, now, steps);
    var s := Run(env, Init(now), steps);
    if t in s.accepted {
      AcceptedMade(s, t);
    } else {
      UnheldIffEnded(s, t);
    }
  }

  lemma AcceptedMade(s: State, t: Token)
    requires SL.Inv(s) && LiveInv(s) && t in s.accepted && t < |s.grants|
    ensures Made(s.core, s.grants[t].key)
  {
    assert SL.Enters(s.core.queue, s.grants[t]);
    var i :| 0 <= i < |s.core.queue| && SL.EntryFor(s.core.queue[i], s.grants[t]);
    assert s.core.claims[s.core.queue[i].executionId] == s.grants[t].key;
  }

  lemma UnheldIffEnded(s: State, t: Token)
    requires SL.Inv(s) && t < |s.grants| && t !in s.accepted
    ensures var p := s.grants[t].proc;
      p in s.procs
      && (t !in s.released ==>
            ((forall q :: q in s.procs ==> SL.Held(s.procs[q].pc) != Some(t)) <==> s.procs[p].pc == Finished(true)))
  {
  }

  /** A lock that nobody is left to use suppresses its slot for the rest of its TTL: until then, in every
      continuation, nobody claims it. */
  lemma OrphanSuppressesSlot(env: Env, now: int, steps: seq<Step>, t: Token, more: seq<Step>)
    requires Orphaned(Run(env, Init(now), steps), t)
    ensures var s := Run(env, Init(now), steps); var s' := Run(env, s, more);
      s'.now < s.grants[t].expiry ==> !Made(s'.core, s.grants[t].key)
  {
    SL.RunKeepsInv(env, now, steps);
    OrphanStays(env, Run(env, Init(now), steps), t, more);
  }

  ghost predicate NobodyElseInserts(s: State, p: ProcId, key: Claim) {
    forall q :: q in s.procs && q != p && s.procs[q].pc.Inserting? ==> Pursuit(s.procs[q].pc) != Some(key)
  }

  /** A lock is orphaned by a death between the acquire and the insert, ... */
  lemma DeathOrphans(env: Env, s: State, p: ProcId)
    requires SL.OwnTokens(s) && p in s.procs && s.procs[p].pc.Inserting?
    requires var key := Pursuit(s.procs[p].pc).value; !Made(s.core, key) && NobodyElseInserts(s, p, key)
    ensures Orphaned(DoAbort(env, s, p), s.procs[p].pc.token)
  {
  }

  /** ... by an acquire that throws after it took effect, outside the try block, ... */
  lemma AcquireOrphans(env: Env, s: State, p: ProcId)
    requires SL.OwnTokens(s) && SL.KnownTokens(s) && p in s.procs && s.procs[p].pc.Locking?
    requires var key := Pursuit(s.procs[p].pc).value;
      !Live(s.locks, s.now, key) && !Made(s.core, key) && NobodyElseInserts(s, p, key)
    ensures Orphaned(DoAcquire(env, s, p, FailedAfter), |s.grants|)
  {
  }

  /** ... and by a failing release after an insert that threw without effect. */
  lemma ReleaseOrphans(env: Env, s: State, p: ProcId)
    requires SL.OwnTokens(s) && p in s.procs && s.procs[p].pc.Releasing? && s.procs[p].pc.rethrow
    requires s.procs[p].pc.token !in s.released
    requires !Made(s.core, s.procs[p].pc.key) && NobodyElseInserts(s, p, s.procs[p].pc.key)
    ensures Orphaned(DoRelease(env, s, p, FailedBefore), s.procs[p].pc.token)
  {
  }

  /** So a death between the acquire and the insert suppresses the slot until the lock expires. */
  lemma DeathSuppressesSlot(env: Env, s: State, p: ProcId, more: seq<Step>)
    requires SL.Inv(s) && p in s.procs && s.procs[p].pc.Inserting?
    requires var key := Pursuit(s.procs[p].pc).value; !Made(s.core, key) && NobodyElseInserts(s, p, key)
    ensures var key := Pursuit(s.procs[p].pc).value; var t := s.procs[p].pc.token;
      var s' := Run(env, DoAbort(env, s, p), more);
      t < |s.grants| && (s'.now < s.grants[t].expiry ==> !Made(s'.core, key))
  {
    DeathOrphans(env, s, p);
    SL.NextKeepsInv(env, s, Abort(p));
    OrphanStays(env, DoAbort(env, s, p), s.procs[p].pc.token, more);
  }
}
