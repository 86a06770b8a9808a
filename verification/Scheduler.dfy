/**
  src/scheduler.ts, src/lib/lock.ts and the trigger handler of src/routes/jobs.router.ts as one
  step system. Every await is a separate step, every remote call may throw before or after it
  took effect, and any process may die at any point.
 */
module Scheduler {
  import opened Domain
  import opened Database
  import opened Claims
  import opened LockTtl
  import opened Redis
  import LF = LockFree

  datatype Pc =
    | Scanning
    | Head(rest: seq<Job>)
    | Locking(job: Job, slot: FireSlot, rest: seq<Job>)                             // awaiting SET NX
    | Inserting(job: Job, slot: FireSlot, token: Token, rest: seq<Job>)             // awaiting the insert
    | Adding(job: Job, slot: FireSlot, token: Token, exec: ExecId, rest: seq<Job>)  // awaiting queue.add
    | Releasing(key: Claim, token: Token, rest: seq<Job>, rethrow: bool)            // awaiting the release
    | Finished(threw: bool)

  /** A tick or trigger with its counters: due slots met, slots deduped, tokens of slots enqueued. */
  datatype Proc = Proc(pc: Pc, due: nat, deduped: nat, enqueued: seq<Token>)

  /** A successful acquire. The i-th grant carries token i, as tokens are never repeated. */
  datatype Grant = Grant(key: Claim, proc: ProcId, config: Config, at: int, expiry: int)

  datatype State = State(
    now: int,                          // Redis's clock
    core: Core,
    locks: map<Claim, Slot<Token>>,
    leaders: set<nat>,                 // scheduler instances whose leader flag is true
    procs: map<ProcId, Proc>,
    // history
    grants: seq<Grant>,
    released: set<Token>,              // tokens whose release took effect
    accepted: set<Token>,              // tokens whose queue.add returned
    seen: set<Claim>,                  // slots some tick found due
    faults: set<Claim>)                // slots whose lock, insert or enqueue was hit by a failure

  function Init(now: int): State { State(now, Claims.EMPTY, map[], {}, map[], [], {}, {}, {}, {}) }

  datatype Step =
    | Advance(ms: nat)
    | SetFlag(instance: nat, leader: bool)
    | Store(op: Op)
    | Begin(p: ProcId, instance: nat)
    | Snapshot(p: ProcId, order: seq<JobId>)
    | Evaluate(p: ProcId, at: int)
    | Trigger(p: ProcId, id: JobId)
    | Acquire(p: ProcId, oc: Outcome)
    | Insert(p: ProcId, at: int, oc: Outcome)
    | Add(p: ProcId, oc: Outcome)
    | Release(p: ProcId, oc: Outcome)
    | Finish(p: ProcId)
    | Abort(p: ProcId)

  predicate Enabled(env: Env, s: State, step: Step) {
    match step
    case Advance(_) => true
    case SetFlag(_, _) => true
    case Store(op) => Allowed(s.core.db, op)
    case Begin(p, i) => p !in s.procs && (env.leaderElection ==> i in s.leaders)
    case Trigger(p, _) => p !in s.procs
    case Snapshot(p, order) => p in s.procs && s.procs[p].pc.Scanning? && LF.IsScan(s.core.db, order)
    case Evaluate(p, _) => p in s.procs && s.procs[p].pc.Head? && s.procs[p].pc.rest != []
    case Acquire(p, _) => p in s.procs && s.procs[p].pc.Locking?
    case Insert(p, _, _) => p in s.procs && s.procs[p].pc.Inserting?
    case Add(p, _) => p in s.procs && s.procs[p].pc.Adding?
    case Release(p, _) => p in s.procs && s.procs[p].pc.Releasing?
    case Finish(p) => p in s.procs && s.procs[p].pc.Head? && s.procs[p].pc.rest == []
    case Abort(p) => p in s.procs && !s.procs[p].pc.Finished?
  }

  function Goto(s: State, p: ProcId, pc: Pc): State
    requires p in s.procs
  {
    s.(procs := s.procs[p := s.procs[p].(pc := pc)])
  }

  function Deduped(s: State, p: ProcId): State
    requires p in s.procs
  {
    s.(procs := s.procs[p := s.procs[p].(deduped := s.procs[p].deduped + 1)])
  }

  function Fault(s: State, key: Claim, oc: Outcome): State {
    if oc.Done? then s else s.(faults := s.faults + {key})
  }

  /** The job and slot a process is working on, if any. */
  function Working(pc: Pc): Option<Claim> {
    if pc.Locking? || pc.Inserting? || pc.Adding? then Some(Claim(pc.job.id, pc.slot)) else None
  }

  function TtlMs(env: Env, job: Job): nat { TtlSeconds(env, job.config) * 1000 }

  function DoAcquire(env: Env, s: State, p: ProcId, oc: Outcome): State
    requires Enabled(env, s, Acquire(p, oc))
  {
    var Locking(job, slot, rest) := s.procs[p].pc;
    var key := Claim(job.id, slot);
    var token := |s.grants|;
    var (locks, ok) := if oc.FailedBefore? then (s.locks, false)
                       else SetNx(s.locks, s.now, key, token, TtlMs(env, job));
    var grant := Grant(key, p, job.config, s.now, s.now + TtlMs(env, job));
    var s' := if ok then s.(locks := locks, grants := s.grants + [grant]) else s;
    if !oc.Done? then Goto(Fault(s', key, oc), p, Finished(true))     // thrown outside the try: no release
    else if ok then Goto(s', p, Inserting(job, slot, token, rest))
    else Goto(Deduped(s', p), p, Head(rest))
  }

  function DoInsert(env: Env, s: State, p: ProcId, at: int, oc: Outcome): State
    requires Enabled(env, s, Insert(p, at, oc))
  {
    var Inserting(job, slot, token, rest) := s.procs[p].pc;
    var key := Claim(job.id, slot);
    var (c, r) := InsertClaim(s.core, job, slot, at, oc);
    var s' := Fault(s.(core := c), key, oc);
    match r
    case Won(e) => Goto(s', p, Adding(job, slot, token, e, rest))
    case Taken => Goto(Deduped(s', p), p, Releasing(key, token, rest, false))
    case Threw => Goto(s', p, Releasing(key, token, rest, true))
  }

  function DoAdd(env: Env, s: State, p: ProcId, oc: Outcome): State
    requires Enabled(env, s, Add(p, oc))
  {
    var Adding(job, slot, token, e, rest) := s.procs[p].pc;
    var key := Claim(job.id, slot);
    var s' := s.(core := Enqueue(s.core, job, slot, e, oc));
    if oc.Done?
    then s'.(accepted := s.accepted + {token},
             procs := s.procs[p := s.procs[p].(pc := Head(rest), enqueued := s.procs[p].enqueued + [token])])
    else Goto(if oc.FailedBefore? then Fault(s', key, oc) else s', p, Releasing(key, token, rest, true))
  }

  function DoRelease(env: Env, s: State, p: ProcId, oc: Outcome): State
    requires Enabled(env, s, Release(p, oc))
  {
    var Releasing(key, token, rest, rethrow) := s.procs[p].pc;
    var s' := if oc.FailedBefore? then s
              else s.(locks := DeleteIfEqual(s.locks, s.now, key, token), released := s.released + {token});
    Goto(s', p, if rethrow then Finished(true)
                else if !oc.Done? then Releasing(key, token, rest, true)   // the catch block releases again
                else Head(rest))
  }

  function DoAbort(env: Env, s: State, p: ProcId): State
    requires Enabled(env, s, Abort(p))
  {
    var pc := s.procs[p].pc;
    var s' := if pc.Adding? then s.(core := Forget(s.core, pc.exec)) else s;
    Goto(if Working(pc).Some? then s'.(faults := s'.faults + {Working(pc).value}) else s', p, Finished(true))
  }

  function DoEvaluate(env: Env, s: State, p: ProcId, at: int): State
    requires Enabled(env, s, Evaluate(p, at))
  {
    var rest := s.procs[p].pc.rest;
    match LF.Due(env, rest[0], at)
    case None => Goto(s, p, Head(rest[1..]))
    case Some(ms) =>
      s.(seen := s.seen + {Claim(rest[0].id, At(ms))},
         procs := s.procs[p := s.procs[p].(pc := Locking(rest[0], At(ms), rest[1..]), due := s.procs[p].due + 1)])
  }

  function Apply(env: Env, s: State, step: Step): State
    requires Enabled(env, s, step)
  {
    match step
    case Advance(ms) => s.(now := s.now + ms)
    case SetFlag(i, leader) => s.(leaders := if leader then s.leaders + {i} else s.leaders - {i})
    case Store(op) => s.(core := s.core.(db := Write(s.core.db, op)))
    case Begin(p, _) => s.(procs := s.procs[p := Proc(Scanning, 0, 0, [])])
    case Snapshot(p, order) => Goto(s, p, Head(LF.Rows(s.core.db, order)))
    case Evaluate(p, at) => DoEvaluate(env, s, p, at)
    case Trigger(p, id) =>
      if id in s.core.db.jobs && s.core.db.jobs[id].enabled
      then s.(procs := s.procs[p := Proc(Locking(s.core.db.jobs[id], Manual, []), 1, 0, [])])
      else s.(procs := s.procs[p := Proc(Finished(false), 0, 0, [])])
    case Acquire(p, oc) => DoAcquire(env, s, p, oc)
    case Insert(p, at, oc) => DoInsert(env, s, p, at, oc)
    case Add(p, oc) => DoAdd(env, s, p, oc)
    case Release(p, oc) => DoRelease(env, s, p, oc)
    case Finish(p) => Goto(s, p, Finished(false))
    case Abort(p) => DoAbort(env, s, p)
  }

  /** A step whose guard fails does not happen, so every sequence of steps is a run. */
  function Next(env: Env, s: State, step: Step): State {
    if Enabled(env, s, step) then Apply(env, s, step) else s
  }

  function Run(env: Env, s: State, steps: seq<Step>): State {
    if steps == [] then s else Next(env, Run(env, s, steps[..|steps| - 1]), steps[|steps| - 1])
  }

  // ---------- erasing locks and leaders ----------

  function ErasePc(pc: Pc): LF.Pc {
    match pc
    case Scanning => LF.Scanning
    case Head(rest) => LF.Head(rest)
    case Locking(job, slot, rest) => LF.Claiming(job, slot, rest)
    case Inserting(job, slot, _, rest) => LF.Claiming(job, slot, rest)
    case Adding(job, slot, _, e, rest) => LF.Adding(job, slot, e, rest)
    case Releasing(_, _, rest, rethrow) => if rethrow then LF.Finished(true) else LF.Head(rest)
    case Finished(threw) => LF.Finished(threw)
  }

  function Erase(s: State): LF.State {
    LF.State(s.core, map p | p in s.procs :: ErasePc(s.procs[p].pc))
  }

  /** The lock-free steps, at most one, that a step stands for. */
  function EraseStep(env: Env, s: State, step: Step): seq<LF.Step> {
    if !Enabled(env, s, step) then [] else
      match step
      case Advance(_) => []
      case SetFlag(_, _) => []
      case Store(op) => [LF.Store(op)]
      case Begin(p, _) => [LF.Begin(p)]
      case Snapshot(p, order) => [LF.Snapshot(p, order)]
      case Evaluate(p, at) => [LF.Evaluate(p, at)]
      case Trigger(p, id) => [LF.Trigger(p, id)]
      case Acquire(p, oc) =>
        if !oc.Done? then [LF.Abort(p)]
        else if Live(s.locks, s.now, Claim(s.procs[p].pc.job.id, s.procs[p].pc.slot)) then [LF.Pass(p)]
        else []
      case Insert(p, at, oc) => [LF.Insert(p, at, oc)]
      case Add(p, oc) => [LF.Add(p, oc)]
      case Release(p, oc) => if !s.procs[p].pc.rethrow && !oc.Done? then [LF.Abort(p)] else []
      case Finish(p) => [LF.Finish(p)]
      case Abort(p) => if s.procs[p].pc.Releasing? && s.procs[p].pc.rethrow then [] else [LF.Abort(p)]
  }

  function EraseRun(env: Env, s: State, steps: seq<Step>): seq<LF.Step> {
    if steps == [] then [] else
      var before := steps[..|steps| - 1];
      EraseRun(env, s, before) + EraseStep(env, Run(env, s, before), steps[|steps| - 1])
  }

  ghost predicate Refines(env: Env, s: State, step: Step) {
    var e := EraseStep(env, s, step);
    Erase(Next(env, s, step)) == if e == [] then Erase(s) else LF.Next(env, Erase(s), e[0])
  }

  lemma EraseGoto(s: State, s': State, p: ProcId)
    requires p in s'.procs && s'.procs == s.procs[p := s'.procs[p]]
    ensures Erase(s').procs == Erase(s).procs[p := ErasePc(s'.procs[p].pc)]
  {
  }

  lemma AcquireRefines(env: Env, s: State, p: ProcId, oc: Outcome)
    requires Enabled(env, s, Acquire(p, oc))
    ensures Refines(env, s, Acquire(p, oc))
  {
    EraseGoto(s, DoAcquire(env, s, p, oc), p);
  }

  /** The insert itself is the same in both protocols; only what the process does next carries a token. */
  lemma InsertErases(env: Env, s: State, p: ProcId, at: int, oc: Outcome)
    requires Enabled(env, s, Insert(p, at, oc))
    ensures var pc := s.procs[p].pc; var (c, r) := InsertClaim(s.core, pc.job, pc.slot, at, oc);
      var s' := DoInsert(env, s, p, at, oc);
      && p in s'.procs && s'.procs == s.procs[p := s'.procs[p]] && s'.core == c
      && ErasePc(s'.procs[p].pc) == match r case Won(e) => LF.Adding(pc.job, pc.slot, e, pc.rest)
                                            case Taken => LF.Head(pc.rest)
                                            case Threw => LF.Finished(true)
  {
  }

  lemma InsertRefines(env: Env, s: State, p: ProcId, at: int, oc: Outcome)
    requires Enabled(env, s, Insert(p, at, oc))
    ensures Refines(env, s, Insert(p, at, oc))
  {
    InsertErases(env, s, p, at, oc);
    EraseGoto(s, DoInsert(env, s, p, at, oc), p);
  }

  lemma AddRefines(env: Env, s: State, p: ProcId, oc: Outcome)
    requires Enabled(env, s, Add(p, oc))
    ensures Refines(env, s, Add(p, oc))
  {
    EraseGoto(s, DoAdd(env, s, p, oc), p);
  }

  lemma ReleaseRefines(env: Env, s: State, p: ProcId, oc: Outcome)
    requires Enabled(env, s, Release(p, oc))
    ensures Refines(env, s, Release(p, oc))
  {
    EraseGoto(s, DoRelease(env, s, p, oc), p);
  }

  lemma AbortRefines(env: Env, s: State, p: ProcId)
    requires Enabled(env, s, Abort(p))
    ensures Refines(env, s, Abort(p))
  {
    EraseGoto(s, DoAbort(env, s, p), p);
  }

  lemma EvaluateRefines(env: Env, s: State, p: ProcId, at: int)
    requires Enabled(env, s, Evaluate(p, at))
    ensures Refines(env, s, Evaluate(p, at))
  {
  }

  lemma BookkeepingRefines(env: Env, s: State, step: Step)
    requires step.Advance? || step.SetFlag? || step.Store?
    ensures Refines(env, s, step)
  {
  }

  lemma StartOrFinishRefines(env: Env, s: State, step: Step)
    requires step.Begin? || step.Snapshot? || step.Trigger? || step.Finish?
    ensures Refines(env, s, step)
  {
    if Enabled(env, s, step) {
      EraseGoto(s, Apply(env, s, step), step.p);
    }
  }

  lemma StepRefines(env: Env, s: State, step: Step)
    ensures Refines(env, s, step)
  {
    if step.Advance? || step.SetFlag? || step.Store? {
      BookkeepingRefines(env, s, step);
    } else if step.Begin? || step.Snapshot? || step.Trigger? || step.Finish? {
      StartOrFinishRefines(env, s, step);
    } else if Enabled(env, s, step) {
      match step
      case Acquire(p, oc) => AcquireRefines(env, s, p, oc);
      case Insert(p, at, oc) => InsertRefines(env, s, p, at, oc);
      case Add(p, oc) => AddRefines(env, s, p, oc);
      case Release(p, oc) => ReleaseRefines(env, s, p, oc);
      case Abort(p) => AbortRefines(env, s, p);
      case Evaluate(p, at) => EvaluateRefines(env, s, p, at);
    }
  }

  lemma ExtendErased(env: Env, s: State, step: Step, a: seq<LF.Step>)
    requires LF.Run(env, a) == Erase(s)
    ensures LF.Run(env, a + EraseStep(env, s, step)) == Erase(Next(env, s, step))
  {
    StepRefines(env, s, step);
    var e := EraseStep(env, s, step);
    if e == [] {
      assert a + e == a;
    } else {
      LF.RunAppend(env, a, e[0]);
    }
  }

  /** Locks and leader election are pure fast paths: with them erased, every run is a run of the
      lock-free protocol with the same inserts, claims and queue entries. */
  lemma {:induction false} RunRefines(env: Env, now: int, steps: seq<Step>)
    ensures LF.Run(env, EraseRun(env, Init(now), steps)) == Erase(Run(env, Init(now), steps))
  {
    if steps != [] {
      var before := steps[..|steps| - 1];
      RunRefines(env, now, before);
      ExtendErased(env, Run(env, Init(now), before), steps[|steps| - 1], EraseRun(env, Init(now), before));
    }
  }

  /** For any number of schedulers, clocks, expiries, flags, crashes, failures and deletions: no fire
      time of a job is enqueued twice, and the entry carries the id of that slot's only row. */
  lemma NeverFiresTwice(env: Env, now: int, steps: seq<Step>)
    ensures LF.AtMostOnce(Run(env, Init(now), steps).core)
  {
    RunRefines(env, now, steps);
    LF.RunKeepsInv(env, EraseRun(env, Init(now), steps));
    LF.InvGivesAtMostOnce(Run(env, Init(now), steps).core);
  }
}
