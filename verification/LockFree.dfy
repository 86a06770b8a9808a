/**
  The claim protocol with locks and leader election erased: any number of scheduler ticks and
  API triggers, interleaved at every await, that insert a row and then enqueue it. A tick may
  also pass over a due slot for no reason. The double-fire guarantee is proved here, so it
  rests on the unique constraint alone.
 */
module LockFree {
  import opened Domain
  import opened Database
  import opened Claims
  import CronUtils

  /** Where a tick or a trigger handler stands. */
  datatype Pc =
    | Scanning                                                        // awaiting findMany
    | Head(rest: seq<Job>)                                            // at the head of the loop
    | Claiming(job: Job, slot: FireSlot, rest: seq<Job>)              // has a due slot, no row yet
    | Adding(job: Job, slot: FireSlot, exec: ExecId, rest: seq<Job>)  // row inserted, awaiting queue.add
    | Finished(threw: bool)

  datatype State = State(core: Core, procs: map<ProcId, Pc>)

  const INIT := State(Claims.EMPTY, map[])

  datatype Step =
    | Store(op: Op)                                // an API, breaker or worker write commits
    | Begin(p: ProcId)
    | Snapshot(p: ProcId, order: seq<JobId>)
    | Evaluate(p: ProcId, at: int)                 // dueFireSlot, on this process's own clock
    | Trigger(p: ProcId, id: JobId)                // POST /:id/trigger reads the job
    | Pass(p: ProcId)
    | Insert(p: ProcId, at: int, oc: Outcome)
    | Add(p: ProcId, oc: Outcome)
    | Finish(p: ProcId)
    | Abort(p: ProcId)                             // a call throws, or the process dies

  /** findMany({enabled: true, paused: false}) returns each matching row once, in some order. */
  predicate IsScan(db: Db, order: seq<JobId>) {
    && (forall id :: id in order ==> id in db.jobs && Runnable(db.jobs[id]))
    && (forall id :: id in db.jobs && Runnable(db.jobs[id]) ==> id in order)
    && (forall i, j :: 0 <= i < j < |order| ==> order[i] != order[j])
  }

  predicate Runnable(job: Job) { job.enabled && !job.config.paused }

  function Rows(db: Db, order: seq<JobId>): seq<Job>
    requires forall id :: id in order ==> id in db.jobs
  {
    seq(|order|, i requires 0 <= i < |order| => db.jobs[order[i]])
  }

  function Due(env: Env, job: Job, at: int): Option<int> {
    CronUtils.DueFireSlot(env, job.config.cronExpression, job.config.timezone, at)
  }

  predicate Enabled(s: State, step: Step) {
    match step
    case Store(op) => Allowed(s.core.db, op)
    case Begin(p) => p !in s.procs
    case Snapshot(p, order) => p in s.procs && s.procs[p].Scanning? && IsScan(s.core.db, order)
    case Evaluate(p, _) => p in s.procs && s.procs[p].Head? && s.procs[p].rest != []
    case Trigger(p, _) => p !in s.procs
    case Pass(p) => p in s.procs && s.procs[p].Claiming?
    case Insert(p, _, _) => p in s.procs && s.procs[p].Claiming?
    case Add(p, _) => p in s.procs && s.procs[p].Adding?
    case Finish(p) => p in s.procs && s.procs[p].Head? && s.procs[p].rest == []
    case Abort(p) => p in s.procs && !s.procs[p].Finished?
  }

  function Goto(s: State, p: ProcId, pc: Pc): State { s.(procs := s.procs[p := pc]) }

  function Apply(env: Env, s: State, step: Step): State
    requires Enabled(s, step)
  {
    match step
    case Store(op) => s.(core := s.core.(db := Write(s.core.db, op)))
    case Begin(p) => Goto(s, p, Scanning)
    case Snapshot(p, order) => Goto(s, p, Head(Rows(s.core.db, order)))
    case Evaluate(p, at) =>
      var Head(rest) := s.procs[p];
      (match Due(env, rest[0], at)
       case None => Goto(s, p, Head(rest[1..]))
       case Some(ms) => Goto(s, p, Claiming(rest[0], At(ms), rest[1..])))
    case Trigger(p, id) =>
      if id in s.core.db.jobs && s.core.db.jobs[id].enabled
      then Goto(s, p, Claiming(s.core.db.jobs[id], Manual, []))
      else Goto(s, p, Finished(false))
    case Pass(p) => Goto(s, p, Head(s.procs[p].rest))
    case Insert(p, at, oc) =>
      var Claiming(job, slot, rest) := s.procs[p];
      var (c, r) := InsertClaim(s.core, job, slot, at, oc);
      Goto(s.(core := c), p, match r case Won(e) => Adding(job, slot, e, rest)
                                     case Taken => Head(rest)
                                     case Threw => Finished(true))
    case Add(p, oc) =>
      var Adding(job, slot, e, rest) := s.procs[p];
      Goto(s.(core := Enqueue(s.core, job, slot, e, oc)), p, if oc.Done? then Head(rest) else Finished(true))
    case Finish(p) => Goto(s, p, Finished(false))
    case Abort(p) =>
      var pc := s.procs[p];
      Goto(if pc.Adding? then s.(core := Forget(s.core, pc.exec)) else s, p, Finished(true))
  }

  /** A step whose guard fails does not happen, so every sequence of steps is a run. */
  function Next(env: Env, s: State, step: Step): State {
    if Enabled(s, step) then Apply(env, s, step) else s
  }

  function Run(env: Env, steps: seq<Step>): State {
    if steps == [] then INIT else Next(env, Run(env, steps[..|steps| - 1]), steps[|steps| - 1])
  }

  lemma RunAppend(env: Env, steps: seq<Step>, step: Step)
    ensures Run(env, steps + [step]) == Next(env, Run(env, steps), step)
  {
  }

  /** A process about to enqueue owns a claim that nobody else enqueues or gave up on. */
  ghost predicate AddersOwnClaims(s: State) {
    && (forall p :: p in s.procs && s.procs[p].Adding? ==>
      var a := s.procs[p];
      && a.exec in s.core.claims && s.core.claims[a.exec] == Claim(a.job.id, a.slot)
      && !Queued(s.core, a.exec) && a.exec !in s.core.lost)
    && (forall p, q ::
          p in s.procs && q in s.procs && p != q && s.procs[p].Adding? && s.procs[q].Adding?
          ==> s.procs[p].exec != s.procs[q].exec)
  }

  ghost predicate BeingAdded(s: State, e: ExecId) {
    exists p :: p in s.procs && s.procs[p].Adding? && s.procs[p].exec == e
  }

  /** No claim disappears: it is enqueued, or about to be, or known to be lost. */
  ghost predicate Conserved(s: State) {
    forall e :: e in s.core.claims ==> Queued(s.core, e) || BeingAdded(s, e) || e in s.core.lost
  }

  ghost predicate Inv(s: State) {
    Claims.Inv(s.core) && AddersOwnClaims(s) && Conserved(s)
  }

  lemma StoreKeepsInv(s: State, op: Op)
    requires Inv(s) && Allowed(s.core.db, op)
    ensures Inv(s.(core := s.core.(db := Write(s.core.db, op))))
  {
    WriteKeepsInv(s.core, op);
    var s' := s.(core := s.core.(db := Write(s.core.db, op)));
    assert forall e :: Queued(s.core, e) ==> Queued(s'.core, e);
    assert forall e :: BeingAdded(s, e) ==> BeingAdded(s', e);
  }

  /** Moves that neither claim nor enqueue, by a process that is not adding. */
  lemma MoveKeepsInv(s: State, p: ProcId, pc: Pc)
    requires Inv(s) && !pc.Adding? && (p in s.procs ==> !s.procs[p].Adding?)
    ensures Inv(Goto(s, p, pc))
  {
    var s' := Goto(s, p, pc);
    forall e | BeingAdded(s, e)
      ensures BeingAdded(s', e)
    {
      var q :| q in s.procs && s.procs[q].Adding? && s.procs[q].exec == e;
      assert s'.procs[q] == s.procs[q];
    }
  }

  /** A move of `p` leaves everybody else's pending enqueue pending. */
  lemma OthersStillAdd(s: State, c: Core, p: ProcId, pc: Pc)
    requires p in s.procs && !s.procs[p].Adding?
    ensures forall e :: BeingAdded(s, e) ==> BeingAdded(Goto(s.(core := c), p, pc), e)
  {
    var s' := Goto(s.(core := c), p, pc);
    forall e | BeingAdded(s, e)
      ensures BeingAdded(s', e)
    {
      var q :| q in s.procs && s.procs[q].Adding? && s.procs[q].exec == e;
      assert s'.procs[q] == s.procs[q];
    }
  }

  lemma WonKeepsInv(s: State, p: ProcId, c: Core, pc: Pc)
    requires Inv(s) && p in s.procs && !s.procs[p].Adding? && pc.Adding? && Claims.Inv(c)
    requires c.queue == s.core.queue && c.lost == s.core.lost && pc.exec !in s.core.claims
    requires c.claims == s.core.claims[pc.exec := Claim(pc.job.id, pc.slot)]
    ensures Inv(Goto(s.(core := c), p, pc))
  {
    OthersStillAdd(s, c, p, pc);
    var s' := Goto(s.(core := c), p, pc);
    assert forall e :: Queued(s'.core, e) <==> Queued(s.core, e);
    assert s'.procs[p] == pc && BeingAdded(s', pc.exec);
  }

  lemma ThrewKeepsInv(s: State, p: ProcId, c: Core, e: ExecId, key: Claim)
    requires Inv(s) && p in s.procs && !s.procs[p].Adding? && Claims.Inv(c)
    requires c.queue == s.core.queue && e !in s.core.claims
    requires c.lost == s.core.lost + {e} && c.claims == s.core.claims[e := key]
    ensures Inv(Goto(s.(core := c), p, Finished(true)))
  {
    OthersStillAdd(s, c, p, Finished(true));
    var s' := Goto(s.(core := c), p, Finished(true));
    assert forall d :: Queued(s'.core, d) <==> Queued(s.core, d);
  }

  lemma InsertStepKeepsInv(env: Env, s: State, p: ProcId, at: int, oc: Outcome)
    requires Inv(s) && Enabled(s, Insert(p, at, oc))
    ensures Inv(Apply(env, s, Insert(p, at, oc)))
  {
    var Claiming(job, slot, rest) := s.procs[p];
    var (c, r) := InsertClaim(s.core, job, slot, at, oc);
    InsertKeepsInv(s.core, job, slot, at, oc);
    match r
    case Won(e) => WonKeepsInv(s, p, c, Adding(job, slot, e, rest));
    case Taken => MoveKeepsInv(s, p, Head(rest));
    case Threw =>
      if c == s.core {
        MoveKeepsInv(s, p, Finished(true));
      } else {
        var e :| e !in s.core.claims && c.lost == s.core.lost + {e}
                 && c.claims == s.core.claims[e := Claim(job.id, slot)];
        ThrewKeepsInv(s, p, c, e, Claim(job.id, slot));
      }
  }

  /** The adding process resolves its claim one way or the other. */
  lemma ResolveKeepsInv(s: State, p: ProcId, c: Core, pc: Pc)
    requires Inv(s) && p in s.procs && s.procs[p].Adding? && !pc.Adding?
    requires Claims.Inv(c) && c.claims == s.core.claims
    requires var e := s.procs[p].exec;
      && s.core.lost <= c.lost <= s.core.lost + {e}
      && (forall d :: d in c.claims && d != e ==> (Queued(c, d) <==> Queued(s.core, d)))
      && (Queued(c, e) || e in c.lost)
    ensures Inv(Goto(s.(core := c), p, pc))
  {
    var s' := Goto(s.(core := c), p, pc);
    forall d | d in c.claims && d != s.procs[p].exec && BeingAdded(s, d)
      ensures BeingAdded(s', d)
    {
      var q :| q in s.procs && s.procs[q].Adding? && s.procs[q].exec == d;
      assert s'.procs[q] == s.procs[q];
    }
  }

  lemma NextKeepsInv(env: Env, s: State, step: Step)
    requires Inv(s)
    ensures Inv(Next(env, s, step))
  {
    if Enabled(s, step) {
      match step
      case Store(op) => StoreKeepsInv(s, op);
      case Insert(p, at, oc) => InsertStepKeepsInv(env, s, p, at, oc);
      case Add(p, oc) =>
        var Adding(job, slot, e, rest) := s.procs[p];
        EnqueueKeepsInv(s.core, job, slot, e, oc);
        ResolveKeepsInv(s, p, Enqueue(s.core, job, slot, e, oc), if oc.Done? then Head(rest) else Finished(true));
      case Abort(p) =>
        if s.procs[p].Adding? {
          var c := Forget(s.core, s.procs[p].exec);
          assert forall d :: Queued(c, d) <==> Queued(s.core, d);
          ResolveKeepsInv(s, p, c, Finished(true));
        } else {
          MoveKeepsInv(s, p, Finished(true));
        }
      case Begin(p) => MoveKeepsInv(s, p, Scanning);
      case Snapshot(p, order) => MoveKeepsInv(s, p, Apply(env, s, step).procs[p]);
      case Evaluate(p, at) => MoveKeepsInv(s, p, Apply(env, s, step).procs[p]);
      case Trigger(p, id) => MoveKeepsInv(s, p, Apply(env, s, step).procs[p]);
      case Pass(p) => MoveKeepsInv(s, p, Apply(env, s, step).procs[p]);
      case Finish(p) => MoveKeepsInv(s, p, Finished(false));
    }
  }

  lemma {:induction false} RunKeepsInv(env: Env, steps: seq<Step>)
    ensures Inv(Run(env, steps))
  {
    if steps != [] {
      RunKeepsInv(env, steps[..|steps| - 1]);
      NextKeepsInv(env, Run(env, steps[..|steps| - 1]), steps[|steps| - 1]);
    }
  }

  /** No cron fire time of a job is enqueued twice, and the entry carries the one claim's id. */
  ghost predicate AtMostOnce(c: Core) {
    && (forall i, j ::
          0 <= i < j < |c.queue| && c.queue[i].fireSlot.At? && c.queue[i].jobId == c.queue[j].jobId
          ==> c.queue[i].fireSlot != c.queue[j].fireSlot)
    && (forall i :: 0 <= i < |c.queue| && c.queue[i].fireSlot.At? ==>
      forall e :: e in c.claims && c.claims[e] == Claim(c.queue[i].jobId, c.queue[i].fireSlot)
        <==> e == c.queue[i].executionId)
  }

  lemma InvGivesAtMostOnce(c: Core)
    requires Claims.Inv(c)
    ensures AtMostOnce(c)
  {
  }

  /** A claim whose queue entry was lost is never enqueued later, whatever happens. */
  lemma LostForever(env: Env, s: State, step: Step, e: ExecId)
    requires Inv(s) && e in s.core.lost
    ensures e in Next(env, s, step).core.lost && !Queued(Next(env, s, step).core, e)
  {
    NextKeepsInv(env, s, step);
    if Enabled(s, step) && step.Insert? {
      InsertKeepsInv(s.core, s.procs[step.p].job, s.procs[step.p].slot, step.at, step.oc);
    }
  }
}
