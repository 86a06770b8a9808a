/** What the owner-token locks of src/lib/lock.ts guarantee over whole runs, and what a tick leaves behind. */
module SchedulerLocks {
  import opened Domain
  import opened Claims
  import opened LockTtl
  import opened Redis
  import opened Scheduler

  /** The token a process carries. */
  function Held(pc: Pc): Option<Token> {
    if pc.Inserting? || pc.Adding? || pc.Releasing? then Some(pc.token) else None
  }

  function HeldKey(pc: Pc): Claim
    requires Held(pc).Some?
  {
    if pc.Releasing? then pc.key else Claim(pc.job.id, pc.slot)
  }

  /** A stored token belongs to a grant for that key. */
  ghost predicate StoredGrants(s: State) {
    forall k :: k in s.locks ==>
      var t := s.locks[k].value;
      t < |s.grants| && s.grants[t].key == k && s.grants[t].expiry == s.locks[k].expiry
  }

  /** A grant stays in the store until its own release or its expiry. */
  ghost predicate GrantsLast(s: State) {
    forall t :: 0 <= t < |s.grants| ==>
      && s.grants[t].at <= s.now
      && (t in s.released || s.grants[t].expiry <= s.now
          || (s.grants[t].key in s.locks && s.locks[s.grants[t].key].value == t))
  }

  /** At most one live owner: a key is granted again only after a release or after the expiry. */
  ghost predicate Exclusive(grants: seq<Grant>, released: set<Token>) {
    forall t, u ::
      0 <= t < u < |grants| && grants[t].key == grants[u].key
      ==> t in released || grants[t].expiry <= grants[u].at
  }

  /** The token a process carries is its own, not yet accepted, and released only if it is releasing twice. */
  ghost predicate OwnTokens(s: State) {
    forall p :: p in s.procs && Held(s.procs[p].pc).Some? ==>
      var t := Held(s.procs[p].pc).value;
      && t < |s.grants| && s.grants[t].proc == p && s.grants[t].key == HeldKey(s.procs[p].pc)
      && (!s.procs[p].pc.Releasing? ==> s.grants[t].config == s.procs[p].pc.job.config)
      && (t in s.released ==> s.procs[p].pc.Releasing?) && t !in s.accepted
  }

  ghost predicate KnownTokens(s: State) {
    && (forall t :: t in s.released || t in s.accepted ==> t < |s.grants|)
    && s.released !! s.accepted
  }

  ghost predicate LockInv(s: State) {
    StoredGrants(s) && GrantsLast(s) && Exclusive(s.grants, s.released) && OwnTokens(s) && KnownTokens(s)
  }

  // ---------- the four kinds of step ----------

  /** Time passes, a flag flips or a write commits. */
  ghost predicate Idles(s: State, s': State) {
    s' == s.(now := s'.now, core := s'.core, leaders := s'.leaders) && s.now <= s'.now
    && s'.core.queue == s.core.queue
  }

  /** A free key is granted to process `p`, which carries the new token or has thrown. */
  ghost predicate Granted(s: State, s': State, p: ProcId, key: Claim, config: Config, expiry: int) {
    var n := |s.grants|;
    && !Live(s.locks, s.now, key) && s'.now == s.now && s'.core.queue == s.core.queue
    && s'.grants == s.grants + [Grant(key, p, config, s.now, expiry)] && s'.locks == s.locks[key := Slot(n, expiry)]
    && s'.released == s.released && s'.accepted == s.accepted
    && p in s.procs && s.procs[p].pc.Locking? && p in s'.procs && s'.procs == s.procs[p := s'.procs[p]]
    && var r := s'.procs[p];
       && r == s.procs[p].(pc := r.pc)
       && (r.pc == Finished(true)
           || (r.pc.Inserting? && r.pc.token == n && HeldKey(r.pc) == key && r.pc.job.config == config))
  }

  /** Process `p` has enqueued its slot, and keeps the lock. */
  ghost predicate Accepts(s: State, s': State, p: ProcId, e: Entry) {
    && p in s.procs && s.procs[p].pc.Adding?
    && var r := s.procs[p];
       && s'.now == s.now && s'.locks == s.locks
       && s'.grants == s.grants && s'.released == s.released && s'.accepted == s.accepted + {r.pc.token}
       && s'.core.queue == s.core.queue + [e] && Claim(e.jobId, e.fireSlot) == HeldKey(r.pc)
       && e.options == ExecutionJobOptions(r.pc.job.config)
       && s'.procs == s.procs[p := r.(pc := Head(r.pc.rest), enqueued := r.enqueued + [r.pc.token])]
  }

  function InFlight(pc: Pc): nat { if pc.Locking? || pc.Inserting? || pc.Adding? then 1 else 0 }

  predicate Failing(pc: Pc) { pc == Finished(true) || (pc.Releasing? && pc.rethrow) }

  /** Process `p` moves on in any other way; the token it carries it keeps, or releases, or drops by throwing. */
  ghost predicate Moves(s: State, s': State, p: ProcId) {
    && s'.now == s.now && s'.grants == s.grants && s'.accepted == s.accepted && s.core.queue <= s'.core.queue
    && p in s'.procs && s'.procs == s.procs[p := s'.procs[p]]
    && var r := s'.procs[p];
       && (Failing(r.pc) || r.due == r.deduped + |r.enqueued| + InFlight(r.pc))
       && if p !in s.procs then r.enqueued == [] && Held(r.pc).None? && Unlocked(s, s') else
            var pc := s.procs[p].pc;
            && r.enqueued == s.procs[p].enqueued && pc != Finished(true)
            && (Unlocked(s, s')
                || (pc.Releasing? && !(r.pc.Inserting? || r.pc.Adding?) && Unlocks(s, s', pc.key, pc.token)))
            && (Held(r.pc).Some? ==> Held(pc) == Held(r.pc) && HeldKey(pc) == HeldKey(r.pc)
                                     && (!r.pc.Releasing? ==> !pc.Releasing? && pc.job == r.pc.job))
            && (Held(pc).Some? && Held(r.pc).None? ==> pc.token in s'.released || r.pc == Finished(true))
  }

  ghost predicate Unlocked(s: State, s': State) { s'.locks == s.locks && s'.released == s.released }

  ghost predicate Unlocks(s: State, s': State, key: Claim, t: Token) {
    s'.locks == DeleteIfEqual(s.locks, s.now, key, t) && s'.released == s.released + {t}
  }

  /** The counters agree with the program point. */
  ghost predicate SlotsCounted(s: State) {
    forall p :: p in s.procs ==>
      var r := s.procs[p];
      !Failing(r.pc) ==> r.due == r.deduped + |r.enqueued| + InFlight(r.pc)
  }

  lemma AcquireEffect(env: Env, s: State, p: ProcId, oc: Outcome)
    requires Enabled(env, s, Acquire(p, oc)) && SlotsCounted(s)
    ensures var s' := DoAcquire(env, s, p, oc); var pc := s.procs[p].pc;
      Moves(s, s', p) || Granted(s, s', p, Claim(pc.job.id, pc.slot), pc.job.config, s.now + TtlMs(env, pc.job))
  {
  }

  lemma InsertMoves(env: Env, s: State, p: ProcId, at: int, oc: Outcome)
    requires Enabled(env, s, Insert(p, at, oc)) && SlotsCounted(s)
    ensures Moves(s, DoInsert(env, s, p, at, oc), p)
  {
  }

  lemma AddEffect(env: Env, s: State, p: ProcId, oc: Outcome)
    requires Enabled(env, s, Add(p, oc)) && SlotsCounted(s)
    ensures var s' := DoAdd(env, s, p, oc);
      if oc.Done? then |s'.core.queue| > 0 && Accepts(s, s', p, s'.core.queue[|s'.core.queue| - 1]) else Moves(s, s', p)
  {
  }

  lemma ReleaseMoves(env: Env, s: State, p: ProcId, oc: Outcome)
    requires Enabled(env, s, Release(p, oc)) && SlotsCounted(s)
    ensures Moves(s, DoRelease(env, s, p, oc), p)
  {
  }

  lemma AbortMoves(env: Env, s: State, p: ProcId)
    requires Enabled(env, s, Abort(p)) && SlotsCounted(s)
    ensures Moves(s, DoAbort(env, s, p), p)
  {
  }

  lemma EvaluateMoves(env: Env, s: State, p: ProcId, at: int)
    requires Enabled(env, s, Evaluate(p, at)) && SlotsCounted(s)
    ensures Moves(s, DoEvaluate(env, s, p, at), p)
  {
  }

  lemma StartOrFinishMoves(env: Env, s: State, step: Step)
    requires Enabled(env, s, step) && SlotsCounted(s)
    requires step.Begin? || step.Snapshot? || step.Trigger? || step.Finish?
    ensures Moves(s, Next(env, s, step), step.p)
  {
  }

  /** Every step is of one of the four kinds. */
  lemma Effect(env: Env, s: State, step: Step)
    requires SlotsCounted(s)
    ensures var s' := Next(env, s, step);
      || Idles(s, s')
      || (exists p :: Moves(s, s', p))
      || (exists p, key, config, expiry :: Granted(s, s', p, key, config, expiry))
      || (exists p, e :: Accepts(s, s', p, e))
  {
    var s' := Next(env, s, step);
    if Enabled(env, s, step) {
      match step
      case Acquire(p, oc) => AcquireEffect(env, s, p, oc);
      case Insert(p, at, oc) => InsertMoves(env, s, p, at, oc); assert Moves(s, s', p);
      case Add(p, oc) => AddEffect(env, s, p, oc);
      case Release(p, oc) => ReleaseMoves(env, s, p, oc); assert Moves(s, s', p);
      case Abort(p) => AbortMoves(env, s, p); assert Moves(s, s', p);
      case Evaluate(p, at) => EvaluateMoves(env, s, p, at); assert Moves(s, s', p);
      case Advance(_) => assert Idles(s, s');
      case SetFlag(_, _) => assert Idles(s, s');
      case Store(_) => assert Idles(s, s');
      case _ => StartOrFinishMoves(env, s, step); assert Moves(s, s', step.p);
    }
  }

  // ---------- locks over whole runs ----------

  lemma GrantKeepsLockInv(s: State, s': State, p: ProcId, key: Claim, config: Config, expiry: int)
    requires LockInv(s) && Granted(s, s', p, key, config, expiry)
    ensures LockInv(s')
  {
  }

  lemma MoveKeepsLockInv(s: State, s': State, p: ProcId)
    requires LockInv(s) && Moves(s, s', p)
    ensures LockInv(s')
  {
  }

  lemma AcceptKeepsLockInv(s: State, s': State, p: ProcId, e: Entry)
    requires LockInv(s) && Accepts(s, s', p, e)
    ensures LockInv(s')
  {
  }

  lemma NextKeepsLockInv(env: Env, s: State, step: Step)
    requires LockInv(s) && SlotsCounted(s)
    ensures LockInv(Next(env, s, step))
  {
    var s' := Next(env, s, step);
    Effect(env, s, step);
    if p :| Moves(s, s', p) {
      MoveKeepsLockInv(s, s', p);
    } else if p, key, config, expiry :| Granted(s, s', p, key, config, expiry) {
      GrantKeepsLockInv(s, s', p, key, config, expiry);
    } else if p, e :| Accepts(s, s', p, e) {
      AcceptKeepsLockInv(s, s', p, e);
    }
  }

  lemma ReleaseDeletesOwn(env: Env, s: State, p: ProcId, oc: Outcome, key: Claim)
    requires OwnTokens(s) && Enabled(env, s, Release(p, oc)) && key in s.locks
    ensures var s' := DoRelease(env, s, p, oc); var t := s.locks[key].value;
      || (key in s'.locks && s'.locks[key] == s.locks[key])
      || (t < |s.grants| && s.grants[t].proc == p && Held(s.procs[p].pc) == Some(t))
  {
  }

  lemma LocksChangeOnly(env: Env, s: State, step: Step)
    requires !step.Acquire? && !step.Release?
    ensures Next(env, s, step).locks == s.locks
  {
  }

  /** Only its owner's release removes an unexpired lock. */
  lemma OnlyOwnerDeletes(env: Env, s: State, step: Step, key: Claim)
    requires OwnTokens(s) && Live(s.locks, s.now, key)
    ensures var s' := Next(env, s, step); var t := s.locks[key].value;
      || (key in s'.locks && s'.locks[key] == s.locks[key])
      || (step.Release? && t < |s.grants| && s.grants[t].proc == step.p && Held(s.procs[step.p].pc) == Some(t))
  {
    if step.Release? {
      if Enabled(env, s, step) {
        ReleaseDeletesOwn(env, s, step.p, step.oc, key);
      }
    } else if step.Acquire? {
      if Enabled(env, s, step) {
        AcquireSparesLive(env, s, step.p, step.oc, key);
      }
    } else {
      LocksChangeOnly(env, s, step);
    }
  }

  lemma AcquireSparesLive(env: Env, s: State, p: ProcId, oc: Outcome, key: Claim)
    requires Enabled(env, s, Acquire(p, oc)) && Live(s.locks, s.now, key)
    ensures var s' := DoAcquire(env, s, p, oc); key in s'.locks && s'.locks[key] == s.locks[key]
  {
  }

  // ---------- accounting ----------

  /** Every grant is still held, was released, was kept for an enqueued slot, or its process threw or died. */
  ghost predicate GrantsAccounted(s: State) {
    forall t :: 0 <= t < |s.grants| ==>
      var p := s.grants[t].proc;
      p in s.procs
      && (Held(s.procs[p].pc) == Some(t) || t in s.released || t in s.accepted || s.procs[p].pc == Finished(true))
  }

  /** A process's list of enqueued tokens is exactly its accepted tokens. */
  ghost predicate EnqueuedAccounted(s: State) {
    && (forall p :: p in s.procs ==> OwnAccepted(s, p))
    && (forall t :: t in s.accepted ==>
          t < |s.grants| && s.grants[t].proc in s.procs && t in s.procs[s.grants[t].proc].enqueued)
  }

  ghost predicate OwnAccepted(s: State, p: ProcId)
    requires p in s.procs
  {
    forall t :: t in s.procs[p].enqueued ==> t in s.accepted && t < |s.grants| && s.grants[t].proc == p
  }

  /** The queue holds an entry for the granted slot, under the retry policy the lock was sized for. */
  ghost predicate Enters(queue: seq<Entry>, g: Grant) {
    exists i :: 0 <= i < |queue| && EntryFor(queue[i], g)
  }

  predicate EntryFor(e: Entry, g: Grant) {
    Claim(e.jobId, e.fireSlot) == g.key && e.options == JobsOptions(g.config.maxRetries + 1, g.config.backoffMs)
  }

  ghost predicate AcceptedEntered(s: State) {
    forall t :: t in s.accepted ==> t < |s.grants| && Enters(s.core.queue, s.grants[t])
  }

  ghost predicate AccountInv(s: State) {
    GrantsAccounted(s) && EnqueuedAccounted(s) && SlotsCounted(s) && AcceptedEntered(s)
  }

  lemma GrantKeepsAccount(s: State, s': State, p: ProcId, key: Claim, config: Config, expiry: int)
    requires AccountInv(s) && Granted(s, s', p, key, config, expiry)
    ensures AccountInv(s')
  {
  }

  lemma QueueGrows(q: seq<Entry>, q': seq<Entry>)
    requires q <= q'
    ensures forall g :: Enters(q, g) ==> Enters(q', g)
  {
  }

  lemma AcceptKeepsAccount(s: State, s': State, p: ProcId, e: Entry)
    requires LockInv(s) && AccountInv(s) && Accepts(s, s', p, e)
    ensures AccountInv(s')
  {
    QueueGrows(s.core.queue, s'.core.queue);
    assert s'.core.queue[|s.core.queue|] == e;
    var token := s.procs[p].pc.token;
    assert s'.procs[p].enqueued[|s.procs[p].enqueued|] == token;
    forall q | q in s'.procs
      ensures OwnAccepted(s', q)
    {
      assert OwnAccepted(s, q);
      assert forall t :: t in s'.procs[q].enqueued ==> t in s.procs[q].enqueued || (q == p && t == token);
    }
  }

  lemma MoveKeepsAccount(s: State, s': State, p: ProcId)
    requires AccountInv(s) && Moves(s, s', p)
    ensures AccountInv(s')
  {
  }

  lemma NextKeepsAccount(env: Env, s: State, step: Step)
    requires LockInv(s) && AccountInv(s)
    ensures AccountInv(Next(env, s, step))
  {
    var s' := Next(env, s, step);
    Effect(env, s, step);
    if p :| Moves(s, s', p) {
      MoveKeepsAccount(s, s', p);
    } else if p, key, config, expiry :| Granted(s, s', p, key, config, expiry) {
      GrantKeepsAccount(s, s', p, key, config, expiry);
    } else if p, e :| Accepts(s, s', p, e) {
      AcceptKeepsAccount(s, s', p, e);
    }
  }

  lemma NextKeepsReleasedGone(env: Env, s: State, step: Step)
    requires LockInv(s) && ReleasedGone(s) && SlotsCounted(s)
    ensures ReleasedGone(Next(env, s, step))
  {
    var s' := Next(env, s, step);
    Effect(env, s, step);
    if p :| Moves(s, s', p) {
      MoveKeepsReleasedGone(s, s', p);
    }
  }

  lemma MoveKeepsReleasedGone(s: State, s': State, p: ProcId)
    requires StoredGrants(s) && OwnTokens(s) && ReleasedGone(s) && Moves(s, s', p)
    ensures ReleasedGone(s')
  {
  }

  ghost predicate Inv(s: State) { LockInv(s) && AccountInv(s) && ReleasedGone(s) }

  lemma NextKeepsInv(env: Env, s: State, step: Step)
    requires Inv(s)
    ensures Inv(Next(env, s, step))
  {
    NextKeepsLockInv(env, s, step);
    NextKeepsAccount(env, s, step);
    NextKeepsReleasedGone(env, s, step);
  }

  lemma {:induction false} RunKeepsInv(env: Env, now: int, steps: seq<Step>)
    ensures Inv(Run(env, Init(now), steps))
  {
    if steps != [] {
      RunKeepsInv(env, now, steps[..|steps| - 1]);
      NextKeepsInv(env, Run(env, Init(now), steps[..|steps| - 1]), steps[|steps| - 1]);
    }
  }

  /** A released token is not in the store, unless it has expired there. */
  ghost predicate ReleasedGone(s: State) {
    forall k :: k in s.locks ==> s.locks[k].value !in s.released || s.locks[k].expiry <= s.now
  }

  /** Token `t` is in the store, unexpired, and belongs to process `p`. */
  ghost predicate LiveLockOf(s: State, p: ProcId, t: Token) {
    && t < |s.grants| && s.grants[t].proc == p
    && Live(s.locks, s.now, s.grants[t].key) && s.locks[s.grants[t].key].value == t
  }

  ghost predicate Accounted(s: State, p: ProcId)
    requires p in s.procs
  {
    var r := s.procs[p];
    && r.due == |r.enqueued| + r.deduped
    && (forall t: Token :: LiveLockOf(s, p, t) <==> t in r.enqueued && t < |s.grants| && s.now < s.grants[t].expiry)
    && (forall t: Token :: t in r.enqueued ==> t < |s.grants| && Enters(s.core.queue, s.grants[t]))
  }

  lemma InvGivesAccounted(s: State, p: ProcId)
    requires Inv(s) && p in s.procs && s.procs[p].pc == Finished(false)
    ensures Accounted(s, p)
  {
  }

  /** When a tick or trigger has returned normally, its unexpired locks are exactly those of the slots
      it enqueued, each of which is in the queue, and every due slot was enqueued or counted as deduped. */
  lemma TickAccounting(env: Env, now: int, steps: seq<Step>, p: ProcId)
    requires p in Run(env, Init(now), steps).procs && Run(env, Init(now), steps).procs[p].pc == Finished(false)
    ensures Accounted(Run(env, Init(now), steps), p)
  {
    RunKeepsInv(env, now, steps);
    InvGivesAccounted(Run(env, Init(now), steps), p);
  }
}
