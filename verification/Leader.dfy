/**
  src/lib/leader.ts as a timed step system: the lease in Redis, and for every instance the local
  `leader` and `stopped` flags. Campaigns overlap freely, replies arrive late, calls fail before or
  after taking effect, and instances die.
 */
module Leader {
  import opened Domain
  import opened Redis

  const LEADER_KEY := "cronhive:scheduler:leader"

  /** heartbeatMs defaults to a third of the lease. */
  function DefaultHeartbeatMs(leaseTtlMs: nat): (h: nat)
    ensures 3 * h <= leaseTtlMs < 3 * (h + 1)
  {
    leaseTtlMs / 3
  }

  datatype Instance = Instance(leader: bool, stopped: bool, dead: bool)

  datatype Kind = Acquire | Renew | Release
  datatype Reply = Waiting | Ok | No | Failed

  /** A call in flight, on behalf of an instance whose token is its number. */
  datatype Call = Call(instance: nat, kind: Kind, reply: Reply)

  datatype State = State(
    now: int,
    store: map<string, Slot<nat>>,
    insts: map<nat, Instance>,
    calls: map<nat, Call>,
    // history
    granted: map<nat, int>,      // when the last lease granted to an instance expires, until it is released
    campaigned: map<nat, int>,   // when an instance last campaigned, or started
    sent: map<nat, int>)         // when a call was sent

  function Init(now: int): State { State(now, map[], map[], map[], map[], map[], map[]) }

  datatype Step =
    | Advance(ms: nat)
    | Start(i: nat)
    | Campaign(c: nat, i: nat)
    | Serve(c: nat, oc: Outcome)     // Redis executes the call
    | Deliver(c: nat)                // the instance handles the reply
    | Stop(c: nat, i: nat)
    | Die(i: nat)

  predicate Enabled(s: State, step: Step) {
    match step
    case Advance(_) => true
    case Start(i) => i !in s.insts
    case Campaign(c, i) => c !in s.calls && i in s.insts && !s.insts[i].stopped && !s.insts[i].dead
    case Serve(c, _) => c in s.calls && s.calls[c].reply == Waiting
    case Deliver(c) => c in s.calls && s.calls[c].reply != Waiting
                       && s.calls[c].instance in s.insts && !s.insts[s.calls[c].instance].dead
    case Stop(c, i) => c !in s.calls && i in s.insts && !s.insts[i].dead
    case Die(i) => i in s.insts
  }

  function Send(s: State, c: nat, call: Call): State { s.(calls := s.calls[c := call], sent := s.sent[c := s.now]) }

  /** The effect of a call on the lease, and whether it got what it asked for. */
  function Execute(ttl: nat, s: State, call: Call): (State, bool) {
    match call.kind
    case Acquire =>
      var (store, ok) := SetNx(s.store, s.now, LEADER_KEY, call.instance, ttl);
      (if ok then s.(store := store, granted := s.granted[call.instance := s.now + ttl]) else s, ok)
    case Renew =>
      var (store, ok) := ExtendIfEqual(s.store, s.now, LEADER_KEY, call.instance, ttl);
      (if ok then s.(store := store, granted := s.granted[call.instance := s.now + ttl]) else s, ok)
    case Release =>
      (if HoldsLease(s, call.instance)
       then s.(store := DeleteIfEqual(s.store, s.now, LEADER_KEY, call.instance),
               granted := s.granted - {call.instance})
       else s, true)
  }

  function DoServe(ttl: nat, s: State, c: nat, oc: Outcome): State
    requires Enabled(s, Serve(c, oc))
  {
    var call := s.calls[c];
    var (s', ok) := if oc.FailedBefore? then (s, false) else Execute(ttl, s, call);
    s'.(calls := s'.calls[c := call.(reply := if !oc.Done? then Failed else if ok then Ok else No)])
  }

  /** The `leader` flag once the reply of `call` is handled. */
  function FlagAfter(call: Call, leader: bool): bool {
    match call.kind
    case Renew => leader && call.reply == Ok
    case Acquire => if call.reply == Ok then true else leader && call.reply != Failed
    case Release => false
  }

  function DoDeliver(s: State, c: nat): State
    requires Enabled(s, Deliver(c))
  {
    var i := s.calls[c].instance;
    s.(calls := s.calls - {c}, insts := s.insts[i := s.insts[i].(leader := FlagAfter(s.calls[c], s.insts[i].leader))])
  }

  function Apply(ttl: nat, s: State, step: Step): State
    requires Enabled(s, step)
  {
    match step
    case Advance(ms) => s.(now := s.now + ms)
    case Start(i) => s.(insts := s.insts[i := Instance(false, false, false)], campaigned := s.campaigned[i := s.now])
    case Campaign(c, i) =>
      Send(s, c, Call(i, if s.insts[i].leader then Renew else Acquire, Waiting))
        .(campaigned := s.campaigned[i := s.now])
    case Serve(c, oc) => DoServe(ttl, s, c, oc)
    case Deliver(c) => DoDeliver(s, c)
    case Stop(c, i) =>
      var s' := s.(insts := s.insts[i := s.insts[i].(stopped := true)]);
      if s.insts[i].leader then Send(s', c, Call(i, Release, Waiting)) else s'
    case Die(i) => s.(insts := s.insts[i := Instance(false, true, true)])
  }

  function Next(ttl: nat, s: State, step: Step): State {
    if Enabled(s, step) then Apply(ttl, s, step) else s
  }

  function Run(ttl: nat, s: State, steps: seq<Step>): State {
    if steps == [] then s else Next(ttl, Run(ttl, s, steps[..|steps| - 1]), steps[|steps| - 1])
  }

  /** The instance's token is in Redis and has not expired. */
  predicate HoldsLease(s: State, i: nat) {
    Live(s.store, s.now, LEADER_KEY) && s.store[LEADER_KEY].value == i
  }

  /** What isLeader() answers. */
  predicate Flag(s: State, i: nat) { i in s.insts && s.insts[i].leader }

  /** The last lease granted to the instance has neither been released nor run out. */
  predicate Unexpired(s: State, i: nat) { i in s.granted && s.now < s.granted[i] }

  /** A lease stays in Redis until it expires or is released. */
  ghost predicate LeasesLast(s: State) {
    forall i :: Unexpired(s, i) ==> LEADER_KEY in s.store && s.store[LEADER_KEY] == Slot(i, s.granted[i])
  }

  ghost predicate StoreGranted(ttl: nat, s: State) {
    LEADER_KEY in s.store ==>
      var l := s.store[LEADER_KEY];
      l.value in s.granted && s.granted[l.value] == l.expiry && l.expiry <= s.now + ttl
  }

  /** Only an instance that is stopping can believe it leads without a grant. */
  ghost predicate FlagsGranted(s: State) {
    && s.granted.Keys <= s.insts.Keys
    && (forall i :: Flag(s, i) && !s.insts[i].stopped ==> i in s.granted)
    && (forall c :: c in s.calls ==> CallFits(s, s.calls[c]))
  }

  predicate CallFits(s: State, call: Call) {
    && call.instance in s.insts
    && (call.kind == Release ==> s.insts[call.instance].stopped)
    && (call.kind == Acquire && call.reply == Ok && !s.insts[call.instance].stopped ==> call.instance in s.granted)
  }

  ghost predicate Inv(ttl: nat, s: State) { LeasesLast(s) && StoreGranted(ttl, s) && FlagsGranted(s) }

  /** What a call does to the grants, besides the lease. */
  lemma ExecuteGrants(ttl: nat, s: State, call: Call)
    ensures var (s', ok) := Execute(ttl, s, call); var i := call.instance;
      && s' == s.(store := s'.store, granted := s'.granted)
      && s'.granted == (if ok && call.kind != Release then s.granted[i := s.now + ttl]
                        else if call.kind == Release && HoldsLease(s, i) then s.granted - {i} else s.granted)
  {
  }

  lemma ExecuteKeepsLeases(ttl: nat, s: State, call: Call)
    requires LeasesLast(s) && StoreGranted(ttl, s)
    ensures LeasesLast(Execute(ttl, s, call).0) && StoreGranted(ttl, Execute(ttl, s, call).0)
  {
  }

  /** Serving a call sets its reply, and touches nothing but the lease besides. */
  lemma ServeEffect(ttl: nat, s: State, c: nat, oc: Outcome)
    requires Enabled(s, Serve(c, oc))
    ensures var s' := DoServe(ttl, s, c, oc);
      && s' == s.(store := s'.store, granted := s'.granted, calls := s'.calls)
      && c in s'.calls && s'.calls == s.calls[c := s.calls[c].(reply := s'.calls[c].reply)]
      && s'.calls[c].reply != Waiting
  {
  }

  lemma ServeKeepsInv(ttl: nat, s: State, c: nat, oc: Outcome)
    requires Inv(ttl, s) && Enabled(s, Serve(c, oc))
    ensures Inv(ttl, DoServe(ttl, s, c, oc))
  {
    ExecuteKeepsLeases(ttl, s, s.calls[c]);
    ExecuteGrants(ttl, s, s.calls[c]);
    var s' := if oc.FailedBefore? then s else Execute(ttl, s, s.calls[c]).0;
    var s'' := DoServe(ttl, s, c, oc);
    assert s''.insts == s'.insts && s''.store == s'.store && s''.granted == s'.granted && s''.now == s'.now;
  }

  lemma DeliverKeepsInv(ttl: nat, s: State, c: nat)
    requires Inv(ttl, s) && Enabled(s, Deliver(c))
    ensures Inv(ttl, DoDeliver(s, c))
  {
  }

  lemma SendKeepsInv(ttl: nat, s: State, c: nat, call: Call)
    requires Inv(ttl, s) && CallFits(s, call)
    ensures Inv(ttl, Send(s, c, call))
  {
    assert forall d :: d in s.calls ==> CallFits(s, s.calls[d]);
  }

  lemma IdleKeepsInv(ttl: nat, s: State, step: Step)
    requires Inv(ttl, s) && Enabled(s, step) && (step.Advance? || step.Start? || step.Die?)
    ensures Inv(ttl, Apply(ttl, s, step))
  {
    assert forall i :: Unexpired(Apply(ttl, s, step), i) ==> Unexpired(s, i);
  }

  lemma NextKeepsInv(ttl: nat, s: State, step: Step)
    requires Inv(ttl, s)
    ensures Inv(ttl, Next(ttl, s, step))
  {
    if Enabled(s, step) {
      match step
      case Serve(c, oc) => ServeKeepsInv(ttl, s, c, oc);
      case Deliver(c) => DeliverKeepsInv(ttl, s, c);
      case Campaign(c, i) => SendKeepsInv(ttl, s, c, Call(i, if s.insts[i].leader then Renew else Acquire, Waiting));
      case Stop(c, i) =>
        var s' := s.(insts := s.insts[i := s.insts[i].(stopped := true)]);
        assert Inv(ttl, s');
        SendKeepsInv(ttl, s', c, Call(i, Release, Waiting));
      case _ => IdleKeepsInv(ttl, s, step);
    }
  }

  lemma {:induction false} RunKeepsInv(ttl: nat, s: State, steps: seq<Step>)
    requires Inv(ttl, s)
    ensures Inv(ttl, Run(ttl, s, steps))
  {
    if steps != [] {
      RunKeepsInv(ttl, s, steps[..|steps| - 1]);
      NextKeepsInv(ttl, Run(ttl, s, steps[..|steps| - 1]), steps[|steps| - 1]);
    }
  }

  /** A stale or foreign token never touches somebody's unexpired lease. */
  lemma OnlyHolderChangesLease(ttl: nat, s: State, step: Step, i: nat)
    requires HoldsLease(s, i)
    ensures Next(ttl, s, step).store == s.store ||
      (step.Serve? && step.c in s.calls && s.calls[step.c].instance == i && !s.calls[step.c].kind.Acquire?)
  {
  }

  /** In every reachable state, isLeader() is right exactly if the last lease granted to the instance has
      neither run out nor been released; only a stopping instance can be in the second case. */
  lemma FlagExactlyUntilExpiry(ttl: nat, now: int, steps: seq<Step>, i: nat)
    ensures var s := Run(ttl, Init(now), steps);
      && (HoldsLease(s, i) <==> Unexpired(s, i))
      && (Flag(s, i) && i !in s.granted ==> s.insts[i].stopped)
  {
    RunKeepsInv(ttl, Init(now), steps);
  }

  // ---------- how two flags come to be true ----------

  /** A follower that can campaign. */
  predicate Follower(s: State, j: nat) {
    j in s.insts && !s.insts[j].leader && !s.insts[j].stopped && !s.insts[j].dead
  }

  function After2(ttl: nat, s: State, a: Step, b: Step): State { Next(ttl, Next(ttl, s, a), b) }

  /** A follower's campaign succeeds whenever no unexpired lease is stored. */
  lemma CampaignSucceeds(ttl: nat, s: State, d: nat, j: nat)
    requires Follower(s, j) && d !in s.calls && !Live(s.store, s.now, LEADER_KEY)
    ensures var s' := Next(ttl, After2(ttl, s, Campaign(d, j), Serve(d, Done)), Deliver(d));
      Flag(s', j) && forall i :: i != j ==> (Flag(s', i) <==> Flag(s, i))
  {
  }

  /** A leader that is slow to notice the lapse leaves its flag true while a follower takes over. */
  lemma SlowLeaderOverlaps(ttl: nat, s: State, i: nat, j: nat, d: nat, ms: nat)
    requires Flag(s, i) && Follower(s, j) && d !in s.calls
    requires LEADER_KEY in s.store ==> s.store[LEADER_KEY].expiry <= s.now + ms
    ensures var s1 := Next(ttl, s, Advance(ms));
      var s' := Next(ttl, After2(ttl, s1, Campaign(d, j), Serve(d, Done)), Deliver(d));
      Flag(s', i) && Flag(s', j)
  {
    CampaignSucceeds(ttl, Next(ttl, s, Advance(ms)), d, j);
  }

  /** stop() clears the flag only after the release returned: in between, a follower already leads. */
  lemma StopOverlaps(ttl: nat, s: State, i: nat, j: nat, c: nat, d: nat)
    requires Flag(s, i) && !s.insts[i].dead && HoldsLease(s, i) && Follower(s, j)
    requires c !in s.calls && d !in s.calls && c != d
    ensures var s1 := After2(ttl, s, Stop(c, i), Serve(c, Done));
      var s' := Next(ttl, After2(ttl, s1, Campaign(d, j), Serve(d, Done)), Deliver(d));
      Flag(s', i) && Flag(s', j)
  {
    var s0 := Next(ttl, s, Stop(c, i));
    assert s0.calls[c] == Call(i, Release, Waiting);
    var s1 := Next(ttl, s0, Serve(c, Done));
    CampaignSucceeds(ttl, s1, d, j);
  }

  // ---------- when stop() is final ----------

  /** An acquire of the instance is under way that has not been refused. */
  ghost predicate MayStillAcquire(s: State, i: nat) {
    exists c :: c in s.calls && s.calls[c].instance == i && s.calls[c].kind == Acquire
                && (s.calls[c].reply == Waiting || s.calls[c].reply == Ok)
  }

  /** After stop(), the flag is up only until the release is handled. */
  ghost predicate StopIsFinal(ttl: nat, s: State, c: nat, i: nat) {
    forall more :: Lowered(Run(ttl, Next(ttl, s, Stop(c, i)), more), c, i)
  }

  predicate Lowered(m: State, c: nat, i: nat) {
    Flag(m, i) ==> c in m.calls && m.calls[c].instance == i && m.calls[c].kind == Release
  }

  ghost predicate StaysDown(m: State, c: nat, i: nat) {
    i in m.insts && m.insts[i].stopped && !MayStillAcquire(m, i) && Lowered(m, c, i)
  }

  /** A stopped instance sends no new acquire. */
  lemma NoNewAcquire(ttl: nat, m: State, step: Step, i: nat)
    requires i in m.insts && m.insts[i].stopped
    ensures MayStillAcquire(Next(ttl, m, step), i) ==> MayStillAcquire(m, i)
  {
    var m' := Next(ttl, m, step);
    if MayStillAcquire(m', i) {
      var a :| a in m'.calls && m'.calls[a].instance == i && m'.calls[a].kind == Acquire
               && (m'.calls[a].reply == Waiting || m'.calls[a].reply == Ok);
      if Enabled(m, step) && step.Serve? {
        ServeEffect(ttl, m, step.c, step.oc);
      }
      assert a in m.calls && m.calls[a].instance == i && m.calls[a].kind == Acquire;
    }
  }

  /** Only the reply to an acquire raises a flag. */
  lemma FlagRises(ttl: nat, m: State, step: Step, i: nat)
    requires Flag(Next(ttl, m, step), i) && !Flag(m, i)
    ensures step.Deliver? && step.c in m.calls && m.calls[step.c] == Call(i, Acquire, Ok)
    ensures i in m.insts && !m.insts[i].dead
  {
  }

  lemma StaysDownStep(ttl: nat, m: State, step: Step, c: nat, i: nat)
    requires StaysDown(m, c, i)
    ensures StaysDown(Next(ttl, m, step), c, i)
  {
    NoNewAcquire(ttl, m, step, i);
    FlagStaysDown(ttl, m, step, c, i);
    StaysStopped(ttl, m, step, i);
  }

  lemma StaysStopped(ttl: nat, m: State, step: Step, i: nat)
    requires i in m.insts && m.insts[i].stopped
    ensures i in Next(ttl, m, step).insts && Next(ttl, m, step).insts[i].stopped
  {
  }

  lemma FlagStaysDown(ttl: nat, m: State, step: Step, c: nat, i: nat)
    requires StaysDown(m, c, i)
    ensures Lowered(Next(ttl, m, step), c, i)
  {
    if Flag(Next(ttl, m, step), i) {
      assert Flag(m, i) by {
        if !Flag(m, i) {
          FlagRises(ttl, m, step, i);
          assert MayStillAcquire(m, i);
        }
      }
      if Enabled(m, step) && step.Serve? {
        ServeEffect(ttl, m, step.c, step.oc);
      }
    }
  }

  lemma {:induction false} StaysDownRun(ttl: nat, m: State, more: seq<Step>, c: nat, i: nat)
    requires StaysDown(m, c, i)
    ensures StaysDown(Run(ttl, m, more), c, i)
  {
    if more != [] {
      StaysDownRun(ttl, m, more[..|more| - 1], c, i);
      StaysDownStep(ttl, Run(ttl, m, more[..|more| - 1]), more[|more| - 1], c, i);
    }
  }

  /** stop() has returned: its release, if there was one, is handled. */
  lemma StopReturns(ttl: nat, s: State, c: nat, i: nat, a: nat) returns (handled: seq<Step>)
    requires Enabled(s, Stop(c, i)) && a in s.calls
    ensures var m := Run(ttl, Next(ttl, s, Stop(c, i)), handled);
      c !in m.calls && a in m.calls && m.calls[a] == s.calls[a] && i in m.insts && !m.insts[i].dead
  {
    var s0 := Next(ttl, s, Stop(c, i));
    handled := [];
    if s.insts[i].leader {
      ReleaseReturns(ttl, s0, c, i);
      handled := [Serve(c, Done)] + [Deliver(c)];
      RunAppend(ttl, s0, [], Serve(c, Done));
      RunAppend(ttl, s0, [Serve(c, Done)], Deliver(c));
      assert [] + [Serve(c, Done)] == [Serve(c, Done)];
    }
  }

  lemma ReleaseReturns(ttl: nat, s: State, c: nat, i: nat)
    requires c in s.calls && s.calls[c] == Call(i, Release, Waiting) && i in s.insts && !s.insts[i].dead
    ensures var m := After2(ttl, s, Serve(c, Done), Deliver(c));
      m.calls == s.calls - {c} && i in m.insts && !m.insts[i].dead
  {
    ServeEffect(ttl, s, c, Done);
  }

  /** A waiting acquire is granted once the stored lease has run out. */
  lemma AcquireGranted(ttl: nat, m: State, a: nat) returns (steps: seq<Step>)
    requires a in m.calls && m.calls[a].kind == Acquire && m.calls[a].reply == Waiting
    ensures var m' := Run(ttl, m, steps);
      m'.calls == m.calls[a := m.calls[a].(reply := Ok)] && m'.insts == m.insts
  {
    var ms: nat := if Live(m.store, m.now, LEADER_KEY) then m.store[LEADER_KEY].expiry - m.now else 0;
    steps := [Advance(ms)] + [Serve(a, Done)];
    RunAppend(ttl, m, [], Advance(ms));
    RunAppend(ttl, m, [Advance(ms)], Serve(a, Done));
    assert [] + [Advance(ms)] == [Advance(ms)];
  }

  /** An acquire under way during stop() can set the flag of the stopped instance after stop() returned. */
  lemma AcquireOutlivesStop(ttl: nat, s: State, c: nat, i: nat) returns (more: seq<Step>)
    requires Enabled(s, Stop(c, i)) && MayStillAcquire(s, i)
    ensures !Lowered(Run(ttl, Next(ttl, s, Stop(c, i)), more), c, i)
  {
    var a :| a in s.calls && s.calls[a].instance == i && s.calls[a].kind == Acquire
             && (s.calls[a].reply == Waiting || s.calls[a].reply == Ok);
    var s0 := Next(ttl, s, Stop(c, i));
    more := StopReturns(ttl, s, c, i, a);
    if s.calls[a].reply == Waiting {
      var grant := AcquireGranted(ttl, Run(ttl, s0, more), a);
      RunConcat(ttl, s0, more, grant);
      more := more + grant;
    }
    var m := Run(ttl, s0, more);
    assert m.calls[a] == Call(i, Acquire, Ok) && c !in m.calls;
    RunAppend(ttl, s0, more, Deliver(a));
    more := more + [Deliver(a)];
  }

  lemma RunAppend(ttl: nat, s: State, steps: seq<Step>, step: Step)
    ensures Run(ttl, s, steps + [step]) == Next(ttl, Run(ttl, s, steps), step)
  {
  }

  lemma {:induction false} RunConcat(ttl: nat, s: State, a: seq<Step>, b: seq<Step>)
    ensures Run(ttl, s, a + b) == Run(ttl, Run(ttl, s, a), b)
  {
    if b == [] {
      assert a + b == a;
    } else {
      RunConcat(ttl, s, a, b[..|b| - 1]);
      assert (a + b)[..|a + b| - 1] == a + b[..|b| - 1];
    }
  }

  /** stop() is final exactly if no acquire of the instance is under way when it is called. */
  lemma StopIsFinalIff(ttl: nat, s: State, c: nat, i: nat)
    requires Enabled(s, Stop(c, i))
    ensures StopIsFinal(ttl, s, c, i) <==> !MayStillAcquire(s, i)
  {
    var s0 := Next(ttl, s, Stop(c, i));
    if MayStillAcquire(s, i) {
      var more := AcquireOutlivesStop(ttl, s, c, i);
      assert !Lowered(Run(ttl, s0, more), c, i);
    } else {
      StopsDown(ttl, s, c, i);
      forall more
        ensures Lowered(Run(ttl, s0, more), c, i)
      {
        StaysDownRun(ttl, s0, more, c, i);
      }
    }
  }

  lemma StopsDown(ttl: nat, s: State, c: nat, i: nat)
    requires Enabled(s, Stop(c, i)) && !MayStillAcquire(s, i)
    ensures StaysDown(Next(ttl, s, Stop(c, i)), c, i)
  {
    NoAcquireAtStop(ttl, s, c, i);
  }

  lemma NoAcquireAtStop(ttl: nat, s: State, c: nat, i: nat)
    requires Enabled(s, Stop(c, i))
    ensures MayStillAcquire(Apply(ttl, s, Stop(c, i)), i) ==> MayStillAcquire(s, i)
  {
    var s' := Apply(ttl, s, Stop(c, i));
    if MayStillAcquire(s', i) {
      var a :| a in s'.calls && s'.calls[a].instance == i && s'.calls[a].kind == Acquire
               && (s'.calls[a].reply == Waiting || s'.calls[a].reply == Ok);
      assert a in s.calls && s.calls[a] == s'.calls[a];
    }
  }

  lemma RunTake(ttl: nat, s: State, steps: seq<Step>, n: nat)
    requires n < |steps|
    ensures Run(ttl, s, steps[..n + 1]) == Next(ttl, Run(ttl, s, steps[..n]), steps[n])
  {
    assert steps[..n + 1][..n] == steps[..n];
  }
}
