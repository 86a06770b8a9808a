/** When the leader flag can be relied on: timely replies, and the heartbeat and latency bounds that make them so. */
module LeaderTiming {
  import opened Domain
  import opened Leader

  /** A live instance whose flag is true, or is about to be set by a reply on its way. */
  ghost predicate Committed(s: State, i: nat) {
    i in s.insts && !s.insts[i].dead
    && (s.insts[i].leader
        || exists c :: c in s.calls && s.calls[c] == Call(i, Acquire, Ok))
  }

  /** Time never runs past a lease while its instance still counts on it: the instance has handled a
      successful renewal, or the news that it lost, before that. */
  ghost predicate TimelyStep(s: State, step: Step) {
    step.Advance? ==> forall i :: Committed(s, i) && i in s.granted ==> s.now + step.ms < s.granted[i]
  }

  ghost predicate TimelyRun(ttl: nat, s: State, steps: seq<Step>) {
    forall k :: 0 <= k < |steps| ==> TimelyStep(Run(ttl, s, steps[..k]), steps[k])
  }

  ghost predicate CommittedHold(s: State) {
    forall i :: Committed(s, i) && i in s.granted ==> s.now < s.granted[i]
  }

  lemma ServeTimely(ttl: nat, s: State, c: nat, oc: Outcome)
    requires ttl > 0 && Inv(ttl, s) && CommittedHold(s) && Enabled(s, Serve(c, oc))
    ensures CommittedHold(DoServe(ttl, s, c, oc))
  {
    ExecuteGrants(ttl, s, s.calls[c]);
    var s' := DoServe(ttl, s, c, oc);
    forall i | Committed(s', i) && i in s'.granted
      ensures s'.now < s'.granted[i]
    {
      if !s'.insts[i].leader {
        var d :| d in s'.calls && s'.calls[d] == Call(i, Acquire, Ok);
        if d != c {
          assert s.calls[d] == s'.calls[d];
          assert Committed(s, i);
        }
      } else {
        assert Committed(s, i);
      }
    }
  }

  lemma OtherCommitted(ttl: nat, s: State, step: Step, i: nat)
    requires Inv(ttl, s) && !step.Serve? && Committed(Next(ttl, s, step), i)
    ensures Committed(s, i)
  {
    var s' := Next(ttl, s, step);
    if !s'.insts[i].leader {
      var c :| c in s'.calls && s'.calls[c] == Call(i, Acquire, Ok);
      GrantedCallIsOld(ttl, s, step, i, c);
    } else if !Flag(s, i) {
      FlagRises(ttl, s, step, i);
    }
  }

  /** A call that already has a reply was not sent just now. */
  lemma OnlySendsWaiting(ttl: nat, s: State, step: Step, c: nat)
    requires !step.Serve? && c in Next(ttl, s, step).calls && Next(ttl, s, step).calls[c].reply != Waiting
    ensures c in s.calls && s.calls[c] == Next(ttl, s, step).calls[c]
  {
  }

  lemma StaysDead(ttl: nat, s: State, step: Step, i: nat)
    requires i in s.insts && s.insts[i].dead
    ensures i in Next(ttl, s, step).insts && Next(ttl, s, step).insts[i].dead
  {
  }

  lemma GrantedCallIsOld(ttl: nat, s: State, step: Step, i: nat, c: nat)
    requires FlagsGranted(s) && !step.Serve? && c in Next(ttl, s, step).calls
    requires Next(ttl, s, step).calls[c] == Call(i, Acquire, Ok)
    requires i in Next(ttl, s, step).insts && !Next(ttl, s, step).insts[i].dead
    ensures c in s.calls && s.calls[c] == Call(i, Acquire, Ok) && i in s.insts && !s.insts[i].dead
  {
    OnlySendsWaiting(ttl, s, step, c);
    assert CallFits(s, s.calls[c]);
    if s.insts[i].dead {
      StaysDead(ttl, s, step, i);
    }
  }

  lemma TimelyStepKeeps(ttl: nat, s: State, step: Step)
    requires ttl > 0 && Inv(ttl, s) && CommittedHold(s) && TimelyStep(s, step)
    ensures CommittedHold(Next(ttl, s, step))
  {
    if Enabled(s, step) {
      if step.Serve? {
        ServeTimely(ttl, s, step.c, step.oc);
      } else {
        forall i | Committed(Next(ttl, s, step), i) ensures Committed(s, i) { OtherCommitted(ttl, s, step, i); }
        assert Next(ttl, s, step).granted == s.granted;
      }
    }
  }

  lemma {:induction false} TimelyRunKeeps(ttl: nat, now: int, steps: seq<Step>)
    requires ttl > 0 && TimelyRun(ttl, Init(now), steps)
    ensures CommittedHold(Run(ttl, Init(now), steps))
  {
    if steps != [] {
      var before := steps[..|steps| - 1];
      assert forall k :: 0 <= k < |before| ==> before[..k] == steps[..k];
      TimelyRunKeeps(ttl, now, before);
      RunKeepsInv(ttl, Init(now), before);
      assert before == steps[..|before|];
      TimelyStepKeeps(ttl, Run(ttl, Init(now), before), steps[|steps| - 1]);
    }
  }

  lemma {:induction false} DeadFlagsAreDown(ttl: nat, now: int, steps: seq<Step>)
    ensures DeadAreDown(Run(ttl, Init(now), steps))
  {
    if steps != [] {
      DeadFlagsAreDown(ttl, now, steps[..|steps| - 1]);
      DeadStayDown(ttl, Run(ttl, Init(now), steps[..|steps| - 1]), steps[|steps| - 1]);
    }
  }

  ghost predicate DeadAreDown(s: State) { forall i :: Flag(s, i) ==> !s.insts[i].dead }

  lemma DeadStayDown(ttl: nat, s: State, step: Step)
    requires DeadAreDown(s)
    ensures DeadAreDown(Next(ttl, s, step))
  {
    forall i | Flag(Next(ttl, s, step), i)
      ensures !Next(ttl, s, step).insts[i].dead
    {
      if !Flag(s, i) {
        FlagRises(ttl, s, step, i);
      }
      FlaggedIsLive(ttl, s, step, i);
    }
  }

  lemma FlaggedIsLive(ttl: nat, s: State, step: Step, i: nat)
    requires i in s.insts && !s.insts[i].dead && Flag(Next(ttl, s, step), i)
    ensures !Next(ttl, s, step).insts[i].dead
  {
  }

  lemma CommittedFlags(ttl: nat, s: State, i: nat, j: nat)
    requires Inv(ttl, s) && CommittedHold(s) && DeadAreDown(s) && Flag(s, i) && Flag(s, j)
    ensures HoldsLease(s, i) <==> i in s.granted
    ensures i in s.granted && j in s.granted ==> i == j
    ensures !s.insts[i].stopped ==> HoldsLease(s, i)
  {
    assert Committed(s, i) && Committed(s, j);
  }

  /** If replies are handled before the lease they concern expires, a raised flag means holding the unexpired
      token, unless the instance's own release has taken effect. So two flags are up only if one of them is
      that of an instance which released its lease and is about to lower it. */
  lemma TimelySafety(ttl: nat, now: int, steps: seq<Step>, i: nat, j: nat)
    requires ttl > 0 && TimelyRun(ttl, Init(now), steps)
    requires Flag(Run(ttl, Init(now), steps), i) && Flag(Run(ttl, Init(now), steps), j)
    ensures var s := Run(ttl, Init(now), steps);
      && (HoldsLease(s, i) <==> i in s.granted)
      && (i in s.granted && j in s.granted ==> i == j)
      && (!s.insts[i].stopped ==> HoldsLease(s, i))
  {
    TimelyRunKeeps(ttl, now, steps);
    RunKeepsInv(ttl, Init(now), steps);
    DeadFlagsAreDown(ttl, now, steps);
    CommittedFlags(ttl, Run(ttl, Init(now), steps), i, j);
  }

  // ---------- timely because prompt ----------

  /** A live instance handles each of its calls within `d`, and campaigns every heartbeat until it is stopped,
      at a moment when no acquire of it is under way. */
  ghost predicate PromptStep(s: State, step: Step, heartbeat: nat, d: nat) {
    && (step.Advance? ==> PromptAt(s, s.now + step.ms, heartbeat, d))
    && (step.Stop? && Enabled(s, step) ==> !MayStillAcquire(s, step.i))
  }

  ghost predicate PromptAt(s: State, at: int, heartbeat: nat, d: nat) {
    && (forall c :: c in s.calls && s.calls[c].instance in s.insts && !s.insts[s.calls[c].instance].dead ==>
          c in s.sent && at <= s.sent[c] + d)
    && (forall i :: i in s.insts && !s.insts[i].stopped ==> i in s.campaigned && at <= s.campaigned[i] + heartbeat)
  }

  ghost predicate PromptRun(ttl: nat, s: State, steps: seq<Step>, heartbeat: nat, d: nat) {
    forall k :: 0 <= k < |steps| ==> PromptStep(Run(ttl, s, steps[..k]), steps[k], heartbeat, d)
  }

  /** Times of sending lie in the past, and a granted acquire got its lease after it was sent. */
  ghost predicate TimesFit(ttl: nat, s: State) {
    && (forall c :: c in s.calls ==> c in s.sent && s.sent[c] <= s.now)
    && (forall i :: i in s.insts ==> i in s.campaigned && s.campaigned[i] <= s.now)
    && (forall c :: c in s.calls && s.calls[c].kind == Acquire && s.calls[c].reply == Ok ==> GrantedSince(ttl, s, c))
  }

  predicate GrantedSince(ttl: nat, s: State, c: nat) {
    c in s.calls && c in s.sent
    && var i := s.calls[c].instance; i in s.granted ==> s.sent[c] + ttl <= s.granted[i]
  }

  /** Call `c` of the instance will lower its flag or extend its lease, and was sent early enough. */
  predicate Reacts(ttl: nat, s: State, i: nat, c: nat, heartbeat: nat, d: nat) {
    && c in s.calls && c in s.sent && i in s.granted && s.calls[c].instance == i
    && (s.calls[c].kind == Release || (s.calls[c].kind == Renew && s.calls[c].reply != Ok))
    && s.sent[c] + ttl <= s.granted[i] + heartbeat + d
  }

  predicate IsRelease(s: State, i: nat, c: nat) {
    c in s.calls && s.calls[c].instance == i && s.calls[c].kind == Release
  }

  /** What a raised flag rests on: a lease granted since the last campaign, or a call that reacts in time;
      and for a stopped instance, the release it is waiting for. */
  ghost predicate Backed(ttl: nat, s: State, i: nat, heartbeat: nat, d: nat)
    requires i in s.insts
  {
    && (i in s.granted ==>
          || (i in s.campaigned && !s.insts[i].stopped && s.campaigned[i] + ttl <= s.granted[i] + d)
          || exists c :: Reacts(ttl, s, i, c, heartbeat, d))
    && (s.insts[i].stopped ==> exists c :: IsRelease(s, i, c))
  }

  ghost predicate FlagsBacked(ttl: nat, s: State, heartbeat: nat, d: nat) {
    forall i :: Flag(s, i) ==> Backed(ttl, s, i, heartbeat, d)
  }

  ghost predicate StoppedQuietly(s: State) {
    forall i :: i in s.insts && s.insts[i].stopped && !s.insts[i].dead ==> !MayStillAcquire(s, i)
  }

  ghost predicate PromptInv(ttl: nat, s: State, heartbeat: nat, d: nat) {
    PromptAt(s, s.now, heartbeat, d) && TimesFit(ttl, s) && FlagsBacked(ttl, s, heartbeat, d) && StoppedQuietly(s)
  }

  lemma QuietStays(ttl: nat, s: State, step: Step, heartbeat: nat, d: nat)
    requires Inv(ttl, s) && StoppedQuietly(s) && PromptStep(s, step, heartbeat, d)
    ensures StoppedQuietly(Next(ttl, s, step))
  {
    var s' := Next(ttl, s, step);
    forall i | i in s'.insts && s'.insts[i].stopped && !s'.insts[i].dead
      ensures !MayStillAcquire(s', i)
    {
      StopIsKnown(ttl, s, step, i);
      if s.insts[i].stopped {
        NoNewAcquire(ttl, s, step, i);
      } else {
        NoAcquireAtStop(ttl, s, step.c, i);
      }
    }
  }

  lemma StopIsKnown(ttl: nat, s: State, step: Step, i: nat)
    requires var s' := Next(ttl, s, step); i in s'.insts && s'.insts[i].stopped && !s'.insts[i].dead
    ensures i in s.insts && !s.insts[i].dead && (s.insts[i].stopped || (step.Stop? && step.i == i && Enabled(s, step)))
  {
    if step.Serve? && Enabled(s, step) {
      ServeEffect(ttl, s, step.c, step.oc);
    }
  }

  /** Redis served call `c`. */
  ghost predicate Served(ttl: nat, s: State, s': State, c: nat) {
    && c in s.calls && s.calls[c].reply == Waiting && c in s'.calls
    && s' == s.(store := s'.store, granted := s'.granted,
                calls := s.calls[c := s.calls[c].(reply := s'.calls[c].reply)])
    && var i := s.calls[c].instance;
       || s'.granted == s.granted[i := s.now + ttl]
       || (s'.granted == s.granted && (s'.calls[c].reply == Ok ==> s.calls[c].kind == Release))
       || (s'.granted == s.granted - {i} && s.calls[c].kind == Release)
  }

  lemma ServeIsServed(ttl: nat, s: State, c: nat, oc: Outcome)
    requires Enabled(s, Serve(c, oc)) && LeasesLast(s) && StoreGranted(ttl, s)
    ensures Served(ttl, s, DoServe(ttl, s, c, oc), c)
  {
    ServeEffect(ttl, s, c, oc);
    ExecuteGrants(ttl, s, s.calls[c]);
  }

  lemma ServedTimes(ttl: nat, s: State, s': State, c: nat, heartbeat: nat, d: nat)
    requires Served(ttl, s, s', c) && TimesFit(ttl, s) && PromptAt(s, s.now, heartbeat, d)
    ensures TimesFit(ttl, s') && PromptAt(s', s'.now, heartbeat, d)
  {
    forall a | a in s'.calls && s'.calls[a].kind == Acquire && s'.calls[a].reply == Ok
      ensures GrantedSince(ttl, s', a)
    {
      assert a in s.calls && s'.calls[a].instance == s.calls[a].instance && s.sent[a] <= s.now;
      if a != c {
        assert GrantedSince(ttl, s, a);
      }
    }
  }

  lemma ServedBacked(ttl: nat, s: State, s': State, c: nat, i: nat, heartbeat: nat, d: nat)
    requires Served(ttl, s, s', c) && TimesFit(ttl, s) && i in s.insts && Backed(ttl, s, i, heartbeat, d)
    ensures Backed(ttl, s', i, heartbeat, d)
  {
    if s.insts[i].stopped {
      var r :| IsRelease(s, i, r);
      assert IsRelease(s', i, r);
      if i in s'.granted && s'.granted[i] == s.now + ttl {
        assert Reacts(ttl, s', i, r, heartbeat, d);
      }
    }
    if i in s'.granted && s'.granted[i] != s.now + ttl && exists r :: Reacts(ttl, s, i, r, heartbeat, d) {
      var r :| Reacts(ttl, s, i, r, heartbeat, d);
      assert Reacts(ttl, s', i, r, heartbeat, d);
    }
  }

  lemma ServePrompt(ttl: nat, s: State, c: nat, oc: Outcome, heartbeat: nat, d: nat)
    requires Inv(ttl, s) && PromptInv(ttl, s, heartbeat, d) && Enabled(s, Serve(c, oc))
    ensures var s' := DoServe(ttl, s, c, oc);
      PromptAt(s', s'.now, heartbeat, d) && TimesFit(ttl, s') && FlagsBacked(ttl, s', heartbeat, d)
  {
    var s' := DoServe(ttl, s, c, oc);
    ServeIsServed(ttl, s, c, oc);
    ServedTimes(ttl, s, s', c, heartbeat, d);
    forall i | Flag(s', i)
      ensures Backed(ttl, s', i, heartbeat, d)
    {
      assert Flag(s, i);
      ServedBacked(ttl, s, s', c, i, heartbeat, d);
    }
  }

  lemma DeliverBacked(ttl: nat, s: State, c: nat, i: nat, heartbeat: nat, d: nat)
    requires PromptInv(ttl, s, heartbeat, d) && Enabled(s, Deliver(c)) && Flag(DoDeliver(s, c), i)
    ensures Backed(ttl, DoDeliver(s, c), i, heartbeat, d)
  {
    var s' := DoDeliver(s, c);
    if s.calls[c] == Call(i, Acquire, Ok) {
      assert MayStillAcquire(s, i);
      assert GrantedSince(ttl, s, c);
    } else {
      assert Flag(s, i);
      if s.insts[i].stopped {
        var r :| IsRelease(s, i, r);
        assert IsRelease(s', i, r);
      }
      if i in s.granted && exists r :: Reacts(ttl, s, i, r, heartbeat, d) {
        var r :| Reacts(ttl, s, i, r, heartbeat, d);
        assert Reacts(ttl, s', i, r, heartbeat, d);
      }
    }
  }

  lemma DeliverPrompt(ttl: nat, s: State, c: nat, heartbeat: nat, d: nat)
    requires PromptInv(ttl, s, heartbeat, d) && Enabled(s, Deliver(c))
    ensures var s' := DoDeliver(s, c);
      PromptAt(s', s'.now, heartbeat, d) && TimesFit(ttl, s') && FlagsBacked(ttl, s', heartbeat, d)
  {
    var s' := DoDeliver(s, c);
    forall i | Flag(s', i)
      ensures Backed(ttl, s', i, heartbeat, d)
    {
      DeliverBacked(ttl, s, c, i, heartbeat, d);
    }
    forall a | a in s'.calls && s'.calls[a].kind == Acquire && s'.calls[a].reply == Ok
      ensures GrantedSince(ttl, s', a)
    {
      assert GrantedSince(ttl, s, a);
    }
  }

  /** Instance `i` sends call `c`; a campaign also restarts its heartbeat. */
  ghost predicate Sends(s: State, s': State, i: nat, c: nat) {
    && c !in s.calls && i in s.insts && i in s'.insts && c in s'.calls
    && s' == s.(insts := s.insts[i := s'.insts[i]], calls := s.calls[c := s'.calls[c]], sent := s.sent[c := s.now],
                campaigned := s'.campaigned)
    && s'.insts[i].leader == s.insts[i].leader && s'.insts[i].dead == s.insts[i].dead
    && s'.calls[c].instance == i && s'.calls[c].reply == Waiting
    && (if s'.calls[c].kind == Release then s'.campaigned == s.campaigned && s'.insts[i].stopped
        else s'.campaigned == s.campaigned[i := s.now] && s'.insts == s.insts && !s.insts[i].stopped)
    && (s'.insts[i].leader ==> s'.calls[c].kind != Acquire)
  }

  /** A leader that sends a renewal or a release reacts in time, because its last campaign is recent. */
  lemma SendsBacked(ttl: nat, s: State, s': State, i: nat, c: nat, j: nat, heartbeat: nat, d: nat)
    requires Sends(s, s', i, c) && PromptAt(s, s.now, heartbeat, d) && Flag(s, j) && Backed(ttl, s, j, heartbeat, d)
    ensures Backed(ttl, s', j, heartbeat, d)
  {
    if s.insts[j].stopped {
      var r :| IsRelease(s, j, r);
      assert IsRelease(s', j, r);
    } else if s'.insts[j].stopped {
      assert IsRelease(s', j, c);
    }
    if j in s.granted {
      if exists r :: Reacts(ttl, s, j, r, heartbeat, d) {
        var r :| Reacts(ttl, s, j, r, heartbeat, d);
        assert Reacts(ttl, s', j, r, heartbeat, d);
      } else if j == i {
        assert Reacts(ttl, s', j, c, heartbeat, d);
      }
    }
  }

  lemma SendsPrompt(ttl: nat, s: State, s': State, i: nat, c: nat, heartbeat: nat, d: nat)
    requires PromptInv(ttl, s, heartbeat, d) && Sends(s, s', i, c)
    ensures PromptAt(s', s'.now, heartbeat, d) && TimesFit(ttl, s') && FlagsBacked(ttl, s', heartbeat, d)
  {
    forall j | Flag(s', j)
      ensures Backed(ttl, s', j, heartbeat, d)
    {
      SendsBacked(ttl, s, s', i, c, j, heartbeat, d);
    }
    forall a | a in s'.calls && s'.calls[a].kind == Acquire && s'.calls[a].reply == Ok
      ensures GrantedSince(ttl, s', a)
    {
      assert GrantedSince(ttl, s, a);
    }
  }

  /** Calls and leases stay, and nobody's flag rises. */
  ghost predicate Idles(s: State, s': State) {
    && s'.calls == s.calls && s'.sent == s.sent && s'.granted == s.granted && s.now <= s'.now
    && (forall i :: i in s'.insts ==> i in s'.campaigned && s'.campaigned[i] <= s'.now)
    && (forall i :: Flag(s', i) ==> Flag(s, i) && s'.insts[i] == s.insts[i]
                                    && (i in s.campaigned ==> s'.campaigned[i] == s.campaigned[i]))
  }

  lemma IdlesPrompt(ttl: nat, s: State, s': State, heartbeat: nat, d: nat)
    requires PromptInv(ttl, s, heartbeat, d) && Idles(s, s')
    ensures TimesFit(ttl, s') && FlagsBacked(ttl, s', heartbeat, d)
  {
    forall i | Flag(s', i)
      ensures Backed(ttl, s', i, heartbeat, d)
    {
      assert Flag(s, i);
      if s.insts[i].stopped {
        var r :| IsRelease(s, i, r);
        assert IsRelease(s', i, r);
      }
      if i in s.granted && exists r :: Reacts(ttl, s, i, r, heartbeat, d) {
        var r :| Reacts(ttl, s, i, r, heartbeat, d);
        assert Reacts(ttl, s', i, r, heartbeat, d);
      }
    }
    forall a | a in s'.calls && s'.calls[a].kind == Acquire && s'.calls[a].reply == Ok
      ensures GrantedSince(ttl, s', a)
    {
      assert GrantedSince(ttl, s, a);
    }
  }

  lemma StepSends(ttl: nat, s: State, step: Step)
    requires Enabled(s, step) && (step.Campaign? || (step.Stop? && s.insts[step.i].leader))
    ensures Sends(s, Apply(ttl, s, step), step.i, step.c)
  {
  }

  lemma StepIdles(ttl: nat, s: State, step: Step)
    requires TimesFit(ttl, s) && FlagsGranted(s) && Enabled(s, step)
    requires step.Advance? || step.Start? || step.Die? || (step.Stop? && !s.insts[step.i].leader)
    ensures Idles(s, Apply(ttl, s, step))
  {
  }

  /** A step that neither serves nor handles a call. */
  lemma OtherPrompt(ttl: nat, s: State, step: Step, heartbeat: nat, d: nat)
    requires Inv(ttl, s) && PromptInv(ttl, s, heartbeat, d) && PromptStep(s, step, heartbeat, d)
    requires Enabled(s, step) && !step.Serve? && !step.Deliver?
    ensures var s' := Apply(ttl, s, step);
      PromptAt(s', s'.now, heartbeat, d) && TimesFit(ttl, s') && FlagsBacked(ttl, s', heartbeat, d)
  {
    var s' := Apply(ttl, s, step);
    if step.Campaign? || (step.Stop? && s.insts[step.i].leader) {
      StepSends(ttl, s, step);
      SendsPrompt(ttl, s, s', step.i, step.c, heartbeat, d);
    } else {
      StepIdles(ttl, s, step);
      IdlesPrompt(ttl, s, s', heartbeat, d);
      IdlePromptAt(ttl, s, step, heartbeat, d);
    }
  }

  lemma IdlePromptAt(ttl: nat, s: State, step: Step, heartbeat: nat, d: nat)
    requires FlagsGranted(s) && Enabled(s, step)
    requires PromptAt(s, s.now, heartbeat, d) && PromptStep(s, step, heartbeat, d)
    requires step.Advance? || step.Start? || step.Die? || (step.Stop? && !s.insts[step.i].leader)
    ensures var s' := Apply(ttl, s, step); PromptAt(s', s'.now, heartbeat, d)
  {
  }

  lemma NextPrompt(ttl: nat, s: State, step: Step, heartbeat: nat, d: nat)
    requires Inv(ttl, s) && PromptInv(ttl, s, heartbeat, d) && PromptStep(s, step, heartbeat, d)
    ensures PromptInv(ttl, Next(ttl, s, step), heartbeat, d)
  {
    QuietStays(ttl, s, step, heartbeat, d);
    if Enabled(s, step) {
      match step
      case Serve(c, oc) => ServePrompt(ttl, s, c, oc, heartbeat, d);
      case Deliver(c) => DeliverPrompt(ttl, s, c, heartbeat, d);
      case _ => OtherPrompt(ttl, s, step, heartbeat, d);
    }
  }

  lemma {:induction false} PromptRunKeeps(ttl: nat, now: int, steps: seq<Step>, heartbeat: nat, d: nat)
    requires PromptRun(ttl, Init(now), steps, heartbeat, d)
    ensures PromptInv(ttl, Run(ttl, Init(now), steps), heartbeat, d)
  {
    if steps != [] {
      var before := steps[..|steps| - 1];
      assert forall k :: 0 <= k < |before| ==> before[..k] == steps[..k];
      PromptRunKeeps(ttl, now, before, heartbeat, d);
      RunKeepsInv(ttl, Init(now), before);
      assert before == steps[..|before|];
      NextPrompt(ttl, Run(ttl, Init(now), before), steps[|steps| - 1], heartbeat, d);
    }
  }

  lemma PromptIsTimely(ttl: nat, s: State, step: Step, heartbeat: nat, d: nat)
    requires heartbeat + 2 * d < ttl && PromptInv(ttl, s, heartbeat, d) && PromptStep(s, step, heartbeat, d)
    ensures TimelyStep(s, step)
  {
    if step.Advance? {
      forall i | Committed(s, i) && i in s.granted
        ensures s.now + step.ms < s.granted[i]
      {
        if s.insts[i].leader {
          assert Backed(ttl, s, i, heartbeat, d);
        }
      }
    }
  }

  /** If live instances campaign every heartbeat and handle each reply within `d` of sending the call, and a
      heartbeat plus 2d is shorter than the lease, then replies are timely, so TimelySafety applies. */
  lemma PromptRunsAreTimely(ttl: nat, now: int, steps: seq<Step>, heartbeat: nat, d: nat)
    requires heartbeat + 2 * d < ttl && PromptRun(ttl, Init(now), steps, heartbeat, d)
    ensures TimelyRun(ttl, Init(now), steps)
  {
    forall k | 0 <= k < |steps|
      ensures TimelyStep(Run(ttl, Init(now), steps[..k]), steps[k])
    {
      assert forall j :: 0 <= j < k ==> steps[..k][..j] == steps[..j];
      PromptRunKeeps(ttl, now, steps[..k], heartbeat, d);
      PromptIsTimely(ttl, Run(ttl, Init(now), steps[..k]), steps[k], heartbeat, d);
    }
  }

  /** Under the default heartbeat a third of the lease is enough time for a call: then at most one flag is up
      among the instances that have not released their lease, and it is the holder's. */
  lemma DefaultHeartbeatIsSafe(ttl: nat, now: int, steps: seq<Step>, d: nat, i: nat, j: nat)
    requires 3 * d < ttl && PromptRun(ttl, Init(now), steps, DefaultHeartbeatMs(ttl), d)
    requires Flag(Run(ttl, Init(now), steps), i) && Flag(Run(ttl, Init(now), steps), j)
    ensures var s := Run(ttl, Init(now), steps);
      && (HoldsLease(s, i) <==> i in s.granted)
      && (i in s.granted && j in s.granted ==> i == j)
      && (!s.insts[i].stopped ==> HoldsLease(s, i))
  {
    PromptRunsAreTimely(ttl, now, steps, DefaultHeartbeatMs(ttl), d);
    TimelySafety(ttl, now, steps, i, j);
  }
}
