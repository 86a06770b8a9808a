/** How long the lease stays vacant after its holder falls silent. */
module LeaderFailover {
  import opened Domain
  import opened Redis
  import opened Leader

  /** The instance is alive and not among the silent ones. */
  predicate Present(s: State, gone: set<nat>, i: nat) { i !in gone && i in s.insts && !s.insts[i].dead }

  /** From `s` on, Redis serves nothing more for the instances in `gone`, nor for the dead. */
  ghost predicate Silent(ttl: nat, s: State, steps: seq<Step>, gone: set<nat>) {
    forall k :: 0 <= k < |steps| && steps[k].Serve? ==>
      var m := Run(ttl, s, steps[..k]);
      Enabled(m, steps[k]) ==> Present(m, gone, m.calls[steps[k].c].instance)
  }

  /** A live instance holds the lease. */
  predicate Led(s: State, gone: set<nat>) {
    Live(s.store, s.now, LEADER_KEY) && Present(s, gone, s.store[LEADER_KEY].value)
  }

  /** By time `at`, a live instance has held the lease. */
  ghost predicate LedBy(ttl: nat, s: State, steps: seq<Step>, gone: set<nat>, at: int) {
    exists k: nat :: k <= |steps| && Led(Run(ttl, s, steps[..k]), gone) && Run(ttl, s, steps[..k]).now <= at
  }

  /** At position `k`, Redis serves a campaign of instance `f` without error. */
  ghost predicate ServesCampaign(ttl: nat, s: State, steps: seq<Step>, k: nat, f: nat) {
    && k < |steps| && steps[k].Serve? && steps[k].oc == Done
    && var m := Run(ttl, s, steps[..k]); var c := steps[k].c;
       c in m.calls && m.calls[c].instance == f && m.calls[c].kind != Release && m.calls[c].reply == Waiting
  }

  ghost predicate CampaignsWithin(ttl: nat, s: State, steps: seq<Step>, f: nat, at: int, heartbeat: nat) {
    exists k: nat :: ServesCampaign(ttl, s, steps, k, f) && at <= Run(ttl, s, steps[..k]).now <= at + heartbeat
  }

  /** The follower campaigns in every stretch of one heartbeat, at least until somebody has taken over. */
  ghost predicate CampaignsEvery(ttl: nat, s: State, steps: seq<Step>, gone: set<nat>, f: nat, heartbeat: nat) {
    forall at :: s.now <= at <= s.now + ttl ==>
      CampaignsWithin(ttl, s, steps, f, at, heartbeat) || LedBy(ttl, s, steps, gone, at)
  }

  /** The instance does not lead, and nothing under way is a renewal or would make it lead. */
  ghost predicate Follows(s: State, f: nat) {
    f in s.insts && !s.insts[f].leader
    && forall c :: c in s.calls && s.calls[c].instance == f ==> s.calls[c].kind == Acquire && s.calls[c].reply != Ok
  }

  /** Bounded failover: once the instances in `gone` are silent, the old holder among them, and while a follower
      campaigns every heartbeat until somebody has taken over, a live instance that is not among them holds
      the lease within one lease plus one heartbeat. */
  lemma Failover(ttl: nat, s: State, steps: seq<Step>, gone: set<nat>, f: nat, heartbeat: nat)
    requires ttl > 0 && Inv(ttl, s) && Silent(ttl, s, steps, gone)
    requires Follows(s, f) && CampaignsEvery(ttl, s, steps, gone, f, heartbeat)
    ensures LedBy(ttl, s, steps, gone, s.now + ttl + heartbeat)
  {
    var lapse := if Live(s.store, s.now, LEADER_KEY) then s.store[LEADER_KEY].expiry else s.now;
    if !LedBy(ttl, s, steps, gone, lapse) {
      assert CampaignsWithin(ttl, s, steps, f, lapse, heartbeat);
      var n: nat :| ServesCampaign(ttl, s, steps, n, f) && lapse <= Run(ttl, s, steps[..n]).now <= lapse + heartbeat;
      if k: nat :| k <= n && Led(Run(ttl, s, steps[..k]), gone) {
        NowGrows(ttl, s, steps, k, n);
      } else {
        var m := Run(ttl, s, steps[..n]);
        Vacant(ttl, s, steps, gone, f, n);
        RunTake(ttl, s, steps, n);
        LapsedLease(s, m, lapse);
        FollowerTakesOver(ttl, m, steps[n].c, gone, f);
        assert Led(Run(ttl, s, steps[..n + 1]), gone);
      }
    }
  }

  lemma FollowerTakesOver(ttl: nat, m: State, c: nat, gone: set<nat>, f: nat)
    requires ttl > 0 && !Live(m.store, m.now, LEADER_KEY) && Follows(m, f) && Present(m, gone, f)
    requires c in m.calls && m.calls[c].instance == f && m.calls[c].reply == Waiting
    ensures var m' := Next(ttl, m, Serve(c, Done)); Led(m', gone) && m'.now == m.now
  {
  }

  lemma LapsedLease(s: State, m: State, lapse: int)
    requires Live(m.store, m.now, LEADER_KEY) ==> LEADER_KEY in s.store && m.store[LEADER_KEY] == s.store[LEADER_KEY]
    requires lapse <= m.now && s.now <= m.now
    requires lapse == if Live(s.store, s.now, LEADER_KEY) then s.store[LEADER_KEY].expiry else s.now
    ensures !Live(m.store, m.now, LEADER_KEY)
  {
  }

  /** As long as nobody took over, the old lease is all there is, and the follower still follows. */
  ghost predicate StillVacant(s: State, m: State, f: nat) {
    && s.now <= m.now && Follows(m, f)
    && (Live(m.store, m.now, LEADER_KEY) ==> LEADER_KEY in s.store && m.store[LEADER_KEY] == s.store[LEADER_KEY])
  }

  /** Redis serves a call while nobody has taken over: the lease is unchanged and the call got nothing. */
  lemma VacantServe(ttl: nat, m: State, c: nat, oc: Outcome, gone: set<nat>)
    requires ttl > 0 && Inv(ttl, m) && Enabled(m, Serve(c, oc)) && Present(m, gone, m.calls[c].instance)
    requires !Led(m, gone) && !Led(DoServe(ttl, m, c, oc), gone)
    ensures var m' := DoServe(ttl, m, c, oc);
      && m'.store == m.store && m'.insts == m.insts && m'.now == m.now && c in m'.calls
      && m'.calls == m.calls[c := m.calls[c].(reply := m'.calls[c].reply)]
      && (m.calls[c].kind == Acquire ==> m'.calls[c].reply != Ok)
  {
    ServeEffect(ttl, m, c, oc);
    assert CallFits(m, m.calls[c]);
  }

  lemma VacantStep(ttl: nat, s: State, m: State, step: Step, gone: set<nat>, f: nat)
    requires ttl > 0 && Inv(ttl, m) && StillVacant(s, m, f)
    requires step.Serve? && Enabled(m, step) ==> Present(m, gone, m.calls[step.c].instance)
    requires !Led(m, gone) && !Led(Next(ttl, m, step), gone)
    ensures StillVacant(s, Next(ttl, m, step), f)
  {
    if Enabled(m, step) {
      if step.Serve? {
        VacantServe(ttl, m, step.c, step.oc, gone);
        VacantStays(s, m, DoServe(ttl, m, step.c, step.oc), f);
      } else {
        FollowsStep(ttl, m, step, f);
        OthersKeepLease(ttl, m, step);
      }
    }
  }

  lemma VacantStays(s: State, m: State, m': State, f: nat)
    requires StillVacant(s, m, f) && m'.now == m.now && m'.store == m.store && m'.insts == m.insts
    requires m'.calls.Keys == m.calls.Keys
    requires forall c :: c in m.calls ==>
      m'.calls[c].instance == m.calls[c].instance && m'.calls[c].kind == m.calls[c].kind
    requires forall c :: c in m.calls && m'.calls[c].reply == Ok && m'.calls[c].kind == Acquire ==>
      m.calls[c].reply == Ok
    ensures StillVacant(s, m', f)
  {
  }

  lemma OthersKeepLease(ttl: nat, m: State, step: Step)
    requires !step.Serve?
    ensures Next(ttl, m, step).store == m.store && m.now <= Next(ttl, m, step).now
  {
  }

  lemma FollowsStep(ttl: nat, m: State, step: Step, f: nat)
    requires Follows(m, f) && Enabled(m, step) && !step.Serve?
    ensures Follows(Next(ttl, m, step), f)
  {
  }

  lemma {:induction false} Vacant(ttl: nat, s: State, steps: seq<Step>, gone: set<nat>, f: nat, n: nat)
    requires ttl > 0 && Inv(ttl, s) && Silent(ttl, s, steps, gone) && Follows(s, f) && n <= |steps|
    requires forall k :: 0 <= k <= n ==> !Led(Run(ttl, s, steps[..k]), gone)
    ensures StillVacant(s, Run(ttl, s, steps[..n]), f)
  {
    if n == 0 {
      assert steps[..0] == [];
    } else {
      var m := Run(ttl, s, steps[..n - 1]);
      RunTake(ttl, s, steps, n - 1);
      Vacant(ttl, s, steps, gone, f, n - 1);
      RunKeepsInv(ttl, s, steps[..n - 1]);
      VacantStep(ttl, s, m, steps[n - 1], gone, f);
    }
  }

  lemma {:induction false} NowGrows(ttl: nat, s: State, steps: seq<Step>, k: nat, n: nat)
    requires k <= n <= |steps|
    ensures Run(ttl, s, steps[..k]).now <= Run(ttl, s, steps[..n]).now
  {
    if k < n {
      NowGrows(ttl, s, steps, k, n - 1);
      RunTake(ttl, s, steps, n - 1);
      TimeMoves(ttl, Run(ttl, s, steps[..n - 1]), steps[n - 1]);
    }
  }

  lemma TimeMoves(ttl: nat, m: State, step: Step)
    ensures m.now <= Next(ttl, m, step).now
  {
  }
}
