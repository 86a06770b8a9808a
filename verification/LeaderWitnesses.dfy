/** Runs from the initial state in which the leader flags go wrong. */
module LeaderWitnesses {
  import opened Domain
  import opened Redis
  import opened Leader

  /** One more step. */
  lemma Extend(ttl: nat, now: int, steps: seq<Step>, step: Step) returns (more: seq<Step>)
    ensures more == steps + [step] && Run(ttl, Init(now), more) == Next(ttl, Run(ttl, Init(now), steps), step)
  {
    more := steps + [step];
    RunAppend(ttl, Init(now), steps, step);
  }

  /** Instance 0 has just become the leader, and instance 1 follows. */
  lemma Elected(ttl: nat, now: int) returns (steps: seq<Step>)
    ensures var s := Run(ttl, Init(now), steps);
      && s.now == now && s.calls == map[] && s.store == map[LEADER_KEY := Slot(0, now + ttl)]
      && s.insts == map[0 := Instance(true, false, false), 1 := Instance(false, false, false)]
  {
    steps := Extend(ttl, now, [], Start(0));
    steps := Extend(ttl, now, steps, Start(1));
    var s := Run(ttl, Init(now), steps);
    assert s.insts == map[0 := Instance(false, false, false), 1 := Instance(false, false, false)];
    steps := Extend(ttl, now, steps, Campaign(0, 0));
    assert Run(ttl, Init(now), steps).calls == map[0 := Call(0, Acquire, Waiting)];
    steps := Extend(ttl, now, steps, Serve(0, Done));
    assert Run(ttl, Init(now), steps).calls == map[0 := Call(0, Acquire, Ok)];
    steps := Extend(ttl, now, steps, Deliver(0));
  }

  /** A follower's whole campaign. */
  lemma Campaigns(ttl: nat, now: int, steps: seq<Step>, d: nat, j: nat) returns (more: seq<Step>)
    ensures var s := Run(ttl, Init(now), steps);
      Run(ttl, Init(now), more) == Next(ttl, After2(ttl, s, Campaign(d, j), Serve(d, Done)), Deliver(d))
  {
    more := Extend(ttl, now, steps, Campaign(d, j));
    more := Extend(ttl, now, more, Serve(d, Done));
    more := Extend(ttl, now, more, Deliver(d));
  }

  /** Two flags are up: the first leader has not noticed that its lease lapsed. */
  lemma SlowLeaderRun(ttl: nat, now: int) returns (steps: seq<Step>)
    ensures var s := Run(ttl, Init(now), steps); Flag(s, 0) && Flag(s, 1)
  {
    steps := Elected(ttl, now);
    var s := Run(ttl, Init(now), steps);
    SlowLeaderOverlaps(ttl, s, 0, 1, 0, ttl);
    steps := Extend(ttl, now, steps, Advance(ttl));
    steps := Campaigns(ttl, now, steps, 0, 1);
  }

  /** Two flags are up: the first leader has released its lease and not lowered its flag. */
  lemma StoppingLeaderRun(ttl: nat, now: int) returns (steps: seq<Step>)
    requires ttl > 0
    ensures var s := Run(ttl, Init(now), steps); Flag(s, 0) && Flag(s, 1)
  {
    steps := Elected(ttl, now);
    StopOverlaps(ttl, Run(ttl, Init(now), steps), 0, 1, 0, 1);
    steps := Extend(ttl, now, steps, Stop(0, 0));
    steps := Extend(ttl, now, steps, Serve(0, Done));
    steps := Campaigns(ttl, now, steps, 1, 1);
  }

  /** The flag of a stopped instance is up, and nothing is under way that would lower it. */
  lemma StoppedLeaderRun(ttl: nat, now: int) returns (steps: seq<Step>)
    ensures var s := Run(ttl, Init(now), steps); Flag(s, 0) && s.insts[0].stopped && !Lowered(s, 1, 0)
  {
    steps := Extend(ttl, now, [], Start(0));
    steps := Extend(ttl, now, steps, Campaign(0, 0));
    var s := Run(ttl, Init(now), steps);
    assert s.calls == map[0 := Call(0, Acquire, Waiting)];
    var more := AcquireOutlivesStop(ttl, s, 1, 0);
    steps := Extend(ttl, now, steps, Stop(1, 0));
    StoppedRun(ttl, Run(ttl, Init(now), steps), more, 0);
    RunConcat(ttl, Init(now), steps, more);
    steps := steps + more;
  }

  lemma {:induction false} StoppedRun(ttl: nat, s: State, more: seq<Step>, i: nat)
    requires i in s.insts && s.insts[i].stopped
    ensures var m := Run(ttl, s, more); i in m.insts && m.insts[i].stopped
  {
    if more != [] {
      StoppedRun(ttl, s, more[..|more| - 1], i);
      StaysStopped(ttl, Run(ttl, s, more[..|more| - 1]), more[|more| - 1], i);
    }
  }
}
