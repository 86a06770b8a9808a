/** The code of `campaign` and `stop` in src/lib/leader.ts, against a lease that others change at every await. */
module LeaderProcess {
  import opened Domain
  import opened Redis
  import opened Leader

  /** Steps that leave call `c` alone and do not kill instance `i`. */
  predicate Foreign(step: Step, c: nat, i: nat) {
    match step
    case Advance(_) => true
    case Start(_) => true
    case Campaign(d, _) => d != c
    case Stop(d, _) => d != c
    case Serve(d, _) => d != c
    case Deliver(d) => d != c
    case Die(k) => k != i
  }

  lemma ForeignKeepsCall(ttl: nat, s: State, step: Step, c: nat, i: nat)
    requires i in s.insts && !s.insts[i].dead && Foreign(step, c, i)
    ensures var s' := Next(ttl, s, step);
      && i in s'.insts && !s'.insts[i].dead && (s.insts[i].stopped ==> s'.insts[i].stopped)
      && (c in s.calls ==> c in s'.calls && s'.calls[c] == s.calls[c])
  {
    if step.Serve? && Enabled(s, step) {
      ServeEffect(ttl, s, step.c, step.oc);
    }
  }

  /** The last step handled the reply to call `c`, as the reply demands: the flag goes down unless a renewal was
      granted, and up if a lease was; a refused acquire leaves it alone. Without failing calls there is an answer. */
  ghost predicate Handled(ttl: nat, start: int, steps: seq<Step>, c: nat, i: nat, kind: Kind, insts: map<nat, Instance>,
                          calm: bool) {
    && steps != [] && steps[|steps| - 1] == Deliver(c)
    && var s := Run(ttl, Init(start), steps[..|steps| - 1]);
       && c in s.calls && s.calls[c].instance == i && s.calls[c].kind == kind && i in s.insts
       && s.calls[c].reply != Waiting && (calm ==> s.calls[c].reply != Failed)
       && var flag := match kind
                      case Renew => s.insts[i].leader && s.calls[c].reply == Ok
                      case Acquire => s.calls[c].reply == Ok || (s.insts[i].leader && s.calls[c].reply == No)
                      case Release => false;
          insts == s.insts[i := s.insts[i].(leader := flag)]
  }

  class Cluster {
    const ttl: nat              // leaseTtlMs
    const start: int
    var now: int
    var store: map<string, Slot<nat>>
    var insts: map<nat, Instance>
    var st: State               // the protocol state the fields above are part of
    ghost var steps: seq<Step>  // how it was reached

    ghost predicate Valid()
      reads this
    {
      st == Run(ttl, Init(start), steps) && now == st.now && store == st.store && insts == st.insts
    }

    constructor (ttl: nat, start: int)
      ensures Valid() && this.ttl == ttl && this.start == start && steps == []
    {
      this.ttl, this.start := ttl, start;
      now, store, insts, st, steps := start, map[], map[], Init(start), [];
    }

    method Commit(step: Step)
      requires st == Run(ttl, Init(start), steps)
      modifies `st, `steps
      ensures steps == old(steps) + [step]
      ensures st == Next(ttl, old(st), step) && st == Run(ttl, Init(start), steps)
    {
      RunAppend(ttl, Init(start), steps, step);
      st, steps := Next(ttl, st, step), steps + [step];
    }

    /** Instance `i` awaits call `c`: anything else may happen, other campaigns of `i` included. */
    method Await(c: nat, i: nat)
      requires Valid() && i in insts && !insts[i].dead
      modifies this
      ensures Valid() && old(steps) <= steps && i in insts && !insts[i].dead
      ensures old(insts[i].stopped) ==> insts[i].stopped
      ensures c in old(st).calls ==> c in st.calls && st.calls[c] == old(st).calls[c]
    {
      var n: nat := *;
      while n > 0
        invariant Valid() && old(steps) <= steps && i in insts && !insts[i].dead
        invariant old(insts[i].stopped) ==> insts[i].stopped
        invariant c in old(st).calls ==> c in st.calls && st.calls[c] == old(st).calls[c]
      {
        var step: Step := *;
        if Foreign(step, c, i) {
          ForeignKeepsCall(ttl, st, step, c, i);
          Commit(step);
          now, store, insts := st.now, st.store, st.insts;
        }
        n := n - 1;
      }
    }

    /** How a call ends; in calm runs none fails. */
    method Try(calm: bool) returns (oc: Outcome)
      ensures calm ==> oc == Done
    {
      oc := *;
      if calm { oc := Done; }
    }

    /** The renew script. */
    method EvalRenew(c: nat, i: nat, calm: bool) returns (renewed: bool, threw: bool)
      requires Valid() && c in st.calls && st.calls[c] == Call(i, Renew, Waiting) && i in insts
      modifies this
      ensures Valid() && old(steps) <= steps && insts == old(insts) && c in st.calls
      ensures calm ==> !threw
      ensures st.calls[c] == Call(i, Renew, if threw then Failed else if renewed then Ok else No)
      ensures !threw ==> (renewed <==> HoldsLease(old(st), i))
      ensures !threw ==> (renewed ==> LEADER_KEY in store && store[LEADER_KEY] == Slot(i, now + ttl))
    {
      var oc := Try(calm);
      threw, renewed := oc != Done, false;
      if oc != FailedBefore && LEADER_KEY in store && now < store[LEADER_KEY].expiry && store[LEADER_KEY].value == i {
        store, renewed := store[LEADER_KEY := Slot(i, now + ttl)], true;
      }
      Commit(Serve(c, oc));
    }

    /** SET NX PX. */
    method SetLease(c: nat, i: nat, calm: bool) returns (ok: bool, threw: bool)
      requires Valid() && c in st.calls && st.calls[c] == Call(i, Acquire, Waiting) && i in insts
      modifies this
      ensures Valid() && old(steps) <= steps && insts == old(insts) && c in st.calls
      ensures calm ==> !threw
      ensures st.calls[c] == Call(i, Acquire, if threw then Failed else if ok then Ok else No)
      ensures !threw ==> (ok <==> !Live(old(store), old(now), LEADER_KEY))
      ensures !threw ==> (ok ==> LEADER_KEY in store && store[LEADER_KEY] == Slot(i, now + ttl))
    {
      var oc := Try(calm);
      threw, ok := oc != Done, false;
      if oc != FailedBefore && !(LEADER_KEY in store && now < store[LEADER_KEY].expiry) {
        store, ok := store[LEADER_KEY := Slot(i, now + ttl)], true;
      }
      Commit(Serve(c, oc));
    }

    /** The release script; stop() ignores its errors. */
    method EvalRelease(c: nat, i: nat, calm: bool) returns (threw: bool)
      requires Valid() && c in st.calls && st.calls[c] == Call(i, Release, Waiting) && i in insts
      modifies this
      ensures Valid() && old(steps) <= steps && insts == old(insts) && c in st.calls
      ensures st.calls[c] == Call(i, Release, if threw then Failed else Ok)
      ensures calm ==> !threw
      ensures !HoldsLease(old(st), i) ==> store == old(store)
      ensures HoldsLease(old(st), i) ==> store == old(store) - {LEADER_KEY} || (threw && store == old(store))
    {
      var oc := Try(calm);
      threw := oc != Done;
      if oc != FailedBefore && LEADER_KEY in store && now < store[LEADER_KEY].expiry && store[LEADER_KEY].value == i {
        store := store - {LEADER_KEY};
      }
      Commit(Serve(c, oc));
    }

    /** Issues the call: a renewal for a leader, an acquire for a follower. */
    method Send(c: nat, i: nat) returns (renewing: bool)
      requires Valid() && i in insts && !insts[i].dead && !insts[i].stopped && c !in st.calls
      modifies this
      ensures Valid() && steps == old(steps) + [Campaign(c, i)] && insts == old(insts) && renewing == insts[i].leader
      ensures c in st.calls && st.calls[c] == Call(i, if renewing then Renew else Acquire, Waiting)
    {
      renewing := insts[i].leader;
      Commit(Campaign(c, i));
    }

    /** The code after the await: `val` is what setLeader is called with, if it is. */
    method Handle(c: nat, i: nat, val: Option<bool>, calm: bool)
      requires Valid() && i in insts && !insts[i].dead && c in st.calls && st.calls[c].instance == i
      requires st.calls[c].reply != Waiting && (calm ==> st.calls[c].reply != Failed)
      requires val == match st.calls[c].kind
                      case Renew => if st.calls[c].reply == Ok then None else Some(false)
                      case Acquire => if st.calls[c].reply == Ok then Some(true)
                                      else if st.calls[c].reply == Failed then Some(false) else None
                      case Release => Some(false)
      modifies this
      ensures Valid() && steps == old(steps) + [Deliver(c)] && i in insts && c !in st.calls
      ensures Handled(ttl, start, steps, c, i, old(st.calls[c].kind), insts, calm)
      ensures insts == if val.Some? then old(insts)[i := old(insts)[i].(leader := val.value)] else old(insts)
    {
      if val.Some? {
        insts := insts[i := insts[i].(leader := val.value)];
      }
      assert val.None? ==> insts == insts[i := insts[i].(leader := insts[i].leader)];
      Commit(Deliver(c));
      assert steps[..|steps| - 1] == old(steps);
    }

    /** One campaign. The flag goes up only for a lease that was granted, and down on a refused renewal or an error. */
    method RunCampaign(c: nat, i: nat, calm: bool) returns (val: Option<bool>)
      requires Valid() && i in insts && !insts[i].dead && c !in st.calls
      modifies this
      ensures Valid() && old(steps) <= steps && i in insts && c !in st.calls
      ensures old(insts[i].stopped) ==> steps == old(steps) && val == None
      ensures !old(insts[i].stopped) ==> old(steps) < steps && steps[|old(steps)|] == Campaign(c, i)
      ensures !old(insts[i].stopped) ==>
        Handled(ttl, start, steps, c, i, if old(insts[i].leader) then Renew else Acquire, insts, calm)
      ensures val.Some? ==> insts[i].leader == val.value
      ensures val == Some(true) ==> !old(insts[i].leader)
    {
      if insts[i].stopped { return None; }
      var renewing := Send(c, i);
      Await(c, i);
      if renewing {
        var renewed, threw := EvalRenew(c, i, calm);
        val := if threw || !renewed then Some(false) else None;
      } else {
        var ok, threw := SetLease(c, i, calm);
        val := if threw then Some(false) else if ok then Some(true) else None;
      }
      Await(c, i);
      Handle(c, i, val, calm);
    }

    /** Stops campaigning; a leader's release goes out. */
    method SendStop(c: nat, i: nat) returns (leader: bool)
      requires Valid() && i in insts && !insts[i].dead && c !in st.calls
      modifies this
      ensures Valid() && steps == old(steps) + [Stop(c, i)] && leader == old(insts[i].leader)
      ensures insts == old(insts)[i := old(insts)[i].(stopped := true)]
      ensures leader ==> c in st.calls && st.calls[c] == Call(i, Release, Waiting)
    {
      leader := insts[i].leader;
      insts := insts[i := insts[i].(stopped := true)];
      Commit(Stop(c, i));
    }

    /** stop(): afterwards the instance no longer campaigns, and a leader's release is handled and its flag down. */
    method RunStop(c: nat, i: nat, calm: bool)
      requires Valid() && i in insts && !insts[i].dead && c !in st.calls
      modifies this
      ensures Valid() && old(steps) < steps && steps[|old(steps)|] == Stop(c, i) && i in insts && insts[i].stopped
      ensures old(insts[i].leader) ==> !insts[i].leader && Handled(ttl, start, steps, c, i, Release, insts, calm)
      ensures !old(insts[i].leader) ==> steps == old(steps) + [Stop(c, i)]
    {
      var leader := SendStop(c, i);
      if leader {
        Await(c, i);
        var _ := EvalRelease(c, i, calm);
        Await(c, i);
        Handle(c, i, Some(false), calm);
      }
    }
  }
}
