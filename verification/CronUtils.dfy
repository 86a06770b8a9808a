/** src/lib/cron-utils.ts: the fire-slot that is due at an instant. */
module CronUtils {
  import opened Domain

  function WindowMs(env: Env): nat { env.scanMs + 5000 }

  function Zone(timezone: string): string { if timezone == "" then "UTC" else timezone }

  function DueFireSlot(env: Env, cronExpression: string, timezone: string, now: int): Option<int> {
    match env.prev(cronExpression, Zone(timezone), now)
    case None => None
    case Some(p) => if 0 <= now - p <= WindowMs(env) then Some(p) else None
  }

  /** The cron library's contract: `prev` is the greatest fire time strictly before `now`. */
  ghost predicate IsPrev(fires: iset<int>, now: int, prev: Option<int>) {
    match prev
    case None => forall f :: f in fires ==> now <= f
    case Some(p) => p in fires && p < now && forall f :: f in fires && f < now ==> f <= p
  }

  /** `fires` is the set of fire times of (expression, time zone), an empty time zone meaning UTC. */
  ghost predicate FireTimes(env: Env, cron: string, zone: string, fires: iset<int>) {
    var tz := if zone == "" then "UTC" else zone;
    forall now :: IsPrev(fires, now, env.prev(cron, tz, now))
  }

  /** `slot` is the last fire time before `now`, if it is no older than one scan and five seconds. */
  ghost predicate IsDue(env: Env, cron: string, zone: string, now: int, slot: Option<int>) {
    var last := env.prev(cron, if zone == "" then "UTC" else zone, now);
    slot == if last.Some? && last.value <= now <= last.value + env.scanMs + 5000 then last else None
  }

  ghost predicate NoFireIn(fires: iset<int>, lo: int, hi: int) {
    forall f :: lo <= f < hi ==> f !in fires
  }

  /** A fire time is due exactly from just after it until the window ends or the next one arrives. */
  lemma DueExactly(env: Env, cron: string, zone: string, fires: iset<int>, now: int, f: int)
    requires FireTimes(env, cron, zone, fires)
    ensures DueFireSlot(env, cron, zone, now) == Some(f) <==>
            f in fires && f < now <= f + env.scanMs + 5000 && NoFireIn(fires, f + 1, now)
  {
  }

  /** Two evaluations with no fire time between them agree whenever the later one is due. */
  lemma SlotStability(env: Env, cron: string, zone: string, fires: iset<int>, early: int, late: int)
    requires FireTimes(env, cron, zone, fires)
    requires early <= late && NoFireIn(fires, early, late)
    requires DueFireSlot(env, cron, zone, late).Some?
    ensures DueFireSlot(env, cron, zone, early) == DueFireSlot(env, cron, zone, late)
  {
  }

  /** Evaluations separated by a fire time never return the same slot. */
  lemma SlotsSeparated(env: Env, cron: string, zone: string, fires: iset<int>, early: int, late: int, f: int)
    requires FireTimes(env, cron, zone, fires)
    requires f in fires && early <= f < late
    requires DueFireSlot(env, cron, zone, early).Some?
    ensures DueFireSlot(env, cron, zone, late) != DueFireSlot(env, cron, zone, early)
  {
  }

  /** Instants at which ticks evaluate a job, in order, never further apart than `gap`. */
  ghost predicate TickTimes(ticks: seq<int>, gap: int) {
    forall i :: 0 <= i < |ticks| - 1 ==> ticks[i] <= ticks[i + 1] <= ticks[i] + gap
  }

  ghost predicate Returned(env: Env, cron: string, zone: string, ticks: seq<int>, f: int) {
    exists i :: 0 <= i < |ticks| && DueFireSlot(env, cron, zone, ticks[i]) == Some(f)
  }

  /** A tick falls after `f` and no later than the next fire time. */
  ghost predicate TickBeforeNext(fires: iset<int>, ticks: seq<int>, f: int) {
    exists i :: 0 <= i < |ticks| && f < ticks[i] && NoFireIn(fires, f + 1, ticks[i])
  }

  /** The first tick after `f` exists, and lies within `gap` of it, once some tick came at or before `f`. */
  lemma {:induction false} FirstTickAfter(ticks: seq<int>, gap: int, f: int, i: nat) returns (k: nat)
    requires TickTimes(ticks, gap) && i < |ticks| && ticks[0] <= f < ticks[i]
    ensures k <= i && f < ticks[k] <= f + gap && ticks[k] <= ticks[i]
  {
    if ticks[i - 1] <= f {
      k := i;
    } else {
      k := FirstTickAfter(ticks, gap, f, i - 1);
    }
  }

  /** Coverage: with ticks no further apart than the window, the ticks miss a fire time only
      when no tick falls between it and the next one. */
  lemma Coverage(env: Env, cron: string, zone: string, fires: iset<int>, ticks: seq<int>, f: int)
    requires FireTimes(env, cron, zone, fires)
    requires TickTimes(ticks, env.scanMs + 5000) && |ticks| > 0 && ticks[0] <= f && f in fires
    ensures Returned(env, cron, zone, ticks, f) <==> TickBeforeNext(fires, ticks, f)
  {
    if Returned(env, cron, zone, ticks, f) {
      var i :| 0 <= i < |ticks| && DueFireSlot(env, cron, zone, ticks[i]) == Some(f);
      DueExactly(env, cron, zone, fires, ticks[i], f);
    }
    if TickBeforeNext(fires, ticks, f) {
      var i :| 0 <= i < |ticks| && f < ticks[i] && NoFireIn(fires, f + 1, ticks[i]);
      var k := FirstTickAfter(ticks, WindowMs(env), f, i);
      DueExactly(env, cron, zone, fires, ticks[k], f);
    }
  }

  /** If consecutive fire times are at least one tick gap apart, none between two ticks is missed. */
  lemma NoneMissed(env: Env, cron: string, zone: string, fires: iset<int>, ticks: seq<int>, gap: int, f: int)
    requires FireTimes(env, cron, zone, fires)
    requires gap <= env.scanMs + 5000 && TickTimes(ticks, gap) && |ticks| > 0
    requires f in fires && ticks[0] <= f < ticks[|ticks| - 1]
    requires NoFireIn(fires, f + 1, f + gap)
    ensures Returned(env, cron, zone, ticks, f)
  {
    var k := FirstTickAfter(ticks, gap, f, |ticks| - 1);
    DueExactly(env, cron, zone, fires, ticks[k], f);
  }

  /** A schedule denser than the ticks does lose fire times: fires at 0 and 1, ticks at 0 and 2. */
  lemma DenseScheduleMisses(env: Env, cron: string, zone: string)
    requires FireTimes(env, cron, zone, iset{0, 1})
    ensures TickTimes([0, 2], env.scanMs + 5000) && !Returned(env, cron, zone, [0, 2], 0)
  {
  }
}
