/**
  src/services/job.service.ts and src/lib/job-cache.ts: database writes followed by cache commands, each a
  separate step, interleaved with each other and with the workers' writes to the job table.
 */
module JobCache {
  import opened Domain
  import opened Redis

  const CACHE_TTL_MS := 3600 * 1000

  /** A cache command still to be sent: SET of a row, or DEL of a key. */
  datatype Cmd = Set(job: Job) | Del(id: JobId)

  /** An API operation whose database write has committed: the jobs it is about, and its remaining commands,
      sent one after the other or, by Promise.all, together. */
  datatype ApiOp = ApiOp(ids: set<JobId>, todo: seq<Cmd>, together: bool)

  datatype State = State(
    now: int,
    rows: map<JobId, Job>,
    cache: map<JobId, Slot<Job>>,
    ops: map<nat, ApiOp>,
    // history
    versions: map<JobId, set<Job>>,   // every row a job ever had; its keys are the ids ever used
    racy: set<JobId>)                 // jobs whose latest operation overlapped with another, or broke off

  function Init(now: int): State { State(now, map[], map[], map[], map[], {}) }

  datatype Step =
    | Advance(ms: nat)
    | Create(o: nat, job: Job)
    | Update(o: nat, job: Job)                               // `job` is the row the update returns
    | Delete(o: nat, id: JobId)
    | Bulk(o: nat, ids: seq<JobId>, enabled: bool, at: int)
    | Exec(o: nat, oc: Outcome)                              // the next cache command
    | Quit(o: nat)                                           // the process dies
    | WorkerWrite(id: JobId, enabled: bool, count: nat, at: int)

  predicate Enabled(s: State, step: Step) {
    match step
    case Advance(_) => true
    case Create(o, job) => o !in s.ops && job.id !in s.versions
    case Update(o, job) => o !in s.ops && job.id in s.rows
                           && job.consecutiveDeadCount == s.rows[job.id].consecutiveDeadCount
    case Delete(o, id) => o !in s.ops && id in s.rows
    case Bulk(o, _, _, _) => o !in s.ops
    case Exec(o, _) => o in s.ops && s.ops[o].todo != []
    case Quit(o) => o in s.ops
    case WorkerWrite(id, _, _, _) => id in s.rows
  }

  function PutRow(s: State, job: Job): State {
    s.(rows := s.rows[job.id := job],
       versions := s.versions[job.id := (if job.id in s.versions then s.versions[job.id] else {}) + {job}])
  }

  predicate Busy(s: State, id: JobId) { exists o :: o in s.ops && id in s.ops[o].ids }

  /** Starts an operation; a job becomes racy if another operation is busy with it, and is no longer otherwise. */
  function Launch(s: State, o: nat, ids: set<JobId>, todo: seq<Cmd>, together: bool): State {
    s.(ops := s.ops[o := ApiOp(ids, todo, together)], racy := (s.racy - ids) + (set id | id in ids && Busy(s, id)))
  }

  function Run1(cache: map<JobId, Slot<Job>>, now: int, cmd: Cmd): map<JobId, Slot<Job>> {
    match cmd
    case Set(job) => cache[job.id := Slot(job, now + CACHE_TTL_MS)]
    case Del(id) => cache - {id}
  }

  function DoExec(s: State, o: nat, oc: Outcome): State
    requires Enabled(s, Exec(o, oc))
  {
    var op := s.ops[o];
    var s' := if oc.FailedBefore? then s else s.(cache := Run1(s.cache, s.now, op.todo[0]));
    var broken := if oc.Done? then {} else if op.together then {CmdId(op.todo[0])} else op.ids;
    s'.(racy := s.racy + broken,
        ops := if |op.todo| == 1 || (!oc.Done? && !op.together) then s.ops - {o}
               else s.ops[o := op.(todo := op.todo[1..])])
  }

  function BulkRow(job: Job, enabled: bool, at: int): Job { job.(enabled := enabled, updatedAt := at) }

  function BulkRows(rows: map<JobId, Job>, ids: seq<JobId>, enabled: bool, at: int): map<JobId, Job> {
    map id | id in rows :: if id in ids then BulkRow(rows[id], enabled, at) else rows[id]
  }

  function Dels(ids: seq<JobId>): seq<Cmd> { seq(|ids|, i requires 0 <= i < |ids| => Del(ids[i])) }

  function DoBulk(s: State, o: nat, ids: seq<JobId>, enabled: bool, at: int): State {
    var rows := BulkRows(s.rows, ids, enabled, at);
    var versions := map id | id in s.versions ::
      if id in ids && id in s.rows then s.versions[id] + {BulkRow(s.rows[id], enabled, at)} else s.versions[id];
    var s' := s.(rows := rows, versions := versions);
    if ids == [] then s' else Launch(s', o, (set id | id in ids), Dels(ids), true)
  }

  function Apply(s: State, step: Step): State
    requires Enabled(s, step)
  {
    match step
    case Advance(ms) => s.(now := s.now + ms)
    case Create(o, job) => Launch(PutRow(s, job), o, {job.id}, [Set(job)], false)
    case Update(o, job) => Launch(PutRow(s, job), o, {job.id}, [Del(job.id), Set(job)], false)
    case Delete(o, id) => Launch(s.(rows := s.rows - {id}), o, {id}, [Del(id)], false)
    case Bulk(o, ids, enabled, at) => DoBulk(s, o, ids, enabled, at)
    case Exec(o, oc) => DoExec(s, o, oc)
    case Quit(o) => s.(ops := s.ops - {o}, racy := s.racy + s.ops[o].ids)
    case WorkerWrite(id, enabled, count, at) =>
      PutRow(s, s.rows[id].(enabled := enabled, consecutiveDeadCount := count, updatedAt := at))
  }

  function Next(s: State, step: Step): State { if Enabled(s, step) then Apply(s, step) else s }

  function Run(s: State, steps: seq<Step>): State {
    if steps == [] then s else Next(Run(s, steps[..|steps| - 1]), steps[|steps| - 1])
  }

  /** getCachedJob, else the database: the job a worker goes by. */
  function SeenJob(s: State, id: JobId): Option<Job> {
    if Live(s.cache, s.now, id) then Some(s.cache[id].value)
    else if id in s.rows then Some(s.rows[id]) else None
  }

  // ---------- every entry is a version ----------

  ghost predicate Version(s: State, id: JobId, job: Job) { job.id == id && id in s.versions && job in s.versions[id] }

  ghost predicate VersionInv(s: State) {
    && (forall id :: id in s.rows ==> Version(s, id, s.rows[id]))
    && (forall id :: id in s.cache ==> Version(s, id, s.cache[id].value))
    && (forall o, i :: o in s.ops && 0 <= i < |s.ops[o].todo| && s.ops[o].todo[i].Set? ==>
          Version(s, s.ops[o].todo[i].job.id, s.ops[o].todo[i].job))
  }

  // ---------- coherence ----------

  function CmdId(cmd: Cmd): JobId { if cmd.Set? then cmd.job.id else cmd.id }

  /** What the entry for `id` will be once these commands have run. */
  function After(entry: Option<Job>, todo: seq<Cmd>, id: JobId): Option<Job>
    decreases todo
  {
    if todo == [] then entry
    else After(if CmdId(todo[0]) != id then entry else if todo[0].Set? then Some(todo[0].job) else None, todo[1..], id)
  }

  function Entry(s: State, id: JobId): Option<Job> { if id in s.cache then Some(s.cache[id].value) else None }

  /** Absent, or equal to the row on every column that only the API writes. */
  predicate Agrees(s: State, id: JobId, entry: Option<Job>) {
    entry.Some? ==> id in s.rows && entry.value.config == s.rows[id].config
  }

  /** A job that is not racy has at most one operation in flight, and agrees once that one is done. */
  ghost predicate Coherent(s: State, id: JobId) {
    && (forall o, p :: o in s.ops && p in s.ops && id in s.ops[o].ids && id in s.ops[p].ids ==> o == p)
    && (forall o :: o in s.ops && id in s.ops[o].ids ==> Agrees(s, id, After(Entry(s, id), s.ops[o].todo, id)))
    && (!Busy(s, id) ==> Agrees(s, id, Entry(s, id)))
  }

  ghost predicate CoherenceInv(s: State) {
    && (forall id :: id !in s.racy ==> Coherent(s, id))
    && (forall o :: o in s.ops ==> OwnCommands(s.ops[o]))
  }

  /** An operation only sends commands about its own jobs. */
  ghost predicate OwnCommands(op: ApiOp) {
    op.todo != [] && forall i :: 0 <= i < |op.todo| ==> CmdId(op.todo[i]) in op.ids
  }

  ghost predicate Inv(s: State) { VersionInv(s) && CoherenceInv(s) }

  // ---------- versions ----------

  ghost predicate VersionsGrow(s: State, s': State) {
    forall id :: id in s.versions ==> id in s'.versions && s.versions[id] <= s'.versions[id]
  }

  ghost predicate VersionStep(s: State, s': State) {
    && VersionsGrow(s, s')
    && (forall id :: id in s'.rows ==> Version(s', id, s'.rows[id]))
    && (forall id :: id in s'.cache ==>
          (id in s.cache && s'.cache[id] == s.cache[id])
          || (exists o, i :: o in s.ops && 0 <= i < |s.ops[o].todo| && s.ops[o].todo[i] == Set(s'.cache[id].value)
                             && s'.cache[id].value.id == id))
    && (forall o, i :: o in s'.ops && 0 <= i < |s'.ops[o].todo| && s'.ops[o].todo[i].Set? ==>
          || Version(s', s'.ops[o].todo[i].job.id, s'.ops[o].todo[i].job)
          || (o in s.ops && s'.ops[o].todo[i] in s.ops[o].todo))
  }

  lemma VersionStepKeeps(s: State, s': State)
    requires VersionInv(s) && VersionStep(s, s')
    ensures VersionInv(s')
  {
  }

  lemma ExecVersions(s: State, o: nat, oc: Outcome)
    requires VersionInv(s) && Enabled(s, Exec(o, oc))
    ensures VersionStep(s, DoExec(s, o, oc))
  {
  }

  lemma BulkVersions(s: State, o: nat, ids: seq<JobId>, enabled: bool, at: int)
    requires VersionInv(s) && o !in s.ops
    ensures VersionStep(s, DoBulk(s, o, ids, enabled, at))
  {
  }

  lemma WriteVersions(s: State, step: Step)
    requires VersionInv(s) && Enabled(s, step) && (step.Create? || step.Update? || step.WorkerWrite?)
    ensures VersionStep(s, Next(s, step))
  {
    assert VersionsGrow(s, Next(s, step));
  }

  lemma NextKeepsVersions(s: State, step: Step)
    requires VersionInv(s)
    ensures VersionInv(Next(s, step))
  {
    if Enabled(s, step) {
      match step
      case Exec(o, oc) =>
        ExecVersions(s, o, oc);
        VersionStepKeeps(s, Next(s, step));
      case Bulk(o, ids, enabled, at) =>
        BulkVersions(s, o, ids, enabled, at);
        VersionStepKeeps(s, Next(s, step));
      case Create(_, _) =>
        WriteVersions(s, step);
        VersionStepKeeps(s, Next(s, step));
      case Update(_, _) =>
        WriteVersions(s, step);
        VersionStepKeeps(s, Next(s, step));
      case WorkerWrite(_, _, _, _) =>
        WriteVersions(s, step);
        VersionStepKeeps(s, Next(s, step));
      case _ =>
    }
  }

  /** In every interleaving, with failures and crashes: a cache entry, and so the job a worker goes by, is a
      row that job once had. */
  lemma {:induction false} EntriesAreVersions(now: int, steps: seq<Step>)
    ensures VersionInv(Run(Init(now), steps))
  {
    if steps != [] {
      EntriesAreVersions(now, steps[..|steps| - 1]);
      NextKeepsVersions(Run(Init(now), steps[..|steps| - 1]), steps[|steps| - 1]);
    }
  }

  lemma SeenJobIsVersion(now: int, steps: seq<Step>, id: JobId)
    ensures var s := Run(Init(now), steps);
      SeenJob(s, id).Some? ==> Version(s, id, SeenJob(s, id).value)
  {
    EntriesAreVersions(now, steps);
  }

  // ---------- coherence at rest ----------

  /** Nothing about this job changes except columns that workers write. */
  ghost predicate Untouched(s: State, s': State, id: JobId) {
    && Entry(s', id) == Entry(s, id)
    && (id in s.rows <==> id in s'.rows) && (id in s.rows ==> s'.rows[id].config == s.rows[id].config)
  }

  lemma UntouchedStays(s: State, s': State, id: JobId)
    requires Coherent(s, id) && Untouched(s, s', id)
    requires forall o :: (o in s'.ops && id in s'.ops[o].ids) <==> (o in s.ops && id in s.ops[o].ids)
    requires forall o :: o in s.ops && id in s.ops[o].ids ==> s'.ops[o] == s.ops[o]
    ensures Coherent(s', id)
  {
  }

  /** An operation is launched whose commands will leave the entry in agreement with the new row. */
  lemma LaunchCoherent(s: State, m: State, o: nat, ids: set<JobId>, todo: seq<Cmd>, together: bool, id: JobId)
    requires o !in s.ops && m.ops == s.ops && m.cache == s.cache && m.racy == s.racy
    requires id !in ids ==> Coherent(s, id) && Untouched(s, m, id)
    requires id in ids ==> Agrees(m, id, After(Entry(m, id), todo, id))
    requires id !in Launch(m, o, ids, todo, together).racy
    ensures Coherent(Launch(m, o, ids, todo, together), id)
  {
    var s' := Launch(m, o, ids, todo, together);
    if id in ids {
      assert !Busy(m, id);
      assert Busy(s', id) by { assert o in s'.ops && id in s'.ops[o].ids; }
    } else {
      UntouchedStays(s, s', id);
    }
  }

  lemma {:induction false} AfterDels(entry: Option<Job>, todo: seq<Cmd>, id: JobId)
    requires forall i :: 0 <= i < |todo| ==> todo[i].Del?
    requires entry.None? || exists i :: 0 <= i < |todo| && todo[i] == Del(id)
    ensures After(entry, todo, id) == None
    decreases todo
  {
    if todo != [] {
      var entry' := if CmdId(todo[0]) != id then entry else None;
      if entry'.Some? {
        var i :| 0 <= i < |todo| && todo[i] == Del(id);
        assert todo[1..][i - 1] == Del(id);
      }
      AfterDels(entry', todo[1..], id);
    }
  }

  lemma BulkCoherent(s: State, o: nat, ids: seq<JobId>, enabled: bool, at: int, id: JobId)
    requires o !in s.ops && (id !in s.racy ==> Coherent(s, id)) && id !in DoBulk(s, o, ids, enabled, at).racy
    ensures Coherent(DoBulk(s, o, ids, enabled, at), id)
  {
    var s' := DoBulk(s, o, ids, enabled, at);
    if ids == [] {
      UntouchedStays(s, s', id);
    } else {
      var todo := Dels(ids);
      var m := s.(rows := s'.rows, versions := s'.versions);
      if id in ids {
        var i :| 0 <= i < |ids| && ids[i] == id;
        assert todo[i] == Del(id);
        AfterDels(Entry(m, id), todo, id);
      }
      LaunchCoherent(s, m, o, (set j | j in ids), todo, true, id);
    }
  }

  lemma AfterOne(entry: Option<Job>, cmd: Cmd, id: JobId)
    ensures After(entry, [cmd], id) == if CmdId(cmd) != id then entry else if cmd.Set? then Some(cmd.job) else None
  {
  }

  lemma AfterDelSet(entry: Option<Job>, job: Job)
    ensures After(entry, [Del(job.id), Set(job)], job.id) == Some(job)
  {
    assert [Del(job.id), Set(job)][1..] == [Set(job)];
    AfterOne(None, Set(job), job.id);
  }

  /** Running a command leaves the eventual entry as it was. */
  lemma RunAdvances(s: State, s': State, todo: seq<Cmd>, id: JobId)
    requires todo != [] && s'.cache == Run1(s.cache, s.now, todo[0])
    ensures After(Entry(s', id), todo[1..], id) == After(Entry(s, id), todo, id)
  {
  }

  /** A command about another job leaves this one's eventual entry as it was, whether it runs or not. */
  lemma SkipAdvances(entry: Option<Job>, todo: seq<Cmd>, id: JobId)
    requires todo != [] && CmdId(todo[0]) != id
    ensures After(entry, todo[1..], id) == After(entry, todo, id)
  {
  }

  lemma ExecOwnCoherent(s: State, o: nat, oc: Outcome, id: JobId)
    requires Coherent(s, id) && Enabled(s, Exec(o, oc)) && id in s.ops[o].ids && id !in DoExec(s, o, oc).racy
    ensures Coherent(DoExec(s, o, oc), id)
  {
    var s', todo := DoExec(s, o, oc), s.ops[o].todo;
    if oc.Done? {
      RunAdvances(s, s', todo, id);
    } else {
      SkipAdvances(Entry(s, id), todo, id);
    }
    assert Agrees(s', id, After(Entry(s', id), todo[1..], id));
    assert forall p :: p in s.ops && p != o ==> id !in s.ops[p].ids;
    if |todo| == 1 {
      assert todo[1..] == [];
    } else {
      assert Busy(s', id) by { assert o in s'.ops && id in s'.ops[o].ids; }
    }
  }

  lemma ExecCoherent(s: State, o: nat, oc: Outcome, id: JobId)
    requires Coherent(s, id) && Enabled(s, Exec(o, oc)) && OwnCommands(s.ops[o]) && id !in DoExec(s, o, oc).racy
    ensures Coherent(DoExec(s, o, oc), id)
  {
    if id in s.ops[o].ids {
      ExecOwnCoherent(s, o, oc, id);
    } else {
      assert CmdId(s.ops[o].todo[0]) != id;
      UntouchedStays(s, DoExec(s, o, oc), id);
    }
  }

  lemma ApiWriteCoherent(s: State, step: Step, id: JobId)
    requires (id !in s.racy ==> Coherent(s, id)) && Enabled(s, step) && id !in Next(s, step).racy
    requires step.Create? || step.Update? || step.Delete?
    ensures Coherent(Next(s, step), id)
  {
    match step
    case Create(o, job) =>
      AfterOne(Entry(s, id), Set(job), id);
      LaunchCoherent(s, PutRow(s, job), o, {job.id}, [Set(job)], false, id);
    case Update(o, job) =>
      AfterDelSet(Entry(s, id), job);
      LaunchCoherent(s, PutRow(s, job), o, {job.id}, [Del(job.id), Set(job)], false, id);
    case Delete(o, j) =>
      AfterOne(Entry(s, id), Del(j), id);
      LaunchCoherent(s, s.(rows := s.rows - {j}), o, {j}, [Del(j)], false, id);
  }

  lemma StepCoherent(s: State, step: Step, id: JobId)
    requires Inv(s) && Enabled(s, step) && id !in Next(s, step).racy
    ensures Coherent(Next(s, step), id)
  {
    assert id !in s.racy ==> Coherent(s, id);
    match step
    case Advance(_) => UntouchedStays(s, Next(s, step), id);
    case WorkerWrite(_, _, _, _) => WorkerWriteCoherent(s, step, id);
    case Bulk(o, ids, enabled, at) => BulkCoherent(s, o, ids, enabled, at, id);
    case Exec(o, oc) => ExecCoherent(s, o, oc, id);
    case Quit(o) => UntouchedStays(s, Next(s, step), id);
    case _ => ApiWriteCoherent(s, step, id);
  }

  lemma WorkerWriteCoherent(s: State, step: Step, id: JobId)
    requires Coherent(s, id) && Enabled(s, step) && step.WorkerWrite? && s.rows[step.id].id == step.id
    ensures Coherent(Next(s, step), id)
  {
  }

  lemma NextKeepsOwnCommands(s: State, step: Step)
    requires forall o :: o in s.ops ==> OwnCommands(s.ops[o])
    ensures forall o :: o in Next(s, step).ops ==> OwnCommands(Next(s, step).ops[o])
  {
  }

  lemma NextKeepsCoherence(s: State, step: Step)
    requires Inv(s)
    ensures CoherenceInv(Next(s, step))
  {
    NextKeepsOwnCommands(s, step);
    if Enabled(s, step) {
      forall id | id !in Next(s, step).racy
        ensures Coherent(Next(s, step), id)
      {
        StepCoherent(s, step, id);
      }
    }
  }

  lemma {:induction false} RunKeepsInv(now: int, steps: seq<Step>)
    ensures Inv(Run(Init(now), steps))
  {
    if steps != [] {
      RunKeepsInv(now, steps[..|steps| - 1]);
      NextKeepsVersions(Run(Init(now), steps[..|steps| - 1]), steps[|steps| - 1]);
      NextKeepsCoherence(Run(Init(now), steps[..|steps| - 1]), steps[|steps| - 1]);
    }
  }

  /** Whatever happened before: if the latest operation on a job began alone, no other began before it ended, and
      it did not break off, then once it has ended the job's cache entry is absent or equals the row on every
      column that only the API writes. */
  lemma CoherentAtRest(now: int, steps: seq<Step>, id: JobId)
    requires var s := Run(Init(now), steps); id !in s.racy && !Busy(s, id)
    ensures var s := Run(Init(now), steps); Agrees(s, id, Entry(s, id))
  {
    RunKeepsInv(now, steps);
  }

  // ---------- what serialisation is needed for ----------

  function Exec2(s: State, o: nat): State { Next(Next(s, Exec(o, Done)), Exec(o, Done)) }

  /** Two overlapping updates can leave the older configuration in the cache. */
  lemma RacingUpdatesGoStale(s: State, a: nat, b: nat, older: Job, newer: Job)
    requires a !in s.ops && b !in s.ops && a != b && older.id == newer.id && older.config != newer.config
    requires Enabled(s, Update(a, older)) && newer.consecutiveDeadCount == older.consecutiveDeadCount
    ensures var s' := Exec2(Exec2(Next(Next(s, Update(a, older)), Update(b, newer)), b), a); var id := older.id;
      !(a in s'.ops || b in s'.ops) && id in s'.rows && id in s'.cache
      && s'.cache[id].value.config != s'.rows[id].config
  {
    var s1 := Next(Next(s, Update(a, older)), Update(b, newer));
    assert s1.ops[a].todo == [Del(older.id), Set(older)] && s1.ops[b].todo == [Del(older.id), Set(newer)];
    FinishUpdate(s1, b, newer);
    var s2 := Exec2(s1, b);
    assert s2.ops[a] == s1.ops[a];
    FinishUpdate(s2, a, older);
  }

  lemma FinishUpdate(s: State, o: nat, job: Job)
    requires o in s.ops && s.ops[o].todo == [Del(job.id), Set(job)]
    ensures Exec2(s, o).ops == s.ops - {o} && Exec2(s, o).rows == s.rows
    ensures job.id in Exec2(s, o).cache && Exec2(s, o).cache[job.id].value == job
  {
  }

  /** An update that overlaps a delete can leave the deleted job in the cache, enabled and all. */
  lemma RacingDeleteLeavesEntry(s: State, a: nat, b: nat, job: Job)
    requires a !in s.ops && b !in s.ops && a != b && Enabled(s, Update(a, job))
    ensures var s1 := Next(Next(s, Update(a, job)), Delete(b, job.id));
      var s' := Exec2(Next(s1, Exec(b, Done)), a);
      !(a in s'.ops || b in s'.ops) && job.id !in s'.rows && job.id in s'.cache && s'.cache[job.id].value == job
  {
  }

  /** The breaker's write does not touch the cache: workers go on seeing the job enabled exactly as long as an
      unexpired entry says so. */
  lemma BreakerUnseen(s: State, id: JobId, count: nat, at: int, ms: nat)
    requires id in s.rows && s.rows[id].id == id
    ensures var s' := Next(Next(s, WorkerWrite(id, false, count, at)), Advance(ms));
      SeenJob(s', id).Some?
      && (SeenJob(s', id).value.enabled <==> Live(s.cache, s.now + ms, id) && s.cache[id].value.enabled)
  {
  }
}
