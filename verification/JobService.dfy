/** The operations of src/services/job.service.ts, against tables and a cache that others change at every await. */
module JobService {
  import opened Domain
  import opened Redis
  import opened JobCache

  lemma RunAppend(s: State, steps: seq<Step>, step: Step)
    ensures Run(s, steps + [step]) == Next(Run(s, steps), step)
  {
  }

  /** Steps that are not operation `o`'s. */
  predicate Foreign(step: Step, o: nat) {
    step.Advance? || step.WorkerWrite? || step.o != o
  }

  lemma ForeignKeepsOp(s: State, step: Step, o: nat)
    requires Foreign(step, o) && o in s.ops
    ensures o in Next(s, step).ops && Next(s, step).ops[o] == s.ops[o]
  {
  }

  /** The outcomes of the cache commands that operation `o` sent, true for success. */
  function ExecsOf(steps: seq<Step>, o: nat): seq<bool> {
    if steps == [] then [] else
      var last := steps[|steps| - 1];
      ExecsOf(steps[..|steps| - 1], o) + if last.Exec? && last.o == o then [last.oc == Done] else []
  }

  lemma {:induction false} ExecsConcat(a: seq<Step>, b: seq<Step>, o: nat)
    ensures ExecsOf(a + b, o) == ExecsOf(a, o) + ExecsOf(b, o)
  {
    if b == [] {
      assert a + b == a;
    } else {
      ExecsConcat(a, b[..|b| - 1], o);
      assert (a + b)[..|a + b| - 1] == a + b[..|b| - 1];
    }
  }

  /** From `a` over `b` to `c`. */
  lemma ExecsSplit(a: seq<Step>, b: seq<Step>, c: seq<Step>, o: nat)
    requires a <= b <= c
    ensures ExecsOf(c[|a|..], o) == ExecsOf(b[|a|..], o) + ExecsOf(c[|b|..], o)
  {
    assert c[|a|..] == b[|a|..] + c[|b|..];
    ExecsConcat(b[|a|..], c[|b|..], o);
  }

  /** The job table after the first `k` steps. */
  function RowsAfter(start: int, steps: seq<Step>, k: nat): map<JobId, Job>
    requires k <= |steps|
  {
    Run(Init(start), steps[..k]).rows
  }

  lemma Listed(ids: set<JobId>) returns (named: seq<JobId>)
    ensures |named| == |ids| && (forall id :: id in named <==> id in ids) && Distinct(named)
  {
    named := [];
    if ids != {} {
      var id :| id in ids;
      var rest := Listed(ids - {id});
      named := rest + [id];
    }
  }

  /** These are the named jobs that exist, each once. */
  ghost predicate Matches(named: seq<JobId>, ids: seq<JobId>, rows: map<JobId, Job>) {
    && Distinct(named)
    && (forall id :: id in named ==> id in ids && id in rows)
    && (forall id :: id in ids && id in rows ==> id in named)
  }

  class Service {
    const start: int
    var now: int
    var rows: map<JobId, Job>
    var cache: map<JobId, Slot<Job>>
    var st: State               // the protocol state the fields above are part of
    ghost var steps: seq<Step>  // how it was reached

    ghost predicate Valid()
      reads this
    {
      st == Run(Init(start), steps) && now == st.now && rows == st.rows && cache == st.cache
    }

    constructor (start: int)
      ensures Valid() && this.start == start && steps == []
    {
      this.start := start;
      now, rows, cache, st, steps := start, map[], map[], Init(start), [];
    }

    method Commit(step: Step)
      requires st == Run(Init(start), steps)
      modifies `st, `steps
      ensures steps == old(steps) + [step] && st == Next(old(st), step) && st == Run(Init(start), steps)
    {
      RunAppend(Init(start), steps, step);
      st, steps := Next(st, step), steps + [step];
    }

    method Await(o: nat)
      requires Valid() && o in st.ops
      modifies this
      ensures Valid() && old(steps) <= steps && o in st.ops && st.ops[o] == old(st.ops[o])
      ensures ExecsOf(steps[|old(steps)|..], o) == []
    {
      var n: nat := *;
      while n > 0
        invariant Valid() && old(steps) <= steps && o in st.ops && st.ops[o] == old(st.ops[o])
        invariant ExecsOf(steps[|old(steps)|..], o) == []
      {
        var step: Step := *;
        if Foreign(step, o) {
          ForeignKeepsOp(st, step, o);
          assert (steps + [step])[|old(steps)|..] == steps[|old(steps)|..] + [step];
          Commit(step);
          now, rows, cache := st.now, st.rows, st.cache;
        }
        n := n - 1;
      }
    }

    /** How a cache command ends; in calm runs none fails. */
    method Try(calm: bool) returns (oc: Outcome)
      ensures calm ==> oc == Done
    {
      oc := *;
      if calm { oc := Done; }
    }

    /** cacheJobConfig */
    method CacheJobConfig(o: nat, job: Job, calm: bool) returns (threw: bool)
      requires Valid() && o in st.ops && st.ops[o].todo == [Set(job)]
      modifies this
      ensures Valid() && old(steps) <= steps && st.ops == old(st.ops) - {o}
      ensures ExecsOf(steps[|old(steps)|..], o) == [!threw]
      ensures cache == old(cache)[job.id := Slot(job, now + 3600 * 1000)] || (threw && cache == old(cache))
      ensures now == old(now) && rows == old(rows) && (calm ==> !threw)
    {
      var oc := Try(calm);
      threw := oc != Done;
      if oc != FailedBefore {
        cache := cache[job.id := Slot(job, now + 3600 * 1000)];
      }
      Commit(Exec(o, oc));
      assert steps[|old(steps)|..] == [Exec(o, oc)];
    }

    /** invalidateJobConfig; a failure ends the operation, unless the commands were sent together. */
    method InvalidateJobConfig(o: nat, id: JobId, calm: bool) returns (threw: bool)
      requires Valid() && o in st.ops && st.ops[o].todo != [] && st.ops[o].todo[0] == Del(id)
      modifies this
      ensures Valid() && old(steps) < steps && ExecsOf(steps[|old(steps)|..], o) == [!threw]
      ensures var op := old(st.ops[o]);
        st.ops == if (threw && !op.together) || |op.todo| == 1 then old(st.ops) - {o}
                  else old(st.ops)[o := op.(todo := op.todo[1..])]
      ensures cache == old(cache) - {id} || (threw && cache == old(cache))
      ensures rows == old(rows) && (calm ==> !threw)
    {
      var oc := Try(calm);
      threw := oc != Done;
      if oc != FailedBefore {
        cache := cache - {id};
      }
      Commit(Exec(o, oc));
      assert steps[|old(steps)|..] == [Exec(o, oc)];
    }

    /** createJob, its input already validated. */
    method CreateJob(o: nat, job: Job, calm: bool) returns (threw: bool)
      requires Valid() && o !in st.ops && job.id !in st.versions
      modifies this
      ensures Valid() && old(steps) < steps && o !in st.ops && (calm ==> !threw)
      ensures steps[|old(steps)|] == Create(o, job)
      ensures RowsAfter(start, steps, |old(steps)| + 1) == old(rows)[job.id := job]
      ensures !threw ==> job.id in cache && cache[job.id].value == job
    {
      rows := rows[job.id := job];
      Commit(Create(o, job));
      ghost var written := steps;
      Await(o);
      threw := CacheJobConfig(o, job, calm);
      assert steps[..|written|] == written;
    }

    /** The two cache commands of an update, the second only after the first. */
    method Recache(o: nat, row: Job, calm: bool) returns (threw: bool)
      requires Valid() && o in st.ops && st.ops[o] == ApiOp({row.id}, [Del(row.id), Set(row)], false)
      modifies this
      ensures Valid() && old(steps) <= steps && o !in st.ops && (calm ==> !threw)
      ensures !threw ==> row.id in cache && cache[row.id].value == row
      ensures !threw ==> ExecsOf(steps[|old(steps)|..], o) == [true, true]
    {
      ghost var before := steps;
      Await(o);
      ghost var awaited := steps;
      threw := InvalidateJobConfig(o, row.id, calm);
      ExecsSplit(before, awaited, steps, o);
      if threw { return; }
      ghost var invalidated := steps;
      Await(o);
      ghost var again := steps;
      threw := CacheJobConfig(o, row, calm);
      ExecsSplit(invalidated, again, steps, o);
      ExecsSplit(before, invalidated, steps, o);
    }

    /** updateJob: the row after the update, or None if there is no such job or a call failed. */
    method UpdateJob(o: nat, id: JobId, config: Config, enabled: bool, at: int, calm: bool) returns (job: Option<Job>)
      requires Valid() && o !in st.ops
      modifies this
      ensures Valid() && old(steps) <= steps && o !in st.ops
      ensures id !in old(rows) ==> job == None && steps == old(steps)
      ensures id in old(rows) ==> old(steps) < steps && (calm ==> job.Some?)
      ensures id in old(rows) ==>
        steps[|old(steps)|] == Update(o, Job(id, config, enabled, old(rows)[id].consecutiveDeadCount, at))
      ensures id in old(rows) ==>
        RowsAfter(start, steps, |old(steps)| + 1)
        == old(rows)[id := Job(id, config, enabled, old(rows)[id].consecutiveDeadCount, at)]
      ensures job.Some? ==>
        old(id in rows) && job.value == Job(id, config, enabled, old(rows)[id].consecutiveDeadCount, at)
      ensures job.Some? ==> id in cache && cache[id].value == job.value
      ensures job.Some? ==> ExecsOf(steps[|old(steps)| + 1..], o) == [true, true]
    {
      if id !in rows { return None; }
      var row := Job(id, config, enabled, rows[id].consecutiveDeadCount, at);
      rows := rows[id := row];
      Commit(Update(o, row));
      ghost var written := steps;
      var threw := Recache(o, row, calm);
      assert steps[..|written|] == written;
      job := if threw then None else Some(row);
    }

    /** deleteJob; a failing cache command makes it report false although the row is gone. */
    method DeleteJob(o: nat, id: JobId, calm: bool) returns (ok: bool)
      requires Valid() && o !in st.ops
      modifies this
      ensures Valid() && old(steps) <= steps && o !in st.ops
      ensures ok ==> old(id in rows) && id !in cache
      ensures id !in old(rows) ==> !ok && steps == old(steps)
      ensures id in old(rows) ==> old(steps) < steps && steps[|old(steps)|] == Delete(o, id) && (calm ==> ok)
      ensures id in old(rows) ==> RowsAfter(start, steps, |old(steps)| + 1) == old(rows) - {id}
    {
      if id !in rows { return false; }
      rows := rows - {id};
      Commit(Delete(o, id));
      ghost var written := steps;
      Await(o);
      var threw := InvalidateJobConfig(o, id, calm);
      assert steps[..|written|] == written;
      ok := !threw;
    }

    /** updateMany */
    method UpdateMany(o: nat, ids: seq<JobId>, enabled: bool, at: int) returns (count: nat)
      requires Valid() && o !in st.ops
      modifies this
      ensures Valid() && steps == old(steps) + [Bulk(o, ids, enabled, at)] && cache == old(cache) && now == old(now)
      ensures exists named :: Matches(named, ids, old(rows)) && count == |named|
      ensures rows.Keys == old(rows).Keys
      ensures forall id :: id in rows && id !in ids ==> rows[id] == old(rows)[id]
      ensures forall id :: id in rows && id in ids ==>
        rows[id].enabled == enabled && rows[id] == old(rows)[id].(enabled := enabled, updatedAt := at)
      ensures if ids == [] then st.ops == old(st.ops)
              else o in st.ops && st.ops[o].todo == Dels(ids) && st.ops[o].together
    {
      var found := set id | id in ids && id in rows;
      count := |found|;
      rows := BulkRows(rows, ids, enabled, at);
      ghost var named := Listed(found);
      assert Matches(named, ids, old(rows));
      Commit(Bulk(o, ids, enabled, at));
    }

    /** bulkSetEnabled: the write, then one invalidation per id; if any fails it throws, but all are sent. */
    method BulkSetEnabled(o: nat, ids: seq<JobId>, enabled: bool, at: int, calm: bool) returns (count: nat, threw: bool)
      requires Valid() && o !in st.ops
      modifies this
      ensures Valid() && old(steps) < steps && o !in st.ops && steps[|old(steps)|] == Bulk(o, ids, enabled, at)
      ensures exists named :: Matches(named, ids, old(rows)) && count == |named|
      ensures var sent := ExecsOf(steps[|old(steps)| + 1..], o); |sent| == |ids| && (threw <==> false in sent)
      ensures calm ==> !threw
    {
      count := UpdateMany(o, ids, enabled, at);
      threw := false;
      ghost var written := steps;
      var i := 0;
      while i < |ids|
        invariant 0 <= i <= |ids| && Valid() && written <= steps && (calm ==> !threw)
        invariant i < |ids| ==> o in st.ops && st.ops[o].todo == Dels(ids)[i..] && st.ops[o].together
        invariant i == |ids| ==> o !in st.ops
        invariant var sent := ExecsOf(steps[|written|..], o); |sent| == i && (threw <==> false in sent)
      {
        ghost var before := steps;
        Await(o);
        ghost var awaited := steps;
        var failed := InvalidateJobConfig(o, ids[i], calm);
        ExecsSplit(written, before, awaited, o);
        ExecsSplit(written, awaited, steps, o);
        threw := threw || failed;
        i := i + 1;
        assert Dels(ids)[i - 1..][1..] == Dels(ids)[i..];
      }
      assert steps[|old(steps)|] == written[|old(steps)|];
    }

    /** getCachedJob, else findUnique, as a worker reads it. */
    method SeeJob(id: JobId) returns (job: Option<Job>)
      requires Valid()
      ensures job == SeenJob(st, id) && (job.Some? ==> Version(st, id, job.value))
    {
      if id in cache && now < cache[id].expiry {
        job := Some(cache[id].value);
      } else if id in rows {
        job := Some(rows[id]);
      } else {
        job := None;
      }
      SeenJobIsVersion(start, steps, id);
    }
  }
}
