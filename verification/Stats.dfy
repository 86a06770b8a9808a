/** getJobStats in src/services/execution.service.ts. */
module Stats {
  import opened Domain
  import opened Worker

  datatype JobStats = JobStats(
    totalRuns: nat,
    successCount: nat,
    failedCount: nat,
    deadCount: nat,
    successRate: real,
    avgDurationMs: Option<int>)

  /** The where clause of the query. */
  predicate Selected(row: Execution, jobId: JobId, since: int) {
    row.jobId == jobId && row.triggeredAt >= since && Over(row.status) && row.finishedAt.Some?
  }

  function Selects(jobId: JobId, since: int): Execution -> bool { (r: Execution) => Selected(r, jobId, since) }

  function HasStatus(status: Status): Execution -> bool { (r: Execution) => r.status == status }

  function Both<T>(f: T -> bool, g: T -> bool): T -> bool { x => f(x) && g(x) }

  /** rows.filter */
  function Filter<T>(rows: seq<T>, keep: T -> bool): seq<T> {
    if rows == [] then [] else (if keep(rows[0]) then [rows[0]] else []) + Filter(rows[1..], keep)
  }

  function Durations(rows: seq<Execution>): seq<nat> {
    if rows == [] then []
    else (if rows[0].durationMs.Some? then [rows[0].durationMs.value] else []) + Durations(rows[1..])
  }

  function Sum(s: seq<nat>): nat { if s == [] then 0 else s[0] + Sum(s[1..]) }

  /** Math.round: halves go up. */
  function Round(sum: nat, n: nat): nat
    requires n > 0
  {
    (2 * sum + n) / (2 * n)
  }

  function Compute(rows: seq<Execution>): JobStats {
    var success := |Filter(rows, HasStatus(SUCCESS))|;
    var durations := Durations(rows);
    JobStats(|rows|, success,
             |Filter(rows, HasStatus(FAILED))|,
             |Filter(rows, HasStatus(DEAD))|,
             if |rows| == 0 then 0.0 else success as real / |rows| as real,
             if |durations| > 0 then Some(Round(Sum(durations), |durations|)) else None)
  }

  /** The rows of the table, in the order the query returns them. */
  function Rows(execs: map<ExecId, Execution>, order: seq<ExecId>): seq<Execution>
    requires forall e :: e in order ==> e in execs
  {
    seq(|order|, i requires 0 <= i < |order| => execs[order[i]])
  }

  /** `order` lists every row once. */
  ghost predicate Enumerates(order: seq<ExecId>, execs: map<ExecId, Execution>) {
    Distinct(order) && forall e :: e in order <==> e in execs
  }

  function GetJobStats(s: State, order: seq<ExecId>, jobId: JobId, since: int): Option<JobStats>
    requires forall e :: e in order ==> e in s.db.execs
  {
    if jobId !in s.db.jobs then None
    else Some(Compute(Filter(Rows(s.db.execs, order), Selects(jobId, since))))
  }

  lemma {:induction false} CountsSum(rows: seq<Execution>)
    requires forall i :: 0 <= i < |rows| ==> Over(rows[i].status)
    ensures var c := Compute(rows); c.successCount + c.failedCount + c.deadCount == c.totalRuns
  {
    if rows != [] {
      CountsSum(rows[1..]);
    }
  }

  lemma {:induction false} AllDurations(rows: seq<Execution>)
    requires forall i :: 0 <= i < |rows| ==> rows[i].durationMs.Some?
    ensures |Durations(rows)| == |rows|
    ensures forall i :: 0 <= i < |rows| ==> Durations(rows)[i] == rows[i].durationMs.value
  {
    if rows != [] {
      AllDurations(rows[1..]);
      assert forall i :: 0 < i < |rows| ==> rows[i] == rows[1..][i - 1];
    }
  }

  lemma {:induction false} SumBounds(s: seq<nat>, lo: nat, hi: nat)
    requires forall i :: 0 <= i < |s| ==> lo <= s[i] <= hi
    ensures lo * |s| <= Sum(s) <= hi * |s|
  {
    if s != [] {
      SumBounds(s[1..], lo, hi);
      assert lo * |s| == lo * |s[1..]| + lo && hi * |s| == hi * |s[1..]| + hi;
    }
  }

  /** Rounding the mean gives the nearest whole number, which stays within any whole-number bounds on the values. */
  lemma RoundBounds(sum: nat, n: nat, lo: nat, hi: nat)
    requires n > 0 && lo * n <= sum <= hi * n
    ensures var q := Round(sum, n); 2 * n * q <= 2 * sum + n < 2 * n * q + 2 * n && lo <= q <= hi
  {
    var a, d := 2 * sum + n, 2 * n;
    var q := a / d;
    assert a == d * q + a % d;
    Doubled(lo, n);
    Doubled(hi, n);
    Nearest(a, d, q, a % d, lo, hi);
  }

  lemma Doubled(k: nat, n: nat)
    ensures 2 * n * k == 2 * (k * n)
  {
  }

  lemma Nearest(a: nat, d: nat, q: nat, rest: nat, lo: nat, hi: nat)
    requires a == d * q + rest && rest < d && d * lo <= a < d * hi + d
    ensures lo <= q <= hi
  {
    assert d * (q + 1) == d * q + d && d * (hi + 1) == d * hi + d;
    if q < lo {
      MulMono(d, q + 1, lo);
    }
    if hi < q {
      MulMono(d, hi + 1, q);
    }
  }

  lemma {:induction false} FilterKeeps<T>(rows: seq<T>, keep: T -> bool)
    ensures forall r :: r in Filter(rows, keep) <==> r in rows && keep(r)
  {
    if rows != [] {
      FilterKeeps(rows[1..], keep);
    }
  }

  lemma {:induction false} FilterFilter<T>(rows: seq<T>, f: T -> bool, g: T -> bool)
    ensures Filter(Filter(rows, f), g) == Filter(rows, Both(f, g))
  {
    if rows != [] {
      FilterFilter(rows[1..], f, g);
      var head, tail := if f(rows[0]) then [rows[0]] else [], Filter(rows[1..], f);
      if f(rows[0]) {
        assert (head + tail)[1..] == tail;
      } else {
        assert head + tail == tail;
      }
    }
  }

  ghost function Kept(execs: map<ExecId, Execution>, order: seq<ExecId>, keep: Execution -> bool): set<ExecId>
    requires forall e :: e in order ==> e in execs
  {
    set e | e in order && keep(execs[e])
  }

  /** Filtering counts each row once. */
  lemma {:induction false} FilterCounts(execs: map<ExecId, Execution>, order: seq<ExecId>, keep: Execution -> bool)
    requires Distinct(order) && forall e :: e in order ==> e in execs
    ensures |Filter(Rows(execs, order), keep)| == |Kept(execs, order, keep)|
  {
    if order == [] {
      assert Kept(execs, order, keep) == {};
    } else {
      var e, tail := order[0], order[1..];
      FilterCounts(execs, tail, keep);
      assert Rows(execs, order)[0] == execs[e] && Rows(execs, order)[1..] == Rows(execs, tail);
      assert e !in Kept(execs, tail, keep);
      assert Kept(execs, order, keep) == Kept(execs, tail, keep) + if keep(execs[e]) then {e} else {};
    }
  }

  /** The executions of a job, triggered since then, that ended an attempt with this status. */
  ghost function Ended(s: State, jobId: JobId, since: int, status: Status): set<ExecId> {
    set e | e in s.db.execs && s.db.execs[e].jobId == jobId && s.db.execs[e].triggeredAt >= since
            && s.db.execs[e].status == status
  }

  lemma StatusCount(s: State, order: seq<ExecId>, jobId: JobId, since: int, status: Status)
    requires Enumerates(order, s.db.execs) && (forall e :: e in s.db.execs ==> RecordOk(s.db.execs[e])) && Over(status)
    ensures |Filter(Filter(Rows(s.db.execs, order), Selects(jobId, since)), HasStatus(status))|
            == |Ended(s, jobId, since, status)|
  {
    var h := Both(Selects(jobId, since), HasStatus(status));
    FilterFilter(Rows(s.db.execs, order), Selects(jobId, since), HasStatus(status));
    FilterCounts(s.db.execs, order, h);
    assert Ended(s, jobId, since, status) == Kept(s.db.execs, order, h);
  }

  /** In every reachable state each count is the number of executions with that status: in particular the
      query's finishedAt condition drops none of them. */
  lemma CountsAreExact(env: Env, steps: seq<Step>, order: seq<ExecId>, jobId: JobId, since: int)
    requires Enumerates(order, Run(env, INIT, steps).db.execs)
    ensures var s := Run(env, INIT, steps); GetJobStats(s, order, jobId, since).Some? <==> jobId in s.db.jobs
    ensures var s := Run(env, INIT, steps); jobId in s.db.jobs ==>
      var c := GetJobStats(s, order, jobId, since).value;
      && c.successCount == |Ended(s, jobId, since, SUCCESS)|
      && c.failedCount == |Ended(s, jobId, since, FAILED)|
      && c.deadCount == |Ended(s, jobId, since, DEAD)|
  {
    RecordsAlwaysFit(env, steps);
    StatusCount(Run(env, INIT, steps), order, jobId, since, SUCCESS);
    StatusCount(Run(env, INIT, steps), order, jobId, since, FAILED);
    StatusCount(Run(env, INIT, steps), order, jobId, since, DEAD);
  }

  ghost predicate Consistent(c: JobStats, lo: nat, hi: nat) {
    && c.successCount + c.failedCount + c.deadCount == c.totalRuns
    && (c.totalRuns == 0 ==> c.successRate == 0.0)
    && 0.0 <= c.successRate <= 1.0 && c.successRate * c.totalRuns as real == c.successCount as real
    && (c.avgDurationMs.None? <==> c.totalRuns == 0)
    && (c.avgDurationMs.Some? ==> lo <= c.avgDurationMs.value <= hi)
  }

  lemma RateIsShare(part: nat, total: nat)
    requires part <= total && total > 0
    ensures var rate := part as real / total as real; 0.0 <= rate <= 1.0 && rate * total as real == part as real
  {
  }

  lemma AverageBetween(rows: seq<Execution>, lo: nat, hi: nat)
    requires rows != []
    requires forall i :: 0 <= i < |rows| ==> rows[i].durationMs.Some? && lo <= rows[i].durationMs.value <= hi
    ensures var a := Compute(rows).avgDurationMs; a.Some? && lo <= a.value <= hi
  {
    AllDurations(rows);
    SumBounds(Durations(rows), lo, hi);
    RoundBounds(Sum(Durations(rows)), |rows|, lo, hi);
  }

  lemma RowsConsistent(rows: seq<Execution>, lo: nat, hi: nat)
    requires forall i :: 0 <= i < |rows| ==>
      Over(rows[i].status) && rows[i].durationMs.Some? && lo <= rows[i].durationMs.value <= hi
    ensures Consistent(Compute(rows), lo, hi)
  {
    CountsSum(rows);
    if rows != [] {
      AverageBetween(rows, lo, hi);
      RateIsShare(Compute(rows).successCount, |rows|);
    }
  }

  /** In every reachable state the three counts add up to the runs, the rate is their share, and the average
      is missing exactly when there are no runs and otherwise lies between the least and the greatest duration. */
  lemma StatsConsistent(env: Env, steps: seq<Step>, order: seq<ExecId>, jobId: JobId, since: int, lo: nat, hi: nat)
    requires var s := Run(env, INIT, steps);
      && Enumerates(order, s.db.execs) && jobId in s.db.jobs
      && forall e :: e in s.db.execs && Selected(s.db.execs[e], jobId, since) && s.db.execs[e].durationMs.Some?
                     ==> lo <= s.db.execs[e].durationMs.value <= hi
    ensures var s := Run(env, INIT, steps); Consistent(GetJobStats(s, order, jobId, since).value, lo, hi)
  {
    RecordsAlwaysFit(env, steps);
    var keep := Selects(jobId, since);
    var all := Rows(Run(env, INIT, steps).db.execs, order);
    FilterKeeps(all, keep);
    var rows := Filter(all, keep);
    assert forall i :: 0 <= i < |rows| ==> rows[i] in rows;
    RowsConsistent(rows, lo, hi);
  }

  // ---------- the average ----------

  /** The row ended an attempt of the job, triggered since then. */
  predicate EndedRow(row: Execution, jobId: JobId, since: int) {
    && row.jobId == jobId && row.triggeredAt >= since
    && (row.status == SUCCESS || row.status == FAILED || row.status == DEAD)
  }

  /** The durations of all those rows of the table, added up row by row. */
  ghost function TotalMs(execs: map<ExecId, Execution>, order: seq<ExecId>, jobId: JobId, since: int): nat
    requires forall e :: e in order ==> e in execs
  {
    if order == [] then 0 else
      var row := execs[order[0]];
      (if EndedRow(row, jobId, since) && row.durationMs.Some? then row.durationMs.value else 0)
      + TotalMs(execs, order[1..], jobId, since)
  }

  lemma DurationsCons(row: Execution, rest: seq<Execution>)
    ensures Sum(Durations([row] + rest))
            == (if row.durationMs.Some? then row.durationMs.value else 0) + Sum(Durations(rest))
  {
    assert ([row] + rest)[1..] == rest;
    if row.durationMs.Some? {
      assert ([row.durationMs.value] + Durations(rest))[1..] == Durations(rest);
    } else {
      assert [] + Durations(rest) == Durations(rest);
    }
  }

  lemma {:induction false} TotalIsSum(execs: map<ExecId, Execution>, order: seq<ExecId>, jobId: JobId, since: int)
    requires forall e :: e in order ==> e in execs
    requires forall e :: e in execs ==> RecordOk(execs[e])
    ensures Sum(Durations(Filter(Rows(execs, order), Selects(jobId, since)))) == TotalMs(execs, order, jobId, since)
  {
    if order != [] {
      var row, rows := execs[order[0]], Rows(execs, order);
      TotalIsSum(execs, order[1..], jobId, since);
      assert rows[0] == row && rows[1..] == Rows(execs, order[1..]);
      var rest := Filter(rows[1..], Selects(jobId, since));
      if Selected(row, jobId, since) {
        DurationsCons(row, rest);
      } else {
        assert [] + rest == rest;
      }
    }
  }

  /** `avg` is the whole number nearest to total / n, halves rounded up. */
  predicate IsRoundedMean(avg: int, total: nat, n: nat) { 2 * n * avg <= 2 * total + n < 2 * n * avg + 2 * n }

  /** In every reachable state the average is the rounded mean of the durations of all the runs counted. */
  lemma AverageIsExact(env: Env, steps: seq<Step>, order: seq<ExecId>, jobId: JobId, since: int)
    requires var s := Run(env, INIT, steps); Enumerates(order, s.db.execs) && jobId in s.db.jobs
    ensures var s := Run(env, INIT, steps); var c := GetJobStats(s, order, jobId, since).value;
      c.totalRuns > 0 ==>
        c.avgDurationMs.Some?
        && IsRoundedMean(c.avgDurationMs.value, TotalMs(s.db.execs, order, jobId, since), c.totalRuns)
  {
    RecordsAlwaysFit(env, steps);
    var execs := Run(env, INIT, steps).db.execs;
    TotalIsSum(execs, order, jobId, since);
    var all, keep := Rows(execs, order), Selects(jobId, since);
    FilterKeeps(all, keep);
    MeanIsRounded(Filter(all, keep));
  }

  lemma RoundIsNearest(sum: nat, n: nat)
    requires n > 0
    ensures IsRoundedMean(Round(sum, n), sum, n)
  {
    var a, d := 2 * sum + n, 2 * n;
    assert a == d * (a / d) + a % d;
  }

  lemma MeanIsRounded(rows: seq<Execution>)
    requires forall row :: row in rows ==> row.durationMs.Some?
    ensures rows != [] ==>
      Compute(rows).avgDurationMs.Some?
      && IsRoundedMean(Compute(rows).avgDurationMs.value, Sum(Durations(rows)), |rows|)
  {
    if rows != [] {
      AllDurations(rows);
      RoundIsNearest(Sum(Durations(rows)), |rows|);
    }
  }
}
