/** The records that CronHive's processes share: jobs, executions, queue entries and settings. */
module Domain {

  datatype Option<+T> = None | Some(value: T)

  /** Job ids are cuid strings. */
  type JobId = string
  /** Execution ids, lock tokens and process ids are numbered in order of creation. */
  type ExecId = nat
  type Token = nat
  type ProcId = nat

  /** The slot a lock or a queue entry belongs to: a cron fire time, or an ad-hoc API trigger. */
  datatype FireSlot = At(ms: int) | Manual

  /**
    The settings the code reads from its environment. `prev` stands for the cron library:
    the last fire time of (expression, time zone) before an instant, None where the library throws.
   */
  datatype Env = Env(
    scanMs: nat,
    lockBufferMs: nat,
    defaultCallbackTimeoutMs: nat,
    breakerThreshold: nat,
    leaderElection: bool,
    prev: (string, string, int) -> Option<int>)

  /** The columns of a job that only the management API writes. */
  datatype Config = Config(
    name: string,
    cronExpression: string,
    callbackUrl: string,
    timezone: string,
    maxRetries: nat,
    backoffMs: nat,
    callbackTimeoutMs: nat,
    paused: bool)

  /** A job row. The last three columns are also written by workers. */
  datatype Job = Job(
    id: JobId,
    config: Config,
    enabled: bool,
    consecutiveDeadCount: nat,
    updatedAt: int)

  datatype Status = PENDING | RUNNING | SUCCESS | FAILED | DEAD

  datatype Execution = Execution(
    jobId: JobId,
    triggeredAt: int,
    scheduledFor: Option<int>,
    startedAt: Option<int>,
    finishedAt: Option<int>,
    status: Status,
    attemptNumber: nat,
    responseCode: Option<int>,
    durationMs: Option<nat>,
    errorMessage: Option<string>,
    triggerSource: string)

  /** How a remote call ends: normally, or by throwing before or after it took effect. */
  datatype Outcome = Done | FailedBefore | FailedAfter

  /** No element occurs twice. */
  ghost predicate Distinct<T>(s: seq<T>) {
    forall i, j :: 0 <= i < j < |s| ==> s[i] != s[j]
  }

  lemma MulMono(k: nat, a: nat, b: nat)
    requires a <= b
    ensures k * a <= k * b
  {
  }
}
