/** src/lib/queues.ts and src/lib/lock-ttl.ts: the retry policy, and the lock TTL that must cover it. */
module LockTtl {
  import opened Domain

  function Pow2(k: nat): (p: nat)
    ensures p >= 1
  {
    if k == 0 then 1 else 2 * Pow2(k - 1)
  }

  /** BullMQ options: total attempts, and the seed of the exponential backoff. */
  datatype JobsOptions = JobsOptions(attempts: nat, delay: nat)

  function ExecutionJobOptions(config: Config): JobsOptions {
    JobsOptions(config.maxRetries + 1, config.backoffMs)
  }

  /** BullMQ's exponential backoff: the wait after the k-th failed attempt. */
  function RetryDelay(options: JobsOptions, k: nat): nat
    requires k > 0
  {
    options.delay * Pow2(k - 1)
  }

  /** Wall time of the attempts lasting `durations`, with the backoff waits between them. */
  function RunMs(options: JobsOptions, durations: seq<nat>): nat {
    var n := |durations|;
    if n == 0 then 0
    else if n == 1 then durations[0]
    else RunMs(options, durations[..n - 1]) + RetryDelay(options, n - 1) + durations[n - 1]
  }

  function TimeoutMs(env: Env, config: Config): nat {
    if config.callbackTimeoutMs == 0 then env.defaultCallbackTimeoutMs else config.callbackTimeoutMs
  }

  /** Longest possible retry run plus the buffer. */
  function BudgetMs(env: Env, config: Config): nat {
    TimeoutMs(env, config) * (config.maxRetries + 1) + config.backoffMs * (Pow2(config.maxRetries) - 1)
    + env.lockBufferMs
  }

  function CeilSeconds(ms: nat): nat { (ms + 999) / 1000 }

  function TtlSeconds(env: Env, config: Config): nat {
    var s := CeilSeconds(BudgetMs(env, config));
    if s < 1 then 1 else s
  }

  /** The value of `backoffSum` after `i` rounds of the source's loop. */
  function PartialBackoff(backoffMs: nat, i: nat): nat {
    if i == 0 then 0 else PartialBackoff(backoffMs, i - 1) + backoffMs * Pow2(i - 1)
  }

  lemma {:induction false} PartialBackoffClosed(backoffMs: nat, i: nat)
    ensures PartialBackoff(backoffMs, i) == backoffMs * (Pow2(i) - 1)
  {
    if i > 0 {
      PartialBackoffClosed(backoffMs, i - 1);
      assert backoffMs * (Pow2(i) - 1) == backoffMs * (Pow2(i - 1) - 1) + backoffMs * Pow2(i - 1);
    }
  }

  method ComputeJobLockTtlSeconds(env: Env, config: Config) returns (ttl: nat)
    ensures ttl == TtlSeconds(env, config) && ttl >= 1
  {
    var timeout := if config.callbackTimeoutMs == 0 then env.defaultCallbackTimeoutMs else config.callbackTimeoutMs;
    var backoffSum, power := 0, 1;
    for i := 0 to config.maxRetries
      invariant power == Pow2(i) && backoffSum == PartialBackoff(config.backoffMs, i)
    {
      backoffSum := backoffSum + config.backoffMs * power;
      power := 2 * power;
    }
    PartialBackoffClosed(config.backoffMs, config.maxRetries);
    var ms := timeout * (config.maxRetries + 1) + backoffSum + env.lockBufferMs;
    var seconds := (ms + 999) / 1000;
    ttl := if seconds < 1 then 1 else seconds;
  }

  lemma {:induction false} RunBound(options: JobsOptions, durations: seq<nat>, timeout: nat)
    requires forall i :: 0 <= i < |durations| ==> durations[i] <= timeout
    ensures durations != [] ==>
      RunMs(options, durations) <= timeout * |durations| + options.delay * (Pow2(|durations| - 1) - 1)
  {
    var n := |durations|;
    if n > 1 {
      RunBound(options, durations[..n - 1], timeout);
      assert options.delay * (Pow2(n - 1) - 1) == options.delay * (Pow2(n - 2) - 1) + options.delay * Pow2(n - 2);
      assert timeout * n == timeout * (n - 1) + timeout;
    }
  }

  lemma {:induction false} Pow2Mono(i: nat, j: nat)
    requires i <= j
    ensures Pow2(i) <= Pow2(j)
    decreases j
  {
    if i < j {
      Pow2Mono(i, j - 1);
    } else if i > 0 {
      Pow2Mono(i - 1, j - 1);
    }
  }

  /** How long a callback may take: the job's own timeout, or the default if it has none. */
  predicate WithinTimeout(env: Env, config: Config, duration: nat) {
    if config.callbackTimeoutMs > 0 then duration <= config.callbackTimeoutMs
    else duration <= env.defaultCallbackTimeoutMs
  }

  /** The TTL covers every retry run the policy can produce, with the buffer to spare. */
  lemma TtlCoversRun(env: Env, config: Config, durations: seq<nat>)
    requires |durations| <= config.maxRetries + 1
    requires forall i :: 0 <= i < |durations| ==> WithinTimeout(env, config, durations[i])
    ensures RunMs(JobsOptions(config.maxRetries + 1, config.backoffMs), durations) + env.lockBufferMs
            <= TtlSeconds(env, config) * 1000
  {
    if durations != [] {
      RunBound(ExecutionJobOptions(config), durations, TimeoutMs(env, config));
      Pow2Mono(|durations| - 1, config.maxRetries);
      MulMono(config.backoffMs, Pow2(|durations| - 1) - 1, Pow2(config.maxRetries) - 1);
      MulMono(TimeoutMs(env, config), |durations|, config.maxRetries + 1);
    }
  }

  /** Every attempt uses its whole timeout. */
  function SlowestRun(timeout: nat, n: nat): seq<nat> { seq(n, _ => timeout) }

  lemma {:induction false} SlowestRunMs(options: JobsOptions, timeout: nat, n: nat)
    requires n > 0
    ensures RunMs(options, SlowestRun(timeout, n)) == timeout * n + options.delay * (Pow2(n - 1) - 1)
  {
    if n > 1 {
      assert SlowestRun(timeout, n)[..n - 1] == SlowestRun(timeout, n - 1);
      SlowestRunMs(options, timeout, n - 1);
      assert options.delay * (Pow2(n - 1) - 1) == options.delay * (Pow2(n - 2) - 1) + options.delay * Pow2(n - 2);
      assert timeout * n == timeout * (n - 1) + timeout;
    }
  }

  /** No shorter whole number of seconds would do: the slowest run plus the buffer needs them all. */
  lemma TtlIsTight(env: Env, config: Config)
    ensures var timeout := if config.callbackTimeoutMs > 0 then config.callbackTimeoutMs
                           else env.defaultCallbackTimeoutMs;
      var run := SlowestRun(timeout, config.maxRetries + 1);
      var ms := RunMs(JobsOptions(config.maxRetries + 1, config.backoffMs), run) + env.lockBufferMs;
      if ms == 0 then TtlSeconds(env, config) == 1 else (TtlSeconds(env, config) - 1) * 1000 < ms
  {
    SlowestRunMs(ExecutionJobOptions(config), TimeoutMs(env, config), config.maxRetries + 1);
  }

  /** 2^53: JavaScript numbers represent every integer up to here exactly. */
  const SAFE := 0x20_0000_0000_0000

  /** Every integer the source's arithmetic produces before the division is below 2^53. */
  ghost predicate Exact(env: Env, config: Config) {
    var b, r := config.backoffMs, config.maxRetries;
    && (forall i: nat :: i < r ==> b * Pow2(i) < SAFE)
    && (forall i: nat :: i <= r ==> PartialBackoff(b, i) < SAFE)
    && var timeout := if config.callbackTimeoutMs > 0 then config.callbackTimeoutMs else env.defaultCallbackTimeoutMs;
       && timeout * (r + 1) < SAFE
       && timeout * (r + 1) + PartialBackoff(b, r) < SAFE
       && timeout * (r + 1) + PartialBackoff(b, r) + env.lockBufferMs < SAFE
  }

  /** The final sum is the only number that has to be checked. */
  lemma ExactIff(env: Env, config: Config)
    ensures Exact(env, config) <==> BudgetMs(env, config) < SAFE
  {
    var b, r := config.backoffMs, config.maxRetries;
    PartialBackoffClosed(b, r);
    if BudgetMs(env, config) < SAFE {
      forall i: nat | i <= r
        ensures PartialBackoff(b, i) <= PartialBackoff(b, r)
      {
        PartialBackoffClosed(b, i);
        Pow2Mono(i, r);
        MulMono(b, Pow2(i) - 1, Pow2(r) - 1);
      }
      forall i: nat | i < r
        ensures b * Pow2(i) < SAFE
      {
        assert PartialBackoff(b, i + 1) <= PartialBackoff(b, r);
      }
    }
  }

  lemma Pow2Values()
    ensures Pow2(31) == 0x8000_0000 && Pow2(32) == 0x1_0000_0000
  {
    assert Pow2(8) == 256;
    assert Pow2(16) == 65536;
    assert Pow2(24) == 0x100_0000;
  }

  /** Exact for every policy the API accepts with at most 31 retries. */
  lemma ExactUpTo31(env: Env, config: Config)
    requires config.maxRetries <= 31 && config.backoffMs <= 3_600_000
    requires if config.callbackTimeoutMs > 0 then config.callbackTimeoutMs <= 300_000
             else env.defaultCallbackTimeoutMs <= 300_000
    requires env.lockBufferMs <= 1_000_000_000_000_000
    ensures Exact(env, config)
  {
    Pow2Values();
    Pow2Mono(config.maxRetries, 31);
    MulMono(config.backoffMs, Pow2(config.maxRetries) - 1, 0x7FFF_FFFF);
    MulMono(TimeoutMs(env, config), config.maxRetries + 1, 32);
    ExactIff(env, config);
  }

  /** The API accepts up to 50 retries; from 32 on the longest backoff leaves the exact range. */
  lemma NotExactFrom32(env: Env, config: Config)
    requires config.maxRetries >= 32 && config.backoffMs == 3_600_000
    ensures !Exact(env, config)
  {
    Pow2Values();
    Pow2Mono(32, config.maxRetries);
    MulMono(config.backoffMs, 0xFFFF_FFFF, Pow2(config.maxRetries) - 1);
  }
}
