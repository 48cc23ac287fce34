/**
 * The acquisition side of the core (`api_manager.py`): a per-source circuit
 * breaker, a retry executor with exponential backoff and call telemetry,
 * and the fallback search over a fixed provider ordering.
 *
 * The clock, the providers and their call durations are inputs: a provider
 * is an oracle `provider(source, query, attempt)` that answers each attempt
 * with a URL, no URL, or an exception, and says how long the call took.
 * Sleeping advances the caller's clock by the delay. Time is in
 * milliseconds.
 */
module ApiManager {
  import opened Wrappers
  import Database

  const DefaultFailureThreshold: int := 5
  /** Seconds an open circuit stays open after its last failure. */
  const DefaultTimeoutSec: int := 60
  const DefaultMaxRetries: int := 3
  const DefaultBaseDelayMs: nat := 1000
  /** The health window and success-rate floor of `search_with_fallback`:
      a source is skipped when its rate over 30 minutes is below 3/10. */
  const HealthWindowMinutes: int := 30
  const HealthFloorNum: int := 3
  const HealthFloorDen: nat := 10

  // ---------------------------------------------------------------------
  // Circuit breaker
  // ---------------------------------------------------------------------

  /** The two dictionaries of `CircuitBreaker`. */
  datatype BreakerState = BreakerState(failures: map<string, int>, lastFailureTime: map<string, int>)

  /** `failures.get(source, 0)` */
  function FailureCount(st: BreakerState, source: string): int
  {
    if source in st.failures then st.failures[source] else 0
  }

  /** `last_failure_time.get(source, 0)` */
  function LastFailure(st: BreakerState, source: string): int
  {
    if source in st.lastFailureTime then st.lastFailureTime[source] else 0
  }

  /** The condition under which `is_open` answers true. */
  predicate Tripped(st: BreakerState, threshold: int, timeoutSec: int, source: string, now: int)
  {
    && source in st.failures
    && st.failures[source] >= threshold
    && now - LastFailure(st, source) < timeoutSec * 1000
  }

  /** `is_open`: the answer and the state after the check (a check that
      finds the timeout elapsed resets the count to 0). */
  function CheckOpen(st: BreakerState, threshold: int, timeoutSec: int, source: string, now: int): (bool, BreakerState)
  {
    if source !in st.failures then (false, st)
    else if st.failures[source] >= threshold then
      var elapsed := now - LastFailure(st, source);
      if elapsed < timeoutSec * 1000 then (true, st)
      else (false, st.(failures := st.failures[source := 0]))
    else (false, st)
  }

  /** `record_success` */
  function Succeed(st: BreakerState, source: string): BreakerState
  {
    st.(failures := st.failures[source := 0])
  }

  /** `record_failure` */
  function Fail(st: BreakerState, source: string, now: int): BreakerState
  {
    BreakerState(st.failures[source := FailureCount(st, source) + 1], st.lastFailureTime[source := now])
  }

  /** A source with no recorded outcome is never open, and checking it
      changes nothing. */
  lemma NeverRecordedIsClosed(st: BreakerState, threshold: int, timeoutSec: int, source: string, now: int)
    requires source !in st.failures
    ensures CheckOpen(st, threshold, timeoutSec, source, now) == (false, st)
  {
  }

  /** `is_open` answers true exactly when the source is tripped, and then
      leaves the state unchanged; otherwise it changes at most the count of
      this source, resetting it to 0. */
  lemma CheckOpenSpec(st: BreakerState, threshold: int, timeoutSec: int, source: string, now: int)
    ensures var (open, st') := CheckOpen(st, threshold, timeoutSec, source, now);
      && (open <==> Tripped(st, threshold, timeoutSec, source, now))
      && (open ==> st' == st)
      && st'.lastFailureTime == st.lastFailureTime
      && (st' != st ==> st'.failures == st.failures[source := 0])
  {
  }

  /** Once the timeout has passed while the count is at or over the
      threshold, the check answers false and resets the count to 0; after
      that a single failure does not reopen the circuit (threshold > 1). */
  lemma TimeoutResetsCount(st: BreakerState, threshold: int, timeoutSec: int, source: string, now: int, later: int, check: int)
    requires source in st.failures && st.failures[source] >= threshold
    requires now - LastFailure(st, source) >= timeoutSec * 1000
    requires threshold > 1
    ensures var (open, st') := CheckOpen(st, threshold, timeoutSec, source, now);
      && !open
      && st' == st.(failures := st.failures[source := 0])
      && !CheckOpen(Fail(st', source, later), threshold, timeoutSec, source, check).0
  {
  }

  /** After a success the count is 0, so the circuit is closed for any
      positive threshold; other sources are untouched. */
  lemma SuccessCloses(st: BreakerState, threshold: int, timeoutSec: int, source: string, other: string, now: int)
    requires threshold > 0 && other != source
    ensures !CheckOpen(Succeed(st, source), threshold, timeoutSec, source, now).0
    ensures FailureCount(Succeed(st, source), other) == FailureCount(st, other)
    ensures LastFailure(Succeed(st, source), other) == LastFailure(st, other)
  {
  }

  /** A failure adds exactly one to this source's count and stamps the
      time; other sources are untouched. */
  lemma FailureCounts(st: BreakerState, source: string, other: string, now: int)
    requires other != source
    ensures FailureCount(Fail(st, source, now), source) == FailureCount(st, source) + 1
    ensures LastFailure(Fail(st, source, now), source) == now
    ensures FailureCount(Fail(st, source, now), other) == FailureCount(st, other)
    ensures LastFailure(Fail(st, source, now), other) == LastFailure(st, other)
  {
  }

  /** Failures of one source recorded at the given times, in order. */
  function FailAll(st: BreakerState, source: string, times: seq<int>): BreakerState
    decreases |times|
  {
    if times == [] then st else FailAll(Fail(st, source, times[0]), source, times[1..])
  }

  lemma {:induction false} FailAllEffect(st: BreakerState, source: string, times: seq<int>)
    ensures FailureCount(FailAll(st, source, times), source) == FailureCount(st, source) + |times|
    ensures source in FailAll(st, source, times).failures || times == []
    ensures times != [] ==> LastFailure(FailAll(st, source, times), source) == times[|times| - 1]
    decreases |times|
  {
    if times != [] {
      FailAllEffect(Fail(st, source, times[0]), source, times[1..]);
      if |times| > 1 {
        assert times[1..][|times[1..]| - 1] == times[|times| - 1];
      }
    }
  }

  /** `threshold` consecutive failures open the circuit, and it stays open
      until `timeout` seconds after the last of them. */
  lemma ConsecutiveFailuresOpen(st: BreakerState, threshold: int, timeoutSec: int, source: string, times: seq<int>, now: int)
    requires FailureCount(st, source) >= 0
    requires times != [] && |times| >= threshold
    requires now - times[|times| - 1] < timeoutSec * 1000
    ensures CheckOpen(FailAll(st, source, times), threshold, timeoutSec, source, now).0
  {
    FailAllEffect(st, source, times);
  }

  class CircuitBreaker {
    const failureThreshold: int
    const timeout: int
    var failures: map<string, int>
    var lastFailureTime: map<string, int>

    function State(): BreakerState
      reads this
    {
      BreakerState(failures, lastFailureTime)
    }

    constructor (failureThreshold: int, timeout: int)
      ensures this.failureThreshold == failureThreshold && this.timeout == timeout
      ensures State() == BreakerState(map[], map[])
    {
      this.failureThreshold := failureThreshold;
      this.timeout := timeout;
      failures := map[];
      lastFailureTime := map[];
    }

    method IsOpen(source: string, now: int) returns (open: bool)
      modifies this
      ensures (open, State()) == CheckOpen(old(State()), failureThreshold, timeout, source, now)
    {
      if source !in failures {
        return false;
      }
      if failures[source] >= failureThreshold {
        var elapsed := now - (if source in lastFailureTime then lastFailureTime[source] else 0);
        if elapsed < timeout * 1000 {
          return true;
        } else {
          failures := failures[source := 0];
        }
      }
      return false;
    }

    method RecordSuccess(source: string)
      modifies this
      ensures State() == Succeed(old(State()), source)
    {
      failures := failures[source := 0];
    }

    method RecordFailure(source: string, now: int)
      modifies this
      ensures State() == Fail(old(State()), source, now)
    {
      failures := failures[source := (if source in failures then failures[source] else 0) + 1];
      lastFailureTime := lastFailureTime[source := now];
    }
  }

  // ---------------------------------------------------------------------
  // Retry executor
  // ---------------------------------------------------------------------

  /** What one call of a provider does: returns a URL or `None`, or raises. */
  datatype Outcome = Returned(value: Option<string>) | Raised(message: string)

  datatype Attempt = Attempt(outcome: Outcome, durationMs: nat)

  /** The observable effects of a retry run: what it returned or raised,
      how many attempts it made, the call log, the breaker, the delays it
      slept and the clock when it ended. */
  datatype RetryRun = RetryRun(
    outcome: Outcome,
    attempts: nat,
    log: seq<Database.CallRecord>,
    breaker: BreakerState,
    sleeps: seq<nat>,
    clock: int)

  function Pow2(k: nat): nat
  {
    if k == 0 then 1 else 2 * Pow2(k - 1)
  }

  /** The sleep after a failed attempt `k`: `base_delay * 2^k`. */
  function BackoffDelay(baseDelayMs: nat, k: nat): nat
  {
    baseDelayMs * Pow2(k)
  }

  /** The call record of one attempt that ended at `end`. */
  function AttemptRecord(source: string, a: Attempt, end: int): Database.CallRecord
  {
    match a.outcome
    case Returned(_) => Database.CallRecord(source, "", true, a.durationMs, None, end)
    case Raised(m) => Database.CallRecord(source, "", false, a.durationMs, Some(m), end)
  }

  /** Attempt `k` made: its outcome, one call record and one breaker
      update (a success when it returned, a failure when it raised), with
      the clock moved past the call. */
  function AfterAttempt(run: RetryRun, source: string, a: Attempt, k: nat): RetryRun
  {
    var end := run.clock + a.durationMs;
    run.(outcome := a.outcome,
         attempts := k + 1,
         log := run.log + [AttemptRecord(source, a, end)],
         breaker := if a.outcome.Returned? then Succeed(run.breaker, source) else Fail(run.breaker, source, end),
         clock := end)
  }

  /** `time.sleep(delay)` */
  function Backoff(run: RetryRun, delay: nat): RetryRun
  {
    run.(sleeps := run.sleeps + [delay], clock := run.clock + delay)
  }

  /** `retry_with_backoff` from attempt `k` on. */
  function RetryFrom(func: nat -> Attempt, k: nat, maxRetries: int, baseDelayMs: nat, source: string, run: RetryRun): RetryRun
    decreases maxRetries - k
  {
    if k >= maxRetries then run.(outcome := Returned(None))
    else
      var after := AfterAttempt(run, source, func(k), k);
      if func(k).outcome.Returned? || k == maxRetries - 1 then after
      else RetryFrom(func, k + 1, maxRetries, baseDelayMs, source, Backoff(after, BackoffDelay(baseDelayMs, k)))
  }

  function Retry(func: nat -> Attempt, maxRetries: int, baseDelayMs: nat, source: string,
                 log: seq<Database.CallRecord>, st: BreakerState, clock: int): RetryRun
  {
    RetryFrom(func, 0, maxRetries, baseDelayMs, source, RetryRun(Returned(None), 0, log, st, [], clock))
  }

  /** One step of the retry loop: attempt `k` either ends the run or is
      followed by a sleep and attempt `k + 1`. */
  lemma RetryStep(func: nat -> Attempt, k: nat, maxRetries: int, baseDelayMs: nat, source: string, run: RetryRun)
    requires k < maxRetries
    ensures var after := AfterAttempt(run, source, func(k), k);
      RetryFrom(func, k, maxRetries, baseDelayMs, source, run)
      == if func(k).outcome.Returned? || k == maxRetries - 1 then after
         else RetryFrom(func, k + 1, maxRetries, baseDelayMs, source, Backoff(after, BackoffDelay(baseDelayMs, k)))
  {
  }

  /** The first attempt in `[k, n)` that does not raise, or `n`. */
  function FirstReturn(func: nat -> Attempt, k: nat, n: int): (j: int)
    ensures k < n ==> k <= j <= n
    ensures forall i :: k <= i < j ==> func(i).outcome.Raised?
    ensures k <= j < n ==> func(j).outcome.Returned?
    decreases n - k
  {
    if k >= n then n
    else if func(k).outcome.Returned? then k
    else FirstReturn(func, k + 1, n)
  }

  /** With no attempts allowed the executor returns `None` and does nothing. */
  lemma RetryWithoutAttempts(func: nat -> Attempt, maxRetries: int, baseDelayMs: nat, source: string,
                             log: seq<Database.CallRecord>, st: BreakerState, clock: int)
    requires maxRetries <= 0
    ensures Retry(func, maxRetries, baseDelayMs, source, log, st, clock)
      == RetryRun(Returned(None), 0, log, st, [], clock)
  {
  }

  /** The executor stops at the first attempt that does not raise and
      returns its result; if every allowed attempt raises, it makes all of
      them and re-raises the last exception. */
  lemma {:induction false} RetryResult(func: nat -> Attempt, k: nat, n: int, baseDelayMs: nat, source: string, run: RetryRun)
    requires k < n
    ensures var r := RetryFrom(func, k, n, baseDelayMs, source, run);
      var j := FirstReturn(func, k, n);
      && r.attempts == (if j < n then j + 1 else n)
      && r.outcome == (if j < n then func(j).outcome else func(n - 1).outcome)
    decreases n - k
  {
    if func(k).outcome.Raised? && k < n - 1 {
      RetryResult(func, k + 1, n, baseDelayMs, source, Backoff(AfterAttempt(run, source, func(k), k), BackoffDelay(baseDelayMs, k)));
    }
  }

  /** Every attempt appends exactly one call record to the log, and nothing
      else is appended. */
  lemma {:induction false} RetryLogLength(func: nat -> Attempt, k: nat, n: int, baseDelayMs: nat, source: string, run: RetryRun)
    requires k < n
    ensures var r := RetryFrom(func, k, n, baseDelayMs, source, run);
      && k < r.attempts
      && |r.log| == |run.log| + (r.attempts - k)
      && r.log[..|run.log|] == run.log
    decreases n - k
  {
    if func(k).outcome.Raised? && k < n - 1 {
      var next := Backoff(AfterAttempt(run, source, func(k), k), BackoffDelay(baseDelayMs, k));
      RetryLogLength(func, k + 1, n, baseDelayMs, source, next);
      var r := RetryFrom(func, k + 1, n, baseDelayMs, source, next);
      assert r.log[..|run.log|] == next.log[..|run.log|];
    }
  }

  /** `c` is the call record of attempt `a` of `source`: an empty query,
      whether the attempt returned, and how long it took. */
  predicate LogsAttempt(c: Database.CallRecord, source: string, a: Attempt)
  {
    && c.source == source && c.query == "" && c.success == a.outcome.Returned? && c.responseTimeMs == a.durationMs
    && c.errorMessage == (if a.outcome.Raised? then Some(a.outcome.message) else None)
  }

  /** After `prev`, `log` holds exactly one record per attempt `k ..
      attempts - 1`, each the record of that attempt. */
  ghost predicate LogsAttempts(log: seq<Database.CallRecord>, prev: seq<Database.CallRecord>,
                               source: string, func: nat -> Attempt, k: nat, attempts: int)
  {
    && |log| == |prev| + (attempts - k)
    && forall i :: k <= i < attempts ==> LogsAttempt(log[|prev| + i - k], source, func(i))
  }

  /** A log that extends `next`, itself `prev` plus the record of attempt
      `k`, with the records of attempts `k + 1 ..` after it, holds the
      records of attempts `k ..` after `prev`. */
  lemma LogsShift(log: seq<Database.CallRecord>, prev: seq<Database.CallRecord>, next: seq<Database.CallRecord>,
                  source: string, func: nat -> Attempt, k: nat, attempts: nat)
    requires k < attempts && LogsAttempts(log, next, source, func, k + 1, attempts)
    requires |next| == |prev| + 1 && log[..|next|] == next && LogsAttempt(next[|prev|], source, func(k))
    ensures LogsAttempts(log, prev, source, func, k, attempts)
  {
    forall i | k <= i < attempts ensures LogsAttempt(log[|prev| + i - k], source, func(i)) {
      if i == k {
        assert log[|prev|] == log[..|next|][|prev|];
      } else {
        assert |prev| + i - k == |next| + i - (k + 1);
      }
    }
  }

  /** `prev` plus the record of attempt `k` holds the records of attempts
      `k .. k` after `prev`. */
  lemma LogsLast(log: seq<Database.CallRecord>, prev: seq<Database.CallRecord>, c: Database.CallRecord,
                 source: string, func: nat -> Attempt, k: nat)
    requires log == prev + [c] && LogsAttempt(c, source, func(k))
    ensures LogsAttempts(log, prev, source, func, k, k + 1)
  {
    forall i | k <= i < k + 1 ensures LogsAttempt(log[|prev| + i - k], source, func(i)) {
      assert i == k && log[|prev|] == c;
    }
  }

  /** The record at position `i` of the appended part belongs to attempt
      `i`: this source, an empty query, whether it returned, its duration
      and, when it raised, the message. */
  lemma {:induction false} RetryLogEntries(func: nat -> Attempt, k: nat, n: int, baseDelayMs: nat, source: string, run: RetryRun)
    requires k < n
    ensures var r := RetryFrom(func, k, n, baseDelayMs, source, run);
      LogsAttempts(r.log, run.log, source, func, k, r.attempts)
    decreases n - k
  {
    var res := RetryFrom(func, k, n, baseDelayMs, source, run);
    var after := AfterAttempt(run, source, func(k), k);
    if func(k).outcome.Returned? || k == n - 1 {
      assert res == after;
      var c := AttemptRecord(source, func(k), run.clock + func(k).durationMs);
      assert res.attempts == k + 1 && res.log == run.log + [c];
      LogsLast(res.log, run.log, c, source, func, k);
    } else {
      var next := Backoff(after, BackoffDelay(baseDelayMs, k));
      RetryLogEntries(func, k + 1, n, baseDelayMs, source, next);
      RetryLogLength(func, k + 1, n, baseDelayMs, source, next);
      assert res == RetryFrom(func, k + 1, n, baseDelayMs, source, next);
      assert next.log[|run.log|] == AttemptRecord(source, func(k), after.clock);
      LogsShift(res.log, run.log, next.log, source, func, k, res.attempts);
    }
  }

  /** Before retry `k + 1` the executor sleeps `baseDelay * 2^k`; after the
      last attempt it does not sleep. */
  lemma {:induction false} RetrySleeps(func: nat -> Attempt, k: nat, n: int, baseDelayMs: nat, source: string, run: RetryRun)
    requires k < n
    ensures var r := RetryFrom(func, k, n, baseDelayMs, source, run);
      && k < r.attempts
      && |r.sleeps| == |run.sleeps| + (r.attempts - k - 1)
      && r.sleeps[..|run.sleeps|] == run.sleeps
      && forall i :: k <= i < r.attempts - 1 ==> r.sleeps[|run.sleeps| + i - k] == baseDelayMs * Pow2(i)
    decreases n - k
  {
    if func(k).outcome.Raised? && k < n - 1 {
      var next := Backoff(AfterAttempt(run, source, func(k), k), BackoffDelay(baseDelayMs, k));
      RetrySleeps(func, k + 1, n, baseDelayMs, source, next);
      var r := RetryFrom(func, k + 1, n, baseDelayMs, source, next);
      assert r.sleeps[..|run.sleeps|] == next.sleeps[..|run.sleeps|];
      assert r.sleeps[|run.sleeps|] == r.sleeps[..|next.sleeps|][|run.sleeps|];
    }
  }

  /** Two breaker states agree on `s`. */
  predicate SameFor(a: BreakerState, b: BreakerState, s: string)
  {
    && (s in a.failures <==> s in b.failures)
    && (s in a.failures ==> a.failures[s] == b.failures[s])
    && (s in a.lastFailureTime <==> s in b.lastFailureTime)
    && (s in a.lastFailureTime ==> a.lastFailureTime[s] == b.lastFailureTime[s])
  }

  /** Each attempt makes exactly one breaker update for this source: a run
      that returns leaves its count at 0, a run that re-raises has added one
      failure per allowed attempt. Other sources are untouched. */
  lemma {:induction false} RetryBreaker(func: nat -> Attempt, k: nat, n: int, baseDelayMs: nat, source: string, run: RetryRun)
    requires k < n
    ensures var r := RetryFrom(func, k, n, baseDelayMs, source, run);
      && (r.outcome.Returned? ==> source in r.breaker.failures && r.breaker.failures[source] == 0)
      && (r.outcome.Raised? ==> FailureCount(r.breaker, source) == FailureCount(run.breaker, source) + (n - k))
      && (forall s :: s != source ==> SameFor(r.breaker, run.breaker, s))
    decreases n - k
  {
    if func(k).outcome.Raised? && k < n - 1 {
      var next := Backoff(AfterAttempt(run, source, func(k), k), BackoffDelay(baseDelayMs, k));
      RetryBreaker(func, k + 1, n, baseDelayMs, source, next);
      var r := RetryFrom(func, k + 1, n, baseDelayMs, source, next);
      forall s | s != source ensures SameFor(r.breaker, run.breaker, s) {
        assert SameFor(r.breaker, next.breaker, s);
        assert SameFor(next.breaker, run.breaker, s);
      }
    }
  }

  // ---------------------------------------------------------------------
  // Source dispatch and fallback search
  // ---------------------------------------------------------------------

  /** The names `_search_source` dispatches on. */
  predicate IsProvider(source: string)
  {
    source in {"nasa", "pexels", "pixabay", "unsplash", "giphy"}
  }

  /** `search_order`: images first by default, video-capable sources first
      when video is preferred. */
  function SearchOrder(preferVideo: bool): (order: seq<string>)
    ensures |order| == 4
    ensures forall s :: s in order ==> IsProvider(s)
    ensures forall i, j :: 0 <= i < j < |order| ==> order[i] != order[j]
    ensures order[2] == "pexels"
    ensures preferVideo ==> order[0] == "pixabay" && order[1] == "nasa" && order[3] == "giphy"
    ensures !preferVideo ==> order[0] == "nasa" && order[1] == "pixabay" && order[3] == "unsplash"
  {
    if preferVideo then ["pixabay", "nasa", "pexels", "giphy"] else ["nasa", "pixabay", "pexels", "unsplash"]
  }

  /** `_search_source`: a known provider runs under the retry executor with
      the default retry count and base delay; any other name answers `None`
      without a call. */
  function SourceRun(source: string, query: string, provider: (string, string, nat) -> Attempt,
                     log: seq<Database.CallRecord>, st: BreakerState, clock: int): RetryRun
  {
    if IsProvider(source) then
      Retry((k: nat) => provider(source, query, k), DefaultMaxRetries, DefaultBaseDelayMs, source, log, st, clock)
    else RetryRun(Returned(None), 0, log, st, [], clock)
  }

  /** `_search_source` issues at most the default number of calls and logs
      each of them, under this source, after the existing log. */
  lemma SourceRunLog(source: string, query: string, provider: (string, string, nat) -> Attempt,
                     log: seq<Database.CallRecord>, st: BreakerState, clock: int)
    ensures var r := SourceRun(source, query, provider, log, st, clock);
      && r.attempts <= DefaultMaxRetries
      && |r.log| == |log| + r.attempts
      && r.log[..|log|] == log
      && (forall i :: |log| <= i < |r.log| ==> r.log[i].source == source)
  {
    var func := (k: nat) => provider(source, query, k);
    if IsProvider(source) {
      var init := RetryRun(Returned(None), 0, log, st, [], clock);
      RetryResult(func, 0, DefaultMaxRetries, DefaultBaseDelayMs, source, init);
      RetryLogLength(func, 0, DefaultMaxRetries, DefaultBaseDelayMs, source, init);
      RetryLogEntries(func, 0, DefaultMaxRetries, DefaultBaseDelayMs, source, init);
      var r := SourceRun(source, query, provider, log, st, clock);
      assert r == RetryFrom(func, 0, DefaultMaxRetries, DefaultBaseDelayMs, source, init);
      assert LogsAttempts(r.log, log, source, func, 0, r.attempts);
      forall i | |log| <= i < |r.log| ensures r.log[i].source == source {
        assert LogsAttempt(r.log[|log| + (i - |log|) - 0], source, func(i - |log|));
      }
    }
  }

  /** What provider `source` answers to `query` on attempt `j`. */
  function AttemptOutcome(provider: (string, string, nat) -> Attempt, source: string, query: string, j: nat): Outcome
  {
    provider(source, query, j).outcome
  }

  /** One of the allowed attempts of `source` returned `url`. */
  predicate ProvidedBy(provider: (string, string, nat) -> Attempt, source: string, query: string, url: string)
  {
    exists j: nat :: j < DefaultMaxRetries as nat && AttemptOutcome(provider, source, query, j) == Returned(Some(url))
  }

  /** `_search_source` answers a URL only for a known provider, and only
      one that an allowed attempt of that provider returned. */
  lemma SourceRunOutcome(source: string, query: string, provider: (string, string, nat) -> Attempt,
                         log: seq<Database.CallRecord>, st: BreakerState, clock: int)
    ensures var r := SourceRun(source, query, provider, log, st, clock);
      r.outcome.Returned? && r.outcome.value.Some? ==> IsProvider(source) && ProvidedBy(provider, source, query, r.outcome.value.value)
  {
    var func := (k: nat) => provider(source, query, k);
    if IsProvider(source) {
      var init := RetryRun(Returned(None), 0, log, st, [], clock);
      RetryResult(func, 0, DefaultMaxRetries, DefaultBaseDelayMs, source, init);
      var r := SourceRun(source, query, provider, log, st, clock);
      var j := FirstReturn(func, 0, DefaultMaxRetries);
      if r.outcome.Returned? && r.outcome.value.Some? {
        assert j < DefaultMaxRetries;
        assert AttemptOutcome(provider, source, query, j) == Returned(Some(r.outcome.value.value));
      }
    }
  }

  /** The turn of one searched source: how many sources of the order, this
      one included, were still to go; the breaker state (before `is_open`),
      the call log and the clock when its turn came; and what
      `_search_source` did. */
  datatype Turn = Turn(remaining: nat, breaker: BreakerState, log: seq<Database.CallRecord>, clock: int, run: RetryRun)

  /** The observable effects of the provider loop of `search_with_fallback`:
      the URL found, the call log, the breaker, the clock, the sources
      actually searched, in order, and the turn of each. */
  datatype SearchRun = SearchRun(
    url: Option<string>,
    log: seq<Database.CallRecord>,
    breaker: BreakerState,
    clock: int,
    tried: seq<string>,
    turns: seq<Turn>)

  /** `if url:` on what `_search_source` gave: it returned a non-empty URL. */
  predicate Truthy(o: Outcome)
  {
    o.Returned? && o.value.Some? && o.value.value != ""
  }

  /** The success rate of `source` over the health window is below the floor. */
  predicate Unhealthy(log: seq<Database.CallRecord>, source: string, now: int)
  {
    Database.Below(Database.ApiHealth(log, source, HealthWindowMinutes, now).successRate, HealthFloorNum, HealthFloorDen)
  }

  /** Two searches agree on everything but the sources they record as tried. */
  predicate SameEffects(a: SearchRun, b: SearchRun)
  {
    a.url == b.url && a.log == b.log && a.breaker == b.breaker && a.clock == b.clock
  }

  lemma SameEffectsTrans(a: SearchRun, b: SearchRun, c: SearchRun)
    requires SameEffects(a, b) && SameEffects(b, c)
    ensures SameEffects(a, c)
  {
  }

  /** The provider loop of `search_with_fallback` over `order`. */
  function Fallback(order: seq<string>, query: string, provider: (string, string, nat) -> Attempt,
                    threshold: int, timeoutSec: int, st: BreakerState, log: seq<Database.CallRecord>, clock: int): SearchRun
    decreases |order|
  {
    if order == [] then SearchRun(None, log, st, clock, [], [])
    else
      var s := order[0];
      var (open, st1) := CheckOpen(st, threshold, timeoutSec, s, clock);
      if open || Unhealthy(log, s, clock) then
        Fallback(order[1..], query, provider, threshold, timeoutSec, st1, log, clock)
      else
        var r := SourceRun(s, query, provider, log, st1, clock);
        var turn := Turn(|order|, st, log, clock, r);
        if Truthy(r.outcome) then
          SearchRun(r.outcome.value, r.log, r.breaker, r.clock, [s], [turn])
        else
          var rest := Fallback(order[1..], query, provider, threshold, timeoutSec, r.breaker, r.log, r.clock);
          rest.(tried := [s] + rest.tried, turns := [turn] + rest.turns)
  }

  /** When every source is open or below the health floor, the search
      finds nothing and issues no call. */
  lemma {:induction false} NothingToTry(order: seq<string>, query: string, provider: (string, string, nat) -> Attempt,
                                        threshold: int, timeoutSec: int, st: BreakerState, log: seq<Database.CallRecord>, clock: int)
    requires forall s :: s in order ==> Tripped(st, threshold, timeoutSec, s, clock) || Unhealthy(log, s, clock)
    ensures var r := Fallback(order, query, provider, threshold, timeoutSec, st, log, clock);
      r.url == None && r.log == log && r.clock == clock && r.tried == []
    decreases |order|
  {
    if order != [] {
      var s := order[0];
      assert s in order;
      var (open, st1) := CheckOpen(st, threshold, timeoutSec, s, clock);
      CheckOpenSpec(st, threshold, timeoutSec, s, clock);
      forall t | t in order[1..] ensures Tripped(st1, threshold, timeoutSec, t, clock) || Unhealthy(log, t, clock) {
        assert t in order;
      }
      NothingToTry(order[1..], query, provider, threshold, timeoutSec, st1, log, clock);
    }
  }

  /** When every source's circuit is open the whole search is a no-op:
      nothing found, no call, and the breaker is left as it was. */
  lemma {:induction false} AllOpenIsNoOp(order: seq<string>, query: string, provider: (string, string, nat) -> Attempt,
                                         threshold: int, timeoutSec: int, st: BreakerState, log: seq<Database.CallRecord>, clock: int)
    requires forall s :: s in order ==> Tripped(st, threshold, timeoutSec, s, clock)
    ensures Fallback(order, query, provider, threshold, timeoutSec, st, log, clock) == SearchRun(None, log, st, clock, [], [])
    decreases |order|
  {
    if order != [] {
      assert order[0] in order;
      assert forall t :: t in order[1..] ==> t in order;
      AllOpenIsNoOp(order[1..], query, provider, threshold, timeoutSec, st, log, clock);
    }
  }

  /** The search only appends to the call log, and only records calls of
      sources it searched; it searches sources of `order` only. */
  lemma {:induction false} FallbackLog(order: seq<string>, query: string, provider: (string, string, nat) -> Attempt,
                                       threshold: int, timeoutSec: int, st: BreakerState, log: seq<Database.CallRecord>, clock: int)
    ensures var r := Fallback(order, query, provider, threshold, timeoutSec, st, log, clock);
      && |log| <= |r.log| && r.log[..|log|] == log
      && (forall i :: |log| <= i < |r.log| ==> r.log[i].source in r.tried)
      && (forall s :: s in r.tried ==> s in order)
    decreases |order|
  {
    var res := Fallback(order, query, provider, threshold, timeoutSec, st, log, clock);
    if order != [] {
      var s := order[0];
      var (open, st1) := CheckOpen(st, threshold, timeoutSec, s, clock);
      assert forall t :: t in order[1..] ==> t in order;
      if open || Unhealthy(log, s, clock) {
        assert res == Fallback(order[1..], query, provider, threshold, timeoutSec, st1, log, clock);
        FallbackLog(order[1..], query, provider, threshold, timeoutSec, st1, log, clock);
      } else {
        var r1 := SourceRun(s, query, provider, log, st1, clock);
        SourceRunLog(s, query, provider, log, st1, clock);
        var turn := Turn(|order|, st, log, clock, r1);
        if Truthy(r1.outcome) {
          assert res == SearchRun(r1.outcome.value, r1.log, r1.breaker, r1.clock, [s], [turn]);
        } else {
          var rest := Fallback(order[1..], query, provider, threshold, timeoutSec, r1.breaker, r1.log, r1.clock);
          assert res == rest.(tried := [s] + rest.tried, turns := [turn] + rest.turns);
          FallbackLog(order[1..], query, provider, threshold, timeoutSec, r1.breaker, r1.log, r1.clock);
          assert rest.log[..|log|] == rest.log[..|r1.log|][..|log|];
          forall i | |log| <= i < |rest.log| ensures rest.log[i].source in [s] + rest.tried {
            if i < |r1.log| {
              assert rest.log[i] == rest.log[..|r1.log|][i];
            }
          }
        }
      }
    }
  }

  /** A URL the search returns is non-empty and was returned by an allowed
      attempt of the last source it tried. */
  predicate FoundByLastTried(r: SearchRun, provider: (string, string, nat) -> Attempt, query: string)
  {
    r.url.Some? ==> (&& r.url.value != "" && r.tried != []
                     && ProvidedBy(provider, r.tried[|r.tried| - 1], query, r.url.value))
  }

  /** Trying one more source first keeps a found URL's provenance. */
  lemma FoundByLastTriedCons(s: string, rest: SearchRun, res: SearchRun, provider: (string, string, nat) -> Attempt, query: string)
    requires FoundByLastTried(rest, provider, query)
    requires res.url == rest.url && res.tried == [s] + rest.tried
    ensures FoundByLastTried(res, provider, query)
  {
    if rest.url.Some? {
      assert res.tried[|res.tried| - 1] == rest.tried[|rest.tried| - 1];
    }
  }

  lemma {:induction false} FallbackFound(order: seq<string>, query: string, provider: (string, string, nat) -> Attempt,
                                         threshold: int, timeoutSec: int, st: BreakerState, log: seq<Database.CallRecord>, clock: int)
    ensures FoundByLastTried(Fallback(order, query, provider, threshold, timeoutSec, st, log, clock), provider, query)
    decreases |order|
  {
    var res := Fallback(order, query, provider, threshold, timeoutSec, st, log, clock);
    if order != [] {
      var s := order[0];
      var (open, st1) := CheckOpen(st, threshold, timeoutSec, s, clock);
      if open || Unhealthy(log, s, clock) {
        assert res == Fallback(order[1..], query, provider, threshold, timeoutSec, st1, log, clock);
        FallbackFound(order[1..], query, provider, threshold, timeoutSec, st1, log, clock);
      } else {
        var r1 := SourceRun(s, query, provider, log, st1, clock);
        SourceRunOutcome(s, query, provider, log, st1, clock);
        var turn := Turn(|order|, st, log, clock, r1);
        if Truthy(r1.outcome) {
          assert res == SearchRun(r1.outcome.value, r1.log, r1.breaker, r1.clock, [s], [turn]);
          assert res.tried[|res.tried| - 1] == s;
        } else {
          var rest := Fallback(order[1..], query, provider, threshold, timeoutSec, r1.breaker, r1.log, r1.clock);
          assert res == rest.(tried := [s] + rest.tried, turns := [turn] + rest.turns);
          FallbackFound(order[1..], query, provider, threshold, timeoutSec, r1.breaker, r1.log, r1.clock);
          FoundByLastTriedCons(s, rest, res, provider, query);
        }
      }
    }
  }

  /** `t` is the turn of `source`, a source of `order`: its circuit was
      closed and its success rate at or above the floor when its turn came,
      and `t.run` is `_search_source` run from that state. */
  predicate TurnOf(t: Turn, source: string, order: seq<string>, query: string, provider: (string, string, nat) -> Attempt,
                   threshold: int, timeoutSec: int)
  {
    && 0 < t.remaining <= |order| && order[|order| - t.remaining] == source
    && !Tripped(t.breaker, threshold, timeoutSec, source, t.clock)
    && !Unhealthy(t.log, source, t.clock)
    && t.run == SourceRun(source, query, provider, t.log, CheckOpen(t.breaker, threshold, timeoutSec, source, t.clock).1, t.clock)
  }

  /** One turn per searched source, each a turn of that source, taken in
      the order of `order`. */
  predicate TurnsOf(r: SearchRun, order: seq<string>, query: string, provider: (string, string, nat) -> Attempt,
                    threshold: int, timeoutSec: int)
  {
    && |r.turns| == |r.tried|
    && (forall i :: 0 <= i < |r.tried| ==> TurnOf(r.turns[i], r.tried[i], order, query, provider, threshold, timeoutSec))
    && (forall i, j :: 0 <= i < j < |r.turns| ==> r.turns[i].remaining > r.turns[j].remaining)
  }

  /** A turn taken over the rest of the order is a turn over the order. */
  lemma TurnOfRest(t: Turn, source: string, order: seq<string>, query: string, provider: (string, string, nat) -> Attempt,
                   threshold: int, timeoutSec: int)
    requires order != [] && TurnOf(t, source, order[1..], query, provider, threshold, timeoutSec)
    ensures TurnOf(t, source, order, query, provider, threshold, timeoutSec) && t.remaining < |order|
  {
    assert order[1..][|order[1..]| - t.remaining] == order[|order| - t.remaining];
  }

  /** The turns of a search over the rest of the order are turns over the
      order, each with fewer sources still to go than the whole order. */
  lemma TurnsOfRest(r: SearchRun, order: seq<string>, query: string, provider: (string, string, nat) -> Attempt,
                    threshold: int, timeoutSec: int)
    requires order != [] && TurnsOf(r, order[1..], query, provider, threshold, timeoutSec)
    ensures TurnsOf(r, order, query, provider, threshold, timeoutSec)
    ensures forall i :: 0 <= i < |r.turns| ==> r.turns[i].remaining < |order|
  {
    forall i | 0 <= i < |r.tried|
      ensures TurnOf(r.turns[i], r.tried[i], order, query, provider, threshold, timeoutSec) && r.turns[i].remaining < |order|
    {
      TurnOfRest(r.turns[i], r.tried[i], order, query, provider, threshold, timeoutSec);
    }
  }

  /** Searching one more source first keeps the turns well formed. */
  lemma TurnsOfCons(s: string, turn: Turn, rest: SearchRun, res: SearchRun, order: seq<string>, query: string,
                    provider: (string, string, nat) -> Attempt, threshold: int, timeoutSec: int)
    requires TurnOf(turn, s, order, query, provider, threshold, timeoutSec)
    requires TurnsOf(rest, order, query, provider, threshold, timeoutSec)
    requires forall i :: 0 <= i < |rest.turns| ==> rest.turns[i].remaining < turn.remaining
    requires res.tried == [s] + rest.tried && res.turns == [turn] + rest.turns
    ensures TurnsOf(res, order, query, provider, threshold, timeoutSec)
  {
    assert forall i :: 0 < i < |res.turns| ==> res.turns[i] == rest.turns[i - 1] && res.tried[i] == rest.tried[i - 1];
  }

  /** The search searches a source only when its circuit is closed and its
      health at or above the floor at its turn, runs `_search_source` on it
      from the state of that turn, and searches the sources in the order
      given (the searched sources are a subsequence of `order`). */
  lemma {:induction false} FallbackTurns(order: seq<string>, query: string, provider: (string, string, nat) -> Attempt,
                                         threshold: int, timeoutSec: int, st: BreakerState, log: seq<Database.CallRecord>, clock: int)
    ensures TurnsOf(Fallback(order, query, provider, threshold, timeoutSec, st, log, clock), order, query, provider, threshold, timeoutSec)
    decreases |order|
  {
    var res := Fallback(order, query, provider, threshold, timeoutSec, st, log, clock);
    if order != [] {
      var s := order[0];
      var (open, st1) := CheckOpen(st, threshold, timeoutSec, s, clock);
      CheckOpenSpec(st, threshold, timeoutSec, s, clock);
      if open || Unhealthy(log, s, clock) {
        var rest := Fallback(order[1..], query, provider, threshold, timeoutSec, st1, log, clock);
        assert res == rest;
        FallbackTurns(order[1..], query, provider, threshold, timeoutSec, st1, log, clock);
        TurnsOfRest(rest, order, query, provider, threshold, timeoutSec);
      } else {
        var r1 := SourceRun(s, query, provider, log, st1, clock);
        var turn := Turn(|order|, st, log, clock, r1);
        assert TurnOf(turn, s, order, query, provider, threshold, timeoutSec);
        if Truthy(r1.outcome) {
          assert res == SearchRun(r1.outcome.value, r1.log, r1.breaker, r1.clock, [s], [turn]);
        } else {
          var rest := Fallback(order[1..], query, provider, threshold, timeoutSec, r1.breaker, r1.log, r1.clock);
          assert res == rest.(tried := [s] + rest.tried, turns := [turn] + rest.turns);
          FallbackTurns(order[1..], query, provider, threshold, timeoutSec, r1.breaker, r1.log, r1.clock);
          TurnsOfRest(rest, order, query, provider, threshold, timeoutSec);
          TurnsOfCons(s, turn, rest, res, order, query, provider, threshold, timeoutSec);
        }
      }
    }
  }

  /** What the searched sources answered decides the result: every source
      but the last answered no URL, an empty one or an exception; a URL is
      found exactly when the last answered a non-empty one, and it is that
      URL; nothing is found exactly when no source answered a non-empty URL. */
  predicate AnswersOf(r: SearchRun)
  {
    && (forall i :: 0 <= i < |r.turns| - 1 ==> !Truthy(r.turns[i].run.outcome))
    && (r.url.Some? <==> r.turns != [] && Truthy(r.turns[|r.turns| - 1].run.outcome))
    && (r.url.Some? ==> r.url == r.turns[|r.turns| - 1].run.outcome.value)
    && (r.url.None? <==> forall i :: 0 <= i < |r.turns| ==> !Truthy(r.turns[i].run.outcome))
  }

  lemma AnswersOfCons(turn: Turn, rest: SearchRun, res: SearchRun)
    requires AnswersOf(rest) && !Truthy(turn.run.outcome)
    requires res.url == rest.url && res.turns == [turn] + rest.turns
    ensures AnswersOf(res)
  {
    assert forall i :: 0 < i < |res.turns| ==> res.turns[i] == rest.turns[i - 1];
    if rest.turns != [] {
      assert res.turns[|res.turns| - 1] == rest.turns[|rest.turns| - 1];
    }
  }

  /** The search returns the first non-empty URL a searched source answers,
      and `None` when none does. */
  lemma {:induction false} FallbackAnswers(order: seq<string>, query: string, provider: (string, string, nat) -> Attempt,
                                           threshold: int, timeoutSec: int, st: BreakerState, log: seq<Database.CallRecord>, clock: int)
    ensures AnswersOf(Fallback(order, query, provider, threshold, timeoutSec, st, log, clock))
    decreases |order|
  {
    var res := Fallback(order, query, provider, threshold, timeoutSec, st, log, clock);
    if order != [] {
      var s := order[0];
      var (open, st1) := CheckOpen(st, threshold, timeoutSec, s, clock);
      if open || Unhealthy(log, s, clock) {
        assert res == Fallback(order[1..], query, provider, threshold, timeoutSec, st1, log, clock);
        FallbackAnswers(order[1..], query, provider, threshold, timeoutSec, st1, log, clock);
      } else {
        var r1 := SourceRun(s, query, provider, log, st1, clock);
        var turn := Turn(|order|, st, log, clock, r1);
        if Truthy(r1.outcome) {
          assert res == SearchRun(r1.outcome.value, r1.log, r1.breaker, r1.clock, [s], [turn]);
        } else {
          var rest := Fallback(order[1..], query, provider, threshold, timeoutSec, r1.breaker, r1.log, r1.clock);
          assert res == rest.(tried := [s] + rest.tried, turns := [turn] + rest.turns);
          FallbackAnswers(order[1..], query, provider, threshold, timeoutSec, r1.breaker, r1.log, r1.clock);
          AnswersOfCons(turn, rest, res);
        }
      }
    }
  }

  /** Each turn starts from the log and clock the previous one left (skipped
      sources change neither); the first starts from the search's own, and
      a search without turns finds nothing and changes neither; the
      search ends with the log and clock of its last turn, and a search that
      finds a URL also ends with that turn's breaker state. */
  predicate ChainsFrom(r: SearchRun, log: seq<Database.CallRecord>, clock: int)
  {
    && (r.turns == [] ==> r.url.None? && r.log == log && r.clock == clock)
    && (r.turns != [] ==>
          && r.turns[0].log == log && r.turns[0].clock == clock
          && r.log == r.turns[|r.turns| - 1].run.log && r.clock == r.turns[|r.turns| - 1].run.clock
          && (r.url.Some? ==> r.breaker == r.turns[|r.turns| - 1].run.breaker))
    && (forall i :: 0 <= i < |r.turns| - 1 ==>
          r.turns[i + 1].log == r.turns[i].run.log && r.turns[i + 1].clock == r.turns[i].run.clock)
  }

  lemma ChainsFromCons(turn: Turn, rest: SearchRun, res: SearchRun, log: seq<Database.CallRecord>, clock: int)
    requires ChainsFrom(rest, turn.run.log, turn.run.clock) && turn.log == log && turn.clock == clock
    requires res.url == rest.url && res.log == rest.log && res.clock == rest.clock && res.breaker == rest.breaker
    requires res.turns == [turn] + rest.turns
    ensures ChainsFrom(res, log, clock)
  {
    assert forall i :: 0 < i < |res.turns| ==> res.turns[i] == rest.turns[i - 1];
    if rest.turns != [] {
      assert res.turns[|res.turns| - 1] == rest.turns[|rest.turns| - 1];
    }
  }

  lemma {:induction false} FallbackChain(order: seq<string>, query: string, provider: (string, string, nat) -> Attempt,
                                         threshold: int, timeoutSec: int, st: BreakerState, log: seq<Database.CallRecord>, clock: int)
    ensures ChainsFrom(Fallback(order, query, provider, threshold, timeoutSec, st, log, clock), log, clock)
    decreases |order|
  {
    var res := Fallback(order, query, provider, threshold, timeoutSec, st, log, clock);
    if order != [] {
      var s := order[0];
      var (open, st1) := CheckOpen(st, threshold, timeoutSec, s, clock);
      if open || Unhealthy(log, s, clock) {
        assert res == Fallback(order[1..], query, provider, threshold, timeoutSec, st1, log, clock);
        FallbackChain(order[1..], query, provider, threshold, timeoutSec, st1, log, clock);
      } else {
        var r1 := SourceRun(s, query, provider, log, st1, clock);
        var turn := Turn(|order|, st, log, clock, r1);
        if Truthy(r1.outcome) {
          assert res == SearchRun(r1.outcome.value, r1.log, r1.breaker, r1.clock, [s], [turn]);
        } else {
          var rest := Fallback(order[1..], query, provider, threshold, timeoutSec, r1.breaker, r1.log, r1.clock);
          assert res == rest.(tried := [s] + rest.tried, turns := [turn] + rest.turns);
          FallbackChain(order[1..], query, provider, threshold, timeoutSec, r1.breaker, r1.log, r1.clock);
          ChainsFromCons(turn, rest, res, log, clock);
        }
      }
    }
  }

  /** The loop passes `source` over: its circuit is open or its success
      rate is below the floor. */
  predicate Skipped(st: BreakerState, threshold: int, timeoutSec: int, log: seq<Database.CallRecord>, source: string, clock: int)
  {
    Tripped(st, threshold, timeoutSec, source, clock) || Unhealthy(log, source, clock)
  }

  /** Checking a source can only reset a count whose timeout has passed, so
      a source skipped after the check would have been skipped before it. */
  lemma CheckKeepsSkipped(st: BreakerState, threshold: int, timeoutSec: int, log: seq<Database.CallRecord>,
                          checked: string, source: string, clock: int)
    requires Skipped(CheckOpen(st, threshold, timeoutSec, checked, clock).1, threshold, timeoutSec, log, source, clock)
    ensures Skipped(st, threshold, timeoutSec, log, source, clock)
  {
  }

  /** Every source of `order` without a turn was skipped, judged in the
      state the previous turn left (the search's own state before the first
      turn): the sources before the first turn, those between two turns,
      and, when no URL was found, those after the last turn. */
  predicate GapsSkipped(r: SearchRun, order: seq<string>, threshold: int, timeoutSec: int,
                        st: BreakerState, log: seq<Database.CallRecord>, clock: int)
  {
    var n := |order|;
    && (forall j :: 0 <= j < n && (r.turns == [] || j < n - r.turns[0].remaining) ==>
          Skipped(st, threshold, timeoutSec, log, order[j], clock))
    && (forall i, j :: 0 <= i < |r.turns| - 1 && 0 <= j && n - r.turns[i].remaining < j < n - r.turns[i + 1].remaining ==>
          Skipped(r.turns[i].run.breaker, threshold, timeoutSec, r.turns[i].run.log, order[j], r.turns[i].run.clock))
    && (r.url.None? && r.turns != [] ==>
          var last := r.turns[|r.turns| - 1].run;
          forall j :: 0 <= j && n - r.turns[|r.turns| - 1].remaining < j < n ==>
            Skipped(last.breaker, threshold, timeoutSec, last.log, order[j], last.clock))
  }

  /** Skipping the first source of the order keeps the gaps skipped. */
  lemma GapsSkippedRest(r: SearchRun, order: seq<string>, threshold: int, timeoutSec: int,
                        st: BreakerState, log: seq<Database.CallRecord>, clock: int)
    requires order != [] && Skipped(st, threshold, timeoutSec, log, order[0], clock)
    requires GapsSkipped(r, order[1..], threshold, timeoutSec, CheckOpen(st, threshold, timeoutSec, order[0], clock).1, log, clock)
    requires forall i :: 0 <= i < |r.turns| ==> r.turns[i].remaining < |order|
    ensures GapsSkipped(r, order, threshold, timeoutSec, st, log, clock)
  {
    var n := |order|;
    var st1 := CheckOpen(st, threshold, timeoutSec, order[0], clock).1;
    forall j | 0 <= j < n && (r.turns == [] || j < n - r.turns[0].remaining)
      ensures Skipped(st, threshold, timeoutSec, log, order[j], clock)
    {
      if j > 0 {
        assert order[1..][j - 1] == order[j];
        CheckKeepsSkipped(st, threshold, timeoutSec, log, order[0], order[j], clock);
      }
    }
    forall i, j | 0 <= i < |r.turns| - 1 && 0 <= j && n - r.turns[i].remaining < j < n - r.turns[i + 1].remaining
      ensures Skipped(r.turns[i].run.breaker, threshold, timeoutSec, r.turns[i].run.log, order[j], r.turns[i].run.clock)
    {
      assert order[1..][j - 1] == order[j];
    }
    if r.url.None? && r.turns != [] {
      var last := r.turns[|r.turns| - 1].run;
      forall j | 0 <= j && n - r.turns[|r.turns| - 1].remaining < j < n
        ensures Skipped(last.breaker, threshold, timeoutSec, last.log, order[j], last.clock)
      {
        assert order[1..][j - 1] == order[j];
      }
    }
  }

  /** A turn of the first source followed by a search of the rest, from
      the state that turn left, keeps the gaps skipped. */
  lemma GapsSkippedCons(turn: Turn, rest: SearchRun, res: SearchRun, order: seq<string>, threshold: int, timeoutSec: int,
                        st: BreakerState, log: seq<Database.CallRecord>, clock: int)
    requires order != [] && turn.remaining == |order|
    requires GapsSkipped(rest, order[1..], threshold, timeoutSec, turn.run.breaker, turn.run.log, turn.run.clock)
    requires forall i :: 0 <= i < |rest.turns| ==> rest.turns[i].remaining < |order|
    requires res.url == rest.url && res.turns == [turn] + rest.turns
    ensures GapsSkipped(res, order, threshold, timeoutSec, st, log, clock)
  {
    var n := |order|;
    assert forall i :: 0 < i < |res.turns| ==> res.turns[i] == rest.turns[i - 1];
    forall i, j | 0 <= i < |res.turns| - 1 && 0 <= j && n - res.turns[i].remaining < j < n - res.turns[i + 1].remaining
      ensures Skipped(res.turns[i].run.breaker, threshold, timeoutSec, res.turns[i].run.log, order[j], res.turns[i].run.clock)
    {
      assert order[1..][j - 1] == order[j];
    }
    if res.url.None? {
      var last := res.turns[|res.turns| - 1].run;
      forall j | 0 <= j && n - res.turns[|res.turns| - 1].remaining < j < n
        ensures Skipped(last.breaker, threshold, timeoutSec, last.log, order[j], last.clock)
      {
        assert order[1..][j - 1] == order[j];
      }
    }
  }

  /** The loop moves past a source only when it is skipped or answers no
      URL: a source of the order that is not searched was skipped in the
      state it was reached in, and when nothing is found every source after
      the last one searched was skipped too. */
  lemma {:induction false} FallbackSkipsOnlyUnavailable(order: seq<string>, query: string, provider: (string, string, nat) -> Attempt,
                                                        threshold: int, timeoutSec: int, st: BreakerState,
                                                        log: seq<Database.CallRecord>, clock: int)
    ensures GapsSkipped(Fallback(order, query, provider, threshold, timeoutSec, st, log, clock), order, threshold, timeoutSec, st, log, clock)
    decreases |order|
  {
    var res := Fallback(order, query, provider, threshold, timeoutSec, st, log, clock);
    if order != [] {
      var s := order[0];
      var (open, st1) := CheckOpen(st, threshold, timeoutSec, s, clock);
      CheckOpenSpec(st, threshold, timeoutSec, s, clock);
      if open || Unhealthy(log, s, clock) {
        var rest := Fallback(order[1..], query, provider, threshold, timeoutSec, st1, log, clock);
        assert res == rest;
        FallbackSkipsOnlyUnavailable(order[1..], query, provider, threshold, timeoutSec, st1, log, clock);
        FallbackTurns(order[1..], query, provider, threshold, timeoutSec, st1, log, clock);
        TurnsOfRest(rest, order, query, provider, threshold, timeoutSec);
        GapsSkippedRest(rest, order, threshold, timeoutSec, st, log, clock);
      } else {
        var r1 := SourceRun(s, query, provider, log, st1, clock);
        var turn := Turn(|order|, st, log, clock, r1);
        if !Truthy(r1.outcome) {
          var rest := Fallback(order[1..], query, provider, threshold, timeoutSec, r1.breaker, r1.log, r1.clock);
          assert res == rest.(tried := [s] + rest.tried, turns := [turn] + rest.turns);
          FallbackSkipsOnlyUnavailable(order[1..], query, provider, threshold, timeoutSec, r1.breaker, r1.log, r1.clock);
          FallbackTurns(order[1..], query, provider, threshold, timeoutSec, r1.breaker, r1.log, r1.clock);
          TurnsOfRest(rest, order, query, provider, threshold, timeoutSec);
          GapsSkippedCons(turn, rest, res, order, threshold, timeoutSec, st, log, clock);
        }
      }
    }
  }

  /** A first source whose circuit is closed and whose health is at or above
      the floor is searched first, from the search's own state. */
  lemma FallbackTriesFirstAvailable(order: seq<string>, query: string, provider: (string, string, nat) -> Attempt,
                                    threshold: int, timeoutSec: int, st: BreakerState, log: seq<Database.CallRecord>, clock: int)
    requires order != []
    requires !Tripped(st, threshold, timeoutSec, order[0], clock) && !Unhealthy(log, order[0], clock)
    ensures var r := Fallback(order, query, provider, threshold, timeoutSec, st, log, clock);
      && r.tried != [] && r.tried[0] == order[0]
      && r.turns != [] && r.turns[0] == Turn(|order|, st, log, clock,
           SourceRun(order[0], query, provider, log, CheckOpen(st, threshold, timeoutSec, order[0], clock).1, clock))
  {
    CheckOpenSpec(st, threshold, timeoutSec, order[0], clock);
  }

  class APIManager {
    const db: Database.Store
    const breaker: CircuitBreaker

    constructor (db: Database.Store)
      ensures this.db == db && fresh(breaker)
      ensures breaker.failureThreshold == DefaultFailureThreshold && breaker.timeout == DefaultTimeoutSec
      ensures breaker.State() == BreakerState(map[], map[])
    {
      this.db := db;
      breaker := new CircuitBreaker(DefaultFailureThreshold, DefaultTimeoutSec);
    }

    /** `retry_with_backoff` on a clock that reads `start` when it begins;
        returns the outcome and the clock when it ends. */
    method RetryWithBackoff(func: nat -> Attempt, maxRetries: int, baseDelayMs: nat, source: string, start: int)
      returns (outcome: Outcome, clock: int)
      requires db.Valid()
      modifies db, breaker
      ensures db.Valid()
      ensures var run := Retry(func, maxRetries, baseDelayMs, source, old(db.apiCalls), old(breaker.State()), start);
        && outcome == run.outcome && clock == run.clock
        && db.apiCalls == run.log && breaker.State() == run.breaker
      ensures db.OtherTables() == old(db.OtherTables())
    {
      ghost var goal := Retry(func, maxRetries, baseDelayMs, source, db.apiCalls, breaker.State(), start);
      ghost var run := RetryRun(Returned(None), 0, db.apiCalls, breaker.State(), [], start);
      clock := start;
      var attempt: nat := 0;
      while attempt < maxRetries
        invariant RetryFrom(func, attempt, maxRetries, baseDelayMs, source, run) == goal
        invariant run.log == db.apiCalls && run.breaker == breaker.State() && run.clock == clock
        invariant db.Valid()
        invariant db.OtherTables() == old(db.OtherTables())
        decreases maxRetries - attempt
      {
        var a := func(attempt);
        ghost var after := AfterAttempt(run, source, a, attempt);
        clock := clock + a.durationMs;
        RecordAttempt(run, source, a, attempt, clock);
        RetryStep(func, attempt, maxRetries, baseDelayMs, source, run);
        if a.outcome.Returned? || attempt == maxRetries - 1 {
          assert goal == after;
          return a.outcome, clock;
        }
        var delay := BackoffDelay(baseDelayMs, attempt);
        assert RetryFrom(func, attempt + 1, maxRetries, baseDelayMs, source, Backoff(after, delay)) == goal;
        clock := clock + delay;
        run := Backoff(after, delay);
        attempt := attempt + 1;
      }
      return Returned(None), clock;
    }

    /** The call record and the breaker update of attempt `k`, made on
        the state `run` describes. */
    method RecordAttempt(ghost run: RetryRun, source: string, a: Attempt, k: nat, end: int)
      requires db.Valid()
      requires run.log == db.apiCalls && run.breaker == breaker.State() && end == run.clock + a.durationMs
      modifies db, breaker
      ensures db.Valid()
      ensures db.apiCalls == AfterAttempt(run, source, a, k).log
      ensures breaker.State() == AfterAttempt(run, source, a, k).breaker
      ensures db.OtherTables() == old(db.OtherTables())
    {
      if a.outcome.Returned? {
        db.TrackApiCall(source, "", true, a.durationMs, None, end);
        breaker.RecordSuccess(source);
      } else {
        db.TrackApiCall(source, "", false, a.durationMs, Some(a.outcome.message), end);
        breaker.RecordFailure(source, end);
      }
    }

    /** `_search_source`: dispatch on the source name. */
    method SearchSource(source: string, query: string, provider: (string, string, nat) -> Attempt, now: int)
      returns (outcome: Outcome, clock: int)
      requires db.Valid()
      modifies db, breaker
      ensures db.Valid()
      ensures var run := SourceRun(source, query, provider, old(db.apiCalls), old(breaker.State()), now);
        && outcome == run.outcome && clock == run.clock
        && db.apiCalls == run.log && breaker.State() == run.breaker
      ensures db.OtherTables() == old(db.OtherTables())
    {
      if source == "nasa" {
        outcome, clock := RetryWithBackoff((k: nat) => provider("nasa", query, k), DefaultMaxRetries, DefaultBaseDelayMs, "nasa", now);
      } else if source == "pexels" {
        outcome, clock := RetryWithBackoff((k: nat) => provider("pexels", query, k), DefaultMaxRetries, DefaultBaseDelayMs, "pexels", now);
      } else if source == "pixabay" {
        outcome, clock := RetryWithBackoff((k: nat) => provider("pixabay", query, k), DefaultMaxRetries, DefaultBaseDelayMs, "pixabay", now);
      } else if source == "unsplash" {
        outcome, clock := RetryWithBackoff((k: nat) => provider("unsplash", query, k), DefaultMaxRetries, DefaultBaseDelayMs, "unsplash", now);
      } else if source == "giphy" {
        outcome, clock := RetryWithBackoff((k: nat) => provider("giphy", query, k), DefaultMaxRetries, DefaultBaseDelayMs, "giphy", now);
      } else {
        outcome, clock := Returned(None), now;
      }
    }

    /** `search_with_fallback`: a cache hit answers the cached URL with no
        provider, breaker or health involved; otherwise the provider loop
        runs over the search order. Nothing is raised. */
    method SearchWithFallback(query: string, preferVideo: bool, provider: (string, string, nat) -> Attempt, now: int)
      returns (url: Option<string>, clock: int)
      requires db.Valid()
      modifies db, breaker
      ensures db.Valid()
      ensures var hit := Database.LookupMedia(old(db.mediaCache), query, None, now);
        hit.Some? ==>
          && url == Some(hit.value.mediaUrl) && clock == now
          && db.mediaCache == Database.Bump(old(db.mediaCache), hit.value, now)
          && db.apiCalls == old(db.apiCalls) && breaker.State() == old(breaker.State())
      ensures var hit := Database.LookupMedia(old(db.mediaCache), query, None, now);
        var run := Fallback(SearchOrder(preferVideo), query, provider, breaker.failureThreshold, breaker.timeout,
                            old(breaker.State()), old(db.apiCalls), now);
        hit.None? ==>
          && url == run.url && clock == run.clock
          && db.apiCalls == run.log && breaker.State() == run.breaker
          && db.mediaCache == old(db.mediaCache)
      ensures db.nextMediaId == old(db.nextMediaId)
      ensures db.renderJobs == old(db.renderJobs) && db.nextJobId == old(db.nextJobId)
      ensures db.scriptCache == old(db.scriptCache) && db.transcriptionCache == old(db.transcriptionCache)
    {
      var cached := db.GetCachedMedia(query, None, now);
      if cached.Some? {
        return Some(cached.value.mediaUrl), now;
      }
      url, clock := SearchProviders(query, SearchOrder(preferVideo), provider, now);
    }

    /** The provider loop of `search_with_fallback` over `order`. */
    method SearchProviders(query: string, order: seq<string>, provider: (string, string, nat) -> Attempt, now: int)
      returns (url: Option<string>, clock: int)
      requires db.Valid()
      modifies db, breaker
      ensures db.Valid()
      ensures var run := Fallback(order, query, provider, breaker.failureThreshold, breaker.timeout,
                                  old(breaker.State()), old(db.apiCalls), now);
        && url == run.url && clock == run.clock
        && db.apiCalls == run.log && breaker.State() == run.breaker
      ensures db.OtherTables() == old(db.OtherTables())
    {
      ghost var goal := Fallback(order, query, provider, breaker.failureThreshold, breaker.timeout, breaker.State(), db.apiCalls, now);
      clock := now;
      var i := 0;
      while i < |order|
        invariant 0 <= i <= |order|
        invariant SameEffects(Fallback(order[i..], query, provider, breaker.failureThreshold, breaker.timeout, breaker.State(), db.apiCalls, clock), goal)
        invariant db.Valid()
        invariant db.OtherTables() == old(db.OtherTables())
      {
        var source := order[i];
        ghost var here := Fallback(order[i..], query, provider, breaker.failureThreshold, breaker.timeout, breaker.State(), db.apiCalls, clock);
        assert order[i..][0] == source && order[i..][1..] == order[i + 1..];
        var open := breaker.IsOpen(source, clock);
        if !open {
          var health := Database.ApiHealth(db.apiCalls, source, HealthWindowMinutes, clock);
          if !Database.Below(health.successRate, HealthFloorNum, HealthFloorDen) {
            var outcome;
            outcome, clock := SearchSource(source, query, provider, clock);
            if outcome.Returned? && outcome.value.Some? && outcome.value.value != "" {
              assert SameEffects(here, SearchRun(outcome.value, db.apiCalls, breaker.State(), clock, [], []));
              return outcome.value, clock;
            }
          }
        }
        ghost var next := Fallback(order[i + 1..], query, provider, breaker.failureThreshold, breaker.timeout, breaker.State(), db.apiCalls, clock);
        assert SameEffects(next, here);
        SameEffectsTrans(next, here, goal);
        i := i + 1;
      }
      return None, clock;
    }
  }
}
