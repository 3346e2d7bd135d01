/** utils/retry.js: exponential backoff with jitter, the retry loop and the
    default classification of retryable errors.

    `Math.random()` becomes the parameter `rand`, where `rand(a)` is the value
    drawn when the delay after attempt `a` is computed; `sleep` is not modelled:
    the delays are returned in the retry log instead. */
module Retry {
  import opened Wrappers
  import opened Text

  /** A thrown JavaScript error, reduced to the properties the core reads. */
  datatype ErrorInfo = ErrorInfo(
    name: string,
    message: Option<string>,
    code: Option<string>,
    status: Option<int>,
    statusCode: Option<int>)

  function Pow2(n: nat): (p: nat)
    ensures p >= 1
  {
    if n == 0 then 1 else 2 * Pow2(n - 1)
  }

  function Min(a: int, b: int): int {
    if a <= b then a else b
  }

  /** The delay before jitter: `Math.min(baseDelayMs * 2 ** attempt, maxDelayMs)`. */
  function Backoff(attempt: nat, baseDelayMs: int, maxDelayMs: int): int {
    Min(baseDelayMs * Pow2(attempt), maxDelayMs)
  }

  /** `calculateDelay`, with `r` standing for the value of `Math.random()`. */
  function CalculateDelay(attempt: nat, baseDelayMs: int, maxDelayMs: int, jitter: bool, r: real): (d: int)
    requires 0.0 <= r < 1.0
    ensures !jitter ==> d == Backoff(attempt, baseDelayMs, maxDelayMs)
    ensures jitter && Backoff(attempt, baseDelayMs, maxDelayMs) >= 0 ==>
              0 <= d <= Backoff(attempt, baseDelayMs, maxDelayMs)
    ensures jitter && Backoff(attempt, baseDelayMs, maxDelayMs) > 0 ==>
              d < Backoff(attempt, baseDelayMs, maxDelayMs)
    ensures Backoff(attempt, baseDelayMs, maxDelayMs) >= 0 ==> d <= maxDelayMs
  {
    var delay := Backoff(attempt, baseDelayMs, maxDelayMs);
    assert delay <= maxDelayMs;
    if jitter then
      JitterBounds(r, delay);
      (r * delay as real).Floor
    else
      delay
  }

  lemma JitterBounds(r: real, delay: int)
    requires 0.0 <= r < 1.0
    ensures delay >= 0 ==> 0 <= (r * delay as real).Floor <= delay
    ensures delay > 0 ==> (r * delay as real).Floor < delay
  {
    var d := delay as real;
    if delay > 0 {
      ScaleBelow(r, d);
      FloorBelow(r * d, delay);
    } else if delay == 0 {
      assert r * d == 0.0;
    }
  }

  lemma ScaleBelow(r: real, d: real)
    requires 0.0 <= r < 1.0 && d > 0.0
    ensures 0.0 <= r * d < d
  {
    assert d - r * d == (1.0 - r) * d;
    assert (1.0 - r) * d > 0.0;
  }

  lemma FloorBelow(x: real, n: int)
    requires 0.0 <= x < n as real
    ensures 0 <= x.Floor < n
  {
    assert x.Floor as real <= x;
  }

  lemma {:induction false} Pow2Monotone(a: nat, b: nat)
    requires a <= b
    ensures Pow2(a) <= Pow2(b)
    decreases b
  {
    if a < b {
      Pow2Monotone(a, b - 1);
    }
  }

  /** Without jitter the delay never decreases from one attempt to the next. */
  lemma BackoffMonotone(a: nat, b: nat, baseDelayMs: int, maxDelayMs: int)
    requires a <= b && baseDelayMs >= 0
    ensures Backoff(a, baseDelayMs, maxDelayMs) <= Backoff(b, baseDelayMs, maxDelayMs)
  {
    Pow2Monotone(a, b);
    assert baseDelayMs * Pow2(a) <= baseDelayMs * Pow2(b) by {
      MultiplyMonotone(baseDelayMs, Pow2(a), Pow2(b));
    }
  }

  lemma MultiplyMonotone(k: int, x: int, y: int)
    requires k >= 0 && x <= y
    ensures k * x <= k * y
  {
  }

  /** Below the cap each attempt doubles the delay; once the uncapped delay
      reaches `maxDelayMs` the delay is `maxDelayMs`. */
  lemma BackoffDoublesUntilCapped(a: nat, baseDelayMs: int, maxDelayMs: int)
    requires baseDelayMs >= 0
    ensures baseDelayMs * Pow2(a + 1) <= maxDelayMs ==>
              Backoff(a + 1, baseDelayMs, maxDelayMs) == 2 * Backoff(a, baseDelayMs, maxDelayMs)
    ensures baseDelayMs * Pow2(a) >= maxDelayMs ==>
              Backoff(a + 1, baseDelayMs, maxDelayMs) == maxDelayMs
  {
    assert baseDelayMs * Pow2(a + 1) == 2 * (baseDelayMs * Pow2(a));
  }

  /** The figures in tests/retry.test.js. */
  lemma DelayExamples(r: real)
    requires 0.0 <= r < 1.0
    ensures CalculateDelay(0, 1000, 10000, false, r) == 1000
    ensures CalculateDelay(1, 1000, 10000, false, r) == 2000
    ensures CalculateDelay(2, 1000, 10000, false, r) == 4000
    ensures CalculateDelay(10, 1000, 5000, false, r) == 5000
    ensures 0 <= CalculateDelay(2, 1000, 10000, true, r) <= 4000
  {
    assert Pow2(2) == 4;
    assert Pow2(3) == 8;
    Pow2Monotone(3, 10);
    MultiplyMonotone(1000, 8, Pow2(10));
  }

  /** Options of `retry`, after the defaults of its destructuring are applied.
      `shouldRetry` is `None` when no predicate is given. */
  datatype RetryOptions<!E> = RetryOptions(
    maxAttempts: int,
    baseDelayMs: int,
    maxDelayMs: int,
    jitter: bool,
    shouldRetry: Option<E -> bool>)

  /** The options `retry(fn)` uses when none are given. */
  function DefaultOptions<E>(): RetryOptions<E> {
    RetryOptions(3, 1000, 10000, true, None)
  }

  /** The loop goes on after `e` unless a `shouldRetry` is given and rejects it. */
  predicate Allows<E>(opts: RetryOptions<E>, e: E) {
    opts.shouldRetry.None? || opts.shouldRetry.value(e)
  }

  /** What `onRetry(error, attempt + 1, delay)` is called with before a retry. */
  datatype RetryEvent<E> = RetryEvent(error: E, attemptNumber: nat, delayMs: int)

  /** How `retry` settles: it returns a value, rethrows the error of the last
      call, or throws the initial `lastError`, which is `null`. */
  datatype RetryResult<T, E> = Returned(value: T) | Rethrown(error: E) | ThrewNull

  /** The settlement, the number of calls of `fn` and the retries made. */
  datatype RetryRun<T, E> = RetryRun(result: RetryResult<T, E>, calls: nat, retries: seq<RetryEvent<E>>)

  /** The retry announced after failed attempt `a`. */
  function EventAfter<T, E>(fn: nat -> Result<T, E>, opts: RetryOptions<E>, rand: nat -> real, a: nat): RetryEvent<E>
    requires fn(a).Failure? && 0.0 <= rand(a) < 1.0
  {
    RetryEvent(fn(a).error, a + 1, CalculateDelay(a, opts.baseDelayMs, opts.maxDelayMs, opts.jitter, rand(a)))
  }

  /** The rest of the loop of `retry` from iteration `attempt`, where `fn(a)`
      is what the `a`-th call of `fn` settles to. */
  function RunFrom<T, E>(fn: nat -> Result<T, E>, opts: RetryOptions<E>, rand: nat -> real,
                         attempt: nat, lastError: Option<E>): RetryRun<T, E>
    requires forall a :: 0.0 <= rand(a) < 1.0
    decreases opts.maxAttempts - attempt
  {
    if attempt >= opts.maxAttempts then
      RetryRun(if lastError.Some? then Rethrown(lastError.value) else ThrewNull, 0, [])
    else
      match fn(attempt)
      case Success(v) => RetryRun(Returned(v), 1, [])
      case Failure(e) =>
        if !Allows(opts, e) || attempt == opts.maxAttempts - 1 then
          RetryRun(Rethrown(e), 1, [])
        else
          var rest := RunFrom(fn, opts, rand, attempt + 1, Some(e));
          RetryRun(rest.result, rest.calls + 1, [EventAfter(fn, opts, rand, attempt)] + rest.retries)
  }

  /** A whole call of `retry(fn, opts)`. */
  function Run<T, E>(fn: nat -> Result<T, E>, opts: RetryOptions<E>, rand: nat -> real): RetryRun<T, E>
    requires forall a :: 0.0 <= rand(a) < 1.0
  {
    RunFrom(fn, opts, rand, 0, None)
  }

  /** `retry`: the attempt-counting loop. */
  method Retry<T, E>(fn: nat -> Result<T, E>, opts: RetryOptions<E>, rand: nat -> real)
    returns (result: RetryResult<T, E>, calls: nat, retries: seq<RetryEvent<E>>)
    requires forall a :: 0.0 <= rand(a) < 1.0
    ensures RetryRun(result, calls, retries) == Run(fn, opts, rand)
  {
    var lastError: Option<E> := None;
    calls, retries := 0, [];
    var attempt: nat := 0;
    while attempt < opts.maxAttempts
      invariant calls == attempt
      invariant var rest := RunFrom(fn, opts, rand, attempt, lastError);
                Run(fn, opts, rand) == RetryRun(rest.result, calls + rest.calls, retries + rest.retries)
      decreases opts.maxAttempts - attempt
    {
      var outcome := fn(attempt);
      calls := calls + 1;
      if outcome.Success? {
        result := Returned(outcome.value);
        return;
      }
      lastError := Some(outcome.error);
      if opts.shouldRetry.Some? && !opts.shouldRetry.value(outcome.error) {
        result := Rethrown(outcome.error);
        return;
      }
      if attempt == opts.maxAttempts - 1 {
        result := Rethrown(outcome.error);
        return;
      }
      var delay := CalculateDelay(attempt, opts.baseDelayMs, opts.maxDelayMs, opts.jitter, rand(attempt));
      retries := retries + [RetryEvent(outcome.error, attempt + 1, delay)];
      attempt := attempt + 1;
    }
    result := if lastError.Some? then Rethrown(lastError.value) else ThrewNull;
  }

  /** The shape of every run that makes at least one call: the calls before the
      last all failed with an error the loop may retry, each of them was
      followed by exactly one retry announcement, and the run settles with
      the last call's value or error. */
  lemma {:induction false} RunFromShape<T, E>(fn: nat -> Result<T, E>, opts: RetryOptions<E>, rand: nat -> real,
                                               attempt: nat, lastError: Option<E>)
    requires forall a :: 0.0 <= rand(a) < 1.0
    requires attempt < opts.maxAttempts
    ensures var r := RunFrom(fn, opts, rand, attempt, lastError);
      && 1 <= r.calls <= opts.maxAttempts - attempt
      && (forall k :: attempt <= k < attempt + r.calls - 1 ==> fn(k).Failure? && Allows(opts, fn(k).error))
      && |r.retries| == r.calls - 1
      && (forall k :: 0 <= k < |r.retries| ==>
            fn(attempt + k).Failure? && r.retries[k] == EventAfter(fn, opts, rand, attempt + k))
      && !r.result.ThrewNull?
      && (r.result.Returned? ==> fn(attempt + r.calls - 1) == Success(r.result.value))
      && (r.result.Rethrown? ==>
            fn(attempt + r.calls - 1) == Failure(r.result.error)
            && (!Allows(opts, r.result.error) || attempt + r.calls == opts.maxAttempts))
    decreases opts.maxAttempts - attempt
  {
    var r := RunFrom(fn, opts, rand, attempt, lastError);
    if fn(attempt).Failure? && Allows(opts, fn(attempt).error) && attempt != opts.maxAttempts - 1 {
      var e := fn(attempt).error;
      var rest := RunFrom(fn, opts, rand, attempt + 1, Some(e));
      RunFromShape(fn, opts, rand, attempt + 1, Some(e));
      assert r == RetryRun(rest.result, rest.calls + 1, [EventAfter(fn, opts, rand, attempt)] + rest.retries);
      forall k | 0 <= k < |r.retries|
        ensures fn(attempt + k).Failure? && r.retries[k] == EventAfter(fn, opts, rand, attempt + k)
      {
        if k > 0 {
          assert r.retries[k] == rest.retries[k - 1];
        }
      }
    }
  }

  /** `fn` is called at most `maxAttempts` times, and what `retry` returns or
      rethrows is what its last call settled to. */
  lemma RunCalls<T, E>(fn: nat -> Result<T, E>, opts: RetryOptions<E>, rand: nat -> real)
    requires forall a :: 0.0 <= rand(a) < 1.0
    ensures var r := Run(fn, opts, rand);
      && r.calls <= (if opts.maxAttempts > 0 then opts.maxAttempts else 0)
      && (r.result.Returned? ==> r.calls >= 1 && fn(r.calls - 1) == Success(r.result.value))
      && (r.result.Rethrown? ==> r.calls >= 1 && fn(r.calls - 1) == Failure(r.result.error))
  {
    if opts.maxAttempts > 0 {
      RunFromShape(fn, opts, rand, 0, None);
    }
  }

  /** With `maxAttempts <= 0` the loop body never runs: `fn` is not called and
      the initial `lastError`, `null`, is thrown. */
  lemma RetryWithoutAttempts<T, E>(fn: nat -> Result<T, E>, opts: RetryOptions<E>, rand: nat -> real)
    requires forall a :: 0.0 <= rand(a) < 1.0
    requires opts.maxAttempts <= 0
    ensures Run(fn, opts, rand) == RetryRun(ThrewNull, 0, [])
  {
  }

  /** An immediate success means exactly one call and no retry. */
  lemma RetryImmediateSuccess<T, E>(fn: nat -> Result<T, E>, opts: RetryOptions<E>, rand: nat -> real)
    requires forall a :: 0.0 <= rand(a) < 1.0
    requires opts.maxAttempts >= 1 && fn(0).Success?
    ensures Run(fn, opts, rand) == RetryRun(Returned(fn(0).value), 1, [])
  {
  }

  /** When the first `n` calls fail with errors the loop may retry and call
      `n` succeeds within the budget, the value of that call is returned
      after exactly `n + 1` calls and `n` retries. */
  lemma RetryEventualSuccess<T, E>(fn: nat -> Result<T, E>, opts: RetryOptions<E>, rand: nat -> real, n: nat)
    requires forall a :: 0.0 <= rand(a) < 1.0
    requires n < opts.maxAttempts
    requires forall k :: 0 <= k < n ==> fn(k).Failure? && Allows(opts, fn(k).error)
    requires fn(n).Success?
    ensures var r := Run(fn, opts, rand);
            r.result == Returned(fn(n).value) && r.calls == n + 1 && |r.retries| == n
  {
    RunFromShape(fn, opts, rand, 0, None);
  }

  /** When every call fails with an error the loop may retry, `fn` is called
      exactly `maxAttempts` times, `maxAttempts - 1` retries are announced and
      the last error is rethrown unchanged. */
  lemma RetryExhausted<T, E>(fn: nat -> Result<T, E>, opts: RetryOptions<E>, rand: nat -> real)
    requires forall a :: 0.0 <= rand(a) < 1.0
    requires opts.maxAttempts >= 1
    requires forall k :: 0 <= k < opts.maxAttempts ==> fn(k).Failure? && Allows(opts, fn(k).error)
    ensures var r := Run(fn, opts, rand);
            && r.calls == opts.maxAttempts
            && r.result == Rethrown(fn(opts.maxAttempts - 1).error)
            && |r.retries| == opts.maxAttempts - 1
  {
    RunFromShape(fn, opts, rand, 0, None);
  }

  /** An error that `shouldRetry` rejects is rethrown at once: one call, no
      delay and no `onRetry`. */
  lemma RetryRejectedError<T, E>(fn: nat -> Result<T, E>, opts: RetryOptions<E>, rand: nat -> real)
    requires forall a :: 0.0 <= rand(a) < 1.0
    requires opts.maxAttempts >= 1 && fn(0).Failure? && !Allows(opts, fn(0).error)
    ensures Run(fn, opts, rand) == RetryRun(Rethrown(fn(0).error), 1, [])
  {
  }

  /** Without `shouldRetry` every error is retried until the budget is spent. */
  lemma NoPredicateRetriesEverything<E>(opts: RetryOptions<E>, e: E)
    requires opts.shouldRetry.None?
    ensures Allows(opts, e)
  {
  }

  const NetworkCodes: set<string> := {"ECONNREFUSED", "ETIMEDOUT", "ENOTFOUND", "ECONNRESET"}

  /** `isRetryableError`. */
  predicate IsRetryableError(e: ErrorInfo) {
    if e.code.Some? && e.code.value in NetworkCodes then true
    else if e.status == Some(429) || e.statusCode == Some(429) then true
    else if (e.status.Some? && e.status.value >= 500) || (e.statusCode.Some? && e.statusCode.value >= 500) then true
    else if e.name == "AbortError" || (e.message.Some? && Contains(e.message.value, "timeout")) then true
    else false
  }

  /** The message does not speak of a timeout (a missing message cannot). */
  predicate NoTimeoutMessage(message: Option<string>) {
    message.None? || !Contains(message.value, "timeout")
  }

  /** An HTTP error and nothing else: no network code, not an abort and no
      timeout in its message. Then its status alone decides: it is retried
      exactly when it is 429 (rate limiting, section 4 of RFC 6585) or a
      server error, whichever of `status` and `statusCode` carries it. */
  lemma StatusDecidesRetry(e: ErrorInfo, s: int)
    requires e.code.None? || e.code.value !in NetworkCodes
    requires e.name != "AbortError" && NoTimeoutMessage(e.message)
    requires (e.status == Some(s) && e.statusCode.None?) || (e.status.None? && e.statusCode == Some(s))
    ensures IsRetryableError(e) <==> s == 429 || s >= 500
  {
  }

  /** Each class of failure makes an error retryable on its own, whatever
      its other properties: a network failure code, a 429 or server-error
      status, an abort, or a message that mentions a timeout. */
  lemma EachClassRetryable(e: ErrorInfo)
    ensures e.code.Some? && e.code.value in NetworkCodes ==> IsRetryableError(e)
    ensures e.status == Some(429) || e.statusCode == Some(429) ==> IsRetryableError(e)
    ensures (e.status.Some? && e.status.value >= 500) || (e.statusCode.Some? && e.statusCode.value >= 500) ==> IsRetryableError(e)
    ensures e.name == "AbortError" ==> IsRetryableError(e)
    ensures !NoTimeoutMessage(e.message) ==> IsRetryableError(e)
  {
  }

  /** The retryable cases of tests/retry.test.js. */
  lemma RetryableExamples()
    ensures IsRetryableError(ErrorInfo("Error", Some("Connection failed"), Some("ECONNREFUSED"), None, None))
    ensures IsRetryableError(ErrorInfo("Error", Some("Timeout"), Some("ETIMEDOUT"), None, None))
    ensures IsRetryableError(ErrorInfo("Error", Some("Rate limited"), None, Some(429), None))
    ensures IsRetryableError(ErrorInfo("Error", Some("Server error"), None, Some(503), None))
    ensures IsRetryableError(ErrorInfo("AbortError", Some("Request aborted"), None, None, None))
  {
  }

  /** The client error of tests/retry.test.js (status 400, message
      "Bad request") is not retried. */
  lemma ClientErrorNotRetryable()
    ensures !IsRetryableError(ErrorInfo("Error", Some("Bad request"), None, Some(400), None))
  {
    var m := "Bad request";
    assert m[..5] == "Bad r";
    AbsentFirstChar(m, "timeout");
    StatusDecidesRetry(ErrorInfo("Error", Some(m), None, Some(400), None), 400);
  }
}
