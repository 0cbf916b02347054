// The retry decorator around GitHub calls (src/wellcode_cli/github/decorators.py).
// The wrapped call is an oracle: `calls(k)` is what the (k+1)-th invocation
// does. A rate-limit error carries the x-ratelimit-remaining and
// x-ratelimit-reset headers (already defaulted to 0 when absent) and the clock
// reading taken while handling it. Sleeping is recorded, not performed.
// Status 401 is "Unauthorized" (section 15.5.2 of RFC 9110) and 403 is
// "Forbidden" (section 15.5.4 of RFC 9110), which GitHub also uses for an
// exhausted rate limit.

module Retry {

  datatype Outcome<T> =
    | Success(value: T)
    | GithubError(status: int, remaining: int, reset: int, clock: int)
    | OtherError

  datatype Final<T> = Returned(value: T) | Raised(error: Outcome<T>) | NoneReturned

  /** What one run of the wrapper does: its final effect, the sleeps in order, the invocations. */
  datatype Run<T> = Run(final: Final<T>, sleeps: seq<int>, invocations: nat)

  function Pow2(n: nat): (p: nat)
    ensures p >= 1
  {
    if n == 0 then 1 else 2 * Pow2(n - 1)
  }

  /** Exponential backoff after the attempt-th failure: delay * 2 ** (attempt - 1). */
  function Backoff(delay: int, attempt: nat): int
    requires attempt >= 1
  {
    delay * Pow2(attempt - 1)
  }

  /** The sleep before retrying after a 403: until the reset (plus one second) when the quota is exhausted. */
  function RateLimitSleep(remaining: int, reset: int, clock: int, delay: int, attempt: nat): int
    requires attempt >= 1
  {
    if remaining == 0 then (if reset - clock > 0 then reset - clock else 0) + 1
    else Backoff(delay, attempt)
  }

  function Prepend<T>(sleep: int, r: Run<T>): Run<T>
  {
    Run(r.final, [sleep] + r.sleeps, r.invocations)
  }

  /** The loop of `wrapper`, from the state where `attempts` invocations have failed. */
  function Wrapper<T>(retries: int, delay: int, calls: nat -> Outcome<T>, attempts: nat): Run<T>
    decreases retries - attempts
  {
    if attempts >= retries then Run(NoneReturned, [], attempts)
    else
      var n := attempts + 1;
      match calls(attempts)
      case Success(v) => Run(Returned(v), [], n)
      case OtherError => Run(Raised(OtherError), [], n)
      case GithubError(status, remaining, reset, clock) =>
        if status == 401 then Run(Raised(calls(attempts)), [], n)
        else if status == 403 then
          var wait := RateLimitSleep(remaining, reset, clock, delay, n);
          if n == retries then Run(Raised(calls(attempts)), [wait], n)
          else Prepend(wait, Wrapper(retries, delay, calls, n))
        else if n == retries then Run(Raised(calls(attempts)), [], n)
        else Prepend(Backoff(delay, n), Wrapper(retries, delay, calls, n))
  }

  /** An exhausted quota sleeps past the reset instant, by at least one second. */
  lemma RateLimitSleepPastReset(remaining: int, reset: int, clock: int, delay: int, attempt: nat)
    requires attempt >= 1 && remaining == 0
    ensures RateLimitSleep(remaining, reset, clock, delay, attempt) >= 1
    ensures clock + RateLimitSleep(remaining, reset, clock, delay, attempt) > reset
  {
  }

  /** Each further failure doubles the backoff. */
  lemma BackoffDoubles(delay: int, attempt: nat)
    requires attempt >= 1
    ensures Backoff(delay, attempt + 1) == 2 * Backoff(delay, attempt)
    ensures Backoff(delay, 1) == delay
  {
  }

  /**
   * The sleep that follows a retryable failure: a 403 always sleeps (until the
   * reset or with backoff), any other status backs off unless it was the last attempt.
   */
  lemma SleepAfterFailure<T>(retries: int, delay: int, calls: nat -> Outcome<T>, attempts: nat)
    requires attempts < retries && Retryable(calls(attempts))
    ensures var o := calls(attempts); var w := Wrapper(retries, delay, calls, attempts);
      (o.status == 403 ==>
        |w.sleeps| >= 1 && w.sleeps[0] == RateLimitSleep(o.remaining, o.reset, o.clock, delay, attempts + 1))
      && (o.status != 403 && attempts + 1 < retries ==> |w.sleeps| >= 1 && w.sleeps[0] == Backoff(delay, attempts + 1))
      && (o.status != 403 && attempts + 1 == retries ==> w.sleeps == [])
  {
  }

  /** An outcome the loop handles by trying again (when attempts remain). */
  predicate Retryable<T>(o: Outcome<T>)
  {
    o.GithubError? && o.status != 401
  }

  /** The loop invokes the call at most `retries` times, and sleeps at most once per invocation. */
  lemma {:induction false} InvocationsBounded<T>(retries: int, delay: int, calls: nat -> Outcome<T>, attempts: nat)
    requires attempts <= retries
    ensures attempts <= Wrapper(retries, delay, calls, attempts).invocations <= retries
    ensures |Wrapper(retries, delay, calls, attempts).sleeps| <= Wrapper(retries, delay, calls, attempts).invocations - attempts
    decreases retries - attempts
  {
    if attempts < retries {
      var n := attempts + 1;
      if calls(attempts).GithubError? && calls(attempts).status != 401 && n < retries {
        InvocationsBounded(retries, delay, calls, n);
      }
    }
  }

  /** A wrapper that is allowed a positive number of attempts always returns or raises, never None. */
  lemma {:induction false} NoneOnlyWithoutRetries<T>(retries: int, delay: int, calls: nat -> Outcome<T>, attempts: nat)
    requires attempts < retries
    ensures !Wrapper(retries, delay, calls, attempts).final.NoneReturned?
    decreases retries - attempts
  {
    var n := attempts + 1;
    if Retryable(calls(attempts)) && n < retries {
      NoneOnlyWithoutRetries(retries, delay, calls, n);
    }
  }

  /**
   * If the first `k` invocations fail with retryable errors and invocation k+1
   * succeeds (within the budget), that success is what the wrapper returns,
   * after exactly k+1 invocations.
   */
  lemma {:induction false} FirstSuccessReturned<T>(retries: int, delay: int, calls: nat -> Outcome<T>, attempts: nat, k: nat)
    requires attempts <= k < retries
    requires forall j :: attempts <= j < k ==> Retryable(calls(j))
    requires calls(k).Success?
    ensures Wrapper(retries, delay, calls, attempts).final == Returned(calls(k).value)
    ensures Wrapper(retries, delay, calls, attempts).invocations == k + 1
    decreases k - attempts
  {
    if attempts < k {
      FirstSuccessReturned(retries, delay, calls, attempts + 1, k);
    }
  }

  /** The first 401 or non-GitHub error is raised at once, after the sleeps of the failures before it. */
  lemma {:induction false} FatalRaisedAtOnce<T>(retries: int, delay: int, calls: nat -> Outcome<T>, attempts: nat, k: nat)
    requires attempts <= k < retries
    requires forall j :: attempts <= j < k ==> Retryable(calls(j))
    requires calls(k).OtherError? || (calls(k).GithubError? && calls(k).status == 401)
    ensures Wrapper(retries, delay, calls, attempts).final == Raised(calls(k))
    ensures Wrapper(retries, delay, calls, attempts).invocations == k + 1
    ensures |Wrapper(retries, delay, calls, attempts).sleeps| == k - attempts
    decreases k - attempts
  {
    if attempts < k {
      FatalRaisedAtOnce(retries, delay, calls, attempts + 1, k);
    }
  }

  /**
   * When every invocation fails with a retryable error, the last error is raised
   * after `retries` invocations; a final 403 still sleeps first, any other status does not.
   */
  lemma {:induction false} ExhaustedRaisesLast<T>(retries: int, delay: int, calls: nat -> Outcome<T>, attempts: nat)
    requires attempts < retries
    requires forall j :: attempts <= j < retries ==> Retryable(calls(j))
    ensures Wrapper(retries, delay, calls, attempts).final == Raised(calls(retries - 1))
    ensures Wrapper(retries, delay, calls, attempts).invocations == retries
    ensures |Wrapper(retries, delay, calls, attempts).sleeps|
      == if calls(retries - 1).GithubError? && calls(retries - 1).status == 403 then retries - attempts else retries - attempts - 1
    decreases retries - attempts
  {
    if attempts + 1 < retries {
      ExhaustedRaisesLast(retries, delay, calls, attempts + 1);
    }
  }

  /**
   * handle_github_errors(retries, delay) applied to the oracle `calls`.
   */
  method HandleGithubErrors<T>(retries: int, delay: int, calls: nat -> Outcome<T>) returns (final: Final<T>, sleeps: seq<int>, invocations: nat)
    ensures Run(final, sleeps, invocations) == Wrapper(retries, delay, calls, 0)
    ensures invocations <= (if retries > 0 then retries else 0)
    ensures final.NoneReturned? <==> retries <= 0
  {
    var attempts: nat := 0;
    sleeps := [];
    while attempts < retries
      invariant retries > 0 ==> attempts < retries
      invariant retries <= 0 ==> attempts == 0
      invariant Wrapper(retries, delay, calls, 0) ==
        Run(Wrapper(retries, delay, calls, attempts).final, sleeps + Wrapper(retries, delay, calls, attempts).sleeps,
            Wrapper(retries, delay, calls, attempts).invocations)
      decreases retries - attempts
    {
      var outcome := calls(attempts);
      match outcome {
        case Success(v) =>
          return Returned(v), sleeps, attempts + 1;
        case OtherError =>
          return Raised(OtherError), sleeps, attempts + 1;
        case GithubError(status, remaining, reset, clock) =>
          attempts := attempts + 1;
          if status == 401 {
            return Raised(outcome), sleeps, attempts;
          } else if status == 403 {
            var wait := RateLimitSleep(remaining, reset, clock, delay, attempts);
            sleeps := sleeps + [wait];
            if attempts == retries {
              return Raised(outcome), sleeps, attempts;
            }
          } else {
            if attempts == retries {
              return Raised(outcome), sleeps, attempts;
            }
            sleeps := sleeps + [Backoff(delay, attempts)];
          }
      }
    }
    return NoneReturned, sleeps, attempts;
  }
}
