/**
  The retry engine: call, and on a retryable error back off exponentially (capped, plus jitter) and
  call again, at most `maxAttempts` times.
*/
module RetryPolicy {
  import opened Sums
  import opened Wrappers

  /** The exceptions a guarded network call can raise; `OtherError` is any exception outside the network ones. */
  datatype Error = NetworkTimeout | NetworkConnectionError | CircuitOpen | OtherError(code: int)

  /** What one call of the wrapped function gives. */
  datatype Outcome<T> = Returned(value: T) | Raised(error: Error)

  /** How `execute` ends: a value, a propagated error, or RetryExceeded naming the last error. */
  datatype Result<T> = Value(value: T) | Propagated(error: Error) | RetryExceeded(last: Option<Error>)

  datatype Policy = Policy(maxAttempts: int, baseDelay: real, maxDelay: real, jitter: real, retryable: set<Error>)

  /** What the settings guarantee of a policy's timings. */
  ghost predicate ValidPolicy(p: Policy) {
    p.baseDelay >= 0.0 && p.maxDelay >= 0.0 && p.jitter >= 0.0
  }

  predicate Retries<T>(p: Policy, o: Outcome<T>) {
    o.Raised? && o.error in p.retryable
  }

  function Pow2(n: nat): real {
    if n == 0 then 1.0 else 2.0 * Pow2(n - 1)
  }

  function Min(a: real, b: real): real {
    if a <= b then a else b
  }

  /** The delay after the given attempt, before jitter. */
  function Backoff(p: Policy, attempt: nat): real
    requires attempt >= 1
  {
    Min(p.baseDelay * Pow2(attempt - 1), p.maxDelay)
  }

  /** Attempts the policy allows; a policy of zero or fewer attempts never calls the function. */
  function Allowed(p: Policy): nat {
    if p.maxAttempts < 0 then 0 else p.maxAttempts
  }

  /** Position of the first outcome that ends the loop by itself: a success or a non-retryable error. */
  function FirstStop<T>(p: Policy, outcomes: seq<Outcome<T>>): nat {
    if outcomes == [] then 0
    else if !Retries(p, outcomes[0]) then 0
    else 1 + FirstStop(p, outcomes[1..])
  }

  lemma {:induction false} FirstStopIs<T>(p: Policy, outcomes: seq<Outcome<T>>, k: nat)
    requires k <= |outcomes| && forall j | 0 <= j < k :: Retries(p, outcomes[j])
    requires k < |outcomes| ==> !Retries(p, outcomes[k])
    ensures FirstStop(p, outcomes) == k
  {
    if k > 0 {
      assert Retries(p, outcomes[0]);
      FirstStopIs(p, outcomes[1..], k - 1);
    }
  }

  /** `made` are the outcomes of the calls of one `execute` that ended in `r`. */
  ghost predicate RunOf<T>(p: Policy, made: seq<Outcome<T>>, r: Result<T>) {
    && |made| <= Allowed(p)
    && (forall k | 0 <= k < |made| - 1 :: made[k].Raised? && made[k].error in p.retryable)
    && match r
       case Value(v) => made != [] && made[|made| - 1] == Returned(v)
       case Propagated(e) => made != [] && made[|made| - 1] == Raised(e) && e !in p.retryable
       case RetryExceeded(last) =>
         && |made| == Allowed(p)
         && if made == [] then last == None
            else last.Some? && made[|made| - 1] == Raised(last.value) && last.value in p.retryable
  }

  /**
    However the function would behave on further calls, `execute` calls it exactly up to its first
    success, its first non-retryable error or the allowed number of attempts, whichever comes first.
  */
  lemma CallsExactly<T>(p: Policy, script: seq<Outcome<T>>, calls: nat, r: Result<T>)
    requires calls <= |script| && |script| >= Allowed(p) && RunOf(p, script[..calls], r)
    ensures calls == if FirstStop(p, script) < Allowed(p) then FirstStop(p, script) + 1 else Allowed(p)
    ensures r.RetryExceeded? <==> FirstStop(p, script) >= Allowed(p)
  {
    var made := script[..calls];
    forall k | 0 <= k < calls - 1 ensures Retries(p, script[k]) {
      assert made[k] == script[k] && Retries(p, made[k]);
    }
    if r.RetryExceeded? {
      FirstStopAfter(p, script, calls);
    } else {
      FirstStopIs(p, script, calls - 1);
    }
  }

  lemma {:induction false} FirstStopAfter<T>(p: Policy, script: seq<Outcome<T>>, n: nat)
    requires n <= |script| && forall k | 0 <= k < n :: Retries(p, script[k])
    ensures FirstStop(p, script) >= n
  {
    if n > 0 {
      assert Retries(p, script[0]);
      FirstStopAfter(p, script[1..], n - 1);
    }
  }

  // ---------- Total sleep ----------

  /** What the uncapped backoffs of `n` delays add up to. */
  function Geometric(base: real, n: nat): real {
    base * (Pow2(n) - 1.0)
  }

  /** Bound on what the first `n` delays add up to. */
  function SleepBound(p: Policy, n: nat): real {
    Times(n, p.jitter) + Min(Geometric(p.baseDelay, n), Times(n, p.maxDelay))
  }

  lemma GeometricNext(base: real, n: nat)
    ensures Geometric(base, n + 1) == Geometric(base, n) + base * Pow2(n)
  {
    var power := Pow2(n);
    assert Pow2(n + 1) - 1.0 == (power - 1.0) + power;
    Distributes(base, power - 1.0, power);
  }

  lemma Distributes(x: real, a: real, b: real)
    ensures x * (a + b) == x * a + x * b
  {
  }

  lemma BackoffBound(p: Policy, n: nat, drawn: real)
    requires ValidPolicy(p) && 0.0 <= drawn <= p.jitter
    ensures SleepBound(p, n) + Backoff(p, n + 1) + drawn <= SleepBound(p, n + 1)
  {
    GeometricNext(p.baseDelay, n);
    MinAdds(Geometric(p.baseDelay, n), Times(n, p.maxDelay), p.baseDelay * Pow2(n), p.maxDelay);
  }

  lemma MinAdds(a: real, b: real, x: real, y: real)
    ensures Min(a, b) + Min(x, y) <= Min(a + x, b + y)
  {
  }

  lemma {:induction false} Pow2Positive(n: nat)
    ensures Pow2(n) >= 1.0
  {
    if n > 0 {
      Pow2Positive(n - 1);
    }
  }

  lemma {:induction false} SleepBoundGrows(p: Policy, m: nat, n: nat)
    requires ValidPolicy(p) && m <= n
    ensures SleepBound(p, m) <= SleepBound(p, n)
  {
    if m < n {
      SleepBoundGrows(p, m, n - 1);
      BackoffNonNegative(p, n);
      BackoffBound(p, n - 1, 0.0);
    }
  }

  lemma BackoffNonNegative(p: Policy, attempt: nat)
    requires ValidPolicy(p) && attempt >= 1
    ensures Backoff(p, attempt) >= 0.0
  {
    Pow2Positive(attempt - 1);
    assert p.baseDelay * Pow2(attempt - 1) >= 0.0;
  }

  /** Before jitter, each delay is twice the one before until it reaches `maxDelay`; the first is the base delay. */
  lemma BackoffDoubles(p: Policy, attempt: nat)
    requires ValidPolicy(p) && attempt >= 1
    ensures Backoff(p, 1) == if p.baseDelay <= p.maxDelay then p.baseDelay else p.maxDelay
    ensures Backoff(p, attempt + 1) ==
      if 2.0 * Backoff(p, attempt) <= p.maxDelay then 2.0 * Backoff(p, attempt) else p.maxDelay
  {
    assert Pow2(0) == 1.0;
    Doubles(p.baseDelay, Pow2(attempt - 1), p.maxDelay);
  }

  lemma Doubles(base: real, power: real, cap: real)
    requires cap >= 0.0
    ensures Min(base * (2.0 * power), cap) == Min(2.0 * Min(base * power, cap), cap)
  {
  }

  /** Delay `k` is the backoff of attempt `k + 1` plus the jitter drawn for it. */
  ghost predicate DelaysFollow(p: Policy, delays: seq<real>, draws: seq<real>) {
    && |delays| <= |draws|
    && forall k | 0 <= k < |delays| :: 0.0 <= draws[k] <= p.jitter && delays[k] == Backoff(p, k + 1) + draws[k]
  }

  /** The total sleep is bounded both by the geometric sum and by the cap, plus the jitter of each delay. */
  lemma {:induction false} TotalSleep(p: Policy, delays: seq<real>, draws: seq<real>)
    requires ValidPolicy(p) && DelaysFollow(p, delays, draws)
    ensures 0.0 <= SumOf(delays) <= SleepBound(p, |delays|)
  {
    if delays == [] {
      assert Pow2(0) == 1.0;
    } else {
      var n := |delays| - 1;
      TotalSleep(p, delays[..n], draws);
      BackoffBound(p, n, draws[n]);
      BackoffNonNegative(p, n + 1);
    }
  }

  // ---------- The loop ----------

  /** `reported` is what `on_retry` was told: 1, 2, 3, ... with the error of each failed attempt. */
  ghost predicate RetriesReported<T>(reported: seq<(int, Error)>, made: seq<Outcome<T>>) {
    forall k | 0 <= k < |reported| && k < |made| :: made[k].Raised? && reported[k] == (k + 1, made[k].error)
  }

  /**
    `script` is what the function does on each successive call and `draws` the jitter of each delay.
    The outcome, the number of calls, what is reported to `on_retry` and every sleep are fixed by the
    policy.
  */
  method Execute<T>(p: Policy, script: seq<Outcome<T>>, draws: seq<real>)
    returns (r: Result<T>, calls: nat, reported: seq<(int, Error)>, delays: seq<real>)
    requires ValidPolicy(p) && |script| >= Allowed(p) && |draws| >= Allowed(p)
    requires forall k | 0 <= k < |draws| :: 0.0 <= draws[k] <= p.jitter
    ensures calls <= |script| && RunOf(p, script[..calls], r)
    ensures calls == if FirstStop(p, script) < Allowed(p) then FirstStop(p, script) + 1 else Allowed(p)
    ensures if p.maxAttempts <= 0 then calls == 0 && r == RetryExceeded(None) else 1 <= calls <= p.maxAttempts
    ensures r.RetryExceeded? && p.maxAttempts > 0 ==> calls == p.maxAttempts
    ensures |reported| == |delays| == if calls == 0 then 0 else calls - 1
    ensures RetriesReported(reported, script) && DelaysFollow(p, delays, draws)
    ensures SumOf(delays) <= SleepBound(p, if Allowed(p) == 0 then 0 else Allowed(p) - 1)
  {
    var last: Option<Error> := None;
    calls, reported, delays := 0, [], [];
    for attempt := 1 to Allowed(p) + 1
      invariant Allowed(p) > 0 ==> attempt <= Allowed(p)
      invariant calls == attempt - 1 == |reported| == |delays|
      invariant forall k | 0 <= k < calls :: Retries(p, script[k])
      invariant RetriesReported(reported, script) && DelaysFollow(p, delays, draws)
      invariant last == if calls == 0 then None else Some(script[calls - 1].error)
    {
      var outcome := script[calls];
      calls := calls + 1;
      if !Retries(p, outcome) {
        r := if outcome.Returned? then Value(outcome.value) else Propagated(outcome.error);
        CallsExactly(p, script, calls, r);
        TotalSleep(p, delays, draws);
        SleepBoundGrows(p, calls - 1, Allowed(p) - 1);
        return;
      }
      last := Some(outcome.error);
      if attempt >= p.maxAttempts {
        break;
      }
      reported := reported + [(attempt, outcome.error)];
      delays := delays + [Backoff(p, attempt) + draws[attempt - 1]];
    }
    r := RetryExceeded(last);
    CallsExactly(p, script, calls, r);
    TotalSleep(p, delays, draws);
  }
}
