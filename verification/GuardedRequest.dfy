/**
  One request to one host: the retry loop around the circuit breaker around the transport.
  With no other call to the host, the exact number of transport calls follows from both.
*/
module GuardedRequest {
  import opened Wrappers
  import opened RetryPolicy
  import B = CircuitBreaker
  import L = RateLimiter
  import M = NetworkMetrics

  /** What the transport does on an attempt, were it called, and how long that takes. */
  datatype Reply<T> = Reply(outcome: Outcome<T>, takes: real)

  /** How far a request has come: breaker, clock, outcomes of its attempts, transport calls among them. */
  datatype Progress<T> = Progress(breaker: B.Fields, at: real, made: seq<Outcome<T>>, calls: nat)

  /** What one attempt leaves: the breaker, what the retry engine sees, whether the transport was called, the time. */
  datatype Step<T> = Step(breaker: B.Fields, outcome: Outcome<T>, called: bool, at: real)

  /** One attempt begun at `now`: refused by the breaker, or let through to the transport and settled. */
  function Attempt<T>(p: B.Params, b: B.Fields, now: real, reply: Reply<T>): Step<T> {
    var (entered, admitted) := B.BeforeCall(p, b, now);
    if !admitted then Step(entered, Raised(CircuitOpen), false, now)
    else
      var settled := now + reply.takes;
      var left := if reply.outcome.Returned? then B.OnSuccess(entered) else B.OnFailure(p, entered, settled);
      Step(left, reply.outcome, true, settled)
  }

  function Extended<T>(s: Progress<T>, step: Step<T>): Progress<T> {
    Progress(step.breaker, step.at, s.made + [step.outcome], s.calls + if step.called then 1 else 0)
  }

  /** Everything outside the request: where it starts and what happens at each of its attempts. */
  datatype Setting<T> = Setting(start: B.Fields, now: real, replies: seq<Reply<T>>, draws: seq<real>)

  ghost predicate ValidSetting<T>(policy: Policy, s: Setting<T>) {
    && ValidPolicy(policy)
    && |s.replies| >= Allowed(policy) && |s.draws| >= Allowed(policy)
    && (forall k | 0 <= k < |s.replies| :: s.replies[k].takes >= 0.0)
    && (forall k | 0 <= k < |s.draws| :: 0.0 <= s.draws[k] <= policy.jitter)
  }

  /** The sleep before attempt `n + 1`. */
  function Delay<T>(policy: Policy, s: Setting<T>, n: nat): real
    requires n <= |s.draws|
  {
    if n == 0 then 0.0 else Backoff(policy, n) + s.draws[n - 1]
  }

  /** The request after `n` attempts. */
  function AfterAttempts<T>(policy: Policy, p: B.Params, s: Setting<T>, n: nat): Progress<T>
    requires n <= |s.replies| && n <= |s.draws|
  {
    if n == 0 then Progress(s.start, s.now, [], 0)
    else
      var before := AfterAttempts(policy, p, s, n - 1);
      Extended(before, Attempt(p, before.breaker, before.at + Delay(policy, s, n - 1), s.replies[n - 1]))
  }

  lemma {:induction false} MadeCount<T>(policy: Policy, p: B.Params, s: Setting<T>, n: nat)
    requires n <= |s.replies| && n <= |s.draws|
    ensures |AfterAttempts(policy, p, s, n).made| == n
    ensures AfterAttempts(policy, p, s, n).calls <= n
  {
    if n > 0 {
      MadeCount(policy, p, s, n - 1);
    }
  }

  lemma DelayNonNegative<T>(policy: Policy, s: Setting<T>, n: nat)
    requires ValidSetting(policy, s) && n <= |s.draws|
    ensures Delay(policy, s, n) >= 0.0
  {
    if n > 0 {
      BackoffNonNegative(policy, n);
    }
  }

  /** The request is over: its attempts are a run of the retry engine. */
  ghost predicate Ended<T>(policy: Policy, p: B.Params, s: Setting<T>, reached: Progress<T>, r: Result<T>) {
    var n := |reached.made|;
    && n <= |s.replies| && n <= |s.draws|
    && reached == AfterAttempts(policy, p, s, n) && RunOf(policy, reached.made, r)
  }

  // ---------- The same attempts, read off the breaker's log ----------

  /** A request's attempts so far: when each began, whether it was let through, its outcome, when it was over. */
  datatype Story<T> = Begun | Then(earlier: Story<T>, at: real, admitted: bool, outcome: Outcome<T>, over: real)

  function Length<T>(st: Story<T>): nat {
    if st.Begun? then 0 else Length(st.earlier) + 1
  }

  function Made<T>(st: Story<T>): (made: seq<Outcome<T>>)
    ensures |made| == Length(st)
  {
    if st.Begun? then [] else Made(st.earlier) + [st.outcome]
  }

  /** Attempts that reached the transport. */
  function Calls<T>(st: Story<T>): nat {
    if st.Begun? then 0 else Calls(st.earlier) + if st.admitted then 1 else 0
  }

  function EndOf<T>(now: real, st: Story<T>): real {
    if st.Begun? then now else st.over
  }

  /** What an attempt adds to the breaker's log: itself and, if it was let through, how it settled. */
  function Events<T>(id: nat, at: real, admitted: bool, outcome: Outcome<T>, over: real): seq<B.Event> {
    if !admitted then [B.Attempted(id, at)]
    else if outcome.Returned? then [B.Attempted(id, at), B.Succeeded(id, over)]
    else [B.Attempted(id, at), B.Failed(id, over)]
  }

  function LogAfter<T>(before: seq<B.Event>, st: Story<T>): seq<B.Event> {
    if st.Begun? then before
    else LogAfter(before, st.earlier) + Events(Length(st), st.at, st.admitted, st.outcome, st.over)
  }

  /** The log lets a call through at `now`. */
  ghost predicate LetThrough(p: B.Params, log: seq<B.Event>, now: real) {
    || B.Failures(log) < p.threshold
    || (now - B.LastFailure(log) >= p.recovery && B.Probes(p, log) < p.maxProbes)
  }

  /**
    Attempt `n + 1` begins a backoff after the one before is over. It is let through exactly when the log
    says so; then its outcome is the transport's answer once that has come, else CircuitOpen at once.
  */
  ghost predicate NextTold<T>(policy: Policy, p: B.Params, s: Setting<T>, n: nat, log: seq<B.Event>, previous: real,
                              at: real, admitted: bool, outcome: Outcome<T>, over: real) {
    && n < |s.replies| && n < |s.draws|
    && at == previous + (if n == 0 then 0.0 else Backoff(policy, n) + s.draws[n - 1])
    && (admitted <==> LetThrough(p, log, at))
    && outcome == (if admitted then s.replies[n].outcome else Raised(CircuitOpen))
    && over == at + (if admitted then s.replies[n].takes else 0.0)
  }

  ghost predicate Told<T>(policy: Policy, p: B.Params, s: Setting<T>, before: seq<B.Event>, st: Story<T>) {
    st.Then? ==>
      && Told(policy, p, s, before, st.earlier)
      && NextTold(policy, p, s, Length(st.earlier), LogAfter(before, st.earlier), EndOf(s.now, st.earlier),
                  st.at, st.admitted, st.outcome, st.over)
  }

  /** The breaker's log and clock readings so far: nothing in the log is later than `now`. */
  ghost predicate Upto(log: seq<B.Event>, now: real) {
    B.Timed(log) && (log != [] ==> log[|log| - 1].at <= now)
  }

  lemma UptoGrows<T>(log: seq<B.Event>, id: nat, at: real, admitted: bool, outcome: Outcome<T>, over: real)
    requires Upto(log, at) && at <= over
    ensures Upto(log + Events(id, at, admitted, outcome, over), over)
  {
    var events := Events(id, at, admitted, outcome, over);
    forall i, j | 0 <= i < j < |log + events| ensures (log + events)[i].at <= (log + events)[j].at {
      assert i < |log| ==> log[i].at <= log[|log| - 1].at;
    }
  }

  lemma NextLater<T>(policy: Policy, p: B.Params, s: Setting<T>, n: nat, log: seq<B.Event>, previous: real,
                     at: real, admitted: bool, outcome: Outcome<T>, over: real)
    requires ValidSetting(policy, s) && NextTold(policy, p, s, n, log, previous, at, admitted, outcome, over)
    ensures previous <= at <= over
  {
    DelayNonNegative(policy, s, n);
  }

  /** The story in terms of the breaker's fields. */
  function ProgressOf<T>(p: B.Params, now: real, before: seq<B.Event>, st: Story<T>): Progress<T> {
    Progress(B.After(p, LogAfter(before, st)), EndOf(now, st), Made(st), Calls(st))
  }

  lemma {:induction false} StoryTimed<T>(policy: Policy, p: B.Params, s: Setting<T>, before: seq<B.Event>, st: Story<T>)
    requires ValidSetting(policy, s) && Told(policy, p, s, before, st) && Upto(before, s.now)
    ensures Upto(LogAfter(before, st), EndOf(s.now, st)) && s.now <= EndOf(s.now, st)
  {
    if st.Then? {
      var log, previous := LogAfter(before, st.earlier), EndOf(s.now, st.earlier);
      StoryTimed(policy, p, s, before, st.earlier);
      NextLater(policy, p, s, Length(st.earlier), log, previous, st.at, st.admitted, st.outcome, st.over);
      LaterReading(log, previous, st.at);
      UptoGrows(log, Length(st), st.at, st.admitted, st.outcome, st.over);
    }
  }

  lemma LaterReading(log: seq<B.Event>, now: real, later: real)
    requires Upto(log, now) && now <= later
    ensures Upto(log, later)
  {
  }

  lemma EventsSettle<T>(p: B.Params, log: seq<B.Event>, id: nat, now: real, reply: Reply<T>)
    requires B.ValidParams(p) && Upto(log, now)
    ensures
      var step := Attempt(p, B.After(p, log), now, reply);
      && step.called == LetThrough(p, log, now)
      && step.outcome == (if step.called then reply.outcome else Raised(CircuitOpen))
      && step.at == now + (if step.called then reply.takes else 0.0)
      && step.breaker == B.After(p, log + Events(id, now, step.called, step.outcome, step.at))
  {
    B.AdmittedExactly(p, log, now);
    var step := Attempt(p, B.After(p, log), now, reply);
    var tried := log + [B.Attempted(id, now)];
    assert tried[..|log|] == log;
    if step.called {
      var settled := if reply.outcome.Returned? then B.Succeeded(id, step.at) else B.Failed(id, step.at);
      assert log + Events(id, now, true, step.outcome, step.at) == tried + [settled];
      assert (tried + [settled])[..|tried|] == tried;
    } else {
      assert log + Events(id, now, false, step.outcome, step.at) == tried;
    }
  }

  /** One told attempt is the step the breaker's fields take. */
  lemma NextIsStep<T>(policy: Policy, p: B.Params, s: Setting<T>, n: nat, log: seq<B.Event>, previous: real,
                      at: real, admitted: bool, outcome: Outcome<T>, over: real)
    requires B.ValidParams(p) && ValidSetting(policy, s) && Upto(log, previous)
    requires NextTold(policy, p, s, n, log, previous, at, admitted, outcome, over)
    ensures Attempt(p, B.After(p, log), previous + Delay(policy, s, n), s.replies[n])
      == Step(B.After(p, log + Events(n + 1, at, admitted, outcome, over)), outcome, admitted, over)
  {
    DelayNonNegative(policy, s, n);
    LaterReading(log, previous, at);
    EventsSettle(p, log, n + 1, at, s.replies[n]);
  }

  lemma {:induction false} StoryFits<T>(policy: Policy, p: B.Params, s: Setting<T>, before: seq<B.Event>, st: Story<T>)
    requires Told(policy, p, s, before, st)
    ensures Length(st) <= |s.replies| && Length(st) <= |s.draws|
  {
  }

  /** What the log tells of a request is what the steps on the breaker's fields make of it. */
  lemma {:induction false} StoryIsProgress<T>(policy: Policy, p: B.Params, s: Setting<T>, before: seq<B.Event>, st: Story<T>)
    requires B.ValidParams(p) && ValidSetting(policy, s) && Told(policy, p, s, before, st)
    requires Upto(before, s.now) && s.start == B.After(p, before)
    ensures Length(st) <= |s.replies| && Length(st) <= |s.draws|
    ensures AfterAttempts(policy, p, s, Length(st)) == ProgressOf(p, s.now, before, st)
  {
    StoryFits(policy, p, s, before, st);
    if st == Begun {
      NothingYet(policy, p, s, before);
    } else {
      StoryIsProgress(policy, p, s, before, st.earlier);
      StoryTimed(policy, p, s, before, st.earlier);
      NextIsProgress(policy, p, s, Length(st.earlier), LogAfter(before, st.earlier), EndOf(s.now, st.earlier),
                     Made(st.earlier), Calls(st.earlier), st.at, st.admitted, st.outcome, st.over);
    }
  }

  lemma NothingYet<T>(policy: Policy, p: B.Params, s: Setting<T>, before: seq<B.Event>)
    requires s.start == B.After(p, before)
    ensures AfterAttempts(policy, p, s, 0) == ProgressOf(p, s.now, before, Begun)
  {
  }

  lemma NextIsProgress<T>(policy: Policy, p: B.Params, s: Setting<T>, n: nat, log: seq<B.Event>, previous: real,
                          made: seq<Outcome<T>>, calls: nat, at: real, admitted: bool, outcome: Outcome<T>, over: real)
    requires B.ValidParams(p) && ValidSetting(policy, s) && Upto(log, previous)
    requires NextTold(policy, p, s, n, log, previous, at, admitted, outcome, over)
    requires AfterAttempts(policy, p, s, n) == Progress(B.After(p, log), previous, made, calls)
    ensures AfterAttempts(policy, p, s, n + 1)
      == Progress(B.After(p, log + Events(n + 1, at, admitted, outcome, over)), over, made + [outcome],
                  calls + if admitted then 1 else 0)
  {
    NextIsStep(policy, p, s, n, log, previous, at, admitted, outcome, over);
    OneMore(policy, p, s, n, Progress(B.After(p, log), previous, made, calls),
            Step(B.After(p, log + Events(n + 1, at, admitted, outcome, over)), outcome, admitted, over));
  }

  lemma OneMore<T>(policy: Policy, p: B.Params, s: Setting<T>, n: nat, reached: Progress<T>, step: Step<T>)
    requires n < |s.replies| && n < |s.draws| && reached == AfterAttempts(policy, p, s, n)
    requires step == Attempt(p, reached.breaker, reached.at + Delay(policy, s, n), s.replies[n])
    ensures AfterAttempts(policy, p, s, n + 1) == Extended(reached, step)
  {
  }

  /** So a story that is a run of the retry engine is a request that ended. */
  lemma StoryEnds<T>(policy: Policy, p: B.Params, s: Setting<T>, before: seq<B.Event>, st: Story<T>, r: Result<T>)
    requires B.ValidParams(p) && ValidSetting(policy, s) && Told(policy, p, s, before, st)
    requires Upto(before, s.now) && s.start == B.After(p, before)
    requires RunOf(policy, Made(st), r)
    ensures Ended(policy, p, s, ProgressOf(p, s.now, before, st), r)
  {
    StoryIsProgress(policy, p, s, before, st);
  }

  /** A request that ends in a value leaves the breaker closed, with no failure counted. */
  lemma ValueCloses<T>(p: B.Params, before: seq<B.Event>, st: Story<T>)
    requires B.ValidParams(p) && B.Timed(LogAfter(before, st)) && st.Then? && st.admitted && st.outcome.Returned?
    ensures B.After(p, LogAfter(before, st)).state.CLOSED? && B.After(p, LogAfter(before, st)).failureCount == 0
  {
    B.StateFromLog(p, LogAfter(before, st));
  }

  /**
    The loop itself: its attempts are a run of the retry engine, what it leaves in the breaker's log is
    their story, and one retry is recorded for each attempt beyond the first.
  */
  method ExecuteGuarded<T>(policy: Policy, breaker: B.Breaker, metrics: M.Counters, now: real, replies: seq<Reply<T>>, draws: seq<real>)
    returns (r: Result<T>, calls: nat, later: real, ghost st: Story<T>)
    requires breaker.Valid() && breaker.Now(now)
    requires ValidSetting(policy, Setting(breaker.Contents(), now, replies, draws))
    modifies breaker, metrics
    ensures breaker.Valid()
    ensures Leaves(policy, breaker.p, Setting(old(breaker.Contents()), now, replies, draws), old(breaker.log), st, r,
                   breaker.log, later, calls)
    ensures metrics.Contents() == RetriedTimes(old(metrics.Contents()), if st.Begun? then 0 else Length(st) - 1)
  {
    var allowed := Allowed(policy);
    ghost var recorded := 0;
    ghost var s := Setting(breaker.Contents(), now, replies, draws);
    var last: Option<Error> := None;
    calls, later, st := 0, now, Begun;
    NothingMade(policy, breaker.p, s, breaker.log, st);
    for attempt := 1 to allowed + 1
      invariant breaker.Valid() && breaker.Now(later)
      invariant Going(policy, breaker.p, s, old(breaker.log), st, attempt - 1, breaker.log, later, calls, last)
      invariant metrics.Contents() == RetriedTimes(old(metrics.Contents()), recorded)
      invariant recorded == if attempt <= allowed || attempt == 1 then attempt - 1 else attempt - 2
    {
      var outcome;
      outcome, calls, later, st := Try(policy, breaker, s, attempt, later, draws, replies[attempt - 1], old(breaker.log), st, calls, last);
      if !Retries(policy, outcome) {
        return Final(outcome), calls, later, st;
      }
      last := Some(outcome.error);
      if attempt < allowed {
        metrics.RecordRetry();
        recorded := recorded + 1;
      }
    }
    OutOfAttempts(policy, breaker.p, s, old(breaker.log), st, breaker.log, later, calls, last);
    r := RetryExceeded(last);
  }

  /** One round of the loop: the delay, then the attempt. */
  method Try<T>(policy: Policy, breaker: B.Breaker, ghost s: Setting<T>, attempt: nat, now: real, draws: seq<real>, reply: Reply<T>,
                ghost before: seq<B.Event>, ghost st: Story<T>, calls: nat, ghost last: Option<Error>)
    returns (outcome: Outcome<T>, calls': nat, later: real, ghost st': Story<T>)
    requires breaker.Valid() && breaker.Now(now) && ValidSetting(policy, s)
    requires 1 <= attempt <= Allowed(policy) && draws == s.draws && reply == s.replies[attempt - 1]
    requires Going(policy, breaker.p, s, before, st, attempt - 1, breaker.log, now, calls, last)
    modifies breaker
    ensures breaker.Valid() && breaker.Now(later) && Length(st') == attempt
    ensures if Retries(policy, outcome)
            then Going(policy, breaker.p, s, before, st', attempt, breaker.log, later, calls', Some(outcome.error))
            else Leaves(policy, breaker.p, s, before, st', Final(outcome), breaker.log, later, calls')
  {
    DelayNonNegative(policy, s, attempt - 1);
    var begun := now + if attempt == 1 then 0.0 else Backoff(policy, attempt - 1) + draws[attempt - 2];
    ghost var log := breaker.log;
    var admitted;
    outcome, admitted, later := OneAttempt(breaker, attempt, begun, reply);
    st' := Then(st, begun, admitted, outcome, later);
    calls' := if admitted then calls + 1 else calls;
    StandingNext(policy, breaker.p, s, before, st, attempt - 1, log, now, calls, begun, admitted, outcome, later);
    GoesOn(policy, breaker.p, s, before, st', attempt, breaker.log, later, calls');
  }

  /** `n` attempts are told, and this is where they leave the log, the clock and the count of calls. */
  ghost predicate Standing<T>(policy: Policy, p: B.Params, s: Setting<T>, before: seq<B.Event>, st: Story<T>,
                              n: nat, log: seq<B.Event>, later: real, calls: nat) {
    && Told(policy, p, s, before, st) && Length(st) == n
    && log == LogAfter(before, st) && later == EndOf(s.now, st) && calls == Calls(st)
  }

  /** The loop goes on: every attempt so far asked for another, the last because of `last`. */
  ghost predicate Going<T>(policy: Policy, p: B.Params, s: Setting<T>, before: seq<B.Event>, st: Story<T>,
                           n: nat, log: seq<B.Event>, later: real, calls: nat, last: Option<Error>) {
    Standing(policy, p, s, before, st, n, log, later, calls) && Retrying(policy, st) && last == LastError(st)
  }

  lemma NothingMade<T>(policy: Policy, p: B.Params, s: Setting<T>, before: seq<B.Event>, st: Story<T>)
    requires st == Begun
    ensures Going(policy, p, s, before, st, 0, before, s.now, 0, None)
  {
  }

  /** After an attempt the loop goes on, or it is over with its result. */
  lemma GoesOn<T>(policy: Policy, p: B.Params, s: Setting<T>, before: seq<B.Event>, st: Story<T>,
                  n: nat, log: seq<B.Event>, later: real, calls: nat)
    requires Standing(policy, p, s, before, st, n, log, later, calls) && n <= Allowed(policy)
    requires st.Then? && Retrying(policy, st.earlier)
    ensures if Retries(policy, st.outcome) then Going(policy, p, s, before, st, n, log, later, calls, Some(st.outcome.error))
            else Leaves(policy, p, s, before, st, Final(st.outcome), log, later, calls)
  {
    if !Retries(policy, st.outcome) {
      StopsHere(policy, p, s, before, st, n, log, later, calls);
    }
  }

  lemma StandingNext<T>(policy: Policy, p: B.Params, s: Setting<T>, before: seq<B.Event>, st: Story<T>,
                        n: nat, log: seq<B.Event>, previous: real, calls: nat,
                        at: real, admitted: bool, outcome: Outcome<T>, over: real)
    requires Standing(policy, p, s, before, st, n, log, previous, calls)
    requires NextTold(policy, p, s, n, log, previous, at, admitted, outcome, over)
    ensures Standing(policy, p, s, before, Then(st, at, admitted, outcome, over), n + 1,
                     log + Events(n + 1, at, admitted, outcome, over), over, if admitted then calls + 1 else calls)
  {
  }

  /** What `execute` makes of an outcome it does not retry. */
  function Final<T>(o: Outcome<T>): Result<T> {
    if o.Returned? then Value(o.value) else Propagated(o.error)
  }

  /** Every attempt so far asked for another. */
  ghost predicate Retrying<T>(policy: Policy, st: Story<T>) {
    st.Then? ==> Retries(policy, st.outcome) && Retrying(policy, st.earlier)
  }

  ghost function LastError<T>(st: Story<T>): Option<Error> {
    if st.Then? && st.outcome.Raised? then Some(st.outcome.error) else None
  }

  lemma {:induction false} RetryingMade<T>(policy: Policy, st: Story<T>)
    requires Retrying(policy, st)
    ensures forall k | 0 <= k < |Made(st)| :: Made(st)[k].Raised? && Made(st)[k].error in policy.retryable
  {
    if st.Then? {
      RetryingMade(policy, st.earlier);
    }
  }

  /** What a request leaves: its story in the breaker's log, and a result that is a run of the retry engine. */
  ghost predicate Leaves<T>(policy: Policy, p: B.Params, s: Setting<T>, before: seq<B.Event>, st: Story<T>, r: Result<T>,
                            log: seq<B.Event>, later: real, calls: nat) {
    && Told(policy, p, s, before, st) && RunOf(policy, Made(st), r)
    && log == LogAfter(before, st) && later == EndOf(s.now, st) && calls == Calls(st)
    && (r.Value? ==> st.Then? && st.admitted && st.outcome == Returned(r.value))
  }

  lemma StopsHere<T>(policy: Policy, p: B.Params, s: Setting<T>, before: seq<B.Event>, st: Story<T>, n: nat,
                     log: seq<B.Event>, later: real, calls: nat)
    requires Standing(policy, p, s, before, st, n, log, later, calls) && n <= Allowed(policy)
    requires st.Then? && Retrying(policy, st.earlier) && !Retries(policy, st.outcome)
    ensures Leaves(policy, p, s, before, st, Final(st.outcome), log, later, calls)
  {
    RetryingMade(policy, st.earlier);
  }

  lemma OutOfAttempts<T>(policy: Policy, p: B.Params, s: Setting<T>, before: seq<B.Event>, st: Story<T>,
                         log: seq<B.Event>, later: real, calls: nat, last: Option<Error>)
    requires Going(policy, p, s, before, st, Allowed(policy), log, later, calls, last)
    ensures Leaves(policy, p, s, before, st, RetryExceeded(last), log, later, calls)
    ensures Length(st) == Allowed(policy)
  {
    RetryingMade(policy, st);
  }

  function RetriedTimes(m: M.Metrics, n: nat): M.Metrics {
    m.(retries := m.retries + n)
  }

  /** The limiter once, then the retry loop; no answer while it still waits when `sleeps` runs out. */
  method RateLimitedCall<T>(policy: Policy, limiter: L.Limiter, breaker: B.Breaker, metrics: M.Counters, id: nat, now: real,
                            sleeps: seq<L.Sleep>, replies: seq<Reply<T>>, draws: seq<real>)
    returns (answer: Option<Result<T>>, ghost st: Story<T>)
    requires limiter.Valid() && limiter.updatedAt <= now && breaker.Valid() && breaker.Now(now)
    requires forall m | 0 <= m < |sleeps| :: L.ValidSleep(limiter.p, sleeps[m])
    requires ValidSetting(policy, Setting(breaker.Contents(), now, replies, draws))
    modifies limiter, breaker, metrics
    ensures limiter.Valid() && breaker.Valid() && |limiter.log| > |old(limiter.log)|
    ensures answer.Some? <==> L.Granted(limiter.p, limiter.start, limiter.log, |limiter.log| - 1)
    ensures breaker.log == LogAfter(old(breaker.log), st)
    ensures Told(policy, breaker.p, Setting(old(breaker.Contents()), limiter.updatedAt, replies, draws), old(breaker.log), st)
    ensures if answer.None? then st.Begun? else RunOf(policy, Made(st), answer.value)
    ensures answer.Some? && answer.value.Value? ==> breaker.state.CLOSED? && breaker.failureCount == 0
    ensures metrics.Contents() == RetriedTimes(old(metrics.Contents()), if st.Begun? then 0 else Length(st) - 1)
  {
    st := Begun;
    answer := None;
    var ok, checks := limiter.Acquire(id, 1.0, now, sleeps);
    if ok {
      ghost var log := breaker.log;
      var r, calls, later;
      r, calls, later, st := ExecuteGuarded(policy, breaker, metrics, limiter.updatedAt, replies, draws);
      if r.Value? {
        ValueCloses(breaker.p, log, st);
      }
      answer := Some(r);
    }
  }

  /**
    The whole request: counted open, let through by the limiter once, retried under the breaker, and
    counted by how it ended. What it leaves in the breaker's log is the story of its attempts; a value
    leaves the breaker closed with no failure counted.
  */
  method Request<T>(policy: Policy, limiter: L.Limiter, breaker: B.Breaker, metrics: M.Counters, id: nat, now: real,
                    sleeps: seq<L.Sleep>, replies: seq<Reply<T>>, draws: seq<real>)
    returns (answer: Option<Result<T>>, ghost st: Story<T>)
    requires limiter.Valid() && limiter.updatedAt <= now && breaker.Valid() && breaker.Now(now)
    requires forall m | 0 <= m < |sleeps| :: L.ValidSleep(limiter.p, sleeps[m])
    requires ValidSetting(policy, Setting(breaker.Contents(), now, replies, draws))
    modifies limiter, breaker, metrics
    ensures limiter.Valid() && breaker.Valid() && |limiter.log| > |old(limiter.log)|
    ensures answer.Some? <==> L.Granted(limiter.p, limiter.start, limiter.log, |limiter.log| - 1)
    ensures breaker.log == LogAfter(old(breaker.log), st)
    ensures Told(policy, breaker.p, Setting(old(breaker.Contents()), limiter.updatedAt, replies, draws), old(breaker.log), st)
    ensures if answer.None? then st.Begun? else RunOf(policy, Made(st), answer.value)
    ensures answer.Some? && answer.value.Value? ==> breaker.state.CLOSED? && breaker.failureCount == 0
    ensures old(metrics.open) >= 0 ==> metrics.open == old(metrics.open) + if answer.None? then 1 else 0
    ensures metrics.total == old(metrics.total) + (if answer.None? then 0 else 1)
    ensures metrics.successful == old(metrics.successful) + (if answer.Some? && answer.value.Value? then 1 else 0)
    ensures metrics.failed == old(metrics.failed) + (if answer.Some? && !answer.value.Value? then 1 else 0)
    ensures metrics.retries == old(metrics.retries) + (if st.Begun? then 0 else Length(st) - 1)
  {
    metrics.RecordRequestStart();
    answer, st := RateLimitedCall(policy, limiter, breaker, metrics, id, now, sleeps, replies, draws);
    if answer.Some? {
      metrics.RecordRequestEnd(answer.value.Value?);
    }
  }

  /** One attempt on the breaker object: its gate, the transport, and how it settles. */
  method OneAttempt<T>(breaker: B.Breaker, ghost id: nat, now: real, reply: Reply<T>)
    returns (outcome: Outcome<T>, admitted: bool, later: real)
    requires breaker.Valid() && breaker.Now(now) && reply.takes >= 0.0
    modifies breaker
    ensures breaker.Valid() && breaker.Now(later)
    ensures breaker.log == old(breaker.log) + Events(id, now, admitted, outcome, later)
    ensures later == now + (if admitted then reply.takes else 0.0)
    ensures outcome == if admitted then reply.outcome else Raised(CircuitOpen)
    ensures admitted <==> LetThrough(breaker.p, old(breaker.log), now)
  {
    admitted := breaker.AdmitCall(id, now);
    later := now;
    if !admitted {
      outcome := Raised(CircuitOpen);
    } else {
      later := now + reply.takes;
      outcome := reply.outcome;
      if outcome.Returned? {
        breaker.CallSucceeded(id, later);
      } else {
        breaker.CallFailed(id, later);
      }
    }
  }

  // ---------- A failing host ----------

  /** Sum of the delays before attempts m + 1 to n. */
  function Slept<T>(policy: Policy, s: Setting<T>, m: nat, n: nat): real
    requires m <= n <= |s.draws| + 1
  {
    if m == n then 0.0 else Slept(policy, s, m, n - 1) + Delay(policy, s, n - 1)
  }

  /** The transport fails on every attempt, with errors the policy retries. */
  ghost predicate Failing<T>(policy: Policy, s: Setting<T>) {
    forall k | 0 <= k < |s.replies| :: Retries(policy, s.replies[k].outcome)
  }

  /** The breaker has just opened. */
  ghost predicate Tripped<T>(s: Progress<T>) {
    s.breaker.state.OPEN? && s.breaker.openedAt == s.at
  }

  /** Before the threshold is reached, every attempt is a transport call and a counted failure. */
  lemma {:induction false} WhileClosed<T>(policy: Policy, p: B.Params, s: Setting<T>, n: nat)
    requires B.ValidParams(p) && Failing(policy, s) && n <= |s.replies| && n <= |s.draws|
    requires s.start.state.CLOSED? && s.start.failureCount + n <= p.threshold && s.start.failureCount < p.threshold
    ensures
      var reached := AfterAttempts(policy, p, s, n);
      && reached.calls == n && reached.breaker.failureCount == s.start.failureCount + n
      && |reached.made| == n && (forall k | 0 <= k < n :: Retries(policy, reached.made[k]))
      && if s.start.failureCount + n < p.threshold then reached.breaker.state.CLOSED?
         else Tripped(reached)
  {
    if n > 0 {
      WhileClosed(policy, p, s, n - 1);
      assert Retries(policy, s.replies[n - 1].outcome);
    }
  }

  /** Earlier attempts keep their outcomes and their transport calls. */
  lemma {:induction false} EarlierAttempts<T>(policy: Policy, p: B.Params, s: Setting<T>, m: nat, n: nat)
    requires m <= n <= |s.replies| && n <= |s.draws|
    ensures |AfterAttempts(policy, p, s, m).made| == m && |AfterAttempts(policy, p, s, n).made| == n
    ensures AfterAttempts(policy, p, s, n).made[..m] == AfterAttempts(policy, p, s, m).made
    ensures AfterAttempts(policy, p, s, m).calls <= AfterAttempts(policy, p, s, n).calls
  {
    MadeCount(policy, p, s, n);
    MadeCount(policy, p, s, m);
    if m < n {
      EarlierAttempts(policy, p, s, m, n - 1);
    }
  }

  /** Every attempt on a failing host ends in a retryable error or is refused by the breaker. */
  lemma {:induction false} FailsOrRefused<T>(policy: Policy, p: B.Params, s: Setting<T>, n: nat, k: nat)
    requires Failing(policy, s) && k < n <= |s.replies| && n <= |s.draws|
    ensures |AfterAttempts(policy, p, s, n).made| == n
    ensures
      var outcome := AfterAttempts(policy, p, s, n).made[k];
      Retries(policy, outcome) || outcome == Raised(CircuitOpen)
  {
    MadeCount(policy, p, s, n);
    EarlierAttempts(policy, p, s, k + 1, n);
    assert AfterAttempts(policy, p, s, n).made[..k + 1][k] == AfterAttempts(policy, p, s, n).made[k];
    MadeCount(policy, p, s, k);
    assert Retries(policy, s.replies[k].outcome);
  }

  /** How a request stands `slept` seconds of delays after the breaker opened. */
  ghost predicate SinceTripped<T>(p: B.Params, tripped: Progress<T>, reached: Progress<T>, slept: real) {
    if slept < p.recovery then
      && reached.calls == tripped.calls && reached.breaker == tripped.breaker && reached.at == tripped.at + slept
      && (reached != tripped ==> reached.made != [] && reached.made[|reached.made| - 1] == Raised(CircuitOpen))
    else reached.calls > tripped.calls
  }

  lemma OpenAttempt<T>(p: B.Params, tripped: Progress<T>, before: Progress<T>, slept: real, delay: real, reply: Reply<T>)
    requires B.ValidParams(p) && Tripped(tripped) && delay >= 0.0
    requires SinceTripped(p, tripped, before, slept)
    ensures SinceTripped(p, tripped, Extended(before, Attempt(p, before.breaker, before.at + delay, reply)), slept + delay)
  {
  }

  /**
    The breaker opened with attempt `m`. As long as the delays since then add up to less than the
    recovery timeout it refuses every attempt; as soon as they do not, the transport is called again.
  */
  lemma {:induction false} WhileOpen<T>(policy: Policy, p: B.Params, s: Setting<T>, m: nat, n: nat)
    requires B.ValidParams(p) && ValidSetting(policy, s) && m <= n <= |s.replies| && n <= |s.draws|
    requires Tripped(AfterAttempts(policy, p, s, m))
    ensures SinceTripped(p, AfterAttempts(policy, p, s, m), AfterAttempts(policy, p, s, n), Slept(policy, s, m, n))
  {
    if n > m {
      var before := AfterAttempts(policy, p, s, n - 1);
      WhileOpen(policy, p, s, m, n - 1);
      DelayNonNegative(policy, s, n - 1);
      OpenAttempt(p, AfterAttempts(policy, p, s, m), before, Slept(policy, s, m, n - 1), Delay(policy, s, n - 1),
                  s.replies[n - 1]);
    }
  }

  /** A request on a failing host that ended made at least `m` attempts, or all it was allowed. */
  lemma FailingEndsLate<T>(policy: Policy, p: B.Params, s: Setting<T>, reached: Progress<T>, r: Result<T>)
    requires B.ValidParams(p) && ValidSetting(policy, s) && Failing(policy, s)
    requires s.start.state.CLOSED? && s.start.failureCount < p.threshold
    requires Ended(policy, p, s, reached, r)
    ensures
      var m := p.threshold - s.start.failureCount;
      if Allowed(policy) <= m then |reached.made| == reached.calls == Allowed(policy) && r.RetryExceeded?
      else m < |reached.made| <= Allowed(policy)
  {
    var n := |reached.made|;
    if n <= p.threshold - s.start.failureCount {
      WhileClosed(policy, p, s, n);
    }
  }

  /**
    The transport always fails retryably and nobody else calls the host. Starting CLOSED with `f`
    failures, the request makes exactly min(allowed attempts, threshold - f) transport calls if and
    only if it has no attempts left when the breaker opens, or the delays that follow stay below the
    recovery timeout: the next one alone when CircuitOpen ends the request, all of them when the
    policy retries CircuitOpen too.
  */
  lemma FailingRequestCalls<T>(policy: Policy, p: B.Params, s: Setting<T>, reached: Progress<T>, r: Result<T>)
    requires B.ValidParams(p) && ValidSetting(policy, s) && Failing(policy, s)
    requires s.start.state.CLOSED? && s.start.failureCount < p.threshold
    requires Ended(policy, p, s, reached, r)
    ensures
      var m := p.threshold - s.start.failureCount;
      var least := if Allowed(policy) <= m then Allowed(policy) else m;
      reached.calls >= least
      && (reached.calls == least <==>
            || Allowed(policy) <= m
            || Slept(policy, s, m, if CircuitOpen in policy.retryable then Allowed(policy) else m + 1) < p.recovery)
  {
    var m := p.threshold - s.start.failureCount;
    var n := |reached.made|;
    FailingEndsLate(policy, p, s, reached, r);
    if m < Allowed(policy) {
      WhileClosed(policy, p, s, m);
      EarlierAttempts(policy, p, s, m + 1, n);
      WhileOpen(policy, p, s, m, m + 1);
      WhileOpen(policy, p, s, m, n);
      FailsOrRefused(policy, p, s, n, n - 1);
      assert reached.made[..m + 1][m] == reached.made[m];
    }
  }

  /**
    Under a policy that does not retry CircuitOpen, with every delay shorter than the recovery timeout:
    exactly min(allowed attempts, threshold - f) transport calls, ending in RetryExceeded if the
    attempts run out first and in CircuitOpen otherwise.
  */
  lemma FailingRequestEnds<T>(policy: Policy, p: B.Params, s: Setting<T>, reached: Progress<T>, r: Result<T>)
    requires B.ValidParams(p) && ValidSetting(policy, s) && Failing(policy, s)
    requires s.start.state.CLOSED? && s.start.failureCount < p.threshold
    requires Ended(policy, p, s, reached, r) && CircuitOpen !in policy.retryable
    requires forall k | 0 <= k <= |s.draws| :: Delay(policy, s, k) < p.recovery
    ensures
      var m := p.threshold - s.start.failureCount;
      if Allowed(policy) <= m then reached.calls == Allowed(policy) && r.RetryExceeded?
      else reached.calls == m && r == Propagated(CircuitOpen)
  {
    var m := p.threshold - s.start.failureCount;
    FailingEndsLate(policy, p, s, reached, r);
    FailingRequestCalls(policy, p, s, reached, r);
    if m < Allowed(policy) {
      WhileClosed(policy, p, s, m);
      EarlierAttempts(policy, p, s, m + 1, |reached.made|);
      WhileOpen(policy, p, s, m, m + 1);
      assert reached.made[..m + 1][m] == reached.made[m] == Raised(CircuitOpen);
    }
  }

  /** Attempts of a policy whose `retryable_exceptions` cover CircuitOpen, on a breaker of threshold 1. */
  function ImpatientPolicy(): Policy {
    Policy(3, 20.0, 20.0, 0.0, {NetworkTimeout, CircuitOpen})
  }

  function ThreeTimeouts(): Setting<int> {
    var timeout := Reply(Raised(NetworkTimeout), 0.0);
    Setting(B.Initial(), 0.0, [timeout, timeout, timeout], [0.0, 0.0, 0.0])
  }

  /**
    "Every backoff is shorter than the recovery timeout" is not enough when the policy retries
    CircuitOpen, as one with the default `retryable_exceptions` does: two delays of 20 seconds
    outlast a recovery timeout of 30, and the third attempt reaches the transport a second time.
  */
  lemma ShortBackoffsAreNotEnough()
    ensures
      var policy, p, s := ImpatientPolicy(), B.Params(1, 30.0, 1), ThreeTimeouts();
      && ValidSetting(policy, s) && Failing(policy, s)
      && (forall k | 0 <= k <= 3 :: Delay(policy, s, k) < p.recovery)
      && AfterAttempts(policy, p, s, 3).calls > p.threshold - s.start.failureCount
  {
    var policy, p, s := ImpatientPolicy(), B.Params(1, 30.0, 1), ThreeTimeouts();
    forall k | 0 <= k <= 3 ensures Delay(policy, s, k) <= 20.0 {
      if k > 0 {
        assert s.draws[k - 1] == 0.0;
      }
    }
    WhileClosed(policy, p, s, 1);
    assert Delay(policy, s, 1) == 20.0 && Delay(policy, s, 2) == 20.0;
    assert Slept(policy, s, 1, 3) == Slept(policy, s, 1, 2) + 20.0 == 40.0;
    WhileOpen(policy, p, s, 1, 3);
  }
}
