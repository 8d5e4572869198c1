/**
  Concurrent requests of one session, as a transition system: each request takes the limiter of its
  host once, then tries under the breaker of its host until its policy says stop, and the metrics
  count it. Every await is a boundary between actions, so any interleaving of any number of requests
  is a run.
*/
module RequestAccounting {
  import opened Wrappers
  import opened Sums
  import opened NetworkMetrics
  import opened RetryPolicy
  import B = CircuitBreaker
  import L = RateLimiter

  /** `mostAttempts` bounds the attempts of every policy a request may bring. */
  datatype Settings = Settings(limiter: L.Params, breaker: B.Params, mostAttempts: nat)

  ghost predicate ValidSettings(c: Settings) {
    L.ValidParams(c.limiter) && B.ValidParams(c.breaker)
  }

  /** What the session keeps per host, with the log of its transport calls. */
  datatype Host = Host(start: real, limiter: seq<L.Check>, breaker: seq<B.Event>, calls: seq<real>)

  datatype Phase =
    | Acquiring
    | Attempting(used: nat)
    | Calling(used: nat, call: nat)
    | Failing(used: nat, error: Error)
    | Succeeding(used: nat)
    | Over(used: nat, success: bool)

  datatype Request = Request(host: string, policy: Policy, phase: Phase)

  datatype Session = Session(hosts: map<string, Host>, requests: seq<Request>, metrics: Metrics, clock: real)

  datatype Action =
    | Begin(host: string, policy: Policy)
    | Check(id: nat)
    | Attempt(id: nat)
    | Settle(id: nat, failure: Option<Error>)
    | Retry(id: nat)
    | End(id: nat)

  function Init(now: real): Session {
    Session(map[], [], NoRequests(), now)
  }

  // ---------- Steps ----------

  /** The host's limiter and breaker, created on first use. */
  function HostFor(s: Session, host: string, now: real): Host {
    if host in s.hosts then s.hosts[host] else Host(now, [], [], [])
  }

  /** The request gives up: its last error is not retried, or no attempt is left, or none was allowed. */
  predicate GivesUp(r: Request) {
    match r.phase
    case Failing(used, error) => error !in r.policy.retryable || used >= Allowed(r.policy)
    case Attempting(used) => used >= Allowed(r.policy)
    case _ => false
  }

  /** The step is the request's own next one. */
  predicate NextOf(r: Request, a: Action) {
    match a
    case Begin(_, _) => false
    case Check(_) => r.phase.Acquiring?
    case Attempt(_) => r.phase.Attempting? && !GivesUp(r)
    case Settle(_, _) => r.phase.Calling?
    case Retry(_) => r.phase.Failing? && !GivesUp(r)
    case End(_) => GivesUp(r) || r.phase.Succeeding?
  }

  predicate Enabled(c: Settings, s: Session, a: Action) {
    if a.Begin? then Allowed(a.policy) <= c.mostAttempts
    else a.id < |s.requests| && s.requests[a.id].host in s.hosts && NextOf(s.requests[a.id], a)
  }

  function Checked(h: Host, id: nat, now: real): Host {
    h.(limiter := h.limiter + [L.Check(id, now, 1.0)])
  }

  function GrantedNow(c: Settings, h: Host, now: real): bool {
    L.Grants(c.limiter, L.After(c.limiter, h.start, h.limiter), now, 1.0)
  }

  /** The host after an attempt: the breaker saw it, and the transport was called if it was let through. */
  function Tried(c: Settings, h: Host, now: real): Host {
    h.(breaker := h.breaker + [B.Attempted(|h.breaker|, now)],
       calls := if B.Admits(c.breaker, h.breaker, now) then h.calls + [now] else h.calls)
  }

  function Settled(h: Host, call: nat, success: bool, now: real): Host {
    h.(breaker := h.breaker + [if success then B.Succeeded(call, now) else B.Failed(call, now)])
  }

  /** The phase a request is in after its own step. */
  function NextPhase(c: Settings, h: Host, phase: Phase, a: Action, now: real): Phase {
    match (phase, a)
    case (Acquiring, Check(_)) => if GrantedNow(c, h, now) then Attempting(0) else Acquiring
    case (Attempting(used), Attempt(_)) =>
      if B.Admits(c.breaker, h.breaker, now) then Calling(used + 1, |h.breaker|) else Failing(used + 1, CircuitOpen)
    case (Calling(used, _), Settle(_, failure)) =>
      if failure.None? then Succeeding(used) else Failing(used, failure.value)
    case (Failing(used, _), Retry(_)) => Attempting(used)
    case (Failing(used, _), End(_)) => Over(used, false)
    case (Attempting(used), End(_)) => Over(used, false)
    case (Succeeding(used), End(_)) => Over(used, true)
    case _ => phase
  }

  function NextHost(c: Settings, h: Host, phase: Phase, a: Action, now: real): Host {
    match a
    case Check(id) => Checked(h, id, now)
    case Attempt(_) => Tried(c, h, now)
    case Settle(_, failure) => if phase.Calling? then Settled(h, phase.call, failure.None?, now) else h
    case _ => h
  }

  function NextMetrics(m: Metrics, phase: Phase, a: Action): Metrics {
    match a
    case Retry(_) => Retried(m)
    case End(_) => Ended(m, phase.Succeeding?)
    case _ => m
  }

  function Apply(c: Settings, s: Session, a: Action, now: real): Session
    requires Enabled(c, s, a)
  {
    if a.Begin? then
      Session(s.hosts[a.host := HostFor(s, a.host, now)], s.requests + [Request(a.host, a.policy, Acquiring)],
              Started(s.metrics), now)
    else
      var r := s.requests[a.id];
      var h := s.hosts[r.host];
      Session(s.hosts[r.host := NextHost(c, h, r.phase, a, now)],
              s.requests[a.id := r.(phase := NextPhase(c, h, r.phase, a, now))],
              NextMetrics(s.metrics, r.phase, a), now)
  }

  // ---------- Runs ----------

  datatype Step = Step(action: Action, at: real)

  ghost predicate Run(c: Settings, s: Session, steps: seq<Step>, t: Session)
    decreases |steps|
  {
    if steps == [] then s == t
    else
      && s.clock <= steps[0].at && Enabled(c, s, steps[0].action)
      && Run(c, Apply(c, s, steps[0].action, steps[0].at), steps[1..], t)
  }

  // ---------- The metrics are a function of the requests ----------

  function IsOpen(r: Request): nat {
    if r.phase.Over? then 0 else 1
  }

  function IsOver(r: Request): nat {
    1 - IsOpen(r)
  }

  function EndedWell(r: Request): nat {
    if r.phase.Over? && r.phase.success then 1 else 0
  }

  function EndedBadly(r: Request): nat {
    if r.phase.Over? && !r.phase.success then 1 else 0
  }

  /** Retries a request has made: attempts used beyond the first, or all of them while it is about to try again. */
  function RetriesMade(r: Request): nat {
    match r.phase
    case Acquiring => 0
    case Attempting(used) => used
    case _ => if r.phase.used == 0 then 0 else r.phase.used - 1
  }

  ghost predicate MetricsExact(s: Session) {
    && s.metrics.open == Total(s.requests, IsOpen)
    && s.metrics.total == Total(s.requests, IsOver)
    && s.metrics.successful == Total(s.requests, EndedWell)
    && s.metrics.failed == Total(s.requests, EndedBadly)
    && s.metrics.retries == Total(s.requests, RetriesMade)
  }

  /** A request has used at least one attempt while one is under way or has just failed. */
  ghost predicate PhaseOk(c: Settings, r: Request) {
    && Allowed(r.policy) <= c.mostAttempts
    && match r.phase
       case Acquiring => true
       case Attempting(used) => used < Allowed(r.policy) || used == Allowed(r.policy) == 0
       case Over(used, _) => used <= Allowed(r.policy)
       case _ => 1 <= r.phase.used <= Allowed(r.policy)
  }

  ghost predicate RequestsOk(c: Settings, s: Session) {
    forall k | 0 <= k < |s.requests| :: PhaseOk(c, s.requests[k]) && s.requests[k].host in s.hosts
  }

  ghost predicate Tick(c: Settings, s: Session, a: Action, now: real) {
    s.clock <= now && Enabled(c, s, a)
  }

  lemma RequestsStep(c: Settings, s: Session, a: Action, now: real)
    requires Tick(c, s, a, now) && RequestsOk(c, s)
    ensures RequestsOk(c, Apply(c, s, a, now))
  {
  }

  /** What one step does to the numbers the metrics count. */
  lemma CountsOfOne(c: Settings, h: Host, r: Request, a: Action, now: real)
    requires PhaseOk(c, r) && NextOf(r, a)
    ensures
      var r' := r.(phase := NextPhase(c, h, r.phase, a, now));
      var ended := if a.End? then 1 else 0;
      && IsOpen(r') + ended == IsOpen(r) && IsOver(r') == IsOver(r) + ended
      && EndedWell(r') == EndedWell(r) + (if a.End? && r.phase.Succeeding? then 1 else 0)
      && EndedBadly(r') == EndedBadly(r) + (if a.End? && !r.phase.Succeeding? then 1 else 0)
      && RetriesMade(r') == RetriesMade(r) + (if a.Retry? then 1 else 0)
  {
  }

  lemma MetricsStep(c: Settings, s: Session, a: Action, now: real)
    requires Tick(c, s, a, now) && RequestsOk(c, s) && MetricsExact(s)
    ensures MetricsExact(Apply(c, s, a, now))
  {
    if a.Begin? {
      var r := Request(a.host, a.policy, Acquiring);
      TotalAppend(s.requests, r, IsOpen);
      TotalAppend(s.requests, r, IsOver);
      TotalAppend(s.requests, r, EndedWell);
      TotalAppend(s.requests, r, EndedBadly);
      TotalAppend(s.requests, r, RetriesMade);
    } else {
      var r := s.requests[a.id];
      var h := s.hosts[r.host];
      var r' := r.(phase := NextPhase(c, h, r.phase, a, now));
      CountsOfOne(c, h, r, a, now);
      TotalUpdate(s.requests, a.id, r', IsOpen);
      TotalUpdate(s.requests, a.id, r', IsOver);
      TotalUpdate(s.requests, a.id, r', EndedWell);
      TotalUpdate(s.requests, a.id, r', EndedBadly);
      TotalUpdate(s.requests, a.id, r', RetriesMade);
      MemberWeighs(s.requests, a.id, IsOpen);
    }
  }

  // ---------- Transport calls cost grants ----------

  /** The limiter was asked for one token at a time, and nothing in the logs is later than the clock. */
  ghost predicate HostOk(c: Settings, h: Host, clock: real) {
    && h.start <= clock
    && L.ValidLog(c.limiter, h.start, h.limiter)
    && (forall k | 0 <= k < |h.limiter| :: h.limiter[k].at <= clock && h.limiter[k].want == 1.0)
    && B.Timed(h.breaker)
    && (forall k | 0 <= k < |h.breaker| :: h.breaker[k].at <= clock)
  }

  ghost predicate HostsOk(c: Settings, s: Session) {
    forall host | host in s.hosts :: HostOk(c, s.hosts[host], s.clock)
  }

  lemma HostOkLater(c: Settings, h: Host, clock: real, now: real)
    requires HostOk(c, h, clock) && clock <= now
    ensures HostOk(c, h, now)
  {
  }

  lemma HostOkStep(c: Settings, h: Host, phase: Phase, a: Action, clock: real, now: real)
    requires ValidSettings(c) && HostOk(c, h, clock) && clock <= now
    ensures HostOk(c, NextHost(c, h, phase, a, now), now)
  {
  }

  lemma HostsStep(c: Settings, s: Session, a: Action, now: real)
    requires ValidSettings(c) && Tick(c, s, a, now) && HostsOk(c, s)
    ensures HostsOk(c, Apply(c, s, a, now))
  {
    var t := Apply(c, s, a, now);
    forall host | host in t.hosts ensures HostOk(c, t.hosts[host], now) {
      if host in s.hosts {
        HostOkLater(c, s.hosts[host], s.clock, now);
        if !a.Begin? {
          HostOkStep(c, s.hosts[host], s.requests[a.id].phase, a, s.clock, now);
        }
      }
    }
  }

  /** Attempts a granted request on `host` may still make, out of `most`. */
  function Credit(host: string, most: nat): Request -> nat {
    (r: Request) => if r.host == host then Unused(r.phase, most) else 0
  }

  function Unused(phase: Phase, most: nat): nat {
    match phase
    case Acquiring => 0
    case Over(_, _) => 0
    case Succeeding(_) => 0
    case _ => if phase.used <= most then most - phase.used else 0
  }

  function Grants(c: Settings, h: Host): nat {
    L.GrantCount(c.limiter, h.start, h.limiter, 0, |h.limiter|)
  }

  /** Each grant allows another `most` attempts. */
  function Allowance(most: nat, grants: nat): nat {
    if grants == 0 then 0 else Allowance(most, grants - 1) + most
  }

  /** Transport calls made, plus attempts still owed to granted requests, against what the grants allow. */
  ghost predicate WithinBudget(c: Settings, s: Session, host: string) {
    host in s.hosts ==>
      |s.hosts[host].calls| + Total(s.requests, Credit(host, c.mostAttempts))
      <= Allowance(c.mostAttempts, Grants(c, s.hosts[host]))
  }

  lemma GrantsAfterCheck(c: Settings, h: Host, id: nat, now: real)
    ensures Grants(c, Checked(h, id, now)) == Grants(c, h) + if GrantedNow(c, h, now) then 1 else 0
  {
    var log := Checked(h, id, now).limiter;
    assert log[..|h.limiter|] == h.limiter;
    L.GrantCountPrefix(c.limiter, h.start, h.limiter, log, 0, |h.limiter|);
  }

  /** A step of a request neither calls nor is owed more than its grant pays for. */
  lemma BudgetOfOne(c: Settings, h: Host, r: Request, a: Action, now: real)
    requires PhaseOk(c, r) && NextOf(r, a)
    ensures
      var h' := NextHost(c, h, r.phase, a, now);
      |h'.calls| + Unused(NextPhase(c, h, r.phase, a, now), c.mostAttempts) + Allowance(c.mostAttempts, Grants(c, h))
      <= |h.calls| + Unused(r.phase, c.mostAttempts) + Allowance(c.mostAttempts, Grants(c, h'))
  {
    if a.Check? {
      GrantsAfterCheck(c, h, a.id, now);
      assert Allowance(c.mostAttempts, Grants(c, h) + 1) == Allowance(c.mostAttempts, Grants(c, h)) + c.mostAttempts;
    }
  }

  lemma BudgetStep(c: Settings, s: Session, a: Action, now: real, host: string)
    requires Tick(c, s, a, now) && RequestsOk(c, s) && WithinBudget(c, s, host)
    requires host !in s.hosts ==> Total(s.requests, Credit(host, c.mostAttempts)) == 0
    ensures WithinBudget(c, Apply(c, s, a, now), host)
  {
    var credit := Credit(host, c.mostAttempts);
    if a.Begin? {
      TotalAppend(s.requests, Request(a.host, a.policy, Acquiring), credit);
    } else {
      var r := s.requests[a.id];
      var h := s.hosts[r.host];
      TotalUpdate(s.requests, a.id, r.(phase := NextPhase(c, h, r.phase, a, now)), credit);
      if host == r.host {
        BudgetOfOne(c, h, r, a, now);
      }
    }
  }

  lemma NoCreditYet(c: Settings, s: Session, host: string)
    requires RequestsOk(c, s) && host !in s.hosts
    ensures Total(s.requests, Credit(host, c.mostAttempts)) == 0
  {
    AllZero(s.requests, Credit(host, c.mostAttempts));
  }

  // ---------- Calls in flight ----------

  predicate CallsOn(r: Request, host: string) {
    r.host == host && r.phase.Calling?
  }

  /** The breaker's event ids of the calls requests have under way on a host. */
  ghost function UnderWay(requests: seq<Request>, host: string): set<nat> {
    set k | 0 <= k < |requests| && CallsOn(requests[k], host) :: requests[k].phase.call
  }

  ghost predicate DistinctCalls(requests: seq<Request>, host: string) {
    forall j, k | 0 <= j < k < |requests| && CallsOn(requests[j], host) && CallsOn(requests[k], host) ::
      requests[j].phase.call != requests[k].phase.call
  }

  /** An event concerns a call numbered by the position of its admission. */
  ghost predicate Numbered(log: seq<B.Event>) {
    forall k | 0 <= k < |log| :: log[k].id <= k
  }

  /** What the breaker has in flight is exactly what requests have under way. */
  ghost predicate CallsAgree(c: Settings, s: Session, host: string) {
    host in s.hosts ==>
      var log := s.hosts[host].breaker;
      && B.WellFormed(c.breaker, log) && Numbered(log)
      && DistinctCalls(s.requests, host)
      && UnderWay(s.requests, host) == B.InFlight(c.breaker, log)
  }

  lemma InFlightNumbered(c: Settings, log: seq<B.Event>, id: nat)
    requires Numbered(log) && id in B.InFlight(c.breaker, log)
    ensures id < |log|
  {
    B.InFlightAttempted(c.breaker, log, id);
  }

  lemma WellFormedGrows(c: Settings, log: seq<B.Event>, e: B.Event)
    requires B.WellFormed(c.breaker, log) && Numbered(log) && e.id <= |log|
    requires if e.Attempted? then e.id == |log| else e.id in B.InFlight(c.breaker, log)
    ensures B.WellFormed(c.breaker, log + [e]) && Numbered(log + [e])
    ensures (log + [e])[..|log|] == log
  {
    assert (log + [e])[..|log|] == log;
    forall k | 0 <= k < |log| ensures (log + [e])[..k] == log[..k] && (log + [e])[k] == log[k] {}
  }

  lemma UnderWayChanges(requests: seq<Request>, id: nat, r': Request, host: string)
    requires id < |requests| && r'.host == requests[id].host && DistinctCalls(requests, host)
    ensures
      var r := requests[id];
      var rest := UnderWay(requests, host) - if CallsOn(r, host) then {r.phase.call} else {};
      UnderWay(requests[id := r'], host) == rest + if CallsOn(r', host) then {r'.phase.call} else {}
  {
    var r := requests[id];
    var after := requests[id := r'];
    var rest := UnderWay(requests, host) - if CallsOn(r, host) then {r.phase.call} else {};
    forall x | x in rest ensures x in UnderWay(after, host) {
      var k :| 0 <= k < |requests| && CallsOn(requests[k], host) && requests[k].phase.call == x;
      assert after[k] == requests[k];
    }
    forall x | x in UnderWay(after, host) && !(CallsOn(r', host) && x == r'.phase.call) ensures x in rest {
      var k :| 0 <= k < |after| && CallsOn(after[k], host) && after[k].phase.call == x;
      assert k != id && after[k] == requests[k];
    }
    if CallsOn(r', host) {
      assert after[id] == r';
    }
  }

  lemma CallsAgreeStep(c: Settings, s: Session, a: Action, now: real, host: string)
    requires Tick(c, s, a, now) && RequestsOk(c, s) && CallsAgree(c, s, host)
    ensures CallsAgree(c, Apply(c, s, a, now), host)
  {
    var t := Apply(c, s, a, now);
    if a.Begin? {
      UnderWayAppends(s.requests, Request(a.host, a.policy, Acquiring), host);
      if host !in s.hosts {
        NothingUnderWay(c, s, host);
      }
    } else if host in s.hosts {
      var r := s.requests[a.id];
      UnderWayChanges(s.requests, a.id, t.requests[a.id], host);
      if host == r.host {
        CallsAgreeOnHost(c, s, a, now);
      }
    }
  }

  lemma UnderWayAppends(requests: seq<Request>, r: Request, host: string)
    requires !r.phase.Calling?
    ensures UnderWay(requests + [r], host) == UnderWay(requests, host)
  {
    forall x | x in UnderWay(requests, host) ensures x in UnderWay(requests + [r], host) {
      var k :| 0 <= k < |requests| && CallsOn(requests[k], host) && requests[k].phase.call == x;
      assert (requests + [r])[k] == requests[k];
    }
  }

  lemma NothingUnderWay(c: Settings, s: Session, host: string)
    requires RequestsOk(c, s) && host !in s.hosts
    ensures UnderWay(s.requests, host) == {} && DistinctCalls(s.requests, host)
  {
  }

  lemma CallsAgreeAttempt(c: Settings, s: Session, id: nat, now: real)
    requires Tick(c, s, Attempt(id), now) && CallsAgree(c, s, s.requests[id].host)
    ensures CallsAgree(c, Apply(c, s, Attempt(id), now), s.requests[id].host)
  {
    var r := s.requests[id];
    var log := s.hosts[r.host].breaker;
    var t := Apply(c, s, Attempt(id), now);
    UnderWayChanges(s.requests, id, t.requests[id], r.host);
    WellFormedGrows(c, log, B.Attempted(|log|, now));
    forall k | 0 <= k < |s.requests| && CallsOn(s.requests[k], r.host) ensures s.requests[k].phase.call < |log| {
      assert s.requests[k].phase.call in UnderWay(s.requests, r.host);
      InFlightNumbered(c, log, s.requests[k].phase.call);
    }
  }

  lemma CallsAgreeSettle(c: Settings, s: Session, id: nat, failure: Option<Error>, now: real)
    requires Tick(c, s, Settle(id, failure), now) && CallsAgree(c, s, s.requests[id].host)
    ensures CallsAgree(c, Apply(c, s, Settle(id, failure), now), s.requests[id].host)
  {
    var r := s.requests[id];
    var log := s.hosts[r.host].breaker;
    var t := Apply(c, s, Settle(id, failure), now);
    UnderWayChanges(s.requests, id, t.requests[id], r.host);
    assert r.phase.call in UnderWay(s.requests, r.host);
    InFlightNumbered(c, log, r.phase.call);
    WellFormedGrows(c, log, if failure.None? then B.Succeeded(r.phase.call, now) else B.Failed(r.phase.call, now));
  }

  lemma CallsAgreeOnHost(c: Settings, s: Session, a: Action, now: real)
    requires Tick(c, s, a, now) && !a.Begin? && CallsAgree(c, s, s.requests[a.id].host)
    ensures CallsAgree(c, Apply(c, s, a, now), s.requests[a.id].host)
  {
    if a.Attempt? {
      CallsAgreeAttempt(c, s, a.id, now);
    } else if a.Settle? {
      CallsAgreeSettle(c, s, a.id, a.failure, now);
    } else {
      UnderWayChanges(s.requests, a.id, Apply(c, s, a, now).requests[a.id], s.requests[a.id].host);
    }
  }

  // ---------- Over whole runs ----------

  ghost predicate Inv(c: Settings, s: Session) {
    && RequestsOk(c, s) && MetricsExact(s) && HostsOk(c, s)
    && (forall host | host in s.hosts :: WithinBudget(c, s, host))
    && (forall host | host in s.hosts :: CallsAgree(c, s, host))
  }

  lemma InvStep(c: Settings, s: Session, a: Action, now: real)
    requires ValidSettings(c) && Tick(c, s, a, now) && Inv(c, s)
    ensures Inv(c, Apply(c, s, a, now))
  {
    var t := Apply(c, s, a, now);
    RequestsStep(c, s, a, now);
    MetricsStep(c, s, a, now);
    HostsStep(c, s, a, now);
    forall host | host in t.hosts ensures WithinBudget(c, t, host) {
      if host !in s.hosts {
        NoCreditYet(c, s, host);
      }
      BudgetStep(c, s, a, now, host);
    }
    forall host | host in t.hosts ensures CallsAgree(c, t, host) {
      CallsAgreeStep(c, s, a, now, host);
    }
  }

  lemma {:induction false} InvRun(c: Settings, s: Session, steps: seq<Step>, t: Session)
    requires ValidSettings(c) && Inv(c, s) && Run(c, s, steps, t)
    ensures Inv(c, t)
    decreases |steps|
  {
    if steps != [] {
      InvStep(c, s, steps[0].action, steps[0].at);
      InvRun(c, Apply(c, s, steps[0].action, steps[0].at), steps[1..], t);
    }
  }

  lemma InvReached(c: Settings, now: real, steps: seq<Step>, t: Session)
    requires ValidSettings(c) && Run(c, Init(now), steps, t)
    ensures Inv(c, t)
  {
    InvRun(c, Init(now), steps, t);
  }

  lemma {:induction false} OverSplits(requests: seq<Request>)
    ensures Total(requests, IsOver) == Total(requests, EndedWell) + Total(requests, EndedBadly)
  {
    if requests != [] {
      OverSplits(requests[1..]);
    }
  }

  /**
    After any run the metrics are what the requests say: every request that ended is counted once, as a
    success or as a failure, the open connections are the requests in flight, and the retries are the
    attempts beyond the first.
  */
  lemma RequestsAccountedFor(c: Settings, now: real, steps: seq<Step>, t: Session)
    requires ValidSettings(c) && Run(c, Init(now), steps, t)
    ensures MetricsExact(t) && t.metrics.total == t.metrics.successful + t.metrics.failed
  {
    InvReached(c, now, steps, t);
    OverSplits(t.requests);
  }

  /** The clamp of the open-connections counter never acts: a request that ends was counted open. */
  lemma ClampNeverActs(c: Settings, now: real, steps: seq<Step>, t: Session, id: nat)
    requires ValidSettings(c) && Run(c, Init(now), steps, t) && Enabled(c, t, End(id))
    ensures Ended(t.metrics, t.requests[id].phase.Succeeding?).open == t.metrics.open - 1 >= 0
  {
    InvReached(c, now, steps, t);
    EndedWasOpen(t, id);
  }

  lemma EndedWasOpen(s: Session, id: nat)
    requires MetricsExact(s) && id < |s.requests| && !s.requests[id].phase.Over?
    ensures s.metrics.open >= 1
  {
    MemberWeighs(s.requests, id, IsOpen);
  }

  lemma {:induction false} GrantsAreTokens(c: Settings, h: Host, log: seq<L.Check>, s: real, e: real)
    requires forall k | 0 <= k < |log| :: s <= log[k].at <= e && log[k].want == 1.0
    ensures L.GrantedIn(c.limiter, h.start, log, s, e) == L.GrantCount(c.limiter, h.start, log, 0, |log|) as real
  {
    if log != [] {
      var n := |log| - 1;
      GrantsAreTokens(c, h, log[..n], s, e);
      L.GrantCountPrefix(c.limiter, h.start, log[..n], log, 0, n);
    }
  }

  lemma {:induction false} TimesAddsOne(n: nat, x: real)
    ensures Times(n, x + 1.0) == Times(n, x) + n as real && Times(n, 0.0) == 0.0
  {
    if n > 0 {
      TimesAddsOne(n - 1, x);
    }
  }

  lemma {:induction false} TimesMonotone(n: nat, x: real, y: real)
    requires x <= y
    ensures Times(n, x) <= Times(n, y)
  {
    if n > 0 {
      TimesMonotone(n - 1, x, y);
    }
  }

  lemma {:induction false} AllowanceIs(most: nat, grants: nat)
    ensures Allowance(most, grants) as real == Times(most, grants as real)
  {
    TimesAddsOne(most, (grants - 1) as real);
    if grants > 0 {
      AllowanceIs(most, grants - 1);
    }
  }

  ghost predicate CallsPaidFor(c: Settings, h: Host, clock: real) {
    HostOk(c, h, clock) && |h.calls| <= Allowance(c.mostAttempts, Grants(c, h))
  }

  lemma HostCallsBounded(c: Settings, h: Host, clock: real)
    requires ValidSettings(c) && CallsPaidFor(c, h, clock)
    ensures |h.calls| as real
      <= Times(c.mostAttempts, c.limiter.capacity + L.Inflow(c.limiter, clock - h.start))
  {
    L.WindowInflow(c.limiter, h.start, h.limiter, h.start, clock);
    GrantsAreTokens(c, h, h.limiter, h.start, clock);
    AllowanceIs(c.mostAttempts, Grants(c, h));
    TimesMonotone(c.mostAttempts, Grants(c, h) as real, c.limiter.capacity + L.Inflow(c.limiter, clock - h.start));
  }

  lemma CallsPaidReached(c: Settings, now: real, steps: seq<Step>, t: Session, host: string)
    requires ValidSettings(c) && Run(c, Init(now), steps, t) && host in t.hosts
    ensures CallsPaidFor(c, t.hosts[host], t.clock)
  {
    InvReached(c, now, steps, t);
    assert WithinBudget(c, t, host);
  }

  lemma InPlainTerms(c: Settings, calls: nat, elapsed: real)
    requires calls as real <= Times(c.mostAttempts, c.limiter.capacity + L.Inflow(c.limiter, elapsed))
    ensures calls as real <= c.mostAttempts as real * (c.limiter.capacity + c.limiter.rate * elapsed)
  {
    L.InflowIs(c.limiter, elapsed);
    TimesIs(c.mostAttempts, c.limiter.capacity + c.limiter.rate * elapsed);
  }

  /**
    Transport calls to a host are at most mostAttempts * (capacity + rate * T), for T the time since
    its limiter was created.
  */
  lemma TransportCallsBounded(c: Settings, now: real, steps: seq<Step>, t: Session, host: string, elapsed: real)
    requires ValidSettings(c) && Run(c, Init(now), steps, t) && host in t.hosts
    requires elapsed == t.clock - t.hosts[host].start
    ensures |t.hosts[host].calls| as real <= c.mostAttempts as real * (c.limiter.capacity + c.limiter.rate * elapsed)
  {
    CallsPaidReached(c, now, steps, t, host);
    HostCallsBounded(c, t.hosts[host], t.clock);
    InPlainTerms(c, |t.hosts[host].calls|, elapsed);
  }

  /** The host a step is about. */
  function HostOf(s: Session, a: Action): string
    requires !a.Begin? ==> a.id < |s.requests|
  {
    if a.Begin? then a.host else s.requests[a.id].host
  }

  /** No step of the run is for `host`. */
  ghost predicate Avoids(c: Settings, s: Session, steps: seq<Step>, host: string)
    decreases |steps|
  {
    steps != [] ==>
      && Enabled(c, s, steps[0].action) && HostOf(s, steps[0].action) != host
      && Avoids(c, Apply(c, s, steps[0].action, steps[0].at), steps[1..], host)
  }

  /** Steps for other hosts leave a host's limiter, breaker and calls as they were, or absent. */
  lemma {:induction false} OtherHostsUntouched(c: Settings, s: Session, steps: seq<Step>, t: Session, host: string)
    requires Run(c, s, steps, t) && Avoids(c, s, steps, host)
    ensures host in t.hosts <==> host in s.hosts
    ensures host in s.hosts ==> t.hosts[host] == s.hosts[host]
    decreases |steps|
  {
    if steps != [] {
      OtherHostsUntouched(c, Apply(c, s, steps[0].action, steps[0].at), steps[1..], t, host);
    }
  }

  lemma SomeCallUnderWay(c: Settings, s: Session, host: string)
    requires ValidSettings(c) && Inv(c, s) && host in s.hosts
    requires B.After(c.breaker, s.hosts[host].breaker).state.HALF_OPEN?
    ensures exists id :: 0 <= id < |s.requests| && CallsOn(s.requests[id], host)
  {
    assert CallsAgree(c, s, host) && HostOk(c, s.hosts[host], s.clock);
    B.NeverStuckHalfOpen(c.breaker, s.hosts[host].breaker, 0, 0.0);
    var call :| call in B.InFlight(c.breaker, s.hosts[host].breaker);
    assert call in UnderWay(s.requests, host);
  }

  /**
    No host's breaker is ever stuck half-open: while it is, some request has a call to that host under
    way, and whichever settles first takes the breaker out of HALF_OPEN.
  */
  lemma NoHostStuckHalfOpen(c: Settings, now: real, steps: seq<Step>, t: Session, host: string)
    requires ValidSettings(c) && Run(c, Init(now), steps, t) && host in t.hosts
    requires B.After(c.breaker, t.hosts[host].breaker).state.HALF_OPEN?
    ensures exists id :: 0 <= id < |t.requests| && CallsOn(t.requests[id], host)
    ensures forall id: nat, success, later | id < |t.requests| && CallsOn(t.requests[id], host) ::
      B.After(c.breaker, Settled(t.hosts[host], t.requests[id].phase.call, success, later).breaker).state
      == if success then B.CLOSED else B.OPEN
  {
    InvReached(c, now, steps, t);
    SomeCallUnderWay(c, t, host);
    assert CallsAgree(c, t, host) && HostOk(c, t.hosts[host], t.clock);
    forall id: nat, success, later | id < |t.requests| && CallsOn(t.requests[id], host)
      ensures B.After(c.breaker, Settled(t.hosts[host], t.requests[id].phase.call, success, later).breaker).state
        == if success then B.CLOSED else B.OPEN
    {
      B.NeverStuckHalfOpen(c.breaker, t.hosts[host].breaker, t.requests[id].phase.call, later);
    }
  }

  // ---------- What the list of steps says of a request ----------

  /** The last step of a request so far, its beginning aside. */
  function LastStep(steps: seq<Step>, id: nat): Option<Action> {
    if steps == [] then None
    else
      var a := steps[|steps| - 1].action;
      if !a.Begin? && a.id == id then Some(a) else LastStep(steps[..|steps| - 1], id)
  }

  /** What the transport answered last: None, or Some(None) for a response and Some(Some(e)) for an error. */
  function LastAnswer(steps: seq<Step>, id: nat): Option<Option<Error>> {
    if steps == [] then None
    else
      var a := steps[|steps| - 1].action;
      if a.Settle? && a.id == id then Some(a.failure) else LastAnswer(steps[..|steps| - 1], id)
  }

  /** Attempts the request has made. */
  function Attempts(steps: seq<Step>, id: nat): nat {
    if steps == [] then 0
    else
      var a := steps[|steps| - 1].action;
      Attempts(steps[..|steps| - 1], id) + if a.Attempt? && a.id == id then 1 else 0
  }

  /** The steps of all requests that begin one, in order: request `id` is the one begun by the `id`-th. */
  function Begins(steps: seq<Step>): seq<Action> {
    if steps == [] then []
    else
      var a := steps[|steps| - 1].action;
      if a.Begin? then Begins(steps[..|steps| - 1]) + [a] else Begins(steps[..|steps| - 1])
  }

  /** Requests ended, and retries made, counted in the steps. */
  function EndSteps(steps: seq<Step>): nat {
    if steps == [] then 0
    else EndSteps(steps[..|steps| - 1]) + if steps[|steps| - 1].action.End? then 1 else 0
  }

  function RetrySteps(steps: seq<Step>): nat {
    if steps == [] then 0
    else RetrySteps(steps[..|steps| - 1]) + if steps[|steps| - 1].action.Retry? then 1 else 0
  }

  /** Where a request stands, told by its own steps alone. */
  ghost predicate Stands(steps: seq<Step>, id: nat, phase: Phase) {
    match LastStep(steps, id)
    case None => phase.Acquiring? && LastAnswer(steps, id) == None && Attempts(steps, id) == 0
    case Some(Check(_)) =>
      LastAnswer(steps, id) == None && Attempts(steps, id) == 0 && (phase.Acquiring? || phase == Attempting(0))
    case Some(Attempt(_)) =>
      && LastAnswer(steps, id) != Some(None)
      && ((phase.Calling? && phase.used == Attempts(steps, id)) || phase == Failing(Attempts(steps, id), CircuitOpen))
    case Some(Settle(_, failure)) =>
      && LastAnswer(steps, id) == Some(failure)
      && phase == if failure.None? then Succeeding(Attempts(steps, id)) else Failing(Attempts(steps, id), failure.value)
    case Some(Retry(_)) => LastAnswer(steps, id) != Some(None) && phase == Attempting(Attempts(steps, id))
    case Some(End(_)) => phase == Over(Attempts(steps, id), LastAnswer(steps, id) == Some(None))
    case Some(Begin(_, _)) => false
  }

  /** The session is what its steps so far make it. */
  ghost predicate Recorded(steps: seq<Step>, s: Session) {
    && |Begins(steps)| == |s.requests|
    && s.metrics.total == EndSteps(steps) && s.metrics.retries == RetrySteps(steps)
    && (forall id: nat | id < |s.requests| ::
          && Begins(steps)[id] == Begin(s.requests[id].host, s.requests[id].policy)
          && Stands(steps, id, s.requests[id].phase))
    && forall id: nat | id >= |s.requests| ::
          LastStep(steps, id) == None && LastAnswer(steps, id) == None && Attempts(steps, id) == 0
  }

  lemma OneMoreStep(steps: seq<Step>, step: Step, id: nat)
    ensures
      var all, a := steps + [step], step.action;
      && LastStep(all, id) == (if !a.Begin? && a.id == id then Some(a) else LastStep(steps, id))
      && LastAnswer(all, id) == (if a.Settle? && a.id == id then Some(a.failure) else LastAnswer(steps, id))
      && Attempts(all, id) == Attempts(steps, id) + (if a.Attempt? && a.id == id then 1 else 0)
  {
    assert (steps + [step])[..|steps|] == steps;
  }

  lemma StandsStep(c: Settings, h: Host, r: Request, steps: seq<Step>, step: Step, id: nat)
    requires Stands(steps, id, r.phase) && !step.action.Begin? && step.action.id == id && NextOf(r, step.action)
    ensures Stands(steps + [step], id, NextPhase(c, h, r.phase, step.action, step.at))
  {
    OneMoreStep(steps, step, id);
  }

  lemma RecordedStep(c: Settings, s: Session, steps: seq<Step>, step: Step)
    requires Recorded(steps, s) && Tick(c, s, step.action, step.at)
    ensures Recorded(steps + [step], Apply(c, s, step.action, step.at))
  {
    var all := steps + [step];
    assert all[..|steps|] == steps;
    var t := Apply(c, s, step.action, step.at);
    forall id: nat | id < |t.requests| ensures Stands(all, id, t.requests[id].phase) {
      OneMoreStep(steps, step, id);
      if id < |s.requests| {
        assert Stands(steps, id, s.requests[id].phase);
        if !step.action.Begin? && step.action.id == id {
          StandsStep(c, s.hosts[s.requests[id].host], s.requests[id], steps, step, id);
        }
      }
    }
    forall id: nat | id >= |t.requests|
      ensures LastStep(all, id) == None && LastAnswer(all, id) == None && Attempts(all, id) == 0
    {
      OneMoreStep(steps, step, id);
    }
  }

  lemma {:induction false} RecordedRun(c: Settings, s: Session, done: seq<Step>, steps: seq<Step>, t: Session)
    requires Recorded(done, s) && Run(c, s, steps, t)
    ensures Recorded(done + steps, t)
    decreases |steps|
  {
    if steps == [] {
      assert done + steps == done;
    } else {
      RecordedStep(c, s, done, steps[0]);
      assert done + steps == (done + [steps[0]]) + steps[1..];
      RecordedRun(c, Apply(c, s, steps[0].action, steps[0].at), done + [steps[0]], steps[1..], t);
    }
  }

  lemma RecordedReached(c: Settings, now: real, steps: seq<Step>, t: Session)
    requires Run(c, Init(now), steps, t)
    ensures Recorded(steps, t)
  {
    RecordedRun(c, Init(now), [], steps, t);
    assert [] + steps == steps;
  }

  /**
    A request's phase is what its steps say: it is succeeding, or has ended in success, exactly when the
    transport's last answer was a response; it is failing with `e` exactly when its last step was that
    answer, or an attempt the breaker refused; and it has ended exactly when its last step was its end.
    It uses one attempt per attempt made, under the policy it came with.
  */
  lemma PhaseFromSteps(c: Settings, now: real, steps: seq<Step>, t: Session, id: nat, e: Error)
    requires Run(c, Init(now), steps, t) && id < |t.requests|
    ensures
      var phase := t.requests[id].phase;
      && (phase.Succeeding? || (phase.Over? && phase.success) <==> LastAnswer(steps, id) == Some(None))
      && (phase.Failing? && phase.error == e <==>
            || LastStep(steps, id) == Some(Settle(id, Some(e)))
            || (LastStep(steps, id) == Some(Attempt(id)) && !phase.Calling? && e == CircuitOpen))
      && (phase.Over? <==> LastStep(steps, id) == Some(End(id)))
      && (phase.Acquiring? || phase.used == Attempts(steps, id))
    ensures |Begins(steps)| == |t.requests| && Begins(steps)[id] == Begin(t.requests[id].host, t.requests[id].policy)
  {
    RecordedReached(c, now, steps, t);
    LastStepIsOwn(steps, id);
    assert Stands(steps, id, t.requests[id].phase);
  }

  lemma {:induction false} LastStepIsOwn(steps: seq<Step>, id: nat)
    ensures LastStep(steps, id).Some? ==> !LastStep(steps, id).value.Begin? && LastStep(steps, id).value.id == id
  {
    if steps != [] {
      LastStepIsOwn(steps[..|steps| - 1], id);
    }
  }

  /**
    A failing request goes on exactly when its policy retries the error and it has attempts left, by the
    count of the attempts it made; otherwise it ends. No request attempts more often than its policy allows.
  */
  lemma RetriesExactly(c: Settings, now: real, steps: seq<Step>, t: Session, id: nat)
    requires ValidSettings(c) && Run(c, Init(now), steps, t) && id < |t.requests| && t.requests[id].phase.Failing?
    ensures
      var r := t.requests[id];
      var again := r.phase.error in r.policy.retryable && Attempts(steps, id) < r.policy.maxAttempts;
      (Enabled(c, t, Retry(id)) <==> again) && (Enabled(c, t, End(id)) <==> !again)
    ensures Attempts(steps, id) <= t.requests[id].policy.maxAttempts
  {
    PhaseFromSteps(c, now, steps, t, id, CircuitOpen);
    RequestIsOk(c, now, steps, t, id);
  }

  lemma RequestIsOk(c: Settings, now: real, steps: seq<Step>, t: Session, id: nat)
    requires ValidSettings(c) && Run(c, Init(now), steps, t) && id < |t.requests|
    ensures PhaseOk(c, t.requests[id]) && t.requests[id].host in t.hosts
  {
    InvReached(c, now, steps, t);
  }

  /** Whether an attempt is let through is decided by the log of its host, and so is what it leaves there. */
  lemma AttemptDecides(c: Settings, s: Session, id: nat, now: real)
    requires ValidSettings(c) && Tick(c, s, Attempt(id), now) && HostOk(c, s.hosts[s.requests[id].host], s.clock)
    ensures
      var r := s.requests[id];
      var h, log := s.hosts[r.host], s.hosts[r.host].breaker;
      var t := Apply(c, s, Attempt(id), now);
      && t.hosts[r.host].breaker == log + [B.Attempted(|log|, now)]
      && if B.Failures(log) < c.breaker.threshold
            || (now - B.LastFailure(log) >= c.breaker.recovery && B.Probes(c.breaker, log) < c.breaker.maxProbes)
         then t.requests[id].phase == Calling(r.phase.used + 1, |log|) && t.hosts[r.host].calls == h.calls + [now]
         else t.requests[id].phase == Failing(r.phase.used + 1, CircuitOpen) && t.hosts[r.host].calls == h.calls
  {
    B.AdmittedExactly(c.breaker, s.hosts[s.requests[id].host].breaker, now);
  }

  /** Requests whose last step is their end and whose last answer was a response. */
  ghost function EndedInResponse(steps: seq<Step>): set<nat> {
    set id: nat | id < |Begins(steps)| && LastStep(steps, id) == Some(End(id)) && LastAnswer(steps, id) == Some(None)
  }

  /** Requests whose last step is their end and that were answered last by an error, or not at all. */
  ghost function EndedInError(steps: seq<Step>): set<nat> {
    set id: nat | id < |Begins(steps)| && LastStep(steps, id) == Some(End(id)) && LastAnswer(steps, id) != Some(None)
  }

  ghost function NotEnded(steps: seq<Step>): set<nat> {
    set id: nat | id < |Begins(steps)| && LastStep(steps, id) != Some(End(id))
  }

  lemma StandsAt(steps: seq<Step>, s: Session, id: nat)
    requires Recorded(steps, s) && id < |s.requests|
    ensures EndedWell(s.requests[id]) == 1 <==> LastStep(steps, id) == Some(End(id)) && LastAnswer(steps, id) == Some(None)
    ensures EndedBadly(s.requests[id]) == 1 <==> LastStep(steps, id) == Some(End(id)) && LastAnswer(steps, id) != Some(None)
    ensures IsOpen(s.requests[id]) == 1 <==> LastStep(steps, id) != Some(End(id))
  {
    LastStepIsOwn(steps, id);
    assert Stands(steps, id, s.requests[id].phase);
  }

  lemma SuccessesCounted(steps: seq<Step>, s: Session)
    requires Recorded(steps, s)
    ensures Total(s.requests, EndedWell)
      == |EndedInResponse(steps)|
  {
    TotalIsCardinality(s.requests, EndedWell, |s.requests|);
    assert s.requests[..|s.requests|] == s.requests;
    var told := EndedInResponse(steps);
    var weighed := Positions(s.requests, EndedWell, |s.requests|);
    forall id: nat | id < |s.requests| ensures id in told <==> id in weighed {
      StandsAt(steps, s, id);
    }
    assert told == weighed;
  }

  lemma FailuresCounted(steps: seq<Step>, s: Session)
    requires Recorded(steps, s)
    ensures Total(s.requests, EndedBadly)
      == |EndedInError(steps)|
  {
    TotalIsCardinality(s.requests, EndedBadly, |s.requests|);
    assert s.requests[..|s.requests|] == s.requests;
    var told := EndedInError(steps);
    var weighed := Positions(s.requests, EndedBadly, |s.requests|);
    forall id: nat | id < |s.requests| ensures id in told <==> id in weighed {
      StandsAt(steps, s, id);
    }
    assert told == weighed;
  }

  lemma OpenCounted(steps: seq<Step>, s: Session)
    requires Recorded(steps, s)
    ensures Total(s.requests, IsOpen) == |NotEnded(steps)|
  {
    TotalIsCardinality(s.requests, IsOpen, |s.requests|);
    assert s.requests[..|s.requests|] == s.requests;
    var told := NotEnded(steps);
    var weighed := Positions(s.requests, IsOpen, |s.requests|);
    forall id: nat | id < |s.requests| ensures id in told <==> id in weighed {
      StandsAt(steps, s, id);
    }
    assert told == weighed;
  }

  lemma MetricsReached(c: Settings, now: real, steps: seq<Step>, t: Session)
    requires ValidSettings(c) && Run(c, Init(now), steps, t)
    ensures MetricsExact(t)
  {
    InvReached(c, now, steps, t);
  }

  /**
    The metrics, counted in the steps: `total` is the number of requests that ended, `successful` of
    those whose last answer was a response and `failed` of the others, `open` of those begun and not
    ended, and `retries` the number of retries.
  */
  lemma MetricsFromSteps(c: Settings, now: real, steps: seq<Step>, t: Session)
    requires ValidSettings(c) && Run(c, Init(now), steps, t)
    ensures t.metrics.total == EndSteps(steps) && t.metrics.retries == RetrySteps(steps)
    ensures t.metrics.successful
      == |EndedInResponse(steps)|
    ensures t.metrics.failed
      == |EndedInError(steps)|
    ensures t.metrics.open == |NotEnded(steps)|
  {
    MetricsReached(c, now, steps, t);
    RecordedReached(c, now, steps, t);
    SuccessesCounted(steps, t);
    FailuresCounted(steps, t);
    OpenCounted(steps, t);
  }
}
