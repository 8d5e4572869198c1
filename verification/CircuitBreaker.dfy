/**
  The circuit breaker as steps of concurrent calls: calls start and settle out of order, and the
  breaker's fields turn out to be a function of the log of those events.
*/
module CircuitBreaker {

  datatype Params = Params(threshold: nat, recovery: real, maxProbes: nat)

  ghost predicate ValidParams(p: Params) {
    p.threshold >= 1 && p.recovery > 0.0 && p.maxProbes >= 1
  }

  datatype CircuitState = CLOSED | OPEN | HALF_OPEN

  datatype Fields = Fields(state: CircuitState, failureCount: nat, openedAt: real, halfOpenCalls: nat)

  function Initial(): Fields {
    Fields(CLOSED, 0, 0.0, 0)
  }

  // ---------- The code's steps, as functions on the fields ----------

  /** Fields after `_before_call` at `now`, and whether the call is let through. */
  function BeforeCall(p: Params, b: Fields, now: real): (Fields, bool) {
    if b.state.OPEN? && now - b.openedAt < p.recovery then (b, false)
    else
      var b' := if b.state.OPEN? then b.(state := HALF_OPEN, halfOpenCalls := 0) else b;
      if b'.state.HALF_OPEN? then
        if b'.halfOpenCalls >= p.maxProbes then (b', false)
        else (b'.(halfOpenCalls := b'.halfOpenCalls + 1), true)
      else (b', true)
  }

  function OnSuccess(b: Fields): Fields {
    b.(failureCount := 0, state := CLOSED)
  }

  function OnFailure(p: Params, b: Fields, now: real): Fields {
    var failed := b.(failureCount := b.failureCount + 1);
    if b.state.HALF_OPEN? || failed.failureCount >= p.threshold
    then failed.(state := OPEN, openedAt := now)
    else failed
  }

  // ---------- Logs ----------

  datatype Event = Attempted(id: nat, at: real) | Succeeded(id: nat, at: real) | Failed(id: nat, at: real)

  function After(p: Params, log: seq<Event>): Fields {
    if log == [] then Initial()
    else
      var b := After(p, log[..|log| - 1]);
      match log[|log| - 1]
      case Attempted(_, at) => BeforeCall(p, b, at).0
      case Succeeded(_, _) => OnSuccess(b)
      case Failed(_, at) => OnFailure(p, b, at)
  }

  /** The clock never runs backwards. */
  ghost predicate Timed(log: seq<Event>) {
    forall i, j | 0 <= i < j < |log| :: log[i].at <= log[j].at
  }

  /** The code's decision for a call attempted at `now` after `log`. */
  function Admits(p: Params, log: seq<Event>, now: real): bool {
    BeforeCall(p, After(p, log), now).1
  }

  // ---------- The reference: quantities read off the log, without any breaker state ----------

  /** Failures settled since the last success. */
  function Failures(log: seq<Event>): nat {
    if log == [] then 0
    else
      var n := Failures(log[..|log| - 1]);
      match log[|log| - 1]
      case Attempted(_, _) => n
      case Succeeded(_, _) => 0
      case Failed(_, _) => n + 1
  }

  /** Time of the latest failure. */
  function LastFailure(log: seq<Event>): real {
    if log == [] then 0.0
    else if log[|log| - 1].Failed? then log[|log| - 1].at
    else LastFailure(log[..|log| - 1])
  }

  /** Attempts made at least the recovery timeout after the latest failure, with nothing settled since. */
  function Probes(p: Params, log: seq<Event>): nat {
    if log == [] || !log[|log| - 1].Attempted? then 0
    else
      var before := log[..|log| - 1];
      Probes(p, before) + if log[|log| - 1].at - LastFailure(before) >= p.recovery then 1 else 0
  }

  /**
    The breaker is a function of its event log: count, state, opening time and half-open calls are
    those the log alone determines, for any interleaving of calls in flight.
  */
  lemma {:induction false} StateFromLog(p: Params, log: seq<Event>)
    requires ValidParams(p) && Timed(log)
    ensures
      var b := After(p, log);
      && b.failureCount == Failures(log)
      && (b.state.CLOSED? <==> Failures(log) < p.threshold)
      && (b.state.HALF_OPEN? <==> Failures(log) >= p.threshold && Probes(p, log) > 0)
      && (!b.state.CLOSED? ==> b.openedAt == LastFailure(log))
      && (b.state.HALF_OPEN? ==>
            b.halfOpenCalls == if Probes(p, log) <= p.maxProbes then Probes(p, log) else p.maxProbes)
  {
    if log != [] {
      StateFromLog(p, log[..|log| - 1]);
      if Probes(p, log[..|log| - 1]) > 0 {
        ProbesAreLate(p, log[..|log| - 1]);
      }
    }
  }

  /** Once there is a probe, the recovery timeout has passed for every later attempt too. */
  lemma {:induction false} ProbesAreLate(p: Params, log: seq<Event>)
    requires Timed(log) && Probes(p, log) > 0
    ensures log != [] && log[|log| - 1].at - LastFailure(log) >= p.recovery
  {
    var before := log[..|log| - 1];
    if Probes(p, before) > 0 {
      ProbesAreLate(p, before);
      assert before[|before| - 1] == log[|log| - 2];
    }
  }

  /**
    Exactly when a call starts: while fewer failures than the threshold were settled since the last
    success, or as one of the first `maxProbes` attempts made at least the recovery timeout after the
    latest failure with nothing settled since. In particular no call starts within the recovery
    timeout of the latest failure once the threshold is reached and no success settled since.
  */
  lemma AdmittedExactly(p: Params, log: seq<Event>, now: real)
    requires ValidParams(p) && Timed(log) && (log != [] ==> log[|log| - 1].at <= now)
    ensures Admits(p, log, now) <==>
      || Failures(log) < p.threshold
      || (now - LastFailure(log) >= p.recovery && Probes(p, log) < p.maxProbes)
  {
    StateFromLog(p, log);
    if Probes(p, log) > 0 {
      ProbesAreLate(p, log);
    }
  }

  /** Nothing settled after position `k`. */
  ghost predicate NothingSettledSince(log: seq<Event>, k: nat) {
    forall j | k < j < |log| :: log[j].Attempted?
  }

  /**
    HALF_OPEN in one sentence: at or above the threshold, and some call was admitted at least the
    recovery timeout after the latest failure, with nothing settled since.
  */
  lemma HalfOpenExactly(p: Params, log: seq<Event>)
    requires ValidParams(p) && Timed(log)
    ensures After(p, log).state.HALF_OPEN? <==>
      && Failures(log) >= p.threshold
      && exists k: nat :: k < |log| && log[k].Attempted? && NothingSettledSince(log, k)
           && log[k].at - LastFailure(log) >= p.recovery && Admits(p, log[..k], log[k].at)
  {
    StateFromLog(p, log);
    if After(p, log).state.HALF_OPEN? {
      var k := FirstProbe(p, log);
    }
    if k: nat :| k < |log| && log[k].Attempted? && NothingSettledSince(log, k) && log[k].at - LastFailure(log) >= p.recovery {
      ProbeCounts(p, log, k);
    }
  }

  lemma EarlierTimed(log: seq<Event>)
    requires Timed(log) && log != []
    ensures
      var before := log[..|log| - 1];
      Timed(before) && (before != [] ==> before[|before| - 1].at <= log[|log| - 1].at)
  {
    var before := log[..|log| - 1];
    forall i, j | 0 <= i < j < |before| ensures before[i].at <= before[j].at {
      assert before[i] == log[i] && before[j] == log[j];
    }
  }

  /** The first probe is admitted: nothing before it used up the half-open calls. */
  lemma {:induction false} FirstProbe(p: Params, log: seq<Event>) returns (k: nat)
    requires ValidParams(p) && Timed(log) && Failures(log) >= p.threshold && Probes(p, log) > 0
    ensures k < |log| && log[k].Attempted? && NothingSettledSince(log, k)
    ensures log[k].at - LastFailure(log) >= p.recovery && Admits(p, log[..k], log[k].at)
  {
    var before := log[..|log| - 1];
    if Probes(p, before) > 0 {
      k := FirstProbe(p, before);
      assert before[..k] == log[..k];
    } else {
      k := |log| - 1;
      EarlierTimed(log);
      AdmittedExactly(p, before, log[k].at);
    }
  }

  lemma {:induction false} ProbeCounts(p: Params, log: seq<Event>, k: nat)
    requires k < |log| && log[k].Attempted? && NothingSettledSince(log, k)
    requires log[k].at - LastFailure(log) >= p.recovery
    ensures Probes(p, log) > 0
  {
    var before := log[..|log| - 1];
    if k < |log| - 1 {
      assert log[|log| - 1].Attempted?;
      ProbeCounts(p, before, k);
    }
  }

  // ---------- Calls in flight ----------

  /** Calls admitted and not yet settled. */
  function InFlight(p: Params, log: seq<Event>): set<nat> {
    if log == [] then {}
    else
      var before := log[..|log| - 1];
      match log[|log| - 1]
      case Attempted(id, at) => if Admits(p, before, at) then InFlight(p, before) + {id} else InFlight(p, before)
      case Succeeded(id, _) => InFlight(p, before) - {id}
      case Failed(id, _) => InFlight(p, before) - {id}
  }

  /** Calls admitted since the breaker last became half-open. */
  function Episode(p: Params, log: seq<Event>): set<nat> {
    if log == [] || !log[|log| - 1].Attempted? then {}
    else
      var before := log[..|log| - 1];
      var last := log[|log| - 1];
      if After(p, log).state.HALF_OPEN? && Admits(p, before, last.at)
      then Episode(p, before) + {last.id}
      else Episode(p, before)
  }

  /** Every attempt is a new call, and only calls in flight settle. */
  ghost predicate WellFormed(p: Params, log: seq<Event>) {
    forall k | 0 <= k < |log| ::
      if log[k].Attempted? then forall j | 0 <= j < k :: log[j].id != log[k].id
      else log[k].id in InFlight(p, log[..k])
  }

  lemma {:induction false} InFlightAttempted(p: Params, log: seq<Event>, id: nat)
    requires id in InFlight(p, log)
    ensures exists j :: 0 <= j < |log| && log[j].id == id
  {
    var before := log[..|log| - 1];
    if id in InFlight(p, before) {
      InFlightAttempted(p, before, id);
      var j :| 0 <= j < |before| && before[j].id == id;
      assert log[j].id == id;
    } else {
      assert log[|log| - 1].id == id;
    }
  }

  /** Each half-open episode admits at most `maxProbes` calls, and all of them are still in flight. */
  lemma {:induction false} EpisodeInFlight(p: Params, log: seq<Event>)
    requires ValidParams(p) && Timed(log) && WellFormed(p, log)
    ensures Episode(p, log) <= InFlight(p, log)
    ensures
      var b := After(p, log);
      if b.state.HALF_OPEN? then |Episode(p, log)| == b.halfOpenCalls && 1 <= b.halfOpenCalls <= p.maxProbes
      else Episode(p, log) == {}
  {
    StateFromLog(p, log);
    if log != [] {
      var before := log[..|log| - 1];
      var last := log[|log| - 1];
      assert forall k | 0 <= k < |before| :: before[..k] == log[..k];
      EpisodeInFlight(p, before);
      StateFromLog(p, before);
      if last.Attempted? && last.id in InFlight(p, before) {
        InFlightAttempted(p, before, last.id);
        assert false;
      }
    }
  }

  /**
    The breaker is never stuck half-open: some call is in flight, and whichever call settles next
    takes the breaker out of HALF_OPEN.
  */
  lemma NeverStuckHalfOpen(p: Params, log: seq<Event>, id: nat, at: real)
    requires ValidParams(p) && Timed(log) && WellFormed(p, log) && After(p, log).state.HALF_OPEN?
    ensures InFlight(p, log) != {}
    ensures After(p, log + [Succeeded(id, at)]).state.CLOSED?
    ensures After(p, log + [Failed(id, at)]).state.OPEN?
  {
    EpisodeInFlight(p, log);
    assert (log + [Succeeded(id, at)])[..|log|] == log;
    assert (log + [Failed(id, at)])[..|log|] == log;
  }

  // ---------- The object ----------

  class Breaker {
    const p: Params
    var state: CircuitState
    var failureCount: nat
    var openedAt: real
    var halfOpenCalls: nat
    ghost var log: seq<Event>

    ghost function Contents(): Fields
      reads this
    {
      Fields(state, failureCount, openedAt, halfOpenCalls)
    }

    ghost predicate Valid()
      reads this
    {
      ValidParams(p) && Timed(log) && Contents() == After(p, log)
    }

    /** `now` is a clock reading taken after everything in the log. */
    ghost predicate Now(now: real)
      reads this
    {
      log != [] ==> log[|log| - 1].at <= now
    }

    constructor (p: Params)
      requires ValidParams(p)
      ensures Valid() && this.p == p && log == [] && Contents() == Initial()
    {
      this.p := p;
      state, failureCount, openedAt, halfOpenCalls := CLOSED, 0, 0.0, 0;
      log := [];
    }

    lemma Logged(e: Event)
      requires Valid() && Now(e.at)
      ensures Timed(log + [e]) && (log + [e])[..|log|] == log
    {
    }

    /** Lets the call through exactly when the log says so. */
    method AdmitCall(ghost id: nat, now: real) returns (admitted: bool)
      requires Valid() && Now(now)
      modifies this
      ensures Valid() && log == old(log) + [Attempted(id, now)]
      ensures Contents() == BeforeCall(p, old(Contents()), now).0
      ensures admitted == BeforeCall(p, old(Contents()), now).1
      ensures admitted <==>
        || Failures(old(log)) < p.threshold
        || (now - LastFailure(old(log)) >= p.recovery && Probes(p, old(log)) < p.maxProbes)
    {
      AdmittedExactly(p, log, now);
      Logged(Attempted(id, now));
      admitted := true;
      if state.OPEN? {
        if now - openedAt >= p.recovery {
          state := HALF_OPEN;
          halfOpenCalls := 0;
        } else {
          admitted := false;
        }
      }
      if admitted && state.HALF_OPEN? {
        if halfOpenCalls >= p.maxProbes {
          admitted := false;
        } else {
          halfOpenCalls := halfOpenCalls + 1;
        }
      }
      log := log + [Attempted(id, now)];
    }

    method CallSucceeded(ghost id: nat, ghost now: real)
      requires Valid() && Now(now)
      modifies this
      ensures Valid() && log == old(log) + [Succeeded(id, now)]
      ensures Contents() == OnSuccess(old(Contents()))
    {
      Logged(Succeeded(id, now));
      failureCount := 0;
      state := CLOSED;
      log := log + [Succeeded(id, now)];
    }

    method CallFailed(ghost id: nat, now: real)
      requires Valid() && Now(now)
      modifies this
      ensures Valid() && log == old(log) + [Failed(id, now)]
      ensures Contents() == OnFailure(p, old(Contents()), now)
    {
      Logged(Failed(id, now));
      failureCount := failureCount + 1;
      if state.HALF_OPEN? {
        state := OPEN;
        openedAt := now;
      } else if failureCount >= p.threshold {
        state := OPEN;
        openedAt := now;
      }
      log := log + [Failed(id, now)];
    }
  }
}
