/**
  The token bucket: lazy refill at each check, a grant or a computed wait, and a retry loop around it.
  Time and tokens are reals; the clock is an input that never runs backwards.
*/
module RateLimiter {

  datatype Params = Params(rate: real, capacity: real)

  ghost predicate ValidParams(p: Params) {
    p.rate > 0.0 && p.capacity >= 1.0
  }

  datatype Bucket = Bucket(tokens: real, updatedAt: real)

  function Min(a: real, b: real): real {
    if a <= b then a else b
  }

  /** Tokens that flow in during `dt`. */
  function Inflow(p: Params, dt: real): real {
    dt * p.rate
  }

  /** The lazy refill: what has flowed in since the last update, capped at the capacity. */
  function Refilled(p: Params, tokens: real, elapsed: real): real {
    Min(p.capacity, tokens + Inflow(p, elapsed))
  }

  /** Tokens the bucket holds at time `t`, were it refilled then. */
  function Level(p: Params, b: Bucket, t: real): real {
    Refilled(p, b.tokens, t - b.updatedAt)
  }

  /** How long it takes for `deficit` tokens to flow in. */
  function RefillTime(p: Params, deficit: real): real
    requires p.rate > 0.0
  {
    deficit / p.rate
  }

  /** The critical section of one loop round: refill, then take the tokens if they are there. */
  function Checked(p: Params, b: Bucket, now: real, want: real): Bucket {
    var level := Level(p, b, now);
    Bucket(if level >= want then level - want else level, now)
  }

  function Grants(p: Params, b: Bucket, now: real, want: real): bool {
    Level(p, b, now) >= want
  }

  /** How long a refused acquirer sleeps before checking again. */
  function Wait(p: Params, b: Bucket, now: real, want: real): real
    requires ValidParams(p)
  {
    RefillTime(p, want - Level(p, b, now))
  }

  // ---------- Runs ----------

  /** One round of some acquirer's loop. */
  datatype Check = Check(id: nat, at: real, want: real)

  /** The bucket after a run that began with a full bucket at `start`. */
  function After(p: Params, start: real, log: seq<Check>): Bucket {
    if log == [] then Bucket(p.capacity, start)
    else
      var last := log[|log| - 1];
      Checked(p, After(p, start, log[..|log| - 1]), last.at, last.want)
  }

  function Granted(p: Params, start: real, log: seq<Check>, k: nat): bool
    requires k < |log|
  {
    Grants(p, After(p, start, log[..k]), log[k].at, log[k].want)
  }

  /** Times never decrease, and nobody asks for a negative number of tokens or for more than the capacity. */
  ghost predicate ValidLog(p: Params, start: real, log: seq<Check>) {
    && (forall k | 0 <= k < |log| :: start <= log[k].at && 0.0 <= log[k].want <= p.capacity)
    && (forall j, k | 0 <= j < k < |log| :: log[j].at <= log[k].at)
  }

  lemma InflowPositive(p: Params, dt: real)
    requires p.rate >= 0.0 && dt >= 0.0
    ensures Inflow(p, dt) >= 0.0
  {
  }

  lemma InflowAdds(p: Params, a: real, b: real, c: real)
    ensures Inflow(p, c - a) == Inflow(p, c - b) + Inflow(p, b - a)
  {
  }

  lemma InflowMonotone(p: Params, a: real, b: real)
    requires p.rate >= 0.0 && a <= b
    ensures Inflow(p, a) <= Inflow(p, b)
  {
    InflowPositive(p, b - a);
    InflowAdds(p, 0.0, a, b);
    assert Inflow(p, b - 0.0) == Inflow(p, b) && Inflow(p, a - 0.0) == Inflow(p, a);
  }

  lemma CheckedBounds(p: Params, b: Bucket, now: real, want: real)
    requires ValidParams(p) && 0.0 <= b.tokens <= p.capacity && b.updatedAt <= now && 0.0 <= want
    ensures 0.0 <= Checked(p, b, now, want).tokens <= p.capacity
    ensures 0.0 <= Level(p, b, now) <= p.capacity
  {
    InflowPositive(p, now - b.updatedAt);
  }

  /** The bucket never holds less than nothing or more than its capacity. */
  lemma {:induction false} BucketBounds(p: Params, start: real, log: seq<Check>)
    requires ValidParams(p) && ValidLog(p, start, log)
    ensures
      var b := After(p, start, log);
      && 0.0 <= b.tokens <= p.capacity
      && b.updatedAt == if log == [] then start else log[|log| - 1].at
  {
    if log != [] {
      var before := log[..|log| - 1];
      BucketBounds(p, start, before);
      CheckedBounds(p, After(p, start, before), log[|log| - 1].at, log[|log| - 1].want);
    }
  }

  /** Tokens granted by checks made at times within [s, e]. */
  function GrantedIn(p: Params, start: real, log: seq<Check>, s: real, e: real): real {
    if log == [] then 0.0
    else
      var n := |log| - 1;
      GrantedIn(p, start, log[..n], s, e)
      + if s <= log[n].at <= e && Grants(p, After(p, start, log[..n]), log[n].at, log[n].want) then log[n].want else 0.0
  }

  /** The potential of a window that began at `s`: what it granted, plus what is left in the bucket. */
  ghost predicate Bounded(p: Params, b: Bucket, granted: real, s: real) {
    if b.updatedAt < s then granted == 0.0 else granted + b.tokens <= p.capacity + Inflow(p, b.updatedAt - s)
  }

  lemma BoundedStep(p: Params, b: Bucket, granted: real, s: real, now: real, want: real)
    requires ValidParams(p) && b.tokens <= p.capacity && b.updatedAt <= now && 0.0 <= want
    requires Bounded(p, b, granted, s)
    ensures
      var more := if s <= now && Grants(p, b, now, want) then want else 0.0;
      Bounded(p, Checked(p, b, now, want), granted + more, s)
  {
    if s <= b.updatedAt {
      InflowAdds(p, s, b.updatedAt, now);
    } else if s <= now {
      InflowPositive(p, now - s);
    }
  }

  /** What was granted since `s`, plus what is left, never exceeds a full bucket plus the refill since `s`. */
  lemma {:induction false} WindowPotential(p: Params, start: real, log: seq<Check>, s: real, e: real)
    requires ValidParams(p) && ValidLog(p, start, log) && s <= e
    requires log != [] ==> log[|log| - 1].at <= e
    ensures Bounded(p, After(p, start, log), GrantedIn(p, start, log, s, e), s)
  {
    if log == [] {
      if s <= start {
        InflowPositive(p, start - s);
      }
    } else {
      var before := log[..|log| - 1];
      var last := log[|log| - 1];
      WindowPotential(p, start, before, s, e);
      BucketBounds(p, start, before);
      BoundedStep(p, After(p, start, before), GrantedIn(p, start, before, s, e), s, last.at, last.want);
    }
  }

  lemma BoundAtEnd(p: Params, b: Bucket, granted: real, s: real, e: real)
    requires ValidParams(p) && 0.0 <= b.tokens && b.updatedAt <= e && s <= e && Bounded(p, b, granted, s)
    ensures granted <= p.capacity + Inflow(p, e - s)
  {
    InflowPositive(p, e - s);
    if s <= b.updatedAt {
      InflowMonotone(p, b.updatedAt - s, e - s);
    }
  }

  /**
    The window bound: in any run with any number of acquirers, the tokens granted within any [s, e]
    total at most capacity + rate * (e - s).
  */
  lemma WindowBound(p: Params, start: real, log: seq<Check>, s: real, e: real)
    requires ValidParams(p) && ValidLog(p, start, log) && s <= e
    ensures GrantedIn(p, start, log, s, e) <= p.capacity + p.rate * (e - s)
  {
    WindowInflow(p, start, log, s, e);
    InPlainTerms(p, GrantedIn(p, start, log, s, e), s, e);
  }

  lemma InPlainTerms(p: Params, granted: real, s: real, e: real)
    requires granted <= p.capacity + Inflow(p, e - s)
    ensures granted <= p.capacity + p.rate * (e - s)
  {
    InflowIs(p, e - s);
  }

  lemma InflowIs(p: Params, dt: real)
    ensures Inflow(p, dt) == p.rate * dt
  {
  }

  lemma {:induction false} WindowInflow(p: Params, start: real, log: seq<Check>, s: real, e: real)
    requires ValidParams(p) && ValidLog(p, start, log) && s <= e
    ensures GrantedIn(p, start, log, s, e) <= p.capacity + Inflow(p, e - s)
    decreases |log|
  {
    if log == [] {
      InflowPositive(p, e - s);
    } else if log[|log| - 1].at > e {
      WindowInflow(p, start, log[..|log| - 1], s, e);
    } else {
      WindowPotential(p, start, log, s, e);
      BucketBounds(p, start, log);
      BoundAtEnd(p, After(p, start, log), GrantedIn(p, start, log, s, e), s, e);
    }
  }

  // ---------- Progress ----------

  /** A refused check is invisible: the bucket holds the same at every later time as without it. */
  lemma RefusedCheckInvisible(p: Params, b: Bucket, now: real, want: real, t: real)
    requires ValidParams(p) && b.tokens <= p.capacity && b.updatedAt <= now <= t
    requires !Grants(p, b, now, want)
    ensures Level(p, Checked(p, b, now, want), t) == Level(p, b, t)
  {
    InflowAdds(p, b.updatedAt, now, t);
    InflowPositive(p, t - now);
  }

  /** No grant from position `i` on means the level at later times is still the one of position `i`. */
  lemma {:induction false} LevelWithoutGrants(p: Params, start: real, log: seq<Check>, i: nat, t: real)
    requires ValidParams(p) && ValidLog(p, start, log) && i <= |log|
    requires forall k | i <= k < |log| :: !Granted(p, start, log, k)
    requires (log != [] ==> log[|log| - 1].at <= t) && start <= t
    ensures Level(p, After(p, start, log), t) == Level(p, After(p, start, log[..i]), t)
    decreases |log|
  {
    if i == |log| {
      assert log[..i] == log;
    } else {
      var before := log[..|log| - 1];
      assert before[..i] == log[..i];
      assert !Granted(p, start, log, |log| - 1);
      forall k | i <= k < |before| ensures !Granted(p, start, before, k) {
        assert before[..k] == log[..k] && !Granted(p, start, log, k);
      }
      LevelWithoutGrants(p, start, before, i, t);
      BucketBounds(p, start, before);
      RefusedCheckInvisible(p, After(p, start, before), log[|log| - 1].at, log[|log| - 1].want, t);
    }
  }

  lemma WaitRefills(p: Params, deficit: real, slept: real)
    requires ValidParams(p) && slept >= RefillTime(p, deficit)
    ensures Inflow(p, slept) >= deficit
  {
    assert Inflow(p, RefillTime(p, deficit)) == deficit;
    InflowMonotone(p, RefillTime(p, deficit), slept);
  }

  /** Had nothing else happened, the tokens would be there after the wait. */
  lemma WaitSuffices(p: Params, b: Bucket, now: real, want: real, later: real)
    requires ValidParams(p) && b.tokens <= p.capacity && b.updatedAt <= now && want <= p.capacity
    requires !Grants(p, b, now, want) && later - now >= Wait(p, b, now, want)
    ensures Level(p, b, later) >= want
  {
    var deficit := want - Level(p, b, now);
    InflowAdds(p, b.updatedAt, now, later);
    WaitRefills(p, deficit, later - now);
  }

  lemma InflowStrict(p: Params, a: real, b: real)
    requires p.rate > 0.0
    ensures Inflow(p, a) < Inflow(p, b) <==> a < b
  {
    InflowAdds(p, 0.0, a, b);
    assert Inflow(p, b - 0.0) == Inflow(p, b) && Inflow(p, a - 0.0) == Inflow(p, a);
    if b - a > 0.0 {
      assert Inflow(p, b - a) > 0.0;
    } else {
      InflowPositive(p, a - b);
      assert Inflow(p, b - a) == -Inflow(p, a - b);
    }
  }

  lemma WaitRefillsExactly(p: Params, deficit: real)
    requires ValidParams(p)
    ensures RefillTime(p, deficit) * p.rate == deficit && Inflow(p, RefillTime(p, deficit)) == deficit
  {
  }

  /** The wait is exact: at any later time the tokens are there if and only if it has passed. */
  lemma WaitIsExact(p: Params, b: Bucket, now: real, want: real, t: real)
    requires ValidParams(p) && b.tokens <= p.capacity && b.updatedAt <= now <= t && want <= p.capacity
    requires !Grants(p, b, now, want)
    ensures Level(p, b, t) >= want <==> t - now >= Wait(p, b, now, want)
    ensures Level(p, Checked(p, b, now, want), t) >= want <==> t - now >= Wait(p, b, now, want)
  {
    var deficit := want - Level(p, b, now);
    InflowAdds(p, b.updatedAt, now, t);
    WaitRefillsExactly(p, deficit);
    InflowStrict(p, t - now, RefillTime(p, deficit));
    RefusedCheckInvisible(p, b, now, want, t);
  }

  /**
    A re-check after sleeping the computed wait is refused only if some other check was granted in
    between: `i` is refused, `j` asks for the same at least the wait later and is refused again.
  */
  lemma RefusedAgainOnlyAfterGrant(p: Params, start: real, log: seq<Check>, i: nat, j: nat)
    requires ValidParams(p) && ValidLog(p, start, log) && i < j < |log| && log[j].want == log[i].want
    requires !Granted(p, start, log, i) && !Granted(p, start, log, j)
    requires log[j].at - log[i].at >= Wait(p, After(p, start, log[..i]), log[i].at, log[i].want)
    ensures exists k :: i < k < j && Granted(p, start, log, k)
  {
    if forall k | i < k < j :: !Granted(p, start, log, k) {
      QuietLevel(p, start, log, i, j, log[j].at);
      BucketBounds(p, start, log[..i]);
      WaitSuffices(p, After(p, start, log[..i]), log[i].at, log[i].want, log[j].at);
      assert false;
    }
  }

  lemma QuietLevel(p: Params, start: real, log: seq<Check>, i: nat, j: nat, t: real)
    requires ValidParams(p) && ValidLog(p, start, log) && i < j < |log| && log[j].at <= t
    requires forall k | i <= k < j :: !Granted(p, start, log, k)
    ensures Level(p, After(p, start, log[..j]), t) == Level(p, After(p, start, log[..i]), t)
  {
    var upto := log[..j];
    forall k | i <= k < |upto| ensures !Granted(p, start, upto, k) {
      assert upto[..k] == log[..k] && !Granted(p, start, log, k);
    }
    assert upto[..i] == log[..i];
    LevelWithoutGrants(p, start, upto, i, t);
  }

  /** Number of grants at positions in [lo, hi). */
  function GrantCount(p: Params, start: real, log: seq<Check>, lo: nat, hi: nat): nat
    requires lo <= hi <= |log|
  {
    if lo == hi then 0
    else GrantCount(p, start, log, lo, hi - 1) + if Granted(p, start, log, hi - 1) then 1 else 0
  }

  lemma {:induction false} GrantCountSplits(p: Params, start: real, log: seq<Check>, lo: nat, mid: nat, hi: nat)
    requires lo <= mid <= hi <= |log|
    ensures GrantCount(p, start, log, lo, hi) == GrantCount(p, start, log, lo, mid) + GrantCount(p, start, log, mid, hi)
  {
    if mid < hi {
      GrantCountSplits(p, start, log, lo, mid, hi - 1);
    }
  }

  lemma GrantCounted(p: Params, start: real, log: seq<Check>, lo: nat, k: nat, hi: nat)
    requires lo <= k < hi <= |log| && Granted(p, start, log, k)
    ensures GrantCount(p, start, log, lo, hi) >= 1
  {
    GrantCountSplits(p, start, log, lo, k + 1, hi);
  }

  /** The positions of the successive rounds of one `acquire`: each after sleeping the wait of the one before. */
  ghost predicate OneAcquire(p: Params, start: real, log: seq<Check>, rounds: seq<nat>)
    requires ValidParams(p)
  {
    && (forall m | 0 <= m < |rounds| :: rounds[m] < |log|)
    && (forall m | 0 <= m < |rounds| :: log[rounds[m]].want == log[rounds[0]].want)
    && (forall m | 0 <= m < |rounds| - 1 ::
          && rounds[m] < rounds[m + 1]
          && !Granted(p, start, log, rounds[m])
          && log[rounds[m + 1]].at - log[rounds[m]].at
             >= Wait(p, After(p, start, log[..rounds[m]]), log[rounds[m]].at, log[rounds[m]].want))
  }

  lemma {:induction false} RefusedRounds(p: Params, start: real, log: seq<Check>, rounds: seq<nat>)
    requires ValidParams(p) && ValidLog(p, start, log) && OneAcquire(p, start, log, rounds) && rounds != []
    requires !Granted(p, start, log, rounds[|rounds| - 1])
    ensures rounds[0] <= rounds[|rounds| - 1]
    ensures |rounds| <= 1 + GrantCount(p, start, log, rounds[0], rounds[|rounds| - 1])
    decreases |rounds|
  {
    var m := |rounds| - 1;
    if m > 0 {
      RefusedRounds(p, start, log, rounds[..m]);
      var i, j := rounds[m - 1], rounds[m];
      RefusedAgainOnlyAfterGrant(p, start, log, i, j);
      var k :| i < k < j && Granted(p, start, log, k);
      GrantCounted(p, start, log, i, k, j);
      GrantCountSplits(p, start, log, rounds[0], i, j);
    }
  }

  /** One `acquire` makes at most 2 + (grants to others while it waits) checks. */
  lemma ChecksBounded(p: Params, start: real, log: seq<Check>, rounds: seq<nat>)
    requires ValidParams(p) && ValidLog(p, start, log) && OneAcquire(p, start, log, rounds) && rounds != []
    ensures rounds[0] <= rounds[|rounds| - 1]
    ensures |rounds| <= 2 + GrantCount(p, start, log, rounds[0], rounds[|rounds| - 1])
  {
    var m := |rounds| - 1;
    if m > 0 {
      RefusedRounds(p, start, log, rounds[..m]);
      GrantCountSplits(p, start, log, rounds[0], rounds[m - 1], rounds[m]);
    }
  }

  lemma WaitPositive(p: Params, b: Bucket, now: real, want: real)
    requires ValidParams(p) && !Grants(p, b, now, want)
    ensures Wait(p, b, now, want) > 0.0
  {
  }

  /** A request is ever granted, if nobody else takes any, exactly when it asks for at most the capacity. */
  lemma GrantableIffWithinCapacity(p: Params, b: Bucket, want: real)
    requires ValidParams(p) && b.tokens <= p.capacity
    ensures (exists t :: b.updatedAt <= t && Grants(p, b, t, want)) <==> want <= p.capacity
  {
    if want <= p.capacity && !Grants(p, b, b.updatedAt, want) {
      var t := b.updatedAt + Wait(p, b, b.updatedAt, want);
      WaitPositive(p, b, b.updatedAt, want);
      WaitSuffices(p, b, b.updatedAt, want, t);
      assert Grants(p, b, t, want);
    }
  }

  // ---------- The object ----------

  lemma Appended(p: Params, start: real, log: seq<Check>, c: Check)
    requires ValidParams(p) && ValidLog(p, start, log) && start <= c.at && 0.0 <= c.want <= p.capacity
    requires After(p, start, log).updatedAt <= c.at
    ensures ValidLog(p, start, log + [c])
    ensures After(p, start, log + [c]) == Checked(p, After(p, start, log), c.at, c.want)
    ensures Granted(p, start, log + [c], |log|) == Grants(p, After(p, start, log), c.at, c.want)
    ensures 0.0 <= After(p, start, log).tokens <= p.capacity
  {
    assert (log + [c])[..|log|] == log;
    BucketBounds(p, start, log);
  }

  /** What one round makes of the tokens, in plain arithmetic. */
  ghost predicate Counted(p: Params, tokens: real, elapsed: real, want: real, granted: bool, left: real, wait: real) {
    var held := if tokens + elapsed * p.rate <= p.capacity then tokens + elapsed * p.rate else p.capacity;
    && (granted <==> held >= want)
    && left == held - (if granted then want else 0.0)
    && (!granted ==> wait * p.rate == want - held)
  }

  /** If nobody else takes any, the tokens are there at a later time exactly when the wait has passed. */
  ghost predicate ExactWait(p: Params, b: Bucket, now: real, want: real, wait: real) {
    forall t | now <= t :: Level(p, b, t) >= want <==> t - now >= wait
  }

  method Round(p: Params, tokens: real, elapsed: real, want: real) returns (granted: bool, left: real, wait: real)
    requires ValidParams(p)
    ensures Counted(p, tokens, elapsed, want, granted, left, wait)
  {
    left := Refilled(p, tokens, elapsed);
    if left >= want {
      granted, left, wait := true, left - want, 0.0;
    } else {
      var deficit := want - left;
      granted, wait := false, RefillTime(p, deficit);
      WaitRefillsExactly(p, deficit);
    }
  }

  lemma HeldIs(p: Params, tokens: real, elapsed: real)
    ensures Refilled(p, tokens, elapsed)
      == if tokens + elapsed * p.rate <= p.capacity then tokens + elapsed * p.rate else p.capacity
  {
  }

  lemma RoundIsCheck(p: Params, b: Bucket, now: real, elapsed: real, want: real, granted: bool, left: real, wait: real)
    requires ValidParams(p) && b.tokens <= p.capacity && elapsed == now - b.updatedAt >= 0.0 && want <= p.capacity
    requires Counted(p, b.tokens, elapsed, want, granted, left, wait)
    ensures granted == Grants(p, b, now, want) && Bucket(left, now) == Checked(p, b, now, want)
    ensures !granted ==> wait == Wait(p, b, now, want) > 0.0 && ExactWait(p, Bucket(left, now), now, want, wait)
  {
    HeldIs(p, b.tokens, elapsed);
    assert Level(p, b, now) == Refilled(p, b.tokens, elapsed);
    if !granted {
      WaitPositive(p, b, now, want);
      WaitRefillsExactly(p, want - Level(p, b, now));
      SameRate(wait, Wait(p, b, now, want), p.rate);
      forall t | now <= t ensures Level(p, Bucket(left, now), t) >= want <==> t - now >= wait {
        WaitIsExact(p, b, now, want, t);
      }
    }
  }

  lemma SameRate(x: real, y: real, rate: real)
    requires rate > 0.0 && x * rate == y * rate
    ensures x == y
  {
    assert (x - y) * rate == 0.0;
  }

  /** A round by somebody else, `after` seconds after the previous event. */
  datatype Other = Other(id: nat, after: real, want: real)

  /** What happens during one sleep: rounds by others, and how much later than planned it ends. */
  datatype Sleep = Sleep(others: seq<Other>, overslept: real)

  ghost predicate ValidOther(p: Params, o: Other) {
    o.after >= 0.0 && 0.0 <= o.want <= p.capacity
  }

  ghost predicate ValidSleep(p: Params, sleep: Sleep) {
    sleep.overslept >= 0.0 && forall k | 0 <= k < |sleep.others| :: ValidOther(p, sleep.others[k])
  }

  class Limiter {
    const p: Params
    const start: real
    var tokens: real
    var updatedAt: real
    ghost var log: seq<Check>

    ghost predicate Valid()
      reads this
    {
      && ValidParams(p) && ValidLog(p, start, log)
      && Bucket(tokens, updatedAt) == After(p, start, log)
      && updatedAt == if log == [] then start else log[|log| - 1].at
    }

    constructor (p: Params, now: real)
      requires ValidParams(p)
      ensures Valid() && this.p == p && start == now && log == []
      ensures tokens == p.capacity && updatedAt == now
    {
      this.p, start := p, now;
      tokens, updatedAt := p.capacity, now;
      log := [];
    }

    /** One round: refill, then grant or compute the wait. */
    method CheckOnce(id: nat, now: real, want: real) returns (granted: bool, wait: real)
      requires Valid() && updatedAt <= now && 0.0 <= want <= p.capacity
      modifies this
      ensures Valid() && log == old(log) + [Check(id, now, want)] && updatedAt == now
      ensures granted <==> Granted(p, start, log, |old(log)|)
      ensures Counted(p, old(tokens), now - old(updatedAt), want, granted, tokens, wait)
      ensures !granted ==> wait == Wait(p, old(Bucket(tokens, updatedAt)), now, want) > 0.0
      ensures !granted ==> ExactWait(p, Bucket(tokens, updatedAt), now, want, wait)
    {
      Appended(p, start, log, Check(id, now, want));
      ghost var before := Bucket(tokens, updatedAt);
      var elapsed := now - updatedAt;
      granted, tokens, wait := Round(p, tokens, elapsed, want);
      updatedAt := now;
      log := log + [Check(id, now, want)];
      RoundIsCheck(p, before, now, elapsed, want, granted, tokens, wait);
    }

    /** The rounds other acquirers make while one sleeps. */
    method OthersCheck(others: seq<Other>, now: real) returns (later: real)
      requires Valid() && updatedAt <= now && forall k | 0 <= k < |others| :: ValidOther(p, others[k])
      modifies this
      ensures Valid() && now <= later && updatedAt <= later
      ensures old(log) <= log
    {
      later := now;
      for k := 0 to |others|
        invariant Valid() && now <= later && updatedAt <= later && old(log) <= log
      {
        later := later + others[k].after;
        var granted, wait := CheckOnce(others[k].id, later, others[k].want);
      }
    }

    /** The check before any sleep. */
    method FirstCheck(id: nat, now: real, want: real) returns (granted: bool, wait: real)
      requires Valid() && updatedAt <= now && 0.0 <= want <= p.capacity
      modifies this
      ensures Valid() && |log| == |old(log)| + 1 && old(log) < log && updatedAt == now
      ensures if granted then Granted(p, start, log, |log| - 1) else LastRefused(p, start, log, want, wait)
    {
      granted, wait := CheckOnce(id, now, want);
      assert log[..|log| - 1] == old(log);
    }

    /** One sleep and the check after it. */
    method SleepAndCheck(id: nat, want: real, wait: real, during: Sleep) returns (granted: bool, wait': real)
      requires Valid() && 0.0 <= want <= p.capacity && ValidSleep(p, during)
      requires LastRefused(p, start, log, want, wait)
      modifies this
      ensures Valid() && Extends(p, start, old(log), log, want, wait) && old(updatedAt) <= updatedAt
      ensures if granted then Granted(p, start, log, |log| - 1) else LastRefused(p, start, log, want, wait')
    {
      var due := updatedAt + wait;
      var later := OthersCheck(during.others, updatedAt);
      ghost var before := log;
      granted, wait' := CheckOnce(id, (if later <= due then due else later) + during.overslept, want);
      assert log[..|log| - 1] == before;
    }

    /**
      The whole loop: check, sleep the computed wait, check again. `sleeps` is what happens during each
      sleep; the loop gives up only when it runs out. A caller makes at most 2 + (grants to others)
      checks, and one that was never granted slept at most as often as others were granted meanwhile.
    */
    method Acquire(id: nat, want: real, now: real, sleeps: seq<Sleep>) returns (granted: bool, checks: nat)
      requires Valid() && updatedAt <= now && 0.0 <= want <= p.capacity
      requires forall m | 0 <= m < |sleeps| :: ValidSleep(p, sleeps[m])
      modifies this
      ensures Valid() && old(log) < log && 1 <= checks && now <= updatedAt
      ensures granted <==> Granted(p, start, log, |log| - 1)
      ensures checks <= 2 + GrantCount(p, start, log, |old(log)|, |log| - 1)
      ensures !granted ==> |sleeps| == checks - 1 <= GrantCount(p, start, log, |old(log)|, |log| - 1)
    {
      var wait;
      ghost var lo := |log|;
      granted, wait := FirstCheck(id, now, want);
      checks := 1;
      while !granted && checks <= |sleeps|
        invariant Valid() && old(log) < log && now <= updatedAt && checks <= |sleeps| + 1
        invariant Acquiring(p, start, log, lo, want, granted, wait, checks)
        decreases |sleeps| - checks
      {
        ghost var before, waited := log, wait;
        granted, wait := SleepAndCheck(id, want, wait, sleeps[checks - 1]);
        AnotherRound(p, start, before, log, lo, want, granted, waited, wait, checks);
        checks := checks + 1;
      }
    }
  }

  /** The outcome of the latest round of an `acquire` that began at position `lo` and made `checks` rounds. */
  ghost predicate Acquiring(p: Params, start: real, log: seq<Check>, lo: nat, want: real, granted: bool, wait: real, checks: nat) {
    && lo < |log| && 1 <= checks
    && checks <= GrantCount(p, start, log, lo, |log| - 1) + (if granted then 2 else 1)
    && if granted then Granted(p, start, log, |log| - 1) else LastRefused(p, start, log, want, wait)
  }

  /** The last round of the log was refused and told to wait. */
  ghost predicate LastRefused(p: Params, start: real, log: seq<Check>, want: real, wait: real) {
    && ValidParams(p) && log != [] && log[|log| - 1].want == want && !Granted(p, start, log, |log| - 1)
    && wait == Wait(p, After(p, start, log[..|log| - 1]), log[|log| - 1].at, want) > 0.0
  }

  /** The log went on, and its last round asks again for `want`, no earlier than the wait. */
  ghost predicate Extends(p: Params, start: real, before: seq<Check>, log: seq<Check>, want: real, wait: real) {
    && before != [] && before < log
    && log[|log| - 1].want == want && log[|log| - 1].at - before[|before| - 1].at >= wait
  }

  lemma {:induction false} GrantCountPrefix(p: Params, start: real, before: seq<Check>, log: seq<Check>, lo: nat, hi: nat)
    requires lo <= hi <= |before| <= |log| && log[..|before|] == before
    ensures GrantCount(p, start, log, lo, hi) == GrantCount(p, start, before, lo, hi)
  {
    if lo < hi {
      assert log[..hi - 1] == before[..hi - 1];
      GrantCountPrefix(p, start, before, log, lo, hi - 1);
    }
  }

  /** Each further refusal has cost a grant to somebody else. */
  lemma AnotherRound(p: Params, start: real, before: seq<Check>, log: seq<Check>, lo: nat, want: real,
                     granted: bool, waited: real, wait: real, checks: nat)
    requires ValidParams(p) && ValidLog(p, start, log)
    requires Acquiring(p, start, before, lo, want, false, waited, checks)
    requires Extends(p, start, before, log, want, waited)
    requires if granted then Granted(p, start, log, |log| - 1) else LastRefused(p, start, log, want, wait)
    ensures Acquiring(p, start, log, lo, want, granted, wait, checks + 1)
  {
    var i, j := |before| - 1, |log| - 1;
    assert log[..i] == before[..i] && log[i] == before[i];
    GrantCountPrefix(p, start, before, log, lo, i);
    GrantCountSplits(p, start, log, lo, i, j);
    if !granted {
      RefusedAgainOnlyAfterGrant(p, start, log, i, j);
      var k :| i < k < j && Granted(p, start, log, k);
      GrantCounted(p, start, log, i, k, j);
    }
  }
}
