/**
  The adaptive scroll loop: scroll, poll for new cards during a window that grows while the list is
  stalled, and stop at the limit, at the end of the list or out of attempts. Card counts are whatever
  the page shows at each look.
*/
module ScrollEngine {
  import opened Sums

  datatype Params = Params(basePause: real, maxStall: nat, maxTotal: int, pollInterval: real)

  ghost predicate ValidParams(p: Params) {
    p.basePause > 0.0 && p.maxStall >= 1 && p.pollInterval > 0.0
  }

  datatype ScrollResult = ScrollResult(scrollCount: nat, reachedEnd: bool, reachedLimit: bool)

  function Min(a: real, b: real): real {
    if a <= b then a else b
  }

  function Growth(n: nat): real {
    if n == 0 then 1.0 else 1.5 * Growth(n - 1)
  }

  /** The window of a scroll that follows `stall` unproductive ones. */
  function Pause(base: real, stall: nat): real {
    Min(base * Growth(stall), base * 4.0)
  }

  lemma {:induction false} GrowthAtLeastOne(n: nat)
    ensures Growth(n) >= 1.0
  {
    if n > 0 {
      GrowthAtLeastOne(n - 1);
    }
  }

  lemma PauseBounds(base: real, stall: nat)
    requires base > 0.0
    ensures 0.0 < base <= Pause(base, stall) <= base * 4.0
  {
    GrowthAtLeastOne(stall);
    assert base * Growth(stall) >= base * 1.0;
  }

  /** Multiplying by 1.5 and capping, step by step, is capping the power. */
  lemma PauseGrows(base: real, stall: nat)
    requires base > 0.0
    ensures Min(Pause(base, stall) * 1.5, base * 4.0) == Pause(base, stall + 1)
  {
    var grown := base * Growth(stall);
    assert base * Growth(stall + 1) == grown * 1.5;
  }

  // ---------- One window ----------

  /** Poll intervals still needed to use up `left` seconds. */
  function Polls(left: real, interval: real): int
    requires interval > 0.0
  {
    if left <= 0.0 then 0 else (left / interval).Floor + 1
  }

  lemma Cancel(a: real, b: real, c: real)
    requires c > 0.0 && a * c == b * c
    ensures a == b
  {
    assert (a - b) * c == 0.0;
  }

  lemma PollsFall(left: real, interval: real)
    requires left > 0.0 && interval > 0.0
    ensures 0 <= Polls(left - Min(interval, left), interval) < Polls(left, interval)
  {
    var n := left / interval;
    assert n * interval == left;
    if interval <= left {
      var m := (left - interval) / interval;
      assert m * interval == left - interval == (n - 1.0) * interval;
      Cancel(m, n - 1.0, interval);
      assert (n - 1.0).Floor == n.Floor - 1;
    } else {
      assert n > 0.0;
    }
  }

  /**
    Polls until the count exceeds `previous` or the window is over. A window without progress is slept
    in full, and the count reported is the first that is higher, or else the last one seen.
  */
  method WaitForProgress(p: Params, previous: int, timeout: real, look: nat -> int, first: nat)
    returns (current: int, slept: real, next: nat)
    requires ValidParams(p) && timeout > 0.0
    ensures first < next && current == look(next - 1) && 0.0 < slept <= timeout
    ensures forall k | first <= k < next - 1 :: look(k) <= previous
    ensures current <= previous ==> slept == timeout
  {
    slept, current, next := 0.0, previous, first;
    while slept < timeout
      invariant 0.0 <= slept <= timeout && first <= next
      invariant if next == first then slept == 0.0 else current == look(next - 1) && slept > 0.0
      invariant forall k | first <= k < next :: look(k) <= previous
      decreases Polls(timeout - slept, p.pollInterval)
    {
      var interval := Min(p.pollInterval, timeout - slept);
      PollsFall(timeout - slept, p.pollInterval);
      slept := slept + interval;
      current := look(next);
      next := next + 1;
      if current > previous {
        return;
      }
    }
  }

  // ---------- Traces ----------

  /** Unproductive scrolls in a row that end with scroll `k`; `counts[0]` is the count before any scroll. */
  function StallRun(counts: seq<int>, k: nat): nat
    requires k < |counts|
  {
    if k == 0 || counts[k] > counts[k - 1] then 0 else StallRun(counts, k - 1) + 1
  }

  /** Productive scrolls among the first `k`. */
  function Progress(counts: seq<int>, k: nat): nat
    requires k < |counts|
  {
    if k == 0 then 0 else Progress(counts, k - 1) + if counts[k] > counts[k - 1] then 1 else 0
  }

  /** The trace of a run: the count after each scroll, and each scroll's window and sleep. */
  datatype Trace = Trace(counts: seq<int>, windows: seq<real>, sleeps: seq<real>)

  /** Scroll `k` began below the limit and unstalled, with the window its stalls call for. */
  ghost predicate ScrolledAt(p: Params, limit: int, t: Trace, k: nat)
    requires k < |t.counts| - 1 && k < |t.windows| && k < |t.sleeps|
  {
    && k < p.maxTotal && t.counts[k] < limit && StallRun(t.counts, k) < p.maxStall
    && t.windows[k] == Pause(p.basePause, StallRun(t.counts, k))
    && 0.0 < t.sleeps[k] <= t.windows[k]
    && (t.counts[k + 1] <= t.counts[k] ==> t.sleeps[k] == t.windows[k])
  }

  ghost predicate ScrolledBy(p: Params, limit: int, t: Trace, n: nat) {
    && |t.counts| == n + 1 && |t.windows| == |t.sleeps| == n
    && forall k: nat | k < n :: ScrolledAt(p, limit, t, k)
  }

  ghost predicate NeverFalls(look: nat -> int) {
    forall i, j | i <= j :: look(i) <= look(j)
  }

  ghost predicate CountsNeverFall(counts: seq<int>) {
    forall k | 0 <= k < |counts| - 1 :: counts[k] <= counts[k + 1]
  }

  lemma {:induction false} Extended(counts: seq<int>, c: int, k: nat)
    requires k < |counts|
    ensures StallRun(counts + [c], k) == StallRun(counts, k)
    ensures Progress(counts + [c], k) == Progress(counts, k)
  {
    if k > 0 {
      Extended(counts, c, k - 1);
    }
  }

  lemma ScrolledOn(p: Params, limit: int, t: Trace, n: nat, c: int, window: real, slept: real)
    requires ScrolledBy(p, limit, t, n) && n < p.maxTotal && t.counts[n] < limit && StallRun(t.counts, n) < p.maxStall
    requires window == Pause(p.basePause, StallRun(t.counts, n)) && 0.0 < slept <= window
    requires c <= t.counts[n] ==> slept == window
    ensures ScrolledBy(p, limit, Trace(t.counts + [c], t.windows + [window], t.sleeps + [slept]), n + 1)
    ensures StallRun(t.counts + [c], n + 1) == if c > t.counts[n] then 0 else StallRun(t.counts, n) + 1
  {
    var t' := Trace(t.counts + [c], t.windows + [window], t.sleeps + [slept]);
    Extended(t.counts, c, n);
    forall k: nat | k < n + 1 ensures ScrolledAt(p, limit, t', k) {
      Extended(t.counts, c, k);
      if k < n {
        assert ScrolledAt(p, limit, t, k);
      }
    }
  }

  /**
    The loop. The limit is reported exactly when the last count meets it with attempts to spare; the
    end exactly when the marker shows below the limit, or the last `maxStall` scrolls brought nothing.
  */
  method ScrollUntil(p: Params, limit: int, look: nat -> int, marker: nat -> bool) returns (r: ScrollResult, t: Trace)
    requires ValidParams(p)
    ensures ScrolledBy(p, limit, t, r.scrollCount)
    ensures t.counts[0] == look(0) && (NeverFalls(look) ==> CountsNeverFall(t.counts))
    ensures r.reachedLimit <==> t.counts[r.scrollCount] >= limit && r.scrollCount < p.maxTotal
    ensures r.reachedEnd <==>
      || StallRun(t.counts, r.scrollCount) == p.maxStall
      || (r.scrollCount < p.maxTotal && t.counts[r.scrollCount] < limit && marker(r.scrollCount))
    ensures !(r.reachedEnd && r.reachedLimit)
    ensures !r.reachedEnd && !r.reachedLimit ==> r.scrollCount >= p.maxTotal
  {
    var stall, total, pause := 0, 0, p.basePause;
    var previous, next := look(0), 1;
    t := Trace([previous], [], []);
    while total < p.maxTotal
      invariant ScrolledBy(p, limit, t, total) && previous == t.counts[total]
      invariant t.counts[0] == look(0) && previous == look(next - 1) && next >= 1
      invariant NeverFalls(look) ==> CountsNeverFall(t.counts)
      invariant stall == StallRun(t.counts, total) < p.maxStall && pause == Pause(p.basePause, stall)
      decreases p.maxTotal - total
    {
      if previous >= limit {
        return ScrollResult(total, false, true), t;
      }
      if marker(total) {
        return ScrollResult(total, true, false), t;
      }
      PauseBounds(p.basePause, stall);
      var current, slept;
      current, slept, next := WaitForProgress(p, previous, pause, look, next);
      ScrolledOn(p, limit, t, total, current, pause, slept);
      t := Trace(t.counts + [current], t.windows + [pause], t.sleeps + [slept]);
      total := total + 1;
      if current <= previous {
        stall := stall + 1;
        PauseGrows(p.basePause, stall - 1);
        pause := Min(pause * 1.5, p.basePause * 4.0);
        if stall >= p.maxStall {
          return ScrollResult(total, true, false), t;
        }
      } else {
        stall := 0;
        pause := p.basePause;
      }
      previous := current;
    }
    r := ScrollResult(total, false, false);
  }

  // ---------- Bounds ----------

  lemma {:induction false} StallsBetweenProgress(p: Params, limit: int, t: Trace, n: nat, k: nat)
    requires ScrolledBy(p, limit, t, n) && k <= n
    ensures StallRun(t.counts, k) <= p.maxStall
    ensures k <= Product(p.maxStall, Progress(t.counts, k)) + StallRun(t.counts, k)
  {
    if k > 0 {
      StallsBetweenProgress(p, limit, t, n, k - 1);
      assert ScrolledAt(p, limit, t, k - 1);
    }
  }

  function Product(a: nat, times: nat): nat {
    if times == 0 then 0 else Product(a, times - 1) + a
  }

  lemma {:induction false} ProductIs(a: nat, times: nat)
    ensures Product(a, times) == a * times
  {
    if times > 0 {
      ProductIs(a, times - 1);
      assert a * times == a * (times - 1) + a;
    }
  }

  /** A run makes at most `maxTotal` scrolls, and at most `maxStall` for each productive one and once more. */
  lemma ScrollsBounded(p: Params, limit: int, t: Trace, n: nat)
    requires ScrolledBy(p, limit, t, n)
    ensures n > 0 ==> n <= p.maxTotal
    ensures n <= p.maxStall * (Progress(t.counts, n) + 1)
  {
    StallsBetweenProgress(p, limit, t, n, n);
    ProductIs(p.maxStall, Progress(t.counts, n));
    ProductIs(p.maxStall, Progress(t.counts, n) + 1);
    if n > 0 {
      assert ScrolledAt(p, limit, t, n - 1);
    }
  }

  lemma {:induction false} ProgressClimbs(p: Params, limit: int, t: Trace, n: nat, k: nat)
    requires ScrolledBy(p, limit, t, n) && CountsNeverFall(t.counts) && k <= n && t.counts[0] <= limit
    ensures t.counts[0] + Progress(t.counts, k) <= t.counts[k]
    ensures t.counts[0] + Progress(t.counts, k) <= limit
  {
    if k > 0 {
      ProgressClimbs(p, limit, t, n, k - 1);
      assert ScrolledAt(p, limit, t, k - 1);
    }
  }

  lemma ProductMonotone(a: nat, x: nat, y: nat)
    requires x <= y
    ensures a * x <= a * y
  {
  }

  /** When counts never fall, the room between the first count and the limit bounds the scrolls. */
  lemma ScrollsBoundedByRoom(p: Params, limit: int, t: Trace, n: nat)
    requires ScrolledBy(p, limit, t, n) && CountsNeverFall(t.counts) && t.counts[0] <= limit
    ensures n <= p.maxStall * (limit - t.counts[0] + 1)
  {
    ScrollsBounded(p, limit, t, n);
    ProgressClimbs(p, limit, t, n, n);
    ProductMonotone(p.maxStall, Progress(t.counts, n) + 1, limit - t.counts[0] + 1);
  }

  /** The run sleeps at most four base pauses per scroll. */
  lemma {:induction false} SleepBounded(p: Params, limit: int, t: Trace, n: nat, k: nat)
    requires ValidParams(p) && ScrolledBy(p, limit, t, n) && k <= n
    ensures SumOf(t.sleeps[..k]) <= 4.0 * p.basePause * k as real
  {
    if k > 0 {
      SleepBounded(p, limit, t, n, k - 1);
      assert ScrolledAt(p, limit, t, k - 1);
      PauseBounds(p.basePause, StallRun(t.counts, k - 1));
      assert t.sleeps[..k][..k - 1] == t.sleeps[..k - 1];
      assert 4.0 * p.basePause * k as real == 4.0 * p.basePause * (k - 1) as real + 4.0 * p.basePause;
    }
  }

  /** A stalled exit: the last `maxStall` scrolls showed no increase and the count is below the limit. */
  lemma {:induction false} StalledExit(p: Params, limit: int, t: Trace, n: nat, k: nat)
    requires ScrolledBy(p, limit, t, n) && k <= n
    ensures StallRun(t.counts, k) <= k
    ensures forall j | k - StallRun(t.counts, k) <= j < k :: t.counts[j + 1] <= t.counts[j] < limit
    ensures StallRun(t.counts, k) > 0 ==> t.counts[k] < limit
  {
    if k > 0 {
      StalledExit(p, limit, t, n, k - 1);
      assert ScrolledAt(p, limit, t, k - 1);
    }
  }
}
