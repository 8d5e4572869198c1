/**
  The pool of warm browser pages: created together, borrowed and returned through a queue, closed
  together. A context is named by its position among all contexts ever opened.
*/
module BrowserPool {

  /** How the creation of one entry can end; a page that cannot be opened closes its context again. */
  datatype Creation = ContextFails | PageFails | Created

  /** `contexts` counts the contexts ever opened, `closes` lists the closes attempted. */
  datatype Pool = Pool(queue: seq<nat>, all: seq<nat>, held: multiset<nat>, started: bool,
                       contexts: nat, closes: seq<nat>)

  datatype Op = Start(creations: seq<Creation>) | Acquire | Release(entry: nat) | Stop

  function Init(): Pool {
    Pool([], [], multiset{}, false, 0, [])
  }

  /** The entry of one creation: tracked and queued, or its context closed, or never opened. */
  function Enter(s: Pool, c: Creation): Pool {
    match c
    case ContextFails => s
    case PageFails => s.(contexts := s.contexts + 1, closes := s.closes + [s.contexts])
    case Created => s.(contexts := s.contexts + 1, all := s.all + [s.contexts], queue := s.queue + [s.contexts])
  }

  function EnterAll(s: Pool, cs: seq<Creation>): Pool {
    if cs == [] then s else Enter(EnterAll(s, cs[..|cs| - 1]), cs[|cs| - 1])
  }

  predicate AllCreated(cs: seq<Creation>) {
    forall k | 0 <= k < |cs| :: cs[k].Created?
  }

  /** `acquire` waits while the queue is empty; `stop` is called when no page is held. */
  predicate Enabled(s: Pool, op: Op) {
    match op
    case Start(_) => true
    case Acquire => s.queue != []
    case Release(entry) => entry in s.held
    case Stop => s.held == multiset{}
  }

  function Apply(s: Pool, op: Op): Pool
    requires Enabled(s, op)
  {
    match op
    case Start(cs) => if s.started then s else EnterAll(s, cs).(started := AllCreated(cs))
    case Acquire => s.(queue := s.queue[1..], held := s.held + multiset{s.queue[0]})
    case Release(entry) => s.(queue := s.queue + [entry], held := s.held - multiset{entry})
    case Stop => s.(queue := [], all := [], started := false, closes := s.closes + s.all)
  }

  // ---------- Invariants ----------

  /** Each entry is in exactly one place: the queue or one holder's hands. */
  ghost predicate OnePlace(s: Pool) {
    multiset(s.queue) + s.held == multiset(s.all)
  }

  /** Each context ever opened is either tracked or has had its close attempted, exactly once. */
  ghost predicate ClosedOrTracked(s: Pool) {
    && |s.closes| + |s.all| == s.contexts
    && forall id: nat :: multiset(s.closes)[id] + multiset(s.all)[id] == if id < s.contexts then 1 else 0
  }

  ghost predicate Inv(s: Pool) {
    OnePlace(s) && ClosedOrTracked(s)
  }

  lemma {:induction false} EnterAllInv(s: Pool, cs: seq<Creation>)
    requires Inv(s)
    ensures Inv(EnterAll(s, cs))
  {
    if cs != [] {
      EnterAllInv(s, cs[..|cs| - 1]);
    }
  }

  lemma InvStep(s: Pool, op: Op)
    requires Inv(s) && Enabled(s, op)
    ensures Inv(Apply(s, op))
  {
    match op
    case Start(cs) => EnterAllInv(s, cs);
    case Acquire => assert s.queue == [s.queue[0]] + s.queue[1..];
    case Release(_) =>
    case Stop =>
  }

  ghost predicate Run(s: Pool, ops: seq<Op>, t: Pool)
    decreases |ops|
  {
    if ops == [] then s == t else Enabled(s, ops[0]) && Run(Apply(s, ops[0]), ops[1..], t)
  }

  lemma {:induction false} InvRun(s: Pool, ops: seq<Op>, t: Pool)
    requires Inv(s) && Run(s, ops, t)
    ensures Inv(t)
    decreases |ops|
  {
    if ops != [] {
      InvStep(s, ops[0]);
      InvRun(Apply(s, ops[0]), ops[1..], t);
    }
  }

  /**
    Over any run, with failed starts and repeated starts and stops among it: every tracked entry is in
    the queue or held, in one place only; at most `size` are held; the contexts opened and not closed
    are exactly as many as are tracked; and no context is closed twice or closed while tracked.
  */
  lemma PoolSafe(ops: seq<Op>, t: Pool)
    requires Run(Init(), ops, t)
    ensures forall e: nat :: multiset(t.queue)[e] + t.held[e] == (if e in t.all then 1 else 0)
    ensures |t.held| <= |t.all|
    ensures t.contexts - |t.closes| == |t.all|
    ensures forall id: nat :: multiset(t.closes)[id] == if id < t.contexts && id !in t.all then 1 else 0
  {
    InvRun(Init(), ops, t);
    assert |multiset(t.queue)| + |t.held| == |multiset(t.all)|;
    forall e: nat
      ensures multiset(t.queue)[e] + t.held[e] == (if e in t.all then 1 else 0)
      ensures multiset(t.closes)[e] == if e < t.contexts && e !in t.all then 1 else 0
    {
      assert e in t.all <==> multiset(t.all)[e] > 0;
      assert multiset(t.queue)[e] + t.held[e] == multiset(t.all)[e];
    }
  }

  /** Stopping leaks nothing: every context ever opened has had its close attempted exactly once. */
  lemma StopClosesEverything(ops: seq<Op>, t: Pool)
    requires Run(Init(), ops, t) && t.held == multiset{}
    ensures
      var stopped := Apply(t, Stop);
      && stopped.closes == t.closes + t.all && |stopped.closes| == stopped.contexts
      && forall id: nat :: multiset(stopped.closes)[id] == if id < stopped.contexts then 1 else 0
  {
    InvRun(Init(), ops, t);
    InvStep(t, Stop);
  }

  /** A start of `n` creations that all succeed adds `n` new entries to the queue, and nothing else. */
  lemma {:induction false} StartAddsEach(s: Pool, cs: seq<Creation>)
    requires AllCreated(cs)
    ensures
      var t, added := EnterAll(s, cs), seq(|cs|, k => s.contexts + k);
      t == s.(contexts := s.contexts + |cs|, all := s.all + added, queue := s.queue + added)
  {
    if cs != [] {
      var n := |cs| - 1;
      StartAddsEach(s, cs[..n]);
      assert seq(|cs|, k => s.contexts + k) == seq(n, k => s.contexts + k) + [s.contexts + n];
      assert cs[n].Created?;
    }
  }

  /** Whatever fails, a start tracks one new entry for each creation that succeeded. */
  lemma {:induction false} StartTracksCreated(s: Pool, cs: seq<Creation>)
    ensures |EnterAll(s, cs).all| == |s.all| + Created(cs) && |EnterAll(s, cs).queue| == |s.queue| + Created(cs)
  {
    if cs != [] {
      StartTracksCreated(s, cs[..|cs| - 1]);
    }
  }

  function Created(cs: seq<Creation>): nat {
    if cs == [] then 0 else Created(cs[..|cs| - 1]) + if cs[|cs| - 1].Created? then 1 else 0
  }

  // ---------- The object ----------

  class BrowserContextPool {
    var queue: seq<nat>
    var all: seq<nat>
    var started: bool
    var contexts: nat
    ghost var held: multiset<nat>
    ghost var closes: seq<nat>

    ghost function Contents(): Pool
      reads this
    {
      Pool(queue, all, held, started, contexts, closes)
    }

    constructor ()
      ensures Contents() == Init()
    {
      queue, all, started, contexts := [], [], false, 0;
      held, closes := multiset{}, [];
    }

    /**
      Creates the entries together, tracks whatever was created, then fails with the first error if
      there was one. The entries that were created stay tracked, so a later `Stop` closes them.
    */
    method Start(creations: seq<Creation>) returns (ok: bool)
      modifies this
      ensures Contents() == Apply(old(Contents()), Op.Start(creations))
      ensures ok <==> old(started) || AllCreated(creations)
      ensures started == ok
      ensures !old(started) && ok ==>
        var added := seq(|creations|, k => old(contexts) + k);
        && queue == old(queue) + added && all == old(all) + added && closes == old(closes)
    {
      if started {
        return true;
      }
      ghost var s := Contents();
      ok := true;
      for k := 0 to |creations|
        invariant Contents() == EnterAll(s, creations[..k]) && !started
        invariant ok <==> AllCreated(creations[..k])
      {
        assert creations[..k + 1][..k] == creations[..k];
        match creations[k] {
          case ContextFails => ok := false;
          case PageFails =>
            closes := closes + [contexts];
            contexts := contexts + 1;
            ok := false;
          case Created =>
            all := all + [contexts];
            queue := queue + [contexts];
            contexts := contexts + 1;
        }
        assert AllCreated(creations[..k + 1]) <==> AllCreated(creations[..k]) && creations[..k + 1][k].Created?;
      }
      assert creations[..|creations|] == creations;
      started := ok;
      if ok {
        StartAddsEach(s, creations);
      }
    }

    method Acquire() returns (entry: nat)
      requires queue != []
      modifies this
      ensures Contents() == Apply(old(Contents()), Op.Acquire)
      ensures old(queue) == [entry] + queue && held == old(held) + multiset{entry} && all == old(all)
    {
      entry, queue := queue[0], queue[1..];
      held := held + multiset{entry};
    }

    method Release(entry: nat)
      requires entry in held
      modifies this
      ensures Contents() == Apply(old(Contents()), Op.Release(entry))
      ensures queue == old(queue) + [entry] && held == old(held) - multiset{entry} && all == old(all)
    {
      queue := queue + [entry];
      held := held - multiset{entry};
    }

    /** Attempts to close each tracked context in turn; a close that raises does not stop the others. */
    method Stop(raises: nat -> bool) returns (logged: seq<nat>)
      requires held == multiset{}
      modifies this
      ensures Contents() == Apply(old(Contents()), Op.Stop)
      ensures queue == [] && all == [] && !started && closes == old(closes) + old(all)
      ensures forall e :: e in logged <==> e in old(all) && raises(e)
    {
      logged := [];
      for k := 0 to |all|
        invariant all == old(all) && queue == old(queue) && started == old(started)
        invariant held == old(held) && contexts == old(contexts)
        invariant closes == old(closes) + all[..k]
        invariant forall e :: e in logged <==> e in all[..k] && raises(e)
      {
        closes := closes + [all[k]];
        if raises(all[k]) {
          logged := logged + [all[k]];
        }
      }
      assert all[..|all|] == all;
      all, queue, started := [], [], false;
    }
  }
}
