/** The in-memory TTL cache: entries expire, and an expired entry is evicted only when it is asked for. */
module MemoryCache {
  import opened Wrappers

  /** A cached value may itself be None. */
  datatype Entry<T> = Entry(value: Option<T>, expiresAt: real)

  type Store<T> = map<string, Entry<T>>

  datatype Op<T> =
    | Get(key: string)
    | Set(key: string, value: Option<T>, ttl: Option<real>)
    | Delete(key: string)
    | Clear

  /** An operation and the clock reading it makes. */
  datatype Request<T> = Request(op: Op<T>, at: real)

  predicate Expired<T>(e: Entry<T>, now: real) {
    e.expiresAt < now
  }

  function NewEntry<T>(value: Option<T>, ttl: Option<real>, defaultTtl: real, now: real): Entry<T> {
    Entry(value, now + if ttl.None? then defaultTtl else ttl.value)
  }

  // ---------- The cache and the ideal it stands for ----------

  /** The cache: a lookup that finds an expired entry deletes it. */
  function Step<T>(defaultTtl: real, store: Store<T>, r: Request<T>): Store<T> {
    match r.op
    case Get(key) => if key in store && Expired(store[key], r.at) then store - {key} else store
    case Set(key, value, ttl) => store[key := NewEntry(value, ttl, defaultTtl, r.at)]
    case Delete(key) => store - {key}
    case Clear => map[]
  }

  /** The ideal timed map: nothing is ever evicted. */
  function IdealStep<T>(defaultTtl: real, ideal: Store<T>, r: Request<T>): Store<T> {
    if r.op.Get? then ideal else Step(defaultTtl, ideal, r)
  }

  /** What a lookup answers: None for a missing or an expired entry. */
  function Answer<T>(store: Store<T>, key: string, now: real): Option<T> {
    if key !in store || Expired(store[key], now) then None else store[key].value
  }

  /** The answers of the lookups among `history`, in order. */
  function Answers<T>(defaultTtl: real, store: Store<T>, history: seq<Request<T>>): seq<Option<T>>
    decreases |history|
  {
    if history == [] then []
    else
      var r := history[0];
      (if r.op.Get? then [Answer(store, r.op.key, r.at)] else [])
      + Answers(defaultTtl, Step(defaultTtl, store, r), history[1..])
  }

  function IdealAnswers<T>(defaultTtl: real, ideal: Store<T>, history: seq<Request<T>>): seq<Option<T>>
    decreases |history|
  {
    if history == [] then []
    else
      var r := history[0];
      (if r.op.Get? then [Answer(ideal, r.op.key, r.at)] else [])
      + IdealAnswers(defaultTtl, IdealStep(defaultTtl, ideal, r), history[1..])
  }

  ghost predicate Timed<T>(clock: real, history: seq<Request<T>>) {
    && (forall k | 0 <= k < |history| :: clock <= history[k].at)
    && forall j, k | 0 <= j < k < |history| :: history[j].at <= history[k].at
  }

  /** The cache lacks nothing of the ideal but entries that have expired. */
  ghost predicate Mirrors<T>(store: Store<T>, ideal: Store<T>, clock: real) {
    && (forall k | k in store :: k in ideal && ideal[k] == store[k])
    && forall k | k in ideal && k !in store :: Expired(ideal[k], clock)
  }

  lemma MirrorsStep<T>(defaultTtl: real, store: Store<T>, ideal: Store<T>, clock: real, r: Request<T>)
    requires Mirrors(store, ideal, clock) && clock <= r.at
    ensures Mirrors(Step(defaultTtl, store, r), IdealStep(defaultTtl, ideal, r), r.at)
    ensures r.op.Get? ==> Answer(store, r.op.key, r.at) == Answer(ideal, r.op.key, r.at)
  {
  }

  /** Lazy eviction is unobservable: under a clock that never runs backwards every lookup answers as the ideal. */
  lemma {:induction false} EvictionUnobservable<T>(defaultTtl: real, store: Store<T>, ideal: Store<T>, clock: real,
                                                    history: seq<Request<T>>)
    requires Mirrors(store, ideal, clock) && Timed(clock, history)
    ensures Answers(defaultTtl, store, history) == IdealAnswers(defaultTtl, ideal, history)
    decreases |history|
  {
    if history != [] {
      MirrorsStep(defaultTtl, store, ideal, clock, history[0]);
      EvictionUnobservable(defaultTtl, Step(defaultTtl, store, history[0]), IdealStep(defaultTtl, ideal, history[0]),
                           history[0].at, history[1..]);
    }
  }

  /** In particular from an empty cache. */
  lemma CacheIsIdeal<T>(defaultTtl: real, start: real, history: seq<Request<T>>)
    requires Timed(start, history)
    ensures Answers(defaultTtl, map[], history) == IdealAnswers(defaultTtl, map[], history)
  {
    EvictionUnobservable(defaultTtl, map[], map[], start, history);
  }

  /** A clock that runs backwards would show: an evicted entry is gone where the ideal still has it. */
  lemma ClockMustNotRunBackwards()
    ensures
      var history := [Request(Set("k", Some(1), None), 0.0), Request(Get("k"), 2.0), Request(Get("k"), 1.0)];
      Answers(1.0, map[], history) != IdealAnswers(1.0, map[], history)
  {
    var store: Store<int> := map["k" := Entry(Some(1), 1.0)];
    assert Step(1.0, map[], Request(Set("k", Some(1), None), 0.0)) == store;
    assert Step(1.0, store, Request(Get("k"), 2.0)) == map[];
    var history := [Request(Set("k", Some(1), None), 0.0), Request(Get("k"), 2.0), Request(Get("k"), 1.0)];
    var last: seq<Request<int>> := [Request(Get("k"), 1.0)];
    assert history[1..][1..] == last && last[1..] == [];
    assert Answers(1.0, map[], last) == [None] && IdealAnswers(1.0, store, last) == [Some(1)];
    assert Answers(1.0, store, history[1..]) == [None] + Answers(1.0, map[], last);
    assert IdealAnswers(1.0, store, history[1..]) == [None] + IdealAnswers(1.0, store, last);
    assert Answers(1.0, map[], history)[1] == None && IdealAnswers(1.0, map[], history)[1] == Some(1);
  }

  // ---------- What a lookup answers, read off the history ----------

  /** The ideal map after a history. */
  function IdealAfter<T>(defaultTtl: real, history: seq<Request<T>>): Store<T> {
    if history == [] then map[]
    else IdealStep(defaultTtl, IdealAfter(defaultTtl, history[..|history| - 1]), history[|history| - 1])
  }

  /** Request `j` set the key, and nothing since has set or deleted it or cleared the cache. */
  ghost predicate LastWrite<T>(history: seq<Request<T>>, key: string, j: nat) {
    && j < |history| && history[j].op.Set? && history[j].op.key == key
    && forall m | j < m < |history| ::
         !history[m].op.Clear? && !((history[m].op.Set? || history[m].op.Delete?) && history[m].op.key == key)
  }

  /** When what request `j` set expires. */
  function Deadline<T>(defaultTtl: real, r: Request<T>): real
    requires r.op.Set?
  {
    r.at + match r.op.ttl case None => defaultTtl case Some(ttl) => ttl
  }

  /** The value looked up at `now`: what was last set, while it lasts. */
  ghost predicate AnswersFrom<T>(defaultTtl: real, history: seq<Request<T>>, key: string, now: real, value: Option<T>) {
    && (forall j: nat | LastWrite(history, key, j) ::
          value == if now <= Deadline(defaultTtl, history[j]) then history[j].op.value else None)
    && ((forall j: nat :: !LastWrite(history, key, j)) ==> value == None)
  }

  lemma {:induction false} IdealIsLastWrite<T>(defaultTtl: real, history: seq<Request<T>>, key: string)
    ensures
      var ideal := IdealAfter(defaultTtl, history);
      if key in ideal then
        exists j: nat :: LastWrite(history, key, j)
          && ideal[key] == Entry(history[j].op.value, Deadline(defaultTtl, history[j]))
      else forall j: nat :: !LastWrite(history, key, j)
  {
    if history != [] {
      var n := |history| - 1;
      var before := history[..n];
      var ideal := IdealAfter(defaultTtl, history);
      IdealIsLastWrite(defaultTtl, before, key);
      forall j: nat | j < n ensures LastWrite(history, key, j) ==> LastWrite(before, key, j) {
        assert before[j] == history[j];
      }
      if key in ideal {
        if history[n].op.Set? && history[n].op.key == key {
          assert LastWrite(history, key, n);
        } else {
          var j: nat :| LastWrite(before, key, j)
            && IdealAfter(defaultTtl, before)[key] == Entry(before[j].op.value, Deadline(defaultTtl, before[j]));
          assert before[j] == history[j] && LastWrite(history, key, j);
        }
      }
    }
  }

  /** Two last writes of one key are the same request. */
  lemma OneLastWrite<T>(history: seq<Request<T>>, key: string, i: nat, j: nat)
    requires LastWrite(history, key, i) && LastWrite(history, key, j)
    ensures i == j
  {
  }

  /** A lookup in the ideal map answers the value last set under the key, while it lasts, and nothing else. */
  lemma LookupExactly<T>(defaultTtl: real, history: seq<Request<T>>, key: string, now: real)
    ensures AnswersFrom(defaultTtl, history, key, now, Answer(IdealAfter(defaultTtl, history), key, now))
  {
    IdealIsLastWrite(defaultTtl, history, key);
    forall i: nat, j: nat | LastWrite(history, key, i) && LastWrite(history, key, j) ensures i == j {
      OneLastWrite(history, key, i, j);
    }
  }

  // ---------- The object ----------

  class Cache<T> {
    const defaultTtl: real
    var store: map<string, Entry<T>>
    ghost var history: seq<Request<T>>
    ghost var clock: real

    ghost predicate Valid()
      reads this
    {
      Mirrors(store, IdealAfter(defaultTtl, history), clock)
    }

    constructor (defaultTtl: real, ghost now: real)
      ensures Valid() && this.defaultTtl == defaultTtl && clock == now && store == map[] && history == []
    {
      this.defaultTtl, store, history, clock := defaultTtl, map[], [], now;
    }

    lemma Logged(r: Request<T>)
      requires Valid() && clock <= r.at
      ensures Mirrors(Step(defaultTtl, store, r), IdealAfter(defaultTtl, history + [r]), r.at)
      ensures r.op.Get? ==> Answer(store, r.op.key, r.at) == Answer(IdealAfter(defaultTtl, history), r.op.key, r.at)
    {
      assert (history + [r])[..|history|] == history;
      MirrorsStep(defaultTtl, store, IdealAfter(defaultTtl, history), clock, r);
    }

    method Get(key: string, now: real) returns (value: Option<T>)
      requires Valid() && clock <= now
      modifies this
      ensures Valid() && clock == now && history == old(history) + [Request(Op.Get(key), now)]
      ensures store == Step(defaultTtl, old(store), Request(Op.Get(key), now))
      ensures value == Answer(old(store), key, now) && AnswersFrom(defaultTtl, old(history), key, now, value)
    {
      Logged(Request(Op.Get(key), now));
      LookupExactly(defaultTtl, history, key, now);
      clock := now;
      history := history + [Request(Op.Get(key), now)];
      if key !in store {
        return None;
      }
      var entry := store[key];
      if entry.expiresAt < now {
        store := store - {key};
        return None;
      }
      return entry.value;
    }

    method Set(key: string, value: Option<T>, ttl: Option<real>, now: real)
      requires Valid() && clock <= now
      modifies this
      ensures Valid() && clock == now && history == old(history) + [Request(Op.Set(key, value, ttl), now)]
      ensures store == old(store)[key := Entry(value, now + if ttl.None? then defaultTtl else ttl.value)]
    {
      Logged(Request(Op.Set(key, value, ttl), now));
      var lifetime := if ttl.None? then defaultTtl else ttl.value;
      store := store[key := Entry(value, now + lifetime)];
      history := history + [Request(Op.Set(key, value, ttl), now)];
      clock := now;
    }

    method Delete(key: string)
      requires Valid()
      modifies this
      ensures Valid() && clock == old(clock) && history == old(history) + [Request(Op.Delete(key), clock)]
      ensures store == old(store) - {key}
    {
      Logged(Request(Op.Delete(key), clock));
      store := store - {key};
      history := history + [Request(Op.Delete(key), clock)];
    }

    method Clear()
      requires Valid()
      modifies this
      ensures Valid() && clock == old(clock) && history == old(history) + [Request(Op.Clear, clock)]
      ensures store == map[]
    {
      Logged(Request(Op.Clear, clock));
      store := map[];
      history := history + [Request(Op.Clear, clock)];
    }
  }
}
