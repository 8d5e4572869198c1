/**
  Website enrichment through the cache: leads of one place share an entry, a confirmed absence is a hit
  too, and any number of leads are enriched concurrently.
*/
module EnrichmentCache {
  import opened Leads
  import opened Wrappers
  import C = MemoryCache

  /** The wrapper that tells a cached "no website" from nothing cached. */
  datatype CachedEnrichment = CachedEnrichment(website: Option<string>)

  type Store = C.Store<CachedEnrichment>

  /**
    Everything outside the leads: the place id in a Maps URL, what the browser finds when it opens a Maps
    URL, and the lifetime of entries.
  */
  datatype World = World(placeId: string -> Option<string>, lookup: string -> EnrichOutcome, ttl: real)

  function Key(w: World, mapsUrl: string): string {
    var id := w.placeId(mapsUrl);
    if Truthy(id) then id.value else mapsUrl
  }

  /** The lead after enrichment without a cache: what the browser finds at its own Maps URL, if it needs any. */
  function Uncached(w: World, lead: Lead): Lead {
    if lead.website !in {None, Some("")} || lead.mapsUrl in {None, Some("")} then lead
    else
      match w.lookup(lead.mapsUrl.value)
      case Raised => lead
      case Looked(website) => lead.(website := website)
  }

  /** What the program takes for granted: URLs of one place lead to one outcome. */
  ghost predicate OneOutcomePerPlace(w: World, urls: set<string>) {
    forall u, v | u in urls && v in urls && w.placeId(u) == w.placeId(v) && w.placeId(u) !in {None, Some("")} ::
      w.lookup(u) == w.lookup(v)
  }

  /** No URL without a place id reads like the place id of another. */
  ghost predicate NoCollision(w: World, urls: set<string>) {
    forall u, v | u in urls && v in urls && w.placeId(u) in {None, Some("")} && v != u :: w.placeId(v) != Some(u)
  }

  ghost predicate ValidUrls(w: World, urls: set<string>) {
    OneOutcomePerPlace(w, urls) && NoCollision(w, urls)
  }

  /** URLs with one key are looked up alike. */
  lemma SameKeySameOutcome(w: World, urls: set<string>, u: string, v: string)
    requires ValidUrls(w, urls) && u in urls && v in urls && Key(w, u) == Key(w, v)
    ensures w.lookup(u) == w.lookup(v)
  {
  }

  ghost function UrlsOf(leads: seq<Lead>): set<string> {
    set i | 0 <= i < |leads| && leads[i].mapsUrl.Some? :: leads[i].mapsUrl.value
  }

  datatype Phase = Waiting | Looking | Storing(website: Option<string>) | Done

  datatype Batch = Batch(leads: seq<Lead>, phases: seq<Phase>, store: Store, clock: real)

  /** Check: look into the cache. Finish: the browser lookup ends. Save: its result is cached. */
  datatype Action = Check(i: nat) | Finish(i: nat) | Save(i: nat)

  datatype Step = Step(action: Action, at: real)

  function Init(leads: seq<Lead>, now: real): Batch {
    Batch(leads, seq(|leads|, _ => Waiting), map[], now)
  }

  predicate Enabled(s: Batch, a: Action) {
    && a.i < |s.leads| == |s.phases|
    && match a
       case Check(i) => s.phases[i].Waiting?
       case Finish(i) => s.phases[i].Looking? && NeedsEnrich(s.leads[i])
       case Save(i) => s.phases[i].Storing? && Truthy(s.leads[i].mapsUrl)
  }

  function Ask(key: string, now: real): C.Request<CachedEnrichment> {
    C.Request(C.Get(key), now)
  }

  function Put(key: string, website: Option<string>, now: real): C.Request<CachedEnrichment> {
    C.Request(C.Set(key, Some(CachedEnrichment(website)), None), now)
  }

  function CheckStep(w: World, s: Batch, i: nat, now: real): Batch
    requires Enabled(s, Check(i))
  {
    var lead := s.leads[i];
    if !NeedsEnrich(lead) then s.(phases := s.phases[i := Done], clock := now)
    else
      var key := Key(w, lead.mapsUrl.value);
      var hit := C.Answer(s.store, key, now);
      Batch(if hit.Some? then s.leads[i := lead.(website := hit.value.website)] else s.leads,
            s.phases[i := if hit.Some? then Done else Looking],
            C.Step(w.ttl, s.store, Ask(key, now)), now)
  }

  /** A lookup that raises leaves the lead alone and caches nothing. */
  function FinishStep(w: World, s: Batch, i: nat, now: real): Batch
    requires Enabled(s, Finish(i))
  {
    match w.lookup(s.leads[i].mapsUrl.value)
    case Raised => s.(phases := s.phases[i := Done], clock := now)
    case Looked(website) =>
      s.(leads := s.leads[i := s.leads[i].(website := website)], phases := s.phases[i := Storing(website)], clock := now)
  }

  function SaveStep(w: World, s: Batch, i: nat, now: real): Batch
    requires Enabled(s, Save(i))
  {
    s.(store := C.Step(w.ttl, s.store, Put(Key(w, s.leads[i].mapsUrl.value), s.phases[i].website, now)),
       phases := s.phases[i := Done], clock := now)
  }

  function Apply(w: World, s: Batch, step: Step): Batch
    requires Enabled(s, step.action)
  {
    match step.action
    case Check(i) => CheckStep(w, s, i, step.at)
    case Finish(i) => FinishStep(w, s, i, step.at)
    case Save(i) => SaveStep(w, s, i, step.at)
  }

  ghost predicate Run(w: World, s: Batch, steps: seq<Step>, t: Batch)
    decreases |steps|
  {
    if steps == [] then s == t
    else s.clock <= steps[0].at && Enabled(s, steps[0].action) && Run(w, Apply(w, s, steps[0]), steps[1..], t)
  }

  // ---------- Transparency ----------

  /** Whatever is cached under a key is what the browser finds at every URL with that key. */
  ghost predicate Sound(w: World, urls: set<string>, store: Store) {
    forall k | k in store ::
      && store[k].value.Some?
      && forall u | u in urls && Key(w, u) == k :: w.lookup(u) == Looked(store[k].value.value.website)
  }

  lemma SoundPut(w: World, urls: set<string>, store: Store, url: string, website: Option<string>, now: real)
    requires ValidUrls(w, urls) && Sound(w, urls, store) && url in urls && w.lookup(url) == Looked(website)
    ensures Sound(w, urls, C.Step(w.ttl, store, Put(Key(w, url), website, now)))
  {
    forall u | u in urls && Key(w, u) == Key(w, url) ensures w.lookup(u) == Looked(website) {
      SameKeySameOutcome(w, urls, u, url);
    }
  }

  /** How lead `i` stands, given how it came in. */
  ghost predicate OnTrack(w: World, before: Lead, lead: Lead, phase: Phase) {
    match phase
    case Waiting => lead == before
    case Looking => lead == before && NeedsEnrich(before)
    case Storing(website) =>
      && NeedsEnrich(before) && w.lookup(before.mapsUrl.value) == Looked(website)
      && lead == Uncached(w, before)
    case Done => lead == Uncached(w, before)
  }

  ghost predicate Inv(w: World, start: seq<Lead>, s: Batch) {
    && |s.leads| == |s.phases| == |start|
    && Sound(w, UrlsOf(start), s.store)
    && forall i | 0 <= i < |start| :: OnTrack(w, start[i], s.leads[i], s.phases[i])
  }

  lemma InvStep(w: World, start: seq<Lead>, s: Batch, step: Step)
    requires ValidUrls(w, UrlsOf(start)) && Inv(w, start, s) && Enabled(s, step.action)
    ensures Inv(w, start, Apply(w, s, step))
  {
    var i := step.action.i;
    assert OnTrack(w, start[i], s.leads[i], s.phases[i]);
    assert start[i].mapsUrl.Some? ==> start[i].mapsUrl.value in UrlsOf(start);
    if step.action.Save? {
      SoundPut(w, UrlsOf(start), s.store, start[i].mapsUrl.value, s.phases[i].website, step.at);
    }
  }

  lemma {:induction false} InvRun(w: World, start: seq<Lead>, s: Batch, steps: seq<Step>, t: Batch)
    requires ValidUrls(w, UrlsOf(start)) && Inv(w, start, s) && Run(w, s, steps, t)
    ensures Inv(w, start, t)
    decreases |steps|
  {
    if steps != [] {
      InvStep(w, start, s, steps[0]);
      InvRun(w, start, Apply(w, s, steps[0]), steps[1..], t);
    }
  }

  /**
    The cache is transparent: in any order, under any interleaving and with any lifetime of entries, the
    leads end with the websites the browser finds at their own URLs, confirmed-absent ones included.
  */
  lemma CacheTransparent(w: World, leads: seq<Lead>, now: real, steps: seq<Step>, t: Batch)
    requires ValidUrls(w, UrlsOf(leads)) && Run(w, Init(leads, now), steps, t)
    requires forall i | 0 <= i < |t.phases| :: t.phases[i].Done?
    ensures |t.leads| == |leads| && forall i | 0 <= i < |leads| :: t.leads[i] == Uncached(w, leads[i])
  {
    InvRun(w, leads, Init(leads, now), steps, t);
    forall i | 0 <= i < |leads| ensures t.leads[i] == Uncached(w, leads[i]) {
      assert OnTrack(w, leads[i], t.leads[i], t.phases[i]);
    }
  }

  // ---------- Which entry answers ----------

  /** A cached result answers for its URL and every other of the same place, until it expires. */
  lemma SamePlaceHits(w: World, store: Store, u: string, v: string, website: Option<string>, now: real, later: real)
    requires u == v || (w.placeId(u) == w.placeId(v) && w.placeId(u) !in {None, Some("")})
    ensures C.Answer(C.Step(w.ttl, store, Put(Key(w, u), website, now)), Key(w, v), later)
      == if later <= now + w.ttl then Some(CachedEnrichment(website)) else None
  {
  }

  /** It does not answer for another place, nor for another URL when neither has a place id. */
  lemma OtherPlaceUntouched(w: World, store: Store, u: string, v: string, website: Option<string>, now: real, later: real)
    requires var pu, pv := w.placeId(u), w.placeId(v);
      if pu in {None, Some("")} && pv in {None, Some("")} then u != v
      else pu !in {None, Some("")} && pv !in {None, Some("")} && pu != pv
    ensures C.Answer(C.Step(w.ttl, store, Put(Key(w, u), website, now)), Key(w, v), later)
      == C.Answer(store, Key(w, v), later)
  {
  }

  // ---------- No second lookup ----------

  /** An entry of the key lasts at least until `until`. */
  ghost predicate FreshUntil(store: Store, key: string, until: real) {
    key in store && store[key].expiresAt >= until && store[key].value.Some?
  }

  lemma FreshStep(w: World, s: Batch, step: Step, key: string, until: real)
    requires FreshUntil(s.store, key, until) && s.clock <= step.at <= until && Enabled(s, step.action)
    requires until <= s.clock + w.ttl
    ensures FreshUntil(Apply(w, s, step).store, key, until)
  {
  }

  lemma {:induction false} HitsWhileFresh(w: World, s: Batch, steps: seq<Step>, t: Batch, i: nat, key: string, until: real, now: real)
    requires Run(w, s, steps, t) && FreshUntil(s.store, key, until) && until <= s.clock + w.ttl
    requires t.clock <= now <= until
    requires Enabled(t, Check(i)) && NeedsEnrich(t.leads[i]) && Key(w, t.leads[i].mapsUrl.value) == key
    ensures CheckStep(w, t, i, now).phases[i].Done?
    decreases |steps|
  {
    if steps != [] {
      ClockAdvances(w, Apply(w, s, steps[0]), steps[1..], t);
      FreshStep(w, s, steps[0], key, until);
      HitsWhileFresh(w, Apply(w, s, steps[0]), steps[1..], t, i, key, until, now);
    }
  }

  /**
    A place looked up successfully is not looked up again within the lifetime of its entry: once a lead's
    result is saved, the check of every lead of the same place within the lifetime is a hit, whatever
    happens in between.
  */
  lemma NoSecondLookup(w: World, s: Batch, i: nat, at: real, steps: seq<Step>, t: Batch, j: nat, now: real)
    requires Enabled(s, Save(i)) && Run(w, SaveStep(w, s, i, at), steps, t)
    requires t.clock <= now <= at + w.ttl
    requires Enabled(t, Check(j)) && NeedsEnrich(t.leads[j])
    requires var u, v := s.leads[i].mapsUrl.value, t.leads[j].mapsUrl.value;
      u == v || (w.placeId(u) == w.placeId(v) && w.placeId(u) !in {None, Some("")})
    ensures CheckStep(w, t, j, now).phases[j].Done?
  {
    HitsWhileFresh(w, SaveStep(w, s, i, at), steps, t, j, Key(w, s.leads[i].mapsUrl.value), at + w.ttl, now);
  }

  lemma {:induction false} ClockAdvances(w: World, s: Batch, steps: seq<Step>, t: Batch)
    requires Run(w, s, steps, t)
    ensures s.clock <= t.clock
    decreases |steps|
  {
    if steps != [] {
      ClockAdvances(w, Apply(w, s, steps[0]), steps[1..], t);
    }
  }

  // ---------- The objects ----------

  class Cache {
    const inner: C.Cache<CachedEnrichment>

    ghost predicate Valid(w: World, urls: set<string>)
      reads this, inner
    {
      inner.Valid() && inner.defaultTtl == w.ttl && ValidUrls(w, urls) && Sound(w, urls, inner.store)
    }

    constructor (w: World, ghost urls: set<string>, ghost now: real)
      requires ValidUrls(w, urls)
      ensures Valid(w, urls) && fresh(inner) && inner.clock == now && inner.store == map[]
    {
      inner := new C.Cache(w.ttl, now);
    }

    /** Looks under the place id, or under the URL when there is none. */
    method Get(w: World, ghost urls: set<string>, mapsUrl: string, now: real) returns (hit: Option<CachedEnrichment>)
      requires Valid(w, urls) && inner.clock <= now
      modifies inner
      ensures Valid(w, urls) && inner.clock == now
      ensures var id := w.placeId(mapsUrl);
        var key := if id in {None, Some("")} then mapsUrl else id.value;
        && inner.store == C.Step(w.ttl, old(inner.store), Ask(key, now))
        && hit == (if key in old(inner.store) && now <= old(inner.store)[key].expiresAt
                   then old(inner.store)[key].value else None)
    {
      hit := inner.Get(Key(w, mapsUrl), now);
    }

    /** Stores under the place id, or under the URL when there is none, for the cache's lifetime. */
    method Set(w: World, ghost urls: set<string>, mapsUrl: string, website: Option<string>, now: real)
      requires Valid(w, urls) && inner.clock <= now && mapsUrl in urls && w.lookup(mapsUrl) == Looked(website)
      modifies inner
      ensures Valid(w, urls) && inner.clock == now
      ensures var id := w.placeId(mapsUrl);
        var key := if id in {None, Some("")} then mapsUrl else id.value;
        inner.store == old(inner.store)[key := C.Entry(Some(CachedEnrichment(website)), now + w.ttl)]
    {
      SoundPut(w, urls, inner.store, mapsUrl, website, now);
      inner.Set(Key(w, mapsUrl), Some(CachedEnrichment(website)), None, now);
    }
  }

  /**
    Enrichment of one lead, alone: a hit gives the cached website without a page, a miss borrows one.
    Either way the lead is as it would be without the cache; `raised` is the lookup's exception.
  */
  method EnrichOne(w: World, ghost urls: set<string>, cache: Cache, lead: Lead, now: real, later: real)
    returns (enriched: Lead, lookedUp: bool, raised: bool)
    requires cache.Valid(w, urls) && cache.inner.clock <= now <= later
    requires lead.mapsUrl.Some? ==> lead.mapsUrl.value in urls
    modifies cache.inner
    ensures cache.Valid(w, urls) && cache.inner.clock <= later
    ensures enriched == Uncached(w, lead)
    ensures lookedUp <==>
      && lead.website in {None, Some("")} && lead.mapsUrl !in {None, Some("")}
      && var id := w.placeId(lead.mapsUrl.value);
         var key := if id in {None, Some("")} then lead.mapsUrl.value else id.value;
         key !in old(cache.inner.store) || old(cache.inner.store)[key].expiresAt < now
    ensures raised <==> lookedUp && w.lookup(lead.mapsUrl.value).Raised?
  {
    enriched, lookedUp, raised := lead, false, false;
    if Truthy(lead.website) || !Truthy(lead.mapsUrl) {
      return;
    }
    var mapsUrl := lead.mapsUrl.value;
    var hit := cache.Get(w, urls, mapsUrl, now);
    if hit.Some? {
      enriched := lead.(website := hit.value.website);
      return;
    }
    lookedUp := true;
    match w.lookup(mapsUrl) {
      case Raised => raised := true;
      case Looked(website) =>
        enriched := lead.(website := website);
        cache.Set(w, urls, mapsUrl, website, later);
    }
  }
}
