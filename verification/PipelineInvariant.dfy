/** What every reachable state of the streaming pipeline satisfies, for any outcomes and any cancellation. */
module PipelineInvariant {
  import opened Leads
  import opened Wrappers
  import opened PipelineModel
  import opened Sums

  function IsWork(i: nat): Item -> nat {
    (x: Item) => if x == Work(i) then 1 else 0
  }

  function Looking(i: nat): Enricher -> nat {
    (e: Enricher) => if (e.EPageWait? || e.EPage?) && e.lead == i then 1 else 0
  }

  function Putting(i: nat): Enricher -> nat {
    (e: Enricher) => if e == EPut(i) then 1 else 0
  }

  function Discovering(i: nat): Socialist -> nat {
    (e: Socialist) => if !e.SGet? && !e.SExit? && e.lead == i then 1 else 0
  }

  function IsLead(i: nat): nat -> nat {
    (d: nat) => if d == i then 1 else 0
  }

  function SentinelItem(x: Item): nat {
    if x.Sentinel? then 1 else 0
  }

  function EnricherExited(e: Enricher): nat {
    if e.EExit? then 1 else 0
  }

  function SocialExited(e: Socialist): nat {
    if e.SExit? then 1 else 0
  }

  function EnricherPage(e: Enricher): nat {
    if e.EPage? then 1 else 0
  }

  function SocialPage(e: Socialist): nat {
    if e.SPage? then 1 else 0
  }

  /** Number of places where lead `i` currently is: unfed, a queue, a worker's hands, or done. */
  ghost function Places(s: State, i: nat): nat {
    (if i >= s.fed then 1 else 0) + Total(s.toEnrich, IsWork(i)) + Total(s.enrichers, Looking(i)) + Past(s, i)
  }

  /** Places beyond the enrichment attempt. */
  ghost function Past(s: State, i: nat): nat {
    Total(s.enrichers, Putting(i)) + Total(s.toSocial, IsWork(i)) + Total(s.socials, Discovering(i))
    + Total(s.done, IsLead(i))
  }

  /** Conservation: each lead is in exactly one place, and only real leads are. */
  ghost predicate Placed(cfg: Config, s: State) {
    && (forall i: nat | i < |cfg.leads| :: Places(s, i) == 1)
    && (forall k | 0 <= k < |s.done| :: s.done[k] < |cfg.leads|)
  }

  /** Every page is either free or held by exactly one worker. */
  ghost predicate PagesKept(cfg: Config, s: State) {
    s.freePages + Total(s.enrichers, EnricherPage) + Total(s.socials, SocialPage) == cfg.pages
  }

  function SentToSocial(cfg: Config, s: State): nat {
    match s.main
    case Joining => 0
    case Closing(sent) => sent
    case Returned => cfg.sw
  }

  /** Each sentinel is still queued or has made exactly one worker return. */
  ghost predicate SentinelsKept(cfg: Config, s: State) {
    && s.fedSentinels == Total(s.toEnrich, SentinelItem) + Total(s.enrichers, EnricherExited)
    && SentToSocial(cfg, s) == Total(s.toSocial, SentinelItem) + Total(s.socials, SocialExited)
  }

  /** No lead is queued behind a sentinel. */
  ghost predicate SentinelsLast(q: seq<Item>) {
    forall a, b | 0 <= a < b < |q| :: q[a].Sentinel? ==> q[b].Sentinel?
  }

  ghost predicate NoWork(q: seq<Item>) {
    forall k | 0 <= k < |q| :: q[k].Sentinel?
  }

  ghost predicate Ordered(cfg: Config, s: State) {
    && SentinelsLast(s.toEnrich)
    && SentinelsLast(s.toSocial)
    && (s.fedSentinels > 0 ==> s.fed == |cfg.leads|)
    && (forall k | 0 <= k < |s.enrichers| :: s.enrichers[k].EExit? ==> NoWork(s.toEnrich))
    && (forall k | 0 <= k < |s.socials| :: s.socials[k].SExit? ==> NoWork(s.toSocial))
    && (!s.main.Joining? ==> s.fedSentinels == cfg.ew && EnrichersReturned(s))
    && (s.main.Returned? ==> SocialsReturned(s))
  }

  ghost predicate Inv(cfg: Config, s: State) {
    Shape(cfg, s) && Placed(cfg, s) && PagesKept(cfg, s) && SentinelsKept(cfg, s) && Ordered(cfg, s)
  }

  lemma InitInv(cfg: Config)
    ensures Inv(cfg, Init(cfg))
  {
    var s := Init(cfg);
    forall i: nat | i < |cfg.leads| ensures Places(s, i) == 1 {
      InitPlaces(cfg, i);
    }
    InitKept(cfg);
  }

  lemma InitKept(cfg: Config)
    ensures PagesKept(cfg, Init(cfg)) && SentinelsKept(cfg, Init(cfg))
  {
    var s := Init(cfg);
    AllZero(s.enrichers, EnricherPage);
    AllZero(s.socials, SocialPage);
    AllZero(s.enrichers, EnricherExited);
    AllZero(s.socials, SocialExited);
  }

  lemma InitPlaces(cfg: Config, i: nat)
    ensures Places(Init(cfg), i) == 1
  {
    var s := Init(cfg);
    AllZero(s.enrichers, Looking(i));
    AllZero(s.enrichers, Putting(i));
    AllZero(s.socials, Discovering(i));
  }

  lemma EnricherPlaces(s: State, t: State, w: nat, i: nat)
    requires EnricherMove(s, t, w)
    ensures Places(t, i) == Places(s, i)
  {
    TotalUpdate(s.enrichers, w, t.enrichers[w], Looking(i));
    TotalUpdate(s.enrichers, w, t.enrichers[w], Putting(i));
    if s.enrichers[w].EPut? {
      TotalAppend(s.toSocial, Work(s.enrichers[w].lead), IsWork(i));
    }
  }

  lemma SocialPlaces(s: State, t: State, w: nat, i: nat)
    requires SocialMove(s, t, w)
    ensures Places(t, i) == Places(s, i)
  {
    TotalUpdate(s.socials, w, t.socials[w], Discovering(i));
    if t.done != s.done {
      TotalAppend(s.done, t.done[|s.done|], IsLead(i));
    }
  }

  lemma QueuePlaces(cfg: Config, s: State, t: State, i: nat)
    requires QueueMove(cfg, s, t)
    ensures Places(t, i) == Places(s, i)
  {
    if t.toEnrich != s.toEnrich {
      TotalAppend(s.toEnrich, t.toEnrich[|s.toEnrich|], IsWork(i));
    }
    if t.toSocial != s.toSocial {
      TotalAppend(s.toSocial, Sentinel, IsWork(i));
    }
  }

  /** Conservation: no action makes a lead appear in, or vanish from, the places. */
  lemma PlacesStep(cfg: Config, s: State, a: Action, i: nat)
    requires Shape(cfg, s) && Enabled(cfg, s, a)
    ensures Places(Apply(cfg, s, a), i) == Places(s, i)
  {
    var t := Apply(cfg, s, a);
    Footprint(cfg, s, a);
    if ByEnricher(a) {
      EnricherPlaces(s, t, a.w, i);
    } else if BySocial(a) {
      SocialPlaces(s, t, a.w, i);
    } else {
      QueuePlaces(cfg, s, t, i);
    }
  }

  lemma PlacedStep(cfg: Config, s: State, a: Action)
    requires Shape(cfg, s) && Enabled(cfg, s, a) && Placed(cfg, s)
    ensures Placed(cfg, Apply(cfg, s, a))
  {
    forall i: nat | i < |cfg.leads| ensures Places(Apply(cfg, s, a), i) == 1 {
      PlacesStep(cfg, s, a, i);
    }
  }

  lemma PagesStep(cfg: Config, s: State, t: State, w: nat)
    requires EnricherMove(s, t, w) || SocialMove(s, t, w) || QueueMove(cfg, s, t)
    requires PagesKept(cfg, s)
    ensures PagesKept(cfg, t)
  {
    if EnricherMove(s, t, w) {
      TotalUpdate(s.enrichers, w, t.enrichers[w], EnricherPage);
    } else if SocialMove(s, t, w) {
      TotalUpdate(s.socials, w, t.socials[w], SocialPage);
    }
  }

  lemma SentinelsStep(cfg: Config, s: State, t: State, w: nat)
    requires EnricherMove(s, t, w) || SocialMove(s, t, w) || QueueMove(cfg, s, t)
    requires SentinelsKept(cfg, s)
    ensures SentinelsKept(cfg, t)
  {
    if EnricherMove(s, t, w) {
      TotalUpdate(s.enrichers, w, t.enrichers[w], EnricherExited);
      if s.enrichers[w].EPut? {
        TotalAppend(s.toSocial, Work(s.enrichers[w].lead), SentinelItem);
      }
    } else if SocialMove(s, t, w) {
      TotalUpdate(s.socials, w, t.socials[w], SocialExited);
    } else if t.toEnrich != s.toEnrich {
      TotalAppend(s.toEnrich, t.toEnrich[|s.toEnrich|], SentinelItem);
    } else if t.toSocial != s.toSocial {
      TotalAppend(s.toSocial, Sentinel, SentinelItem);
    }
  }

  /** While no sentinel was sent, none is queued and no consumer of that queue has returned. */
  lemma NotClosedYet(cfg: Config, s: State)
    requires SentinelsKept(cfg, s)
    ensures s.fedSentinels == 0 ==> forall k | 0 <= k < |s.toEnrich| :: s.toEnrich[k].Work?
    ensures s.fedSentinels == 0 ==> forall k | 0 <= k < |s.enrichers| :: !s.enrichers[k].EExit?
    ensures s.main.Joining? ==> forall k | 0 <= k < |s.toSocial| :: s.toSocial[k].Work?
    ensures s.main.Joining? ==> forall k | 0 <= k < |s.socials| :: !s.socials[k].SExit?
  {
    if s.fedSentinels == 0 {
      ZeroTotal(s.toEnrich, SentinelItem);
      ZeroTotal(s.enrichers, EnricherExited);
    }
    if s.main.Joining? {
      ZeroTotal(s.toSocial, SentinelItem);
      ZeroTotal(s.socials, SocialExited);
    }
  }

  lemma EnricherOrdered(cfg: Config, s: State, t: State, w: nat)
    requires EnricherMove(s, t, w) && SentinelsKept(cfg, s) && Ordered(cfg, s)
    ensures Ordered(cfg, t)
  {
    NotClosedYet(cfg, s);
  }

  lemma SocialOrdered(cfg: Config, s: State, t: State, w: nat)
    requires SocialMove(s, t, w) && SentinelsKept(cfg, s) && Ordered(cfg, s)
    ensures Ordered(cfg, t)
  {
  }

  lemma QueueOrdered(cfg: Config, s: State, t: State)
    requires QueueMove(cfg, s, t) && SentinelsKept(cfg, s) && Ordered(cfg, s)
    ensures Ordered(cfg, t)
  {
    NotClosedYet(cfg, s);
  }

  lemma InvStep(cfg: Config, s: State, a: Action)
    requires Inv(cfg, s) && Enabled(cfg, s, a)
    ensures Inv(cfg, Apply(cfg, s, a))
  {
    ShapeStep(cfg, s, a);
    PlacedStep(cfg, s, a);
    Footprint(cfg, s, a);
    var t, w := Apply(cfg, s, a), if ByEnricher(a) || BySocial(a) then a.w else 0;
    PagesStep(cfg, s, t, w);
    SentinelsStep(cfg, s, t, w);
    if ByEnricher(a) {
      EnricherOrdered(cfg, s, t, w);
    } else if BySocial(a) {
      SocialOrdered(cfg, s, t, w);
    } else {
      QueueOrdered(cfg, s, t);
    }
  }

  lemma {:induction false} InvRun(cfg: Config, s: State, actions: seq<Action>, t: State)
    requires Inv(cfg, s) && Run(cfg, s, actions, t)
    ensures Inv(cfg, t)
    decreases |actions|
  {
    if actions != [] {
      InvStep(cfg, s, actions[0]);
      InvRun(cfg, Apply(cfg, s, actions[0]), actions[1..], t);
    }
  }
}
