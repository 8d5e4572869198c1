/**
  Main results about every run of the streaming pipeline, whatever the outcomes, the schedule and the
  moment of cancellation: conservation, exactly-once handling, no deadlock, and a bound on the length.
*/
module PipelineProgress {
  import opened Leads
  import opened PipelineModel
  import opened PipelineInvariant
  import opened Sums

  // ---------- Leads in flight ----------

  function WorkItem(x: Item): nat {
    if x.Work? then 1 else 0
  }

  function EnricherBusy(e: Enricher): nat {
    if e.EGet? || e.EExit? then 0 else 1
  }

  function SocialBusy(e: Socialist): nat {
    if e.SGet? || e.SExit? then 0 else 1
  }

  /** Leads between the feeder and the end of the pipeline. */
  ghost function InFlight(s: State): nat {
    Total(s.toEnrich, WorkItem) + Total(s.enrichers, EnricherBusy)
    + Total(s.toSocial, WorkItem) + Total(s.socials, SocialBusy)
  }

  ghost predicate FlightKept(s: State) {
    s.fed == InFlight(s) + |s.done|
  }

  lemma EnricherFlight(s: State, t: State, w: nat)
    requires EnricherMove(s, t, w) && FlightKept(s)
    ensures FlightKept(t)
  {
    TotalUpdate(s.enrichers, w, t.enrichers[w], EnricherBusy);
    if s.enrichers[w].EPut? {
      TotalAppend(s.toSocial, Work(s.enrichers[w].lead), WorkItem);
    }
  }

  lemma SocialFlight(s: State, t: State, w: nat)
    requires SocialMove(s, t, w) && FlightKept(s)
    ensures FlightKept(t)
  {
    TotalUpdate(s.socials, w, t.socials[w], SocialBusy);
  }

  lemma QueueFlight(cfg: Config, s: State, t: State)
    requires QueueMove(cfg, s, t) && FlightKept(s)
    ensures FlightKept(t)
  {
    if t.toEnrich != s.toEnrich {
      TotalAppend(s.toEnrich, t.toEnrich[|s.toEnrich|], WorkItem);
    } else if t.toSocial != s.toSocial {
      TotalAppend(s.toSocial, Sentinel, WorkItem);
    }
  }

  lemma {:induction false} FlightRun(cfg: Config, s: State, actions: seq<Action>, t: State)
    requires Shape(cfg, s) && FlightKept(s) && Run(cfg, s, actions, t)
    ensures FlightKept(t)
    decreases |actions|
  {
    if actions != [] {
      var a := actions[0];
      var u := Apply(cfg, s, a);
      Footprint(cfg, s, a);
      ShapeStep(cfg, s, a);
      if ByEnricher(a) {
        EnricherFlight(s, u, a.w);
      } else if BySocial(a) {
        SocialFlight(s, u, a.w);
      } else {
        QueueFlight(cfg, s, u);
      }
      FlightRun(cfg, u, actions[1..], t);
    }
  }

  /** Both invariants hold in every reachable state. */
  lemma Reached(cfg: Config, actions: seq<Action>, s: State)
    requires Run(cfg, Init(cfg), actions, s)
    ensures Inv(cfg, s) && FlightKept(s)
  {
    InitInv(cfg);
    InvRun(cfg, Init(cfg), actions, s);
    AllZero(Init(cfg).enrichers, EnricherBusy);
    AllZero(Init(cfg).socials, SocialBusy);
    FlightRun(cfg, Init(cfg), actions, s);
  }

  /**
    In every reachable state each lead is in exactly one place, every page is free or held by one worker,
    and at most 3 * (EW + SW) leads are between the feeder and the end.
  */
  lemma Conservation(cfg: Config, actions: seq<Action>, s: State)
    requires ValidConfig(cfg) && Run(cfg, Init(cfg), actions, s)
    ensures forall i: nat | i < |cfg.leads| :: Places(s, i) == 1
    ensures PagesKept(cfg, s)
    ensures SentinelsLast(s.toEnrich) && SentinelsLast(s.toSocial)
    ensures s.fed - |s.done| <= 3 * (cfg.ew + cfg.sw)
  {
    Reached(cfg, actions, s);
    FlightBound(cfg, s);
  }

  lemma FlightBound(cfg: Config, s: State)
    requires ValidConfig(cfg) && Shape(cfg, s)
    ensures InFlight(s) <= 3 * (cfg.ew + cfg.sw)
  {
    TotalAtMostLength(s.toEnrich, WorkItem);
    TotalAtMostLength(s.enrichers, EnricherBusy);
    TotalAtMostLength(s.toSocial, WorkItem);
    TotalAtMostLength(s.socials, SocialBusy);
  }

  /**
    When the main task has returned, every lead was handled by a social worker exactly once, both queues
    are empty, every worker has returned, and every page is back in the pool.
  */
  lemma FinishedHandledAllOnce(cfg: Config, actions: seq<Action>, s: State)
    requires ValidConfig(cfg) && Run(cfg, Init(cfg), actions, s) && Finished(s)
    ensures forall i: nat | i < |cfg.leads| :: Total(s.done, IsLead(i)) == 1
    ensures |s.done| == |cfg.leads| == s.fed
    ensures s.toEnrich == [] && s.toSocial == []
    ensures EnrichersReturned(s) && SocialsReturned(s)
    ensures s.freePages == cfg.pages
  {
    Reached(cfg, actions, s);
    FinishedEmpty(cfg, s);
    forall i: nat | i < |cfg.leads| ensures Total(s.done, IsLead(i)) == 1 {
      FinishedLead(cfg, s, i);
    }
    AllZero(s.enrichers, EnricherPage);
    AllZero(s.socials, SocialPage);
    AllZero(s.enrichers, EnricherBusy);
    AllZero(s.socials, SocialBusy);
  }

  lemma FinishedLead(cfg: Config, s: State, i: nat)
    requires Inv(cfg, s) && Finished(s) && s.toEnrich == [] && s.toSocial == [] && i < s.fed
    ensures Places(s, i) == Total(s.done, IsLead(i))
  {
    AllZero(s.enrichers, Looking(i));
    AllZero(s.enrichers, Putting(i));
    AllZero(s.socials, Discovering(i));
  }

  lemma FinishedEmpty(cfg: Config, s: State)
    requires ValidConfig(cfg) && Inv(cfg, s) && Finished(s)
    ensures s.toEnrich == [] && s.toSocial == [] && s.fed == |cfg.leads|
  {
    EnrichClosed(cfg, s);
    AllOnes(s.socials, SocialExited);
    NoSocialConsumerLeft(cfg, s);
  }

  /** Once all enrichment workers have returned, their queue is empty and all leads were fed. */
  lemma EnrichClosed(cfg: Config, s: State)
    requires ValidConfig(cfg) && Inv(cfg, s) && EnrichersReturned(s)
    ensures s.toEnrich == [] && s.fedSentinels == cfg.ew && s.fed == |cfg.leads|
  {
    AllOnes(s.enrichers, EnricherExited);
    ZeroTotal(s.toEnrich, SentinelItem);
    assert s.enrichers[0].EExit?;
  }

  // ---------- No deadlock ----------

  /** In every unfinished state that satisfies the invariant some coroutine can take a step. */
  lemma NoDeadlock(cfg: Config, s: State) returns (a: Action)
    requires ValidConfig(cfg) && Inv(cfg, s) && !Finished(s)
    ensures Enabled(cfg, s, a) && !a.Cancel?
  {
    if w :| 0 <= w < |s.enrichers| && s.enrichers[w].EPage? {
      a := EnricherFinish(w, Raised);
    } else if w :| 0 <= w < |s.socials| && s.socials[w].SPage? {
      a := SocialRelease(w);
    } else if w :| 0 <= w < |s.socials| && s.socials[w].SWork? {
      a := SocialFinish(w, s.leads[s.socials[w].lead].social);
    } else {
      AllZero(s.enrichers, EnricherPage);
      AllZero(s.socials, SocialPage);
      assert s.freePages > 0;
      if w :| 0 <= w < |s.enrichers| && s.enrichers[w].EPageWait? {
        a := EnricherAcquire(w);
      } else if w :| 0 <= w < |s.socials| && s.socials[w].SPageWait? {
        a := SocialAcquire(w);
      } else {
        a := QueueProgress(cfg, s);
      }
    }
  }

  /** With no page needed or held, the queues themselves always let somebody move. */
  lemma QueueProgress(cfg: Config, s: State) returns (a: Action)
    requires ValidConfig(cfg) && Inv(cfg, s) && !Finished(s)
    requires forall k | 0 <= k < |s.enrichers| :: s.enrichers[k].EGet? || s.enrichers[k].EPut? || s.enrichers[k].EExit?
    requires forall k | 0 <= k < |s.socials| :: s.socials[k].SGet? || s.socials[k].SExit?
    ensures Enabled(cfg, s, a) && !a.Cancel?
  {
    if s.toSocial != [] {
      var w := SocialConsumer(cfg, s);
      a := SocialGet(w, false);
    } else if w :| 0 <= w < |s.enrichers| && s.enrichers[w].EPut? {
      a := EnricherPut(w);
    } else if s.toEnrich != [] {
      var w := EnrichConsumer(cfg, s);
      a := EnricherGet(w);
    } else if s.fedSentinels < cfg.ew {
      a := Feed;
    } else {
      a := MainProgress(cfg, s);
    }
  }

  /** A non-empty social queue still has a consumer that has not returned. */
  lemma SocialConsumer(cfg: Config, s: State) returns (w: nat)
    requires ValidConfig(cfg) && Inv(cfg, s) && s.toSocial != []
    ensures w < |s.socials| && !s.socials[w].SExit?
  {
    TotalAtMostLength(s.socials, SocialExited);
    if Total(s.socials, SocialExited) == |s.socials| {
      NoSocialConsumerLeft(cfg, s);
      assert false;
    }
    w := ShortTotalHasWitness(s.socials, SocialExited);
  }

  /** Once all social workers have returned, their queue is empty. */
  lemma NoSocialConsumerLeft(cfg: Config, s: State)
    requires ValidConfig(cfg) && Inv(cfg, s) && Total(s.socials, SocialExited) == |s.socials|
    ensures s.toSocial == []
  {
    FullTotal(s.socials, SocialExited);
    ZeroTotal(s.toSocial, SentinelItem);
    assert s.socials[0].SExit?;
  }

  lemma EnrichConsumer(cfg: Config, s: State) returns (w: nat)
    requires ValidConfig(cfg) && Inv(cfg, s) && s.toEnrich != []
    ensures w < |s.enrichers| && !s.enrichers[w].EExit?
  {
    TotalAtMostLength(s.enrichers, EnricherExited);
    if Total(s.enrichers, EnricherExited) == |s.enrichers| {
      FullTotal(s.enrichers, EnricherExited);
      EnrichClosed(cfg, s);
      assert false;
    }
    w := ShortTotalHasWitness(s.enrichers, EnricherExited);
  }

  lemma MainProgress(cfg: Config, s: State) returns (a: Action)
    requires ValidConfig(cfg) && Inv(cfg, s) && !Finished(s)
    requires s.toEnrich == [] && s.toSocial == [] && s.fedSentinels == cfg.ew
    ensures Enabled(cfg, s, a) && !a.Cancel?
  {
    match s.main
    case Joining =>
      FullTotal(s.enrichers, EnricherExited);
      a := Join;
    case Closing(sent) =>
      if sent < cfg.sw {
        a := Close;
      } else {
        FullTotal(s.socials, SocialExited);
        a := Return;
      }
  }

  /** A run that nobody can extend, except by setting the cancel flag, has reached the end. */
  lemma StuckMeansFinished(cfg: Config, actions: seq<Action>, s: State)
    requires ValidConfig(cfg) && Run(cfg, Init(cfg), actions, s)
    requires forall a: Action :: Enabled(cfg, s, a) ==> a.Cancel?
    ensures Finished(s)
  {
    Reached(cfg, actions, s);
    if !Finished(s) {
      var a := NoDeadlock(cfg, s);
    }
  }

  // ---------- Termination ----------

  function ItemBefore(x: Item): nat {
    if x.Work? then 9 else 1
  }

  function ItemBetween(x: Item): nat {
    if x.Work? then 5 else 1
  }

  function EnricherLeft(e: Enricher): nat {
    if e.EPageWait? then 8 else if e.EPage? then 7 else if e.EPut? then 6 else 0
  }

  function SocialLeft(e: Socialist): nat {
    if e.SPageWait? then 4 else if e.SPage? then 3 else if e.SWork? then 2 else 0
  }

  function MainLeft(cfg: Config, s: State): nat {
    match s.main
    case Joining => 2 + 2 * cfg.sw
    case Closing(sent) => if sent <= cfg.sw then 1 + 2 * (cfg.sw - sent) else 0
    case Returned => 0
  }

  /** Steps that can still be taken, weighted by how far each lead and sentinel has come. */
  ghost function Measure(cfg: Config, s: State): int {
    10 * (|cfg.leads| - s.fed) + 2 * (cfg.ew - s.fedSentinels) + MainLeft(cfg, s) + (if s.cancelled then 0 else 1)
    + Total(s.toEnrich, ItemBefore) + Total(s.enrichers, EnricherLeft)
    + Total(s.toSocial, ItemBetween) + Total(s.socials, SocialLeft)
  }

  lemma EnricherMeasure(cfg: Config, s: State, t: State, w: nat)
    requires EnricherMove(s, t, w) && t.cancelled == s.cancelled
    ensures Measure(cfg, t) < Measure(cfg, s)
  {
    TotalUpdate(s.enrichers, w, t.enrichers[w], EnricherLeft);
    if s.enrichers[w].EPut? {
      TotalAppend(s.toSocial, Work(s.enrichers[w].lead), ItemBetween);
    }
  }

  lemma SocialMeasure(cfg: Config, s: State, t: State, w: nat)
    requires SocialMove(s, t, w) && t.cancelled == s.cancelled
    ensures Measure(cfg, t) < Measure(cfg, s)
  {
    TotalUpdate(s.socials, w, t.socials[w], SocialLeft);
  }

  lemma QueueMeasure(cfg: Config, s: State, a: Action)
    requires Shape(cfg, s) && Enabled(cfg, s, a) && !ByEnricher(a) && !BySocial(a)
    ensures Measure(cfg, Apply(cfg, s, a)) < Measure(cfg, s)
  {
    match a
    case Feed => TotalAppend(s.toEnrich, FeedStep(cfg, s).toEnrich[|s.toEnrich|], ItemBefore);
    case Close => TotalAppend(s.toSocial, Sentinel, ItemBetween);
    case _ =>
  }

  /** Every action, in any order, brings the end nearer. */
  lemma MeasureStep(cfg: Config, s: State, a: Action)
    requires Shape(cfg, s) && Enabled(cfg, s, a)
    ensures 0 <= Measure(cfg, Apply(cfg, s, a)) < Measure(cfg, s)
  {
    ShapeStep(cfg, s, a);
    Footprint(cfg, s, a);
    if ByEnricher(a) {
      EnricherMeasure(cfg, s, Apply(cfg, s, a), a.w);
    } else if BySocial(a) {
      SocialMeasure(cfg, s, Apply(cfg, s, a), a.w);
    } else {
      QueueMeasure(cfg, s, a);
    }
  }

  lemma {:induction false} RunSpendsMeasure(cfg: Config, s: State, actions: seq<Action>, t: State)
    requires Shape(cfg, s) && Run(cfg, s, actions, t)
    ensures |actions| + Measure(cfg, t) <= Measure(cfg, s)
    decreases |actions|
  {
    if actions != [] {
      var u := Apply(cfg, s, actions[0]);
      ShapeStep(cfg, s, actions[0]);
      MeasureStep(cfg, s, actions[0]);
      RunSpendsMeasure(cfg, u, actions[1..], t);
    }
  }

  /** Termination under any schedule, with an explicit bound on the number of actions. */
  lemma EveryRunIsBounded(cfg: Config, actions: seq<Action>, s: State)
    requires Run(cfg, Init(cfg), actions, s)
    ensures |actions| <= 10 * |cfg.leads| + 2 * cfg.ew + 2 * cfg.sw + 3
  {
    AllZero(Init(cfg).enrichers, EnricherLeft);
    AllZero(Init(cfg).socials, SocialLeft);
    RunSpendsMeasure(cfg, Init(cfg), actions, s);
    ShapeEnd(cfg, Init(cfg), actions, s);
  }

  lemma ShapeEnd(cfg: Config, s: State, actions: seq<Action>, t: State)
    requires Shape(cfg, s) && Run(cfg, s, actions, t)
    ensures Measure(cfg, t) >= 0
  {
    assert Shape(cfg, t);
  }

  // ---------- Calls that are begun ----------

  /** Places in which enrichment of lead `i` is still ahead. */
  ghost function BeforeEnrich(s: State, i: nat): nat {
    (if i >= s.fed then 1 else 0) + Total(s.toEnrich, IsWork(i))
  }

  /** Places in which discovery for lead `i` is still ahead. */
  ghost function BeforeSocial(s: State, i: nat): nat {
    BeforeEnrich(s, i) + Total(s.enrichers, Looking(i)) + Total(s.enrichers, Putting(i)) + Total(s.toSocial, IsWork(i))
  }

  ghost predicate BegunOnce(cfg: Config, s: State) {
    forall i: nat | i < |cfg.leads| ::
      && Total(s.enrichBegun, IsLead(i)) + BeforeEnrich(s, i) <= 1
      && Total(s.discoverBegun, IsLead(i)) + BeforeSocial(s, i) <= 1
  }

  lemma BegunLead(cfg: Config, s: State, a: Action, i: nat)
    requires Shape(cfg, s) && Enabled(cfg, s, a)
    ensures
      var t := Apply(cfg, s, a);
      && Total(t.enrichBegun, IsLead(i)) + BeforeEnrich(t, i) <= Total(s.enrichBegun, IsLead(i)) + BeforeEnrich(s, i)
      && Total(t.discoverBegun, IsLead(i)) + BeforeSocial(t, i) <= Total(s.discoverBegun, IsLead(i)) + BeforeSocial(s, i)
  {
    var t := Apply(cfg, s, a);
    Footprint(cfg, s, a);
    if ByEnricher(a) {
      EnricherBegun(cfg, s, a, i);
    } else if BySocial(a) {
      if a.SocialGet? && s.toSocial[0].Work? {
        TotalAppend(s.discoverBegun, s.toSocial[0].lead, IsLead(i));
      }
    } else if a.Feed? {
      TotalAppend(s.toEnrich, t.toEnrich[|s.toEnrich|], IsWork(i));
    } else if a.Close? {
      TotalAppend(s.toSocial, Sentinel, IsWork(i));
    }
  }

  lemma EnricherBegun(cfg: Config, s: State, a: Action, i: nat)
    requires Shape(cfg, s) && Enabled(cfg, s, a) && ByEnricher(a) && EnricherMove(s, Apply(cfg, s, a), a.w)
    ensures
      var t := Apply(cfg, s, a);
      && Total(t.enrichBegun, IsLead(i)) + BeforeEnrich(t, i) <= Total(s.enrichBegun, IsLead(i)) + BeforeEnrich(s, i)
      && Total(t.discoverBegun, IsLead(i)) + BeforeSocial(t, i) <= Total(s.discoverBegun, IsLead(i)) + BeforeSocial(s, i)
  {
    var t := Apply(cfg, s, a);
    TotalUpdate(s.enrichers, a.w, t.enrichers[a.w], Looking(i));
    TotalUpdate(s.enrichers, a.w, t.enrichers[a.w], Putting(i));
    if a.EnricherPut? {
      TotalAppend(s.toSocial, Work(s.enrichers[a.w].lead), IsWork(i));
    } else if a.EnricherGet? && s.toEnrich[0].Work? {
      TotalAppend(s.enrichBegun, s.toEnrich[0].lead, IsLead(i));
    }
  }

  lemma {:induction false} BegunRun(cfg: Config, s: State, actions: seq<Action>, t: State)
    requires Shape(cfg, s) && BegunOnce(cfg, s) && Run(cfg, s, actions, t)
    ensures BegunOnce(cfg, t)
    decreases |actions|
  {
    if actions != [] {
      var u := Apply(cfg, s, actions[0]);
      forall i: nat | i < |cfg.leads|
        ensures Total(u.enrichBegun, IsLead(i)) + BeforeEnrich(u, i) <= 1
        ensures Total(u.discoverBegun, IsLead(i)) + BeforeSocial(u, i) <= 1
      {
        BegunLead(cfg, s, actions[0], i);
      }
      ShapeStep(cfg, s, actions[0]);
      BegunRun(cfg, u, actions[1..], t);
    }
  }

  /** Enrichment and discovery are each begun at most once per lead in any run. */
  lemma CallsBegunAtMostOnce(cfg: Config, actions: seq<Action>, s: State, i: nat)
    requires Run(cfg, Init(cfg), actions, s) && i < |cfg.leads|
    ensures Total(s.enrichBegun, IsLead(i)) <= 1 && Total(s.discoverBegun, IsLead(i)) <= 1
  {
    forall j: nat | j < |cfg.leads| ensures BeforeSocial(Init(cfg), j) == BeforeEnrich(Init(cfg), j) == 1 {
      AllZero(Init(cfg).enrichers, Looking(j));
      AllZero(Init(cfg).enrichers, Putting(j));
    }
    BegunRun(cfg, Init(cfg), actions, s);
  }

  /** No enrichment and no discovery is begun once the cancel flag is set, and the flag stays set. */
  lemma {:induction false} NothingBegunAfterCancel(cfg: Config, s: State, actions: seq<Action>, t: State)
    requires Shape(cfg, s) && s.cancelled && Run(cfg, s, actions, t)
    ensures t.cancelled && t.enrichBegun == s.enrichBegun && t.discoverBegun == s.discoverBegun
    decreases |actions|
  {
    if actions != [] {
      ShapeStep(cfg, s, actions[0]);
      CancelledStep(cfg, s, actions[0]);
      NothingBegunAfterCancel(cfg, Apply(cfg, s, actions[0]), actions[1..], t);
    }
  }

  lemma CancelledStep(cfg: Config, s: State, a: Action)
    requires Shape(cfg, s) && Enabled(cfg, s, a) && s.cancelled
    ensures
      var t := Apply(cfg, s, a);
      t.cancelled && t.enrichBegun == s.enrichBegun && t.discoverBegun == s.discoverBegun
  {
  }
}
