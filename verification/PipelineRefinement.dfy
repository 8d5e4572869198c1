/**
  Streaming refines the batch stages: without cancellation, and when each lead's browser and network
  outcomes depend only on that lead, every interleaving ends with every lead in the state the batch
  stages leave it in, and with the same totals, up to the one difference stated exactly below.
*/
module PipelineRefinement {
  import opened Wrappers
  import opened LeadFields
  import opened Leads
  import opened PipelineModel
  import opened PipelineInvariant
  import opened PipelineProgress
  import opened PipelineBatch
  import opened Sums

  /** The outcome carried by the action is the oracle's answer for that lead, and nothing is cancelled. */
  ghost predicate Follows(cfg: Config, orc: Oracle, s: State, a: Action)
    requires Shape(cfg, s) && Enabled(cfg, s, a)
  {
    match a
    case EnricherFinish(w, outcome) =>
      var i := s.enrichers[w].lead;
      outcome == orc.enrich(i, s.leads[i])
    case SocialFinish(w, found) =>
      var i := s.socials[w].lead;
      found == orc.discover(i, s.leads[i])
    case Cancel => false
    case _ => true
  }

  ghost predicate FollowsAll(cfg: Config, orc: Oracle, s: State, actions: seq<Action>)
    requires Shape(cfg, s)
    decreases |actions|
  {
    if actions == [] then true
    else if !Enabled(cfg, s, actions[0]) then false
    else
      ShapeStep(cfg, s, actions[0]);
      Follows(cfg, orc, s, actions[0]) && FollowsAll(cfg, orc, Apply(cfg, s, actions[0]), actions[1..])
  }

  // ---------- How far a lead has come ----------

  /** 0 before and during enrichment, 1 between the stages and in discovery, 2 when done. */
  ghost function Stage(s: State, i: nat): nat {
    if Total(s.done, IsLead(i)) > 0 then 2 else if Past(s, i) > 0 then 1 else 0
  }

  ghost function LeadAt(cfg: Config, orc: Oracle, i: nat, stage: nat): Lead
    requires i < |cfg.leads|
  {
    if stage == 0 then cfg.leads[i]
    else if stage == 1 then AfterEnrich(orc, i, cfg.leads[i])
    else Final(orc, i, cfg.leads[i])
  }

  /** The streaming side counts every lead that is looked up, also one whose website was "". */
  function StreamEnrichTally(orc: Oracle, i: nat, lead: Lead): Counts {
    if NeedsEnrich(lead) then EnrichTally(AfterEnrich(orc, i, lead)) else Zero()
  }

  function StreamSocialTally(orc: Oracle, i: nat, lead: Lead): Counts {
    var enriched := AfterEnrich(orc, i, lead);
    BatchSocialTally(orc, i, enriched).Plus(BatchSelectionTally(orc, AfterSocial(orc, i, enriched)))
  }

  ghost function TallyAt(cfg: Config, orc: Oracle, i: nat, stage: nat): Counts
    requires i < |cfg.leads|
  {
    if stage == 0 then Zero()
    else if stage == 1 then Zero().Plus(StreamEnrichTally(orc, i, cfg.leads[i]))
    else Zero().Plus(StreamEnrichTally(orc, i, cfg.leads[i])).Plus(StreamSocialTally(orc, i, cfg.leads[i]))
  }

  ghost function Progress(cfg: Config, orc: Oracle, s: State): seq<Counts> {
    seq(|cfg.leads|, i requires 0 <= i < |cfg.leads| => TallyAt(cfg, orc, i, Stage(s, i)))
  }

  /** Only leads that need it are looked up. */
  ghost predicate LooksUpNeeded(cfg: Config, e: Enricher) {
    e.EPageWait? || e.EPage? ==> e.lead < |cfg.leads| && NeedsEnrich(cfg.leads[e.lead])
  }

  /** Only leads that need it are discovered. */
  ghost predicate DiscoversNeeded(cfg: Config, orc: Oracle, e: Socialist) {
    !e.SGet? && !e.SExit? ==> e.lead < |cfg.leads| && NeedsSocial(AfterEnrich(orc, e.lead, cfg.leads[e.lead]))
  }

  ghost predicate WorkNeeded(cfg: Config, orc: Oracle, s: State) {
    && (forall k | 0 <= k < |s.enrichers| :: LooksUpNeeded(cfg, s.enrichers[k]))
    && (forall k | 0 <= k < |s.socials| :: DiscoversNeeded(cfg, orc, s.socials[k]))
  }

  ghost predicate LeadsTrack(cfg: Config, orc: Oracle, s: State)
    requires |s.leads| == |cfg.leads|
  {
    forall i: nat | i < |cfg.leads| :: s.leads[i] == LeadAt(cfg, orc, i, Stage(s, i))
  }

  /** The state of every lead, and the counters, are determined by how far each lead has come. */
  ghost predicate Tracks(cfg: Config, orc: Oracle, s: State) {
    && |s.leads| == |cfg.leads|
    && !s.cancelled
    && LeadsTrack(cfg, orc, s)
    && s.counts == Sum(Progress(cfg, orc, s))
    && WorkNeeded(cfg, orc, s)
  }

  lemma {:induction false} SumFrame(k: nat, f: seq<Counts>, g: seq<Counts>)
    requires k <= |f| && k <= |g| && forall i: nat | i < k :: g[i] == f[i]
    ensures SumTo(k, g) == SumTo(k, f)
  {
    if k > 0 {
      SumFrame(k - 1, f, g);
    }
  }

  /** When only summand `j` grows, the sum grows by as much. */
  lemma {:induction false} SumAdvance(k: nat, f: seq<Counts>, g: seq<Counts>, j: nat, delta: Counts)
    requires j < k <= |f| == |g|
    requires (forall i: nat | i < k && i != j :: g[i] == f[i]) && g[j] == f[j].Plus(delta)
    ensures SumTo(k, g) == SumTo(k, f).Plus(delta)
  {
    if j == k - 1 {
      SumFrame(k - 1, f, g);
      PlusAssociative(SumTo(j, f), f[j], delta);
    } else {
      SumAdvance(k - 1, f, g, j, delta);
      PlusLast(SumTo(k - 1, f), delta, f[k - 1]);
    }
  }

  lemma PlusLast(a: Counts, b: Counts, c: Counts)
    ensures a.Plus(b).Plus(c) == a.Plus(c).Plus(b)
  {
  }

  // ---------- Which lead an action advances ----------

  lemma EnricherPast(s: State, t: State, w: nat, i: nat)
    requires EnricherMove(s, t, w)
    ensures Past(t, i) == Past(s, i) + if !s.enrichers[w].EPut? && t.enrichers[w] == EPut(i) then 1 else 0
  {
    TotalUpdate(s.enrichers, w, t.enrichers[w], Putting(i));
    if s.enrichers[w].EPut? {
      TotalAppend(s.toSocial, Work(s.enrichers[w].lead), IsWork(i));
    }
  }

  lemma SocialPast(s: State, t: State, w: nat, i: nat)
    requires SocialMove(s, t, w)
    ensures Past(t, i) == Past(s, i)
    ensures Total(t.done, IsLead(i)) == Total(s.done, IsLead(i))
      + if t.done != s.done && t.done[|s.done|] == i then 1 else 0
  {
    TotalUpdate(s.socials, w, t.socials[w], Discovering(i));
    if t.done != s.done {
      TotalAppend(s.done, t.done[|s.done|], IsLead(i));
    }
  }

  lemma QueueStage(cfg: Config, s: State, t: State, i: nat)
    requires QueueMove(cfg, s, t)
    ensures Stage(t, i) == Stage(s, i)
  {
    if t.toSocial != s.toSocial {
      TotalAppend(s.toSocial, Sentinel, IsWork(i));
    }
  }

  /** A lead still with the enrichment side has not advanced. */
  lemma EnricherHeldStage(cfg: Config, s: State, w: nat, i: nat)
    requires Inv(cfg, s) && i < |cfg.leads|
    requires
      || (w < |s.enrichers| && Looking(i)(s.enrichers[w]) == 1)
      || (s.toEnrich != [] && s.toEnrich[0] == Work(i))
    ensures Past(s, i) == 0 && Stage(s, i) == 0
  {
    assert Places(s, i) == 1;
    if s.toEnrich != [] && s.toEnrich[0] == Work(i) {
      MemberWeighs(s.toEnrich, 0, IsWork(i));
    } else {
      MemberWeighs(s.enrichers, w, Looking(i));
    }
  }

  /** A lead in the social queue or with a social worker is past enrichment and not done. */
  lemma SocialHeldStage(cfg: Config, s: State, w: nat, i: nat)
    requires Inv(cfg, s) && i < |cfg.leads|
    requires
      || (w < |s.socials| && Discovering(i)(s.socials[w]) == 1)
      || (s.toSocial != [] && s.toSocial[0] == Work(i))
    ensures Stage(s, i) == 1 && Past(s, i) == 1
  {
    assert Places(s, i) == 1;
    if s.toSocial != [] && s.toSocial[0] == Work(i) {
      MemberWeighs(s.toSocial, 0, IsWork(i));
    } else {
      MemberWeighs(s.socials, w, Discovering(i));
    }
  }

  // ---------- One step ----------

  /** A step that advances no lead and writes no lead keeps the correspondence. */
  lemma StillTracks(cfg: Config, orc: Oracle, s: State, t: State)
    requires Tracks(cfg, orc, s) && !t.cancelled && WorkNeeded(cfg, orc, t)
    requires t.leads == s.leads && t.counts == s.counts
    requires forall i: nat | i < |cfg.leads| :: Stage(t, i) == Stage(s, i)
    ensures Tracks(cfg, orc, t)
  {
    StillCounted(cfg, orc, s, t);
  }

  lemma StillCounted(cfg: Config, orc: Oracle, s: State, t: State)
    requires forall i: nat | i < |cfg.leads| :: Stage(t, i) == Stage(s, i)
    ensures Sum(Progress(cfg, orc, t)) == Sum(Progress(cfg, orc, s))
  {
    SumFrame(|cfg.leads|, Progress(cfg, orc, s), Progress(cfg, orc, t));
  }

  /** A step that advances lead `j`, writes it, and counts it keeps the correspondence. */
  lemma AdvanceTracks(cfg: Config, orc: Oracle, s: State, t: State, j: nat, delta: Counts)
    requires Tracks(cfg, orc, s) && !t.cancelled && WorkNeeded(cfg, orc, t) && j < |cfg.leads|
    requires forall i: nat | i < |cfg.leads| && i != j :: Stage(t, i) == Stage(s, i)
    requires t.leads == s.leads[j := LeadAt(cfg, orc, j, Stage(t, j))]
    requires t.counts == s.counts.Plus(delta)
    requires TallyAt(cfg, orc, j, Stage(t, j)) == TallyAt(cfg, orc, j, Stage(s, j)).Plus(delta)
    ensures Tracks(cfg, orc, t)
  {
    SumAdvance(|cfg.leads|, Progress(cfg, orc, s), Progress(cfg, orc, t), j, delta);
  }

  /** An enrichment worker's action advances the lead it is about to put, and no other. */
  lemma EnricherStages(cfg: Config, s: State, a: Action)
    requires Inv(cfg, s) && Enabled(cfg, s, a) && ByEnricher(a) && EnricherMove(s, Apply(cfg, s, a), a.w)
    ensures
      var t := Apply(cfg, s, a);
      forall i: nat | i < |cfg.leads| ::
        if Advances(s, t, a.w) && t.enrichers[a.w].lead == i then Stage(s, i) == 0 && Stage(t, i) == 1
        else Stage(t, i) == Stage(s, i)
  {
    var t := Apply(cfg, s, a);
    forall i: nat | i < |cfg.leads|
      ensures
        if Advances(s, t, a.w) && t.enrichers[a.w].lead == i then Stage(s, i) == 0 && Stage(t, i) == 1
        else Stage(t, i) == Stage(s, i)
    {
      EnricherPast(s, t, a.w, i);
      if Advances(s, t, a.w) && t.enrichers[a.w].lead == i {
        EnricherHeldStage(cfg, s, a.w, i);
      }
    }
  }

  ghost predicate Advances(s: State, t: State, w: nat)
    requires w < |s.enrichers| == |t.enrichers|
  {
    !s.enrichers[w].EPut? && t.enrichers[w].EPut?
  }

  lemma EnricherTracks(cfg: Config, orc: Oracle, s: State, a: Action)
    requires Inv(cfg, s) && Tracks(cfg, orc, s) && Enabled(cfg, s, a) && ByEnricher(a) && Follows(cfg, orc, s, a)
    ensures Tracks(cfg, orc, Apply(cfg, s, a))
  {
    var t := Apply(cfg, s, a);
    Footprint(cfg, s, a);
    ShapeStep(cfg, s, a);
    EnricherStages(cfg, s, a);
    EnricherNeeded(cfg, orc, s, a);
    if Advances(s, t, a.w) {
      EnricherAdvancesByAction(cfg, orc, s, a);
      EnricherAdvances(cfg, orc, s, t, t.enrichers[a.w].lead);
    } else {
      EnricherWritesNothing(cfg, s, a);
      StillTracks(cfg, orc, s, t);
    }
  }

  lemma EnricherWritesNothing(cfg: Config, s: State, a: Action)
    requires Shape(cfg, s) && Enabled(cfg, s, a) && ByEnricher(a)
    requires EnricherMove(s, Apply(cfg, s, a), a.w) && !Advances(s, Apply(cfg, s, a), a.w)
    ensures
      var t := Apply(cfg, s, a);
      t.leads == s.leads && t.counts == s.counts && t.cancelled == s.cancelled
  {
  }

  lemma EnricherAdvances(cfg: Config, orc: Oracle, s: State, t: State, j: nat)
    requires Tracks(cfg, orc, s) && !t.cancelled && WorkNeeded(cfg, orc, t)
    requires j < |cfg.leads| && Stage(s, j) == 0 && Stage(t, j) == 1
    requires forall i: nat | i < |cfg.leads| && i != j :: Stage(t, i) == Stage(s, i)
    requires t.leads == s.leads[j := AfterEnrich(orc, j, cfg.leads[j])]
    requires t.counts == s.counts.Plus(StreamEnrichTally(orc, j, cfg.leads[j]))
    ensures Tracks(cfg, orc, t)
  {
    AdvanceTracks(cfg, orc, s, t, j, StreamEnrichTally(orc, j, cfg.leads[j]));
  }

  lemma EnricherAdvancesByAction(cfg: Config, orc: Oracle, s: State, a: Action)
    requires Inv(cfg, s) && Tracks(cfg, orc, s) && Enabled(cfg, s, a) && ByEnricher(a) && Follows(cfg, orc, s, a)
    requires EnricherMove(s, Apply(cfg, s, a), a.w) && Advances(s, Apply(cfg, s, a), a.w)
    requires
      var j := Apply(cfg, s, a).enrichers[a.w].lead;
      j < |cfg.leads| && Stage(s, j) == 0
    ensures
      var t := Apply(cfg, s, a);
      var j := t.enrichers[a.w].lead;
      && !t.cancelled
      && t.leads == s.leads[j := AfterEnrich(orc, j, cfg.leads[j])]
      && t.counts == s.counts.Plus(StreamEnrichTally(orc, j, cfg.leads[j]))
  {
    var j := Apply(cfg, s, a).enrichers[a.w].lead;
    assert LooksUpNeeded(cfg, s.enrichers[a.w]) && s.leads[j] == LeadAt(cfg, orc, j, 0);
    EnricherWrites(cfg, orc, s, a);
  }

  lemma EnricherNeeded(cfg: Config, orc: Oracle, s: State, a: Action)
    requires Inv(cfg, s) && WorkNeeded(cfg, orc, s) && Enabled(cfg, s, a) && ByEnricher(a)
    ensures WorkNeeded(cfg, orc, Apply(cfg, s, a))
  {
    assert LooksUpNeeded(cfg, s.enrichers[a.w]);
  }

  /** A lead that leaves enrichment has been written and counted as the oracle says. */
  lemma EnricherWrites(cfg: Config, orc: Oracle, s: State, a: Action)
    requires Shape(cfg, s) && Enabled(cfg, s, a) && ByEnricher(a) && Follows(cfg, orc, s, a) && !s.cancelled
    requires EnricherMove(s, Apply(cfg, s, a), a.w) && LooksUpNeeded(cfg, s.enrichers[a.w])
    requires !s.enrichers[a.w].EPut? && Apply(cfg, s, a).enrichers[a.w].EPut?
    requires
      var j := Apply(cfg, s, a).enrichers[a.w].lead;
      j < |cfg.leads| && s.leads[j] == cfg.leads[j]
    ensures
      var t := Apply(cfg, s, a);
      var j := t.enrichers[a.w].lead;
      && t.leads == s.leads[j := AfterEnrich(orc, j, cfg.leads[j])]
      && t.counts == s.counts.Plus(StreamEnrichTally(orc, j, cfg.leads[j]))
  {
    match a
    case EnricherGet(w) => assert s.leads[s.toEnrich[0].lead := s.leads[s.toEnrich[0].lead]] == s.leads;
    case EnricherFinish(w, outcome) =>
  }

  /** A social worker's action advances the lead it finishes, and no other. */
  lemma SocialStages(cfg: Config, s: State, a: Action)
    requires Inv(cfg, s) && Enabled(cfg, s, a) && BySocial(a) && SocialMove(s, Apply(cfg, s, a), a.w)
    ensures
      var t := Apply(cfg, s, a);
      forall i: nat | i < |cfg.leads| ::
        if t.done != s.done && t.done[|s.done|] == i then Stage(s, i) == 1 && Stage(t, i) == 2
        else Stage(t, i) == Stage(s, i)
    ensures a.SocialGet? && s.toSocial[0].Work? ==> Stage(s, s.toSocial[0].lead) == 1
  {
    var t := Apply(cfg, s, a);
    forall i: nat | i < |cfg.leads|
      ensures
        if t.done != s.done && t.done[|s.done|] == i then Stage(s, i) == 1 && Stage(t, i) == 2
        else Stage(t, i) == Stage(s, i)
    {
      SocialPast(s, t, a.w, i);
      if t.done != s.done && t.done[|s.done|] == i {
        SocialHeldStage(cfg, s, a.w, i);
      }
    }
    if a.SocialGet? && s.toSocial[0].Work? {
      SocialHeldStage(cfg, s, a.w, s.toSocial[0].lead);
    }
  }

  lemma SocialTracks(cfg: Config, orc: Oracle, s: State, a: Action)
    requires Inv(cfg, s) && Tracks(cfg, orc, s) && Enabled(cfg, s, a) && BySocial(a) && Follows(cfg, orc, s, a)
    requires cfg.select == orc.select
    ensures Tracks(cfg, orc, Apply(cfg, s, a))
  {
    var t := Apply(cfg, s, a);
    Footprint(cfg, s, a);
    ShapeStep(cfg, s, a);
    SocialStages(cfg, s, a);
    if a.SocialGet? && s.toSocial[0].Work? {
      assert s.leads[s.toSocial[0].lead] == LeadAt(cfg, orc, s.toSocial[0].lead, 1);
    }
    SocialNeeded(cfg, orc, s, a);
    if t.done != s.done {
      SocialFinishesByAction(cfg, orc, s, a);
      SocialFinishes(cfg, orc, s, t, t.done[|s.done|]);
    } else {
      StillTracks(cfg, orc, s, t);
    }
  }

  lemma SocialFinishesByAction(cfg: Config, orc: Oracle, s: State, a: Action)
    requires Shape(cfg, s) && Tracks(cfg, orc, s) && Enabled(cfg, s, a) && BySocial(a) && Follows(cfg, orc, s, a)
    requires cfg.select == orc.select && SocialMove(s, Apply(cfg, s, a), a.w) && Apply(cfg, s, a).done != s.done
    requires
      var j := Apply(cfg, s, a).done[|s.done|];
      j < |cfg.leads| && Stage(s, j) == 1
    ensures
      var t := Apply(cfg, s, a);
      var j := t.done[|s.done|];
      && !t.cancelled
      && t.leads == s.leads[j := Final(orc, j, cfg.leads[j])]
      && t.counts == s.counts.Plus(StreamSocialTally(orc, j, cfg.leads[j]))
  {
    var j := Apply(cfg, s, a).done[|s.done|];
    assert DiscoversNeeded(cfg, orc, s.socials[a.w]) && s.leads[j] == LeadAt(cfg, orc, j, 1);
    SocialWrites(cfg, orc, s, a);
  }

  lemma SocialFinishes(cfg: Config, orc: Oracle, s: State, t: State, j: nat)
    requires Tracks(cfg, orc, s) && !t.cancelled && WorkNeeded(cfg, orc, t)
    requires j < |cfg.leads| && Stage(s, j) == 1 && Stage(t, j) == 2
    requires forall i: nat | i < |cfg.leads| && i != j :: Stage(t, i) == Stage(s, i)
    requires t.leads == s.leads[j := Final(orc, j, cfg.leads[j])]
    requires t.counts == s.counts.Plus(StreamSocialTally(orc, j, cfg.leads[j]))
    ensures Tracks(cfg, orc, t)
  {
    AdvanceTracks(cfg, orc, s, t, j, StreamSocialTally(orc, j, cfg.leads[j]));
  }

  lemma SocialNeeded(cfg: Config, orc: Oracle, s: State, a: Action)
    requires Shape(cfg, s) && WorkNeeded(cfg, orc, s) && Enabled(cfg, s, a) && BySocial(a)
    requires a.SocialGet? && s.toSocial[0].Work? ==>
      var i := s.toSocial[0].lead;
      s.leads[i] == AfterEnrich(orc, i, cfg.leads[i])
    ensures WorkNeeded(cfg, orc, Apply(cfg, s, a))
  {
    assert DiscoversNeeded(cfg, orc, s.socials[a.w]);
  }

  /** A lead that is handled has been written and counted as the oracle says. */
  lemma HandledWrites(cfg: Config, orc: Oracle, s: State, w: nat, j: nat, found: Social)
    requires w < |s.socials| && j < |cfg.leads| == |s.leads| && cfg.select == orc.select
    requires s.leads[j] == AfterEnrich(orc, j, cfg.leads[j])
    requires found == AfterSocial(orc, j, s.leads[j]).social
    ensures
      var t := Handled(cfg, s, w, j, found);
      && t.leads == s.leads[j := Final(orc, j, cfg.leads[j])]
      && t.counts == s.counts.Plus(StreamSocialTally(orc, j, cfg.leads[j]))
  {
    var enriched := s.leads[j];
    PlusAssociative(s.counts, BatchSocialTally(orc, j, enriched), BatchSelectionTally(orc, AfterSocial(orc, j, enriched)));
  }

  lemma SocialWrites(cfg: Config, orc: Oracle, s: State, a: Action)
    requires Shape(cfg, s) && Enabled(cfg, s, a) && BySocial(a) && Follows(cfg, orc, s, a) && !s.cancelled
    requires cfg.select == orc.select && SocialMove(s, Apply(cfg, s, a), a.w) && Apply(cfg, s, a).done != s.done
    requires DiscoversNeeded(cfg, orc, s.socials[a.w])
    requires
      var j := Apply(cfg, s, a).done[|s.done|];
      j < |cfg.leads| && s.leads[j] == AfterEnrich(orc, j, cfg.leads[j])
    ensures
      var t := Apply(cfg, s, a);
      var j := t.done[|s.done|];
      && t.leads == s.leads[j := Final(orc, j, cfg.leads[j])]
      && t.counts == s.counts.Plus(StreamSocialTally(orc, j, cfg.leads[j]))
  {
    match a
    case SocialGet(w, _) =>
      var j := s.toSocial[0].lead;
      HandledWrites(cfg, orc, s.(toSocial := s.toSocial[1..]), w, j, s.leads[j].social);
    case SocialFinish(w, found) =>
      HandledWrites(cfg, orc, s, w, s.socials[w].lead, found);
  }

  lemma QueueTracks(cfg: Config, orc: Oracle, s: State, a: Action)
    requires Inv(cfg, s) && Tracks(cfg, orc, s) && Enabled(cfg, s, a) && Follows(cfg, orc, s, a)
    requires !ByEnricher(a) && !BySocial(a)
    ensures Tracks(cfg, orc, Apply(cfg, s, a))
  {
    var t := Apply(cfg, s, a);
    Footprint(cfg, s, a);
    forall i: nat | i < |cfg.leads| ensures Stage(t, i) == Stage(s, i) {
      QueueStage(cfg, s, t, i);
    }
    StillTracks(cfg, orc, s, t);
  }

  // ---------- Whole runs ----------

  lemma InitTracks(cfg: Config, orc: Oracle)
    ensures Tracks(cfg, orc, Init(cfg))
  {
    var s := Init(cfg);
    forall i: nat | i < |cfg.leads| ensures Stage(s, i) == 0 {
      AllZero(s.enrichers, Putting(i));
      AllZero(s.socials, Discovering(i));
    }
    SumOfZeros(Progress(cfg, orc, s), |cfg.leads|);
  }

  lemma {:induction false} SumOfZeros(each: seq<Counts>, k: nat)
    requires k <= |each| && forall i: nat | i < k :: each[i] == Zero()
    ensures SumTo(k, each) == Zero()
  {
    if k > 0 {
      SumOfZeros(each, k - 1);
    }
  }

  lemma {:induction false} TracksRun(cfg: Config, orc: Oracle, s: State, actions: seq<Action>, t: State)
    requires Inv(cfg, s) && Tracks(cfg, orc, s) && cfg.select == orc.select
    requires Run(cfg, s, actions, t) && FollowsAll(cfg, orc, s, actions)
    ensures Tracks(cfg, orc, t)
    decreases |actions|
  {
    if actions != [] {
      var a := actions[0];
      InvStep(cfg, s, a);
      if ByEnricher(a) {
        EnricherTracks(cfg, orc, s, a);
      } else if BySocial(a) {
        SocialTracks(cfg, orc, s, a);
      } else {
        QueueTracks(cfg, orc, s, a);
      }
      TracksRun(cfg, orc, Apply(cfg, s, a), actions[1..], t);
    }
  }

  /** A lead whose website is the empty string and that has a Maps URL: looked up by both, counted only by streaming. */
  predicate EmptyWebsite(lead: Lead) {
    lead.website == Some("") && Truthy(lead.mapsUrl)
  }

  function EmptyTallyOf(orc: Oracle, i: nat, lead: Lead): Counts {
    if EmptyWebsite(lead) then EnrichTally(AfterEnrich(orc, i, lead)) else Zero()
  }

  function EmptyTallies(orc: Oracle, leads: seq<Lead>): seq<Counts> {
    seq(|leads|, i requires 0 <= i < |leads| => EmptyTallyOf(orc, i, leads[i]))
  }

  /** What the streaming pipeline counts in total: the batch totals, plus the looked-up leads with an empty website. */
  function StreamCounts(orc: Oracle, leads: seq<Lead>): Counts {
    BatchCounts(orc, leads).Plus(Sum(EmptyTallies(orc, leads)))
  }

  lemma {:induction false} SumPlus(k: nat, whole: seq<Counts>, f: seq<Counts>, g: seq<Counts>)
    requires k <= |whole| == |f| == |g| && forall i: nat | i < k :: whole[i] == f[i].Plus(g[i])
    ensures SumTo(k, whole) == SumTo(k, f).Plus(SumTo(k, g))
  {
    if k > 0 {
      SumPlus(k - 1, whole, f, g);
      Interchange(SumTo(k - 1, f), SumTo(k - 1, g), f[k - 1], g[k - 1]);
    }
  }

  lemma Interchange(a: Counts, b: Counts, x: Counts, y: Counts)
    ensures a.Plus(b).Plus(x.Plus(y)) == a.Plus(x).Plus(b.Plus(y))
  {
  }

  function StreamEnrichTallies(orc: Oracle, leads: seq<Lead>): seq<Counts> {
    seq(|leads|, i requires 0 <= i < |leads| => Zero().Plus(StreamEnrichTally(orc, i, leads[i])))
  }

  function StreamSocialTallies(orc: Oracle, leads: seq<Lead>): seq<Counts> {
    seq(|leads|, i requires 0 <= i < |leads| => StreamSocialTally(orc, i, leads[i]))
  }

  lemma ZeroPlus(x: Counts)
    ensures Zero().Plus(x) == x && x.Plus(Zero()) == x
  {
  }

  /** A looked-up lead is counted by the batch stage or is one with an empty website, never both. */
  lemma StreamEnrichSplit(orc: Oracle, i: nat, lead: Lead)
    ensures Zero().Plus(StreamEnrichTally(orc, i, lead))
      == BatchEnrichTally(orc, i, lead).Plus(EmptyTallyOf(orc, i, lead))
  {
    var st, bt, et := StreamEnrichTally(orc, i, lead), BatchEnrichTally(orc, i, lead), EmptyTallyOf(orc, i, lead);
    assert (st == bt && et == Zero()) || (st == et && bt == Zero());
    SplitBy(st, bt, et);
  }

  lemma SplitBy(st: Counts, bt: Counts, et: Counts)
    requires (st == bt && et == Zero()) || (st == et && bt == Zero())
    ensures Zero().Plus(st) == bt.Plus(et)
  {
    ZeroPlus(st);
  }

  lemma SumStreamEnrich(orc: Oracle, leads: seq<Lead>)
    ensures Sum(StreamEnrichTallies(orc, leads)) == Sum(EnrichTallies(orc, leads)).Plus(Sum(EmptyTallies(orc, leads)))
  {
    forall i: nat | i < |leads|
      ensures StreamEnrichTallies(orc, leads)[i] == EnrichTallies(orc, leads)[i].Plus(EmptyTallies(orc, leads)[i])
    {
      StreamEnrichSplit(orc, i, leads[i]);
    }
    SumPlus(|leads|, StreamEnrichTallies(orc, leads), EnrichTallies(orc, leads), EmptyTallies(orc, leads));
  }

  lemma SumStreamSocial(orc: Oracle, leads: seq<Lead>)
    ensures
      var enriched := EnrichedLeads(orc, leads);
      var found := PipelineBatch.SocialLeads(orc, enriched);
      Sum(StreamSocialTallies(orc, leads)) == Sum(SocialTallies(orc, enriched)).Plus(Sum(SelectionTallies(orc, found)))
  {
    var enriched := EnrichedLeads(orc, leads);
    var found := PipelineBatch.SocialLeads(orc, enriched);
    SumPlus(|leads|, StreamSocialTallies(orc, leads), SocialTallies(orc, enriched), SelectionTallies(orc, found));
  }

  lemma Regroup(x: Counts, y: Counts, b: Counts, c: Counts)
    ensures x.Plus(y).Plus(b.Plus(c)) == x.Plus(b).Plus(c).Plus(y)
  {
  }

  lemma DoneLeads(cfg: Config, orc: Oracle, s: State)
    requires Tracks(cfg, orc, s) && forall i: nat | i < |cfg.leads| :: Stage(s, i) == 2
    ensures s.leads == FinalLeads(orc, cfg.leads)
  {
    forall i: nat | i < |cfg.leads| ensures s.leads[i] == Final(orc, i, cfg.leads[i]) {
      assert Stage(s, i) == 2;
    }
  }

  lemma DoneCounts(cfg: Config, orc: Oracle, s: State)
    requires forall i: nat | i < |cfg.leads| :: Stage(s, i) == 2
    ensures Sum(Progress(cfg, orc, s)) == StreamCounts(orc, cfg.leads)
  {
    var leads := cfg.leads;
    DoneSplit(cfg, orc, s);
    SumStreamEnrich(orc, leads);
    SumStreamSocial(orc, leads);
    var enriched := EnrichedLeads(orc, leads);
    var found := PipelineBatch.SocialLeads(orc, enriched);
    Regroup(Sum(EnrichTallies(orc, leads)), Sum(EmptyTallies(orc, leads)),
            Sum(SocialTallies(orc, enriched)), Sum(SelectionTallies(orc, found)));
  }

  lemma DoneSplit(cfg: Config, orc: Oracle, s: State)
    requires forall i: nat | i < |cfg.leads| :: Stage(s, i) == 2
    ensures Sum(Progress(cfg, orc, s))
      == Sum(StreamEnrichTallies(orc, cfg.leads)).Plus(Sum(StreamSocialTallies(orc, cfg.leads)))
  {
    var whole, f, g := Progress(cfg, orc, s), StreamEnrichTallies(orc, cfg.leads), StreamSocialTallies(orc, cfg.leads);
    forall i: nat | i < |cfg.leads| ensures whole[i] == f[i].Plus(g[i]) {
      assert Stage(s, i) == 2;
      DoneTally(cfg, orc, i, whole[i], f[i], g[i]);
    }
    SumPlus(|cfg.leads|, whole, f, g);
  }

  lemma DoneTally(cfg: Config, orc: Oracle, i: nat, whole: Counts, x: Counts, y: Counts)
    requires i < |cfg.leads| && whole == TallyAt(cfg, orc, i, 2)
    requires x == Zero().Plus(StreamEnrichTally(orc, i, cfg.leads[i])) && y == StreamSocialTally(orc, i, cfg.leads[i])
    ensures whole == x.Plus(y)
  {
  }

  lemma EnrichTallyIs(after: Lead)
    ensures EnrichTally(after) == Counts(if after.website != None then 1 else 0, if after.website == None then 1 else 0, 0, 0, 0, 0)
  {
  }

  lemma OneStreamTally(orc: Oracle, i: nat, lead: Lead, found: bool)
    requires found == (AfterEnrich(orc, i, lead).website != None)
    ensures Zero().Plus(StreamEnrichTally(orc, i, lead))
      == if NeedsEnrich(lead) then Counts(if found then 1 else 0, if !found then 1 else 0, 0, 0, 0, 0)
         else Counts(0, 0, 0, 0, 0, 0)
  {
    ZeroPlus(StreamEnrichTally(orc, i, lead));
    if NeedsEnrich(lead) {
      EnrichTallyIs(AfterEnrich(orc, i, lead));
    }
  }

  lemma LookedUpIs(leads: seq<Lead>, enriched: seq<Lead>, i: nat, found: bool)
    requires i < |leads| == |enriched|
    ensures i in LookedUp(leads, enriched, true, found) <==> NeedsEnrich(leads[i]) && (enriched[i].website != None) == found
  {
  }

  lemma StreamEnrichTotals(orc: Oracle, leads: seq<Lead>)
    ensures
      var enriched := EnrichedLeads(orc, leads);
      Sum(StreamEnrichTallies(orc, leads))
      == Counts(|LookedUp(leads, enriched, true, true)|, |LookedUp(leads, enriched, true, false)|, 0, 0, 0, 0)
  {
    var each, enriched := StreamEnrichTallies(orc, leads), EnrichedLeads(orc, leads);
    var yes, no := LookedUp(leads, enriched, true, true), LookedUp(leads, enriched, true, false);
    forall i: nat | i < |leads|
      ensures each[i] == Counts(if i in yes then 1 else 0, if i in no then 1 else 0, 0, 0, 0, 0)
    {
      OneStreamTally(orc, i, leads[i], enriched[i].website != None);
      LookedUpIs(leads, enriched, i, true);
      LookedUpIs(leads, enriched, i, false);
    }
    CountsOfPair(each, yes, no);
  }

  lemma CountsOfPair(each: seq<Counts>, yes: set<nat>, no: set<nat>)
    requires forall i: nat | i < |each| :: each[i] == Counts(if i in yes then 1 else 0, if i in no then 1 else 0, 0, 0, 0, 0)
    requires forall i | i in yes :: i < |each|
    requires forall i | i in no :: i < |each|
    ensures Sum(each) == Counts(|yes|, |no|, 0, 0, 0, 0)
  {
    PartCounts(each, EnrichCompleted, yes);
    PartCounts(each, EnrichFailed, no);
    NoPart(each, SocialCompleted);
    NoPart(each, SocialFailed);
    NoPart(each, SelectionBefore);
    NoPart(each, SelectionAfter);
  }

  /** The streaming counters count leads too, those looked up with an empty website among them. */
  lemma StreamTotals(orc: Oracle, leads: seq<Lead>)
    ensures
      var enriched := EnrichedLeads(orc, leads);
      StreamCounts(orc, leads) == Totals(leads, enriched, PipelineBatch.SocialLeads(orc, enriched), FinalLeads(orc, leads), true)
  {
    var enriched := EnrichedLeads(orc, leads);
    var found := PipelineBatch.SocialLeads(orc, enriched);
    SumStreamEnrich(orc, leads);
    StreamEnrichTotals(orc, leads);
    SocialTotals(orc, enriched);
    SelectionTotals(orc, found);
    SelectedAreFinal(orc, leads);
    Regroup(Sum(EnrichTallies(orc, leads)), Sum(EmptyTallies(orc, leads)),
            Sum(SocialTallies(orc, enriched)), Sum(SelectionTallies(orc, found)));
    PlusAssociative(Sum(StreamEnrichTallies(orc, leads)), Sum(SocialTallies(orc, enriched)), Sum(SelectionTallies(orc, found)));
    AddParts(Sum(StreamEnrichTallies(orc, leads)), Sum(SocialTallies(orc, enriched)), Sum(SelectionTallies(orc, found)));
  }

  /** What a finished run without cancellation leaves, on the leads' fields and as numbers of leads. */
  lemma StreamingJourney(cfg: Config, orc: Oracle, actions: seq<Action>, s: State)
    requires ValidConfig(cfg) && cfg.select == orc.select
    requires Run(cfg, Init(cfg), actions, s) && FollowsAll(cfg, orc, Init(cfg), actions) && Finished(s)
    ensures
      var enriched := EnrichedLeads(orc, cfg.leads);
      var found := PipelineBatch.SocialLeads(orc, enriched);
      AllJourneyed(orc, cfg.leads, enriched, found, s.leads) && s.counts == Totals(cfg.leads, enriched, found, s.leads, true)
  {
    FinishedTracks(cfg, orc, actions, s);
    DoneLeads(cfg, orc, s);
    DoneCounts(cfg, orc, s);
    JourneysOf(orc, cfg.leads);
    StreamTotals(orc, cfg.leads);
  }

  /**
    Streaming refines batch. Every finished run without cancellation leaves each lead exactly as the
    batch stages do; the social and selection totals are the batch totals always, and the enrichment
    totals are exactly when no lead with a Maps URL started with the empty string as its website.
  */
  lemma StreamingRefinesBatch(cfg: Config, orc: Oracle, actions: seq<Action>, s: State)
    requires ValidConfig(cfg) && cfg.select == orc.select
    requires Run(cfg, Init(cfg), actions, s) && FollowsAll(cfg, orc, Init(cfg), actions) && Finished(s)
    ensures s.leads == FinalLeads(orc, cfg.leads)
    ensures
      var batch := BatchCounts(orc, cfg.leads);
      && s.counts == batch.(enrichCompleted := s.counts.enrichCompleted, enrichFailed := s.counts.enrichFailed)
      && (s.counts == batch <==>
            forall i | 0 <= i < |cfg.leads| :: cfg.leads[i].website != Some("") || cfg.leads[i].mapsUrl in {None, Some("")})
  {
    FinishedTracks(cfg, orc, actions, s);
    DoneLeads(cfg, orc, s);
    DoneCounts(cfg, orc, s);
    EmptyTally(orc, cfg.leads, |cfg.leads|);
    ExtraOnly(BatchCounts(orc, cfg.leads), Sum(EmptyTallies(orc, cfg.leads)),
      forall i | 0 <= i < |cfg.leads| :: !EmptyWebsite(cfg.leads[i]));
    assert forall i | 0 <= i < |cfg.leads| ::
      !EmptyWebsite(cfg.leads[i]) <==> cfg.leads[i].website != Some("") || cfg.leads[i].mapsUrl in {None, Some("")};
  }

  lemma FinishedTracks(cfg: Config, orc: Oracle, actions: seq<Action>, s: State)
    requires ValidConfig(cfg) && cfg.select == orc.select
    requires Run(cfg, Init(cfg), actions, s) && FollowsAll(cfg, orc, Init(cfg), actions) && Finished(s)
    ensures Tracks(cfg, orc, s) && forall i: nat | i < |cfg.leads| :: Stage(s, i) == 2
  {
    InitInv(cfg);
    InitTracks(cfg, orc);
    TracksRun(cfg, orc, Init(cfg), actions, s);
    FinishedHandledAllOnce(cfg, actions, s);
    forall i: nat | i < |cfg.leads| ensures Stage(s, i) == 2 {
      assert Total(s.done, IsLead(i)) == 1;
    }
  }

  ghost predicate EnrichOnly(c: Counts, none: bool) {
    && c == Zero().(enrichCompleted := c.enrichCompleted, enrichFailed := c.enrichFailed)
    && c.enrichCompleted >= 0 && c.enrichFailed >= 0
    && (c.enrichCompleted + c.enrichFailed == 0 <==> none)
  }

  lemma EnrichOnlyPlus(c: Counts, d: Counts, noneC: bool, noneD: bool)
    requires EnrichOnly(c, noneC) && EnrichOnly(d, noneD)
    ensures EnrichOnly(c.Plus(d), noneC && noneD)
  {
  }

  /** The extra counts touch the enrichment counters only, and are zero exactly when there is nothing extra. */
  lemma {:induction false} EmptyTally(orc: Oracle, leads: seq<Lead>, k: nat)
    requires k <= |leads|
    ensures EnrichOnly(SumTo(k, EmptyTallies(orc, leads)), forall i | 0 <= i < k :: !EmptyWebsite(leads[i]))
  {
    if k > 0 {
      EmptyTally(orc, leads, k - 1);
      EnrichOnlyPlus(SumTo(k - 1, EmptyTallies(orc, leads)), EmptyTallyOf(orc, k - 1, leads[k - 1]),
        forall i | 0 <= i < k - 1 :: !EmptyWebsite(leads[i]), !EmptyWebsite(leads[k - 1]));
    }
  }

  lemma ExtraOnly(batch: Counts, extra: Counts, none: bool)
    requires EnrichOnly(extra, none)
    ensures
      var s := batch.Plus(extra);
      && s == batch.(enrichCompleted := s.enrichCompleted, enrichFailed := s.enrichFailed)
      && (s == batch <==> none)
  {
  }
}
