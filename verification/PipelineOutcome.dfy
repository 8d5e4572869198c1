/**
  What any run of the streaming pipeline does to its leads, whatever the browser and the network answer
  and whenever it is cancelled: which calls are begun, which fields they may change, and that every
  call begun and every lead handled is counted.
*/
module PipelineOutcome {
  import opened Wrappers
  import opened Leads
  import opened LeadFields
  import opened PipelineModel
  import opened PipelineInvariant
  import opened PipelineProgress
  import opened Sums

  ghost predicate WantsLookup(lead: Lead) {
    lead.website in {None, Some("")} && lead.mapsUrl !in {None, Some("")}
  }

  ghost predicate WantsDiscovery(lead: Lead) {
    lead.social.instagramUrl == None || lead.social.facebookUrl == None
  }

  // ---------- Where a call is still ahead ----------

  /** Only the `get` that takes the lead's item leaves one place fewer ahead of its call. */
  lemma AheadStep(cfg: Config, s: State, a: Action, i: nat)
    requires Shape(cfg, s) && Enabled(cfg, s, a)
    ensures
      var t := Apply(cfg, s, a);
      && BeforeEnrich(s, i) == BeforeEnrich(t, i) + (if a.EnricherGet? && s.toEnrich[0] == Work(i) then 1 else 0)
      && BeforeSocial(s, i) == BeforeSocial(t, i) + (if a.SocialGet? && s.toSocial[0] == Work(i) then 1 else 0)
  {
    var t := Apply(cfg, s, a);
    Footprint(cfg, s, a);
    if ByEnricher(a) {
      EnricherAhead(cfg, s, a, i);
    } else if a.Feed? {
      TotalAppend(s.toEnrich, t.toEnrich[|s.toEnrich|], IsWork(i));
    } else if a.Close? {
      TotalAppend(s.toSocial, Sentinel, IsWork(i));
    }
  }

  lemma EnricherAhead(cfg: Config, s: State, a: Action, i: nat)
    requires Shape(cfg, s) && Enabled(cfg, s, a) && ByEnricher(a) && EnricherMove(s, Apply(cfg, s, a), a.w)
    ensures
      var t := Apply(cfg, s, a);
      && BeforeEnrich(s, i) == BeforeEnrich(t, i) + (if a.EnricherGet? && s.toEnrich[0] == Work(i) then 1 else 0)
      && BeforeSocial(s, i) == BeforeSocial(t, i)
  {
    var t := Apply(cfg, s, a);
    TotalUpdate(s.enrichers, a.w, t.enrichers[a.w], Looking(i));
    TotalUpdate(s.enrichers, a.w, t.enrichers[a.w], Putting(i));
    if a.EnricherPut? {
      TotalAppend(s.toSocial, Work(s.enrichers[a.w].lead), IsWork(i));
    }
  }

  // ---------- What one action does to the leads, the calls and the counters ----------

  /** An enrichment worker begins a lookup, ends one, or does neither. */
  ghost predicate EnricherEffect(cfg: Config, s: State, t: State, w: nat) {
    && w < |s.enrichers| == |t.enrichers| && t.enrichers == s.enrichers[w := t.enrichers[w]]
    && t.socials == s.socials && t.discoverBegun == s.discoverBegun && t.done == s.done && t.cancelled == s.cancelled
    && var before, after := s.enrichers[w], t.enrichers[w];
       && WebsiteOnly(s, t, if before.EPage? then Some(before.lead) else None)
       && t.counts.enrichCompleted + t.counts.enrichFailed == s.counts.enrichCompleted + s.counts.enrichFailed + (if before.EPage? then 1 else 0)
       && t.counts.socialCompleted + t.counts.socialFailed == s.counts.socialCompleted + s.counts.socialFailed
       && if before.EGet? && s.toEnrich != [] && s.toEnrich[0].Work? then
            var i := s.toEnrich[0].lead;
            && i < |cfg.leads|
            && if WantsLookup(cfg.leads[i]) && !s.cancelled then t.enrichBegun == s.enrichBegun + [i] && after == EPageWait(i)
               else t.enrichBegun == s.enrichBegun && after == EPut(i)
          else
            && t.enrichBegun == s.enrichBegun
            && (if before.EPageWait? then after == EPage(before.lead) else !after.EPageWait? && !after.EPage?)
  }

  /** At most the website of one lead is changed. */
  ghost predicate WebsiteOnly(s: State, t: State, changed: Option<nat>) {
    && |t.leads| == |s.leads|
    && forall i: nat | i < |s.leads| ::
         && t.leads[i].social == s.leads[i].social && t.leads[i].mapsUrl == s.leads[i].mapsUrl
         && (Some(i) != changed ==> t.leads[i].website == s.leads[i].website)
  }

  lemma EnricherEffectStep(cfg: Config, s: State, a: Action)
    requires Shape(cfg, s) && Enabled(cfg, s, a) && ByEnricher(a)
    ensures EnricherEffect(cfg, s, Apply(cfg, s, a), a.w)
  {
  }

  /** A social worker begins a discovery, handles a lead, or does neither. */
  ghost predicate SocialEffect(cfg: Config, s: State, t: State, w: nat) {
    && w < |s.socials| == |t.socials| && t.socials == s.socials[w := t.socials[w]]
    && t.enrichers == s.enrichers && t.enrichBegun == s.enrichBegun && t.cancelled == s.cancelled
    && t.counts.enrichCompleted + t.counts.enrichFailed == s.counts.enrichCompleted + s.counts.enrichFailed
    && var before, after := s.socials[w], t.socials[w];
    if before.SGet? && s.toSocial != [] && s.toSocial[0].Work? then
      var i := s.toSocial[0].lead;
      && i < |s.leads|
      && if WantsDiscovery(s.leads[i]) && !s.cancelled
         then Idles(s, t) && t.discoverBegun == s.discoverBegun + [i] && (after == SPageWait(i) || after == SWork(i))
         else t.discoverBegun == s.discoverBegun && after.SGet? && Finishes(cfg, s, t, i, s.leads[i].social)
    else
      && t.discoverBegun == s.discoverBegun
      && if before.SWork? then before.lead < |s.leads| && after.SGet? && exists found :: Finishes(cfg, s, t, before.lead, found)
         else
           && Idles(s, t)
           && (!after.SGet? && !after.SExit? ==> !before.SGet? && !before.SExit? && after.lead == before.lead)
  }

  ghost predicate Idles(s: State, t: State) {
    t.done == s.done && t.leads == s.leads && t.counts == s.counts
  }

  /** Lead `i` is handled, from `found`, and counted if it wanted discovery. */
  ghost predicate Finishes(cfg: Config, s: State, t: State, i: nat, found: Social)
    requires i < |s.leads|
  {
    && t.done == s.done + [i] && |t.leads| == |s.leads|
    && t.leads == s.leads[i := Lead(s.leads[i].website, s.leads[i].mapsUrl, t.leads[i].social)]
    && SelectedBy(found, cfg.select(found), t.leads[i].social)
    && t.counts.socialCompleted + t.counts.socialFailed == s.counts.socialCompleted + s.counts.socialFailed + (if WantsDiscovery(s.leads[i]) then 1 else 0)
  }

  lemma SocialEffectStep(cfg: Config, s: State, a: Action)
    requires Shape(cfg, s) && Enabled(cfg, s, a) && BySocial(a)
    ensures SocialEffect(cfg, s, Apply(cfg, s, a), a.w)
  {
    var t := Apply(cfg, s, a);
    if a.SocialGet? && s.toSocial[0].Work? {
      SelectedByFields(s.leads[s.toSocial[0].lead].social, cfg.select);
    } else if a.SocialFinish? {
      SelectedByFields(a.found, cfg.select);
      assert Finishes(cfg, s, t, s.socials[a.w].lead, a.found);
    }
  }

  /** Everybody else leaves them alone; the cancel flag may be set. */
  ghost predicate QueueEffect(s: State, t: State) {
    && Idles(s, t) && t.enrichers == s.enrichers && t.socials == s.socials
    && t.enrichBegun == s.enrichBegun && t.discoverBegun == s.discoverBegun && (s.cancelled ==> t.cancelled)
  }

  lemma QueueEffectStep(cfg: Config, s: State, a: Action)
    requires Shape(cfg, s) && Enabled(cfg, s, a) && !ByEnricher(a) && !BySocial(a)
    ensures QueueEffect(s, Apply(cfg, s, a))
  {
  }

  // ---------- What every run keeps ----------

  /** A worker that looks up or discovers a lead has begun that call, and only leads that want a call get one. */
  ghost predicate BegunOk(cfg: Config, s: State) {
    && (forall w | 0 <= w < |s.enrichers| && (s.enrichers[w].EPageWait? || s.enrichers[w].EPage?) ::
          s.enrichers[w].lead in s.enrichBegun)
    && (forall w | 0 <= w < |s.socials| && !s.socials[w].SGet? && !s.socials[w].SExit? ::
          s.socials[w].lead in s.discoverBegun)
    && (forall i | i in s.enrichBegun :: i < |cfg.leads| && WantsLookup(cfg.leads[i]))
    && (forall i | i in s.discoverBegun :: i < |cfg.leads| && WantsDiscovery(cfg.leads[i]))
  }

  /** What a handled lead ends with: the engine's clean-up of what it came with or of what discovery gave. */
  ghost predicate HandledFrom(cfg: Config, i: nat, begun: bool, found: Social, after: Social)
    requires i < |cfg.leads|
  {
    SelectedBy(found, cfg.select(found), after) && (begun || found == cfg.leads[i].social)
  }

  /** Only a lookup changes a website, and only handling a lead changes its social fields. */
  ghost predicate LeadOk(cfg: Config, s: State, i: nat)
    requires i < |cfg.leads| && i < |s.leads|
  {
    && s.leads[i].mapsUrl == cfg.leads[i].mapsUrl
    && (i !in s.enrichBegun ==> s.leads[i].website == cfg.leads[i].website)
    && (i !in s.done ==> s.leads[i].social == cfg.leads[i].social)
    && (i in s.done ==> exists found :: HandledFrom(cfg, i, i in s.discoverBegun, found, s.leads[i].social))
  }

  ghost predicate LeadsOk(cfg: Config, s: State) {
    |s.leads| == |cfg.leads| && forall i: nat | i < |cfg.leads| :: LeadOk(cfg, s, i)
  }

  /** Unless cancelled, a lead that wants a call and is past it has had it begun. */
  ghost predicate BegunAll(cfg: Config, s: State, i: nat)
    requires i < |cfg.leads|
  {
    && (!s.cancelled && WantsLookup(cfg.leads[i]) && BeforeEnrich(s, i) == 0 ==> i in s.enrichBegun)
    && (!s.cancelled && WantsDiscovery(cfg.leads[i]) && BeforeSocial(s, i) == 0 ==> i in s.discoverBegun)
  }

  function LooksUp(e: Enricher): nat {
    if e.EPageWait? || e.EPage? then 1 else 0
  }

  /** Leads that came with one of the two URLs missing. */
  ghost function WantingLeads(leads: seq<Lead>): set<nat> {
    set i: nat | i < |leads| && (leads[i].social.instagramUrl == None || leads[i].social.facebookUrl == None)
  }

  ghost function Members(done: seq<nat>): set<nat> {
    set i | i in done
  }

  lemma OneMoreMember(wanting: set<nat>, members: set<nat>, x: nat)
    requires x !in members
    ensures |wanting * (members + {x})| == |wanting * members| + if x in wanting then 1 else 0
  {
    if x in wanting {
      assert wanting * (members + {x}) == wanting * members + {x};
    } else {
      assert wanting * (members + {x}) == wanting * members;
    }
  }

  /** Every lookup begun is counted once it is over, and every handled lead that wanted discovery. */
  ghost predicate Tallied(cfg: Config, s: State) {
    && s.counts.enrichCompleted + s.counts.enrichFailed + Total(s.enrichers, LooksUp) == |s.enrichBegun|
    && s.counts.socialCompleted + s.counts.socialFailed == |WantingLeads(cfg.leads) * Members(s.done)|
  }

  ghost predicate OutcomeInv(cfg: Config, s: State) {
    BegunOk(cfg, s) && LeadsOk(cfg, s) && Tallied(cfg, s) && forall i: nat | i < |cfg.leads| :: BegunAll(cfg, s, i)
  }

  lemma EnricherKeeps(cfg: Config, s: State, t: State, w: nat)
    requires EnricherEffect(cfg, s, t, w) && BegunOk(cfg, s) && LeadsOk(cfg, s)
    ensures BegunOk(cfg, t) && LeadsOk(cfg, t)
  {
    var before := s.enrichers[w];
    assert before.EPage? || before.EPageWait? ==> before.lead in s.enrichBegun;
    forall i: nat | i < |cfg.leads| ensures LeadOk(cfg, t, i) {
      assert LeadOk(cfg, s, i);
      if i in t.done {
        var found :| HandledFrom(cfg, i, i in s.discoverBegun, found, s.leads[i].social);
        assert HandledFrom(cfg, i, i in t.discoverBegun, found, t.leads[i].social);
      }
    }
  }

  lemma EnricherTallied(cfg: Config, s: State, t: State, w: nat)
    requires EnricherEffect(cfg, s, t, w) && Tallied(cfg, s)
    ensures Tallied(cfg, t)
  {
    TotalUpdate(s.enrichers, w, t.enrichers[w], LooksUp);
  }

  /** A lead in the social queue or with a social worker has not been handled. */
  lemma NotYetDone(cfg: Config, s: State, i: nat)
    requires Inv(cfg, s) && i < |cfg.leads|
    requires (s.toSocial != [] && s.toSocial[0] == Work(i)) || exists w :: 0 <= w < |s.socials| && Discovering(i)(s.socials[w]) == 1
    ensures i !in s.done
  {
    assert Places(s, i) == 1;
    if s.toSocial != [] && s.toSocial[0] == Work(i) {
      MemberWeighs(s.toSocial, 0, IsWork(i));
    } else {
      var w :| 0 <= w < |s.socials| && Discovering(i)(s.socials[w]) == 1;
      MemberWeighs(s.socials, w, Discovering(i));
    }
    if i in s.done {
      var k :| 0 <= k < |s.done| && s.done[k] == i;
      MemberWeighs(s.done, k, IsLead(i));
      assert false;
    }
  }

  /** The lead a social worker takes or holds is as it came, except for its website. */
  ghost predicate HandIsNew(cfg: Config, s: State, w: nat) {
    && w < |s.socials|
    && (s.socials[w].SGet? && s.toSocial != [] && s.toSocial[0].Work? ==>
          s.toSocial[0].lead < |cfg.leads| && s.toSocial[0].lead !in s.done)
    && (!s.socials[w].SGet? && !s.socials[w].SExit? ==>
          s.socials[w].lead < |cfg.leads| && s.socials[w].lead !in s.done)
  }

  lemma HandsAreNew(cfg: Config, s: State, w: nat)
    requires Inv(cfg, s) && w < |s.socials|
    ensures HandIsNew(cfg, s, w)
  {
    if s.toSocial != [] && s.toSocial[0].Work? {
      NotYetDone(cfg, s, s.toSocial[0].lead);
    }
    if !s.socials[w].SGet? && !s.socials[w].SExit? {
      assert SocialLead(s.socials[w]).Some?;
      assert Discovering(s.socials[w].lead)(s.socials[w]) == 1;
      NotYetDone(cfg, s, s.socials[w].lead);
    }
  }

  /** Handling lead `j` keeps every lead's record. */
  lemma FinishKeeps(cfg: Config, s: State, t: State, j: nat, found: Social)
    requires LeadsOk(cfg, s) && j < |cfg.leads| && j !in s.done && Finishes(cfg, s, t, j, found)
    requires t.enrichBegun == s.enrichBegun && t.discoverBegun == s.discoverBegun
    requires j in s.discoverBegun || found == cfg.leads[j].social
    ensures LeadsOk(cfg, t)
  {
    forall i: nat | i < |cfg.leads| ensures LeadOk(cfg, t, i) {
      assert LeadOk(cfg, s, i);
      if i == j {
        assert HandledFrom(cfg, j, j in t.discoverBegun, found, t.leads[j].social);
      } else if i in t.done {
        var was :| HandledFrom(cfg, i, i in s.discoverBegun, was, s.leads[i].social);
        assert HandledFrom(cfg, i, i in t.discoverBegun, was, t.leads[i].social);
      }
    }
  }

  /** A discovery begun keeps every lead's record. */
  lemma BeginKeeps(cfg: Config, s: State, t: State)
    requires LeadsOk(cfg, s) && Idles(s, t) && t.enrichBegun == s.enrichBegun && s.discoverBegun <= t.discoverBegun
    ensures LeadsOk(cfg, t)
  {
    forall i: nat | i < |cfg.leads| ensures LeadOk(cfg, t, i) {
      assert LeadOk(cfg, s, i);
      if i in t.done {
        var was :| HandledFrom(cfg, i, i in s.discoverBegun, was, s.leads[i].social);
        assert HandledFrom(cfg, i, i in t.discoverBegun, was, t.leads[i].social);
      }
    }
  }

  lemma SocialKeeps(cfg: Config, s: State, t: State, w: nat)
    requires SocialEffect(cfg, s, t, w) && HandIsNew(cfg, s, w) && BegunOk(cfg, s) && LeadsOk(cfg, s)
    ensures LeadsOk(cfg, t)
  {
    var before := s.socials[w];
    if before.SGet? && s.toSocial != [] && s.toSocial[0].Work? {
      var i := s.toSocial[0].lead;
      assert LeadOk(cfg, s, i);
      if WantsDiscovery(s.leads[i]) && !s.cancelled {
        BeginKeeps(cfg, s, t);
      } else {
        FinishKeeps(cfg, s, t, i, s.leads[i].social);
      }
    } else if before.SWork? {
      var found :| Finishes(cfg, s, t, before.lead, found);
      assert before.lead in s.discoverBegun;
      FinishKeeps(cfg, s, t, before.lead, found);
    } else {
      BeginKeeps(cfg, s, t);
    }
  }

  lemma SocialBegunOk(cfg: Config, s: State, t: State, w: nat)
    requires SocialEffect(cfg, s, t, w) && HandIsNew(cfg, s, w) && BegunOk(cfg, s) && LeadsOk(cfg, s)
    ensures BegunOk(cfg, t)
  {
    if s.socials[w].SGet? && s.toSocial != [] && s.toSocial[0].Work? {
      assert LeadOk(cfg, s, s.toSocial[0].lead);
    }
    assert !s.socials[w].SGet? && !s.socials[w].SExit? ==> s.socials[w].lead in s.discoverBegun;
  }

  lemma SocialTallied(cfg: Config, s: State, t: State, w: nat)
    requires SocialEffect(cfg, s, t, w) && HandIsNew(cfg, s, w) && LeadsOk(cfg, s) && Tallied(cfg, s)
    ensures Tallied(cfg, t)
  {
    if t.done != s.done {
      var j := t.done[|s.done|];
      assert t.done == s.done + [j];
      assert LeadOk(cfg, s, j);
      assert Members(t.done) == Members(s.done) + {j};
      OneMoreMember(WantingLeads(cfg.leads), Members(s.done), j);
    }
  }

  /** A lead past its call has had it begun, or did not want it. */
  lemma BegunAllStep(cfg: Config, s: State, a: Action, i: nat)
    requires Inv(cfg, s) && Enabled(cfg, s, a) && i < |cfg.leads| && BegunAll(cfg, s, i) && LeadsOk(cfg, s)
    ensures BegunAll(cfg, Apply(cfg, s, a), i)
  {
    AheadStep(cfg, s, a, i);
    if ByEnricher(a) {
      EnricherEffectStep(cfg, s, a);
    } else if BySocial(a) {
      SocialEffectStep(cfg, s, a);
      HandsAreNew(cfg, s, a.w);
      assert LeadOk(cfg, s, i);
    } else {
      QueueEffectStep(cfg, s, a);
    }
  }

  lemma OutcomeStep(cfg: Config, s: State, a: Action)
    requires Inv(cfg, s) && OutcomeInv(cfg, s) && Enabled(cfg, s, a)
    ensures OutcomeInv(cfg, Apply(cfg, s, a))
  {
    var t := Apply(cfg, s, a);
    forall i: nat | i < |cfg.leads| ensures BegunAll(cfg, t, i) {
      BegunAllStep(cfg, s, a, i);
    }
    if ByEnricher(a) {
      EnricherEffectStep(cfg, s, a);
      EnricherKeeps(cfg, s, t, a.w);
      EnricherTallied(cfg, s, t, a.w);
    } else if BySocial(a) {
      SocialEffectStep(cfg, s, a);
      HandsAreNew(cfg, s, a.w);
      SocialKeeps(cfg, s, t, a.w);
      SocialBegunOk(cfg, s, t, a.w);
      SocialTallied(cfg, s, t, a.w);
    } else {
      QueueEffectStep(cfg, s, a);
      BeginKeeps(cfg, s, t);
    }
  }

  /** Nothing has happened yet. */
  ghost predicate Fresh(cfg: Config, s: State) {
    && s.leads == cfg.leads && s.fed == 0 && s.counts == Zero()
    && (forall k | 0 <= k < |s.enrichers| :: s.enrichers[k].EGet?) && (forall k | 0 <= k < |s.socials| :: s.socials[k].SGet?)
    && s.enrichBegun == [] && s.discoverBegun == [] && s.done == []
  }

  lemma InitIsFresh(cfg: Config)
    ensures Fresh(cfg, Init(cfg))
  {
  }

  lemma FreshTallied(cfg: Config, s: State)
    requires Fresh(cfg, s)
    ensures Tallied(cfg, s)
  {
    AllZero(s.enrichers, LooksUp);
    assert WantingLeads(cfg.leads) * Members(s.done) == {};
  }

  lemma FreshOutcome(cfg: Config, s: State)
    requires Fresh(cfg, s)
    ensures OutcomeInv(cfg, s)
  {
    FreshTallied(cfg, s);
    forall i: nat | i < |cfg.leads| ensures BegunAll(cfg, s, i) {
      assert BeforeEnrich(s, i) >= 1;
    }
  }

  lemma InitOutcome(cfg: Config)
    ensures OutcomeInv(cfg, Init(cfg))
  {
    InitIsFresh(cfg);
    FreshOutcome(cfg, Init(cfg));
  }

  lemma {:induction false} OutcomeRun(cfg: Config, s: State, actions: seq<Action>, t: State)
    requires Inv(cfg, s) && OutcomeInv(cfg, s) && Run(cfg, s, actions, t)
    ensures OutcomeInv(cfg, t)
    decreases |actions|
  {
    if actions != [] {
      OutcomeStep(cfg, s, actions[0]);
      InvStep(cfg, s, actions[0]);
      OutcomeRun(cfg, Apply(cfg, s, actions[0]), actions[1..], t);
    }
  }

  // ---------- Finished runs ----------

  lemma TwiceWeighs(done: seq<nat>, i: nat, j: nat)
    requires i < j < |done| && done[i] == done[j]
    ensures Total(done, IsLead(done[i])) >= 2
  {
    assert done == done[..j] + done[j..];
    TotalConcat(done[..j], done[j..], IsLead(done[i]));
    MemberWeighs(done[..j], i, IsLead(done[i]));
    MemberWeighs(done[j..], 0, IsLead(done[i]));
  }

  lemma NoRepetition(done: seq<nat>, n: nat)
    requires forall i: nat | i < n :: Total(done, IsLead(i)) == 1
    requires forall i | 0 <= i < |done| :: done[i] < n
    ensures forall i, j | 0 <= i < j < |done| :: done[i] != done[j]
    ensures forall i: nat | i < n :: i in done
  {
    forall i, j | 0 <= i < j < |done| ensures done[i] != done[j] {
      if done[i] == done[j] {
        TwiceWeighs(done, i, j);
        assert false;
      }
    }
    forall i: nat | i < n ensures i in done {
      if i !in done {
        AllZero(done, IsLead(i));
      }
    }
  }

  /** What became of a lead, on its fields. */
  ghost predicate EndsAs(cfg: Config, s: State, i: nat)
    requires i < |cfg.leads| && i < |s.leads|
  {
    && s.leads[i].mapsUrl == cfg.leads[i].mapsUrl
    && (i !in s.enrichBegun ==> s.leads[i].website == cfg.leads[i].website)
    && exists found :: HandledFrom(cfg, i, i in s.discoverBegun, found, s.leads[i].social)
  }

  /**
    A finished run, cancelled at any moment or not: a lead's website is its own unless a lookup of it
    was begun, its social fields are the engine's clean-up of its own unless its discovery was begun,
    and calls are begun only for leads that want them. Every lookup begun and every lead with a URL
    missing is counted once, as completed or as failed.
  */
  lemma FinishedOutcome(cfg: Config, actions: seq<Action>, s: State)
    requires ValidConfig(cfg) && Run(cfg, Init(cfg), actions, s) && Finished(s)
    ensures |s.leads| == |cfg.leads| && forall i: nat | i < |cfg.leads| :: EndsAs(cfg, s, i)
    ensures forall i | i in s.enrichBegun ::
      i < |cfg.leads| && cfg.leads[i].website in {None, Some("")} && cfg.leads[i].mapsUrl !in {None, Some("")}
    ensures forall i | i in s.discoverBegun ::
      i < |cfg.leads| && (cfg.leads[i].social.instagramUrl == None || cfg.leads[i].social.facebookUrl == None)
    ensures s.counts.enrichCompleted + s.counts.enrichFailed == |s.enrichBegun|
    ensures s.counts.socialCompleted + s.counts.socialFailed == |WantingLeads(cfg.leads)|
  {
    FinishedFacts(cfg, actions, s);
    forall i: nat | i < |cfg.leads| ensures EndsAs(cfg, s, i) {
      assert LeadOk(cfg, s, i);
    }
    AllZero(s.enrichers, LooksUp);
    assert WantingLeads(cfg.leads) * Members(s.done) == WantingLeads(cfg.leads);
  }

  lemma OutcomeReached(cfg: Config, actions: seq<Action>, s: State)
    requires Run(cfg, Init(cfg), actions, s)
    ensures OutcomeInv(cfg, s)
  {
    InitInv(cfg);
    InitOutcome(cfg);
    OutcomeRun(cfg, Init(cfg), actions, s);
  }

  lemma DoneAreLeads(cfg: Config, actions: seq<Action>, s: State)
    requires Run(cfg, Init(cfg), actions, s)
    ensures forall k | 0 <= k < |s.done| :: s.done[k] < |cfg.leads|
  {
    InitInv(cfg);
    InvRun(cfg, Init(cfg), actions, s);
  }

  lemma FinishedFacts(cfg: Config, actions: seq<Action>, s: State)
    requires ValidConfig(cfg) && Run(cfg, Init(cfg), actions, s) && Finished(s)
    ensures OutcomeInv(cfg, s) && EnrichersReturned(s) && s.fed == |cfg.leads| && s.toEnrich == [] && s.toSocial == []
    ensures forall i | 0 <= i < |s.done| :: s.done[i] < |cfg.leads|
    ensures forall i, j | 0 <= i < j < |s.done| :: s.done[i] != s.done[j]
    ensures forall i: nat | i < |cfg.leads| :: i in s.done
  {
    OutcomeReached(cfg, actions, s);
    FinishedHandledAllOnce(cfg, actions, s);
    DoneAreLeads(cfg, actions, s);
    NoRepetition(s.done, |cfg.leads|);
  }

  /**
    Without cancellation a lookup is begun exactly for the leads without a website but with a Maps URL,
    and discovery exactly for those with one of the two URLs missing, each once.
  */
  lemma CallsExactly(cfg: Config, actions: seq<Action>, s: State, i: nat)
    requires ValidConfig(cfg) && Run(cfg, Init(cfg), actions, s) && Finished(s) && !s.cancelled && i < |cfg.leads|
    ensures i in s.enrichBegun <==> cfg.leads[i].website in {None, Some("")} && cfg.leads[i].mapsUrl !in {None, Some("")}
    ensures i in s.discoverBegun <==> cfg.leads[i].social.instagramUrl == None || cfg.leads[i].social.facebookUrl == None
  {
    FinishedFacts(cfg, actions, s);
    AllZero(s.enrichers, Looking(i));
    AllZero(s.enrichers, Putting(i));
    assert BegunAll(cfg, s, i);
  }
}
