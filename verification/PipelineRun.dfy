/**
  The streaming pipeline as an object whose fields the coroutines change: each method is what one
  coroutine does until its next await, written statement by statement and proved to be the action of
  the transition system that its position calls for. `Run` lets an arbitrary schedule choose who moves.
*/
module PipelineRun {
  import opened Wrappers
  import opened LeadFields
  import opened Leads
  import opened PipelineModel
  import opened PipelineInvariant
  import opened PipelineProgress
  import opened PipelineBatch
  import opened PipelineOutcome
  import opened PipelineRefinement

  datatype Process = Feeder | EnrichmentWorker(w: nat) | SocialWorker(w: nat, viaPage: bool) | MainTask

  /** The action a coroutine takes when it is resumed, or None while what it awaits is not there. */
  ghost function NextOf(cfg: Config, orc: Oracle, s: State, p: Process): Option<Action>
    requires Shape(cfg, s)
  {
    var a := match p
      case Feeder => Feed
      case EnrichmentWorker(w) =>
        if w >= |s.enrichers| then EnricherGet(w) else
        (match s.enrichers[w]
         case EGet => EnricherGet(w)
         case EPageWait(_) => EnricherAcquire(w)
         case EPage(i) => EnricherFinish(w, orc.enrich(i, s.leads[i]))
         case EPut(_) => EnricherPut(w)
         case EExit => EnricherGet(w))
      case SocialWorker(w, viaPage) =>
        if w >= |s.socials| then SocialGet(w, viaPage) else
        (match s.socials[w]
         case SGet => SocialGet(w, viaPage)
         case SPageWait(_) => SocialAcquire(w)
         case SPage(_) => SocialRelease(w)
         case SWork(i) => SocialFinish(w, orc.discover(i, s.leads[i]))
         case SExit => SocialGet(w, viaPage))
      case MainTask =>
        if s.main.Joining? then Join else if s.main == Closing(cfg.sw) then Return else Close;
    if Enabled(cfg, s, a) then Some(a) else None
  }

  /** Some coroutine is not blocked as long as the run is unfinished. */
  lemma SomebodyMoves(cfg: Config, orc: Oracle, s: State) returns (p: Process)
    requires ValidConfig(cfg) && Inv(cfg, s) && !Finished(s)
    ensures NextOf(cfg, orc, s, p).Some?
    ensures p.EnrichmentWorker? ==> p.w < cfg.ew
    ensures p.SocialWorker? ==> p.w < cfg.sw && !p.viaPage
  {
    var a := NoDeadlock(cfg, s);
    p := match a
      case Feed => Feeder
      case EnricherGet(w) => EnrichmentWorker(w)
      case EnricherAcquire(w) => EnrichmentWorker(w)
      case EnricherFinish(w, _) => EnrichmentWorker(w)
      case EnricherPut(w) => EnrichmentWorker(w)
      case SocialGet(w, _) => SocialWorker(w, false)
      case SocialAcquire(w) => SocialWorker(w, false)
      case SocialRelease(w) => SocialWorker(w, false)
      case SocialFinish(w, _) => SocialWorker(w, false)
      case _ => MainTask;
  }

  lemma {:induction false} RunAppend(cfg: Config, orc: Oracle, s: State, actions: seq<Action>, t: State, a: Action)
    requires Shape(cfg, s) && Run(cfg, s, actions, t) && FollowsAll(cfg, orc, s, actions)
    requires Enabled(cfg, t, a) && Follows(cfg, orc, t, a)
    ensures Run(cfg, s, actions + [a], Apply(cfg, t, a)) && FollowsAll(cfg, orc, s, actions + [a])
    decreases |actions|
  {
    if actions == [] {
      assert [a][1..] == [];
      ShapeStep(cfg, s, a);
    } else {
      ShapeStep(cfg, s, actions[0]);
      assert (actions + [a])[1..] == actions[1..] + [a];
      RunAppend(cfg, orc, Apply(cfg, s, actions[0]), actions[1..], t, a);
    }
  }

  class StreamingPipeline {
    const cfg: Config
    const orc: Oracle

    var leads: seq<Lead>
    var fed: nat
    var fedSentinels: nat
    var toEnrich: seq<Item>
    var enrichers: seq<Enricher>
    var toSocial: seq<Item>
    var socials: seq<Socialist>
    var freePages: nat
    var main: Main
    var counts: Counts
    var enrichBegun: seq<nat>
    var discoverBegun: seq<nat>
    var done: seq<nat>

    /** The fields as one state of the transition system; nothing here sets the cancel flag. */
    ghost function Snapshot(): State
      reads this
    {
      State(leads, fed, fedSentinels, toEnrich, enrichers, toSocial, socials, freePages, main, false, counts,
            enrichBegun, discoverBegun, done)
    }

    ghost predicate Valid()
      reads this
    {
      Shape(cfg, Snapshot())
    }

    /** The step taken is exactly the one the coroutine's position calls for. */
    twostate predicate Moves(p: Process, moved: bool)
      requires old(Valid())
      reads this
    {
      match NextOf(cfg, orc, old(Snapshot()), p)
      case None => !moved && Snapshot() == old(Snapshot())
      case Some(a) => moved && Snapshot() == Apply(cfg, old(Snapshot()), a)
    }

    constructor (cfg: Config, orc: Oracle)
      ensures this.cfg == cfg && this.orc == orc
      ensures Snapshot() == Init(cfg) && Valid()
    {
      this.cfg, this.orc := cfg, orc;
      leads, fed, fedSentinels := cfg.leads, 0, 0;
      toEnrich, enrichers := [], Idle(cfg.ew, EGet);
      toSocial, socials := [], Idle(cfg.sw, SGet);
      freePages, main, counts := cfg.pages, Joining, Zero();
      enrichBegun, discoverBegun, done := [], [], [];
    }

    method FeederStep() returns (moved: bool)
      requires Valid()
      modifies this
      ensures Moves(Feeder, moved)
      ensures moved ==> toEnrich == old(toEnrich) + [if old(fed) < |cfg.leads| then Work(old(fed)) else Sentinel]
      ensures cfg.ew >= 1 ==> (moved <==> old(fedSentinels) < cfg.ew && |old(toEnrich)| < 2 * cfg.ew)
    {
      moved := fedSentinels < cfg.ew && |toEnrich| < Capacity(cfg.ew);
      if moved {
        if fed < |cfg.leads| {
          toEnrich := toEnrich + [Work(fed)];
          fed := fed + 1;
        } else {
          toEnrich := toEnrich + [Sentinel];
          fedSentinels := fedSentinels + 1;
        }
      }
    }

    /** `get` returned an item: leave on a sentinel, else begin the lookup or pass the lead on. */
    method EnricherReceives(w: nat)
      requires Valid() && w < cfg.ew && enrichers[w].EGet? && toEnrich != []
      modifies this
      ensures Snapshot() == EnricherGetStep(cfg, old(Snapshot()), w)
      ensures toEnrich == old(toEnrich)[1..] && (enrichers[w].EExit? <==> old(toEnrich)[0].Sentinel?)
      ensures old(toEnrich)[0].Work? ==>
        var lead := cfg.leads[old(toEnrich)[0].lead];
        var wants := lead.website in {None, Some("")} && lead.mapsUrl !in {None, Some("")};
        enrichBegun == old(enrichBegun) + if wants then [old(toEnrich)[0].lead] else []
    {
      var item := toEnrich[0];
      toEnrich := toEnrich[1..];
      if item.Sentinel? {
        enrichers := enrichers[w := EExit];
      } else if NeedsEnrich(cfg.leads[item.lead]) {
        enrichers := enrichers[w := EPageWait(item.lead)];
        enrichBegun := enrichBegun + [item.lead];
      } else {
        enrichers := enrichers[w := EPut(item.lead)];
      }
    }

    /** The lookup ended: release the page, write the website unless it raised, count, go on to `put`. */
    method EnricherReturns(w: nat, i: nat)
      requires Valid() && w < cfg.ew && enrichers[w] == EPage(i)
      modifies this
      ensures Snapshot() == EnricherFinishStep(old(Snapshot()), w, orc.enrich(i, old(leads)[i]))
      ensures
        var outcome := orc.enrich(i, old(leads)[i]);
        leads == if outcome == Raised then old(leads) else old(leads)[i := old(leads)[i].(website := outcome.website)]
      ensures freePages == old(freePages) + 1
      ensures counts.enrichCompleted == old(counts).enrichCompleted + (if leads[i].website != None then 1 else 0)
      ensures counts.enrichFailed == old(counts).enrichFailed + (if leads[i].website == None then 1 else 0)
    {
      freePages := freePages + 1;
      var outcome := orc.enrich(i, leads[i]);
      if outcome.Looked? {
        leads := leads[i := leads[i].(website := outcome.website)];
      }
      counts := if leads[i].website.Some? then counts.(enrichCompleted := counts.enrichCompleted + 1)
                else counts.(enrichFailed := counts.enrichFailed + 1);
      enrichers := enrichers[w := EPut(i)];
    }

    method EnrichmentWorkerStep(w: nat) returns (moved: bool)
      requires Valid() && w < cfg.ew
      modifies this
      ensures Moves(EnrichmentWorker(w), moved)
    {
      moved := false;
      match enrichers[w]
      case EGet =>
        if toEnrich != [] {
          moved := true;
          EnricherReceives(w);
        }
      case EPageWait(i) =>
        if freePages > 0 {
          moved := true;
          freePages := freePages - 1;
          enrichers := enrichers[w := EPage(i)];
        }
      case EPage(i) =>
        moved := true;
        EnricherReturns(w, i);
      case EPut(i) =>
        if |toSocial| < Capacity(cfg.sw) {
          moved := true;
          toSocial := toSocial + [Work(i)];
          enrichers := enrichers[w := EGet];
        }
      case EExit =>
    }

    /** The engine's clean-up of a lead's social fields, field by field. */
    method CleanUp(found: Social) returns (final: Social)
      ensures final == SelectionPass(found, cfg.select) && SelectedBy(found, cfg.select(found), final)
    {
      SelectedByFields(found, cfg.select);
      final := found;
      if HasUrl(found) {
        var chosen := cfg.select(found);
        final := final.(instagramUrl := chosen.instagramUrl);
        if !Truthy(chosen.instagramUrl) {
          final := final.(instagramConfidence := None);
        }
        final := final.(facebookUrl := chosen.facebookUrl);
        if !Truthy(chosen.facebookUrl) {
          final := final.(facebookConfidence := None);
        }
      }
    }

    /** What the social worker counts for a lead: discovery, and a URL before and after selection. */
    method CountLead(needed: bool, found: Social, final: Social) returns (after: Counts)
      ensures after == counts.Plus(if needed then SocialTally(found) else Zero()).Plus(SelectionTally(found, final))
    {
      after := counts;
      if needed {
        after := if HasUrl(found) then after.(socialCompleted := after.socialCompleted + 1)
                 else after.(socialFailed := after.socialFailed + 1);
      }
      if HasUrl(found) {
        after := after.(selectionBefore := after.selectionBefore + 1);
      }
      if HasUrl(final) {
        after := after.(selectionAfter := after.selectionAfter + 1);
      }
    }

    /** The counting and selection that end a social worker's round. */
    method FinishLead(w: nat, i: nat, found: Social)
      requires Valid() && w < cfg.sw && i < |cfg.leads|
      modifies this
      ensures Snapshot() == Handled(cfg, old(Snapshot()), w, i, found)
      ensures leads == old(leads)[i := old(leads)[i].(social := leads[i].social)]
      ensures SelectedBy(found, cfg.select(found), leads[i].social)
      ensures CountedBy(old(counts), counts, old(leads)[i].social, found, leads[i].social)
    {
      var final := CleanUp(found);
      CountedByFields(counts, leads[i].social, found, final, NeedsSocial(leads[i]));
      counts := CountLead(NeedsSocial(leads[i]), found, final);
      leads := leads[i := leads[i].(social := final)];
      done := done + [i];
      socials := socials[w := SGet];
    }

    /** `get` returned an item: leave on a sentinel, else begin discovery or handle the lead at once. */
    method SocialReceives(w: nat, viaPage: bool)
      requires Valid() && w < cfg.sw && socials[w].SGet? && toSocial != []
      modifies this
      ensures Snapshot() == SocialGetStep(cfg, old(Snapshot()), w, viaPage)
      ensures toSocial == old(toSocial)[1..] && (socials[w].SExit? <==> old(toSocial)[0].Sentinel?)
      ensures old(toSocial)[0].Work? ==>
        var social := old(leads)[old(toSocial)[0].lead].social;
        var wants := social.instagramUrl == None || social.facebookUrl == None;
        discoverBegun == old(discoverBegun) + if wants then [old(toSocial)[0].lead] else []
    {
      var item := toSocial[0];
      toSocial := toSocial[1..];
      if item.Sentinel? {
        socials := socials[w := SExit];
      } else if NeedsSocial(leads[item.lead]) {
        socials := socials[w := if viaPage then SPageWait(item.lead) else SWork(item.lead)];
        discoverBegun := discoverBegun + [item.lead];
      } else {
        FinishLead(w, item.lead, leads[item.lead].social);
      }
    }

    method SocialWorkerStep(w: nat, viaPage: bool) returns (moved: bool)
      requires Valid() && w < cfg.sw
      modifies this
      ensures Moves(SocialWorker(w, viaPage), moved)
    {
      moved := false;
      match socials[w]
      case SGet =>
        if toSocial != [] {
          moved := true;
          SocialReceives(w, viaPage);
        }
      case SPageWait(i) =>
        if freePages > 0 {
          moved := true;
          freePages := freePages - 1;
          socials := socials[w := SPage(i)];
        }
      case SPage(i) =>
        moved := true;
        freePages := freePages + 1;
        socials := socials[w := SWork(i)];
      case SWork(i) =>
        moved := true;
        FinishLead(w, i, orc.discover(i, leads[i]));
      case SExit =>
    }

    method MainStep() returns (moved: bool)
      requires Valid()
      modifies this
      ensures Moves(MainTask, moved)
    {
      moved := false;
      match main
      case Joining =>
        if fedSentinels == cfg.ew && forall k | 0 <= k < |enrichers| :: enrichers[k].EExit? {
          moved := true;
          main := Closing(0);
        }
      case Closing(sent) =>
        if sent < cfg.sw {
          if |toSocial| < Capacity(cfg.sw) {
            moved := true;
            toSocial := toSocial + [Sentinel];
            main := Closing(sent + 1);
          }
        } else if forall k | 0 <= k < |socials| :: socials[k].SExit? {
          moved := true;
          main := Returned;
        }
      case Returned =>
    }

    method Step(p: Process) returns (moved: bool)
      requires Valid()
      modifies this
      ensures Moves(p, moved)
    {
      match p
      case Feeder => moved := FeederStep();
      case EnrichmentWorker(w) =>
        moved := false;
        if w < cfg.ew {
          moved := EnrichmentWorkerStep(w);
        }
      case SocialWorker(w, viaPage) =>
        moved := false;
        if w < cfg.sw {
          moved := SocialWorkerStep(w, viaPage);
        }
      case MainTask => moved := MainStep();
    }

    /** Resumes coroutines in turn until one of them is not blocked. */
    method StepAny() returns (ghost p: Process)
      requires ValidConfig(cfg) && Inv(cfg, Snapshot()) && !Finished(Snapshot())
      modifies this
      ensures Moves(p, true)
    {
      ghost var unblocked := SomebodyMoves(cfg, orc, Snapshot());
      p := Feeder;
      var moved := Step(Feeder);
      if !moved {
        p := MainTask;
        moved := Step(MainTask);
      }
      var w := 0;
      while !moved && w < cfg.ew
        invariant w <= cfg.ew
        invariant if moved then Moves(p, true) else Snapshot() == old(Snapshot())
        invariant !moved ==> NextOf(cfg, orc, old(Snapshot()), Feeder).None? && NextOf(cfg, orc, old(Snapshot()), MainTask).None?
        invariant !moved ==> forall k | 0 <= k < w :: NextOf(cfg, orc, old(Snapshot()), EnrichmentWorker(k)).None?
        decreases !moved, cfg.ew - w
      {
        p := EnrichmentWorker(w);
        moved := EnrichmentWorkerStep(w);
        w := w + 1;
      }
      w := 0;
      while !moved
        invariant w <= cfg.sw
        invariant if moved then Moves(p, true) else Snapshot() == old(Snapshot())
        invariant !moved ==> unblocked.SocialWorker? && unblocked.w >= w
        decreases !moved, cfg.sw - w
      {
        p := SocialWorker(w, false);
        moved := SocialWorkerStep(w, false);
        w := w + 1;
      }
    }

    /**
      Runs to the end under an arbitrary schedule; a scheduled coroutine that is blocked gives way to
      one that is not. Whatever the schedule, the run ends, and it ends as the batch stages do.
    */
    method Run(schedule: nat -> Process)
      requires ValidConfig(cfg) && cfg.select == orc.select && Snapshot() == Init(cfg)
      modifies this
      ensures Finished(Snapshot())
      ensures leads == FinalLeads(orc, cfg.leads)
      ensures counts == StreamCounts(orc, cfg.leads)
      ensures
        var enriched := EnrichedLeads(orc, cfg.leads);
        var found := PipelineBatch.SocialLeads(orc, enriched);
        AllJourneyed(orc, cfg.leads, enriched, found, leads) && counts == Totals(cfg.leads, enriched, found, leads, true)
      ensures forall i: nat | i < |cfg.leads| ::
        && (i in enrichBegun <==> cfg.leads[i].website in {None, Some("")} && cfg.leads[i].mapsUrl !in {None, Some("")})
        && (i in discoverBegun <==> cfg.leads[i].social.instagramUrl == None || cfg.leads[i].social.facebookUrl == None)
    {
      InitInv(cfg);
      ghost var actions: seq<Action> := [];
      var k := 0;
      while !main.Returned?
        invariant Inv(cfg, Snapshot())
        invariant PipelineModel.Run(cfg, Init(cfg), actions, Snapshot()) && FollowsAll(cfg, orc, Init(cfg), actions)
        decreases Measure(cfg, Snapshot())
      {
        ghost var before := Snapshot();
        ghost var p := schedule(k);
        var moved := Step(schedule(k));
        if !moved {
          p := StepAny();
        }
        ghost var a := NextOf(cfg, orc, before, p).value;
        StepRecorded(cfg, orc, actions, before, p);
        actions := actions + [a];
        k := k + 1;
      }
      FinishedTracks(cfg, orc, actions, Snapshot());
      DoneLeads(cfg, orc, Snapshot());
      DoneCounts(cfg, orc, Snapshot());
      JourneysOf(orc, cfg.leads);
      StreamTotals(orc, cfg.leads);
      forall i: nat | i < |cfg.leads|
        ensures
          && (i in enrichBegun <==> cfg.leads[i].website in {None, Some("")} && cfg.leads[i].mapsUrl !in {None, Some("")})
          && (i in discoverBegun <==> cfg.leads[i].social.instagramUrl == None || cfg.leads[i].social.facebookUrl == None)
      {
        CallsExactly(cfg, actions, Snapshot(), i);
      }
    }
  }

  lemma NextFollows(cfg: Config, orc: Oracle, s: State, p: Process)
    requires Shape(cfg, s) && NextOf(cfg, orc, s, p).Some?
    ensures
      var a := NextOf(cfg, orc, s, p).value;
      Enabled(cfg, s, a) && Follows(cfg, orc, s, a)
  {
  }

  lemma StepRecorded(cfg: Config, orc: Oracle, actions: seq<Action>, s: State, p: Process)
    requires Shape(cfg, Init(cfg)) && Inv(cfg, s) && NextOf(cfg, orc, s, p).Some?
    requires PipelineModel.Run(cfg, Init(cfg), actions, s) && FollowsAll(cfg, orc, Init(cfg), actions)
    ensures
      var a := NextOf(cfg, orc, s, p).value;
      && Enabled(cfg, s, a) && Inv(cfg, Apply(cfg, s, a))
      && PipelineModel.Run(cfg, Init(cfg), actions + [a], Apply(cfg, s, a))
      && FollowsAll(cfg, orc, Init(cfg), actions + [a])
      && 0 <= Measure(cfg, Apply(cfg, s, a)) < Measure(cfg, s)
  {
    var a := NextOf(cfg, orc, s, p).value;
    NextFollows(cfg, orc, s, p);
    InvStep(cfg, s, a);
    MeasureStep(cfg, s, a);
    RunAppend(cfg, orc, Init(cfg), actions, s, a);
  }
}
