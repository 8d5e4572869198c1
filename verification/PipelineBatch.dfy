/**
  The three whole-batch stages that the streaming pipeline replaced, run one after the other over the
  list of leads. Browser and network work is an oracle whose answer depends only on the lead.
*/
module PipelineBatch {
  import opened Wrappers
  import opened LeadFields
  import opened Leads

  datatype Oracle = Oracle(
    enrich: (nat, Lead) -> EnrichOutcome,
    discover: (nat, Lead) -> Social,
    select: Social -> Selected)

  // ---------- One lead through each stage ----------

  function AfterEnrich(orc: Oracle, i: nat, lead: Lead): Lead {
    if NeedsEnrich(lead) then Enriched(lead, orc.enrich(i, lead)) else lead
  }

  function AfterSocial(orc: Oracle, i: nat, lead: Lead): Lead {
    if NeedsSocial(lead) then lead.(social := orc.discover(i, lead)) else lead
  }

  function AfterSelection(orc: Oracle, lead: Lead): Lead {
    lead.(social := SelectionPass(lead.social, orc.select))
  }

  function Final(orc: Oracle, i: nat, lead: Lead): Lead {
    AfterSelection(orc, AfterSocial(orc, i, AfterEnrich(orc, i, lead)))
  }

  function EnrichedLeads(orc: Oracle, leads: seq<Lead>): seq<Lead> {
    seq(|leads|, i requires 0 <= i < |leads| => AfterEnrich(orc, i, leads[i]))
  }

  function SocialLeads(orc: Oracle, leads: seq<Lead>): seq<Lead> {
    seq(|leads|, i requires 0 <= i < |leads| => AfterSocial(orc, i, leads[i]))
  }

  function SelectedLeads(orc: Oracle, leads: seq<Lead>): seq<Lead> {
    seq(|leads|, i requires 0 <= i < |leads| => AfterSelection(orc, leads[i]))
  }

  /** The list of final leads. */
  function FinalLeads(orc: Oracle, leads: seq<Lead>): seq<Lead> {
    seq(|leads|, i requires 0 <= i < |leads| => Final(orc, i, leads[i]))
  }

  // ---------- What one lead adds to the batch counters ----------

  /** The batch stage counts a lead as needing enrichment only when its website is None. */
  predicate BatchNeedsEnrich(lead: Lead) {
    lead.website.None? && Truthy(lead.mapsUrl)
  }

  function BatchEnrichTally(orc: Oracle, i: nat, lead: Lead): Counts {
    if BatchNeedsEnrich(lead) then EnrichTally(AfterEnrich(orc, i, lead)) else Zero()
  }

  function BatchSocialTally(orc: Oracle, i: nat, enriched: Lead): Counts {
    if NeedsSocial(enriched) then SocialTally(AfterSocial(orc, i, enriched).social) else Zero()
  }

  function BatchSelectionTally(orc: Oracle, found: Lead): Counts {
    SelectionTally(found.social, AfterSelection(orc, found).social)
  }

  function EnrichTallies(orc: Oracle, leads: seq<Lead>): seq<Counts> {
    seq(|leads|, i requires 0 <= i < |leads| => BatchEnrichTally(orc, i, leads[i]))
  }

  function SocialTallies(orc: Oracle, enriched: seq<Lead>): seq<Counts> {
    seq(|enriched|, i requires 0 <= i < |enriched| => BatchSocialTally(orc, i, enriched[i]))
  }

  function SelectionTallies(orc: Oracle, found: seq<Lead>): seq<Counts> {
    seq(|found|, i requires 0 <= i < |found| => BatchSelectionTally(orc, found[i]))
  }

  /** The counters after the three stages: each stage counts over the leads as the previous one left them. */
  function BatchCounts(orc: Oracle, leads: seq<Lead>): Counts {
    var enriched := EnrichedLeads(orc, leads);
    var found := SocialLeads(orc, enriched);
    Sum(EnrichTallies(orc, leads)).Plus(Sum(SocialTallies(orc, enriched))).Plus(Sum(SelectionTallies(orc, found)))
  }

  // ---------- The same, on the leads' fields ----------

  /** A lead between the stages: looked up, then discovered, then cleaned up. */
  ghost predicate Journey(orc: Oracle, i: nat, lead: Lead, enriched: Lead, found: Lead, final: Lead) {
    && LookedUpBy(lead, orc.enrich(i, lead), enriched)
    && DiscoveredBy(enriched, orc.discover(i, enriched), found)
    && SelectedBy(found.social, orc.select(found.social), final.social)
    && final.website == found.website && final.mapsUrl == found.mapsUrl
  }

  lemma JourneyOf(orc: Oracle, i: nat, lead: Lead)
    ensures
      var enriched := AfterEnrich(orc, i, lead);
      Journey(orc, i, lead, enriched, AfterSocial(orc, i, enriched), Final(orc, i, lead))
  {
    var enriched := AfterEnrich(orc, i, lead);
    EnrichedByFields(lead, orc.enrich(i, lead));
    SelectedByFields(AfterSocial(orc, i, enriched).social, orc.select);
  }

  /** The six counters, as numbers of leads; `empty` tells whether a website "" counts as looked up. */
  ghost function Totals(leads: seq<Lead>, enriched: seq<Lead>, found: seq<Lead>, final: seq<Lead>, empty: bool): Counts {
    Counts(|LookedUp(leads, enriched, empty, true)|, |LookedUp(leads, enriched, empty, false)|,
           |SearchedFor(enriched, found, true)|, |SearchedFor(enriched, found, false)|,
           |WithAnyUrl(found)|, |WithAnyUrl(final)|)
  }

  lemma NoPart(each: seq<Counts>, which: Counter)
    requires forall i: nat | i < |each| :: Part(each[i], which) == 0
    ensures Part(Sum(each), which) == 0
  {
    PartCounts(each, which, {});
  }

  lemma EnrichTotals(orc: Oracle, leads: seq<Lead>)
    ensures
      var enriched := EnrichedLeads(orc, leads);
      Sum(EnrichTallies(orc, leads))
      == Counts(|LookedUp(leads, enriched, false, true)|, |LookedUp(leads, enriched, false, false)|, 0, 0, 0, 0)
  {
    var each, enriched := EnrichTallies(orc, leads), EnrichedLeads(orc, leads);
    PartCounts(each, EnrichCompleted, LookedUp(leads, enriched, false, true));
    PartCounts(each, EnrichFailed, LookedUp(leads, enriched, false, false));
    NoPart(each, SocialCompleted);
    NoPart(each, SocialFailed);
    NoPart(each, SelectionBefore);
    NoPart(each, SelectionAfter);
  }

  lemma SocialTotals(orc: Oracle, leads: seq<Lead>)
    ensures
      var found := SocialLeads(orc, leads);
      Sum(SocialTallies(orc, leads)) == Counts(0, 0, |SearchedFor(leads, found, true)|, |SearchedFor(leads, found, false)|, 0, 0)
  {
    var each, found := SocialTallies(orc, leads), SocialLeads(orc, leads);
    PartCounts(each, SocialCompleted, SearchedFor(leads, found, true));
    PartCounts(each, SocialFailed, SearchedFor(leads, found, false));
    NoPart(each, EnrichCompleted);
    NoPart(each, EnrichFailed);
    NoPart(each, SelectionBefore);
    NoPart(each, SelectionAfter);
  }

  lemma SelectionTotals(orc: Oracle, leads: seq<Lead>)
    ensures Sum(SelectionTallies(orc, leads)) == Counts(0, 0, 0, 0, |WithAnyUrl(leads)|, |WithAnyUrl(SelectedLeads(orc, leads))|)
  {
    var each := SelectionTallies(orc, leads);
    PartCounts(each, SelectionBefore, WithAnyUrl(leads));
    PartCounts(each, SelectionAfter, WithAnyUrl(SelectedLeads(orc, leads)));
    NoPart(each, EnrichCompleted);
    NoPart(each, EnrichFailed);
    NoPart(each, SocialCompleted);
    NoPart(each, SocialFailed);
  }

  /** The batch counters count leads. */
  lemma BatchTotals(orc: Oracle, leads: seq<Lead>)
    ensures
      var enriched := EnrichedLeads(orc, leads);
      BatchCounts(orc, leads) == Totals(leads, enriched, SocialLeads(orc, enriched), FinalLeads(orc, leads), false)
  {
    var enriched := EnrichedLeads(orc, leads);
    var found := SocialLeads(orc, enriched);
    EnrichTotals(orc, leads);
    SocialTotals(orc, enriched);
    SelectionTotals(orc, found);
    SelectedAreFinal(orc, leads);
    AddParts(Sum(EnrichTallies(orc, leads)), Sum(SocialTallies(orc, enriched)), Sum(SelectionTallies(orc, found)));
  }

  lemma SelectedAreFinal(orc: Oracle, leads: seq<Lead>)
    ensures SelectedLeads(orc, SocialLeads(orc, EnrichedLeads(orc, leads))) == FinalLeads(orc, leads)
  {
  }

  lemma AddParts(a: Counts, b: Counts, c: Counts)
    requires a == Counts(a.enrichCompleted, a.enrichFailed, 0, 0, 0, 0)
    requires b == Counts(0, 0, b.socialCompleted, b.socialFailed, 0, 0)
    requires c == Counts(0, 0, 0, 0, c.selectionBefore, c.selectionAfter)
    ensures a.Plus(b).Plus(c)
      == Counts(a.enrichCompleted, a.enrichFailed, b.socialCompleted, b.socialFailed, c.selectionBefore, c.selectionAfter)
  {
  }

  /** Whichever way leads are handled, each has made its journey. */
  ghost predicate AllJourneyed(orc: Oracle, leads: seq<Lead>, enriched: seq<Lead>, found: seq<Lead>, final: seq<Lead>) {
    && |enriched| == |found| == |final| == |leads|
    && forall i: nat | i < |leads| :: Journey(orc, i, leads[i], enriched[i], found[i], final[i])
  }

  lemma JourneysOf(orc: Oracle, leads: seq<Lead>)
    ensures
      var enriched := EnrichedLeads(orc, leads);
      AllJourneyed(orc, leads, enriched, SocialLeads(orc, enriched), FinalLeads(orc, leads))
  {
    forall i: nat | i < |leads|
      ensures
        var enriched := EnrichedLeads(orc, leads);
        Journey(orc, i, leads[i], enriched[i], SocialLeads(orc, enriched)[i], FinalLeads(orc, leads)[i])
    {
      JourneyOf(orc, i, leads[i]);
    }
  }

  // ---------- The stages ----------

  /** `order` lists exactly the leads that satisfy `needs`, each once: the order in which workers finish them. */
  ghost predicate CompletionOrder(order: seq<nat>, leads: seq<Lead>, needs: Lead -> bool) {
    && (forall k | 0 <= k < |order| :: order[k] < |leads| && needs(leads[order[k]]))
    && (forall k, m | 0 <= k < m < |order| :: order[k] != order[m])
    && (forall i: nat | i < |leads| && needs(leads[i]) :: i in order)
  }

  method EnrichBatch(orc: Oracle, leads: array<Lead>, order: seq<nat>)
    requires CompletionOrder(order, leads[..], NeedsEnrich)
    modifies leads
    ensures leads[..] == EnrichedLeads(orc, old(leads[..]))
    ensures forall i: nat | i < leads.Length :: LookedUpBy(old(leads[i]), orc.enrich(i, old(leads[i])), leads[i])
  {
    ghost var before := leads[..];
    for k := 0 to |order|
      invariant forall i | 0 <= i < leads.Length ::
        leads[i] == if i in order[..k] then AfterEnrich(orc, i, before[i]) else before[i]
    {
      assert order[..k + 1] == order[..k] + [order[k]];
      leads[order[k]] := Enriched(leads[order[k]], orc.enrich(order[k], leads[order[k]]));
    }
    assert order[..|order|] == order;
    forall i: nat | i < leads.Length ensures LookedUpBy(before[i], orc.enrich(i, before[i]), leads[i]) {
      EnrichedByFields(before[i], orc.enrich(i, before[i]));
    }
  }

  method DiscoverSocialBatch(orc: Oracle, leads: array<Lead>, order: seq<nat>)
    requires CompletionOrder(order, leads[..], NeedsSocial)
    modifies leads
    ensures leads[..] == SocialLeads(orc, old(leads[..]))
    ensures forall i: nat | i < leads.Length :: DiscoveredBy(old(leads[i]), orc.discover(i, old(leads[i])), leads[i])
    ensures forall i: nat | i < leads.Length ::
      i in order <==> old(leads[i]).social.instagramUrl == None || old(leads[i]).social.facebookUrl == None
  {
    ghost var before := leads[..];
    for k := 0 to |order|
      invariant forall i | 0 <= i < leads.Length ::
        leads[i] == if i in order[..k] then AfterSocial(orc, i, before[i]) else before[i]
    {
      assert order[..k + 1] == order[..k] + [order[k]];
      leads[order[k]] := leads[order[k]].(social := orc.discover(order[k], leads[order[k]]));
    }
    assert order[..|order|] == order;
  }

  method WebsiteEnrichmentStage(orc: Oracle, leads: array<Lead>, order: seq<nat>)
    returns (completed: nat, failed: nat)
    requires CompletionOrder(order, leads[..], NeedsEnrich)
    modifies leads
    ensures leads[..] == EnrichedLeads(orc, old(leads[..]))
    ensures
      Sum(EnrichTallies(orc, old(leads[..]))) == Zero().(enrichCompleted := completed, enrichFailed := failed)
    ensures completed == |LookedUp(old(leads[..]), leads[..], false, true)|
    ensures failed == |LookedUp(old(leads[..]), leads[..], false, false)|
  {
    var before := leads[..];
    EnrichTotals(orc, before);
    EnrichBatch(orc, leads, order);
    completed, failed := 0, 0;
    for i := 0 to leads.Length
      invariant leads[..] == EnrichedLeads(orc, before)
      invariant SumTo(i, EnrichTallies(orc, before)) == Zero().(enrichCompleted := completed, enrichFailed := failed)
    {
      if BatchNeedsEnrich(before[i]) {
        assert leads[i] == leads[..][i];
        if leads[i].website.Some? {
          completed := completed + 1;
        } else {
          failed := failed + 1;
        }
      }
    }
  }

  method SocialDiscoveryStage(orc: Oracle, leads: array<Lead>, order: seq<nat>)
    returns (completed: nat, failed: nat)
    requires CompletionOrder(order, leads[..], NeedsSocial)
    modifies leads
    ensures leads[..] == SocialLeads(orc, old(leads[..]))
    ensures
      Sum(SocialTallies(orc, old(leads[..]))) == Zero().(socialCompleted := completed, socialFailed := failed)
    ensures completed == |SearchedFor(old(leads[..]), leads[..], true)|
    ensures failed == |SearchedFor(old(leads[..]), leads[..], false)|
  {
    var before := leads[..];
    SocialTotals(orc, before);
    DiscoverSocialBatch(orc, leads, order);
    completed, failed := 0, 0;
    for i := 0 to leads.Length
      invariant leads[..] == SocialLeads(orc, before)
      invariant SumTo(i, SocialTallies(orc, before)) == Zero().(socialCompleted := completed, socialFailed := failed)
    {
      if NeedsSocial(before[i]) {
        assert leads[i] == leads[..][i];
        if HasUrl(leads[i].social) {
          completed := completed + 1;
        } else {
          failed := failed + 1;
        }
      }
    }
  }

  method CountWithUrl(leads: array<Lead>) returns (count: nat)
    ensures count == WithUrl(leads[..], leads.Length)
  {
    count := 0;
    for i := 0 to leads.Length
      invariant count == WithUrl(leads[..], i)
    {
      if HasUrl(leads[i].social) {
        count := count + 1;
      }
    }
  }

  function WithUrl(leads: seq<Lead>, k: nat): nat
    requires k <= |leads|
  {
    if k == 0 then 0 else WithUrl(leads, k - 1) + if HasUrl(leads[k - 1].social) then 1 else 0
  }

  /** The selection loop, field by field. */
  method SelectAll(orc: Oracle, leads: array<Lead>)
    modifies leads
    ensures leads[..] == SelectedLeads(orc, old(leads[..]))
    ensures forall i: nat | i < leads.Length ::
      && SelectedBy(old(leads[i]).social, orc.select(old(leads[i]).social), leads[i].social)
      && leads[i].website == old(leads[i]).website && leads[i].mapsUrl == old(leads[i]).mapsUrl
  {
    ghost var before := leads[..];
    for i := 0 to leads.Length
      invariant forall j | 0 <= j < leads.Length ::
        leads[j] == if j < i then AfterSelection(orc, before[j]) else before[j]
    {
      var social := leads[i].social;
      if HasUrl(social) {
        var chosen := orc.select(social);
        social := social.(instagramUrl := chosen.instagramUrl);
        if !Truthy(chosen.instagramUrl) {
          social := social.(instagramConfidence := None);
        }
        social := social.(facebookUrl := chosen.facebookUrl);
        if !Truthy(chosen.facebookUrl) {
          social := social.(facebookConfidence := None);
        }
        leads[i] := leads[i].(social := social);
      }
    }
    forall i: nat | i < leads.Length ensures SelectedBy(before[i].social, orc.select(before[i].social), leads[i].social) {
      SelectedByFields(before[i].social, orc.select);
    }
  }

  method UrlSelectionStage(orc: Oracle, leads: array<Lead>) returns (before: nat, after: nat)
    modifies leads
    ensures leads[..] == SelectedLeads(orc, old(leads[..]))
    ensures
      Sum(SelectionTallies(orc, old(leads[..]))) == Zero().(selectionBefore := before, selectionAfter := after)
    ensures before == |WithAnyUrl(old(leads[..]))| && after == |WithAnyUrl(leads[..])|
  {
    ghost var start := leads[..];
    SelectionTotals(orc, start);
    before := CountWithUrl(leads);
    SelectAll(orc, leads);
    after := CountWithUrl(leads);
    SelectionCounts(orc, start, |start|);
  }

  lemma {:induction false} SelectionCounts(orc: Oracle, leads: seq<Lead>, k: nat)
    requires k <= |leads|
    ensures SumTo(k, SelectionTallies(orc, leads))
      == Zero().(selectionBefore := WithUrl(leads, k), selectionAfter := WithUrl(SelectedLeads(orc, leads), k))
  {
    if k > 0 {
      SelectionCounts(orc, leads, k - 1);
    }
  }

  /** The stages in order, with nothing between them but a barrier. */
  method RunBatch(orc: Oracle, leads: array<Lead>, enrichOrder: seq<nat>, socialOrder: seq<nat>)
    returns (counts: Counts)
    requires CompletionOrder(enrichOrder, leads[..], NeedsEnrich)
    requires CompletionOrder(socialOrder, EnrichedLeads(orc, leads[..]), NeedsSocial)
    modifies leads
    ensures leads[..] == FinalLeads(orc, old(leads[..]))
    ensures counts == BatchCounts(orc, old(leads[..]))
    ensures
      var enriched := EnrichedLeads(orc, old(leads[..]));
      var found := SocialLeads(orc, enriched);
      && AllJourneyed(orc, old(leads[..]), enriched, found, leads[..])
      && counts == Totals(old(leads[..]), enriched, found, leads[..], false)
  {
    ghost var start := leads[..];
    BatchTotals(orc, start);
    JourneysOf(orc, start);
    var enriched, notEnriched := WebsiteEnrichmentStage(orc, leads, enrichOrder);
    var discovered, notDiscovered := SocialDiscoveryStage(orc, leads, socialOrder);
    var before, after := UrlSelectionStage(orc, leads);
    assert leads[..] == FinalLeads(orc, start);
    counts := Counts(enriched, notEnriched, discovered, notDiscovered, before, after);
  }
}
