/**
  What the stages do to a lead and what they count, said on the lead's fields alone. None and "" are
  both no URL and no website; only None is a missing one.
*/
module LeadFields {
  import opened Wrappers
  import opened Leads

  // ---------- One lead ----------

  /** A lead is looked up when it has no website but a Maps URL; the website changes unless the lookup raises. */
  ghost predicate LookedUpBy(before: Lead, outcome: EnrichOutcome, after: Lead) {
    if before.website in {None, Some("")} && before.mapsUrl !in {None, Some("")} && outcome != Raised
    then after == Lead(outcome.website, before.mapsUrl, before.social)
    else after == before
  }

  /** Discovery runs when one of the two URLs is None, and its result replaces the social fields. */
  ghost predicate DiscoveredBy(before: Lead, found: Social, after: Lead) {
    after == Lead(before.website, before.mapsUrl,
                  if before.social.instagramUrl == None || before.social.facebookUrl == None then found else before.social)
  }

  /**
    A lead with a URL gets both URLs of the engine, and keeps each confidence exactly when that platform's
    chosen URL is one; a lead without any stays as it is.
  */
  ghost predicate SelectedBy(before: Social, chosen: Selected, after: Social) {
    if before.instagramUrl in {None, Some("")} && before.facebookUrl in {None, Some("")} then after == before
    else
      && after.instagramUrl == chosen.instagramUrl && after.facebookUrl == chosen.facebookUrl
      && after.instagramConfidence == (if chosen.instagramUrl in {None, Some("")} then None else before.instagramConfidence)
      && after.facebookConfidence == (if chosen.facebookUrl in {None, Some("")} then None else before.facebookConfidence)
  }

  lemma EnrichedByFields(lead: Lead, outcome: EnrichOutcome)
    ensures LookedUpBy(lead, outcome, if NeedsEnrich(lead) then Enriched(lead, outcome) else lead)
  {
  }

  lemma SelectedByFields(social: Social, select: Social -> Selected)
    ensures SelectedBy(social, select(social), SelectionPass(social, select))
  {
  }

  /** What handling a lead adds to the counters: from its own social fields, the discovered and the final ones. */
  ghost predicate CountedBy(before: Counts, after: Counts, own: Social, found: Social, final: Social) {
    var missing := own.instagramUrl == None || own.facebookUrl == None;
    var any := found.instagramUrl !in {None, Some("")} || found.facebookUrl !in {None, Some("")};
    var left := final.instagramUrl !in {None, Some("")} || final.facebookUrl !in {None, Some("")};
    after == Counts(
      before.enrichCompleted, before.enrichFailed,
      before.socialCompleted + (if missing && any then 1 else 0),
      before.socialFailed + (if missing && !any then 1 else 0),
      before.selectionBefore + (if any then 1 else 0),
      before.selectionAfter + (if left then 1 else 0))
  }

  lemma CountedByFields(before: Counts, own: Social, found: Social, final: Social, needed: bool)
    requires needed == (own.instagramUrl.None? || own.facebookUrl.None?)
    ensures CountedBy(before, before.Plus(if needed then SocialTally(found) else Zero()).Plus(SelectionTally(found, final)),
                      own, found, final)
  {
  }

  // ---------- Which leads are counted ----------

  /** Leads whose website is None, or also "" if `empty`, that have a Maps URL, and how their lookup ended. */
  ghost function LookedUp(before: seq<Lead>, after: seq<Lead>, empty: bool, found: bool): set<nat> {
    set i: nat | i < |before| && i < |after|
      && (before[i].website == None || (empty && before[i].website == Some("")))
      && before[i].mapsUrl !in {None, Some("")} && (after[i].website != None) == found
  }

  /** Leads that lacked one of the two URLs, and whether they have any afterwards. */
  ghost function SearchedFor(before: seq<Lead>, after: seq<Lead>, found: bool): set<nat> {
    set i: nat | i < |before| && i < |after|
      && (before[i].social.instagramUrl == None || before[i].social.facebookUrl == None)
      && (after[i].social.instagramUrl !in {None, Some("")} || after[i].social.facebookUrl !in {None, Some("")}) == found
  }

  /** Leads with an Instagram or a Facebook URL. */
  ghost function WithAnyUrl(leads: seq<Lead>): set<nat> {
    set i: nat | i < |leads|
      && (leads[i].social.instagramUrl !in {None, Some("")} || leads[i].social.facebookUrl !in {None, Some("")})
  }

  // ---------- Sums of tallies are cardinalities ----------

  datatype Counter = EnrichCompleted | EnrichFailed | SocialCompleted | SocialFailed | SelectionBefore | SelectionAfter

  function Part(c: Counts, which: Counter): int {
    match which
    case EnrichCompleted => c.enrichCompleted
    case EnrichFailed => c.enrichFailed
    case SocialCompleted => c.socialCompleted
    case SocialFailed => c.socialFailed
    case SelectionBefore => c.selectionBefore
    case SelectionAfter => c.selectionAfter
  }

  ghost function Below(members: set<nat>, k: nat): set<nat> {
    set i | i in members && i < k
  }

  lemma {:induction false} PartOfSum(each: seq<Counts>, which: Counter, members: set<nat>, k: nat)
    requires k <= |each|
    requires forall i: nat | i < k :: Part(each[i], which) == if i in members then 1 else 0
    ensures Part(SumTo(k, each), which) == |Below(members, k)|
  {
    if k == 0 {
      assert Below(members, 0) == {};
    } else {
      PartOfSum(each, which, members, k - 1);
      assert Below(members, k) == Below(members, k - 1) + if k - 1 in members then {k - 1} else {};
    }
  }

  /** A counter to which each member of a set contributes one, and nobody else anything, counts the set. */
  lemma PartCounts(each: seq<Counts>, which: Counter, members: set<nat>)
    requires forall i: nat | i < |each| :: Part(each[i], which) == if i in members then 1 else 0
    requires forall i | i in members :: i < |each|
    ensures Part(Sum(each), which) == |members|
  {
    PartOfSum(each, which, members, |each|);
    assert Below(members, |each|) == members;
  }
}
