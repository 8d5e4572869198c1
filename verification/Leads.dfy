/** The mutable part of a business lead, and what each stage of the pipeline does to one lead. */
module Leads {
  import opened Wrappers

  datatype Social = Social(
    instagramUrl: Option<string>,
    facebookUrl: Option<string>,
    instagramConfidence: Option<string>,
    facebookConfidence: Option<string>)

  datatype Lead = Lead(website: Option<string>, mapsUrl: Option<string>, social: Social)

  /** How one browser lookup of a missing website can end. */
  datatype EnrichOutcome = Raised | Looked(website: Option<string>)

  /** The two URLs the selection engine keeps for a lead. */
  datatype Selected = Selected(instagramUrl: Option<string>, facebookUrl: Option<string>)

  /** Lead is looked up on Google Maps: no usable website, but a Maps URL. */
  predicate NeedsEnrich(lead: Lead) {
    !Truthy(lead.website) && Truthy(lead.mapsUrl)
  }

  predicate NeedsSocial(lead: Lead) {
    lead.social.instagramUrl.None? || lead.social.facebookUrl.None?
  }

  predicate HasUrl(social: Social) {
    Truthy(social.instagramUrl) || Truthy(social.facebookUrl)
  }

  function Enriched(lead: Lead, outcome: EnrichOutcome): Lead {
    match outcome
    case Raised => lead
    case Looked(website) => lead.(website := website)
  }

  /** The final clean-up pass: nothing to select from leaves the lead alone. */
  function SelectionPass(social: Social, select: Social -> Selected): Social {
    if !HasUrl(social) then social
    else
      var chosen := select(social);
      Social(
        chosen.instagramUrl,
        chosen.facebookUrl,
        if Truthy(chosen.instagramUrl) then social.instagramConfidence else None,
        if Truthy(chosen.facebookUrl) then social.facebookConfidence else None)
  }

  /** The integer progress counters of the three stages. */
  datatype Counts = Counts(
    enrichCompleted: int, enrichFailed: int,
    socialCompleted: int, socialFailed: int,
    selectionBefore: int, selectionAfter: int)
  {
    function Plus(other: Counts): Counts {
      Counts(
        enrichCompleted + other.enrichCompleted, enrichFailed + other.enrichFailed,
        socialCompleted + other.socialCompleted, socialFailed + other.socialFailed,
        selectionBefore + other.selectionBefore, selectionAfter + other.selectionAfter)
    }
  }

  lemma PlusAssociative(a: Counts, b: Counts, c: Counts)
    ensures a.Plus(b).Plus(c) == a.Plus(b.Plus(c))
  {
  }

  function Zero(): Counts {
    Counts(0, 0, 0, 0, 0, 0)
  }

  /** Sum of the first `k` contributions. */
  function SumTo(k: nat, each: seq<Counts>): Counts
    requires k <= |each|
  {
    if k == 0 then Counts(0, 0, 0, 0, 0, 0) else SumTo(k - 1, each).Plus(each[k - 1])
  }

  function Sum(each: seq<Counts>): Counts {
    SumTo(|each|, each)
  }

  /** What the enrichment worker adds to the counters once a looked-up lead came back. */
  function EnrichTally(after: Lead): Counts {
    if after.website.Some? then Zero().(enrichCompleted := 1) else Zero().(enrichFailed := 1)
  }

  /** What the social worker adds for discovery, when the lead entered it with a URL missing. */
  function SocialTally(after: Social): Counts {
    if HasUrl(after) then Zero().(socialCompleted := 1) else Zero().(socialFailed := 1)
  }

  /** What the inline selection pass adds. */
  function SelectionTally(before: Social, after: Social): Counts {
    Zero().(selectionBefore := if HasUrl(before) then 1 else 0, selectionAfter := if HasUrl(after) then 1 else 0)
  }
}
