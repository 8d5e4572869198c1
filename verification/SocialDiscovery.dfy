/**
  Discovery of a lead's Instagram and Facebook URLs: the existing URL, the website when it is itself
  that platform, the links on the website, then a search. The web is a parameter.
*/
module SocialDiscovery {
  import opened Wrappers

  datatype Platform = Instagram | Facebook

  datatype Link = Link(url: string, platform: Platform, source: string)

  datatype Fetched = FetchRaised | Html(html: Option<string>)

  /** What the search engine gives: an exception, no result, or a URL that may be missing. */
  datatype Lookup = LookupRaised | NoResult | Found(url: Option<string>, canonical: bool)

  /** Everything outside the lead. `normalize` is None where the normalizer raises. */
  datatype Web = Web(
    classify: string -> Option<Platform>,
    normalize: string -> Option<string>,
    canonical: (string, Platform) -> bool,
    fetch: string -> Fetched,
    extract: string -> seq<Link>,
    find: Platform -> Lookup)

  /** A lead's URL and confidence for one platform. */
  datatype Slot = Slot(url: Option<string>, confidence: Option<string>)

  // ---------- Links of a page ----------

  /** Link `k` normalizes to a URL that no earlier link normalizes to. */
  predicate FirstOccurrence(w: Web, links: seq<Link>, k: nat)
    requires k < |links|
  {
    w.normalize(links[k].url).Some?
    && forall j | 0 <= j < k :: w.normalize(links[j].url) != w.normalize(links[k].url)
  }

  function Normalized(w: Web, l: Link): Link
    requires w.normalize(l.url).Some?
  {
    l.(url := w.normalize(l.url).value)
  }

  /** The links of first occurrence, normalized, in order. */
  function Unique(w: Web, links: seq<Link>, n: nat): seq<Link>
    requires n <= |links|
  {
    if n == 0 then []
    else if FirstOccurrence(w, links, n - 1) then Unique(w, links, n - 1) + [Normalized(w, links[n - 1])]
    else Unique(w, links, n - 1)
  }

  /** The URLs seen so far are those the links normalize to. */
  ghost predicate Seen(w: Web, links: seq<Link>, n: nat, seen: set<string>)
    requires n <= |links|
  {
    forall u :: u in seen <==> exists j :: 0 <= j < n && w.normalize(links[j].url) == Some(u)
  }

  method DeduplicateLinks(w: Web, links: seq<Link>) returns (unique: seq<Link>)
    ensures unique == Unique(w, links, |links|)
  {
    var seen: set<string> := {};
    unique := [];
    for k := 0 to |links|
      invariant unique == Unique(w, links, k) && Seen(w, links, k, seen)
    {
      var normalized := w.normalize(links[k].url);
      if normalized.Some? && normalized.value !in seen {
        seen := seen + {normalized.value};
        unique := unique + [links[k].(url := normalized.value)];
      }
    }
  }

  /** The first link of a platform. */
  function FirstFor(links: seq<Link>, p: Platform): Option<Link> {
    if links == [] then None
    else if links[0].platform == p then Some(links[0])
    else FirstFor(links[1..], p)
  }

  lemma {:induction false} FirstForAppended(links: seq<Link>, l: Link, p: Platform)
    ensures FirstFor(links + [l], p)
      == if FirstFor(links, p).Some? then FirstFor(links, p) else if l.platform == p then Some(l) else None
  {
    if links != [] {
      assert (links + [l])[1..] == links[1..] + [l];
      FirstForAppended(links[1..], l, p);
    }
  }

  /** Some earlier link, of whatever platform, normalizes to the same URL. */
  ghost predicate Repeats(w: Web, links: seq<Link>, k: nat)
    requires k < |links|
  {
    exists j :: 0 <= j < k && w.normalize(links[j].url) == w.normalize(links[k].url)
  }

  /** Link `k` is the first of the platform that can be normalized and is no repetition. */
  ghost predicate Offered(w: Web, links: seq<Link>, p: Platform, k: nat)
    requires k < |links|
  {
    && links[k].platform == p && w.normalize(links[k].url) != None && !Repeats(w, links, k)
    && forall j | 0 <= j < k && links[j].platform == p :: w.normalize(links[j].url) == None || Repeats(w, links, j)
  }

  lemma FirstOccurrenceIs(w: Web, links: seq<Link>, k: nat)
    requires k < |links|
    ensures FirstOccurrence(w, links, k) <==> w.normalize(links[k].url) != None && !Repeats(w, links, k)
  {
  }

  /**
    A page offers a platform the normalized URL of the first of its links that can be normalized and does
    not repeat an earlier link of any platform, and offers nothing exactly when there is no such link.
  */
  lemma {:induction false} PageOffer(w: Web, links: seq<Link>, n: nat, p: Platform)
    requires n <= |links|
    ensures match FirstFor(Unique(w, links, n), p)
            case None =>
              forall k | 0 <= k < n && links[k].platform == p :: w.normalize(links[k].url) == None || Repeats(w, links, k)
            case Some(l) =>
              exists k: nat :: k < n && Offered(w, links, p, k)
                && l.platform == p && Some(l.url) == w.normalize(links[k].url) && l.source == links[k].source
  {
    if n > 0 {
      PageOffer(w, links, n - 1, p);
      FirstOccurrenceIs(w, links, n - 1);
      if FirstOccurrence(w, links, n - 1) {
        FirstForAppended(Unique(w, links, n - 1), Normalized(w, links[n - 1]), p);
        if FirstFor(Unique(w, links, n - 1), p).None? && links[n - 1].platform == p {
          assert Offered(w, links, p, n - 1);
        }
      }
    }
  }

  // ---------- The tiers of one platform ----------

  /** The website is a social URL of some platform. */
  predicate IsSocialSite(w: Web, website: Option<string>) {
    Truthy(website) && w.classify(website.value).Some?
  }

  function SiteOffer(w: Web, website: Option<string>, p: Platform): Option<Slot> {
    if IsSocialSite(w, website) && w.classify(website.value) == Some(p) && w.normalize(website.value).Some?
    then Some(Slot(w.normalize(website.value), Some("high")))
    else None
  }

  /** Links of the website, unless it is missing, is itself a social URL or could not be read. */
  function PageLinks(w: Web, website: Option<string>): seq<Link> {
    if !Truthy(website) || IsSocialSite(w, website) then []
    else
      match w.fetch(website.value)
      case FetchRaised => []
      case Html(html) =>
        if !Truthy(html) then [] else Unique(w, w.extract(html.value), |w.extract(html.value)|)
  }

  function LinkOffer(w: Web, links: seq<Link>, p: Platform): Option<Slot> {
    match FirstFor(links, p)
    case None => None
    case Some(l) => Some(Slot(Some(l.url), Some(if w.canonical(l.url, p) then "high" else "medium")))
  }

  function SearchOffer(lookup: Lookup): Option<Slot> {
    if lookup.Found? && Truthy(lookup.url)
    then Some(Slot(lookup.url, Some(if lookup.canonical then "medium" else "low")))
    else None
  }

  /** A slot that is still empty takes the offer, if there is one. */
  function Take(s: Slot, offer: Option<Slot>): Slot {
    if s.url.None? && offer.Some? then offer.value else s
  }

  /** The platform's slot before the search: existing, website itself, website links. */
  function BeforeSearch(w: Web, website: Option<string>, s: Slot, p: Platform): Slot {
    Take(Take(s, SiteOffer(w, website, p)), LinkOffer(w, PageLinks(w, website), p))
  }

  function Discovered(w: Web, website: Option<string>, s: Slot, p: Platform): Slot {
    Take(BeforeSearch(w, website, s, p), SearchOffer(w.find(p)))
  }

  /** The page is fetched: some platform is missing and the website is not a social URL. */
  predicate Fetches(w: Web, website: Option<string>, ig: Slot, fb: Slot) {
    (ig.url.None? || fb.url.None?) && Truthy(website) && !IsSocialSite(w, website)
  }

  predicate FetchFails(w: Web, website: Option<string>, ig: Slot, fb: Slot) {
    Fetches(w, website, ig, fb) && w.fetch(website.value).FetchRaised?
  }

  /** The platform is still missing when the website has been used up. */
  predicate Missing(w: Web, website: Option<string>, s: Slot, p: Platform) {
    BeforeSearch(w, website, s, p).url.None?
  }

  /** The first link the website offers the platform, if it has a website of its own that could be read. */
  ghost predicate PageGives(w: Web, website: Option<string>, p: Platform, l: Option<Link>) {
    if website in {None, Some("")} || w.classify(website.value) != None
       || w.fetch(website.value) in {FetchRaised, Html(None), Html(Some(""))}
    then l == None
    else
      var found := w.extract(w.fetch(website.value).html.value);
      l == FirstFor(Unique(w, found, |found|), p)
  }

  /**
    What a platform ends with, tier by tier: an existing URL stays with its confidence; a website that is
    itself the platform is high; a link of the website is high if it is a profile URL, else medium; a
    search result is medium if it is a profile URL, else low; otherwise nothing changes.
  */
  ghost predicate ByTier(w: Web, website: Option<string>, p: Platform, before: Slot, url: Option<string>, confidence: Option<string>) {
    if before.url != None then url == before.url && confidence == before.confidence
    else if website !in {None, Some("")} && w.classify(website.value) == Some(p) && w.normalize(website.value) != None then
      url == w.normalize(website.value) && confidence == Some("high")
    else
      exists l :: PageGives(w, website, p, l) &&
        if l != None then
          url == Some(l.value.url) && confidence == Some(if w.canonical(l.value.url, p) then "high" else "medium")
        else if w.find(p).Found? && w.find(p).url !in {None, Some("")} then
          url == w.find(p).url && confidence == Some(if w.find(p).canonical then "medium" else "low")
        else url == None && confidence == before.confidence
  }

  lemma PageLinkIs(w: Web, website: Option<string>, p: Platform)
    ensures PageGives(w, website, p, FirstFor(PageLinks(w, website), p))
  {
  }

  /** The tiers: each platform gets the first that has something to offer, with exactly that tier's confidence. */
  lemma FirstTierWins(w: Web, website: Option<string>, s: Slot, p: Platform)
    ensures
      var ended := Discovered(w, website, s, p);
      ByTier(w, website, p, s, ended.url, ended.confidence)
  {
    PageLinkIs(w, website, p);
  }

  // ---------- The lead ----------

  class Lead {
    const website: Option<string>
    var instagramUrl: Option<string>
    var facebookUrl: Option<string>
    var instagramConfidence: Option<string>
    var facebookConfidence: Option<string>

    constructor (website: Option<string>)
      ensures this.website == website && Of(Instagram) == Of(Facebook) == Slot(None, None)
    {
      this.website := website;
      instagramUrl, facebookUrl, instagramConfidence, facebookConfidence := None, None, None, None;
    }

    function Of(p: Platform): Slot
      reads this
    {
      if p.Instagram? then Slot(instagramUrl, instagramConfidence) else Slot(facebookUrl, facebookConfidence)
    }

    method Set(p: Platform, s: Slot)
      modifies this
      ensures forall q :: Of(q) == if q == p then s else old(Of(q))
    {
      if p.Instagram? {
        instagramUrl, instagramConfidence := s.url, s.confidence;
      } else {
        facebookUrl, facebookConfidence := s.url, s.confidence;
      }
    }

    /** The website itself, when it is one of the two platforms. */
    method UseWebsite(w: Web) returns (isSocial: bool)
      modifies this
      ensures isSocial == IsSocialSite(w, website)
      ensures forall p :: Of(p) == Take(old(Of(p)), SiteOffer(w, website, p))
    {
      isSocial := false;
      if Truthy(website) {
        var platform := w.classify(website.value);
        isSocial := platform.Some?;
        if platform == Some(Instagram) && instagramUrl.None? {
          if w.normalize(website.value).Some? {
            Set(Instagram, Slot(w.normalize(website.value), Some("high")));
          }
        } else if platform == Some(Facebook) && facebookUrl.None? {
          if w.normalize(website.value).Some? {
            Set(Facebook, Slot(w.normalize(website.value), Some("high")));
          }
        }
      }
    }

    /** The first link of each platform that is still missing. */
    method UseLinks(w: Web, links: seq<Link>)
      modifies this
      ensures forall p :: Of(p) == Take(old(Of(p)), LinkOffer(w, links, p))
    {
      if instagramUrl.None? {
        var first := FirstFor(links, Instagram);
        if first.Some? {
          var url := first.value.url;
          Set(Instagram, Slot(Some(url), Some(if w.canonical(url, Instagram) then "high" else "medium")));
        }
      }
      if facebookUrl.None? {
        var first := FirstFor(links, Facebook);
        if first.Some? {
          var url := first.value.url;
          Set(Facebook, Slot(Some(url), Some(if w.canonical(url, Facebook) then "high" else "medium")));
        }
      }
    }

    /** The search, for exactly the platforms still missing; if a lookup raises, nothing is assigned. */
    method UseSearch(w: Web) returns (raised: bool, queried: set<Platform>)
      modifies this
      ensures forall p :: p in queried <==> old(Of(p)).url.None?
      ensures raised <==> exists p :: p in queried && w.find(p).LookupRaised?
      ensures forall p :: Of(p) == if raised then old(Of(p)) else Take(old(Of(p)), SearchOffer(w.find(p)))
    {
      queried := {};
      var ig, fb := NoResult, NoResult;
      if instagramUrl.None? && facebookUrl.None? {
        queried := {Instagram, Facebook};
        ig, fb := w.find(Instagram), w.find(Facebook);
      } else if instagramUrl.None? {
        queried := {Instagram};
        ig := w.find(Instagram);
      } else if facebookUrl.None? {
        queried := {Facebook};
        fb := w.find(Facebook);
      }
      raised := ig.LookupRaised? || fb.LookupRaised?;
      if raised {
        assert ig.LookupRaised? ==> Instagram in queried;
        assert fb.LookupRaised? ==> Facebook in queried;
        return;
      }
      if instagramUrl.None? && ig.Found? && Truthy(ig.url) {
        Set(Instagram, Slot(ig.url, Some(if ig.canonical then "medium" else "low")));
      }
      if facebookUrl.None? && fb.Found? && Truthy(fb.url) {
        Set(Facebook, Slot(fb.url, Some(if fb.canonical then "medium" else "low")));
      }
    }

    /**
      The whole discovery. It raises exactly when the fetch it needs raises, or a lookup of a platform
      still missing does; the platforms then keep what the earlier tiers gave them. Otherwise every
      platform has its first tier, and the search was asked for exactly the platforms still missing.
    */
    method Discover(w: Web) returns (raised: bool, fetched: bool, queried: set<Platform>)
      modifies this
      ensures var ig, fb := Take(old(Of(Instagram)), SiteOffer(w, website, Instagram)),
                            Take(old(Of(Facebook)), SiteOffer(w, website, Facebook));
        && (fetched <==> Fetches(w, website, ig, fb))
        && if FetchFails(w, website, ig, fb) then raised && queried == {} && Of(Instagram) == ig && Of(Facebook) == fb
           else
             && (forall p :: p in queried <==> Missing(w, website, old(Of(p)), p))
             && (raised <==> exists p :: p in queried && w.find(p).LookupRaised?)
             && forall p :: Of(p) == if raised then BeforeSearch(w, website, old(Of(p)), p)
                                     else Discovered(w, website, old(Of(p)), p)
      ensures !raised ==>
        && ByTier(w, website, Instagram, old(Slot(instagramUrl, instagramConfidence)), instagramUrl, instagramConfidence)
        && ByTier(w, website, Facebook, old(Slot(facebookUrl, facebookConfidence)), facebookUrl, facebookConfidence)
    {
      FirstTierWins(w, website, Slot(instagramUrl, instagramConfidence), Instagram);
      FirstTierWins(w, website, Slot(facebookUrl, facebookConfidence), Facebook);
      var isSocial := UseWebsite(w);
      var links: seq<Link> := [];
      fetched, queried := false, {};
      if (instagramUrl.None? || facebookUrl.None?) && Truthy(website) && !isSocial {
        fetched := true;
        var page := w.fetch(website.value);
        if page.FetchRaised? {
          return true, true, {};
        }
        if Truthy(page.html) {
          links := DeduplicateLinks(w, w.extract(page.html.value));
        }
      }
      UseLinks(w, links);
      raised, queried := UseSearch(w);
    }
  }
}
