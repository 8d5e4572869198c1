/**
  Choosing one URL per platform: merge duplicates keeping the best-ranked one, rank what is left,
  take the first. The scores are integers; what a URL looks like is a parameter.
*/
module Selection {
  import opened Wrappers
  import Leads

  datatype Confidence = HIGH | MEDIUM | LOW | NONE

  datatype Candidate = Candidate(platform: string, url: string, source: string, confidence: Confidence,
                                 normalized: Option<string>)

  /** A missing or empty normalized URL cannot be selected. */
  predicate Usable(c: Candidate) {
    Truthy(c.normalized)
  }

  type Key = (string, string)

  function KeyOf(c: Candidate): Key
    requires Usable(c)
  {
    (c.platform, c.normalized.value)
  }

  // ---------- Scores ----------

  /** What URL parsing says of a URL: its profile slug, its domain, its query and its path. */
  datatype UrlFacts = UrlFacts(canonical: bool, expectedDomain: bool, cleanQuery: bool, shortPath: bool)

  /** The numeric value of each confidence tier, from the settings. */
  datatype Tiers = Tiers(high: int, medium: int, low: int, none: int)

  function DefaultTiers(): Tiers {
    Tiers(100, 70, 40, 0)
  }

  function ConfidenceScore(t: Tiers, c: Confidence): int {
    match c
    case HIGH => t.high
    case MEDIUM => t.medium
    case LOW => t.low
    case NONE => t.none
  }

  function SourceWeight(source: string): int {
    if source == "json_ld" || source == "meta" then 15
    else if source == "footer" || source == "header" then 10
    else if source == "anchor" then 5
    else 0
  }

  function Bonus(earned: bool, bonus: int): int {
    if earned then bonus else 0
  }

  function UrlScore(u: UrlFacts): int {
    Bonus(u.canonical, 20) + Bonus(u.expectedDomain, 10) + Bonus(u.cleanQuery, 5) + Bonus(u.shortPath, 5)
  }

  function RankScore(t: Tiers, facts: Key -> UrlFacts, c: Candidate): int {
    if !Usable(c) then 0
    else ConfidenceScore(t, c.confidence) + SourceWeight(c.source) + UrlScore(facts(KeyOf(c)))
  }

  /**
    With the default tiers a usable candidate two tiers above another outranks it whatever their sources
    and URLs are, one tier is not enough, and duplicates of one URL differ by confidence and source only.
  */
  lemma TwoTiersDecide(facts: Key -> UrlFacts, a: Candidate, b: Candidate)
    requires Usable(a) && Usable(b)
    ensures (a.confidence.HIGH? && (b.confidence.LOW? || b.confidence.NONE?)) || (a.confidence.MEDIUM? && b.confidence.NONE?)
      ==> RankScore(DefaultTiers(), facts, a) > RankScore(DefaultTiers(), facts, b)
    ensures KeyOf(a) == KeyOf(b) ==>
      RankScore(DefaultTiers(), facts, a) - RankScore(DefaultTiers(), facts, b)
      == ConfidenceScore(DefaultTiers(), a.confidence) + SourceWeight(a.source)
         - ConfidenceScore(DefaultTiers(), b.confidence) - SourceWeight(b.source)
  {
  }

  lemma OneTierDoesNotDecide()
    ensures exists facts: Key -> UrlFacts, a, b ::
      Usable(a) && Usable(b) && a.confidence.HIGH? && b.confidence.MEDIUM?
      && RankScore(DefaultTiers(), facts, a) < RankScore(DefaultTiers(), facts, b)
  {
    var facts := (k: Key) => if k.1 == "b" then UrlFacts(true, true, true, true) else UrlFacts(false, false, false, false);
    var a := Candidate("facebook", "a", "search_fallback", HIGH, Some("a"));
    var b := Candidate("facebook", "b", "search_fallback", MEDIUM, Some("b"));
    assert RankScore(DefaultTiers(), facts, a) < RankScore(DefaultTiers(), facts, b);
  }

  /** How much a source is trusted: structured data, then footer and header, then any other anchor, then the rest. */
  function SourceClass(source: string): nat {
    if source in {"json_ld", "meta"} then 3
    else if source in {"footer", "header"} then 2
    else if source in {"anchor"} then 1
    else 0
  }

  /** All else equal, the more trusted source outranks, and equally trusted sources tie. */
  lemma SourceOrder(t: Tiers, facts: Key -> UrlFacts, a: Candidate, b: Candidate)
    requires Usable(a) && Usable(b) && facts(KeyOf(a)) == facts(KeyOf(b)) && a.confidence == b.confidence
    ensures RankScore(t, facts, a) > RankScore(t, facts, b) <==> SourceClass(a.source) > SourceClass(b.source)
    ensures RankScore(t, facts, a) == RankScore(t, facts, b) <==> SourceClass(a.source) == SourceClass(b.source)
  {
  }

  /**
    All else equal, a profile URL outranks one that is not unless the other has everything else and it
    has nothing; the expected domain then weighs as much as a clean query and a short path together.
  */
  lemma UrlOrder(t: Tiers, facts: Key -> UrlFacts, a: Candidate, b: Candidate)
    requires Usable(a) && Usable(b) && a.source == b.source && a.confidence == b.confidence
    ensures
      var u, v := facts(KeyOf(a)), facts(KeyOf(b));
      && (u.canonical && !v.canonical ==>
            && RankScore(t, facts, a) >= RankScore(t, facts, b)
            && (RankScore(t, facts, a) == RankScore(t, facts, b) <==>
                  v == UrlFacts(false, true, true, true) && u == UrlFacts(true, false, false, false)))
      && (u.canonical == v.canonical && u.expectedDomain && !v.expectedDomain ==>
            && RankScore(t, facts, a) >= RankScore(t, facts, b)
            && (RankScore(t, facts, a) == RankScore(t, facts, b) <==>
                  v.cleanQuery && v.shortPath && !u.cleanQuery && !u.shortPath))
      && (u.canonical == v.canonical && u.expectedDomain == v.expectedDomain && u.cleanQuery && !v.cleanQuery ==>
            && RankScore(t, facts, a) >= RankScore(t, facts, b)
            && (RankScore(t, facts, a) == RankScore(t, facts, b) <==> v.shortPath && !u.shortPath))
      && (u == v ==> RankScore(t, facts, a) == RankScore(t, facts, b))
  {
  }

  // ---------- Deduplication ----------

  type Score = Candidate -> int

  /** Keys of the usable candidates, in order of first appearance. */
  function Keys(cs: seq<Candidate>): seq<Key> {
    if cs == [] then []
    else
      var keys := Keys(cs[..|cs| - 1]);
      var last := cs[|cs| - 1];
      if Usable(last) && KeyOf(last) !in keys then keys + [KeyOf(last)] else keys
  }

  /** The candidates of one key. */
  function WithKey(cs: seq<Candidate>, key: Key): seq<Candidate> {
    if cs == [] then []
    else
      var earlier := WithKey(cs[..|cs| - 1], key);
      var last := cs[|cs| - 1];
      if Usable(last) && KeyOf(last) == key then earlier + [last] else earlier
  }

  /** The first candidate of maximal score. */
  function Best(score: Score, cs: seq<Candidate>): Candidate
    requires cs != []
  {
    var last := cs[|cs| - 1];
    if |cs| == 1 then last
    else
      var best := Best(score, cs[..|cs| - 1]);
      if score(last) > score(best) then last else best
  }

  function Unusable(cs: seq<Candidate>): seq<Candidate> {
    if cs == [] then []
    else
      var earlier := Unusable(cs[..|cs| - 1]);
      if Usable(cs[|cs| - 1]) then earlier else earlier + [cs[|cs| - 1]]
  }

  /** `kept` holds, for each key in order of first appearance, the first best candidate of that key. */
  ghost predicate KeepsBest(score: Score, cs: seq<Candidate>, kept: seq<Candidate>) {
    && |kept| == |Keys(cs)|
    && forall i | 0 <= i < |kept| :: WithKey(cs, Keys(cs)[i]) != [] && kept[i] == Best(score, WithKey(cs, Keys(cs)[i]))
  }

  lemma {:induction false} KeysDistinct(cs: seq<Candidate>)
    ensures forall i, j | 0 <= i < j < |Keys(cs)| :: Keys(cs)[i] != Keys(cs)[j]
  {
    if cs != [] {
      KeysDistinct(cs[..|cs| - 1]);
    }
  }

  lemma {:induction false} KeyIffCandidate(cs: seq<Candidate>, key: Key)
    ensures key in Keys(cs) <==> WithKey(cs, key) != []
  {
    if cs != [] {
      KeyIffCandidate(cs[..|cs| - 1], key);
    }
  }

  lemma {:induction false} CandidateHasKey(cs: seq<Candidate>, j: nat)
    requires j < |cs| && Usable(cs[j])
    ensures cs[j] in WithKey(cs, KeyOf(cs[j])) && KeyOf(cs[j]) in Keys(cs)
  {
    KeyIffCandidate(cs, KeyOf(cs[j]));
    if j < |cs| - 1 {
      CandidateHasKey(cs[..|cs| - 1], j);
    }
  }

  lemma {:induction false} WithKeyAreCandidates(cs: seq<Candidate>, key: Key, c: Candidate)
    requires c in WithKey(cs, key)
    ensures c in cs && Usable(c) && KeyOf(c) == key
  {
    var n := |cs| - 1;
    if c in WithKey(cs[..n], key) {
      WithKeyAreCandidates(cs[..n], key, c);
    }
  }

  /** `Best` is a member of maximal score. */
  lemma {:induction false} BestIsMaximal(score: Score, cs: seq<Candidate>)
    requires cs != []
    ensures Best(score, cs) in cs
    ensures forall j | 0 <= j < |cs| :: score(cs[j]) <= score(Best(score, cs))
  {
    if |cs| > 1 {
      BestIsMaximal(score, cs[..|cs| - 1]);
    }
  }

  /** The insertion-ordered dictionary after `n` candidates: its keys in order, and what it holds for each. */
  ghost predicate Holds(score: Score, cs: seq<Candidate>, order: seq<Key>, best: map<Key, Candidate>) {
    && order == Keys(cs)
    && (forall key | key in best :: key in order)
    && forall key | key in order :: key in best && WithKey(cs, key) != [] && best[key] == Best(score, WithKey(cs, key))
  }

  lemma HoldsStep(score: Score, cs: seq<Candidate>, c: Candidate, order: seq<Key>, best: map<Key, Candidate>)
    requires Holds(score, cs, order, best) && Usable(c)
    ensures
      var key := KeyOf(c);
      if key !in order then Holds(score, cs + [c], order + [key], best[key := c])
      else Holds(score, cs + [c], order, if score(c) > score(best[key]) then best[key := c] else best)
  {
    assert (cs + [c])[..|cs|] == cs;
    var key := KeyOf(c);
    KeyIffCandidate(cs, key);
    assert WithKey(cs + [c], key) == WithKey(cs, key) + [c];
    assert (WithKey(cs, key) + [c])[..|WithKey(cs, key)|] == WithKey(cs, key);
    assert forall k | k != key :: WithKey(cs + [c], k) == WithKey(cs, k);
  }

  lemma SkipsUnusable(score: Score, cs: seq<Candidate>, c: Candidate, order: seq<Key>, best: map<Key, Candidate>)
    requires Holds(score, cs, order, best) && !Usable(c)
    ensures Holds(score, cs + [c], order, best) && Unusable(cs + [c]) == Unusable(cs) + [c]
  {
    assert (cs + [c])[..|cs|] == cs;
    assert forall k :: WithKey(cs + [c], k) == WithKey(cs, k);
  }

  /**
    One pass over the candidates. What comes back is the best candidate of each key, in order of first
    appearance, then the unusable ones in order; everything else was counted as a duplicate.
  */
  method Deduplicate(score: Score, cs: seq<Candidate>) returns (kept: seq<Candidate>, unusable: seq<Candidate>, duplicates: nat)
    ensures KeepsBest(score, cs, kept) && unusable == Unusable(cs)
    ensures |cs| == |kept| + |unusable| + duplicates
  {
    var order: seq<Key>, best: map<Key, Candidate> := [], map[];
    unusable, duplicates := [], 0;
    for i := 0 to |cs|
      invariant Holds(score, cs[..i], order, best) && unusable == Unusable(cs[..i])
      invariant i == |order| + |unusable| + duplicates
    {
      var c := cs[i];
      assert cs[..i + 1] == cs[..i] + [c];
      assert (cs[..i] + [c])[..i] == cs[..i];
      if !Usable(c) {
        SkipsUnusable(score, cs[..i], c, order, best);
        unusable := unusable + [c];
      } else {
        HoldsStep(score, cs[..i], c, order, best);
        var key := KeyOf(c);
        if key !in best {
          order := order + [key];
          best := best[key := c];
        } else {
          duplicates := duplicates + 1;
          if score(c) > score(best[key]) {
            best := best[key := c];
          }
        }
      }
    }
    assert cs[..|cs|] == cs;
    kept := [];
    for i := 0 to |order|
      invariant |kept| == i && forall k | 0 <= k < i :: kept[k] == best[order[k]]
    {
      kept := kept + [best[order[i]]];
    }
  }

  // ---------- Ranking ----------

  /** Inserts before the first item that does not score higher. */
  function Insert(score: Score, c: Candidate, ranked: seq<Candidate>): seq<Candidate> {
    if ranked == [] || score(ranked[0]) <= score(c) then [c] + ranked
    else [ranked[0]] + Insert(score, c, ranked[1..])
  }

  /** The stable sort by descending score. */
  function Rank(score: Score, items: seq<Candidate>): seq<Candidate> {
    if items == [] then [] else Insert(score, items[0], Rank(score, items[1..]))
  }

  predicate Descending(score: Score, items: seq<Candidate>) {
    forall i, j | 0 <= i < j < |items| :: score(items[i]) >= score(items[j])
  }

  /** The items of one score, in order. */
  function WithScore(score: Score, items: seq<Candidate>, v: int): seq<Candidate> {
    if items == [] then []
    else if score(items[0]) == v then [items[0]] + WithScore(score, items[1..], v)
    else WithScore(score, items[1..], v)
  }

  lemma {:induction false} InsertMembers(score: Score, c: Candidate, ranked: seq<Candidate>)
    ensures multiset(Insert(score, c, ranked)) == multiset(ranked) + multiset{c}
  {
    if ranked != [] && score(ranked[0]) > score(c) {
      InsertMembers(score, c, ranked[1..]);
      assert ranked == [ranked[0]] + ranked[1..];
    }
  }

  lemma {:induction false} InsertDescending(score: Score, c: Candidate, ranked: seq<Candidate>)
    requires Descending(score, ranked)
    ensures Descending(score, Insert(score, c, ranked))
  {
    if ranked != [] && score(ranked[0]) > score(c) {
      var rest := Insert(score, c, ranked[1..]);
      InsertDescending(score, c, ranked[1..]);
      forall j | 0 <= j < |rest| ensures score(rest[j]) <= score(ranked[0]) {
        InsertMembers(score, c, ranked[1..]);
        assert rest[j] in multiset(rest);
      }
    }
  }

  lemma {:induction false} InsertStable(score: Score, c: Candidate, ranked: seq<Candidate>, v: int)
    requires Descending(score, ranked)
    ensures WithScore(score, Insert(score, c, ranked), v)
      == if score(c) == v then [c] + WithScore(score, ranked, v) else WithScore(score, ranked, v)
  {
    if ranked == [] || score(ranked[0]) <= score(c) {
      assert ([c] + ranked)[1..] == ranked;
    } else {
      var rest := Insert(score, c, ranked[1..]);
      InsertStable(score, c, ranked[1..], v);
      assert ([ranked[0]] + rest)[1..] == rest;
    }
  }

  lemma {:induction false} RankMembers(score: Score, items: seq<Candidate>)
    ensures multiset(Rank(score, items)) == multiset(items)
  {
    if items != [] {
      RankMembers(score, items[1..]);
      InsertMembers(score, items[0], Rank(score, items[1..]));
      assert items == [items[0]] + items[1..];
    }
  }

  /** Ranking is a permutation in descending order that keeps the order of equal scores. */
  lemma {:induction false} RankIsStableSort(score: Score, items: seq<Candidate>, v: int)
    ensures Descending(score, Rank(score, items))
    ensures multiset(Rank(score, items)) == multiset(items)
    ensures WithScore(score, Rank(score, items), v) == WithScore(score, items, v)
  {
    RankMembers(score, items);
    if items != [] {
      RankIsStableSort(score, items[1..], v);
      InsertDescending(score, items[0], Rank(score, items[1..]));
      InsertStable(score, items[0], Rank(score, items[1..]), v);
    }
  }

  lemma {:induction false} BestOfFront(score: Score, c: Candidate, items: seq<Candidate>)
    requires items != []
    ensures Best(score, [c] + items) == if score(Best(score, items)) > score(c) then Best(score, items) else c
  {
    var all := [c] + items;
    assert all[..|all| - 1] == [c] + items[..|items| - 1];
    if |items| > 1 {
      BestOfFront(score, c, items[..|items| - 1]);
    }
  }

  /** The first of the ranking is the first item of maximal score. */
  lemma {:induction false} RankedFirstIsBest(score: Score, items: seq<Candidate>)
    requires items != []
    ensures Rank(score, items) != [] && Rank(score, items)[0] == Best(score, items)
  {
    assert items == [items[0]] + items[1..];
    if |items| > 1 {
      RankedFirstIsBest(score, items[1..]);
      BestOfFront(score, items[0], items[1..]);
    }
  }

  // ---------- Selection ----------

  function OnPlatform(cs: seq<Candidate>, platform: string): seq<Candidate> {
    if cs == [] then []
    else
      var earlier := OnPlatform(cs[..|cs| - 1], platform);
      if cs[|cs| - 1].platform == platform then earlier + [cs[|cs| - 1]] else earlier
  }

  function UsableOf(cs: seq<Candidate>): seq<Candidate> {
    if cs == [] then []
    else if Usable(cs[0]) then [cs[0]] + UsableOf(cs[1..])
    else UsableOf(cs[1..])
  }

  lemma {:induction false} UnusableAre(cs: seq<Candidate>)
    ensures forall k | 0 <= k < |Unusable(cs)| :: !Usable(Unusable(cs)[k])
  {
    if cs != [] {
      UnusableAre(cs[..|cs| - 1]);
    }
  }

  lemma {:induction false} UsableSplits(a: seq<Candidate>, b: seq<Candidate>)
    requires forall k | 0 <= k < |a| :: Usable(a[k])
    requires forall k | 0 <= k < |b| :: !Usable(b[k])
    ensures UsableOf(a + b) == a
  {
    if a != [] {
      assert Usable(a[0]) && (a + b)[1..] == a[1..] + b;
      UsableSplits(a[1..], b);
    } else {
      assert a + b == b;
      if b != [] {
        UsableSplits([], b[1..]);
        assert [] + b[1..] == b[1..] && !Usable(b[0]);
      }
    }
  }

  lemma KeptAreUsable(score: Score, cs: seq<Candidate>, kept: seq<Candidate>)
    requires KeepsBest(score, cs, kept)
    ensures forall i | 0 <= i < |kept| :: kept[i] in cs && Usable(kept[i]) && KeyOf(kept[i]) == Keys(cs)[i]
  {
    forall i | 0 <= i < |kept| ensures kept[i] in cs && Usable(kept[i]) && KeyOf(kept[i]) == Keys(cs)[i] {
      BestIsMaximal(score, WithKey(cs, Keys(cs)[i]));
      WithKeyAreCandidates(cs, Keys(cs)[i], kept[i]);
    }
  }

  /** The best of a platform: some position holds it, nothing scores higher, nothing earlier as high. */
  lemma {:induction false} BestOnPlatform(score: Score, cs: seq<Candidate>, platform: string) returns (m: nat)
    requires OnPlatform(cs, platform) != []
    ensures m < |cs| && cs[m].platform == platform && cs[m] == Best(score, OnPlatform(cs, platform))
    ensures forall j | 0 <= j < |cs| && cs[j].platform == platform ::
      score(cs[j]) <= score(cs[m]) && (j < m ==> score(cs[j]) < score(cs[m]))
  {
    var n := |cs| - 1;
    var earlier := OnPlatform(cs[..n], platform);
    if earlier == [] {
      m := n;
      NobodyOnPlatform(cs[..n], platform);
      assert forall j | 0 <= j < n :: cs[..n][j] == cs[j];
    } else {
      m := BestOnPlatform(score, cs[..n], platform);
      assert forall j | 0 <= j < n :: cs[..n][j] == cs[j];
      if cs[n].platform == platform {
        assert (earlier + [cs[n]])[..|earlier|] == earlier;
        if score(cs[n]) > score(cs[m]) {
          m := n;
        }
      }
    }
  }

  lemma {:induction false} NobodyOnPlatform(cs: seq<Candidate>, platform: string)
    ensures OnPlatform(cs, platform) == [] <==> forall j | 0 <= j < |cs| :: cs[j].platform != platform
  {
    if cs != [] {
      NobodyOnPlatform(cs[..|cs| - 1], platform);
      assert forall j | 0 <= j < |cs| - 1 :: cs[..|cs| - 1][j] == cs[j];
    }
  }

  /** Position of the first candidate with the key, or the length if there is none. */
  function FirstSeen(cs: seq<Candidate>, key: Key): nat {
    if cs == [] then 0
    else
      var n := |cs| - 1;
      var earlier := FirstSeen(cs[..n], key);
      if earlier < n || (Usable(cs[n]) && KeyOf(cs[n]) == key) then earlier else n + 1
  }

  lemma {:induction false} FirstSeenIs(cs: seq<Candidate>, key: Key)
    ensures
      var f := FirstSeen(cs, key);
      && f <= |cs| && (f < |cs| <==> key in Keys(cs))
      && (f < |cs| ==> Usable(cs[f]) && KeyOf(cs[f]) == key)
      && forall j | 0 <= j < f :: !(Usable(cs[j]) && KeyOf(cs[j]) == key)
  {
    if cs != [] {
      FirstSeenIs(cs[..|cs| - 1], key);
      assert forall j | 0 <= j < |cs| - 1 :: cs[..|cs| - 1][j] == cs[j];
    }
  }

  lemma {:induction false} KeysInOrder(cs: seq<Candidate>, i: nat, k: nat)
    requires i < k < |Keys(cs)|
    ensures FirstSeen(cs, Keys(cs)[i]) < FirstSeen(cs, Keys(cs)[k])
  {
    var before := cs[..|cs| - 1];
    FirstSeenIs(before, Keys(cs)[i]);
    if k < |Keys(before)| {
      KeysInOrder(before, i, k);
      FirstSeenIs(before, Keys(cs)[k]);
    } else {
      KeysDistinct(cs);
      FirstSeenIs(before, Keys(cs)[k]);
    }
  }

  /** Candidate `i` has the maximal score of its platform, and no URL as good as its URL was seen earlier. */
  ghost predicate Wins(score: Score, cs: seq<Candidate>, platform: string, i: nat) {
    && i < |cs| && Usable(cs[i]) && cs[i].platform == platform
    && forall j | 0 <= j < |cs| && Usable(cs[j]) && cs[j].platform == platform ::
      && score(cs[j]) <= score(cs[i])
      && (score(cs[j]) == score(cs[i]) ==> FirstSeen(cs, KeyOf(cs[i])) <= FirstSeen(cs, KeyOf(cs[j])))
  }

  /** The URL the engine reports for a platform, out of the deduplicated usable candidates. */
  function Chosen(score: Score, kept: seq<Candidate>, platform: string): Option<string> {
    var ranked := Rank(score, OnPlatform(kept, platform));
    if ranked == [] then None else ranked[0].normalized
  }

  /** A kept candidate is no worse than any candidate of its key, and stands at its key's position. */
  lemma KeptOutranks(score: Score, cs: seq<Candidate>, kept: seq<Candidate>, j: nat) returns (q: nat)
    requires KeepsBest(score, cs, kept) && j < |cs| && Usable(cs[j])
    ensures q < |kept| && Usable(kept[q]) && KeyOf(kept[q]) == KeyOf(cs[j]) == Keys(cs)[q]
    ensures score(cs[j]) <= score(kept[q])
  {
    CandidateHasKey(cs, j);
    q :| 0 <= q < |Keys(cs)| && Keys(cs)[q] == KeyOf(cs[j]);
    KeptAreUsable(score, cs, kept);
    BestIsMaximal(score, WithKey(cs, Keys(cs)[q]));
  }

  /** A report for a platform: a winner's URL, or nothing if it has no usable candidate. */
  ghost predicate Reports(score: Score, cs: seq<Candidate>, platform: string, url: Option<string>) {
    match url
    case None => forall j | 0 <= j < |cs| :: !(Usable(cs[j]) && cs[j].platform == platform)
    case Some(u) => u != "" && exists i: nat :: Wins(score, cs, platform, i) && cs[i].normalized == Some(u)
  }

  lemma NobodyToChoose(score: Score, cs: seq<Candidate>, kept: seq<Candidate>, platform: string)
    requires KeepsBest(score, cs, kept) && OnPlatform(kept, platform) == []
    ensures forall j | 0 <= j < |cs| :: !(Usable(cs[j]) && cs[j].platform == platform)
  {
    NobodyOnPlatform(kept, platform);
    forall j | 0 <= j < |cs| && Usable(cs[j]) ensures cs[j].platform != platform {
      var q := KeptOutranks(score, cs, kept, j);
    }
  }

  /** The best kept candidate of a platform wins: merging duplicates lost nothing. */
  lemma BestKeptWins(score: Score, cs: seq<Candidate>, kept: seq<Candidate>, platform: string) returns (i: nat)
    requires KeepsBest(score, cs, kept) && OnPlatform(kept, platform) != []
    ensures Wins(score, cs, platform, i) && cs[i] == Best(score, OnPlatform(kept, platform))
  {
    var m := BestOnPlatform(score, kept, platform);
    KeptAreUsable(score, cs, kept);
    i :| 0 <= i < |cs| && cs[i] == kept[m];
    forall j | 0 <= j < |cs| && Usable(cs[j]) && cs[j].platform == platform
      ensures score(cs[j]) <= score(cs[i])
      ensures score(cs[j]) == score(cs[i]) ==> FirstSeen(cs, KeyOf(cs[i])) <= FirstSeen(cs, KeyOf(cs[j]))
    {
      var q := KeptOutranks(score, cs, kept, j);
      if m < q {
        KeysInOrder(cs, m, q);
      }
    }
  }

  /**
    The chosen URL is an argmax with an exact tie-break: it has the maximal score over all usable
    candidates of the platform, before deduplication, and among the URLs that reach it the one first
    seen earliest in the input. Nothing is chosen only if the platform has no usable candidate.
  */
  lemma ChosenWins(score: Score, cs: seq<Candidate>, kept: seq<Candidate>, platform: string)
    requires KeepsBest(score, cs, kept)
    ensures Reports(score, cs, platform, Chosen(score, kept, platform))
  {
    if OnPlatform(kept, platform) == [] {
      NobodyToChoose(score, cs, kept, platform);
    } else {
      RankedFirstIsBest(score, OnPlatform(kept, platform));
      var i := BestKeptWins(score, cs, kept, platform);
    }
  }

  /** The winner is unique as a URL. */
  lemma WinnersAgree(score: Score, cs: seq<Candidate>, platform: string, i: nat, j: nat)
    requires Wins(score, cs, platform, i) && Wins(score, cs, platform, j)
    ensures cs[i].normalized == cs[j].normalized
  {
    CandidateHasKey(cs, i);
    CandidateHasKey(cs, j);
    FirstSeenIs(cs, KeyOf(cs[i]));
    FirstSeenIs(cs, KeyOf(cs[j]));
  }

  // ---------- Deduplicating twice ----------

  lemma {:induction false} DistinctKeysStay(cs: seq<Candidate>, keys: seq<Key>)
    requires |cs| == |keys| && (forall i, j | 0 <= i < j < |keys| :: keys[i] != keys[j])
    requires forall i | 0 <= i < |cs| :: Usable(cs[i]) && KeyOf(cs[i]) == keys[i]
    ensures Keys(cs) == keys && Unusable(cs) == []
    ensures forall i | 0 <= i < |cs| :: WithKey(cs, keys[i]) == [cs[i]]
  {
    if cs != [] {
      var n := |cs| - 1;
      DistinctKeysStay(cs[..n], keys[..n]);
      assert keys == keys[..n] + [keys[n]];
      KeyIffCandidate(cs[..n], keys[n]);
      forall i | 0 <= i < n ensures WithKey(cs, keys[i]) == [cs[i]] {
        assert WithKey(cs[..n], keys[..n][i]) == [cs[..n][i]];
      }
    }
  }

  lemma {:induction false} UnusableAppended(a: seq<Candidate>, b: seq<Candidate>)
    requires forall k | 0 <= k < |b| :: !Usable(b[k])
    ensures Keys(a + b) == Keys(a) && Unusable(a + b) == Unusable(a) + b
    ensures forall key :: WithKey(a + b, key) == WithKey(a, key)
  {
    if b == [] {
      assert a + b == a;
    } else {
      var n := |b| - 1;
      assert (a + b)[..|a + b| - 1] == a + b[..n];
      assert b == b[..n] + [b[n]] && !Usable(b[n]);
      UnusableAppended(a, b[..n]);
    }
  }

  /** Deduplicating the output again changes nothing and finds no duplicate. */
  lemma DeduplicateIdempotent(score: Score, cs: seq<Candidate>, kept: seq<Candidate>, again: seq<Candidate>)
    requires KeepsBest(score, cs, kept) && KeepsBest(score, kept + Unusable(cs), again)
    ensures again == kept && Unusable(kept + Unusable(cs)) == Unusable(cs)
  {
    KeysDistinct(cs);
    KeptAreUsable(score, cs, kept);
    DistinctKeysStay(kept, Keys(cs));
    UnusableAre(cs);
    UnusableAppended(kept, Unusable(cs));
  }

  // ---------- The engine ----------

  datatype SelectionResult = SelectionResult(instagram: Option<string>, facebook: Option<string>)

  class SelectionMetrics {
    var candidates: nat
    var duplicates: nat
    var rejected: nat
    var selected: nat
  }

  function Count(o: Option<string>): nat {
    if Truthy(o) then 1 else 0
  }

  /** One turn of the engine's loop over the platforms. */
  method Choose(score: Score, cs: seq<Candidate>, kept: seq<Candidate>, platform: string) returns (url: Option<string>)
    requires KeepsBest(score, cs, kept)
    ensures Reports(score, cs, platform, url)
  {
    ChosenWins(score, cs, kept, platform);
    var here := OnPlatform(kept, platform);
    if here == [] {
      return None;
    }
    RankedFirstIsBest(score, here);
    url := Rank(score, here)[0].normalized;
  }

  /** One URL per platform, and every candidate accounted for: kept, rejected or a duplicate. */
  method Select(score: Score, cs: seq<Candidate>, metrics: SelectionMetrics) returns (result: SelectionResult)
    modifies metrics
    ensures Reports(score, cs, "instagram", result.instagram) && Reports(score, cs, "facebook", result.facebook)
    ensures metrics.candidates == old(metrics.candidates) + |cs|
    ensures metrics.rejected == old(metrics.rejected) + |Unusable(cs)|
    ensures metrics.candidates - old(metrics.candidates)
      == |Keys(cs)| + (metrics.rejected - old(metrics.rejected)) + (metrics.duplicates - old(metrics.duplicates))
    ensures metrics.selected == old(metrics.selected) + Count(result.instagram) + Count(result.facebook)
  {
    metrics.candidates := metrics.candidates + |cs|;
    var kept, unusable, duplicates := Deduplicate(score, cs);
    metrics.rejected := metrics.rejected + |unusable|;
    metrics.duplicates := metrics.duplicates + duplicates;
    UnusableAre(cs);
    KeptAreUsable(score, cs, kept);
    UsableSplits(kept, unusable);
    var usable := UsableOf(kept + unusable);
    var instagram := Choose(score, cs, usable, "instagram");
    var facebook := Choose(score, cs, usable, "facebook");
    result := SelectionResult(instagram, facebook);
    metrics.selected := metrics.selected + Count(instagram) + Count(facebook);
  }

  // ---------- The pipeline's final pass over one lead ----------

  function ParseConfidence(value: Option<string>): Confidence {
    if value == Some("high") then HIGH
    else if value == Some("medium") then MEDIUM
    else if value == Some("none") then NONE
    else LOW
  }

  function CandidateOf(platform: string, url: Option<string>, confidence: Option<string>,
                       normalize: string -> Option<string>): seq<Candidate> {
    if !Truthy(url) then []
    else [Candidate(platform, url.value, "social_discovery", ParseConfidence(confidence), normalize(url.value))]
  }

  /** A lead's discovered URLs as candidates; `normalize` is None for a URL that cannot be used. */
  function FromLead(social: Leads.Social, normalize: string -> Option<string>): seq<Candidate> {
    CandidateOf("instagram", social.instagramUrl, social.instagramConfidence, normalize)
    + CandidateOf("facebook", social.facebookUrl, social.facebookConfidence, normalize)
  }

  function Cleaned(url: Option<string>, normalize: string -> Option<string>): Option<string> {
    if Truthy(url) && Truthy(normalize(url.value)) then normalize(url.value) else None
  }

  /**
    Over one lead the engine only cleans up: whatever the scores, each platform gets the normalized form
    of its own URL, or nothing when there is none or it cannot be used.
  */
  lemma FinalPassNormalizes(score: Score, social: Leads.Social, normalize: string -> Option<string>, r: SelectionResult)
    requires Reports(score, FromLead(social, normalize), "instagram", r.instagram)
    requires Reports(score, FromLead(social, normalize), "facebook", r.facebook)
    ensures r == SelectionResult(Cleaned(social.instagramUrl, normalize), Cleaned(social.facebookUrl, normalize))
  {
    var cs := FromLead(social, normalize);
    var n := |CandidateOf("instagram", social.instagramUrl, social.instagramConfidence, normalize)|;
    assert Truthy(social.instagramUrl) ==> cs[0].normalized == normalize(social.instagramUrl.value);
    assert Truthy(social.facebookUrl) ==> cs[n].normalized == normalize(social.facebookUrl.value);
  }
}
