/**
  The streaming part of the pipeline as a transition system: a feeder, enrichment workers, the main
  task that joins them, and social workers, connected by two bounded FIFO queues and sharing a page
  pool. Every await of the coroutines is a point between two actions; an action is what one coroutine
  does between two of its awaits. Outcomes of browser and network work are part of the action.
*/
module PipelineModel {
  import opened Wrappers
  import opened Leads

  datatype Item = Work(lead: nat) | Sentinel

  /** An enrichment worker: at `get`, waiting for a page, holding one, at `put`, or returned. */
  datatype Enricher = EGet | EPageWait(lead: nat) | EPage(lead: nat) | EPut(lead: nat) | EExit

  /** A social worker: at `get`, waiting for a page, holding one, in discovery without a page, or returned. */
  datatype Socialist = SGet | SPageWait(lead: nat) | SPage(lead: nat) | SWork(lead: nat) | SExit

  /** The main task: gathering feeder and enrichers, sending sentinels to the social workers, or returned. */
  datatype Main = Joining | Closing(sent: nat) | Returned

  datatype Config = Config(leads: seq<Lead>, ew: nat, sw: nat, pages: nat, select: Social -> Selected)

  datatype State = State(
    leads: seq<Lead>,
    fed: nat, fedSentinels: nat,
    toEnrich: seq<Item>, enrichers: seq<Enricher>,
    toSocial: seq<Item>, socials: seq<Socialist>,
    freePages: nat,
    main: Main,
    cancelled: bool,
    counts: Counts,
    // History: leads in the order enrichment was begun, discovery was begun, and handling was finished.
    enrichBegun: seq<nat>, discoverBegun: seq<nat>, done: seq<nat>)

  datatype Action =
    | Feed
    | EnricherGet(w: nat)
    | EnricherAcquire(w: nat)
    | EnricherFinish(w: nat, outcome: EnrichOutcome)
    | EnricherPut(w: nat)
    | SocialGet(w: nat, viaPage: bool)
    | SocialAcquire(w: nat)
    | SocialRelease(w: nat)
    | SocialFinish(w: nat, found: Social)
    | Join
    | Close
    | Return
    | Cancel

  /** Queue bound used for a stage with that many workers. */
  function Capacity(workers: nat): nat {
    if 2 * workers >= 1 then 2 * workers else 1
  }

  ghost predicate ValidConfig(cfg: Config) {
    cfg.ew >= 1 && cfg.sw >= 1 && cfg.pages >= 1
  }

  /** `n` workers at their first `get`. */
  function Idle<T>(n: nat, start: T): (workers: seq<T>)
    ensures |workers| == n && forall k | 0 <= k < n :: workers[k] == start
  {
    seq(n, _ => start)
  }

  function Init(cfg: Config): State {
    State(cfg.leads, 0, 0, [], Idle(cfg.ew, EGet), [], Idle(cfg.sw, SGet), cfg.pages,
          Joining, false, Zero(), [], [], [])
  }

  /** The lead an enrichment worker has in hand. */
  function EnricherLead(e: Enricher): Option<nat> {
    if e.EGet? || e.EExit? then None else Some(e.lead)
  }

  /** The lead a social worker has in hand. */
  function SocialLead(e: Socialist): Option<nat> {
    if e.SGet? || e.SExit? then None else Some(e.lead)
  }

  ghost predicate RealWork(q: seq<Item>, leads: nat) {
    forall k | 0 <= k < |q| :: q[k].Work? ==> q[k].lead < leads
  }

  /** Sizes and indices that make every action below well defined. */
  ghost predicate Shape(cfg: Config, s: State) {
    && |s.leads| == |cfg.leads|
    && |s.enrichers| == cfg.ew
    && |s.socials| == cfg.sw
    && s.fed <= |cfg.leads|
    && s.fedSentinels <= cfg.ew
    && (s.main.Closing? ==> s.main.sent <= cfg.sw)
    && |s.toEnrich| <= Capacity(cfg.ew)
    && |s.toSocial| <= Capacity(cfg.sw)
    && RealWork(s.toEnrich, |cfg.leads|)
    && RealWork(s.toSocial, |cfg.leads|)
    && (forall k | 0 <= k < |s.enrichers| :: EnricherLead(s.enrichers[k]).Some? ==> EnricherLead(s.enrichers[k]).value < |cfg.leads|)
    && (forall k | 0 <= k < |s.socials| :: SocialLead(s.socials[k]).Some? ==> SocialLead(s.socials[k]).value < |cfg.leads|)
  }

  predicate EnrichersReturned(s: State) {
    forall k | 0 <= k < |s.enrichers| :: s.enrichers[k].EExit?
  }

  predicate SocialsReturned(s: State) {
    forall k | 0 <= k < |s.socials| :: s.socials[k].SExit?
  }

  predicate Enabled(cfg: Config, s: State, a: Action) {
    match a
    case Feed => s.fedSentinels < cfg.ew && |s.toEnrich| < Capacity(cfg.ew)
    case EnricherGet(w) => w < |s.enrichers| && s.enrichers[w].EGet? && s.toEnrich != []
    case EnricherAcquire(w) => w < |s.enrichers| && s.enrichers[w].EPageWait? && s.freePages > 0
    case EnricherFinish(w, _) => w < |s.enrichers| && s.enrichers[w].EPage?
    case EnricherPut(w) => w < |s.enrichers| && s.enrichers[w].EPut? && |s.toSocial| < Capacity(cfg.sw)
    case SocialGet(w, _) => w < |s.socials| && s.socials[w].SGet? && s.toSocial != []
    case SocialAcquire(w) => w < |s.socials| && s.socials[w].SPageWait? && s.freePages > 0
    case SocialRelease(w) => w < |s.socials| && s.socials[w].SPage?
    case SocialFinish(w, _) => w < |s.socials| && s.socials[w].SWork?
    case Join => s.main.Joining? && s.fedSentinels == cfg.ew && EnrichersReturned(s)
    case Close => s.main.Closing? && s.main.sent < cfg.sw && |s.toSocial| < Capacity(cfg.sw)
    case Return => s.main == Closing(cfg.sw) && SocialsReturned(s)
    case Cancel => !s.cancelled
  }

  /** The feeder's next `put`: the leads in order, then one sentinel per enrichment worker. */
  function FeedStep(cfg: Config, s: State): State {
    if s.fed < |cfg.leads|
    then s.(toEnrich := s.toEnrich + [Work(s.fed)], fed := s.fed + 1)
    else s.(toEnrich := s.toEnrich + [Sentinel], fedSentinels := s.fedSentinels + 1)
  }

  /** An enrichment worker's `get` returns a sentinel, or a lead that it begins to look up or passes on. */
  function EnricherGetStep(cfg: Config, s: State, w: nat): State
    requires Shape(cfg, s) && Enabled(cfg, s, EnricherGet(w))
  {
    match s.toEnrich[0]
    case Sentinel => s.(toEnrich := s.toEnrich[1..], enrichers := s.enrichers[w := EExit])
    case Work(i) =>
      if NeedsEnrich(cfg.leads[i]) && !s.cancelled
      then s.(toEnrich := s.toEnrich[1..], enrichers := s.enrichers[w := EPageWait(i)], enrichBegun := s.enrichBegun + [i])
      else s.(toEnrich := s.toEnrich[1..], enrichers := s.enrichers[w := EPut(i)])
  }

  function EnricherAcquireStep(s: State, w: nat): State
    requires w < |s.enrichers| && s.enrichers[w].EPageWait? && s.freePages > 0
  {
    s.(freePages := s.freePages - 1, enrichers := s.enrichers[w := EPage(s.enrichers[w].lead)])
  }

  /** The page goes back to the pool, the website is written, and the outcome is counted. */
  function EnricherFinishStep(s: State, w: nat, outcome: EnrichOutcome): State
    requires w < |s.enrichers| && s.enrichers[w].EPage? && s.enrichers[w].lead < |s.leads|
  {
    var i := s.enrichers[w].lead;
    var after := Enriched(s.leads[i], outcome);
    s.(freePages := s.freePages + 1, leads := s.leads[i := after],
       enrichers := s.enrichers[w := EPut(i)], counts := s.counts.Plus(EnrichTally(after)))
  }

  function EnricherPutStep(s: State, w: nat): State
    requires w < |s.enrichers| && s.enrichers[w].EPut?
  {
    s.(toSocial := s.toSocial + [Work(s.enrichers[w].lead)], enrichers := s.enrichers[w := EGet])
  }

  /** Counting, selection and the end of one loop round of a social worker on lead `i`. */
  function Handled(cfg: Config, s: State, w: nat, i: nat, found: Social): State
    requires i < |s.leads| && w < |s.socials|
  {
    var tally := if NeedsSocial(s.leads[i]) then SocialTally(found) else Zero();
    var final := SelectionPass(found, cfg.select);
    s.(leads := s.leads[i := s.leads[i].(social := final)],
       socials := s.socials[w := SGet],
       counts := s.counts.Plus(tally).Plus(SelectionTally(found, final)),
       done := s.done + [i])
  }

  /** A social worker's `get` returns a sentinel, or a lead that it begins to discover or handles at once. */
  function SocialGetStep(cfg: Config, s: State, w: nat, viaPage: bool): State
    requires Shape(cfg, s) && Enabled(cfg, s, SocialGet(w, viaPage))
  {
    var popped := s.(toSocial := s.toSocial[1..]);
    match s.toSocial[0]
    case Sentinel => popped.(socials := s.socials[w := SExit])
    case Work(i) =>
      if NeedsSocial(s.leads[i]) && !s.cancelled
      then popped.(socials := s.socials[w := if viaPage then SPageWait(i) else SWork(i)],
                   discoverBegun := s.discoverBegun + [i])
      else Handled(cfg, popped, w, i, s.leads[i].social)
  }

  function SocialAcquireStep(s: State, w: nat): State
    requires w < |s.socials| && s.socials[w].SPageWait? && s.freePages > 0
  {
    s.(freePages := s.freePages - 1, socials := s.socials[w := SPage(s.socials[w].lead)])
  }

  function SocialReleaseStep(s: State, w: nat): State
    requires w < |s.socials| && s.socials[w].SPage?
  {
    s.(freePages := s.freePages + 1, socials := s.socials[w := SWork(s.socials[w].lead)])
  }

  function CloseStep(s: State): State
    requires s.main.Closing?
  {
    s.(main := Closing(s.main.sent + 1), toSocial := s.toSocial + [Sentinel])
  }

  function Apply(cfg: Config, s: State, a: Action): State
    requires Shape(cfg, s) && Enabled(cfg, s, a)
  {
    match a
    case Feed => FeedStep(cfg, s)
    case EnricherGet(w) => EnricherGetStep(cfg, s, w)
    case EnricherAcquire(w) => EnricherAcquireStep(s, w)
    case EnricherFinish(w, outcome) => EnricherFinishStep(s, w, outcome)
    case EnricherPut(w) => EnricherPutStep(s, w)
    case SocialGet(w, viaPage) => SocialGetStep(cfg, s, w, viaPage)
    case SocialAcquire(w) => SocialAcquireStep(s, w)
    case SocialRelease(w) => SocialReleaseStep(s, w)
    case SocialFinish(w, found) => Handled(cfg, s, w, s.socials[w].lead, found)
    case Join => s.(main := Closing(0))
    case Close => CloseStep(s)
    case Return => s.(main := Returned)
    case Cancel => s.(cancelled := true)
  }

  /** The item just taken from a queue is what the worker now has in hand. */
  predicate Took(q: seq<Item>, rest: seq<Item>, hand: Option<nat>) {
    q != [] && rest == q[1..] && hand == if q[0].Work? then Some(q[0].lead) else None
  }

  /** Footprint of the actions of enrichment worker `w`: keep the lead, put it, or take an item. */
  ghost predicate EnricherMove(s: State, t: State, w: nat) {
    && w < |s.enrichers| == |t.enrichers|
    && t.enrichers == s.enrichers[w := t.enrichers[w]]
    && t.fed == s.fed && t.fedSentinels == s.fedSentinels && t.main == s.main
    && t.socials == s.socials && t.done == s.done && |t.leads| == |s.leads|
    && t.freePages + (if t.enrichers[w].EPage? then 1 else 0) == s.freePages + (if s.enrichers[w].EPage? then 1 else 0)
    && var before, after := s.enrichers[w], t.enrichers[w];
    if before.EPut? then
      after.EGet? && t.toEnrich == s.toEnrich && t.toSocial == s.toSocial + [Work(before.lead)]
    else if before.EGet? then
      && Took(s.toEnrich, t.toEnrich, EnricherLead(after)) && t.toSocial == s.toSocial
      && (after.EExit? <==> s.toEnrich[0].Sentinel?) && (after.EPageWait? || after.EPut? || after.EExit?)
    else
      && t.toEnrich == s.toEnrich && t.toSocial == s.toSocial
      && ((before.EPageWait? && after == EPage(before.lead)) || (before.EPage? && after == EPut(before.lead)))
  }

  /** Footprint of the actions of social worker `w`: keep the lead, finish it, or take an item. */
  ghost predicate SocialMove(s: State, t: State, w: nat) {
    && w < |s.socials| == |t.socials|
    && t.socials == s.socials[w := t.socials[w]]
    && t.fed == s.fed && t.fedSentinels == s.fedSentinels && t.main == s.main
    && t.enrichers == s.enrichers && t.toEnrich == s.toEnrich && |t.leads| == |s.leads|
    && t.freePages + (if t.socials[w].SPage? then 1 else 0) == s.freePages + (if s.socials[w].SPage? then 1 else 0)
    && var before, after := s.socials[w], t.socials[w];
    if before.SGet? then
      && s.toSocial != [] && t.toSocial == s.toSocial[1..] && (after.SExit? <==> s.toSocial[0].Sentinel?)
      && match s.toSocial[0] {
           case Sentinel => t.done == s.done
           case Work(i) =>
             || (after.SGet? && t.done == s.done + [i])
             || ((after == SPageWait(i) || after == SWork(i)) && t.done == s.done)
         }
    else
      && t.toSocial == s.toSocial && !before.SExit?
      && (|| (before.SPageWait? && after == SPage(before.lead) && t.done == s.done)
          || (before.SPage? && after == SWork(before.lead) && t.done == s.done)
          || (before.SWork? && after.SGet? && t.done == s.done + [before.lead]))
  }

  /** Footprint of the feeder, the main task and cancellation. */
  ghost predicate QueueMove(cfg: Config, s: State, t: State) {
    && t.enrichers == s.enrichers && t.socials == s.socials && t.done == s.done && t.freePages == s.freePages
    && t.leads == s.leads
    && (|| (t.main == s.main && s.fed < |cfg.leads| && t.fed == s.fed + 1 && t.fedSentinels == s.fedSentinels < cfg.ew
            && t.toEnrich == s.toEnrich + [Work(s.fed)] && t.toSocial == s.toSocial)
        || (t.main == s.main && s.fed == t.fed == |cfg.leads| && t.fedSentinels == s.fedSentinels + 1 <= cfg.ew
            && t.toEnrich == s.toEnrich + [Sentinel] && t.toSocial == s.toSocial)
        || (t.fed == s.fed && t.fedSentinels == s.fedSentinels && t.toEnrich == s.toEnrich
            && MainMove(cfg, s, t)))
  }

  ghost predicate MainMove(cfg: Config, s: State, t: State) {
    match s.main
    case Joining =>
      t.toSocial == s.toSocial && (t.main == s.main || (t.main == Closing(0) && s.fedSentinels == cfg.ew && EnrichersReturned(s)))
    case Closing(sent) =>
      || (t.toSocial == s.toSocial && (t.main == s.main || (t.main.Returned? && sent == cfg.sw && SocialsReturned(s))))
      || (t.toSocial == s.toSocial + [Sentinel] && sent < cfg.sw && t.main == Closing(sent + 1))
    case Returned => t.main == s.main && t.toSocial == s.toSocial
  }

  predicate ByEnricher(a: Action) {
    a.EnricherGet? || a.EnricherAcquire? || a.EnricherFinish? || a.EnricherPut?
  }

  predicate BySocial(a: Action) {
    a.SocialGet? || a.SocialAcquire? || a.SocialRelease? || a.SocialFinish?
  }

  /** Every action has one of the three footprints. */
  lemma Footprint(cfg: Config, s: State, a: Action)
    requires Shape(cfg, s) && Enabled(cfg, s, a)
    ensures
      var t := Apply(cfg, s, a);
      if ByEnricher(a) then EnricherMove(s, t, a.w)
      else if BySocial(a) then SocialMove(s, t, a.w)
      else QueueMove(cfg, s, t)
  {
  }

  lemma ShapeStep(cfg: Config, s: State, a: Action)
    requires Shape(cfg, s) && Enabled(cfg, s, a)
    ensures Shape(cfg, Apply(cfg, s, a))
  {
    var t := Apply(cfg, s, a);
    Footprint(cfg, s, a);
    assert |t.toEnrich| <= Capacity(cfg.ew) && |t.toSocial| <= Capacity(cfg.sw);
    if ByEnricher(a) {
      EnricherShape(cfg, s, t, a.w);
    } else if BySocial(a) {
      SocialShape(cfg, s, t, a.w);
    } else {
      QueueShape(cfg, s, t);
    }
  }

  lemma EnricherShape(cfg: Config, s: State, t: State, w: nat)
    requires Shape(cfg, s) && EnricherMove(s, t, w)
    requires |t.toEnrich| <= Capacity(cfg.ew) && |t.toSocial| <= Capacity(cfg.sw)
    ensures Shape(cfg, t)
  {
  }

  lemma SocialShape(cfg: Config, s: State, t: State, w: nat)
    requires Shape(cfg, s) && SocialMove(s, t, w)
    requires |t.toEnrich| <= Capacity(cfg.ew) && |t.toSocial| <= Capacity(cfg.sw)
    ensures Shape(cfg, t)
  {
  }

  lemma QueueShape(cfg: Config, s: State, t: State)
    requires Shape(cfg, s) && QueueMove(cfg, s, t)
    requires |t.toEnrich| <= Capacity(cfg.ew) && |t.toSocial| <= Capacity(cfg.sw)
    ensures Shape(cfg, t)
  {
  }

  /** `t` is reached from `s` by exactly these actions. */
  ghost predicate Run(cfg: Config, s: State, actions: seq<Action>, t: State)
    requires Shape(cfg, s)
    ensures Run(cfg, s, actions, t) ==> Shape(cfg, t)
    decreases |actions|
  {
    if actions == [] then t == s
    else if !Enabled(cfg, s, actions[0]) then false
    else
      ShapeStep(cfg, s, actions[0]);
      Run(cfg, Apply(cfg, s, actions[0]), actions[1..], t)
  }

  predicate Finished(s: State) {
    s.main.Returned?
  }
}
