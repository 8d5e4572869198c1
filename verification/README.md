# Verified model of the lead pipeline

A Dafny model of the parts of the service whose correctness depends on interleavings, clocks and
loops: the streaming lead pipeline and the page pool its workers share, the network resilience stack
(token bucket, circuit breaker, retry engine and their composition in a session), the selection of one
URL per platform and the discovery of those URLs for one lead, the scroll loop, and the two caches.
`dafny verify dfyconfig.toml` checks everything.

## How the code is modelled

- **Concurrency** is a transition system whose actions are what one coroutine does between two of its
  awaits; a run is any sequence of enabled actions, so every interleaving is covered. Beside it stand
  classes whose methods change the same fields statement by statement and are proved to take exactly
  those steps (`PipelineRun`, `BrowserPool`, `GuardedRequest`, `SessionManager`, `CircuitBreaker`, `RateLimiter`).
- **Time** is a real number handed in as clock readings that never run backwards; tokens and delays are
  reals. The clock, jitter, browser lookups, page fetches, searches and the transport are parameters.
- **Outcomes** of browser and network work, exceptions included, belong to the action or to an oracle.
  Where a run is compared with the batch stages, the oracle depends on the lead alone.
- **Cancellation** is the cooperative flag, which may be set at any moment.
- A lead is named by its position, so leads are distinct objects. What discovery writes to a lead
  before it returns becomes visible to the pipeline when discovery returns; no other coroutine holds the
  lead meanwhile. Pages in the pipeline are anonymous; `BrowserPool` tells them apart.

## Findings

- *Streaming and batch totals differ on an empty website.* The stream looks up, and counts, a lead whose
  website is the empty string (app/pipeline/orchestrator.py:308-310), the batch stage looks it up but
  does not count it (app/pipeline/orchestrator.py:164-167). `StreamingRefinesBatch` states when the
  totals agree: if and only if no lead with a Maps URL starts with an empty website. The leads always
  end the same.
- *"No call starts within the recovery timeout of the latest failure" is false below the failure
  threshold*, where the breaker is closed and lets every call through. `AdmittedExactly` is the exact
  condition, in terms of the log of events.
- *"A host that always fails gets min(max_attempts, threshold - f) calls if every backoff is shorter
  than the recovery timeout" is false for a policy that retries CircuitOpen*, as the default
  `retryable_exceptions` of app/network/retry_strategy.py:23 does: the delays add up.
  `ShortBackoffsAreNotEnough` is the concrete run and `FailingRequestCalls` the exact condition. Under
  the session's own policy, which does not retry CircuitOpen, the statement holds
  (`FailingRequestEnds`).
- *An acquire of more tokens than the capacity never returns*; `GrantableIffWithinCapacity` gives both
  directions, and the other limiter results ask for at most the capacity.
- *A scroll run that uses its last attempt does not report the limit even when it was met*: the
  contract of `ScrollUntil` says when each flag is set, in both directions.
- *A page's links are deduplicated across platforms* (app/enrichment/social/dedup.py:13-30), so a link
  of one platform can hide a later one of the other that normalizes to the same URL; `PageOffer` says
  exactly which link a platform is offered.

## Model

| member | source | states |
|---|---|---|
| PipelineModel.Footprint | app/pipeline/orchestrator.py:322-417 | Whatever a coroutine does between two awaits, it changes at most its own position, takes from the front or adds to the back of a queue, and takes or returns one page |
| PipelineModel.ShapeStep | app/pipeline/orchestrator.py:305-306 | Neither queue ever exceeds its bound and every item in flight is a real lead or a sentinel |
| PipelineInvariant.InvRun | app/pipeline/orchestrator.py:322-417 | Placement of leads, pages, sentinels and their order is kept over whole runs |
| PipelineInvariant.PlacesStep | app/pipeline/orchestrator.py:328-397 | Each action keeps every lead in exactly one of: unfed, to_enrich, an enrichment worker, to_social, a social worker, done |
| PipelineInvariant.PagesStep | app/discovery/google_maps/browser_pool.py:77-83 | Free pages plus pages in workers' hands stay the pool size |
| PipelineInvariant.SentinelsStep | app/pipeline/orchestrator.py:325-326 | Sentinels sent to a queue are those still in it plus the workers that returned on one |
| PipelineInvariant.EnricherOrdered | app/pipeline/orchestrator.py:328-351 | An enrichment worker's action never puts a lead behind a sentinel |
| PipelineProgress.Conservation | app/pipeline/orchestrator.py:322-397 | In every reachable state every lead is in exactly one place, pages are conserved, nothing is queued behind a sentinel, and at most 3 * (EW + SW) leads are between fed and done |
| PipelineProgress.FinishedHandledAllOnce | app/pipeline/orchestrator.py:349-417 | A finished run handled every lead exactly once, even when lookups raise or cancellation is set; both queues are empty, every worker returned and every page is back |
| PipelineProgress.NoDeadlock | app/pipeline/orchestrator.py:305-417 | In every reachable unfinished state some coroutine can move, for any number of workers and pages from one up |
| PipelineProgress.StuckMeansFinished | app/pipeline/orchestrator.py:411-417 | A reachable state in which nothing but cancellation can happen is finished |
| PipelineProgress.SocialConsumer | app/pipeline/orchestrator.py:355-359 | While something is queued for the social workers, one of them has not returned |
| PipelineProgress.EnrichConsumer | app/pipeline/orchestrator.py:328-332 | While something is queued for the enrichment workers, one of them has not returned |
| PipelineProgress.MeasureStep | app/pipeline/orchestrator.py:322-417 | A weighted measure over leads and sentinels falls at every action of every schedule |
| PipelineProgress.EveryRunIsBounded | app/pipeline/orchestrator.py:322-417 | Every run has at most 10 n + 2 EW + 2 SW + 3 actions |
| PipelineProgress.CallsBegunAtMostOnce | app/pipeline/orchestrator.py:334-370 | Enrichment and discovery are begun at most once per lead in any run |
| PipelineProgress.NothingBegunAfterCancel | app/pipeline/orchestrator.py:334-363 | After the cancel flag is set no lookup and no discovery begins |
| PipelineOutcome.FinishedOutcome | app/pipeline/orchestrator.py:328-397 | A finished run, cancelled at any moment or not: only a lookup begun changes a website, social fields are the clean-up of a lead's own or of what its discovery gave, calls are begun only for leads that want them, and every lookup begun and every lead with a URL missing is counted once |
| PipelineOutcome.CallsExactly | app/pipeline/orchestrator.py:308-365 | Without cancellation a lookup is begun exactly for leads with no website but a Maps URL, and discovery exactly for those with one of the two URLs None |
| PipelineOutcome.OutcomeRun | app/pipeline/orchestrator.py:328-397 | What every run keeps about calls begun, fields changed and calls counted |
| LeadFields.EnrichedByFields | app/enrichment/google_maps/batch.py:28-51 | When a lead is looked up, and what the lookup changes, on its fields |
| LeadFields.SelectedByFields | app/pipeline/orchestrator.py:227-237 | A lead with either URL gets both of the engine's, and keeps each confidence exactly when that platform's chosen URL is one |
| LeadFields.CountedByFields | app/pipeline/orchestrator.py:375-395 | What handling a lead counts, from its URLs before discovery, after it and after selection |
| PipelineBatch.EnrichBatch | app/enrichment/google_maps/workers.py:27-61 | In whatever order the tasks finish, exactly the leads that need it are enriched, a raised lookup leaving its lead alone |
| PipelineBatch.DiscoverSocialBatch | app/enrichment/social/workers.py:27-55 | In whatever order the tasks finish, exactly the leads with one of the two URLs None are discovered |
| PipelineBatch.WebsiteEnrichmentStage | app/pipeline/orchestrator.py:150-173 | The stage's leads and its completed and failed totals |
| PipelineBatch.SocialDiscoveryStage | app/pipeline/orchestrator.py:176-207 | The stage's leads and its completed and failed totals |
| PipelineBatch.SelectAll | app/pipeline/orchestrator.py:227-237 | The selection loop applies the engine to each lead that has a URL and clears the confidence of each URL it drops |
| PipelineBatch.UrlSelectionStage | app/pipeline/orchestrator.py:210-247 | The stage's leads and the numbers of leads with a URL before and after |
| PipelineBatch.SelectionCounts | app/pipeline/orchestrator.py:225-241 | Counting before and after the loop equals adding up the per-lead contributions |
| PipelineBatch.JourneyOf | app/pipeline/orchestrator.py:150-247 | Each lead is looked up, discovered and cleaned up as its fields say |
| PipelineBatch.BatchTotals | app/pipeline/orchestrator.py:150-247 | The six totals are numbers of leads: of those looked up with and without a website found, of those with a URL missing that end with and without one, of those with a URL before and after selection |
| PipelineBatch.RunBatch | app/pipeline/orchestrator.py:150-247 | The three stages in order take each lead through its journey, field by field, and count the leads the totals are about |
| PipelineRefinement.EnricherTracks | app/pipeline/orchestrator.py:328-351 | An enrichment worker's action keeps every lead and the counters where the batch stages would have them |
| PipelineRefinement.SocialTracks | app/pipeline/orchestrator.py:355-397 | So does a social worker's action |
| PipelineRefinement.TracksRun | app/pipeline/orchestrator.py:322-417 | So does every run |
| PipelineRefinement.StreamTotals | app/pipeline/orchestrator.py:312-395 | The streaming totals are numbers of leads too, those looked up with an empty website among them |
| PipelineRefinement.StreamingJourney | app/pipeline/orchestrator.py:286-438 | Every finished uncancelled run takes each lead through its journey, field by field, and counts the leads the totals are about |
| PipelineRefinement.StreamingRefinesBatch | app/pipeline/orchestrator.py:286-438 | Every finished uncancelled run leaves each lead as the batch stages do; totals agree exactly when no looked-up lead starts with an empty website |
| PipelineRun.SomebodyMoves | app/pipeline/orchestrator.py:322-417 | As long as the run is unfinished some coroutine is not blocked |
| PipelineRun.StreamingPipeline.FeederStep | app/pipeline/orchestrator.py:322-326 | The feeder's next put: leads in order, then one sentinel per enrichment worker, blocking at the bound |
| PipelineRun.StreamingPipeline.EnricherReceives | app/pipeline/orchestrator.py:330-334 | What an enrichment worker does with the item it gets |
| PipelineRun.StreamingPipeline.EnricherReturns | app/pipeline/orchestrator.py:336-346 | What it does when the lookup ends, raised or not |
| PipelineRun.StreamingPipeline.EnrichmentWorkerStep | app/pipeline/orchestrator.py:328-351 | The worker moves exactly when what it awaits is there, and as its position says |
| PipelineRun.StreamingPipeline.CleanUp | app/pipeline/orchestrator.py:383-393 | The inline selection, field by field |
| PipelineRun.StreamingPipeline.CountLead | app/pipeline/orchestrator.py:375-395 | The counters a social worker bumps for a lead |
| PipelineRun.StreamingPipeline.FinishLead | app/pipeline/orchestrator.py:375-395 | Counting and inline selection of one lead |
| PipelineRun.StreamingPipeline.SocialReceives | app/pipeline/orchestrator.py:357-365 | What a social worker does with the item it gets |
| PipelineRun.StreamingPipeline.SocialWorkerStep | app/pipeline/orchestrator.py:355-397 | The worker moves exactly when what it awaits is there, and as its position says |
| PipelineRun.StreamingPipeline.MainStep | app/pipeline/orchestrator.py:411-416 | The main task joins the enrichment side, sends one sentinel per social worker, and joins them |
| PipelineRun.StreamingPipeline.Run | app/pipeline/orchestrator.py:286-417 | Under any schedule the run ends, with the leads of the batch stages, the streaming totals as numbers of leads, and a lookup and a discovery begun for exactly the leads that want one |
| CircuitBreaker.StateFromLog | app/network/circuit_breaker.py:53-80 | The breaker is a function of its event log: failure count, state, opening time and half-open calls, for any interleaving |
| CircuitBreaker.AdmittedExactly | app/network/circuit_breaker.py:53-65 | A call starts if and only if fewer failures than the threshold were settled since the last success, or it is one of the first half-open calls after the recovery timeout |
| CircuitBreaker.HalfOpenExactly | app/network/circuit_breaker.py:53-80 | HALF_OPEN holds if and only if, at or above the threshold, a call was admitted at least the recovery timeout after the latest failure with nothing settled since |
| CircuitBreaker.EpisodeInFlight | app/network/circuit_breaker.py:62-65 | A half-open episode admits at most half_open_max_calls calls, all of them still in flight |
| CircuitBreaker.NeverStuckHalfOpen | app/network/circuit_breaker.py:67-91 | While HALF_OPEN some call is in flight, and whichever settles next leaves HALF_OPEN |
| CircuitBreaker.Breaker.AdmitCall | app/network/circuit_breaker.py:53-65 | The gate changes the fields as specified and admits exactly when the log says so |
| CircuitBreaker.Breaker.CallSucceeded | app/network/circuit_breaker.py:67-70 | A success closes the breaker from any state |
| CircuitBreaker.Breaker.CallFailed | app/network/circuit_breaker.py:72-80 | A failure counts, and opens the breaker from HALF_OPEN or at the threshold |
| RateLimiter.BucketBounds | app/network/rate_limiter.py:23-30 | The bucket always holds between nothing and its capacity |
| RateLimiter.WindowPotential | app/network/rate_limiter.py:21-35 | What was granted since an instant plus what is left never exceeds a full bucket plus the refill since |
| RateLimiter.WindowBound | app/network/rate_limiter.py:12-35 | In any run with any number of acquirers, tokens granted within [s, e] total at most capacity + rate * (e - s) |
| RateLimiter.RefusedCheckInvisible | app/network/rate_limiter.py:23-26 | A refused check does not change what the bucket holds at any later time |
| RateLimiter.WaitSuffices | app/network/rate_limiter.py:32-35 | After the computed wait the tokens are there if nobody else took any |
| RateLimiter.WaitIsExact | app/network/rate_limiter.py:32-35 | The computed wait is exact: at any later time the tokens are there if and only if it has passed, unless somebody else took any |
| RateLimiter.RefusedAgainOnlyAfterGrant | app/network/rate_limiter.py:21-35 | A re-check after the computed wait is refused only if another check was granted in between |
| RateLimiter.ChecksBounded | app/network/rate_limiter.py:21-35 | One acquire makes at most 2 + (grants to others while it waits) checks |
| RateLimiter.GrantableIffWithinCapacity | app/network/rate_limiter.py:20-35 | An acquirer alone is granted at some time if and only if it asks for at most the capacity |
| RateLimiter.Round | app/network/rate_limiter.py:23-34 | The arithmetic of one round: capped refill, tokens taken if there, and a wait of exactly the deficit over the rate |
| RateLimiter.Limiter.CheckOnce | app/network/rate_limiter.py:22-34 | One round on the object: tokens, decision and wait in plain arithmetic, and the returned wait exact |
| RateLimiter.Limiter.Acquire | app/network/rate_limiter.py:20-35 | The whole loop among other acquirers' rounds, with the bound on its checks |
| RetryPolicy.CallsExactly | app/network/retry_strategy.py:38-52 | The function is called exactly up to its first success, first non-retryable error or max_attempts, and RetryExceeded is raised exactly when neither comes first |
| RetryPolicy.TotalSleep | app/network/retry_strategy.py:25-28 | n delays sleep at most n * jitter + min(base * (2^n - 1), n * max_delay) |
| RetryPolicy.BackoffDoubles | app/network/retry_strategy.py:25-28 | Without jitter the first delay is the base delay and each further one twice the one before, until max_delay |
| RetryPolicy.Execute | app/network/retry_strategy.py:30-52 | The loop: result, exact number of calls, on_retry told 1, 2, 3, ... with each error, every delay, and the bound on their sum; zero or fewer attempts never call |
| GuardedRequest.Request | app/network/session_manager.py:125-160 | The whole request: counted open, granted by the limiter once, retried under the breaker as a run of the retry engine, counted as a success or failure with its retries; the breaker's log gains the story of its attempts, and a value leaves the breaker closed with no failure counted |
| GuardedRequest.RateLimitedCall | app/network/session_manager.py:148-150 | The limiter once, then the retry loop |
| GuardedRequest.ExecuteGuarded | app/network/session_manager.py:141-150 | The retry loop around the breaker around the transport: each attempt is logged, with how its answer settled and when, and one retry is recorded per attempt beyond the first |
| GuardedRequest.OneAttempt | app/network/circuit_breaker.py:82-91 | One guarded call: refused, or let through and logged as a success or a failure when the answer comes |
| GuardedRequest.ValueCloses | app/network/circuit_breaker.py:67-70 | After a request that ends in a value the breaker is closed with no failure counted |
| GuardedRequest.EventsSettle | app/network/circuit_breaker.py:53-91 | One attempt on the breaker's fields is what the attempt and its settlement in the log make of them |
| GuardedRequest.StoryIsProgress | app/network/session_manager.py:141-150 | What a request leaves in the breaker's log agrees with the steps on the breaker's fields |
| GuardedRequest.StoryEnds | app/network/session_manager.py:125-160 | So every story a request leaves is a request that ended, to which the results on failing hosts below apply |
| GuardedRequest.WhileClosed | app/network/circuit_breaker.py:72-80 | On a failing host every attempt before the threshold reaches the transport, and the one that meets it opens the breaker |
| GuardedRequest.WhileOpen | app/network/circuit_breaker.py:53-60 | After that the transport is not called while the delays add up to less than the recovery timeout, and is called again once they do not |
| GuardedRequest.FailingRequestCalls | app/network/session_manager.py:125-160 | A request on a failing host makes exactly min(max_attempts, threshold - f) transport calls if and only if the delays after the opening stay below the recovery timeout |
| GuardedRequest.FailingRequestEnds | app/network/session_manager.py:125-160 | When CircuitOpen is not retried and each delay is short it makes exactly that many, ending in RetryExceeded or in CircuitOpen |
| GuardedRequest.ShortBackoffsAreNotEnough | app/network/retry_strategy.py:23-52 | A concrete run in which every delay is short but CircuitOpen is retried, and the host is called once more |
| RequestAccounting.MetricsStep | app/network/network_metrics.py:34-52 | Every step of any request keeps the metrics equal to what the requests say |
| RequestAccounting.BudgetStep | app/network/session_manager.py:148-150 | Every step keeps transport calls, plus attempts still owed, within max_attempts per granted token |
| RequestAccounting.CallsAgreeStep | app/network/session_manager.py:141-142 | Every step keeps the breaker's calls in flight equal to the calls requests have under way |
| RequestAccounting.RequestsAccountedFor | app/network/network_metrics.py:34-52 | After any concurrent run total = successful + failed, open connections are the requests in flight, and retries are the attempts beyond the first |
| RequestAccounting.PhaseFromSteps | app/network/session_manager.py:152-160 | A request succeeds if and only if the transport's last answer was a response, and fails with an error if and only if that was its last answer or the breaker refused its last attempt |
| RequestAccounting.RetriesExactly | app/network/retry_strategy.py:38-47 | A failing request goes on if and only if its policy retries the error and it has made fewer attempts than allowed |
| RequestAccounting.AttemptDecides | app/network/circuit_breaker.py:53-65 | An attempt is let through if and only if its host's log says so, and is logged either way |
| RequestAccounting.MetricsFromSteps | app/network/network_metrics.py:34-52 | The metrics counted in the steps: requests ended, those answered last by a response and the others, those begun and not ended, and retries |
| RequestAccounting.ClampNeverActs | app/network/network_metrics.py:42 | The max(0, ...) of the open-connections counter never acts |
| RequestAccounting.TransportCallsBounded | app/network/session_manager.py:125-160 | Transport calls to a host are at most max_attempts * (capacity + rate * T), T since its limiter was created |
| RequestAccounting.OtherHostsUntouched | app/network/session_manager.py:74-93 | A run without steps for a host leaves its limiter, breaker and calls unchanged, or absent |
| RequestAccounting.NoHostStuckHalfOpen | app/network/session_manager.py:141-142 | In any run a half-open breaker has a request's call under way, and the first to settle ends HALF_OPEN |
| NetworkMetrics.Counters.RecordRequestStart | app/network/network_metrics.py:34-37 | Counts the connection open |
| NetworkMetrics.Counters.RecordRequestEnd | app/network/network_metrics.py:39-48 | Counts the request once, by outcome, and clamps the open connections |
| NetworkMetrics.Counters.RecordRetry | app/network/network_metrics.py:50-52 | Counts one retry |
| SessionManager.SessionManager.RateLimiterFor | app/network/session_manager.py:74-84 | Get-or-create: the host's own limiter, or a fresh full one; every other entry unchanged |
| SessionManager.SessionManager.CircuitBreakerFor | app/network/session_manager.py:86-93 | Get-or-create: the host's own breaker, or a fresh closed one; every other entry unchanged |
| SessionManager.SessionManager.CheckLimiter | app/network/session_manager.py:148-149 | A check of one host leaves every other host's limiter as it was |
| SessionManager.SessionManager.FailCall | app/network/session_manager.py:141-142 | A failure of one host leaves every other host's breaker as it was |
| Selection.TwoTiersDecide | app/selection/ranking.py:69-80 | A confidence two tiers higher always outranks, and duplicates differ by confidence and source only |
| Selection.OneTierDoesNotDecide | app/selection/ranking.py:69-80 | One tier can be outweighed by source and URL quality |
| Selection.SourceOrder | app/selection/ranking.py:22-29 | All else equal, json_ld and meta outrank footer and header, those outrank anchor, anchor the rest, and within a class they tie |
| Selection.UrlOrder | app/selection/ranking.py:33-66 | All else equal, a profile URL, then the expected domain, then query and path decide, with the exact ties |
| Selection.Deduplicate | app/selection/dedup.py:16-38 | Keeps for each (platform, URL), in order of first appearance, the first best candidate; passes the unusable through in order; and counts every other candidate as a duplicate |
| Selection.DeduplicateIdempotent | app/selection/dedup.py:16-38 | Deduplicating the output again changes nothing |
| Selection.RankIsStableSort | app/selection/ranking.py:83-87 | Ranking is a permutation in descending order that keeps the order of equal scores |
| Selection.RankedFirstIsBest | app/selection/ranking.py:86-87 | The first of the ranking is the first candidate of maximal score |
| Selection.ChosenWins | app/selection/engine.py:41-49 | The URL chosen has the maximal score over all usable candidates of the platform before deduplication, and among maximal URLs is the one first seen earliest; none is chosen only if there is no usable candidate |
| Selection.WinnersAgree | app/selection/engine.py:41-49 | That condition determines the URL |
| Selection.Select | app/selection/engine.py:29-55 | Both platforms' URLs are such winners, and candidates = distinct usable + rejected + duplicates in the metrics |
| Selection.FinalPassNormalizes | app/pipeline/orchestrator.py:99-123 | Over one discovered lead the engine only cleans up: each platform keeps the normalized form of its own URL or nothing |
| SocialDiscovery.DeduplicateLinks | app/enrichment/social/dedup.py:13-30 | Keeps the links that are the first to normalize to their URL, normalized, in order |
| SocialDiscovery.PageOffer | app/enrichment/social/batch.py:87-105 | Which link of a page a platform is offered, and when none |
| SocialDiscovery.FirstTierWins | app/enrichment/social/batch.py:29-148 | Each platform gets the first of existing URL, website itself, website link, search result, with exactly that tier's confidence; an existing URL never changes |
| SocialDiscovery.Lead.UseWebsite | app/enrichment/social/batch.py:56-77 | A website that is itself a platform is used for it, with HIGH confidence, unless it cannot be normalized |
| SocialDiscovery.Lead.UseLinks | app/enrichment/social/batch.py:87-105 | Missing platforms take the first link of the website |
| SocialDiscovery.Lead.UseSearch | app/enrichment/social/batch.py:110-136 | The search is asked for exactly the missing platforms; if a lookup raises nothing is assigned |
| SocialDiscovery.Lead.Discover | app/enrichment/social/batch.py:29-148 | The whole discovery: when it fetches, when it raises and with what left, and each platform's URL and confidence string by tier, on the lead's fields |
| BrowserPool.PoolSafe | app/discovery/google_maps/browser_pool.py:38-93 | Over any run, failed and repeated starts included, each entry is in the queue or held, in one place; at most size are held; contexts opened minus closed are those tracked; no context is closed twice |
| BrowserPool.StopClosesEverything | app/discovery/google_maps/browser_pool.py:85-93 | After a stop every context ever opened has had its close attempted exactly once |
| BrowserPool.StartAddsEach | app/discovery/google_maps/browser_pool.py:42-54 | A start of n creations that all succeed adds n new entries to the queue and nothing else |
| BrowserPool.StartTracksCreated | app/discovery/google_maps/browser_pool.py:47-54 | Whatever fails, one new entry is tracked and queued for each creation that succeeded |
| BrowserPool.BrowserContextPool.Start | app/discovery/google_maps/browser_pool.py:38-75 | Every created entry is tracked and queued even when others fail; a failed start leaves the pool unstarted |
| BrowserPool.BrowserContextPool.Acquire | app/discovery/google_maps/browser_pool.py:77-81 | Takes the oldest entry of the queue |
| BrowserPool.BrowserContextPool.Release | app/discovery/google_maps/browser_pool.py:82-83 | Puts the entry back at the end |
| BrowserPool.BrowserContextPool.Stop | app/discovery/google_maps/browser_pool.py:85-93 | Attempts each close once, whichever raise, and empties the pool |
| ScrollEngine.PauseGrows | app/discovery/google_maps/scroll_engine.py:94 | The step-by-step backoff is min(base * 1.5^stall, 4 * base) |
| ScrollEngine.WaitForProgress | app/discovery/google_maps/scroll_engine.py:60-74 | Returns the first higher count, or the last one after sleeping the full window |
| ScrollEngine.ScrollUntil | app/discovery/google_maps/scroll_engine.py:76-102 | Every scroll's window and sleep, and exactly when each flag is set; the flags exclude each other |
| ScrollEngine.ScrollsBounded | app/discovery/google_maps/scroll_engine.py:82-102 | At most max_total scrolls, and at most max_stall * (productive scrolls + 1) |
| ScrollEngine.ScrollsBoundedByRoom | app/discovery/google_maps/scroll_engine.py:82-102 | At most max_stall * (limit - initial + 1) when counts never fall and the first is at most the limit |
| ScrollEngine.SleepBounded | app/discovery/google_maps/scroll_engine.py:82-102 | Total sleep is at most 4 * base per scroll |
| ScrollEngine.StalledExit | app/discovery/google_maps/scroll_engine.py:92-96 | The scrolls of a stall showed no increase and the count is below the limit |
| MemoryCache.EvictionUnobservable | app/cache/memory_cache.py:27-48 | For any history under a monotone clock every lookup answers as an ideal timed map that never evicts |
| MemoryCache.CacheIsIdeal | app/cache/memory_cache.py:22-48 | In particular from an empty cache |
| MemoryCache.LookupExactly | app/cache/memory_cache.py:27-48 | A lookup answers the value last set under the key and not deleted or cleared since, up to and including its deadline, and None otherwise |
| MemoryCache.ClockMustNotRunBackwards | app/cache/memory_cache.py:32-34 | A clock that ran backwards would make eviction observable |
| MemoryCache.Cache.Get | app/cache/memory_cache.py:27-35 | Answers from the history of the cache alone, evicting the entry if it has expired |
| MemoryCache.Cache.Set | app/cache/memory_cache.py:37-40 | Replaces the key's entry, with the default lifetime unless one is given |
| EnrichmentCache.SameKeySameOutcome | app/enrichment/google_maps/cache.py:27-29 | URLs with one cache key are looked up alike, when URLs of one place are |
| EnrichmentCache.CacheTransparent | app/enrichment/google_maps/batch.py:18-51 | In any order, interleaving and lifetime, leads end with the websites the browser finds at their own URLs, confirmed-absent ones included |
| EnrichmentCache.SamePlaceHits | app/enrichment/google_maps/cache.py:27-35 | A cached result answers for every URL of the same place until it expires |
| EnrichmentCache.OtherPlaceUntouched | app/enrichment/google_maps/cache.py:27-35 | It does not answer for another place |
| EnrichmentCache.NoSecondLookup | app/enrichment/google_maps/cache.py:31-35 | Once a lead's result is saved, every check of a lead of the same place within the lifetime is a hit, whatever happens in between |
| EnrichmentCache.HitsWhileFresh | app/enrichment/google_maps/cache.py:31-35 | Every check of a key whose entry has not expired is a hit, whatever happened in between |
| EnrichmentCache.EnrichOne | app/enrichment/google_maps/batch.py:18-51 | One lead: hit, miss, raised lookup; the lead ends as without the cache, and a page is used only on a miss |
| EnrichmentCache.Cache.Get | app/enrichment/google_maps/cache.py:27-32 | Looks up the place id, or the URL when there is none |
| EnrichmentCache.Cache.Set | app/enrichment/google_maps/cache.py:34-35 | Caches the website wrapped, so that a missing one is a hit too |

## Left out

- Browser navigation, selectors, HTML and JSON-LD parsing, search-engine queries, HTTP client, hooks, TLS: I/O; they appear as arbitrary outcomes.
- URL normalization, canonical-profile patterns and place-id extraction: they rest on regular expressions and URL parsing and are opaque functions here.
- Hard cancellation of a task: exception handlers do not see it, and it is not among the actions.
- Floating-point rounding and clock resolution: reals and exact clock readings are used instead.
- Latency averages, stage times, benchmarks and other wall-clock metrics, and the discovery metrics: measurement only.
- Calling `BrowserContextPool.stop` while a page is held: the stop replaces the queue, and the page would come back to the new one; the model stops only when none is held.
- Closing a context that failed to get a page may itself raise: the model has that close succeed.
- Selection.Select: always has a metrics object; without one nothing else changes.
- GuardedRequest.Request: the breaker sees no other call while it runs; concurrent requests of a host are the transition system of `RequestAccounting`.
- EnrichmentCache.CacheTransparent: takes for granted that URLs of one place lead to one outcome, and leaves out a URL without a place id that reads like another's place id, which would share its entry.
- Maps lead deduplication, user agents, validators, schemas, settings, CSV export, the web API: only easy members.
