# Verified models of the real-time bidder

The bidder answers OpenRTB requests. It reserves campaign budget from shared counters, hedges slow Redis reads with a token bucket, guards Redis with a circuit breaker, caps ad frequency through a cache in front of Redis, retrieves campaigns through inverted indices, ranks them, and publishes events and win notices. This project states what those parts keep, over all inputs and all runs, and proves it.

Concurrent parts are modelled twice. A *step system* has one step per atomic operation or lock acquisition, a function `Fire` from a state and an action to the next state, and a function `Run` over a list of actions; its theorems hold for every list of actions and any number of tasks. A *class* models the same code as the object one task uses, with a contract on each method.

| file | subject |
|---|---|
| `BudgetLedger`, `LocalPacer`, `Auction`, `ConcurrentAuctions` | budget counters: interleaved, as an object, over a whole auction, and over many auctions at once |
| `Pipeline` | the nine stages and every way a run of them can end |
| `HedgeTokens` | the hedge token bucket |
| `CircuitBreaker`, `BreakerRuns` | the breaker as an object, and many callers of one breaker |
| `FrequencyKeys`, `FrequencyCap`, `WriteBehind`, `StaleCaps` | cap keys, the two cappers, the path of an impression to Redis, and both together |
| `Catalog` | index construction and retrieval against a linear scan |
| `CandidateLimit`, `Cascade`, `MlScorer` | selection and scoring |
| `KafkaIncident` | publishing, sampling and the incident monitor |
| `WinDedup`, `NoticeUrl`, `Decimal` | win notices: dedup and the URL |
| `Common` | shared types and sums over sequences |

`dafny verify dfyconfig.toml` checks everything.

## What does not hold

Some properties one would expect are false of the code. Each has a concrete case and its exact condition.

- A reservation can be refused while the whole budget is left (`RefusedWithBudgetLeft`); it is granted exactly when what is left exceeds the subtractions that other tasks have yet to undo (`GrantedIff`).
- Two candidates of one campaign in one impression can leave its reservation stranded (`TwoCreativesStrand`). Nothing is stranded exactly when the campaign has no budget to begin with or its candidates fit one after the other (`StrandedIff`). Retrieval never produces two (`EagerListDistinct`).
- A deadline between pacing and ranking keeps the reservations of all survivors, one between ranking and the response those of the winners (`OneCutRun`); `Execute` says exactly when either happens.
- The spend bound of an epoch counts releases of earlier reservations in its favour: its own reservations can hold more than budget plus one bid (`OwnSpendAttained`), by what earlier epochs give back and no more (`OwnSpendBounded`).
- The hedge bucket never refills (`NothingMinted`, `ShedOnceThenHealthy`): with nothing in flight it is full exactly when no token was ever clamped away or lost to a cancelled call (`FullIff`). Another hedge is possible exactly when one is in flight, or a token is left and some task can come to it without wiping the bucket (`CanHedgeIff`).
- An in-process frequency check that takes the half-open probe slot wedges the breaker (`InProcessProbeWedges`), and every fresh breaker that can open gets there (`StartReachesWedge`); the half-open state can be left exactly when an admitted call is outstanding (`LeavesHalfOpenIff`).
- A breaker whose window is smaller than `min_calls` never opens (`OpensIff`).
- In the in-process capper, a campaign that is cold and listed twice keeps a placeholder verdict (`PatchedVerdicts`).
- Evicting a cache entry counts an impression nobody saw (`EvictionCountsPhantom`); the counters are right exactly when no such entry was evicted (`CountsImpressionsIff`).
- Wins do not reach the in-process cache: any number of them leaves a cached verdict as it is (`WinsUnseen`). A warm pair stays in step with Redis exactly as long as no write of it lands (`StaleIff`).
- An incident keeps itself alive through its own sampling: no sequence of healthy windows of two or more calls ends it as long as none starts with more than 97 messages unacknowledged (`HealthyWindowsKeepIt`; runs from the start in `HealthyRunOutlived`). With a backlog a healthy broker can end it (`BacklogEndsIt`). It ends exactly when the last dwell windows were all under the threshold (`FlipIff`), and exactly when a window is over is known in advance (`WindowOverIff`, `HealthyWindowOverIff`).
- Two notices with different ids can share a dedup key (`SharedKeyIff`). What the store spaces by the time to live is the SETs; the side effects are so spaced exactly when no handler delays them (`ApartIff`).
- A notice base URL serves every notice exactly when it has neither a question mark nor a number sign of its own (`QueryIsParamsIff`).

## Where comments and code disagree

The models follow the code.

- Breaker thresholds are inclusive (`breaker/mod.rs:197-198`); the comment at line 115 says ">".
- On equal prices the limit stage keeps the lower campaign id (`candidate_limit.rs:84`), against the comment at line 81.
- `budget_pacing.rs:43` speaks of releasing reservations; that code releases nothing.
- `restore` is said never to exceed the cap (`hedge.rs:54`); it does so between its add and its clamp, by at most one per restore under way.
- A cap of zero always caps.

## Model

| member | source | states |
|---|---|---|
| `BudgetLedger.OvershootBounded` | bidder-core/src/pacing/local.rs:41-83 | in every interleaving of any number of tasks with bids up to maxBid, grants minus releases since the last reload are not positive or stay below budget + maxBid |
| `BudgetLedger.OvershootAttained` | bidder-core/src/pacing/local.rs:52-61 | some run reaches the bound, for every maxBid |
| `BudgetLedger.OwnSpendBounded` | bidder-core/src/pacing/local.rs:66-83 | what the reservations made since the reload hold is at most what earlier ones gave back since, or below budget + maxBid + that |
| `BudgetLedger.OwnSpendAttained` | bidder-core/src/pacing/local.rs:66-83 | for every maxBid from 2 a run reaches that bound and exceeds budget + maxBid |
| `BudgetLedger.CounterConserved` | bidder-core/src/pacing/local.rs:41-83 | with no undo pending, a counter is its budget less the net grants |
| `BudgetLedger.GrantedIff` | bidder-core/src/pacing/local.rs:52-61 | in every reachable state a reservation is granted iff the remaining budget exceeds the subtractions not yet undone |
| `BudgetLedger.RefusedWithBudgetLeft` | bidder-core/src/pacing/local.rs:52-61 | a reachable state refuses a task although the whole budget is left |
| `BudgetLedger.RunKeepsInv` | bidder-core/src/pacing/local.rs:41-83 | every run keeps: counter plus pending undos equals budget less net grants, and the overshoot bound |
| `BudgetLedger.ReachableInv` | bidder-core/src/pacing/local.rs:41-83 | that invariant holds in every reachable state |
| `LocalPacer.LocalBudgetPacer.CheckAndReserve` | bidder-core/src/pacing/local.rs:41-64 | takes the bid iff the campaign has a positive counter; otherwise the counters are as before |
| `LocalPacer.LocalBudgetPacer.Release` | bidder-core/src/pacing/local.rs:66-72 | adds the bid back if the campaign is known |
| `LocalPacer.LocalBudgetPacer.Reload` | bidder-core/src/pacing/local.rs:74-83 | the last entry of each listed campaign becomes its counter; unlisted campaigns stay as they are |
| `LocalPacer.ReleaseUndoesReserve` | bidder-core/src/pacing/local.rs:41-72 | releasing a granted reservation restores all counters |
| `Auction.PacingLedger` | bidder-core/src/pipeline/stages/budget_pacing.rs:28-38 | for every list the counters fall by exactly the granted bids; a campaign never refused was granted all of them |
| `Auction.StrandedIff` | bidder-core/src/pipeline/stages/budget_pacing.rs:30-48 | for every list and all bids, the counter falls by just the survivors' bids iff the campaign has no budget at the start or each of its candidates finds budget left by those before it |
| `Auction.TwoCreativesStrand` | bidder-core/src/pipeline/stages/budget_pacing.rs:30-48 | two creatives of a campaign that bids its whole budget: no survivor, and the budget is gone |
| `Auction.RefusedIff` | bidder-core/src/pipeline/stages/budget_pacing.rs:30-38 | a campaign with budget is refused iff some candidate of it does not fit, and then its counter is used up |
| `Auction.PacingHoldsSurvivors` | bidder-core/src/pipeline/stages/budget_pacing.rs:23-49 | with one candidate per campaign the survivors are exactly the granted ones, and the counters fall by their bids |
| `Auction.PacingCostsSurvivors` | bidder-core/src/pipeline/stages/budget_pacing.rs:23-49 | the same over all impressions of a request |
| `Auction.Best` | bidder-core/src/pipeline/stages/ranking.rs:36-41 | no candidate beats the winner by score and then price, and it is the last such one |
| `Auction.ReleasingLedger` | bidder-core/src/pipeline/stages/ranking.rs:43-47 | releasing gives back every bid of the other campaigns and nothing of the winner's |
| `Auction.RankingReleases` | bidder-core/src/pipeline/stages/ranking.rs:28-56 | ranking raises each counter by all bids held less what its winners bid |
| `Auction.AuctionCostsWinners` | bidder-core/src/pipeline/stages/ranking.rs:28-56 | pacing then ranking lowers every counter by exactly what its winners bid |
| `Auction.WinnersAreBest` | bidder-core/src/pipeline/stages/ranking.rs:28-56 | one winner for each impression with candidates, in order, each the best of its own impression |
| `ConcurrentAuctions.AuctionsCostWinners` | bidder-core/src/pipeline/stages/ranking.rs:28-56 | any number of requests interleaved at the atomic steps: once none is midway, each counter is its start less the winners' bids of finished requests and the survivors' bids of those cut before ranking; survivors are offered candidates, and which ones the steps keep is `ReserveGrants` |
| `ConcurrentAuctions.RunKeepsInv` | bidder-core/src/pipeline/stages/budget_pacing.rs:23-49 | at every point of every such run, a counter and what all requests hold of it add up to its start |
| `ConcurrentAuctions.MoveBalanced` | bidder-core/src/pacing/local.rs:41-72 | each step changes a counter by just what it changes its request's holding; which step is taken is `ReserveGrants` |
| `ConcurrentAuctions.RunTracks` | bidder-core/src/pipeline/stages/budget_pacing.rs:23-49 | no impression is lost and no candidate invented |
| `ConcurrentAuctions.ReserveGrants` | bidder-core/src/pacing/local.rs:41-64 | a reservation is kept iff the campaign has a positive counter; otherwise its subtraction, if there was one, is to be undone |
| `ConcurrentAuctions.AloneIsSequential` | bidder-core/src/pipeline/stages/budget_pacing.rs:23-49 | a request that meets no other takes its steps to exactly the survivors and counters of sequential pacing and then of sequential ranking |
| `ConcurrentAuctions.HeldWithinBudget` | bidder-core/src/pacing/local.rs:41-83 | at every point of every such run with bids up to maxBid, what all requests hold of a campaign, apart from subtractions about to be undone, is nothing or less than its budget plus maxBid |
| `ConcurrentAuctions.CutForGood` | bidder-core/src/pipeline/mod.rs:44-55 | a request cut before ranking keeps its survivors' reservations through every continuation |
| `Pipeline.BidContext.constructor` | bidder-core/src/model/context.rs:37-50 | a pending context with one empty list per impression, at least one |
| `Pipeline.BidPipeline.Execute` | bidder-core/src/pipeline/mod.rs:41-111 | for every request and deadline pattern: the exact lists after each stage (top K of what was retrieved, scored, without what the capper caps, paced), which of the five outcomes it is and that it is never Pending, when the deadline cuts after pacing or after ranking, what every counter lost by how far the run got, that only a missed deadline makes a refusal cost anything, and that a bid has one entry per winner, each the best-scored survivor of its impression with its ids and price |
| `Pipeline.OneCutRun` | bidder-core/src/pipeline/mod.rs:44-55 | a request that is refused for its deadline and keeps its candidate's bid reserved |
| `Pipeline.WinnersSound` | bidder-core/src/pipeline/stages/ranking.rs:28-63 | each winner is the best survivor of its own impression, was retrieved for it and not reported capped for it; exactly one per impression with a survivor |
| `Pipeline.BidsAreBest` | bidder-core/src/pipeline/stages/response_build.rs:35-130 | every entry of the response is a survivor of its impression, with the score the scorer gave it, that no other survivor beats, and carries that candidate's ids and price |
| `Pipeline.CapFilterEligible` | bidder-core/src/pipeline/stages/freq_cap.rs:39-72 | a candidate stays iff it was not reported capped for its impression, by reports that are the capper's (`CapReportsByCapper`); the rest is still eligible |
| `Pipeline.OfferedEligible` | bidder-server/src/main.rs:217-236 | every candidate the pacer is asked about was retrieved for its impression, is there once and was not reported capped |
| `Pipeline.BidPipeline.RunStages` | bidder-core/src/pipeline/mod.rs:44-108 | a run ends in one of three ways, each with its exact state: all stages, a refusal, or the deadline |
| `Pipeline.BidPipeline.EndedOutcome` | bidder-core/src/pipeline/mod.rs:44-108 | the outcome in terms of the request, the deadline and what pacing leaves of the offered candidates |
| `Pipeline.BidPipeline.StoppedFree` | bidder-core/src/pipeline/mod.rs:104-107 | a refusal by a stage leaves every counter as it was |
| `Pipeline.CapReportsMembers` | bidder-core/src/pipeline/stages/freq_cap.rs:53-64 | a capped record is kept for an impression iff the check of that impression reported it |
| `Pipeline.CapReportsByCapper` | bidder-core/src/pipeline/stages/freq_cap.rs:53-64 | a record is kept for an impression iff the capper, asked about that impression's list, answers so |
| `Pipeline.CapsAreApplied` | bidder-core/src/pipeline/stages/freq_cap.rs:39-72 | for every answer of the capper: where it answers, a candidate stays iff its campaign is not said to be capped; where it skips or fails, all stay and nothing is recorded |
| `Pipeline.PacedEligible` | bidder-core/src/pipeline/stages/budget_pacing.rs:23-49 | pacing keeps eligibility; survivors have a budget and the counters fall by their bids |
| `Pipeline.RankedCosts` | bidder-core/src/pipeline/stages/ranking.rs:28-56 | from a paced state ranking leaves exactly the winners' bids taken |
| `Pipeline.SomeoneWins` | bidder-core/src/pipeline/stages/ranking.rs:58-63 | if pacing left a candidate, ranking finds a winner, so ranking never refuses in the shipped order |
| `Pipeline.ScoredEligible` | bidder-core/src/pipeline/stages/scoring.rs:45-60 | scoring keeps eligibility |
| `Pipeline.BidPipeline.RequestValidation` | bidder-core/src/pipeline/stages/request_validation.rs:15-57 | refuses a request without id or impressions, then one under GDPR without consent |
| `Pipeline.BidPipeline.UserEnrichment` | bidder-core/src/pipeline/stages/user_enrichment.rs:30-55 | attaches the catalog; segments only for a known user whose lookup succeeds |
| `Pipeline.BidPipeline.CandidateRetrieval` | bidder-core/src/pipeline/stages/candidate_retrieval.rs:25-109 | each impression gets what the catalog holds for it, each campaign once; without a catalog nothing changes |
| `Pipeline.BidPipeline.CandidateLimitStage` | bidder-core/src/pipeline/stages/candidate_limit.rs:29-56 | every list becomes its top K, and stays as it is if it fits |
| `Pipeline.BidPipeline.Scoring` | bidder-core/src/pipeline/stages/scoring.rs:45-60 | only scores change, each by the scorer |
| `Pipeline.BidPipeline.CapOne` | bidder-core/src/pipeline/stages/freq_cap.rs:40-71 | one impression without the campaigns the capper caps, and just the capper's records |
| `Pipeline.BidPipeline.FreqCapStage` | bidder-core/src/pipeline/stages/freq_cap.rs:24-73 | a candidate stays iff the capper, asked about its impression, does not say it is capped; the records are the capper's answers; nothing happens for an anonymous user |
| `Pipeline.BidPipeline.PaceOne` | bidder-core/src/pipeline/stages/budget_pacing.rs:28-48 | reserves for each candidate in order and keeps those whose campaign was never refused |
| `Pipeline.BidPipeline.BudgetPacing` | bidder-core/src/pipeline/stages/budget_pacing.rs:23-54 | the same for every impression; refuses when no candidate is left |
| `Pipeline.BidPipeline.ReleaseLosers` | bidder-core/src/pipeline/stages/ranking.rs:45-47 | releases exactly the candidates of other campaigns |
| `Pipeline.BidPipeline.Ranking` | bidder-core/src/pipeline/stages/ranking.rs:28-63 | appends the winners, releases the losers, and bids iff there is a winner |
| `Pipeline.BidPipeline.ResponseBuild` | bidder-core/src/pipeline/stages/response_build.rs:35-130 | resolves Pending to a refusal; a bid gets one entry per winner, in order |
| `HedgeTokens.OvershootWithinRestores` | bidder-core/src/hedge.rs:34-76 | in every interleaving, while no rate change is midway, tokens exceed the cap by at most one per restore under way, so not at all when none is |
| `HedgeTokens.TokensConserved` | bidder-core/src/hedge.rs:34-76 | tokens, hedges in flight, cancelled and trimmed tokens always add up to nominal; hedges never exceed it |
| `HedgeTokens.NothingMinted` | bidder-core/src/hedge.rs:34-76 | over any run tokens plus hedges in flight never grow |
| `HedgeTokens.DrainedForGood` | bidder-core/src/hedge.rs:63-76 | once no token is left or in flight, no run hedges again |
| `HedgeTokens.CanHedgeIff` | bidder-core/src/hedge.rs:34-76 | in every state some run consumes another token iff a hedge is in flight, or a token is left and some task can come to it without wiping the bucket |
| `HedgeTokens.TokenLeftButSpent` | bidder-core/src/hedge.rs:53-76 | a run from the start leaves one token and a task that will clamp it away: no further hedge |
| `HedgeTokens.HedgesAgainIff` | bidder-core/src/hedge.rs:34-76 | with no restore or rate change midway: iff a token is left or in flight |
| `HedgeTokens.FullIff` | bidder-core/src/hedge.rs:52-76 | with nothing in flight the bucket is full iff no token was trimmed or lost to a cancelled call |
| `HedgeTokens.ShedOnceThenHealthy` | bidder-core/src/hedge.rs:65-76 | one heavy reading and then a healthy one: full capacity, no tokens |
| `HedgeTokens.HedgeBudget.TryConsume` | bidder-core/src/hedge.rs:34-50 | takes one token iff there is one, however often the exchange fails |
| `HedgeTokens.HedgeBudget.Restore` | bidder-core/src/hedge.rs:53-61 | adds one token up to the cap |
| `HedgeTokens.HedgeBudget.SetLoadShedRate` | bidder-core/src/hedge.rs:65-76 | sets the capacity of the rate and clamps the tokens |
| `HedgeTokens.EffectiveForIs` | bidder-core/src/hedge.rs:65-72 | the capacity of each rate: none above 5%, a fifth above 1%, all otherwise; it falls as the rate rises |
| `CircuitBreaker.TripsByRatio` | bidder-core/src/breaker/mod.rs:194-199 | the cross-multiplied test is the test on error rate and slow-call ratio |
| `CircuitBreaker.Breaker.AllowRequest` | bidder-core/src/breaker/mod.rs:141-159 | admits iff closed or this caller enters half-open; otherwise nothing changes |
| `CircuitBreaker.Breaker.TryEnterHalfOpen` | bidder-core/src/breaker/mod.rs:161-179 | the slot goes to one caller, once the open period is over; the window is reset on entry |
| `CircuitBreaker.Breaker.RecordInWindow` | bidder-core/src/breaker/mod.rs:81-89 | the counters stay the counts over the outcomes since the last reset |
| `CircuitBreaker.Breaker.RecordOutcome` | bidder-core/src/breaker/mod.rs:182-243 | closed opens iff the outcomes since the last reset reach a threshold; in half-open a bad outcome opens at this time and a good one closes, freeing the slot; open ignores it |
| `CircuitBreaker.SmallWindowNeverOpens` | bidder-core/src/breaker/mod.rs:189-199 | with a window smaller than min_calls no outcomes open the breaker |
| `CircuitBreaker.OpensIff` | bidder-core/src/breaker/mod.rs:189-199 | some outcomes open it iff min_calls is at most the window size |
| `BreakerRuns.ProbeFlagIsHalfOpen` | bidder-core/src/breaker/mod.rs:141-243 | in every run the probe flag is set exactly in the half-open state |
| `BreakerRuns.NoAdmissionWhileOpen` | bidder-core/src/breaker/mod.rs:141-179 | after an opening no call is let through before the open period has passed |
| `BreakerRuns.OpeningStartsQuiet` | bidder-core/src/breaker/mod.rs:200-221 | only a report opens the breaker, and the period starts at its time |
| `BreakerRuns.NoAdmissionInHalfOpen` | bidder-core/src/breaker/mod.rs:155-179 | a run that stays half-open lets nobody else through |
| `BreakerRuns.OneProbePerEpisode` | bidder-core/src/breaker/mod.rs:141-179 | exactly one call is let through per half-open episode, in every interleaving of the lock paths |
| `BreakerRuns.ProbeResolves` | bidder-core/src/breaker/mod.rs:215-238 | in every reachable half-open state: a bad report opens and starts the quiet period at its time, a good one closes and the next caller gets in |
| `BreakerRuns.CallerProtocol` | bidder-core/src/frequency/in_process.rs:343-436 | what a caller may do next in each of its states, and that only the write lock and a report touch the breaker's record |
| `BreakerRuns.WedgedForGood` | bidder-core/src/breaker/mod.rs:161-179 | half-open with no admitted call left: every continuation refuses every request |
| `BreakerRuns.InProcessProbeWedges` | bidder-core/src/frequency/in_process.rs:343-436 | an in-process check that takes the slot while no call is outstanding brings that about |
| `BreakerRuns.StartReachesWedge` | bidder-core/src/frequency/in_process.rs:343-436 | from a fresh breaker whose window holds min_calls, that many failures, reported as the window counts them, and one in-process check after the open period reach the wedge |
| `BreakerRuns.LeavesHalfOpenIff` | bidder-core/src/breaker/mod.rs:215-241 | some run leaves half-open iff an admitted call is outstanding |
| `FrequencyKeys.WriterKeyIsFcKey` | bidder-server/src/freq_cap.rs:188-208 | the writer's keys are the reader's keys |
| `FrequencyKeys.FcKeyInjective` | bidder-server/src/freq_cap.rs:206-208 | different user, campaign or window, different key |
| `FrequencyKeys.FcKeyIs` | bidder-server/src/freq_cap.rs:206-208 | the key written out for each window |
| `FrequencyCap.RedisFrequencyCapper.KeysFor` | bidder-server/src/freq_cap.rs:62-78 | the day and the hour key of each candidate, in turn |
| `FrequencyCap.RedisFrequencyCapper.Judge` | bidder-server/src/freq_cap.rs:124-148 | each candidate is judged by its own two counters, a missing one being zero |
| `FrequencyCap.RedisFrequencyCapper.Check` | bidder-server/src/freq_cap.rs:62-151 | verdicts iff the breaker admits and Redis answers, each capped iff a counter has reached its cap; every admitted call is reported, no other |
| `FrequencyCap.RedisJudged` | bidder-server/src/freq_cap.rs:124-148 | verdict by verdict: capped iff the day or the hour counter under the candidate's own key has reached its own cap; a missing counter is zero |
| `FrequencyCap.PatchedVerdicts` | bidder-core/src/frequency/in_process.rs:348-420 | screening, fallback and patching give every candidate its due verdict iff no cold campaign is listed twice |
| `FrequencyCap.LaterSlotUntouched` | bidder-core/src/frequency/in_process.rs:403-410 | the patch loop never reaches the second slot of a campaign |
| `FrequencyCap.WarmedLookup` | bidder-core/src/frequency/in_process.rs:303-327 | warming stores Redis's counts for the cold campaigns and nothing else |
| `FrequencyCap.WarmedRaises` | bidder-core/src/frequency/in_process.rs:303-327 | warming a pair inserts it or makes each count the larger of the two, and touches no other pair |
| `FrequencyCap.CoherentVerdicts` | bidder-core/src/frequency/in_process.rs:343-437 | over a coherent cache the verdicts are Redis's; warming keeps coherence and leaves no candidate cold |
| `FrequencyCap.InProcessFrequencyCapper.WarmCache` | bidder-core/src/frequency/in_process.rs:303-327 | inserts the pair, or raises each count that is lower |
| `FrequencyCap.InProcessFrequencyCapper.Screen` | bidder-core/src/frequency/in_process.rs:348-378 | cached verdicts, placeholders, and the cold candidates in order |
| `FrequencyCap.InProcessFrequencyCapper.Patch` | bidder-core/src/frequency/in_process.rs:403-415 | patches the first slot of each answered campaign and warms the cache |
| `FrequencyCap.InProcessFrequencyCapper.Check` | bidder-core/src/frequency/in_process.rs:331-437 | skipped iff the breaker refuses; otherwise each verdict compares the cached, or for a cold campaign Redis's, counts with the caps, and what the cache becomes; the breaker hears of it iff it was closed and Redis was asked, and a check that takes the probe slot leaves it half-open |
| `FrequencyCap.InProcessJudged` | bidder-core/src/frequency/in_process.rs:343-437 | verdict by verdict: a warm campaign is judged by its cached counts, a cold one by Redis's, and by nothing if Redis does not answer |
| `FrequencyCap.InProcessFrequencyCapper.CheckTwice` | bidder-core/src/frequency/in_process.rs:331-437 | coherent cache, closed breaker, Redis answering: the first check agrees with Redis and asks it iff something is cold; an identical second one never asks, and gives the same verdicts unless the first report opened the breaker |
| `WriteBehind.EveryImpressionAccounted` | bidder-server/src/freq_cap.rs:175-204 | in every run, for each user, campaign and window: increments, in transit and counted losses add up to records, evictions, wins and the counted losses that had landed |
| `WriteBehind.WinsEntered` | bidder-server/src/server/handlers.rs:226-236 | in every run the wins counted for a pair are its win notices that name a user |
| `WriteBehind.RunBounded` | bidder-core/src/frequency/in_process.rs:237-284 | in every run neither the write-behind nor the recorder channel holds more than its capacity |
| `WriteBehind.CountsImpressionsIff` | bidder-core/src/frequency/in_process.rs:176-211 | Redis counts just the impressions iff no entry holding the campaign was evicted |
| `WriteBehind.EvictionCountsPhantom` | bidder-core/src/frequency/in_process.rs:176-211 | an entry that was only read through sends an impression when evicted |
| `WriteBehind.ImpressionBuffer.TrySend` | bidder-core/src/frequency/in_process.rs:237-284 | appends to the bounded channel, or drops and counts a lost day op |
| `WriteBehind.ImpressionBuffer.RecordImpression` | bidder-core/src/frequency/in_process.rs:237-284 | is the record step of the run system; true iff both ops fit |
| `WriteBehind.ImpressionBuffer.OnEvict` | bidder-core/src/frequency/in_process.rs:176-211 | is the eviction step, whatever the order of the campaigns |
| `WriteBehind.ImpressionBuffer.DrainFirst` | bidder-server/src/main.rs:503-533 | is the drain step: a day op goes to the recorder, an hour op vanishes |
| `WriteBehind.ImpressionBuffer.Drain` | bidder-server/src/main.rs:499-534 | the recorder receives the day ops in order until it is full |
| `StaleCaps.CountsFrozen` | bidder-server/src/server/handlers.rs:226-236 | in every run, once a pair is warm nothing but record_impression and an eviction of its user changes its cached counts |
| `StaleCaps.VerdictFrozen` | bidder-core/src/frequency/in_process.rs:348-364 | nor the verdict on any candidate of the campaign |
| `StaleCaps.StaleIff` | bidder-server/src/freq_cap.rs:175-204 | a warm pair in step with Redis stays so iff no write of it lands |
| `StaleCaps.WarmIsCoherent` | bidder-core/src/frequency/in_process.rs:303-327 | warming a cold pair puts it in step with Redis |
| `StaleCaps.RecordedCounts` | bidder-core/src/frequency/in_process.rs:237-284 | recording adds one to both counts of the pair and touches no other |
| `StaleCaps.WinsUnseen` | bidder-server/src/server/handlers.rs:226-236 | for every cap and any larger number of wins: over the cap in Redis, under it in the cache |
| `Catalog.ToBitmap` | bidder-core/src/catalog/loader.rs:192-196 | the set of the ids, cast to 32 bits |
| `Catalog.IndexLast` | bidder-core/src/catalog/loader.rs:188-214 | a campaign is indexed under a segment or geo key iff the last row of that key lists it |
| `Catalog.IndexMerged` | bidder-core/src/catalog/loader.rs:216-247 | under a device or format iff some row of that key lists it; restricted iff some row of known key does |
| `Catalog.BuildCampaigns` | bidder-core/src/catalog/loader.rs:150-168 | each campaign as its last row has it |
| `Catalog.BuildCreatives` | bidder-core/src/catalog/loader.rs:170-186 | the creatives of known format of each campaign, in row order |
| `Catalog.Build` | bidder-core/src/catalog/loader.rs:150-247 | every index says exactly what the rows say |
| `Catalog.CandidatesFor` | bidder-core/src/catalog/campaign_catalog.rs:57-149 | the lazy bitmap: nothing without campaigns, all if nothing filters, else whatever passes every filter |
| `Catalog.LazyIsEager` | bidder-core/src/catalog/campaign_catalog.rs:57-149 | once unknown campaigns are dropped, the lazy form is the eager intersection |
| `Catalog.EagerIsServes` | bidder-core/src/catalog/loader.rs:150-247 | the indices admit a campaign iff the rows do, read one campaign at a time |
| `Catalog.Retrieve` | bidder-core/src/pipeline/stages/candidate_retrieval.rs:70-106 | the candidates of the eager form, ascending, each campaign once, with its first fitting creative (`FirstFitIs`, `RetrievedIff`) |
| `Catalog.RetrievalIsScan` | bidder-core/src/pipeline/stages/candidate_retrieval.rs:70-106 | for all rows and requests retrieval through the indices is a linear scan of the rows; what the scan lists is `RetrievedIff` |
| `Catalog.FirstFitIs` | bidder-core/src/pipeline/stages/candidate_retrieval.rs:85-98 | no creative iff none has the format; otherwise the first that has |
| `Catalog.RetrievedIff` | bidder-core/src/pipeline/stages/candidate_retrieval.rs:81-100 | a candidate is retrieved iff the rows serve its campaign, its creative is that of the first fitting creative row, and its price and its two caps are the columns of the last row of the campaign |
| `Catalog.RowNames` | bidder-core/src/catalog/loader.rs:150-247 | the names of devices, formats and places in the rows |
| `Catalog.EagerListDistinct` | bidder-core/src/pipeline/stages/candidate_retrieval.rs:81-100 | no campaign is retrieved twice for an impression |
| `CandidateLimit.PopLeast` | bidder-core/src/pipeline/stages/candidate_limit.rs:79-86 | removes one least entry by price, the higher id being less on a tie |
| `CandidateLimit.PushPop` | bidder-core/src/pipeline/stages/candidate_limit.rs:30-54 | one push and pop keeps the top K of what was seen |
| `CandidateLimit.Limit` | bidder-core/src/pipeline/stages/candidate_limit.rs:30-54 | the result is the top K of the input, or the input itself if it fits: whatever is dropped has a lower price than all that stays, or the same and a higher id |
| `CandidateLimit.TopKUnique` | bidder-core/src/pipeline/stages/candidate_limit.rs:79-86 | with distinct ids the top K is determined, whatever the input order |
| `Cascade.RankedSorted` | bidder-core/src/scoring/cascade.rs:35-93 | ranking is a stable descending sort of all candidates |
| `Cascade.AdvancingFit` | bidder-core/src/scoring/cascade.rs:35-93 | those who advance reach the threshold and are at most top_k |
| `Cascade.AdvancingAreBest` | bidder-core/src/scoring/cascade.rs:35-93 | a candidate that reaches the threshold and does not advance has a lower score than everyone who does, or the same and a later place, and the cap is full |
| `Cascade.BatchIsAdvancing` | bidder-core/src/scoring/cascade.rs:35-93 | the batch for stage 2 has a candidate iff it advances |
| `Cascade.ScoreAll` | bidder-core/src/scoring/cascade.rs:35-93 | stage 1 scores, overwritten by key with stage 2's for the advancing batch |
| `Cascade.OnlyAdvancedRescored` | bidder-core/src/scoring/cascade.rs:35-93 | order and identities stay; who advanced and was returned has the stage-2 score, everyone else stage 1's |
| `Cascade.OrderIrrelevant` | bidder-core/src/scoring/cascade.rs:35-93 | stage 2's output order does not matter |
| `MlScorer.ScoreChunks` | bidder-core/src/scoring/ml.rs:426-448 | all chunks scored, or a failure with nothing changed but scores |
| `MlScorer.ScoreAll` | bidder-core/src/scoring/ml.rs:426-448 | all scores come from the model, or all were reset to zero and the fallback scored the whole list |
| `MlScorer.ScoreBatchIff` | bidder-core/src/scoring/ml.rs:370-410 | a batch is scored iff inference yields an output for each of its candidates |
| `MlScorer.ScoredIff` | bidder-core/src/scoring/ml.rs:426-448 | the list is scored iff every chunk of it is |
| `MlScorer.ScoredFromChunk` | bidder-core/src/scoring/ml.rs:426-448 | whatever the model, each score is its output for the candidate's own chunk at its own offset |
| `MlScorer.ChunkOfIs` | bidder-core/src/scoring/ml.rs:426-448 | the chunk of position i starts at i - i % max_batch and i sits at offset i % max_batch |
| `MlScorer.ScoredKeepsIdentities` | bidder-core/src/scoring/ml.rs:426-448 | the model changes nothing but scores |
| `MlScorer.ChunkingInvisible` | bidder-core/src/scoring/ml.rs:426-448 | with a model that treats rows independently the batch size does not matter |
| `KafkaIncident.PublishesAccounted` | bidder-server/src/kafka.rs:165-211 | every publish is counted once: sampled out, refused, delivered, failed or queued |
| `KafkaIncident.FlipsAreRare` | bidder-core/src/kafka_incident.rs:119-177 | sampling exactly during an incident; flips times dwell is at most the ticks |
| `KafkaIncident.FlipIff` | bidder-core/src/kafka_incident.rs:119-177 | in every run a tick flips the policy iff it ends dwell samples in a row of the other kind |
| `KafkaIncident.WindowOverIff` | bidder-core/src/kafka_incident.rs:119-150 | in an incident a window is over iff what the sampler and the broker lose of it is more than the threshold's share of that and the acknowledgements |
| `KafkaIncident.HealthyWindowOverIff` | bidder-server/src/kafka.rs:165-182 | with a healthy broker and a 1% threshold: iff it has fewer than 99 acknowledgements per sampled-out call |
| `KafkaIncident.DroppedInIs` | bidder-server/src/kafka.rs:165-211 | with a healthy broker the calls lost in a window are those the sampler does not keep; otherwise at least those |
| `KafkaIncident.StaticPolicyStays` | bidder-core/src/kafka_incident.rs:119-177 | without incident mode the policy is the configured one for good |
| `KafkaIncident.KeptIs` | bidder-server/src/kafka.rs:165-185 | how many of n successive calls the sampler keeps |
| `KafkaIncident.BusyWindowIsOver` | bidder-core/src/kafka_incident.rs:119-177 | in an incident a tick with n >= 2 calls and fewer than 99*(n - ceil(n/10)) acknowledgements counts as over 1% |
| `KafkaIncident.IncidentFeedsItself` | bidder-core/src/kafka_incident.rs:119-177 | as long as every window is such, the incident never ends |
| `KafkaIncident.HealthyWindowsKeepIt` | bidder-core/src/kafka_incident.rs:119-177 | no sequence of healthy windows of two or more calls, each starting with at most 97 messages queued, ends an incident |
| `KafkaIncident.QueuedInWindow` | bidder-server/src/kafka.rs:165-211 | in a healthy window the queue grows by the kept calls less the acknowledgements |
| `KafkaIncident.BacklogEndsIt` | bidder-core/src/kafka_incident.rs:165-177 | from every incident with dwell 1, a healthy window that leaves a backlog and one that acknowledges enough of it end it |
| `KafkaIncident.HealthyRunOutlived` | bidder-core/src/kafka_incident.rs:119-177 | runs from the start: for every dwell an outage begins an incident, and any number of windows of ten or more accepted calls and one acknowledgement leave it on |
| `KafkaIncident.KafkaEventPublisher.Publish` | bidder-server/src/kafka.rs:165-211 | the call gets exactly one fate, by sampler and producer; all calls stay accounted for, and the dropped counter is exactly the calls lost so far |
| `KafkaIncident.KafkaEventPublisher.Delivery` | bidder-server/src/kafka.rs:63-76 | one queued call becomes delivered or failed; no call is lost or counted twice, and the counters stay exact |
| `KafkaIncident.KafkaEventPublisher.Judge` | bidder-core/src/kafka_incident.rs:144-177 | the counts stay the lengths of the current runs of samples; the policy flips iff this sample ends dwell of the other kind |
| `KafkaIncident.KafkaEventPublisher.MonitorTick` | bidder-core/src/kafka_incident.rs:119-177 | keeps the accounting; flips iff dwell samples of the other kind are complete; sampling iff in an incident; flips times dwell at most the ticks |
| `WinDedup.RunKeepsInv` | bidder-server/src/win_notice.rs:166-215 | over late and orphaned SETs: one key is never written twice within the time to live, and every accept owns its own write; whose they are is `OnlyGenuine` |
| `WinDedup.OnlyGenuine` | bidder-server/src/win_notice.rs:176-179 | in every run every handler at work, every SET and every side effect belongs to a notice that arrived with a valid token |
| `WinDedup.ForgedIgnored` | bidder-server/src/server/handlers.rs:215-217 | a notice with a bad token changes nothing but the time |
| `WinDedup.EverySetOnce` | bidder-server/src/win_notice.rs:184-215 | in every run the SETs of a key that landed or still may, an abandoned one included, are exactly its valid notices: none lands twice |
| `WinDedup.TtlIs` | bidder-server/src/win_notice.rs:166-215 | the time to live is the configured one, at least a second |
| `WinDedup.EffectsAreApart` | bidder-server/src/server/handlers.rs:202-263 | two side effects for one key stem from SETs a time to live apart, each before its effects |
| `WinDedup.ApartIff` | bidder-server/src/server/handlers.rs:202-263 | in all runs whose effects follow their SET within a delay, effects of one notice are a time to live apart iff that delay is zero |
| `WinDedup.LateHandlerTooClose` | bidder-server/src/server/handlers.rs:202-263 | a run with a handler one second late that brings them closer |
| `WinDedup.SharedKeyIff` | bidder-server/src/win_notice.rs:181-182 | different notices share a dedup key iff one request id runs over a colon into the other's impression id |
| `Decimal.ParseDigits` | bidder-server/src/win_notice.rs:237-248 | a printed number reads back as itself |
| `Decimal.ParseSignedDigits` | bidder-server/src/win_notice.rs:237-248 | and so does a signed one |
| `NoticeUrl.PercentEncode` | bidder-server/src/win_notice.rs:53-68 | the loop computes the byte-wise encoding |
| `NoticeUrl.DecodeEncode` | bidder-server/src/win_notice.rs:53-68 | percent-decoding (section 2.1 of RFC 3986), with or without reading plus as space, inverts it on all byte strings |
| `NoticeUrl.EncodeByteIs` | bidder-server/src/win_notice.rs:53-68 | unreserved characters stay; any other byte becomes a percent sign and its two capital hexadecimal digits |
| `NoticeUrl.SplitJoin` | bidder-server/src/win_notice.rs:237-248 | splitting joined pieces returns them |
| `NoticeUrl.BuildIs` | bidder-server/src/win_notice.rs:219-249 | the URL written out field by field; none without a base |
| `NoticeUrl.QueryIsParamsIff` | bidder-server/src/win_notice.rs:219-249 | the query (sections 3.4 and 3.5 of RFC 3986) of the built URL splits into the parameters for every notice iff the base holds neither a question mark nor a number sign |
| `NoticeUrl.FragmentHides` | bidder-server/src/win_notice.rs:219-249 | with a number sign in the base the query of the built URL is that of the base, whatever the notice |
| `NoticeUrl.NoticeRoundTrip` | bidder-server/src/win_notice.rs:219-249 | for such a base, reading the built URL returns every field and the token, for all byte strings and integers |

## Left out

- Redis, Postgres, Kafka and HTTP clients, metrics, tracing, configuration and start-up: the stores are maps, and replies, timeouts and failures are actions or parameters.
- HMAC signing and hexadecimal: the token is a string of plain characters, and whether it is valid is an input.
- ONNX inference, feature extraction and the padding of a batch: inference is a function that yields at least one output per candidate or fails.
- Floating-point rounding and NaN: scores and rates are reals, so `nominal * 0.2` is an exact fifth rounded down.
- Wrap-around of the 32- and 64-bit counters: counters are unbounded integers; only the casts to 32 bits in the loader and the saturating sample counts are modelled.
- Weak memory orderings: atomics are sequentially consistent.
- Cache policy: eviction is an action that may happen at any time; day and hour counts expire at no time, neither in the cache nor in Redis.
- Concurrent updates inside the in-process cache: each of its methods is one step, so a check warms only pairs it finds cold.
- Write-behind shutdown: the final drain of workers and channels is not modelled.
- OpenRTB and AdX data types and codecs, A/B arm assignment, daypart clock, segment cache, notice URL inside the bid: they add records and no hard property.
- Stage errors: a stage of the modelled order never returns one, so the early return on an error is not modelled.
- Other pacers, segment repositories and stores behind the same interfaces.
- Pipeline.BidPipeline.Execute: one request with no reload and no other request in between; interleaved requests are the subject of `ConcurrentAuctions`.
- Pipeline.BidPipeline.CandidateRetrieval: requires the universe of the catalog to be the known campaigns, which `Catalog.Build` guarantees.
- Cascade.OnlyAdvancedRescored: speaks of lists with one candidate per campaign and creative and of a stage 2 that invents no key, as the write-back by key presumes.
- KafkaIncident.BusyWindowIsOver: for the default 1% threshold; `WindowOverIff` is for every threshold.
- ConcurrentAuctions.AuctionsCostWinners: for lists with one candidate per campaign, as retrieval makes them, and without a reload meanwhile.
- ConcurrentAuctions.AloneIsSequential: for such lists; what two candidates of one campaign do in a request is `Auction.StrandedIff`.
- ConcurrentAuctions.HeldWithinBudget: for such lists and no reload; reloads are in `BudgetLedger.OvershootBounded`.
- BreakerRuns.StartReachesWedge: for a window that holds min_calls and an error threshold of at most one; `CircuitBreaker.OpensIff` says that with a smaller window the breaker never opens.
