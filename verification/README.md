# AtlasRisk: a verified model

This project models the parts of AtlasRisk that carry hard guarantees and proves them for all inputs and all runs.
`dafny verify dfyconfig.toml` checks everything.

| component | modules |
|---|---|
| Shapley attribution of scenario P&L | `Subsets`, `Permutations`, `Shapley`, `Enumeration`, `Allocation`, `Attribution`, `AttributionReport`, `AttributionLaws`, `AttributionLimits` |
| Scenario revaluation | `Decimals`, `Scenario`, `ScenarioMeaning`, `Revaluation` |
| Durable job queue, attempt ledger and scenario runs | `ClaimOrder`, `JobRecords`, `JobMeaning`, `JobQueue`, `JobStore` |
| Point-in-time pages of observations | `Timeline` |
| Collector backfills and schedules | `IngestionRuns`, `FredResume`, `BinanceResume`, `BinanceWorkers`, `Collector`, `CollectorMeaning`, `CollectorStore` |
| FX paths, decimal text and valuation totals | `FxPaths`, `DecimalText`, `Valuation` |
| Reconciliation with an external NAV | `Reconciliation` |
| Returns and drawdown | `Days`, `Returns` |
| Metric bundle and its verifier | `MetricEvidence` |

## How the system is modelled

- Each SQL transaction is one atomic step on tables, with one reading of the clock. Row locks give the atomicity; rows
  locked by other transactions are a parameter of the two claims. The CHECK and UNIQUE constraints of the
  job tables are not assumed: the ledger lemmas prove that no step would violate them.
- A history is any sequence of such steps by any number of workers, so a crash is a step that does not come. New ids and
  lease tokens are fresh. The Go queue decides on a retry by the limit inside the claim it is handed, so that claim must
  be one the queue issued; nothing else is asked of callers.
- Stored decimals are integers counting units of 10^-18. Numbers in between are exact. The scenario engine stores at most
  38 digits, and portfolio totals and attribution amounts must fit the default 28-digit context; beyond that an
  evaluation or a report fails; `AttributionLimits` says when.
- A FRED backfill always starts at offset 0: the offset of the request is not used.
- The natural logarithm, the list of fiat currency codes, the checks of stored rows behind listed evidence, and HTTP
  responses are parameters.

## Properties that hold only under a condition

- An attempt is open exactly while its job runs unless the risk service cancels a running job through its run
  (`JobRecords.CancelRunOpensExactly`, `JobQueue.CancelRunLeavesAttemptOpen`).
- Job and scenario run stay coupled except through the Go queue's own claim, completion, failure and cancel of a
  scenario job, and its enqueueing one without a run (`JobRecords.CoupledExactly`, `JobQueue.NextCoupledExactly`; the
  histories are `JobQueue.QueueCancelUncouples` and `JobQueue.BareScenarioMissesRun`). A later cancel through the run
  repairs a cancel in the queue (`JobRecords.CancelRunHeals`). The missing-run error needs a job enqueued without a run:
  it is the reply exactly where a scenario job has none at all (`JobQueue.RunMissesExactly`, `JobQueue.RunNeverMissing`).
- A FRED checkpoint's counters are right unless a worker completes a run over another worker's unfinished checkpoint:
  completion merges its own counters into whatever is saved (`FredResume.FinishKeepsCountsExactly`,
  `FredResume.SoloCounts`; the overlap is `FredResume.OverlapMiscounts`). The stored rows are not affected, but counters
  that are too high use up the page limit of a later attempt, and an attempt that starts from a succeeded run with an
  incomplete checkpoint ends in an error (`FredResume.Backfill.Resume`).
- The candle backfill skips nothing if and only if the normaliser's clock and the later cutoff see each candle alike, on
  every page it reads (`BinanceResume.ExactAtEndExactly`, `BinanceResume.ClockRaceSkips`).
- A candle backfill completes if and only if everything listed has closed and what is left is not a multiple of the page
  size: an empty page never completes one (`BinanceResume.CompletesExactly`, `BinanceResume.OpenCandleBlocks`,
  `BinanceResume.FullPageNeverCompletes`).
- Stored candles and the saved checkpoint say the same unless a worker with an older checkpoint of its own commits: then
  the saved checkpoint moves back, and only that nothing is missing remains (`BinanceWorkers.CommitExactly`,
  `BinanceWorkers.StaleCommitMovesBack`, `BinanceWorkers.AlwaysCovered`).
- A collector schedule can always be claimed again while it is active, unless its attempts are used up and no lease runs:
  a worker that stops on the last attempt leaves it so for good (`Collector.RecoverableExactly`,
  `Collector.CrashOnLastAttemptSticks`).
- The producer of a metric bundle seals an unconverted price where no FX rate was found, and the verifier refuses
  exactly those bundles and the ones with a price that rounds to zero (`MetricEvidence.ProducerAcceptedExactly`,
  `MetricEvidence.MissingRateRefused`).
- A valid scenario that evaluates under every subset of its shocks has an attribution report unless a line's P&L, a
  rounded share or a sum of shares exceeds the 28 digits of the context it is attributed in, though up to 38 can be
  stored (`AttributionLimits.AttributableExactly`). Two opposite positions of
  10^11 that double in price are a valid scenario with a total of 0 and no report (`AttributionLimits.HedgedHasNoReport`).
  Gains and losses below five thousand million in every
  subset always have one (`AttributionLimits.ModerateIsAttributable`), and a line P&L of more than 28 digits never does
  (`AttributionLimits.AttributableNeeds`).

## Model

| member | source | states |
|---|---|---|
| `Allocation.ShapleyAllocate` | risk-engine/src/atlasrisk/attribution/core.py:60-97 | invalid names or too many factors are refused before any value is asked for; otherwise it fails exactly when some subset has no value, and each share is the average marginal contribution over all n! orderings |
| `Allocation.FillCache` | risk-engine/src/atlasrisk/attribution/core.py:76-79 | the cache holds the value of every subset, or the error of one that has none |
| `Allocation.ContributionOf` | risk-engine/src/atlasrisk/attribution/core.py:84-97 | the weighted subset loop computes the ordering average |
| `Permutations.OrderingsExact` | risk-engine/src/atlasrisk/attribution/core.py:330-332 | the listed orderings are all the orderings, each once, n! in all (the reported permutation count) |
| `Enumeration.CombinationsComplete` | risk-engine/src/atlasrisk/attribution/core.py:55-57 | every subset of a size comes up among the combinations of that size |
| `Enumeration.SizesCoverSubsets` | risk-engine/src/atlasrisk/attribution/core.py:89-95 | summing size by size over combinations is summing over all subsets |
| `Shapley.SubsetFormIsOrderingForm` | risk-engine/src/atlasrisk/attribution/core.py:89-96 | for every factor set and value function the weighted subset sum equals the sum of marginals over all orderings |
| `Shapley.SubsetFormIsAverage` | risk-engine/src/atlasrisk/attribution/core.py:82-96 | the same with the weights divided by n! |
| `Shapley.Efficiency` | risk-engine/src/atlasrisk/attribution/core.py:217-224 | the exact shares add up to v(all) - v(none) |
| `Shapley.Additivity` | risk-engine/src/atlasrisk/attribution/core.py:226-246 | shares of a sum of games are sums of shares |
| `Shapley.NullPlayer` | risk-engine/src/atlasrisk/attribution/core.py:84-97 | a name that never changes the value gets exactly 0 |
| `Shapley.ShareReordered` | risk-engine/src/atlasrisk/attribution/core.py:42-52 | a share does not depend on the order in which the names are listed |
| `Attribution.FullSubsetIsPayload` | risk-engine/src/atlasrisk/attribution/core.py:141-154 | neutralising nothing gives back the payload |
| `Attribution.SubsetSwitches` | risk-engine/src/atlasrisk/attribution/core.py:100-154 | the factors by their names, and the payload of a subset: shocks in it keep their values, the others get their neutral ones |
| `Attribution.ValueIsSumOfLines` | risk-engine/src/atlasrisk/attribution/core.py:157-170 | blocked or not, the value of a scenario is the sum of the P&L of its valid positions |
| `Attribution.NeutralTotal` | risk-engine/src/atlasrisk/attribution/core.py:141-154 | with every shock neutral the total P&L is exactly 0 |
| `Attribution.StructuralBlockPersists` | risk-engine/src/atlasrisk/scenarios/core.py:216-326 | a position blocked for its mapping, duration, FX path or type is blocked under every subset of the shocks |
| `Attribution.NeutralKeepsPayload` | risk-engine/src/atlasrisk/attribution/core.py:100-154 | switching on a shock that already is neutral changes nothing |
| `Attribution.SamePricesSameOutcome` | risk-engine/src/atlasrisk/scenarios/core.py:216-326 | a position depends on the price, yield and FX shocks only |
| `AttributionReport.ResidualBound` | risk-engine/src/atlasrisk/attribution/core.py:208-224 | rounding n shares of an integral total leaves at most n/2 units of 10^-18 unexplained |
| `AttributionReport.SplitTotal` | risk-engine/src/atlasrisk/attribution/core.py:208-224 | succeeds exactly when names are valid, every subset has a value and no rounded number exceeds 28 digits; shares are the rounded ordering averages and the residual is exactly what they miss |
| `AttributionReport.SplitLines` | risk-engine/src/atlasrisk/attribution/core.py:239-273 | succeeds exactly when every row can be split, and every row explains its own total in the same way |
| `AttributionReport.SplitReordered` | risk-engine/src/atlasrisk/attribution/core.py:42-52 | a split explains a total whichever way the factors are listed |
| `AttributionReport.AttributeScenario` | risk-engine/src/atlasrisk/attribution/core.py:177-351 | refused exactly for a negative tolerance or too many factors; returns a report exactly when there is a reference and portfolio and rows can be split; then both are explained, and it reconciles exactly when the residual is within tolerance |
| `AttributionLaws.PortfolioShareIsSumOfPositionShares` | risk-engine/src/atlasrisk/attribution/core.py:226-246 | linearity: before rounding, a factor's portfolio share is the sum of its position shares |
| `AttributionLaws.MetricFactorsGetNothing` | risk-engine/src/atlasrisk/attribution/core.py:120-136 | volatility and correlation factors get exactly 0, in the portfolio and in every position |
| `AttributionLaws.NeutralShockGetsNothing` | risk-engine/src/atlasrisk/attribution/core.py:100-138 | a shock that has its neutral value gets exactly 0, in the portfolio and in every position |
| `AttributionLaws.StructurallyBlockedGetsNothing` | risk-engine/src/atlasrisk/attribution/core.py:226-246 | a structurally blocked position gets exactly 0 from every factor |
| `AttributionLaws.PortfolioReconciles` | risk-engine/src/atlasrisk/attribution/core.py:299-309 | the baseline is 0, the residual is within n/2 units and absent exactly for a blocked scenario, so with a tolerance of n/2 units it reconciles exactly when not blocked |
| `AttributionLaws.LinesReconcile` | risk-engine/src/atlasrisk/attribution/core.py:239-273 | the same for every position row; a row has a residual exactly when its position is valid |
| `AttributionLaws.HandleScenarioRevaluation` | risk-engine/src/atlasrisk/jobs/scenario.py:56-89 | returns a result exactly when the payload evaluates and either has more than 8 factors or can be split throughout; the evaluation is valid exactly when nothing is left uncovered, otherwise blocked or degraded as the coverage policy says; a valid one is degraded exactly when there are more than 8 factors, that is, when attribution is unavailable |
| `AttributionLimits.AttributableExactly` | risk-engine/src/atlasrisk/attribution/core.py:208-273 | a scenario has a report exactly when every subset of its shocks evaluates, no rounded share or sum of shares of the portfolio and its lines exceeds 28 digits, and no line P&L does; every other number of the report always fits |
| `AttributionLimits.ModerateIsAttributable` | risk-engine/src/atlasrisk/attribution/core.py:208-273 | if every subset evaluates and neither portfolio nor any line gains or loses more than m units in any of them, with 2m + 8 < 10^28, there is a report |
| `AttributionLimits.AttributableNeeds` | risk-engine/src/atlasrisk/attribution/core.py:256-265 | without an evaluation of every subset, or with a line P&L of more than 28 digits, there is none |
| `AttributionLimits.HedgedHasNoReport` | risk-engine/src/atlasrisk/attribution/core.py:256-265 | a valid scenario of two opposite positions with a total of 0, whose lines are too long: no report, and the job fails |
| `Shapley.ShareBounded` | risk-engine/src/atlasrisk/attribution/core.py:84-97 | a share is at most twice the largest value of the game |
| `Scenario.ComputeFxMultiplier` | risk-engine/src/atlasrisk/scenarios/core.py:196-213 | the loop computes the product of the edge multipliers or the first error |
| `Scenario.EvaluatePosition` | risk-engine/src/atlasrisk/scenarios/core.py:216-326 | the position's checks in their order, its revaluation along both FX paths, or the reason it is blocked |
| `Scenario.EvaluateScenario` | risk-engine/src/atlasrisk/scenarios/core.py:408-541 | valid exactly when every position is valid and the metrics are sound, and there if volatility is shocked; otherwise blocked without totals or degraded with them, as the coverage policy says; totals are the sums of the gains of the valid positions; refused exactly for a bad envelope, a blank key, a shock out of range, an unknown policy, malformed metrics or totals too long |
| `ScenarioMeaning.ValidExactly` | risk-engine/src/atlasrisk/scenarios/core.py:216-326 | a position is valid with certain amounts exactly when its class, yield and paths by the payload's fields leave it these amounts, each to the nearest unit in 38 digits |
| `ScenarioMeaning.BlockedExactly` | risk-engine/src/atlasrisk/scenarios/core.py:216-326 | it is blocked for want of an id, a mapping, a yield curve, a duration, a supported type or a path exactly when it lacks what the reason names |
| `ScenarioMeaning.TooLongExactly` | risk-engine/src/atlasrisk/scenarios/core.py:90-105 | it is out of bounds exactly for a sealed number too long to store, or one the shocks that apply lead to; any other failure is one of its input |
| `Revaluation.MultiplierIsRateChange` | risk-engine/src/atlasrisk/scenarios/core.py:196-213 | the FX multiplier of a path is exactly its shocked rate over its rate before, at any rates |
| `Revaluation.RevaluedAtShockedRates` | risk-engine/src/atlasrisk/scenarios/core.py:216-326 | a position sealed within half a unit of its native value at the rates of its paths is afterwards worth its shocked native value at their shocked rates, up to half a unit and the sealed error carried along; to the nearest unit if the sealed value was exact |
| `Revaluation.BondRespondsToSecondOrder` | risk-engine/src/atlasrisk/scenarios/core.py:252-274 | a bond revalued under opposite yield shifts and under none: in what is stored, the first difference is twice duration and the second is convexity, each up to rounding |
| `Decimals.RoundNearest` | risk-engine/src/atlasrisk/scenarios/core.py:90-97 | rounding errs by at most half a unit, and halves go away from zero |
| `Decimals.RoundMonotone` | risk-engine/src/atlasrisk/scenarios/core.py:90-97 | rounding keeps order |
| `JobRecords.EvolveKeepsSound` | internal/jobs/queue.go:180-376 | every step of either client, both cancels and the recovery keep the job row, the attempt ledger and the issued claims consistent |
| `JobRecords.CancelRunOpensExactly` | internal/application/risk/service.go:213-252 | the risk service's cancel leaves an attempt open exactly when its job was running |
| `JobRecords.CoupledExactly` | risk-engine/src/atlasrisk/jobs/postgres.py:59-66 | a step keeps job and scenario run coupled exactly when it is not a Go claim, completion, failure or cancel that takes effect on a scenario job |
| `JobRecords.EvolveKeepsRunOpen` | internal/jobs/queue.go:180-376 | an active job that has a run has an open one, through every step of both clients, and no step takes a run away |
| `JobRecords.RunMissingExactly` | risk-engine/src/atlasrisk/jobs/postgres.py:287-297 | a completion misses its run exactly for a live Python claim with acceptable output on a scenario job without one |
| `JobRecords.CancelRunHeals` | internal/application/risk/service.go:232-247 | cancelling the run of a job the queue has cancelled couples the two again |
| `JobRecords.EvolveForward` | internal/jobs/queue.go:180-376 | terminal rows, closed attempts and finished runs never change; counts and claims only grow |
| `JobRecords.EvolveProgress` | internal/jobs/queue.go:180-376 | each state change moves a bounded measure of the job forward |
| `JobRecords.OnlyLiveClaimWrites` | internal/jobs/queue.go:221-286 | a renewal, completion or failure that changes anything comes from the newest claim, before its lease runs out |
| `JobRecords.LostStaysLost` | internal/jobs/queue.go:221-286 | a superseded, stopped or expired claim writes nothing and stays so |
| `JobRecords.RetryWaits` | internal/jobs/queue.go:265-279 | a retryable failure with attempts left is claimable again exactly after the delay, at once under the Python client |
| `JobMeaning.ClaimIs` | internal/jobs/queue.go:180-206 | a claim by its columns: state, attempt count, lease, ledger row and run |
| `JobMeaning.RenewIs` | internal/jobs/queue.go:239-263 | a renewal by its columns |
| `JobMeaning.CompleteIs` | risk-engine/src/atlasrisk/jobs/postgres.py:168-206 | a completion by its columns, its reply and the run state each text stands for |
| `JobMeaning.FailIs` | internal/jobs/queue.go:265-292 | a failure by its columns, for both clients |
| `JobMeaning.CancelIs` | internal/application/risk/service.go:213-252 | both cancels by their columns |
| `JobMeaning.RecoverIs` | internal/jobs/queue.go:321-381 | recovery by its columns |
| `JobQueue.LedgerAlways` | internal/jobs/queue.go:180-376 | in every reachable state attempts are exactly 1..attempt_count, all but the newest were retried, the newest explains the state, and a claimable job has attempts left |
| `JobQueue.OpenExactlyWhileRunning` | internal/jobs/queue.go:302-319 | unless a run is cancelled through the risk service, an attempt is open exactly while its job runs |
| `JobQueue.CancelRunLeavesAttemptOpen` | internal/application/risk/service.go:236 | a concrete history in which that cancel leaves an attempt open |
| `JobQueue.KeysAlwaysUnique` | internal/jobs/queue.go:152-177 | no two jobs ever share a kind and an idempotency key |
| `JobQueue.NothingUndone` | internal/jobs/queue.go:180-376 | between any two points of a history nothing final is undone |
| `JobQueue.SucceedsAtMostOnce` | internal/jobs/queue.go:209-235 | a job is completed by at most one event of a history |
| `JobQueue.RunTellsOutput` | risk-engine/src/atlasrisk/jobs/postgres.py:284-294 | once the Python client completes a scenario job its run is, and stays, valid, degraded or blocked exactly as the output named |
| `JobQueue.RetryBound` | internal/jobs/queue.go:187 | a job changes state at most 2 * max_attempts times, though claiming never reads the limit |
| `JobQueue.LostNeverWrites` | internal/jobs/queue.go:239-263 | a worker that has lost its claim never renews, completes or fails the job again |
| `JobQueue.NewerClaimFences` | internal/jobs/queue.go:221-286 | a newer claim, even by the same worker, shuts out every older one for good |
| `JobQueue.ClaimsDiffer` | internal/jobs/queue.go:198-206 | two claims of a job for one attempt are the same claim |
| `JobQueue.NextCoupledExactly` | risk-engine/src/atlasrisk/jobs/postgres.py:59-254 | one transaction keeps all jobs and runs coupled exactly when it is one of the steps that move both |
| `JobQueue.RunsAlwaysCoupled` | risk-engine/src/atlasrisk/jobs/postgres.py:23-297 | under the Python client, either recovery and the risk service's cancel, every run is at all times in the state its job calls for |
| `JobQueue.RunMissesExactly` | risk-engine/src/atlasrisk/jobs/postgres.py:287-297 | the same at every point of every history of both clients |
| `JobQueue.RunNeverMissing` | risk-engine/src/atlasrisk/jobs/postgres.py:287-297 | in every history in which no scenario job is enqueued without its run, no completion misses one |
| `JobQueue.QueueCancelUncouples` | internal/jobs/queue.go:302-319 | a concrete history in which a cancel in the queue leaves a run running |
| `JobQueue.BareScenarioMissesRun` | internal/jobs/queue.go:152-177 | a concrete history in which a scenario job enqueued without a run misses it on completion |
| `JobStore.Store.Enqueue` | internal/jobs/queue.go:125-177 | refuses an invalid envelope; otherwise adds a job or finds the one with its kind and key |
| `JobStore.Store.CreateRun` | internal/application/scenarios/service.go:1031-1040 | creates run and job together, or neither when the key is taken |
| `JobStore.Store.Claim` | internal/jobs/queue.go:180-206 | takes the job that waits unlocked and comes first by available_at, created_at and id, counts its attempt and leases it for so long from now; there is none exactly when no unlocked job waits |
| `JobStore.Store.Renew` | internal/jobs/queue.go:239-263 | the lease exactly of a live claim ends so long after now; nothing else changes |
| `JobStore.Store.Complete` | risk-engine/src/atlasrisk/jobs/postgres.py:168-206 | completes exactly a live claim, and with a scenario its run as valid, degraded or blocked as the output says; other output or a missing run roll everything back |
| `JobStore.Store.Fail` | internal/jobs/queue.go:265-292 | fails exactly a live claim, for good or until the delay is over, at once for the Python client, which also gives back or fails the run |
| `JobStore.Store.Cancel` | internal/jobs/queue.go:302-319 | cancels exactly an ongoing job and closes its open attempts, leaving its run |
| `JobStore.Store.CancelRun` | internal/application/risk/service.go:213-252 | cancels an ongoing job from its run, failing the open run and leaving the attempts |
| `JobStore.Store.RecoverExpired` | internal/jobs/queue.go:321-381 | stops exactly the running jobs whose lease has run out, for a retry while attempts are left; the bulk update and the loop after it settle every one of them |
| `Timeline.SelectsLastKnown` | internal/platform/database/timeline.sql.go:350-361 | every revision of a queried series inside the window and known by the as-of time is represented by exactly one selected one of its series and time, the last one known |
| `Timeline.LaterRowsChangeNothing` | internal/platform/database/timeline.sql.go:357 | revisions known after the as-of time change no selection |
| `Timeline.RestOfListing` | internal/platform/database/timeline.sql.go:362-367 | the cursor of a row cuts the listing right after that row |
| `Timeline.PagesForIsCeiling` | internal/application/timeline/service.go:362-368 | the number of pages is the rounded-up quotient, and 1 for none |
| `Timeline.PagingIsExact` | internal/application/timeline/service.go:252-258 | following cursors returns rows of the table of the queried series, with from <= time < to and known by the as-of time, in order with one for each series and time, and for every such row the one known last; in max(1, ceil(n/limit)) requests, whatever rows are appended meanwhile |
| `Timeline.SingleSeriesIsCombined` | internal/platform/database/timeline.sql.go:635-658 | in one series the cursor without a series id is the same filter and order |
| `FredResume.AdvanceCounted` | internal/sources/fred/client.go:392-405 | a checkpoint is complete exactly when it has counted the pages the list needs, and observations = next_offset |
| `FredResume.AdvancePlaced` | internal/sources/fred/client.go:392-405 | a page read from merged counters moves the offset on just as if they were right |
| `FredResume.AlwaysConsistent` | internal/collector/runner.go:126-193 | over every interleaving of workers, crashes, failed loads and failures no saved checkpoint runs ahead of the stored rows, its counters are never too low, and a succeeded run has stored the whole list |
| `FredResume.CompleteMeansAll` | internal/sources/fred/client.go:369-405 | a complete checkpoint or run means all rows are stored, and a saved checkpoint is accepted by the request that began it and by no other |
| `FredResume.FinishKeepsCountsExactly` | internal/ingestion/pipeline.go:399-405 | merging a worker's counters into the saved checkpoint keeps them right exactly when that checkpoint is complete, and observations = next_offset exactly when it stands at the end of the list |
| `FredResume.SoloCounts` | internal/collector/runner.go:126-193 | without overlapping workers every checkpoint counts exactly the pages and observations before it |
| `FredResume.OverlapMiscounts` | internal/ingestion/pipeline.go:399-405 | two overlapping workers leave a succeeded run with a checkpoint whose counters are too high, so that a restart would need one page more than the list has |
| `FredResume.Backfill.CompleteRun` | internal/ingestion/pipeline.go:399-405 | succeeds the run and overwrites the two counters of the saved checkpoint, nothing else |
| `FredResume.Backfill.OnePage` | internal/collector/runner.go:153-184 | a page goes on exactly without a fault on a running run, stored before it is checkpointed; for every place it can break off, what is stored and saved by then and whether the run is marked failed |
| `FredResume.Backfill.Resume` | internal/collector/runner.go:126-193 | from any checkpoint overlapping workers can leave: without faults it completes exactly when its checkpoint is complete already, or the run is not marked succeeded and the pages left fit its limit, and otherwise ends in an error; a completed run has stored everything |
| `BinanceResume.AdvanceComplete` | internal/sources/binance/client.go:344-376 | the two passes over a page compute the next start and completion |
| `BinanceResume.ExactExactly` | internal/collector/runner.go:346-377 | a page keeps the stored candles exactly those up to the checkpoint if and only if both readings of the clock agree on its candles |
| `BinanceResume.NoCandleSkipped` | internal/collector/runner.go:320-381 | then after any resumed pages the stored candles are exactly those from the start up to the checkpoint, and a complete backfill holds the whole window as listed |
| `BinanceResume.ExactAtEndExactly` | internal/collector/runner.go:320-381 | over a whole backfill: exact at the end if and only if the readings agreed on every page it read, since a skipped candle never comes back |
| `BinanceResume.CompletesExactly` | internal/sources/binance/client.go:344-376 | while the listing stands still, a backfill completes exactly when all that is listed has closed and the rest is not a multiple of the limit, after exactly the pages that takes |
| `BinanceResume.OpenCandleBlocks` | internal/sources/binance/client.go:359-374 | a listed candle that has not closed keeps every backfill from completing |
| `BinanceResume.FullPageNeverCompletes` | internal/sources/binance/client.go:344-376 | two long-closed candles read two at a time are never completed, however often the run is retried |
| `BinanceResume.StoredAreClosed` | internal/sources/binance/adapter.go:206-213 | only candles closed when normalised are ever stored |
| `BinanceResume.ClockRaceSkips` | internal/sources/binance/adapter.go:206-213 | a candle that closes between the two readings is skipped although the backfill completes |
| `BinanceResume.Backfill.CommitPage` | internal/collector/runner.go:346-377 | commits closed candles and checkpoint together, exactly while the run is running |
| `BinanceResume.Backfill.Resume` | internal/collector/runner.go:320-381 | the loop commits exactly a sequence of such pages; without failures and with a still listing it completes exactly when completion is possible and its pages fit the limit |
| `BinanceWorkers.AlwaysCovered` | internal/collector/runner.go:320-381 | however workers with checkpoints of their own overlap, no checkpoint is ahead of the stored candles, and a succeeded run holds its window as some page listed it |
| `BinanceWorkers.OnlyClosedStored` | internal/sources/binance/adapter.go:206-213 | and only candles closed when normalised are stored |
| `BinanceWorkers.CommitExactly` | internal/collector/runner.go:346-377 | a commit from a worker's own checkpoint leaves exactly what the saved one says if and only if it does not move it back past a candle and what lies between had closed |
| `BinanceWorkers.StaleCommitMovesBack` | internal/collector/runner.go:346-377 | a concrete overlap after which the saved checkpoint lies behind the stored candles |
| `Collector.AlwaysSound` | internal/collector/store.go:109-190 | over every history an occurrence is claimed at most max_attempts times, occurrences complete in strictly increasing order, and no two share an ingestion run |
| `Collector.CompleteKeepsSound` | internal/collector/store.go:157-165 | a completion moves the next due time strictly forward |
| `Collector.FailKeepsSound` | internal/collector/store.go:175-182 | a failure deactivates the schedule exactly when its attempts are used up |
| `Collector.AlwaysForward` | internal/collector/store.go:109-190 | runs, claims and completions are never taken back |
| `Collector.CompletedNeverReclaimed` | internal/collector/store.go:146 | no claim after a completion is for the completed occurrence, so no occurrence key is reused |
| `Collector.NewerClaimFences` | internal/collector/store.go:157-182 | a claim that is not the newest completes and fails nothing |
| `Collector.LeaseProtects` | internal/collector/store.go:100-190 | until its holder settles a running lease, no worker changes the schedule |
| `Collector.HolderCompletes` | internal/collector/store.go:149-172 | a holder that completes while its lease runs completes its occurrence, whatever other workers did since its claim |
| `Collector.StuckForever` | internal/collector/store.go:109-190 | an active schedule with its attempts used up and no running lease is never claimed, completed, failed or switched off again |
| `Collector.RecoverableExactly` | internal/collector/store.go:109-190 | a schedule can be claimed again exactly while it is active and not in that state |
| `Collector.CrashOnLastAttemptSticks` | internal/collector/store.go:113-115 | a concrete schedule whose worker stops on its only attempt stays active and out of reach |
| `CollectorMeaning.ClaimDueIs` | internal/collector/store.go:100-147 | a claim of a schedule by its columns |
| `CollectorMeaning.StartRunIs` | internal/ingestion/pipeline.go:242-270 | starting an ingestion run by its columns |
| `CollectorMeaning.CompleteIs` | internal/collector/store.go:149-172 | a completion by its columns |
| `CollectorMeaning.FailIs` | internal/collector/store.go:174-190 | a failure by its columns |
| `CollectorStore.Store.ClaimDue` | internal/collector/store.go:100-147 | takes the unlocked schedule that is due and comes first by next_run_at and id, counts its attempt and leases it for its lease time; there is none exactly when no unlocked schedule is due |
| `CollectorStore.Store.StartRun` | internal/ingestion/pipeline.go:242-270 | one ingestion run per occurrence; one that is there keeps its id, and is taken up again exactly when it had failed |
| `CollectorStore.Store.FinishRun` | internal/ingestion/pipeline.go:399-410 | settles the run of an occurrence, whoever holds the schedule |
| `CollectorStore.Store.Complete` | internal/collector/store.go:149-172 | takes effect exactly for the holder of a running lease: the next run is an interval after its clock reading, and all attempts are there again |
| `CollectorStore.Store.Fail` | internal/collector/store.go:174-190 | takes effect exactly for the holder of a running lease: a retry an interval after its clock reading, and with the last attempt the end of the schedule |
| `CollectorStore.Store.RunOnce` | internal/collector/worker.go:26-53 | a pass changes exactly the first due schedule, by the events of its outcome, and succeeds exactly when there is nothing to do or the handler is done while the lease runs; no other worker comes in between, which the two rows on running leases make up for |
| `CollectorStore.PassSettles` | internal/collector/worker.go:26-53 | a pass keeps every guarantee; in time it completes the occurrence, or sets a retry, or switches the schedule off; otherwise it leaves only its claim, stuck exactly on the last attempt |
| `CollectorStore.TableAlwaysSound` | internal/collector/store.go:109-190 | over every history of all schedules each keeps its guarantees, and no two occurrences of any schedules share an ingestion run |
| `FxPaths.LoadQuotes` | internal/application/valuation/service.go:262-286 | keeps exactly the rows that come first for their ordered pair, in order, and loses no pair |
| `FxPaths.FindPath` | internal/application/valuation/service.go:306-357 | the preferred direct quote if there is one, else the first quotes of a bridge through USD, with its rate and edges, or the reason there is none |
| `FxPaths.ConversionInverts` | internal/application/valuation/service.go:306-377 | a path exists exactly when the reverse one does, with the same error otherwise; rates are positive and multiply to 1, edges are the same walked backwards |
| `FxPaths.PathConnects` | internal/application/valuation/service.go:306-377 | a path runs from source to target over at most two positive quotes and its rate is their product |
| `FxPaths.AtMostTwo` | internal/application/valuation/service.go:325-336 | a loaded list has at most one quote of a pair each way, and the chosen one precedes the other |
| `FxPaths.PathExactly` | internal/application/valuation/service.go:306-377 | the same of the path by the fields of the quotes: observed, then known at the source, then to the system, then by id |
| `DecimalText.RoundsHalfAway` | internal/application/valuation/service.go:529-548 | the printed value is the nearest multiple of 10^-18, halves away from zero |
| `DecimalText.ParsePrinted` | internal/application/valuation/service.go:521-561 | reading printed text gives back exactly the printed number of units |
| `DecimalText.FormatIdempotent` | internal/application/valuation/service.go:563-569 | what was printed once prints the same again |
| `DecimalText.FormatNear` | internal/application/valuation/service.go:521-561 | printing a number and reading it back moves it by at most half a unit |
| `DecimalText.FormatOdd` | internal/application/valuation/service.go:529-548 | a number and its opposite print as opposite numbers of units |
| `DecimalText.PrintInjective` | internal/application/valuation/service.go:549-560 | different values print differently |
| `DecimalText.PrintedShows` | internal/application/valuation/service.go:549-561 | the text of a number: a sign, its whole part, a point and eighteen digits |
| `DecimalText.LimitsAreDigits` | risk-engine/src/atlasrisk/scenarios/core.py:80-97 | the two limits are the numbers of at most 38 and at most 28 digits |
| `Valuation.LineIsConverted` | internal/application/valuation/service.go:92-145 | each stored amount is the nearest unit of the amount carried along the path there, present exactly when there is a path; a line is valid when both are |
| `Valuation.Create` | internal/application/valuation/service.go:82-155 | loads the FX rows and stores for every holding its quantity or quantity times price, carried to TRY and USD along the paths there are; the totals are the sums of the stored amounts |
| `Valuation.Total` | internal/application/valuation/service.go:494-507 | reading a run adds up exactly the stored amounts |
| `Valuation.TotalsReadBack` | internal/application/valuation/service.go:494-507 | the totals of a created run are the totals read back from its lines in any order |
| `Reconciliation.ScanRows` | internal/application/reconciliation/service.go:155-188 | collects exactly the lines with a usable amount, those of the account among them, its line ids, and row counts |
| `Reconciliation.CheckLines` | internal/application/reconciliation/service.go:191-208 | passes exactly when every line of the account has one valuation line and that one is usable; otherwise it names a fault some line has |
| `Reconciliation.CompareLines` | internal/application/reconciliation/service.go:239-271 | passes exactly when every check is of a line of the account, with the difference of its amounts; otherwise the first stranger decides which refusal |
| `Reconciliation.Create` | internal/application/reconciliation/service.go:89-311 | accepted exactly when the checks are distinct lines of the account, the valuation is valid and has the request's currency and cutoff, every line of the account is valued once, and checks that name all lines add up to the external NAV; every refusal has its reason; reports the NAV as the sum of the lines, the difference as a share of the external NAV to the nearest unit, and reconciles exactly within tolerance |
| `Reconciliation.AmountsUnique` | internal/application/reconciliation/service.go:155-213 | the rows leave no choice of the account's amounts |
| `Reconciliation.DefaultToleranceIs` | internal/application/reconciliation/service.go:407-414 | the default tolerance is one basis point of the NAV to the nearest unit, but at least 0.01 |
| `Reconciliation.CompleteConserves` | internal/application/reconciliation/service.go:239-282 | complete line checks name every line of the account once, and their differences add up to external NAV - valuation NAV |
| `Returns.NextCalendarDate` | risk-engine/src/atlasrisk/returns/core.py:13-17 | the loop finds the first calendar day after a day |
| `Returns.PassIsDefinition` | risk-engine/src/atlasrisk/returns/core.py:37-61 | neighbours in the sorted list with no gap are exactly the days whose calendar predecessor has a valid price |
| `Returns.ComputeLogReturns` | risk-engine/src/atlasrisk/returns/core.py:24-61 | a day has a return exactly when it and the calendar day before have finite positive prices, and it is the log of its price over the price before; returns and gaps number max(0, n - 1) |
| `Returns.ReturnsAddUp` | risk-engine/src/atlasrisk/returns/core.py:24-61 | over days without a gap the returns add up to the log of the last price over the first |
| `Returns.ReturnsUnique` | risk-engine/src/atlasrisk/returns/core.py:37-61 | an instrument has one series of returns |
| `Returns.CachedIsAligned` | risk-engine/src/atlasrisk/metrics/core.py:172-173 | when two instruments share their valid days, cached returns are the aligned ones |
| `Returns.PairReturns` | risk-engine/src/atlasrisk/metrics/core.py:157-177 | all three branches give each instrument's own log returns on the days both have prices, they and the day before |
| `Returns.MaximumDrawdown` | risk-engine/src/atlasrisk/metrics/core.py:213-223 | the running peak finds the minimum of v[j]/v[i] - 1 over all i <= j |
| `MetricEvidence.ValidateConversion` | internal/application/evidence/service.go:443-489 | accepts a revision exactly when its USD text is the nearest unit to its positive price times the rates of the direct steps and over those of the inverse ones, along a path from its currency to USD |
| `MetricEvidence.StepLeads` | internal/application/evidence/service.go:471-475 | a step multiplies by what a quote of its pair converts at on a valuation's path, forward or in reverse |
| `MetricEvidence.FilledPrints` | internal/application/scenarios/service.go:620-636 | what the producer prints: the price in USD, nothing without a rate, else the nearest unit to the price times a direct rate or over an inverse one |
| `MetricEvidence.LastIsShown` | internal/application/evidence/service.go:317-374 | a listed day shows the text of its last entry |
| `MetricEvidence.Verify` | internal/application/evidence/service.go:259-402 | accepts a bundle exactly when every listed revision holds up or is constant USD cash, no instrument is listed twice, and each history is the last USD price of each listed day |
| `MetricEvidence.Produce` | internal/application/scenarios/service.go:638-687 | lists the first revision of each time and seals the last price of each day |
| `MetricEvidence.SelectedIsFirst` | internal/application/scenarios/service.go:671-687 | every sorted revision has a listed one of its time, with the lowest id |
| `MetricEvidence.SelectedAscends` | internal/application/scenarios/service.go:671-687 | the listed revisions come once for each time, in order |
| `MetricEvidence.FilledConverts` | internal/application/scenarios/service.go:620-636 | a filled-in revision holds up exactly when its price is positive, a rate was found and it does not round to zero |
| `MetricEvidence.ProducerAcceptedExactly` | internal/application/evidence/service.go:259-402 | a producer's bundle, constant cash included, is accepted exactly when every price found an FX rate and none rounds to zero |
| `MetricEvidence.MissingRateRefused` | internal/application/scenarios/service.go:432-436 | a euro price without an FX rate is sealed by the producer and refused by the verifier |

## Left out

- Scenario.EvaluateScenario: does not model the numbers of the post-shock volatility and correlation metrics, only whether scanning them succeeds, nor the lists of reason codes and unmapped instruments that repeat the positions' own
- AttributionReport.AttributeScenario: does not model the memo of evaluated subsets or the sorting of factor names, which change no result (`Shapley.ShareReordered`)
- AttributionReport.AttributeScenario: does not model the list of unmapped positions
- Timeline.PagingIsExact: does not model a window without an end, whose default end moves with the clock between requests
- FredResume.AlwaysConsistent: does not model an upstream list that changes during a backfill; a refused archive registration is one of the failures
- Reconciliation.Create: does not model the parsing of decimal text and identifiers that precedes the checks; the scan takes its rows to be the left join the query asks for
- FxPaths.FindPath: does not model sorting more than two direct quotes, which a loaded list never has
- finite decimal precision between the storage boundaries, and binary floats
- decoding of JSON payloads: fields arrive as numbers, absent or malformed
- deriving pre-shock metrics from price histories in the job handler
- selection of the FX revision for a metric price and the metric NAV; a revision found is a parameter of `MetricEvidence.Filled`
- the latest and source-as-of timeline modes, whose selection may change between pages
- volatility, correlation, concentration and leverage figures
- hashing, canonical JSON, HTTP, S3 and the web application
- imports, quality classification, portfolio and journal records
