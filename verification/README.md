# Prediction-market arbitrage: a verified model

The system watches order books of prediction markets, prices baskets of outcome tokens against
them, reports baskets that pay more in every logical state than they cost, stress-tests them
against later books, gates them on risk and writes paper orders. This project models that path and
proves what it guarantees, stage by stage and end to end.

| file | part of the system |
|---|---|
| Common.dfy, Sorting.dfy, Checks.dfy | reals, sequences, maps; stable sorting; chains of checks |
| ExecutablePricing.dfy, BasketPricing.dfy | walking a book, basket size and cost |
| Templates.dfy, Detection.dfy, SizeChoice.dfy, DetectionChecks.dfy | constraint states, the two detectors, what looking at the largest size finds and misses, why a constraint is rejected |
| FillModel.dfy, Simulation.dfy, SimulationGuarantees.dfy, SimulationAmounts.dfy | slippage, fill assessment, verdicts, what they certify, every amount in terms of legs and books |
| BookStore.dfy, Ingestion.dfy, Replay.dfy | latest-book cache, stored books, recovery, replay |
| Opportunities.dfy, OpportunityStore.dfy, Lifecycle.dfy, DetectorService.dfy, StoredEdges.dfy | opportunity rows over detector runs, the edges they carry |
| Exposure.dfy, SimulationStore.dfy, RiskPolicy.dfy | exposure, stored simulations, the risk gate |
| OrderBuilder.dfy, OrderGuarantees.dfy, OrderChecks.dfy | rounded order intents, the profit they keep, why none are built |
| OrderStore.dfy, Trading.dfy, TradingHistory.dfy | paper store, one trade attempt, every reachable store |
| TraderRuntime.dfy, RepeatedPasses.dfy, Pipeline.dfy | a pass over open opportunities, several passes, end to end |
| Platform.dfy, PlatformSteps.dfy, Provenance.dfy, FirstOrder.dfy, StaleCertificates.dfy | all stages as one state machine, what its steps write, where its orders come from, a run that stores some, an approval on an outdated simulation |

Loops and stores of the program are methods and classes here, each proved equal to a function on
values; the theorems are about those functions. Main results, hardest first:

- **Notional cap.** Whatever the detector stored over any history and however controls and
  simulations change meanwhile, one trading pass writes at most the configured notional
  (`Pipeline.DetectedPassStaysWithinCap`). Over several passes it holds exactly when the number of
  passes times the rounded total of one is within it (`RepeatedPasses.LimitOverPassesExactly`).
- **Provenance.** In one state machine of book events, detector runs, simulator runs, control
  changes and interleaved trader passes, every order names a robust simulation the simulator
  computed of the ordered row, and it was of the ordered version exactly when no detector run
  refreshed the row in between (`Provenance.EveryOrderIsCertified`). Simulator runs write what they
  should (`PlatformSteps.SimulatorWritesSummaries`), and such orders exist
  (`FirstOrder.OrdersAreStored`).
- **Guaranteed profit survives rounding.** In every logical state the rounded orders pay at least
  the finding's profit per basket above what they cost (`OrderGuarantees.OrdersProfitInEveryState`).
- **Paper-store safety** over all interleavings of control changes, simulations and attempts
  (`TradingHistory.EveryOrderIsExplained`, `TradingHistory.ExecutesAtMostOnce`).
- **Recovery and replay.** The store recovers the live cache, cut to the stored depth
  (`Ingestion.RecoveryAgreesWithCache`); replay does not depend on the order of its input
  (`Replay.ReplayIgnoresInputOrder`).
- **Opportunity lifecycle** over all sequences of runs (`Lifecycle.HistoryExplained`).
- **Pricing.** Greedy fills are optimal, basket size is exact, edges shrink with size
  (`ExecutablePricing.GreedyFillIsOptimal`, `BasketPricing.MaxBasketQuantityIsExact`,
  `BasketPricing.SmallerBasketsKeepTheEdge`).
- **Detection and simulation.** Findings are arbitrages, the two detectors agree, a ROBUST verdict
  certifies profit, and the simulator reproduces the detected edge on unchanged books. Every figure,
  flag and verdict of a simulation is told from legs, books and instants
  (`SimulationAmounts.SimulationIsExact`).
- **Decisions.** Detector, risk gate, order builder and trader each stop at the first check that
  fails, with its code, and go through exactly when none does; the checks are told from what is
  recorded, not from the code (`DetectionChecks.FirstFailingCheckRejects`,
  `RiskPolicy.FirstFailingGateDecides`, `OrderChecks.FirstFailingCheckStops`,
  `Trading.FirstFailingCheckRefuses`).

Where the code does not meet a plausible expectation, the model keeps the code and says when it does:

- With its gates passed, the detector finds a basket of positive cost exactly when the basket is
  profitable at its largest executable size; one
  that is profitable only at smaller sizes is missed (`SizeChoice`).
- The gate approves a refreshed opportunity on the simulation of an earlier version
  (`StaleCertificates.ApprovedOnOldSimulation`): it never reads what was simulated, or when
  (`Pipeline.GateIgnoresWhatWasSimulated`). What an order rests on is exact in
  `Provenance.EveryOrderIsCertified`; a refreshed row carries the pricing of its last refresh
  (`Platform.LastRefreshPrices`).
- The notional limit is a limit per pass: an opportunity that stays open is written again by a
  later pass (`RepeatedPasses.TwoPassesExceedTheLimit`), though never twice at one time
  (`RepeatedPasses.SamePassAgainWritesNothing`).
- The profit bounds are ordered exactly when the configured slippage never charges more than the
  whole value of a sale (`SimulationGuarantees.BoundsAreOrderedExactly`).
- Truncation to whole seconds forgives books up to a second in the future (`Simulation.MistimedExactly`).
- Recovery into a cache that is already live overwrites full books by their stored cuts
  (`Ingestion.RecoveryTruncatesLiveCache`, harmless exactly for books no deeper than stored), and asking it for no token at all loads every token.
- The risk gate computes a remaining capacity but never approves less than the full cost
  (`RiskPolicy.ApprovedAtFullSize`), so the order builder's scaling acts on other approvals only.
- A run id shared by two opportunities is refused for the one whose row is older
  (`Trading.LinkAcceptedExactly`).

## Model

| member | source | states |
|---|---|---|
| ExecutablePricing.ComputeWeightedFillPrice | src/constraint_scanner/simulation/executable_pricing.py:63-120 | the fill loop computes the greedy fill of the sorted levels: quantity, notional, average and audit trail; nothing for a non-positive request |
| ExecutablePricing.FilledQuantityExact | src/constraint_scanner/simulation/executable_pricing.py:85-107 | the filled quantity is the request cut to the total positive depth; a fill is complete exactly when the request is within it |
| ExecutablePricing.FillPermutationInvariant | src/constraint_scanner/simulation/executable_pricing.py:214-217 | listing the levels in another order changes nothing about a fill |
| ExecutablePricing.SlicesAccountForFill | src/constraint_scanner/simulation/executable_pricing.py:91-120 | the consumed slices add up to the filled quantity and the notional, only the last one may be partial, and average times quantity is the notional |
| ExecutablePricing.GreedyFillIsOptimal | src/constraint_scanner/simulation/executable_pricing.py:85-107 | among all ways to take the filled quantity from the levels, a buy pays the least and a sell receives the most; the optimum is attained |
| ExecutablePricing.AveragePriceMonotone | src/constraint_scanner/simulation/executable_pricing.py:91-111 | a larger quantity never gets a better average price |
| ExecutablePricing.FillSplits | src/constraint_scanner/simulation/executable_pricing.py:91-107 | a fill of a+b is a fill of a followed by a fill of b on what is left of the book, in quantity and notional |
| ExecutablePricing.CutBookFill | src/constraint_scanner/simulation/executable_pricing.py:91-107 | a fill on the first n sorted levels equals the fill on all of them exactly when it fits into those levels or the rest offers nothing |
| BasketPricing.ComputeAvailableQuantity | src/constraint_scanner/simulation/executable_pricing.py:148 | only levels of positive size count toward the available quantity |
| BasketPricing.ComputeMaxExecutableSizeForBasket | src/constraint_scanner/simulation/executable_pricing.py:123-160 | the size loop looks at the legs up to the first unpriceable one, gives each of their tokens the limit of its last leg and no other token one, and returns the least limit with the token of the leg that stops it, else of the first leg with that limit |
| BasketPricing.ComputeBasketCost | src/constraint_scanner/simulation/executable_pricing.py:163-201 | the cost loop computes the per-token fills and the buy, sell and net totals |
| BasketPricing.FillsByToken | src/constraint_scanner/simulation/executable_pricing.py:171-191 | for distinct tokens every leg's fill is in the result under its token, and nothing else is |
| BasketPricing.MaxBasketQuantityIsExact | src/constraint_scanner/simulation/executable_pricing.py:123-201 | for distinct-token legs of positive quantity every leg fills in full at a size exactly when the size is at most the maximum basket quantity; the detectors' insufficient-depth rejection is therefore unreachable |
| BasketPricing.SmallerBasketsKeepTheEdge | src/constraint_scanner/simulation/executable_pricing.py:163-211 | the net edge per basket at the maximum size is a lower bound for every smaller size, for mixed buy and sell legs |
| Templates.BuildExactOneOfNStates | src/constraint_scanner/constraints/templates/exact_one_of_n.py:32-47 | the loop builds, per member, the state in which only that member pays |
| Templates.BuildOneVsFieldStates | src/constraint_scanner/constraints/templates/one_vs_field.py:36-64 | the loop builds the state of the one and then a state per field member |
| Templates.BuildBinaryComplementStates | src/constraint_scanner/constraints/templates/binary_complement.py:24-41 | the two literal states are the states in which exactly one of the two members pays |
| Templates.EvaluateFromStates | src/constraint_scanner/constraints/base.py:12-45 | refuses an invalid context; otherwise the loop gives every state its gross and net payoff and the least and greatest of them |
| Templates.MemberCanWin | src/constraint_scanner/constraints/templates/one_vs_field.py:36-64 | a member wins in some state unless it is a one-versus-field member that is neither the one nor in the field |
| Templates.EachStatePaysOneToken | src/constraint_scanner/constraints/base.py:23-34 | for any number of members every state pays one dollar on exactly one distinct token |
| Templates.NetPayoffIsStateIndependent | src/constraint_scanner/constraints/base.py:23-45 | every state has the same net payoff, one dollar minus the price of a basket, so minimum and maximum coincide |
| Templates.ValidExactly | src/constraint_scanner/constraints/templates/exact_one_of_n.py:21-31 | a context is valid exactly when its tokens differ and it is two complementary tokens, or two or more declared complete, or exactly one against at least one field member declared complete |
| Detection.PersistenceKeyIgnoresOrder | src/constraint_scanner/detection/persistence.py:13-29 | listing the legs in another order gives the same key |
| Detection.PersistenceKeyExactly | src/constraint_scanner/detection/persistence.py:13-29 | with a hash that tells the two inputs apart, two keys are equal exactly when the templates are and the legs agree as multisets of market, token, side and quantity |
| Detection.FindingKeysExactly | src/constraint_scanner/detection/combinatorial.py:80-226 | two findings, of any settings, books and confidences, carry the same key exactly when their contexts have the same template and the same members, under such a hash |
| Detection.BasketIsPriced | src/constraint_scanner/detection/combinatorial.py:126-145 | at the maximum size every member is filled in full at an average price, and the cost is the sum of the unit prices times the size |
| Detection.FindingIsArbitrage | src/constraint_scanner/detection/combinatorial.py:80-226 | whenever the detector reports a finding, in every state of the template the filled legs pay exactly the expected value above their cost, that value is positive, and the stored details are detector-produced pricing |
| Detection.FindingEdges | src/constraint_scanner/detection/combinatorial.py:160-226 | the reported edge times the cost is the expected value, in basis points as well; it exceeds the configured minimum; the score is the expected value times a positive confidence |
| Detection.FindingLegs | src/constraint_scanner/detection/combinatorial.py:180-226 | the legs of a finding, as reported and as stored, are the members in order, bought at their average prices in one quantity |
| DetectionChecks.FirstFailingCheckRejects | src/constraint_scanner/detection/combinatorial.py:80-172 | the enumerating detector rejects with the code of the first of seven checks that fails, told from the books, and reports a finding exactly when none does |
| DetectionChecks.FirstFailingCheckRejectsClosedForm | src/constraint_scanner/detection/intra_market.py:28-87 | the closed-form detector rejects with the code of the first of its five checks that fails |
| DetectionChecks.ConstraintIsEvaluated | src/constraint_scanner/detection/detector_service.py:79-145 | a run evaluates every loaded constraint on its own members, at its own confidence, on the books of the run |
| Detection.DetectorsAgree | src/constraint_scanner/detection/intra_market.py:28-189 | with the leg and confidence gates passed and no minimum edge, enumerating and closed-form detection report the same basket with the same edge, score, key and stored pricing, or both nothing; only the per-state payoffs and the member list are left to the enumerating one |
| Detection.DepthAlwaysSuffices | src/constraint_scanner/detection/combinatorial.py:133-139 | neither detector ever rejects for insufficient depth |
| SizeChoice.BestLevelIsBest | src/constraint_scanner/simulation/executable_pricing.py:214-217 | the first sorted level with anything to offer has the least price of all that do |
| SizeChoice.ProfitableSizeExistsExactly | src/constraint_scanner/detection/combinatorial.py:126-173 | some executable size of a basket is profitable exactly when the best asks add up to less than one dollar |
| SizeChoice.DetectorFindsExactly | src/constraint_scanner/detection/combinatorial.py:98-172 | with the leg and confidence gates passed, for every minimum edge: the detector reports a basket exactly when the average prices at the largest executable size add up to a positive amount below one dollar with an edge above the minimum; then the best asks add up to less than one dollar too |
| SizeChoice.ProfitMissedAtFullSize | src/constraint_scanner/detection/combinatorial.py:126-153 | a concrete basket with a profitable size that the detector rejects, because it looks at the largest size only |
| SizeChoice.ProfitFoundAtFullSize | src/constraint_scanner/detection/combinatorial.py:126-226 | findings exist: a concrete basket that the detector reports |
| FillModel.SlippageIsShareOfNotional | src/constraint_scanner/simulation/slippage.py:46-72 | slippage moves the notional against the order by exactly the applied share of it, for both sides |
| FillModel.AssessBasketFill | src/constraint_scanner/simulation/fill_model.py:90-155 | the step-by-step assessment says of the legs: the completed quantity, the share of the request, the probability with the stale factor exactly when a quote is stale, the asymmetry factor exactly when legs are uneven and zero exactly when a quote is mistimed, cut to [0, 1], and every flag exactly when its condition holds |
| FillModel.AssessmentIsExact | src/constraint_scanner/simulation/fill_model.py:90-155 | completed quantity, probability and flags of any assessment in terms of the legs alone |
| FillModel.CompletedIsLargestSupported | src/constraint_scanner/simulation/fill_model.py:111-115 | the completed quantity is the largest one all legs support, and some leg is used up by it |
| Simulation.MistimedExactly | src/constraint_scanner/simulation/engine.py:139-145 | a quote counts as mistimed exactly when its book is at least one whole second in the future, because ages are truncated |
| Simulation.Simulate | src/constraint_scanner/simulation/engine.py:73-266 | the leg loop and the profit arithmetic compute the simulation whose amounts SimulationAmounts tells, including the invalid payloads and skipped legs |
| SimulationAmounts.SimulationIsExact | src/constraint_scanner/simulation/engine.py:73-266 | every simulation that is not refused: its legs are those that ask for something, filled on the books; probability, flags, residuals, net cost and the three profit figures follow from them, and so does the verdict, NON_EXECUTABLE and ROBUST each exactly when |
| SimulationAmounts.RefusedExactly | src/constraint_scanner/simulation/engine.py:84-185 | a simulation is refused exactly when pricing, legs or payoffs are missing, basket or payoff floor is not positive, or no leg asks for anything |
| SimulationAmounts.QuoteIsStaleExactly | src/constraint_scanner/simulation/engine.py:139-145 | in instants: a leg is stale exactly when it has no book, its book lies a whole second in the future, or it is a whole second or more past the limit |
| SimulationAmounts.ChargeIsExact | src/constraint_scanner/simulation/slippage.py:46-72 | a fill is charged the base and the extra once per level after the first, against the order |
| SimulationAmounts.ResidualIsExact | src/constraint_scanner/simulation/engine.py:475-501 | what a leg holds beyond the completed baskets: sold back if bought, and bought back if sold, at one dollar where the asks end |
| Simulation.FullFillsComplete | src/constraint_scanner/simulation/engine.py:187-207 | if every leg fills in full, the requested baskets complete and no leg has a residual |
| Simulation.RobustCertifiesProfit | src/constraint_scanner/simulation/engine.py:187-227 | for any legs a ROBUST verdict means: every leg filled its whole request, the requested baskets complete, all residuals are zero, and payout floor times quantity minus slippage-adjusted cost equals both bounds and the expected profit and is positive |
| SimulationGuarantees.ProfitBoundsAreOrdered | src/constraint_scanner/simulation/engine.py:201-227 | for mixed legs, whenever selling any bought token back is worth at least nothing: probability in [0, 1], downside <= expected <= base case, matched + excess = filled, the completed quantity is the largest supported, and some leg has no excess |
| SimulationGuarantees.BoundsAreOrderedExactly | src/constraint_scanner/simulation/slippage.py:58-66 | the bounds are ordered for every opportunity on all books with non-negative bids of at most n levels exactly when the configured charge on the first level and on the n-th stays within the whole value, whatever the sign of the charges |
| SimulationGuarantees.OverchargedSale | src/constraint_scanner/simulation/engine.py:487-493 | beyond that charge the ordering fails: k units bought beside a leg without a book are sold back into k bids at a loss, and the base case lies below the downside bound |
| SimulationGuarantees.ExcessiveSlippageReversesTheBounds | src/constraint_scanner/simulation/engine.py:487-493 | one concrete configuration and opportunity where it does |
| SimulationGuarantees.SimulatorAgreesWithDetector | src/constraint_scanner/simulation/engine.py:125-227 | simulating a finding on its own books gives the detected edge less slippage as all three profit figures, and ROBUST exactly when that is positive, the quotes are fresh, the level gap is below the threshold and the thresholds can be met |
| SimulationGuarantees.UnslippedSimulationReproducesEdge | src/constraint_scanner/simulation/engine.py:125-227 | without slippage the three figures equal the finding's expected value, and the verdict is ROBUST exactly in a calm market |
| Ingestion.LatestBookCache.Update | src/constraint_scanner/ingestion/ws_consumer.py:24-29 | an incoming book replaces the cached one unless it is older |
| Ingestion.LatestBookCache.Items | src/constraint_scanner/ingestion/ws_consumer.py:36-39 | the cached books, each once, in ascending token order |
| Ingestion.FeedState.Mark | src/constraint_scanner/ingestion/feed_state.py:25-31 | the last-seen time of a token never goes back |
| Ingestion.FeedState.LatestUpdateAt | src/constraint_scanner/ingestion/feed_state.py:33-38 | the greatest last-seen time, none when nothing was seen |
| Ingestion.FeedState.StaleTokenIds | src/constraint_scanner/ingestion/feed_state.py:40-47 | exactly the tokens last seen before the cutoff, ascending |
| Ingestion.OrderbooksRepository.CreateTopSnapshot | src/constraint_scanner/db/repositories/orderbooks.py:16-27 | upserts the top row of a token and time and leaves the rest alone |
| Ingestion.OrderbooksRepository.ReplaceDepthSnapshot | src/constraint_scanner/db/repositories/orderbooks.py:36-56 | deletes the depth rows of the key and inserts the given ones |
| Ingestion.OrderbooksRepository.GetLatestTop | src/constraint_scanner/db/repositories/orderbooks.py:58-65 | the latest stored time of the token, none exactly when it has no row |
| Ingestion.PersistBook | src/constraint_scanner/ingestion/ws_consumer.py:117-158 | writes the top row and the cut depth rows of a book |
| BookStore.EventKeepsAgreement | src/constraint_scanner/ingestion/ws_consumer.py:89-115 | every event, late, tied or new, keeps the cache in agreement with the most recent stored top and depth of each token |
| BookStore.StoredTopIsBest | src/constraint_scanner/ingestion/ws_consumer.py:118-133 | the stored top row has the best level of each side that has levels, and the spread in basis points exactly when both do |
| BookStore.StoredDepthIsBook | src/constraint_scanner/ingestion/ws_consumer.py:134-158 | the stored depth of a book is the first levels of each side, as many as configured, numbered from one; other tokens and times keep theirs |
| BookStore.RecoveredIsCutBook | src/constraint_scanner/ingestion/backfill.py:52-82 | the book recovered for a token is the sorted cut of its cached book, and is the cut itself exactly when that is sorted |
| Ingestion.MarketFeedService.HandleMarketEvent | src/constraint_scanner/ingestion/ws_consumer.py:89-115 | an event without a book changes nothing; one with a book reaches cache, feed state and store |
| Ingestion.MarketFeedService.SnapshotBooks | src/constraint_scanner/ingestion/market_feed_service.py:61-68 | fetched books are persisted in arrival order and observed in token order |
| Ingestion.TokenOrderIsFree | src/constraint_scanner/ingestion/orderbook_snapshot.py:53-62 | observing the books by token leaves the same cache and feed state as observing them as they arrived |
| Ingestion.SnapshotsAreEvents | src/constraint_scanner/ingestion/orderbook_snapshot.py:32-62 | a snapshot batch has the effect of handling its books one by one as events |
| Ingestion.MarketFeedService.Load | src/constraint_scanner/ingestion/backfill.py:40-90 | recovers each requested token that is stored and returns those tokens once each, both in ascending order; an empty request loads every stored token |
| Ingestion.RecoveryAgreesWithCache | src/constraint_scanner/ingestion/backfill.py:40-94 | after any run of events on sorted books, late and tied times included, a restarted process that loads the store has the live feed state and every live book cut to the stored depth |
| Ingestion.RecoveryTruncatesLiveCache | src/constraint_scanner/ingestion/backfill.py:83-84 | loading into a live cache replaces equally recent books by their stored cuts, which changes nothing exactly when neither side of the book has more levels than are stored |
| Ingestion.RecoveredFills | src/constraint_scanner/ingestion/backfill.py:58-71 | a fill on a recovered book equals the live one exactly when it fits into the stored depth or nothing executable was cut off |
| Replay.ReplayRecords | src/constraint_scanner/replay/replay_feed.py:82-114 | replays the market records in sort order through the event handler, counts them and picks the effective time |
| Replay.ReplayIsChronological | src/constraint_scanner/replay/replay_feed.py:94-111 | records are replayed by time and then by sequence number, and where no time is given the run continues at the latest time received |
| Replay.TextLeqExactly | src/constraint_scanner/replay/replay_feed.py:99 | the payload texts that break ties are compared at the first place where they differ |
| Replay.ReplayIgnoresInputOrder | src/constraint_scanner/replay/replay_feed.py:94-114 | permuted records leave the same cache, feed state, store and effective time, although records tied on the sort key may differ elsewhere |
| DetectorServices.OpportunitiesRepository.GetOpenByPersistenceKey | src/constraint_scanner/db/repositories/opportunities.py:34-41 | the open row of a constraint under a key |
| DetectorServices.OpportunitiesRepository.UpsertOpenOpportunity | src/constraint_scanner/db/repositories/opportunities.py:43-82 | overwrites the open row under the key, keeping its id, or inserts a new row |
| DetectorServices.OpportunitiesRepository.CloseOpenForConstraint | src/constraint_scanner/db/repositories/opportunities.py:84-106 | closes exactly the open rows of the constraint whose keys were not observed, and reports them |
| DetectorServices.DetectorService.Run | src/constraint_scanner/detection/detector_service.py:54-145 | a run refreshes, opens and closes rows as the value-level run does on the books currently cached, and counts the constraints found and rejected; what the rows carry is told by StoredEdges and DetectionChecks |
| OpportunityStore.ApplyEffect | src/constraint_scanner/detection/detector_service.py:79-139 | one evaluation refreshes, closes or leaves each earlier row, opens at most one, and keeps at most one row open per constraint |
| OpportunityStore.RunEffect | src/constraint_scanner/detection/detector_service.py:79-139 | a whole run treats every row by the evaluation of its constraint and adds only rows opened by findings |
| OpportunityStore.EvaluatedConstraintSettles | src/constraint_scanner/detection/detector_service.py:79-139 | an evaluated constraint ends the run with exactly one open row, under the found key and seen at the run's time, and with none when rejected |
| OpportunityStore.RunKeepsIdentity | src/constraint_scanner/db/repositories/opportunities.py:43-106 | closed rows never change again; id, constraint, key and first sighting of a row never change |
| StoredEdges.RunReplacesRow | src/constraint_scanner/detection/detector_service.py:101-136 | a run that finds a constraint under another key than its open row closes that row at its time and opens one with sighting count one |
| StoredEdges.ReplacedMembersReopen | src/constraint_scanner/detection/detector_service.py:79-136 | a constraint found with other members than its open row was found with gives it up for a new row, under any hash that tells the two apart |
| Lifecycle.HistoryExplained | src/constraint_scanner/detection/detector_service.py:54-139 | over any sequence of runs every row has a span of runs that fixes its status and timestamps, its sighting count is the number of detecting runs in the span, and spans of one constraint do not overlap |
| Lifecycle.TimestampsOrdered | src/constraint_scanner/detection/persistence.py:56-80 | with runs at non-decreasing times: first seen <= last seen <= closed, and closed rows are exactly those with a closing time |
| Lifecycle.OpenIntervalsDisjoint | src/constraint_scanner/db/repositories/opportunities.py:84-106 | of two rows of one constraint the older is closed no later than the younger is first seen |
| DetectorServices.ServiceHistoryExplained | src/constraint_scanner/detection/detector_service.py:54-145 | the rows stored by any history of service runs have spans of runs that account for them; spans of one constraint do not overlap |
| DetectorServices.StoredTimestampsOrdered | src/constraint_scanner/detection/detector_service.py:54-145 | stored rows were first seen, last seen and closed in this order |
| DetectorServices.StoredIntervalsDisjoint | src/constraint_scanner/detection/detector_service.py:54-145 | of two stored rows of one constraint the older was closed no later than the younger was first seen |
| DetectorServices.StoredRowsArePriced | src/constraint_scanner/detection/detector_service.py:79-139 | every row reachable by detector runs carries detector-produced pricing |
| StoredEdges.StoredRowsHaveEdges | src/constraint_scanner/detection/detector_service.py:103-131 | every row reachable by detector runs has an edge: edge times gross cost is the expected value in basis points, the expected value is what the basket pays above its price, the edge exceeds the minimum, the score is that value times a positive confidence, and the persistence is the time between first and last sighting |
| StoredEdges.EdgeGateNeverRefuses | src/constraint_scanner/risk/policy.py:184-191 | a risk gate no stricter on edge than the detector never refuses a stored row for its edge |
| Exposure.BuildExposureState | src/constraint_scanner/risk/exposure.py:26-88 | the loops compute totals and the market, group and token maps of the open rows |
| Exposure.ReportedIsSumOfShares | src/constraint_scanner/risk/exposure.py:41-76 | every reported number is the sum of what each opportunity adds to it |
| Exposure.LoneExposure | src/constraint_scanner/risk/exposure.py:91-106 | one open opportunity is one basket of its recorded gross and net cost, a missing one counting as zero |
| Exposure.ExposureIsConserved | src/constraint_scanner/risk/exposure.py:41-76 | with detector-produced pricing the market values and the token values each add up to the unresolved, gross and net exposure |
| Exposure.EntriesExactly | src/constraint_scanner/risk/exposure.py:54-76 | a market, group or token has an entry, zero or not, exactly when some open opportunity makes one |
| Exposure.ExposureIsAdditive | src/constraint_scanner/risk/exposure.py:41-76 | every reported number and the basket count are additive over splitting the list, and the entries of the whole are those of the parts |
| Exposure.ExposureIgnoresOrder | src/constraint_scanner/risk/exposure.py:41-76 | the whole exposure, entries included, is independent of the order of the list |
| Exposure.ClosedRowsDoNotCount | src/constraint_scanner/risk/exposure.py:41-43 | rows that are not open contribute nothing, not even a map entry |
| RiskPolicy.FirstFailingGateDecides | src/constraint_scanner/risk/policy.py:104-239 | the eleven gates decide in order, told from instants, the recorded amounts and the summary's payload: approval exactly when none fails, else the code of the first that does, with the run from the fourth on |
| RiskPolicy.StaleGateExactly | src/constraint_scanner/risk/policy.py:174-182 | with a non-negative limit an approval was last seen less than limit + 1 seconds ago, and with the earlier gates passed the stale rejection is exactly the rest |
| RiskPolicy.ApprovedAtFullSize | src/constraint_scanner/risk/policy.py:211-239 | an approval is always for the full gross cost, names a run, and keeps the projected exposure within the limit: the gate never sizes down |
| RiskPolicy.ApprovalIsMonotone | src/constraint_scanner/risk/policy.py:104-239 | an approval survives looser settings, smaller exposure and earlier evaluation, at the same size |
| OrderBuilder.BuildOrderRequests | src/constraint_scanner/trading/order_builder.py:34-162 | the leg loop with its running total and first-error exits computes the value-level build |
| OrderBuilder.RoundDownExactly | src/constraint_scanner/trading/order_builder.py:98-102 | ROUND_DOWN stays on the grid and on its side of zero, loses less than one quantum, and is idempotent |
| OrderBuilder.RoundingIsBounded | src/constraint_scanner/trading/order_builder.py:81-106 | for any pricing: the rounded total is at most the scaled cost and short of it by less than one quantum per unit of price and of quantity |
| OrderBuilder.BuiltOrders | src/constraint_scanner/trading/order_builder.py:34-162 | a successful build has one rounded request per leg with the hashed id, a scale in (0, 1] that reaches the approved notional, and the minimum notionals |
| OrderBuilder.BasketMinimumIsImplied | src/constraint_scanner/trading/order_builder.py:152-153 | the minimum-total check is never the one that fails |
| OrderChecks.FirstFailingCheckStops | src/constraint_scanner/trading/order_builder.py:43-106 | orders are built exactly when no check on approval, cost and legs fails, for any pricing, and otherwise the build stops with the code of the first; a build has the recorded cost and the approved share of it |
| OrderGuarantees.DetectorOrders | src/constraint_scanner/trading/order_builder.py:70-106 | with detector-produced pricing all requests buy one common positive quantity s; rounded total <= approved <= min(size, gross cost); the shortfall is below one quantum per unit of price and quantity; s minus the total is at least s times the profit rate |
| OrderGuarantees.OrdersProfitInEveryState | src/constraint_scanner/trading/order_builder.py:77-106 | for any approval of a combinatorial finding, in every template state the ordered tokens pay s, at least s times the profit per basket above the rounded total |
| OrderGuarantees.PolicyApprovalsBuildExactly | src/constraint_scanner/trading/order_builder.py:70-106 | an approval of the risk gate is ordered unscaled, and orders are built exactly when the run id is not empty, the rounded basket quantity is positive and every leg clears the minimum notional |
| SimulationStore.LatestWhere | src/constraint_scanner/db/repositories/simulations.py:86-118 | of the rows that satisfy a query, one that none precedes by execution time and id, or none when there is no such row |
| SimulationStore.SimulationsRepository.UpsertSummaryExecution | src/constraint_scanner/db/repositories/simulations.py:38-63 | updates the row of a known run in place, else adds a summary row |
| SimulationStore.UpsertedIsLatestExactly | src/constraint_scanner/db/repositories/simulations.py:38-98 | a written summary becomes the latest exactly when no other summary of the opportunity is later, or as late with a higher id |
| SimulationStore.OthersUntouched | src/constraint_scanner/db/repositories/simulations.py:38-98 | writing a summary does not change another opportunity's latest summary |
| SimulationStore.RunIdNamesLatestExactly | src/constraint_scanner/db/repositories/simulations.py:86-118 | a run id looks up the opportunity's latest summary exactly when that summary carries it and no later row of another opportunity does |
| OrderStore.OrdersRepository.CreateOrder | src/constraint_scanner/db/repositories/orders.py:13-17 | inserts an order under the next id, refused when the client order id is taken |
| OrderStore.OrdersRepository.CreateFill | src/constraint_scanner/db/repositories/orders.py:19-23 | inserts a fill under the next id, refused when the venue fill id is taken |
| OrderStore.PaperOrderTracker.Persist | src/constraint_scanner/trading/order_tracker.py:44-128 | writes one order and one fill per request, or raises on an id conflict |
| OrderStore.BatchAppends | src/constraint_scanner/trading/order_tracker.py:62-122 | a batch appends exactly its requests and keeps orders and fills paired |
| OrderStore.ExactlyOneFill | src/constraint_scanner/trading/order_tracker.py:62-122 | in a well-formed store an order has exactly one fill, of equal price and quantity |
| OrderStore.RepeatedIdConflicts | src/constraint_scanner/db/models.py:315-343 | a batch that repeats a stored client order id is refused as a whole |
| Trading.KillSwitch.Activate | src/constraint_scanner/risk/kill_switch.py:27-34 | the switch is on afterwards |
| Trading.KillSwitch.Clear | src/constraint_scanner/risk/kill_switch.py:36-43 | the switch is off afterwards |
| Trading.TradingModeState.SetMode | src/constraint_scanner/trading/mode_state.py:28-35 | the mode is the one set |
| Trading.OrderRouter.RouteRequests | src/constraint_scanner/trading/order_router.py:35-67 | paper requests reach the tracker; no requests and every other mode are refused before anything is written |
| Trading.TraderService.ExecuteOpportunity | src/constraint_scanner/trading/trader_service.py:57-250 | an attempt computes the value-level outcome on the current controls and simulations, and rolls every write back unless it executes |
| Trading.LinkAcceptedExactly | src/constraint_scanner/trading/trader_service.py:143-183 | the link checks accept a run id exactly when the opportunity's latest summary carries it and no later row of another opportunity does; the missing-latest check never fails on its own |
| Trading.ExecutesExactly | src/constraint_scanner/trading/trader_service.py:90-231 | the exact condition under which an attempt executes |
| Trading.ExecuteEffect | src/constraint_scanner/trading/trader_service.py:90-231 | an attempt that does not execute leaves the store unchanged; one that does had the switch off, paper mode, an approved decision and the latest run, and wrote exactly the built requests |
| Trading.FirstFailingCheckRefuses | src/constraint_scanner/trading/trader_service.py:90-231 | an attempt is refused with the code of the first of thirteen checks that fails, and not refused when none does |
| TradingHistory.EveryOrderIsExplained | src/constraint_scanner/trading/trader_service.py:90-231 | in every reachable state each order has exactly one fill of equal price and quantity and no venue id, and was written by a step with the kill switch off, mode paper, an approved decision and a run id naming the latest summary at that moment |
| TradingHistory.ExecutesAtMostOnce | src/constraint_scanner/trading/order_builder.py:107-115 | an opportunity submitted twice for the same run at the same time executes at most once, even if its row is refreshed in between, as long as one leg keeps its token |
| TraderRuntime.LoadedRows | src/constraint_scanner/runtime.py:142-155 | a pass loads exactly the open rows asked for, each once, oldest detection first |
| TraderRuntime.ServiceRuntime.RunTraderOnce | src/constraint_scanner/runtime.py:79-131 | the pass loop, with controls and simulations changing between its reads, computes the value-level pass; an unhandled conflict ends it without a result |
| TraderRuntime.SameProjectedTotal | src/constraint_scanner/runtime.py:95-109 | every opportunity of a pass is gated on the same projected exposure |
| TraderRuntime.PassStaysWithinCap | src/constraint_scanner/runtime.py:95-117 | over distinct open opportunities with detector-produced pricing and any non-negative limit, the orders written in one pass add up to at most the limit |
| RepeatedPasses.PassesWriteTheirPlan | src/constraint_scanner/runtime.py:79-131 | any sequence of passes, over any opportunities, stores and worlds: no pass ends in a conflict exactly when the ids of everything they mean to order are fresh and distinct, and then they write exactly that |
| RepeatedPasses.LimitOverPassesExactly | src/constraint_scanner/runtime.py:89-117 | a pass repeated k times, while every opportunity stays approved or stays refused and ids do not collide, writes k times the rounded total of one pass; so the limit holds over them exactly when that product is within it |
| RepeatedPasses.SamePassAgainWritesNothing | src/constraint_scanner/trading/order_builder.py:107-115 | submitting a pass again at its own time, whatever passes came in between, writes nothing and ends in a conflict if it ordered anything |
| RepeatedPasses.TwoPassesExceedTheLimit | src/constraint_scanner/runtime.py:89-117 | concretely: one tradable opportunity that fills the limit is written by two passes a microsecond apart and their sum is twice the limit, as long as the four orders and four fills get different ids |
| RepeatedPasses.DifferentIdsExist | src/constraint_scanner/trading/order_builder.py:107-115 | such ids exist |
| Pipeline.PassCounts | src/constraint_scanner/runtime.py:91-131 | executed <= approved <= evaluated, one entry per opportunity, and the running order count is the number of stored orders |
| Pipeline.PassIsReported | src/constraint_scanner/runtime.py:90-131 | attempt k is reported under its opportunity with the decision made and the result reached on the store as the attempts before left it; approved and executed are counted exactly; an attempt that raises is the first without an entry |
| Pipeline.DetectedPassStaysWithinCap | src/constraint_scanner/runtime.py:79-131 | for any history of detector runs and any selection of the stored opportunities, the orders of one pass add up to at most the limit |
| Pipeline.ExecutedAttemptIsProfitable | src/constraint_scanner/trading/trader_service.py:185-200 | an executed attempt on a stored opportunity buys every leg in one quantity for less than the dollar per basket every state pays |
| Pipeline.ApprovalCertifiesSimulatedProfit | src/constraint_scanner/risk/policy.py:136-223 | an approval certifies that the latest summary, when the simulator wrote it, found the simulated basket, which need not be the approved one, fillable on fresh books at a positive profit, and that the exposure fits the limit |
| Pipeline.SimulationReadsPricing | src/constraint_scanner/simulation/engine.py:84-112 | a simulation depends on pricing and payoffs only, so the certificate concerns the approved basket when these are the simulated ones |
| Pipeline.GateIgnoresWhatWasSimulated | src/constraint_scanner/risk/policy.py:136-239 | the gate gives the same decision to any opportunity that looks the same on edge, cost, confidence, legs and last sighting, judged by a summary of any age with the same payload |
| StaleCertificates.ApprovedOnOldSimulation | src/constraint_scanner/risk/policy.py:136-173 | concretely: a row refreshed after its simulation is approved on the old robust summary, although the approved version loses money under the same stress on the books it was detected on |
| Platform.ReachableIsSound | src/constraint_scanner/runtime.py:53-131 | book events, detector runs, simulator runs, control changes and interleaved pass steps keep the stored rows priced and unique, the summaries unique and the orders paired |
| Platform.UndisturbedPassIsPass | src/constraint_scanner/runtime.py:79-131 | a pass of the state machine with nothing in between is the pass of the runtime |
| PlatformSteps.StagesAreSeparate | src/constraint_scanner/runtime.py:53-131 | whatever else happens, the feed is that of the received books and the rows are those of the detector runs on it |
| PlatformSteps.PassStepsAreDue | src/constraint_scanner/runtime.py:79-131 | a pass starts only when none is under way, loads the open rows asked for, gates each opportunity before trading it, and only its trades touch the store; controls are those set last |
| PlatformSteps.SimulatorWritesSummaries | src/constraint_scanner/simulation/simulator_service.py:60-82 | a simulator run writes, for every chosen open row, a summary of that row as it is on the cached books, and touches no other opportunity and no other run |
| PlatformSteps.WrittenSummaryIsLatest | src/constraint_scanner/simulation/simulator_service.py:60-82 | the written summary is the latest of its opportunity when no other one is as late |
| Platform.VersionsCount | src/constraint_scanner/detection/detector_service.py:103-131 | along every run of the platform the sightings of a row grow with every refresh and its details change with nothing else while it is open |
| Platform.LastRefreshPrices | src/constraint_scanner/detection/detector_service.py:103-131 | a refreshed row carries the pricing found by its last refresh on the books of that run |
| Provenance.SummariesAreSimulated | src/constraint_scanner/simulation/simulator_service.py:41-82 | every stored summary was computed by a simulator run from an open row as it was then, on the books cached then |
| Provenance.EveryOrderIsCertified | src/constraint_scanner/runtime.py:79-131 | every order of every reachable store names a summary the simulator computed, robust and at a profit, of the ordered row; that simulation was of the ordered version of the row exactly when no detector run refreshed it between simulation and load |
| FirstOrder.OrdersAreStored | src/constraint_scanner/runtime.py:53-131 | such orders exist: eight concrete steps from the empty platform store two |

## Left out

- The 28-digit rounding of decimal arithmetic: amounts are exact reals, and `str` and `Decimal` round trips through JSON are the identity. Rounding of stored numeric columns is not modelled either.
- UUID hashing (section 5.5 of RFC 9562) behind persistence keys, order ids and fill ids: a function parameter, never assumed injective; results that need ids to differ ask it of the ids involved only.
- Wall-clock reads: times are parameters.
- SQLAlchemy sessions and the integrity-error race on concurrent inserts of one opportunity: each table is a sequence or map with the keys the code relies on, and a trade attempt is atomic apart from its own rollback. Cached copies of rows within one session, deletion of rows, foreign keys and id reuse are not modelled.
- Threads and locks of the kill switch and the trading mode: two fields that an environment step may change between any two reads. Other writers of the order table during a pass are not modelled.
- HTTP and websocket clients, API routes, command-line scripts, configuration, logging, migrations, and the raw message archive.
- Token resolution between external and internal ids: books and events arrive keyed by internal token id. A book's market id, source and raw payload are not carried.
- Catalogue work (normalising, classifying and grouping markets, building constraint contexts): contexts are inputs. The loading of constraints in a detector run is an input too.
- The subset, mutual-exclusion and at-least-one templates, which only reject: no context of theirs is valid here.
- The sell-side switch of the intra-market detector, which the program does not act on.
- Payloads of the wrong type (legs that are no dictionaries, token ids that are no integers, sides other than buy and sell, classifications outside the three known ones); missing values are modelled wherever a later stage reads them.
- Order and fill columns that repeat another one or are constant (order type, acknowledgement time, realized profit), and the legacy run id generated for simulation rows without one: the run id is a parameter.
- Audit payloads, notes, the order in which flags are displayed, the weighted slippage figure, time in force, and log records.
- Persistence keys are compared by quantity as a number, not as text; all detectors use quantity one.
- Negative stored depths: the number of stored levels is a natural number.
- Ingestion.FeedState.LatestUpdateAt: scans the tokens in ascending order, since a map has no order of its own; the result does not depend on it.
- Ingestion.OrderbooksRepository.GetLatestTop: stands for an ordered query; scans the keys in any order.
- Replay.ReplayRecords: payloads without a timestamp, for which the normaliser reads the clock, are not modelled, and the downstream runs after a replay are modelled separately.
- Provenance.EveryOrderIsCertified: the steps of one pass at a time are interleaved with all others; two passes running at once are not modelled.
- Simulator runs: any selection of the open opportunities, in any order, stands for the query's order and limit.
