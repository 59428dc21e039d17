# Verified model of the trading chart's broker, pacing, bar and axis code

This project models the parts of the repository that carry its state and arithmetic, and proves what they keep over
every input and every run:

- **Simulated broker** (`Sim*.dfy`, `BracketSubmitter.dfy`, `Sums.dfy`). `SimModel` defines each transition of the
  broker on values: fills in tranches, running average prices, long, short and flipped positions, cash, commissions,
  bracket activation, one-cancels-all, limits and stops, all public operations, and runs of them. The class
  `SimOrderClient` does the same in place, method by method, and each method is proved to compute its transition. The
  theorems are about whole runs: three independent readings of the money agree (order table, event log, ledger), fills
  are all or nothing, terminal states absorb, price moves do not depend on the walk of the hash table, one child of a
  bracket fills and closes its entry, brackets wait for their last leg. What a price fills, and at what price, is stated
  over the orders, the price and the spread alone.
- **Pacing governor** (`TokenBucket.dfy`, `Pacing.dfy`, `PacingOverlap.dfy`, `PacingRetries.dfy`, `StreamingLines.dfy`). A
  token bucket with linear refill, the governor's calls cut at their awaits and interleaved arbitrarily, what becomes of
  calls that wait, and the optimistic streaming-line counter as interleaved atomic steps.
- **Ticks to stored bars** (`Candles.dfy`, `CryptoCalendar.dfy`, `Aggregation.dfy`, `AggregationLaws.dfy`,
  `BarStreams.dfy`, `HistoryThenLive.dfy`, `CandleSeries.dfy`, `Pipeline.dfy`). The incremental aggregator refines batch
  grouping, the pending queue delivers its outputs in order, the seam drops only stale bars, capped storage is a suffix
  of uncapped storage, and the four compose into one statement from ticks to rows.
- **Time axes** (`CompressedAxis.dfy`, `CompressedAxisLaws.dfy`, `SessionIndexAxis.dfy`, `Ticks.dfy`). The compressed
  axis is built by a cursor loop and searched by bisection; order and round trips are proved for all timestamps, and
  tick enumeration is exact on the proleptic Gregorian calendar.

Prices, quantities, pixels and seconds are exact reals; timestamps are integer nanoseconds. Clock readings, hashes, the
walk order of hash tables and the interleaving of tasks are parameters of the model, so the theorems hold for all of
them.

## Where the code and its description differ

The model follows the code; each difference is a theorem.

- The bucket of 60 per 10 minutes does not cap every rolling window at 60: the bound is twice that, and it is reached
  (`TokenBuckets.TwiceTheCapacityIsReached`). The cap holds in the ten minutes from t on, whatever calls are made, exactly
  when the bucket holds less than one token at t (`Pacing.TenMinuteCapIff`).
- The identical-request cooldown does not hold for overlapping calls on one key (`PacingOverlap.OverlapDefeatsCooldown`). Over
  all interleavings a configuration keeps it exactly when a bucket is empty for good or the cooldown is no longer than the
  gap the burst bucket enforces by itself (`PacingOverlap.CooldownIsKeptIff`). Without overlap it holds, and the burst bucket
  behind it never refuses at the default settings (`Pacing.SuccessesAreSpaced`, `Pacing.BurstBucketNeverRefuses`).
- A stop order without a parent never triggers (`SimBrackets.StandaloneStopNeverFills`), and a take-profit under an entry
  that does not fill on activation never works (`SimBrackets.TakeProfitOfRestingEntryNeverFills`).
- Cancelling siblings comes after a whole pass of fills, so one price move fills two limit siblings that it reaches; the table
  before the move tells exactly when two siblings fill, and such a table is reachable (`SimBrackets.BothSiblingsFillIff`,
  `SimTwins.TwinTargetsBothFill`).
- When the last leg of a bracket is rejected, the other legs stay held (`SimSubmitter.BracketOutcome`), until cancelled or until
  an order of the bracket is transmitted while it can still be activated (`SimHolding.HeldUntilReleasedIff`).
- A stream line can be refused while none is live (`StreamingLines.RefusedWithoutGuards`).
- A close edge is not always owned by the session it closes: three sessions can meet in a point
  (`CompressedAxisLaws.FindIsScanIff`). The axis can run backwards when the gaps are wider than the viewport, which the
  constructor accepts (`CompressedAxisLaws.ToXIsMonotoneIff`).
- In a gap between sessions that touch, the forward snap returns a moment that is drawn to the left of the pixel, and the
  nearest snap can miss the nearest one (`CompressedAxisLaws.SnapIsBest`).
- Clock windows are the epoch-aligned buckets, and follow one another without overlap, only for intervals that divide the day
  (`CryptoCalendar.WindowsAreBucketsIff`, `CryptoCalendar.ClockWindowsTileIff`).
- The aggregator's constructors accept a symbol of another calendar. The candle of the first accepted tick can then not be
  built and the code panics (`AggregationLaws.OpenCandleIsBuiltIff`).
- A candle that a flush stamps completed need not be the last of its window: a late trade opens the window again, and windows
  ascend exactly when none does (`AggregationLaws.WindowsAscendIff`).

## Model

| member | source | states |
|---|---|---|
| SimRuns.BooksAlwaysBalance | crates/midas-broker/src/sim/order_client.rs:201-367 | After every run: cash and every position are sums over the order table; replaying executions and commissions from the initial cash gives every order's fill and average, every position, cash and realised profit; and cash plus positions at average cost is initial cash plus realised profit minus the commissions on opening shares |
| SimBooks.TrancheKeepsBooks | crates/midas-broker/src/sim/order_client.rs:226-309 | One tranche keeps all three readings of the books, for opens, increases, partial and full closes, and flips |
| SimEvents.FillSendsEvents | crates/midas-broker/src/sim/order_client.rs:208-302 | A complete fill is split into the configured number of equal tranches exactly above a positive threshold, and sends for each a triple of execution, commission with the same execution id, and status; partially filled up to the last one and filled exactly at it, with the right filled and remaining amounts |
| SimTheorems.FillsAreAllOrNothing | crates/midas-broker/src/sim/order_client.rs:201-310 | In every reachable state an order is filled with a positive quantity or has no fill at all; the partially filled status never rests in the table |
| SimBrackets.FillsAreForTheWholeQuantity | crates/midas-broker/src/sim/order_client.rs:201-310 | In every run that changes the quantity of no filled order, each order between public calls has no fill or is filled for exactly its quantity |
| SimBrackets.StepCompletesIff | crates/midas-broker/src/sim/order_client.rs:805-827 | One operation leaves filled orders filled for their whole quantity exactly unless it changes the quantity of a filled order |
| SimTheorems.TerminalStatesAbsorb | crates/midas-broker/src/sim/order_client.rs:383-408 | From any point of a run to any later one, filled, cancelled and rejected orders keep status and fill, and no order is held again |
| SimPrices.PriceMoveIsSimultaneous | crates/midas-broker/src/sim/order_client.rs:522-635 | Whatever the walks of the order table, a price move equals the order-free account: all reached limits fill, their siblings are cancelled, all reached stops fire, the siblings of those executed are cancelled |
| SimMarket.PriceMoveOutcome | crates/midas-broker/src/sim/order_client.rs:522-635 | Whatever the walks, each open order ends as the table, the price and the spread say: resting buys fill from their limit down and sells from it up, at that price; triggered sell stops fire from their stop down and buy stops from it up, half a spread worse; stop-limits fill at their limit where it is marketable and otherwise work on; siblings of these are cancelled; all else stays |
| SimMarket.LimitFillsIff | crates/midas-broker/src/sim/order_client.rs:522-558 | A working limit order with something to fill is filled by a price move exactly at prices at or better than its limit, for its whole quantity and at that price |
| SimMarket.StopFiresIff | crates/midas-broker/src/sim/order_client.rs:560-625 | A triggered stop, no sibling limit being reached, fires exactly at prices at or through its stop, half a spread worse than the price |
| SimMarket.RepricedLimitFillsIff | crates/midas-broker/src/sim/order_client.rs:673-697 | Placing a working limit order again adds no order, touches no other, and makes the new limit the one that decides its fill |
| SimMarket.RepricedStopFiresIff | crates/midas-broker/src/sim/order_client.rs:673-697 | Placing a triggered stop again moves its trigger to the new stop |
| SimMarket.MarketFillsAtLastPrice | crates/midas-broker/src/sim/order_client.rs:174-196 | In any run a new, accepted instant market order fills for its quantity half a spread above, for a buy, or below, for a sell, the price last set for its symbol, or 100 if none was |
| SimMarket.RoundTripCosts | crates/midas-broker/src/sim/order_client.rs:190-244 | In any run, bought and sold again at the market with no price move between, a quantity costs the spread on each share and two commissions, and the position is back where it was |
| SimAdmission.EveryNthIsRejected | crates/midas-broker/src/sim/order_client.rs:699-735 | In any run a new order is rejected exactly when a rejection rate is set and the order table, it included, has a size divisible by the integer nearest to the inverse of the rate |
| SimTheorems.WalkOrderIsIrrelevant | crates/midas-broker/src/sim/order_client.rs:522-635 | In every reachable state two walks of the hash table end a price move with the same orders, links, prices, cash and position quantities |
| SimTheorems.SameTableSameMoney | crates/midas-broker/src/sim/order_client.rs:226-367 | Two runs, of whatever operations and tranche settings, from the same cash at the same commission rate, that end with the same order table end with the same cash and position quantities |
| SimTrancheRuns.TranchesDoNotMatter | crates/midas-broker/src/sim/order_client.rs:208-244 | For any operations, configurations that split fills differently end with the same orders, links, prices, positions and average costs, cash and realised profit; only the events differ |
| SimTranches.TrancheTwice | crates/midas-broker/src/sim/order_client.rs:226-367 | Two tranches at one price leave what one of their total leaves, through opens, closes, a close to zero and flips |
| SimTheorems.LinksAlwaysMatch | crates/midas-broker/src/sim/order_client.rs:737-743 | In every reachable state, nested brackets included, the link lists hold exactly the children of each parent, rejected ones apart |
| SimTheorems.FilledChildStandsAlone | crates/midas-broker/src/sim/order_client.rs:410-520 | Once a child of a flat bracket is filled, every sibling is terminal or held under a parent that was already activated, and two filled siblings are of one kind |
| SimTheorems.OneChildFills | crates/midas-broker/src/sim/order_client.rs:410-635 | In every run of flat brackets with one limit and one stop child, no two children of a parent are filled |
| SimBrackets.BothSiblingsFillIff | crates/midas-broker/src/sim/order_client.rs:522-625 | One price move fills two open siblings exactly when the table before it shows two resting limits that it reaches, or two triggered stops that it fires and no sibling limit that it reaches |
| SimTwins.TwinTargetsBothFill | crates/midas-broker/src/sim/order_client.rs:546-557 | A run that ends with two filled children of one parent: a market entry, two sell limits under it, and one price above both |
| SimBrackets.OnlyTheseFill | crates/midas-broker/src/sim/order_client.rs:434-625 | In every run of flat brackets only instant market orders, limits and bracket stops fill; limit children only under an instant market entry |
| SimBrackets.StandaloneStopNeverFills | crates/midas-broker/src/sim/order_client.rs:560-625 | In every run, nested brackets included, a stop or stop-limit order without a parent is never triggered nor filled |
| SimBrackets.TakeProfitOfRestingEntryNeverFills | crates/midas-broker/src/sim/order_client.rs:508-517 | In every run of flat brackets, a limit child whose parent is not an instant market order never works and never fills |
| SimSubmitter.LegsWaitForTheLast | crates/midas-broker/src/bracket.rs:99-117 | While legs are placed without transmit on fresh ids, each is held, or rejected when its turn in the rejection schedule has come, and nothing else changes |
| SimHolding.HeldUntilReleasedIff | crates/midas-broker/src/sim/order_client.rs:725-748 | In every run, nested brackets included, a leg held at one point is held or cancelled at every later one exactly when no later operation places a new, transmitted, unrejected order whose root is the leg itself, or the leg's parent while that is held or new |
| SimSubmitter.BracketOutcome | crates/midas-broker/src/bracket.rs:75-138 | Placing a bracket on fresh ids: every leg ends exactly where the rejection schedule, the entry type and the transmit-last rule put it, and existing orders are untouched |
| SimLegs.LegsAreAsAsked | crates/midas-broker/src/bracket.rs:211-310 | After submission the table holds the legs the parameters describe: the entry on the requested side, type and prices; children of it on the other side for the same symbol and quantity; the target a limit at its price; the stop at its price, a stop-limit exactly when a limit is given; times in force as asked |
| SimLegs.LegsStand | crates/midas-broker/src/sim/order_client.rs:434-520 | After submission a target of a filled entry works and its stop is armed, children of a resting entry are armed, and without a live entry no child has moved, rejected ones apart |
| SimLegs.FilledChildCloses | crates/midas-broker/src/bracket.rs:75-138 | In every run of flat brackets, a bracket submitted on fresh ids on a symbol whose other orders are over, its entry filled, then any operations that add no orders and change no quantities: the position stands off by the entry until a child fills, and from then on is back where it was |
| SimSubmitter.MarketEntryFillsIff | crates/midas-broker/src/sim/order_client.rs:453-469 | Activation fills a held instant market entry exactly when its quantity is positive |
| SimSubmitter.ChildrenWaitForMarketEntry | crates/midas-broker/src/sim/order_client.rs:434-520 | In every run of flat brackets with positive quantities, a live child of an instant market entry has a filled parent |
| BracketSubmitters.CancelLegsEffect | crates/midas-broker/src/bracket.rs:154-184 | Cancelling legs leaves each listed order terminal, every order either unchanged or cancelled, and moves no money |
| SimOrderClients.SimOrderClient.ExecuteFill | crates/midas-broker/src/sim/order_client.rs:201-310 | The loop over tranches, in place, reaches the state of the fill transition |
| SimOrderClients.SimOrderClient.ApplyPositionOnFill | crates/midas-broker/src/sim/order_client.rs:314-367 | Cash, realised profit and one position are updated as the position transition says, nothing else |
| SimOrderClients.SimOrderClient.CheckOcaInner | crates/midas-broker/src/sim/order_client.rs:410-432 | The loop over siblings cancels all of them but the filled one |
| SimOrderClients.SimOrderClient.ActivateBracket | crates/midas-broker/src/sim/order_client.rs:434-520 | The held parent works, an instant market parent fills, and the held children are triggered or work |
| SimOrderClients.SimOrderClient.CheckLimitFills | crates/midas-broker/src/sim/order_client.rs:522-558 | Collects the reached limits, fills them all, then cancels siblings |
| SimOrderClients.SimOrderClient.CheckStopTriggers | crates/midas-broker/src/sim/order_client.rs:560-625 | Triggers the reached stops; stops execute at market, stop-limits only if the price is on their limit; then cancels siblings |
| SimOrderClients.SimOrderClient.PlaceOrder | crates/midas-broker/src/sim/order_client.rs:669-751 | Reprices an existing order; rejects every n-th new one; otherwise holds, links and, if transmitted, activates |
| SimOrderClients.SimOrderClient.CancelOrder | crates/midas-broker/src/sim/order_client.rs:753-803 | Cancels an open order and its linked children; unknown and terminal orders are left alone |
| BracketSubmitters.BracketSubmitter.PlaceBracket | crates/midas-broker/src/bracket.rs:75-138 | Allocates ids and places entry, take-profit and stop-loss in order, and the client ends in the state of the bracket transition |
| BracketSubmitters.BracketSubmitter.CancelBracket | crates/midas-broker/src/bracket.rs:154-184 | The loop over legs cancels each in turn |
| TokenBuckets.WindowBound | crates/midas-broker/src/ib/pacing.rs:164-193 | In any run with a clock that does not go back, grants inside a window of length T number at most capacity + T x capacity / period |
| TokenBuckets.TwiceTheCapacity | crates/midas-broker/src/ib/pacing.rs:164-193 | Hence at most twice the capacity in one refill period |
| TokenBuckets.TwiceTheCapacityIsReached | crates/midas-broker/src/ib/pacing.rs:152-193 | And that bound is attained, for every capacity |
| TokenBuckets.RollingCapIff | crates/midas-broker/src/ib/pacing.rs:173-193 | No attempts at all exceed the capacity in the period that opens at t exactly when less than one token is held at t |
| TokenBuckets.RetrySucceedsFromTheHint | crates/midas-broker/src/ib/pacing.rs:181-191 | After a refusal, an undisturbed retry succeeds exactly from the hinted wait on, provided the bucket can hold a token |
| TokenBuckets.TokenBucket.TryAcquire | crates/midas-broker/src/ib/pacing.rs:173-193 | Refills up to the capacity and takes a token or returns the wait, in place |
| Pacing.TotalRateIsBounded | crates/midas-broker/src/ib/pacing.rs:293-366 | Under every interleaving of calls the total bucket grants at most twice the maximum in any ten minutes, and each success spent one of its grants |
| Pacing.SuccessesAreBounded | crates/midas-broker/src/ib/pacing.rs:293-366 | However calls interleave, those that succeed in ten minutes are at most the grants of the total bucket in them plus the calls that held its token when they began: at most twice the maximum plus these |
| Pacing.TenMinuteCapIff | crates/midas-broker/src/ib/pacing.rs:293-366 | From any reachable state, every way the calls go on for ten minutes from t stays within the documented maximum exactly when the total bucket holds less than one token at t |
| Pacing.SleepIsBounded | crates/midas-broker/src/ib/pacing.rs:293-366 | No call asks for more sleep than three times the maximum wait, and none under the reject policy |
| PacingRetries.RefusedWaitsIff | crates/midas-broker/src/ib/pacing.rs:336-366 | In any run a call refused at its first try of a bucket stays in flight exactly when the policy is to queue and the hint is at most the maximum wait; it can be resumed exactly from the end of the hinted wait, which counts as its sleep |
| PacingRetries.QueuedRetryObtainsIff | crates/midas-broker/src/ib/pacing.rs:336-366 | Resumed after its wait with no attempt on that bucket in between, a queued call obtains its token exactly when the bucket can hold one: it goes on to its key's bucket, or succeeds |
| PacingRetries.BeginServesCooldown | crates/midas-broker/src/ib/pacing.rs:293-321 | In any run a call is let in exactly when the cooldown since the last success on its key has passed or is an allowed wait, and can make its first attempt exactly from the end of the cooldown on |
| Pacing.SuccessesAreSpaced | crates/midas-broker/src/ib/pacing.rs:293-321 | Calls that do not overlap on a hash: two successes on it are at least the cooldown apart |
| Pacing.BurstBucketNeverRefuses | crates/midas-broker/src/ib/pacing.rs:323-366 | If cooldown x burst is at least 2 s, the per-key bucket is full at each attempt of such calls and grants it |
| PacingOverlap.OverlapDefeatsCooldown | crates/midas-broker/src/ib/pacing.rs:293-321 | Two overlapping calls on one key both succeed at the same instant, whatever the cooldown |
| PacingOverlap.CooldownIsKeptIff | crates/midas-broker/src/ib/pacing.rs:293-366 | Over every interleaving, successes on one key are the cooldown apart exactly when the maximum or the burst is zero, or the cooldown is at most two seconds for a burst of one and none for more |
| StreamingLines.LinesAreSafe | crates/midas-broker/src/ib/pacing.rs:234-285 | Under every interleaving the counter is live guards plus attempts in flight, never negative, and live guards never exceed the limit |
| StreamingLines.AcquireSucceedsIff | crates/midas-broker/src/ib/pacing.rs:274-285 | Whatever other threads do between an attempt's count and its comparison, it is granted exactly when guards and attempts in flight were below the limit at the count; with none in flight, when guards were |
| StreamingLines.RefusedWithoutGuards | crates/midas-broker/src/ib/pacing.rs:274-285 | A run in which an attempt is refused although no guard is live |
| CompressedAxis.New | crates/midas-axis/src/compressed.rs:55-132 | Rejects a bad width, a bad gap and unsorted sessions, in that order; otherwise the cursor loop puts session i at the open time before it plus i gaps, and the last edge at the width |
| CompressedAxis.FindSessionForTs | crates/midas-axis/src/compressed.rs:176-222 | The bisection returns the session that the last-opened rule with its touching exception gives |
| CompressedAxisLaws.FindIsScanIff | crates/midas-axis/src/compressed.rs:157-222 | It agrees with a linear scan for the first containing session on all timestamps exactly when no session of zero duration touches both neighbours |
| CompressedAxisLaws.LastStartFits | crates/midas-axis/src/compressed.rs:92-125 | The last session starts inside the viewport exactly when the gaps leave room |
| CompressedAxisLaws.DrawnInProportion | crates/midas-axis/src/compressed.rs:92-125 | Sessions other than the last are drawn in proportion to the whole seconds they last |
| CompressedAxisLaws.ToXIsMonotoneIff | crates/midas-axis/src/compressed.rs:259-301 | For all sessions a calendar yields, the projection is non-decreasing over all timestamps exactly when gap x (n - 1) is at most the width, or the last session touches the one before it for at most a nanosecond and gap x (n - 2) is |
| CompressedAxisLaws.RoundTrip | crates/midas-axis/src/compressed.rs:231-314 | With every session at least EPSILON pixels wide, the pixel of any timestamp maps back to the moment that stands for it: itself when open, else the edge that shares its pixel |
| CompressedAxisLaws.RoundTripIff | crates/midas-axis/src/compressed.rs:231-314 | Inside a session the round trip is exact, except at a close edge that shares its pixel with a later-opening session |
| CompressedAxisLaws.SnappedIsMonotone | crates/midas-axis/src/compressed.rs:316-367 | For each snap direction, moving right on screen never moves back in time, over all pixels |
| CompressedAxisLaws.FromXIsMonotone | crates/midas-axis/src/compressed.rs:303-314 | The unsnapped inverse, where it has answers, gives them in the order of the pixels |
| CompressedAxisLaws.SnapIsBest | crates/midas-axis/src/compressed.rs:329-364 | In a gap the snapped timestamp is the best one over all timestamps (forward: the first drawn pixel at or after x; backward: the last at or before it; nearest: the closest) exactly when the sessions around the gap do not touch, or the snap is backward, or it is nearest and the shared edge is no farther than the next moment |
| SessionIndexAxis.ToXIsMonotone | crates/midas-axis/src/session_index.rs:60-113 | The index axis is non-decreasing over all timestamps and stays in the viewport |
| SessionIndexAxis.RoundTrip | crates/midas-axis/src/session_index.rs:80-136 | Every timestamp comes back as itself, clamped to the series |
| Ticks.AlignUpIsLeast | crates/midas-axis/src/ticks.rs:103-202 | For every step, alignment gives the least boundary at or after the timestamp |
| Ticks.BoundaryGap | crates/midas-axis/src/ticks.rs:103-238 | Boundaries of clock, day and week steps are their lengths apart from the epoch or a Monday on; those of months a month apart; quarters and years begin on every third and twelfth |
| Ticks.AdvanceIsNext | crates/midas-axis/src/ticks.rs:206-238 | From a boundary, advancing gives the next one; months carry into years |
| Ticks.FirstDayOfYear | crates/midas-axis/src/ticks.rs:105-116 | The month-by-month calendar behind the boundaries agrees with the closed form of the leap-year rule for every year |
| Ticks.EnumerateTicks | crates/midas-axis/src/ticks.rs:314-347 | The loop yields the first 10,000 boundaries from the aligned start up to the end that have a pixel; its guard never fires |
| Ticks.EnumerationIsExact | crates/midas-axis/src/ticks.rs:314-347 | The ticks are aligned moments of [start, end] with their pixels, strictly increasing; with a total projection none is missing exactly when the boundary after the first 10,000 lies past the end |
| CryptoCalendar.ClockWindowsEqualIff | crates/midas-calendar/src/crypto_spot.rs:216-244 | Covered timestamps share a clock window exactly when they share an epoch-aligned bucket and a UTC day |
| CryptoCalendar.ClockWindowLasts | crates/midas-calendar/src/crypto_spot.rs:216-244 | A clock window lasts its interval in seconds, minutes or hours; only empty intervals are refused |
| CryptoCalendar.WindowsAreBucketsIff | crates/midas-calendar/src/crypto_spot.rs:216-244 | Windows are the buckets over all covered times exactly when the interval divides the day |
| CryptoCalendar.WindowExistsIff | crates/midas-calendar/src/crypto_spot.rs:115-135 | Which times have a window: clock bars of a positive interval and calendar spans always, regular and extended sessions on covered days only, each the whole UTC day; night sessions are unsupported and uncovered days out of range |
| CryptoCalendar.WindowContains | crates/midas-calendar/src/crypto_spot.rs:115-135 | Every window, clock, session or calendar, contains its timestamp |
| CryptoCalendar.CalendarBounds | crates/midas-calendar/src/crypto_spot.rs:246-303 | A week, month, quarter or year window runs from one boundary of that step to the next, and carries its first day's session |
| CryptoCalendar.CoveredIff | crates/midas-calendar/src/crypto_spot.rs:65-69 | A time is covered exactly from the start of 1970 up to the start of 2100 |
| CryptoCalendar.ClockWindowsTileIff | crates/midas-calendar/src/crypto_spot.rs:216-244 | Clock windows of successive covered times are equal or follow one another without overlap exactly when the interval divides the day |
| CryptoCalendar.WindowsTile | crates/midas-calendar/src/crypto_spot.rs:115-135 | Session windows, calendar windows, and clock windows of intervals that divide the day, of successive covered times, are equal or follow one another without overlap |
| AggregationLaws.OpenCandleIsBuiltIff | crates/midas-bars-adapter/src/aggregator/core.rs:123-155 | After any events that leave an open batch, its candle can be built, so that neither expectation fails, exactly when the symbol trades on the configured calendar |
| AggregationLaws.CandlesNeverFail | crates/midas-bars-adapter/src/aggregator/core.rs:123-155 | For a symbol of the configured calendar, in every run the bar in progress becomes an ordered candle, which carries the exact average of its batch exactly unless the volume counter saturates over a nonzero turnover |
| Aggregation.SummaryOfMore | crates/midas-bars-adapter/src/aggregator/core.rs:413-447 | Folding one trade into the summary of a batch is the summary of the longer batch: first, highest, lowest and last price, capped size and count, turnover |
| AggregationLaws.RefinesBatches | crates/midas-bars-adapter/src/aggregator/core.rs:240-349 | Over every run, flushes included, the closed candles are those of the closed batches in order, each completed with the first, last, highest and lowest price, the capped total size and count, and the window, session, symbol, calendar and period of its batch; the bar in progress is the summary of the open batch |
| AggregationLaws.CandlesShowTheirTrades | crates/midas-bars-adapter/src/aggregator/core.rs:123-155 | In every run each candle an event sends, partial or completed, shows in the same way exactly the trades of its batch so far |
| AggregationLaws.IgnoredIff | crates/midas-bars-adapter/src/aggregator/core.rs:378-411 | A tick is ignored, and changes nothing, exactly when it is no last-price tick with a finite price and a plausible size, or has no window; otherwise it counts with its price and its size, unknown sizes as zero |
| AggregationLaws.PartialIsSentIff | crates/midas-bars-adapter/src/aggregator/core.rs:311-324 | In every run a trade of the bar in progress sends a partial candle exactly when the rate is unlimited or an interval of the rate has passed since the last candle was sent |
| AggregationLaws.BatchesPartitionTrades | crates/midas-bars-adapter/src/aggregator/core.rs:240-288 | Every accepted trade lands in exactly one batch, in order, and a batch has one window |
| AggregationLaws.BatchesAreMaximalIff | crates/midas-bars-adapter/src/aggregator/core.rs:256-307 | Over runs with flushes, neighbouring batches differ in window exactly when no trade comes in the window that a flush has just closed |
| AggregationLaws.VwapInRange | crates/midas-bars-adapter/src/aggregator/core.rs:109-130 | The weighted price of a batch lies within its low and high, zero-size trades included |
| AggregationLaws.WapIsExactIff | crates/midas-bars-adapter/src/aggregator/core.rs:123-142 | A candle carries the exact weighted price exactly when the total size does not saturate 64 bits, or the turnover is zero |
| AggregationLaws.WindowsAscendIff | crates/midas-bars-adapter/src/aggregator/core.rs:256-307 | Over runs with flushes, if windows of successive trades come in turn, closed candles and the bar in progress have strictly increasing, disjoint windows exactly when no trade reopens a flushed window |
| AggregationLaws.CryptoBarsAscend | crates/midas-calendar/src/crypto_spot.rs:216-244 | On the crypto calendar, covered ticks in time order make closed candles and a bar in progress with strictly increasing, disjoint windows |
| BarStreams.SessionedBarAggregator.AcceptTick | crates/midas-bars-adapter/src/aggregator/core.rs:240-288 | The object's state and output are those of the step function, in every branch |
| BarStreams.SessionedBarAggregator.FlushIfDue | crates/midas-bars-adapter/src/aggregator/core.rs:295-307 | Closes the bar exactly when its window is over |
| BarStreams.SessionedBarStream.Next | crates/midas-bars-adapter/src/aggregator/stream.rs:76-93 | Returns the next of all candles still to come, in order and without loss, and nothing only when there are none |
| BarStreams.StreamDeliversBatches | crates/midas-bars-adapter/src/aggregator/stream.rs:76-93 | The completed candles among those delivered are exactly the candles of the closed batches, in order |
| HistoryThenLiveStreams.Validate | crates/midas-stream/src/fixture.rs:43-101 | Accepts exactly matching, covered and sorted bars; otherwise reports the first offender, mismatch before coverage before order |
| HistoryThenLiveStreams.FixtureBarStream.Seek | crates/midas-stream/src/fixture.rs:159-165 | Moves to the first bar at or after the time |
| HistoryThenLiveStreams.HistoryThenLive.Next | crates/midas-stream/src/history_then_live.rs:96-130 | Returns the next of all deliveries: the rest of history, then the live bars past the seam |
| HistoryThenLiveStreams.SeamDropsOnlyStale | crates/midas-stream/src/history_then_live.rs:118-129 | A live bar is dropped exactly when the seam or an earlier live bar opens later |
| HistoryThenLiveStreams.DeliveriesAscend | crates/midas-stream/src/history_then_live.rs:96-130 | For sorted history and any live bars, delivered opens never decrease |
| HistoryThenLiveStreams.SeamAndStorageCompose | crates/midas-stream/src/history_then_live.rs:111-116 | Applied to an empty uncapped series, the deliveries leave strictly increasing rows that hold, for each open, the last bar delivered |
| CandleSeriesStore.CandleSeries.PushCandle | crates/midas-bars/src/series.rs:181-188 | The ten columns, read as rows, gain one row and keep the newest up to the cap |
| CandleSeriesStore.CandleSeries.ApplyCandle | crates/midas-bars/src/series.rs:195-216 | Overwrites the last row when the open matches, otherwise pushes |
| CandleSeriesStore.CandleSeries.UpdateLastPrice | crates/midas-bars/src/series.rs:238-264 | Sets the last close and widens the last range; does nothing, version included, on an empty series or a price that is not finite |
| CandleSeriesStore.LastPriceMarks | crates/midas-bars/src/series.rs:238-264 | A finite price becomes the last close inside a range widened to hold it, and no other cell changes |
| CandleSeriesStore.CappedIsSuffix | crates/midas-bars/src/series.rs:181-264 | After any operations a capped series holds the last rows of the same run uncapped |
| CandleSeriesStore.RowsStayOrdered | crates/midas-bars/src/series.rs:238-264 | Every stored row keeps low at most open and close, and these at most high |
| CandleSeriesStore.LastBarWins | crates/midas-bars/src/series.rs:195-216 | Bars in open order, applied, leave one row for each open, holding the last bar delivered for it |
| CandleSeriesStore.RowsAscendIff | crates/midas-bars/src/series.rs:195-216 | Applied bars leave strictly increasing timestamps exactly when their opens never decrease |
| CandleSeriesStore.FeedIsRun | crates/midas-bars/src/series.rs:352-370 | The same for a capped series: the newest rows of the uncapped result |
| Pipeline.StreamInStep | crates/midas-bars-adapter/src/aggregator/stream.rs:76-93 | Over every run of ticks whose windows come in turn, delivered opens never decrease and the last bar delivered for a closed window is its completed candle |
| Pipeline.SeriesTakesStream | crates/midas-bars/src/series.rs:181-216 | Every candle the aggregator sends, in any run, is of the calendar, period and symbol of a series set up like it, which therefore accepts it |
| Pipeline.TicksToRows | crates/midas-stream/src/history_then_live.rs:96-130 | End to end: rows are strictly increasing, and every closed batch from the seam on is stored as a row with its first, last, highest and lowest price, capped total size and count, session and, unless saturated, exact average |
| Pipeline.CryptoTicksToRows | crates/midas-calendar/src/crypto_spot.rs:115-135 | The same from covered crypto ticks in time order |

## Left out

- Floating-point rounding: prices, quantities, pixels and durations are exact reals, the test against the machine epsilon in `apply_position_on_fill` is a test for zero, and a `NaN` or infinite tick price is a separate case.
- Event delivery: the order events of the broker are a log in the state; broadcast lag, cancel streams, position and account events are not modelled.
- SimOrderClients.SimOrderClient.PlaceOrder: identifiers are unbounded integers and the order count does not wrap; waiting for the connection in `next_order_id` and the contract number of a symbol are not modelled, and prices come from the local cache because no market-data backend is attached.
- SimTheorems.OneChildFills: stated for brackets whose parents have no parent and whose children are of different kinds; `SimBrackets.BothSiblingsFillIff` says what happens to children of one kind. `SimBrackets.OnlyTheseFill`, `SimBrackets.TakeProfitOfRestingEntryNeverFills`, `SimSubmitter.ChildrenWaitForMarketEntry` and `SimLegs.FilledChildCloses` are about flat brackets too: a child that is itself a parent can be activated on its own.
- BracketSubmitters.BracketSubmitter.PlaceBracket: the simulated client never fails a placement, so the clean-up after a failed leg is not modelled, nor the locally minted identity and the timeouts of cancels.
- Pacing: the governor's calls are values in an interleaving, cut where the code awaits, rather than methods of an object; key lookup, cooldown check and clock reading of a call are one step. `TokenBuckets.TokenBucket` is the object behind its lock. Rounding of waits to nanoseconds is not modelled.
- StreamingLines.LinesAreSafe: the counter is an unbounded integer; its wrap-around at 32 bits would take four billion attempts in flight.
- Chrono ranges: timestamps outside the library's representable range, and the fallbacks for them, are not modelled.
- Ticks.EnumerateTicks: labels and importance of ticks, and the choice of a step by logarithmic distance, are left out; `CompressedAxis` ticks only sort what this loop yields.
- Ticks.AlignUpIsLeast: requires the positive multiples that the table of steps holds.
- BarStreams: the tick channel is the list of ticks still to be received, each with its clock readings, and ends when the channel closes; snapshots and flushes between reads of the stream are not modelled there (flushes are in `AggregationLaws.RefinesBatches`).
- HistoryThenLiveStreams.DeliveriesAscend: without seeking; a backward seek replays older bars. Snapshots of the composite are left out. Live is the list of bars its stream will yield.
- CandleSeriesStore: columns are sequences reassigned by each method, not buffers; narrowing to single precision is exact and the version counter does not wrap. A mismatching candle is a precondition because the code panics on it; `Pipeline.SeriesTakesStream` shows that the aggregator sends none.
- The XNYS calendar, the order model's parameter tables, the IB adapter, the TCP server, persistence, scene and paint layers are not part of this model.
