# Verified model of the gateway's time, cache, protocol and money logic

The gateway answers HTTP requests about a mining site by asking remote workers ("orks") and folding what
comes back into local days, weeks and months, sorted pages, timelines, and money. This project models the
algorithms that do the folding in Dafny 4.11 and proves what they are meant to guarantee. Nothing was
executed: every statement here is a theorem about the model.

Run `dafny verify dfyconfig.toml` in this directory.

## How it is organised

| module | what it models |
|---|---|
| `Calendar`, `LocalTime` | the Gregorian calendar; a zone as an offset function; local day, week and month starts |
| `Grouping`, `LocalBuckets`, `LocalMonths`, `PeriodAggregation` | cutting a log into local units; the months of a range; weekly, monthly and yearly rollups |
| `MonthlyHashesCache`, `StoredMonths`, `DailyMeans`, `DailyRequests`, `DailySeries`, `HourlySource`, `MonthlyRollup`, `MonthlyHashrate` | the LRU cache with expiry and its two clients, against the uncached computation |
| `CachedRoute` | single-flight request deduplication: a class for the steps between awaits, and runs over all interleavings |
| `PowerModeTimeline` | the streaming fold of samples into segments, fed window by window |
| `StableSort`, `SortItems`, `ListMiners` | the stable sort, the multi-key comparator, the merged page of all orks |
| `QueryFilter`, `CsvExport` | renaming filter fields, with an evaluator; CSV rendering, with a parser for RFC 4180 section 2 |
| `PoolHashrate`, `DcsPower` | samples assigned to windows by binary search; rack-meter power split over groups |
| `Payouts`, `Ebitda`, `RevenueSummary` | payouts and their prices; the EBITDA log and summary; the days the revenue summary keeps |
| `RebateStore`, `WorkOrders` | manual rebates in an ordered store; a batch MOVE order and the sockets it swaps |
| `Seqs`, `Wrappers` | filtering and summing sequences; options and results |

Objects the code updates in place are classes (`LruTtlCache`, `Gateway`, `Aggregator`, `PoolRebates`,
`Inventory`); their methods are proved against functions of the old state, and the lemmas are about those
functions over whole runs. Loops of the code are loops here.

The invariant called `Truthful` in `DailyRequests` and `MonthlyHashrate` says that every resident slot is the
rollup of its whole month in the zone its key stands for. It holds of an empty cache and every request, in
whatever zone, keeps it, so what the two request methods promise holds over any run of requests. Requests may
interleave: the slots that others left while the handler was awaited are a parameter, `meanwhile`.

Results that say what a number, a row or a segment means take the readings and tests they speak of as
parameters (`DayMeanIsMean`, `MonthRowTells`, `DayTells`, `WindowTells`): whoever reads the entries, the
statement holds.

## Hypotheses the code needs

- A zone is `Regular`: offsets under 24 hours and in whole seconds, and no two shifts within two days.
- A day is clear (`ClearDay`): the midnight that opens it is one the two passes resolve (`Resolvable`, an exact
  condition on six offsets), and from nine days before it to 34 days after it the offset moves by less than
  half a day. Results about days, weeks, months or years ask this only of the days, or of the first days of
  the months and years, that they touch: a zone that skipped a midnight at another time is not excluded. The
  default zone, which skipped one on 4 November 2018, is clear on every other day since
  (`LocalTime.CampoGrandeClear`), and all its months since are in order (`LocalBuckets.CampoGrandeMonths`).
- Weeks further need that no clock went forward, on balance, between the stepped-back instant and the day
  start (`StepBackReaches`, also exact).
- The hourly source is stable: the value of an hour does not change once the hour has been reported.
- Orks sort by the same comparator, values are mutually comparable, and no sort key is null in one item and
  undefined in another (`OneKind`; without it the comparator contradicts itself).
- A miner has one mode and status per timestamp (`Consistent`).
- Report windows are disjoint, not empty, and have distinct `ts`.
- Devices of a batch are distinct, and devices listed as miners are miners.

## What the code does against its own documentation or expectation

- `sortItems` documents that null and undefined sort last; in descending order the code puts them first
  (`SortItems.MissingGoesWithDirection`), and null and undefined together contradict each other.
- `dequeueRequests` takes a falsy rejection reason for success: the waiters are resolved with null while the
  leader is rejected (`CachedRoute.FalsyErrorResolvesWaiters`; the exact condition is in
  `CachedRoute.WaitersFollowTheirLeader`).
- `localWeekStart` says it stays right if a shift falls inside the week; a forward shift between Monday and
  the day lands it on the Sunday before (`LocalTime.ForwardShiftMidweek`).
- `localDayStart` is a day early when midnight is skipped in a western zone, and late when it happens twice in
  an eastern one.
- Whether `getMonthlyHashrate` answers can depend on what is cached: with every other month resident, an
  edge month touched in a single instant leaves a query span that is refused (`LoneInstant`): a request can be
  refused warm and answered cold (`MonthlyHashrate.RefusedWarmAnsweredCold`).
- `mapFilterFields` silently drops a field exactly when two names map to the same path
  (`QueryFilter.FieldsLostExactly`).
- CSV text without any header does not read back: the empty line is read as one empty field.
- A batch that enters the miner room can fail half way, with earlier entries already moved, exactly when its
  first device can be placed and a later miner brings no socket (`WorkOrders.HalfMovedExactly`); one that leaves
  the room is refused as a whole or not at all (`WorkOrders.CreateMoveBatch`).
- `getRevenueSummary` leaves out days that begin before `start`, so it holds the revenue of the EBITDA log
  exactly when the payouts on such days are worth nothing together (`RevenueSummary.WindowLosesExactly`), and,
  payouts being inside the window, exactly when none of any worth came on a day the window broke
  (`RevenueSummary.BrokenDayLosesExactly`).
- A monthly row takes its `monthName` from its stamp, so a month whose first midnight was skipped is given the
  name of the month before (`PeriodAggregation.RowIsNamedForTheMonthBefore`).

## Model

| member | source | states |
|---|---|---|
| `Calendar.MonthLength` | workers/lib/period.utils.js:85-88 | the Gregorian months Date.UTC steps through have exactly the days of their name and leap year, 28 to 31 |
| `Calendar.MonthOf` | workers/lib/period.utils.js:72-79 | every day lies in exactly the month whose first day is the last month start not after it |
| `Calendar.MonthSplit` | workers/lib/period.utils.js:72-79 | a day is at or after the first of a month if and only if its own month is that month or a later one |
| `LocalTime.ResolveExact` | workers/lib/period.utils.js:47-61 | the two-pass resolution returns the first instant from which the wall clock has reached the time and never falls back below it, if and only if six offsets around the time satisfy `Resolvable`; no other hypothesis than offsets under 24 h, in whole seconds, and shifts two days apart |
| `LocalTime.UniqueReading` | workers/lib/period.utils.js:47-61 | a wall-clock time that exists exactly once is always resolvable and is resolved to that one instant |
| `LocalTime.LocalDayStartCorrect` | workers/lib/period.utils.js:47-61 | the day start is not after the instant, splits all instants into earlier days and the rest, and no later day has begun by the instant |
| `LocalTime.LocalDayStartIdempotentMonotone` | workers/lib/period.utils.js:47-61 | a day start is its own day start, and later instants never have earlier day starts, wherever the midnights around the first instant and before the second are resolvable |
| `LocalTime.SkippedMidnightWest` | workers/lib/period.utils.js:47-61 | a western zone whose clock jumps over midnight gets an instant that reads 23:00 of the day before |
| `LocalTime.SkippedMidnightEast` | workers/lib/period.utils.js:47-61 | an eastern zone whose clock jumps over midnight gets the shift itself, the true start of its day, though no instant reads midnight |
| `LocalTime.RepeatedMidnightEast` | workers/lib/period.utils.js:47-61 | in an eastern zone whose midnight happens twice, an instant between the two gets the second one, which has not happened yet |
| `LocalTime.LocalMonthStartTsCorrect` | workers/lib/period.utils.js:81-89 | localMonthStartTs is the first instant of its civil month: it splits all instants by local month |
| `LocalTime.DaysSinceMondayCorrect` | workers/lib/period.utils.js:98-99 | the weekday read off the day start counts the days since Monday, in every zone whose midnights around the instant are resolvable, and before 1970 too |
| `LocalTime.LocalWeekStartExact` | workers/lib/period.utils.js:95-104 | in a week of clear days localWeekStart is the first instant of the Monday if and only if `StepBackReaches`; otherwise it is exactly the start of the Sunday before |
| `LocalTime.ForwardShiftMidweek` | workers/lib/period.utils.js:101-103 | a forward shift on the Tuesday makes the Wednesday belong to a week that begins on Sunday |
| `LocalTime.CampoGrandeClear` | workers/lib/constants.js:331 | in the default zone, from its last summer time on, every day is clear but the one whose midnight was skipped |
| `LocalBuckets.GroupLocalBuckets` | workers/lib/metrics.utils.js:437-457 | one bucket per start met in the log, in ascending order, holding the entries of that start in log order, its range clamped to the request and to the instant before the re-derived next start |
| `LocalBuckets.UnitGridIsGrid` | workers/lib/metrics.utils.js:413-425 | clear days, weeks and months cut the time line: each start separates earlier units from the rest, and starts increase; nothing is asked of other units |
| `LocalBuckets.CampoGrandeMonths` | workers/lib/constants.js:331 | the default zone, from its last summer time on, skipped a midnight but the first of no month: all its months are a grid |
| `LocalBuckets.NextBoundary` | workers/lib/metrics.utils.js:413-425 | from a clear unit the start re-derived after the 1.5-day, 7.5-day or 32-day step is exactly the next boundary, across 23 to 25 hour days and 28 to 31 day months, if it and the next two units are clear |
| `LocalBuckets.GroupingIsByUnit` | workers/lib/metrics.utils.js:437-457 | the buckets are true calendar units: one per unit with entries, in order, with pairwise disjoint ranges, and entries inside the request lie in their own range; only the units the log spans and the next two need be clear |
| `LocalBuckets.RangesDisjointAndCovering` | workers/lib/metrics.utils.js:449-455 | ranges stay inside the request, do not overlap, and contain the in-range entries of their bucket |
| `LocalBuckets.EachEntryOnce` | workers/lib/metrics.utils.js:439-448 | in every zone, every dated entry is in exactly one bucket, as often as the log has it |
| `LocalMonths.LocalMonthsInRange` | workers/lib/metrics.utils.js:372-388 | the loop ends for every zone with offsets under 24 h and lists the months from that of start up to the first whose end reaches the end |
| `LocalMonths.MonthsSpanRange` | workers/lib/metrics.utils.js:372-388 | the months are contiguous, from that of start, which contains it, to that of end, which contains it, if the starts of these months and of the next one are in order |
| `MonthlyHashesCache.LruTtlCache.Get` | workers/lib/server/lib/monthlyHashesCache.js:29-41 | get answers the unexpired value and moves the slot to the young end, or drops the expired slot |
| `MonthlyHashesCache.LruTtlCache.Set` | workers/lib/server/lib/monthlyHashesCache.js:43-48 | set replaces the slot at the young end and evicts the oldest slots beyond the bound |
| `MonthlyHashesCache.SizeBounded` | workers/lib/server/lib/monthlyHashesCache.js:43-48 | over any run of gets and sets the cache holds at most maxEntries slots and one per key |
| `MonthlyHashesCache.GetIsFreshLastSet` | workers/lib/server/lib/monthlyHashesCache.js:29-48 | over any run, a get returns only the last value set for its key, and only before that value expires |
| `MonthlyHashesCache.YoungestSlotSurvives` | workers/lib/server/lib/monthlyHashesCache.js:29-48 | a slot just touched stays readable until it expires through every run on other keys that touches fewer than maxEntries of them |
| `MonthlyHashesCache.TouchMakesYoungest` | workers/lib/server/lib/monthlyHashesCache.js:37-45 | a set, or a get that finds a value, makes its key the youngest slot, so the survival bound restarts |
| `DailyMeans.RollupLocalDaysMean` | workers/lib/server/handlers/finance.handlers.js:65-82 | each local day with finite samples gets exactly their mean, and no other day is there |
| `DailyMeans.DayMeanIsMean` | workers/lib/server/handlers/finance.handlers.js:65-82 | a day is answered if and only if some finite sample falls on it; its answer taken once per sample makes up the sum of its samples, and lies between two of them |
| `DailyMeans.MeansUnique` | workers/lib/server/handlers/finance.handlers.js:77-81 | two answers that are both the daily means of one log are equal |
| `DailySeries.GetDailySeries` | workers/lib/server/handlers/finance.handlers.js:84-145 | over any run of requests in any zones, from any cache whose slots are truthful rollups in their own zone, the answer is exactly the uncached daily means of the requested hours, and the cache stays truthful, the handler is asked if and only if some month is not answered by the cache, and every whole ended month that was not is resident afterwards until it expires if the cache has room; whatever truthful slots other requests left while the handler was awaited; start on a local day start, end on the last instant of a local day; of the midnights only those at the two ends, and the first ones of the months touched and of the next, need be clear, and no shift of half a day or more may be near the days of these months |
| `DailyRequests.CachedIsRight` | workers/lib/server/handlers/finance.handlers.js:91-104 | the whole-month rollup of an ended month is right for the part of that month any request covers |
| `DailyRequests.FetchedIsRight` | workers/lib/server/handlers/finance.handlers.js:107-131 | rolling up one span query over all misses gives each missing month its days, though the span stretches over cached months |
| `DailyRequests.FetchedIsWhole` | workers/lib/server/handlers/finance.handlers.js:92 | what is stored for an ended month covered end to end was rolled up from all its hours |
| `DailySeries.ClampedIsDirect` | workers/lib/server/handlers/finance.handlers.js:138-142 | clamping to the touched days removes exactly what whole cached months brought in beyond the request |
| `DailySeries.CampoGrandeRequests` | workers/lib/constants.js:331 | in the default zone, from its last summer time on, every request of whole days is clear, those over the skipped midnight of November 2018 included |
| `StoredMonths.AfterMonthsResident` | workers/lib/server/handlers/finance.handlers.js:107-131 | months set one after the other are all resident afterwards, until they expire, if the cache has room for them |
| `MonthlyRollup.RollupInto` | workers/lib/metrics.utils.js:331-358 | every month the log has hours for gets its rollup row, keyed by the month of its first hour; other rows stay |
| `MonthlyRollup.MonthRowTells` | workers/lib/metrics.utils.js:331-358 | a month has a row if and only if it has an hour; hashrate, nominal and pool are the means over the hours that carry them, and nothing if none does; poolSeconds is 3600 for each hour with a pool value, reportedHours counts the hours, and pctOfNominal times the nominal sum of the paired hours is 100 times their pool sum |
| `MonthlyRollup.MonthRowsAre` | workers/lib/server/handlers/metrics.handlers.js:216 | the list has the row of every month of the range with an hour, in the order of the months, and nothing else |
| `MonthlyRollup.NominalPositive` | workers/lib/metrics.utils.js:302-306 | the nominal sum poolPctOfNominal divides by is positive whenever it has a pair to divide for |
| `MonthlyHashrate.GetMonthlyHashrate` | workers/lib/server/handlers/metrics.handlers.js:154-228 | over any run of requests in any zones, cached nulls and refresh included, the rows equal the uncached month-by-month rollup and the cache stays truthful, the handler is asked if and only if some month is not answered by the cache, and every whole ended month that was not is resident afterwards until it expires if the cache has room; refused if and only if the range is empty or `LoneInstant` holds of the cache as it was read; other requests may leave any truthful slots while the handler is awaited; only the first midnights of the months touched and of the next need be clear |
| `MonthlyHashrate.FetchedRows` | workers/lib/server/handlers/metrics.handlers.js:189-203 | one query over the span of the misses gives each month of the range the row it would have without the cache, including cached months the span stretches over |
| `MonthlyHashrate.SingleInstantSpan` | workers/lib/server/handlers/metrics.handlers.js:192-199 | the span handed on has start not before end exactly when the only miss is an edge month touched in a single instant |
| `MonthlyHashrate.RefusedWarmAnsweredCold` | workers/lib/server/handlers/metrics.handlers.js:189-199 | in UTC, January 1970 and the first instant of February: with January truthfully cached the request is refused, with nothing cached it is answered |
| `CachedRoute.Gateway.DequeueRequests` | workers/lib/server/lib/cachedRoute.js:3-9 | every waiter of the key is settled in the order it joined, rejected only for a truthy error, and the key is forgotten |
| `CachedRoute.Gateway.Request` | workers/lib/server/lib/cachedRoute.js:11-37 | an arrival answers from the cache, joins the queue, or becomes a leader or an overwriting call, and changes nothing else |
| `CachedRoute.Gateway.OnReturn` | workers/lib/server/lib/cachedRoute.js:41-50 | a returning call caches its result, settles its waiters if it leads, then its own request |
| `CachedRoute.Gateway.OnThrow` | workers/lib/server/lib/cachedRoute.js:42-45 | a failing call caches nothing, settles its waiters if it leads, then rejects its own request |
| `CachedRoute.StepKeepsInv` | workers/lib/server/lib/cachedRoute.js:11-51 | no arrival, return, throw or eviction, in any interleaving, breaks the invariant tying requests, queues, leaders and settlements |
| `CachedRoute.OneLeaderPerQueuedKey` | workers/lib/server/lib/cachedRoute.js:29-48 | over all runs a key is queued if and only if a leader computes it, and never two do |
| `CachedRoute.WaitersFollowTheirLeader` | workers/lib/server/lib/cachedRoute.js:31-35 | over all runs a joined waiter is settled at most once, with what its own leader ended with, altered if and only if that was a falsy rejection; an unsettled one still waits in the queue of its running leader |
| `CachedRoute.NobodyLeftWaiting` | workers/lib/server/lib/cachedRoute.js:3-9 | when no handler is running, every request that ever arrived has been settled |
| `CachedRoute.CachedValuesWereReturned` | workers/lib/server/lib/cachedRoute.js:20-27 | every cached value was returned by a call that had arrived for that very key |
| `CachedRoute.HitsWereReturned` | workers/lib/server/lib/cachedRoute.js:26-27 | a request settled without joining a leader or running its handler was given a value that a call for its own key had returned |
| `CachedRoute.ReturnIsServed` | workers/lib/server/lib/cachedRoute.js:20-27 | over all runs: a value some call returned, overwriting or not, is what the next plain request for its key is told on arrival, until the key is evicted or another call for it returns |
| `CachedRoute.UndefinedIsNotServed` | workers/lib/server/lib/cachedRoute.js:26-27 | an undefined result is never served from the cache |
| `CachedRoute.OverwriteRunsItsHandler` | workers/lib/server/lib/cachedRoute.js:20-24 | an overwriting request is never settled on arrival, changes neither cache nor queues, runs its own handler, and is told what that returns |
| `CachedRoute.SecondRequestWaits` | workers/lib/server/lib/cachedRoute.js:29-37 | while a plain request for a key runs its handler, a further one starts none: it is answered at once or joins that request |
| `CachedRoute.CallersAreTold` | workers/lib/server/lib/cachedRoute.js:39-51 | a request is told what its own handler returned or threw, and a throw changes nothing that is cached |
| `CachedRoute.FalsyErrorResolvesWaiters` | workers/lib/server/lib/cachedRoute.js:5-6 | a handler that rejects with a falsy reason rejects its own request but resolves its waiter with null |
| `PowerModeTimeline.Aggregator.AddSample` | workers/lib/server/handlers/metrics.handlers.js:2118-2137 | a sample opens a segment, closes the open one at its own time on a change, or extends it; miners of other containers are ignored |
| `PowerModeTimeline.Aggregator.AddResults` | workers/lib/server/handlers/metrics.handlers.js:2140-2165 | a batch folds its dated entries in time order, statuses before mode-only miners |
| `PowerModeTimeline.Aggregator.Build` | workers/lib/server/handlers/metrics.handlers.js:2167-2176 | the log lists every miner in first-seen order with its container and its closed segments followed by the open one |
| `PowerModeTimeline.BatchesAreIncremental` | workers/lib/server/handlers/metrics.handlers.js:2102-2104 | feeding batch A and then a later batch B is feeding A followed by B at once |
| `PowerModeTimeline.FeedTwice` | workers/lib/server/handlers/metrics.handlers.js:2080-2097 | delivering the samples of one instant a second time changes nothing |
| `PowerModeTimeline.NextWindow` | workers/lib/server/handlers/metrics.handlers.js:2080-2097 | an inclusive window that re-delivers the seam continues the one-pass timeline exactly |
| `PowerModeTimeline.PowerModeTimelineOf` | workers/lib/server/handlers/metrics.handlers.js:2063-2100 | the window loop answers the timeline of feeding the whole range in one pass: one row per miner, in the order first seen, with its container and segments |
| `PowerModeTimeline.FoldEncodes` | workers/lib/server/handlers/metrics.handlers.js:2127-2136 | the segments of a miner run from its first to its last sample, each `to` is the next `from`, neighbours differ, and the segment in force at a sample time carries that sample |
| `PowerModeTimeline.WindowedTimelineIsFaithful` | workers/lib/server/handlers/metrics.handlers.js:2063-2100 | of every wanted miner with samples in the range, the windowed timeline is a faithful run-length encoding |
| `PowerModeTimeline.TimelineTellsEntries` | workers/lib/server/handlers/metrics.handlers.js:2150-2163 | for every dated entry of the range and every wanted miner its status or mode object names, the segment in force at that time has the status of the entry, or unknown, and its mode, or else that status |
| `PowerModeTimeline.NobodyElse` | workers/lib/server/handlers/metrics.handlers.js:2119-2125 | a miner that no entry of the range names, or of another container, has no segments |
| `PowerModeTimeline.OrderIsFirstSeen` | workers/lib/server/handlers/metrics.handlers.js:2167-2176 | a miner listed before another had a sample before the other had any |
| `PowerModeTimeline.ContainerBeforeDash` | workers/lib/metrics.utils.js:123-126 | the container of a key is what stands before its last dash |
| `StableSort.SortSorts` | workers/lib/server/lib/queryUtils.js:172-185 | the sort is an ordered permutation for every consistent comparator |
| `StableSort.SortStable` | workers/lib/server/lib/queryUtils.js:172-185 | items the comparator ties keep their order |
| `StableSort.StableSortUnique` | workers/lib/server/lib/queryUtils.js:172-185 | an ordered sequence with the same tied runs is the stable sort: the two laws determine it |
| `SortItems.ItemOrderIsPreorder` | workers/lib/server/lib/queryUtils.js:167-186 | on a list whose items lack each sort key in one way only, all by null or all by undefined, the multi-key comparator is consistent: opposite for swapped items, and transitive |
| `SortItems.ConsistentExactly` | workers/lib/server/lib/queryUtils.js:172-185 | under a single key the comparator is consistent on a list if and only if the list has one kind of null |
| `SortItems.SortedItemsSorted` | workers/lib/server/lib/queryUtils.js:167-186 | a list with one kind of null is rearranged so that each pair is in the order of the comparator itself and ties keep their order |
| `SortItems.SortedByFirstDifference` | workers/lib/server/lib/queryUtils.js:172-185 | at the first key on which two items of the sorted list differ, the earlier one has the smaller value if the key ascends and the greater one if it descends; who lacks it comes after who has it ascending, before descending |
| `SortItems.NobodyMisplaced` | workers/lib/server/lib/queryUtils.js:172-185 | no item stands after one it should stand before by the first key on which they differ |
| `SortItems.AgreeingKeepOrder` | workers/lib/server/lib/queryUtils.js:172-185 | items with the same values on every key keep the order they had |
| `SortItems.MissingGoesWithDirection` | workers/lib/server/lib/queryUtils.js:177-179 | whatever the further keys, items whose first field is null, or undefined, come out last ascending but first descending, against the comment at lines 160-161 |
| `SortItems.MissingLastExactly` | workers/lib/server/lib/queryUtils.js:160-186 | a list with items that have the field and items that lack it, by null or by undefined, sorts the missing ones last if and only if the first key ascends |
| `SortItems.MixedNullsInconsistent` | workers/lib/server/lib/queryUtils.js:177-179 | the comparator contradicts itself on two values if and only if they are one null and one undefined |
| `SortItems.FlattenOrkResults` | workers/lib/server/lib/queryUtils.js:149-157 | all items of the array replies, in reply order |
| `ListMiners.ListMiners` | workers/lib/server/handlers/miners.handlers.js:140-178 | the answer is the page [offset, offset+limit) of the sorted full lists of all orks, though only offset+limit items of each were fetched; hasMore is right when the counts are |
| `ListMiners.PageOfPrefixes` | workers/lib/server/handlers/miners.handlers.js:142-170 | sorted or not, merging the first offset+limit items of every ork gives the page of all items, for any number of orks |
| `ListMiners.PageMissesNobody` | workers/lib/server/handlers/miners.handlers.js:142-170 | the miners of all orks are some that stand before the page, at most offset, the page, at most limit, and some that stand after it; none before the page is to stand after one on it, none after it before one on it |
| `ListMiners.PageInOrder` | workers/lib/server/handlers/miners.handlers.js:156-170 | on the page nobody stands after one he should stand before |
| `ListMiners.SortingOrksFirst` | workers/lib/server/handlers/miners.handlers.js:144-157 | sorting each ork first does not change the overall stable sort, so the page does not depend on how the orks hold their items |
| `QueryFilter.RenamingPreservesMeaning` | workers/lib/server/lib/queryUtils.js:79-106 | for every document and any nesting of $and, $or, $nor and $not, evaluating the mapped filter equals evaluating the filter with each name looked up at its path, if no object holds two names of one path; the mapped filter is accepted again |
| `QueryFilter.FieldGetsItsPath` | workers/lib/server/lib/queryUtils.js:98-102 | a field named in the map gets its path, any other keeps its name, and its condition stays |
| `QueryFilter.MapSafe` | workers/lib/server/lib/queryUtils.js:32-50 | an accepted filter, of any shape, maps without error to an accepted one |
| `QueryFilter.RejectedExactly` | workers/lib/server/lib/queryUtils.js:83-96 | an object is refused if and only if assertSafeMongoQuery refuses it |
| `QueryFilter.FieldsLostExactly` | workers/lib/server/lib/queryUtils.js:85-105 | an accepted object keeps all its fields if and only if no two of its keys get the same key |
| `QueryFilter.CollidingNamesLoseOne` | workers/lib/server/lib/queryUtils.js:98-102 | of poolConfig and poolConfigId in one object only the later value survives |
| `CsvExport.CollectHeaders` | workers/lib/server/lib/work.order.export.js:24-31 | the header list is the keys of all rows without repetition, in first-seen order |
| `CsvExport.RenderCsvRows` | workers/lib/server/lib/work.order.export.js:23-39 | the text is the header line and one line per row, missing cells empty, each line ended by CRLF |
| `CsvExport.FirstSeenIsUnion` | workers/lib/server/lib/work.order.export.js:24-31 | the headers are duplicate-free and are exactly the union of the row keys |
| `CsvExport.FirstSeenInOrder` | workers/lib/server/lib/work.order.export.js:24-31 | a header comes before another if and only if its key was met first |
| `CsvExport.FieldParses` | workers/lib/utils.js:144-149 | an escaped cell is read back as its text and nothing after it is consumed, with quotes, commas, CR or LF |
| `CsvExport.RoundTrip` | workers/lib/server/lib/work.order.export.js:23-39 | the parser of RFC 4180 section 2 gives back exactly the header row and all cells, if and only if there is at least one header |
| `PoolHashrate.FindBucketIdx` | workers/lib/server/handlers/pools.handlers.js:253-267 | the binary search finds the window containing a time if and only if one does |
| `PoolHashrate.AssignSamples` | workers/lib/server/handlers/pools.handlers.js:269-282 | every window ends up with the totals and counts of exactly its own accepted samples, per account |
| `PoolHashrate.ResolvePoolHashrateForBuckets` | workers/lib/server/handlers/pools.handlers.js:237-296 | for disjoint windows in any order, each gets the sum over accounts of the mean of that account's samples in it, in MH/s, and null exactly without samples |
| `PoolHashrate.WindowTells` | workers/lib/server/handlers/pools.handlers.js:269-293 | a million times the hashrate of a window is the sum, over the accounts with a sample in it, of the mean of the samples of each; there is none if and only if there are no such accounts |
| `PoolHashrate.SampleOrderIrrelevant` | workers/lib/server/handlers/pools.handlers.js:269-293 | delivering the same samples in another order changes no window |
| `DcsPower.BuildGroupPowerFromDCS` | workers/lib/metrics.utils.js:262-293 | the loop leaves in the ledger what every rack meter credits, meter by meter |
| `DcsPower.MeterConserved` | workers/lib/metrics.utils.js:275-290 | in the proportional and in the equal-share branch a meter hands out exactly its power |
| `DcsPower.PowerConserved` | workers/lib/metrics.utils.js:262-293 | all groups together get the power of all rack meters that cover a group, however the meters overlap |
| `DcsPower.GroupGetsItsShares` | workers/lib/metrics.utils.js:262-293 | a group gets exactly the sum of its shares of all meters that feed it |
| `DcsPower.ShareTells` | workers/lib/metrics.utils.js:275-290 | a share times the total hashrate is the power times the hashrate of the group, if anything hashes; else shares are equal |
| `DcsPower.CoveredTells` | workers/lib/metrics.utils.js:242-260 | a meter covers the groups from a to b of its first branch that names any |
| `PeriodAggregation.AggregateByPeriod` | workers/lib/period.utils.js:106-214 | daily logs come back unchanged; otherwise one row per period met, newest first, each field its mean, first truthy label or sum over the period's entries, with the month and year of the period and the month name its stamp reads |
| `PeriodAggregation.AggregateEntries` | workers/lib/period.utils.js:143-166 | per field: null-free mean over its numbers or null, first truthy label, or sum with non-numbers as zero, whatever order the fields come in |
| `PeriodAggregation.MetricConserved` | workers/lib/period.utils.js:106-214 | every summed field has the same total over the rows as over the entries with a finite ts, for every period and zone |
| `PeriodAggregation.FieldTells` | workers/lib/period.utils.js:141-166 | a field of a row is, over the entries of its period: the mean of their numbers, or null, if averaged; the first value that is not blank, or the last, if a label; else the sum of their numbers |
| `PeriodAggregation.MonthFieldsTell` | workers/lib/period.utils.js:168-176 | the month and year of a monthly row are those its entries lie in |
| `PeriodAggregation.YearFieldTells` | workers/lib/period.utils.js:178-186 | the year of a yearly row is the one its entries lie in |
| `PeriodAggregation.PeriodGridIsGrid` | workers/lib/period.utils.js:168-195 | clear weeks, months and years split time by their first instants; a month or year needs only its first midnight |
| `PeriodAggregation.RowsAreThePeriods` | workers/lib/period.utils.js:168-214 | rows are strictly newest first, one for each period with an entry, stamped with the first instant of that period; only the periods the log lies in need be clear |
| `PeriodAggregation.RowIsNamedForItsMonth` | workers/lib/period.utils.js:177 | the row of a month that begins and ends at clear midnights carries the name of that month |
| `PeriodAggregation.RowIsNamedForTheMonthBefore` | workers/lib/period.utils.js:177 | where the clocks skipped the first midnight of January 1970, west of Greenwich, the row of that January is named December |
| `PeriodAggregation.MonthsThenYears` | workers/lib/period.utils.js:106-214 | rolling up to months and then to years gives the same years with the same sums as rolling up to years at once; only first midnights of the months and years involved need be clear |
| `Payouts.ProcessTransactions` | workers/lib/server/handlers/finance.utils.js:67-119 | the entries are the counted transactions in order, and each day bucket holds the sums over its own entries |
| `Payouts.EntriesConserve` | workers/lib/server/handlers/finance.utils.js:83-115 | the entries carry exactly the amounts of the transactions in scope and in the window |
| `Payouts.BucketsConserve` | workers/lib/server/handlers/finance.utils.js:92-111 | the day buckets together hold the whole of those amounts |
| `Payouts.RequestIsNewestNeeded` | workers/lib/server/handlers/finance.utils.js:202-221 | prices are asked for distinct buckets some unpriced payout needs, at most the cap, and a bucket left out is older than every one asked for |
| `Payouts.PriceDailyRevenue` | workers/lib/server/handlers/finance.utils.js:178-277 | each day holds the sums over its payouts and rebates, its blended price, and the count of those without an exact price; the missing buckets are exactly theirs |
| `Payouts.EntriesTell` | workers/lib/server/handlers/finance.utils.js:88-114 | one entry per transaction in scope whose moment, the first date given, is in the window, in order; satoshis count 100 million to the coin, else the first amount that is not zero, never negative |
| `Payouts.PayoutsTell` | workers/lib/server/handlers/finance.utils.js:186-198 | the payouts are the entries, unpriced and no rebates, then the valid rebates with the price recorded for each |
| `Payouts.DayTells` | workers/lib/server/handlers/finance.utils.js:236-266 | a day holds the sums over its payouts, over those that are no rebates and over those that are, their worth each at its stored price, else that of its five minutes, else that of its day, else the current one, and the number of those of any worth that had neither of the first two |
| `Payouts.DayBalances` | workers/lib/server/handlers/finance.utils.js:256-273 | a day's revenueBTC is payoutBTC plus rebateBTC, and btcPrice times revenueBTC is revenueUSD when revenue is positive |
| `Payouts.DaysHoldAllPayouts` | workers/lib/server/handlers/finance.utils.js:235-266 | over all days, BTC revenue, USD revenue and unpriced counts add up to those of all payouts |
| `Payouts.PricingCompleteExactly` | workers/lib/server/handlers/finance.utils.js:251-254 | no bucket is reported missing if and only if the unpriced counts sum to zero, and there are never more missing buckets than unpriced payouts |
| `Payouts.PayoutsConserve` | workers/lib/server/handlers/finance.utils.js:186-200 | the payouts are worth the counted transactions plus the valid rebates |
| `Ebitda.DailyRowShows` | workers/lib/server/handlers/finance.handlers.js:538-584 | a daily row shows the power and hashrate of its day, the megawatt-hours that power makes in 24 hours, and the costs of that consumption |
| `Ebitda.DayRowShowsRevenue` | workers/lib/server/handlers/finance.handlers.js:544-584 | a daily row shows the revenue of its day, what was paid and what was rebated of it, its worth, the unpriced count and the price realised |
| `Ebitda.DayRowShowsNone` | workers/lib/server/handlers/finance.handlers.js:544-584 | a day without payouts shows no revenue, and the price of the day or else the current one |
| `Ebitda.RolledRowTells` | workers/lib/server/handlers/finance.handlers.js:586-589 | price, power and hashrate of a rolled-up row are the means over its days, every other number is their sum |
| `Ebitda.RecomputedShowsCost` | workers/lib/server/handlers/finance.handlers.js:590 | the production cost of a row times its revenue is its costs, and there is none without revenue |
| `Ebitda.RevenueInTells` | workers/lib/server/handlers/finance.handlers.js:529 | the money accounted for is that of the transactions whose moment lies from start to end and of the valid rebates |
| `Ebitda.BuildLog` | workers/lib/server/handlers/finance.handlers.js:538-584 | one row per day of the revenue, power or hashrate series, in the text order of the day keys, with the fields of that day |
| `Ebitda.CalculateEbitdaSummary` | workers/lib/server/handlers/finance.handlers.js:627-658 | the totals are the sums over the log, zero for an empty one, and the average cost spreads the costs over the revenue |
| `Ebitda.RevenueConserved` | workers/lib/server/handlers/finance.handlers.js:490-594 | whatever the period, the log's BTC revenue is the in-window transactions plus the valid rebates, its USD revenue is every payout at its own price, and pricing is complete if and only if the log counts no unpriced payout |
| `Ebitda.BalanceCarries` | workers/lib/server/handlers/finance.handlers.js:586-590 | a linear balance between summed fields that every day keeps is kept by every row of every rollup |
| `Ebitda.GetEbitda` | workers/lib/server/handlers/finance.handlers.js:490-594 | end to end: the summary accounts for all revenue and all costs, both EBITDA totals are revenue less costs, and every row keeps revenue = payouts + rebates and EBITDA = revenue - costs |
| `RevenueSummary.ListWindow` | workers/lib/server/handlers/finance.handlers.js:1065-1069 | the loop keeps exactly the days that begin inside the window, in order |
| `RevenueSummary.WindowRevenue` | workers/lib/server/handlers/finance.handlers.js:1065-1113 | the revenue of the kept days is that of the payouts whose local day begins in the window |
| `RevenueSummary.WindowLosesExactly` | workers/lib/server/handlers/finance.handlers.js:1065-1113 | the kept days hold the revenue of all days, as the EBITDA log does, if and only if the payouts on days that begin outside the window are worth nothing together |
| `RevenueSummary.BrokenDayLosesExactly` | workers/lib/server/handlers/finance.handlers.js:1065-1113 | of payouts inside the window, none of a negative amount, the kept days hold the revenue of all days if and only if no payout of any worth arrived on the day that contains `start` and began before it |
| `RevenueSummary.WholeFirstDayLosesNothing` | workers/lib/server/handlers/finance.handlers.js:1065-1069 | no payout is left out when the window begins with a local day and the payouts lie inside it |
| `RevenueSummary.NoonWindowLosesADay` | workers/lib/server/handlers/finance.handlers.js:1065-1069 | a window that begins at noon leaves out the bitcoin paid at noon |
| `RebateStore.PoolRebates.Probe` | workers/lib/globalData.js:286-287 | the probe ends at the least free key from the requested one on |
| `RebateStore.PoolRebates.SetPoolRebatesData` | workers/lib/globalData.js:243-296 | a refused request, with the first failing check as its error, changes nothing; a removal deletes one key; a write deletes only the edited row and adds one row at the probed key; the store stays sound |
| `RebateStore.RunsAreSound` | workers/lib/globalData.js:243-296 | over any run of adds, edits and removals every row sits under its own ts and no two rows share a txid |
| `RebateStore.WriteKeepsSound` | workers/lib/globalData.js:263-295 | an accepted write keeps keys and txids sound |
| `RebateStore.AcceptedExactly` | workers/lib/globalData.js:243-277 | a write goes through if and only if moment and amount are positive, the txid, if given, is 64 hexadecimal digits no other row has, and the row to be edited, if named, exists |
| `RebateStore.WrittenRowTells` | workers/lib/globalData.js:279-294 | the row written carries the amount, parties, price and lower-case txid given, under the key found |
| `RebateStore.AddKeepsRows` | workers/lib/globalData.js:284-295 | an add makes one row more and overwrites none |
| `RebateStore.EditKeepsCount` | workers/lib/globalData.js:267-295 | an edit keeps the row count and all other rows, and the old price only when none is given and the moment did not move; an unmoved edit keeps its key |
| `RebateStore.CombinePoolRebates` | workers/lib/server/handlers/rebates.utils.js:32-44 | all manual rows come first and unchanged, then automatic rows whose txid is new; no txid is lost, and none repeats if none does among the manual rows |
| `RebateStore.ListedTxidsOnce` | workers/lib/globalData.js:243-296 | what the store lists never repeats a txid, so the combination of it never does |
| `WorkOrders.ResolveReplacements` | workers/lib/server/handlers/work.orders.handlers.js:66-89 | accepted if and only if every named replacement is a known miner outside the room that holds no socket and is not moving itself, named once, for a miner leaving its socket in the room; then each device that names one gets exactly it, with the vacated container and position |
| `WorkOrders.CreateMoveBatch` | workers/lib/server/handlers/work.orders.handlers.js:328-460 | a batch succeeds if and only if all devices are known and of a valid type, all named replacements fit and every miner entering the room brings a socket; one that does not fit moves nothing; one that fits applies exactly the updates of its entries up to the first miner without a socket, and records them all when it succeeds |
| `WorkOrders.MoveEntries` | workers/lib/server/handlers/work.orders.handlers.js:405-437 | the loop stops at the end or at the first entry that cannot be placed, with exactly the updates of the entries before it applied |
| `WorkOrders.HalfMovedExactly` | workers/lib/server/handlers/work.orders.handlers.js:405-437 | a batch moves some entries and not others if and only if its first device can be placed and a later one cannot |
| `WorkOrders.HalfMovedBatch` | workers/lib/server/handlers/work.orders.handlers.js:52-64 | two miners enter the room, only the first with a socket: the batch passes every check before the moves, and the first miner sits in the room when it fails |
| `WorkOrders.BatchOutcome` | workers/lib/server/handlers/work.orders.handlers.js:48-102 | a batch of distinct devices, none attached to a miner of the batch, leaves each at the destination, with the status given; a miner that enters the room sits in the socket picked, one that leaves is parked in maintenance without position; each replacement is in operation in the room, in the socket and on the subnet its miner had before |
| `WorkOrders.FollowerMoved` | workers/lib/server/handlers/work.orders.handlers.js:102-130 | a part attached to a miner of the batch has followed it, by location only |
| `WorkOrders.OthersStay` | workers/lib/server/handlers/work.orders.handlers.js:405-437 | nothing else has changed, come or gone |
| `WorkOrders.RecordsTellOrigins` | workers/lib/server/handlers/work.orders.handlers.js:290-325 | the records of an entry name the location, status, container and position its part, its attached parts and its replacement came from |
| `WorkOrders.ExclusiveThroughout` | workers/lib/server/handlers/work.orders.handlers.js:405-437 | after every single update of a batch leaving the miner room, no two miners share a container and position |
| `WorkOrders.SocketsAfterBatch` | workers/lib/server/handlers/work.orders.handlers.js:405-437 | the occupied sockets in the end are the old ones less those vacated without a replacement |
| `WorkOrders.RecordsReplayTheBatch` | workers/lib/server/handlers/work.orders.handlers.js:290-325 | replaying partsMoves over the old inventory gives the new location, container, position and status of everything |

## Left out

- RPC, Hyperswarm, SQLite, routes, schemas, OAuth, websockets and audit logging: orks and handlers are functions, sequences or maps given as parameters.
- Intl and the IANA database: a zone is UTC or an arbitrary offset function; years 0 to 99, where Date.UTC adds 1900, and fractional milliseconds are not modelled.
- Floating point: money, power, hashrates and means are reals; NaN and Infinity appear as a missing number.
- Permission checks, token handling and input sanitising.
- The cooling and energy views, projection tables and other field copying: no invariant beyond the copied fields.
- CachedRoute.Gateway.Request: the choice of LRU bucket and the joining of key parts are not modelled, an arrival brings its key; `sweepExpired`, expiry and eviction are one event that may drop any cached key at any time.
- MonthlyHashesCache.LruTtlCache.Get: keys are values, so the `|`-joined key text and what could collide in it are not modelled.
- DailySeries.GetDailySeries: ranges that do not start on a local day start and end on a local day's last instant are outside the claim, since a partial day's mean then depends on what is cached.
- MonthlyHashrate.GetMonthlyHashrate: the summary and the current-hashrate field beside the log are not modelled.
- PowerModeTimeline.PowerModeTimelineOf: the row limit of the tail-log query is not modelled, a window delivers all its entries; the memo of miner containers is a pure function here.
- LocalMonths.LocalMonthsInRange: the key text YYYY-MM is the month number 12 * year + month - 1.
- ListMiners.ListMiners: projection and formatting of the page items are not modelled.
- SortItems.ItemOrderIsPreorder: values of different types, which JavaScript finds neither less nor greater, are outside the claim, and so are lists that mix null and undefined under one key, whose order depends on the engine.
- QueryFilter.RenamingPreservesMeaning: a $elemMatch beside field names, outside any field's condition, is outside the claim, and field names that are inherited object properties are not modelled; the atomic condition of a field is a parameter.
- CsvExport.RoundTrip: a null cell and an empty text are rendered alike, so the texts are given back, not the distinction.
- PoolHashrate.ResolvePoolHashrateForBuckets: the flattening of replies is not modelled, samples come with a usable ts.
- PeriodAggregation.AggregateByPeriod: the catch branch for an invalid date cannot be reached here; strings of one number written in two ways group apart in the code under an unnamed period, and together here; field names that are inherited object properties are not modelled.
- Payouts.ProcessTransactions: the shapes in which replies nest transactions are not modelled, the loop takes the flat list; timestamps given as texts come with what Number() and Date.parse make of them.
- Payouts.PriceDailyRevenue: the lookup is any function from requested buckets to prices; merging nested replies is not modelled.
- RevenueSummary.ListWindow: of the revenue summary only the days kept and their revenue are modelled, not its cost, energy and hashrate fields.
- Ebitda.GetEbitda: costs are any function of a day and its consumption, so the resolution of cost parameters is not modelled; the daily power and hashrate series and prices are inputs.
- RebateStore.PoolRebates.SetPoolRebatesData: a write is atomic, so two writes interleaving between awaits are not modelled.
- WorkOrders.CreateMoveBatch: MOVE orders with a destination only; the order's identifiers, times and users and the asynchrony of pushed actions are not modelled; work-order status transitions are not part of this model.
