# Trip planning: a verified model

A Dafny 4.11 model of the planning core of the Travel Planner backend, with proofs of what it promises.
Four components are modelled, each in its own form (loops over mutable routes, objects whose methods
change their fields, pure functions over values), and each relies on the ones before it.

1. **The route solver.** `TimeWindows`, `Scheduling`, `NearestNeighbor`, `TwoOpt`, `Priorities`, `OpeningHours` and
   `RouteOptimizer` take one day's places to a timed route; `Responses` reads their guarantees in the terms of the
   request and the stored documents. The construction keeps its own clock, the scheduler
   recomputes it, and the pipeline would silently lose places if they ever disagreed: they never do. `Leftovers`
   says exactly when the construction may leave over a place that fits; `LostPlaces` and `ShortRoutes` show requests that
   are answered worse than they could be.
2. **The multi-day planner.** `Accommodations`, `TripRequests`, `Partition`, `TransferDays` and `TripPlanner` spread the
   places over days and over the two sides of a transfer, call the solver, and assemble the trip. Every requested
   place is reported exactly once. `Plans` reads the plan in the terms of the request.
3. **Editing and the revision store.** `Reconcile`, `ApplyEdits`, `EditGuarantees` and `EditEffects` apply a batch of
   operations to a trip and say what it does to each field; `TripStore` and `TripEditor` store it by compare-and-set
   with an immutable history, and `StoreOutcomes` says what each transaction does, row by row.
4. **The chat write scope.** `WriteScope` and `ChatTurns` bind, arm, consume and clear what a chat thread may write.

`Protocol` puts 3 and 4 together as one state machine: a state holds the two tables, the threads' documents and
the operations in flight, and every event is one atomic action (a transaction, one read, one document update).
A run is any sequence of events, so every interleaving is covered. `ProtocolSafety` proves the invariant,
`ProtocolGuarantees` draws the promises from it, `ProtocolProgress` says what each step does, and `StoredPlans` follows
the plans of the planner into the store. `Sequences` and `Wrappers` are shared vocabulary.

`dafny verify dfyconfig.toml` checks everything.

## Assumptions

- The distance matrix is any partial map with non-negative durations; a failed lookup is `None`.
- `OptimizeRoute` asks that `__start__` and `__end__` are no place ids, as the source demands of its callers.
  `OptimizeTrip` asks the same of a trip and proves it, and the request validators, of every request it builds.
- New trip ids are fresh (`save` mints them), so an id is never used twice. Without that the restore property fails.
- Two snapshots have equal hashes exactly when they are equal.
- Which of two stays a place is nearer to is an arbitrary relation, a set is iterated in an arbitrary order, and
  the re-planned response of an edit is an arbitrary value or a failure; `StoredPlans` alone assumes that it is one the
  planner may return.

## Where code and documentation differ

The model follows the code.

- `src/optimizer/solver/models.py:55` asks for non-overlapping segments; nothing depends on it.
- `src/optimizer/solver/service.py:55-58`: preferred hours replace the day bounds and are not clamped to them. So without
  an end anchor the construction can stop while a place still fits (`LateHoursLoseThePark`). `StrandingIsExact` gives the
  exact check, on what is known before the travel times are.
- `src/optimizer/solver/engine.py:177-208`: the scan never sees a place whose last closing time exceeds the sentinel of
  10^9 seconds, which the unvalidated hours of a day slot can (`FarHoursLoseTheTower`). `OverlookingIsExact` says that
  a construction run with an end anchor overlooks nothing else. This is said of runs, not of responses: reordering the
  route or dropping a tier afterwards can free time that is not offered to skipped places again.
- `src/trips/editing/reconcile.py:111-114` says a transfer added in a batch on a bad day is left to the validator. The
  code decides by date, so one that was removed and re-added on its old date is dropped: `ReaddedTransferIsDropped` shows
  a batch, `OffDayTransferFate` says exactly when.
- `src/optimizer/solver/engine.py:263` promises the original route only if no improvement was found. Routes of fewer
  than four stops are returned untouched (lines 265-266), and an unpinned one of three stops has a reversal the loops
  below would try: `ShortRouteStaysLong` shows one that would save almost two hours, `ShortRoutesExact` and
  `OptimalityByLength` say exactly when.
- `src/optimizer/solver/engine.py:218-219` cannot be reached: the candidate scan has already found that start.

## Model

| member | source | states |
|---|---|---|
| `TimeWindows.SecondsToTimeRoundTrip` | src/optimizer/solver/models.py:19-29 | encoding seconds as a wall-clock time and decoding it loses only the day: it is exact iff the seconds lie in the day, so only the end-of-day midnight is ambiguous |
| `TimeWindows.TimeRoundTrip` | src/optimizer/solver/models.py:19-29 | decoding a wall-clock time and encoding it again gives the same time |
| `TimeWindows.EarliestStartIsMinimum` | src/optimizer/solver/models.py:76-87 | on segments sorted by opening, the first fit is the least of all starts from the arrival on that lie in one segment, and is absent iff there is none; overlapping segments allowed |
| `TimeWindows.EarliestStartMonotone` | src/optimizer/solver/models.py:76-87 | arriving earlier never makes a visit impossible or its start later |
| `TimeWindows.FromSegmentsOrdered` | src/optimizer/solver/models.py:51-59 | segments given in any order are kept, ordered, and admit exactly the same visits |
| `TimeWindows.CloseIsOfLastOpening` | src/optimizer/solver/models.py:70-73 | the close of a window built from segments in any order is that of the segment which opens last, the longest of those that do |
| `Scheduling.ScheduleRoute` | src/optimizer/solver/engine.py:14-55 | the loop returns the timetable of the order, or the empty list iff a leg is missing or a window cannot be met |
| `Scheduling.TimetableStep` | src/optimizer/solver/engine.py:32-53 | each stop's arrival is the previous departure plus the leg, and its visit begins at the earliest start from there |
| `Scheduling.ScheduleIsEarliest` | src/optimizer/solver/engine.py:14-55 | no assignment of start times that respects travel and windows starts any visit of the order earlier than the scheduler does |
| `Scheduling.ScheduleRespects` | src/optimizer/solver/engine.py:14-55 | the scheduler's own start times respect travel and windows |
| `Scheduling.IsFeasible` | src/optimizer/solver/engine.py:58-71 | decides feasibility of an order; the empty order and an impossible one are both infeasible |
| `Scheduling.FeasibilityIsExact` | src/optimizer/solver/engine.py:14-71 | a non-empty order is feasible iff some assignment of start times respects travel and windows and ends by the end of the day |
| `Scheduling.ClockSnoc` | src/optimizer/solver/engine.py:214-229 | the running clock of the construction and the scheduler's recomputed clock agree stop by stop, including when they fail |
| `Scheduling.TimeLedger` | src/optimizer/solver/engine.py:14-55 | last departure minus day start is exactly travel plus waiting plus visits, none of them negative |
| `Scheduling.RouteTravelTime` | src/optimizer/solver/engine.py:74-82 | the cost loop sums the legs, or gives the sentinel if one is missing |
| `Scheduling.FeasibleTravelBelowSentinel` | src/optimizer/solver/engine.py:74-82 | a feasible order's cost is the travel of its timetable and stays below the sentinel, so cost comparisons are never decided by it |
| `Scheduling.RouteScore` | src/optimizer/solver/engine.py:85-89 | the loop sums the weights of an order, or without weights counts its nodes; what the sum means for the choice of routes is stated by ScoreIsWeight and RunsKeepMost |
| `NearestNeighbor.ChooseNext` | src/optimizer/solver/engine.py:175-212 | the scan picks an admissible node that no admissible node precedes by deadline and then by travel, or nothing iff none is admissible; whatever the set iteration order |
| `NearestNeighbor.LookaheadIsExact` | src/optimizer/solver/engine.py:203-208 | with an end anchor a candidate is admissible iff the order with it and then the anchor is feasible and its deadline is not beyond the sentinel the scan starts from |
| `NearestNeighbor.GrowStep` | src/optimizer/solver/engine.py:213-229 | one step: the incremental clock equals the scheduler's, every stop was an earliest-deadline choice, the anchor stays reachable, and the early break happens only without an anchor |
| `NearestNeighbor.GrowRoute` | src/optimizer/solver/engine.py:160-229 | the loop keeps all of that and ends only when nothing is admissible or the chosen stop would overrun the day |
| `NearestNeighbor.NnFromStart` | src/optimizer/solver/engine.py:137-239 | a returned route is feasible for the scheduler, greedy, ends at the anchor if there is one, and together with the skipped list splits the nodes without repetition |
| `NearestNeighbor.FailureIsExact` | src/optimizer/solver/engine.py:175-237 | with an end anchor a run returns nothing iff the start alone, or both the anchor right after it and every stop in between that the scan sees, are infeasible: after one stop it cannot fail |
| `NearestNeighbor.NothingLeftFits` | src/optimizer/solver/engine.py:175-237 | with an end anchor a place that could still be visited before the anchor in time is left over iff its deadline is beyond the sentinel |
| `NearestNeighbor.GreedyIsEarliestDeadline` | src/optimizer/solver/engine.py:175-212 | whenever a constructed route goes on to a stop, no node still left that was admissible closes earlier, nor at the same time and nearer by |
| `Leftovers.StrandingIsExact` | src/optimizer/solver/engine.py:175-231 | without an end anchor: for all travel times no run from a start leaves over a place that still fits, iff the windows, visits and day bounds hold no place that fits right after the start and either has a deadline beyond the sentinel or can be blocked by another one whose earlier-closing visit may overrun the day (with equal deadlines: may overrun it from an arrival at which the first still fits) |
| `Leftovers.OverlookingIsExact` | src/optimizer/solver/engine.py:175-237 | with an end anchor: for all travel times no run leaves over a place that still fits before the anchor, iff no place that fits right after the start has a deadline beyond the sentinel |
| `LostPlaces.LateHoursLoseThePark` | src/optimizer/solver/service.py:55-58 | a valid request with storable places whose every response visits nothing and skips a place that fits: preferred hours after the day end, not clamped to it, end the construction |
| `LostPlaces.HoursInDayLoseNothing` | src/optimizer/solver/service.py:44-98 | as long as no accepted place has a closing bound after the day end, which only preferred hours can give it, no run without an end anchor leaves over a place that still fits |
| `LostPlaces.FarHoursLoseTheTower` | src/optimizer/solver/engine.py:177-208 | a valid trip whose every plan skips a place that fits, because its day slot's hour puts the deadline beyond the sentinel |
| `NearestNeighbor.GreedyVisitsNodes` | src/optimizer/solver/engine.py:160-239 | a constructed route repeats no node and visits only the start and requested nodes |
| `NearestNeighbor.NearestNeighborRoute` | src/optimizer/solver/engine.py:92-134 | the first of the routes with greatest weight, then least travel, over all starting nodes; the skipped list is exactly the rest |
| `Priorities.ScoreIsWeight` | src/optimizer/solver/engine.py:85-89 | the score of an order under the tier weights is the priority weight of its requested places plus one for every other stop |
| `Priorities.RunsKeepMost` | src/optimizer/solver/engine.py:92-134 | of the runs from all starting nodes the kept one has lexicographically greatest counts (must-see, normal, optional), then least travel, and is the first such run |
| `Responses.StartIsBest` | src/optimizer/solver/service.py:242-301 | for a response without a start location: no starting place would have given the kept tier a route that visits lexicographically more places than the reported steps |
| `NearestNeighbor.PrefixFeasible` | src/optimizer/solver/engine.py:58-71 | every non-empty prefix of a feasible order is feasible |
| `TwoOpt.MoveReverses` | src/optimizer/solver/engine.py:279-279 | a move turns around exactly the stops between its ends and keeps all others in place |
| `TwoOpt.MoveRearranges` | src/optimizer/solver/engine.py:276-279 | an allowed move permutes the route, never moves the first stop, nor the last one when pinned |
| `TwoOpt.FindImprovement` | src/optimizer/solver/engine.py:277-290 | one scan returns a strictly shorter feasible rearrangement, or proves that no allowed reversal is one |
| `TwoOpt.TwoOptSearch` | src/optimizer/solver/engine.py:242-292 | the result permutes the input with pinned ends, is the input or feasible and strictly shorter, and is locally optimal, or the iteration cap stopped it after at least that many seconds of improvement, or it is an unpinned three-stop route returned as given although its one allowed reversal is feasible and shorter |
| `TwoOpt.ShortRoutesExact` | src/optimizer/solver/engine.py:265-279 | a route of fewer than four stops is locally optimal iff it has not exactly three stops, or its end is pinned, or swapping its last two stops does not give a feasible and strictly shorter route |
| `TwoOpt.OptimalityByLength` | src/optimizer/solver/engine.py:265-292 | for routes of a given length, every result of the search on every instance is locally optimal or capped iff the length is not three, or the end is pinned, or no round is allowed |
| `Responses.RouteIsImproved` | src/optimizer/solver/service.py:268-301 | the reported route rearranges the constructed one with pinned ends, and is locally optimal, or has at least 100 seconds less travel than the constructed one, or is the three-stop case |
| `ShortRoutes.ShortRouteStaysLong` | src/optimizer/solver/engine.py:265-266 | a valid request with storable places whose every response travels two hours, although the other order of its two places is feasible with two minutes of travel |
| `Priorities.WeightsAreLexicographic` | src/optimizer/solver/service.py:28-31 | below 1000 places the weights order routes exactly as the counts (must-see, normal, optional) do lexicographically |
| `Priorities.CountBounded` | src/optimizer/solver/service.py:28-31 | a route without repetitions visits at most as many places of a priority as there are places, which is what makes the weights safe |
| `Priorities.TiersAreExact` | src/optimizer/solver/service.py:132-136 | the three tiers keep, in the order of the request, all places, exactly those that are not optional, and exactly the must-sees |
| `Priorities.AttemptIsSound` | src/optimizer/solver/service.py:146-159 | whichever way its start is chosen, an attempt is feasible, repeats nothing, keeps the anchors at its ends, and its route and skipped list split its tier |
| `Priorities.SolveWithPriorities` | src/optimizer/solver/service.py:101-171 | runs tiers of strictly increasing level and strictly fewer places, from all places downwards, passing over only levels that would remove nothing, each but the last attempt having left out a must-see; keeps the first attempt of greatest weight; dropped is what the kept tier lacks. What the tiers hold is stated by TiersAreExact, what it means for dropped places by DropReasons |
| `Priorities.PriorityGuarantee` | src/optimizer/solver/service.py:114-171 | the kept attempt has lexicographically greatest counts among those run, visits all must-sees if any did, never drops a must-see, and drops places only for a strictly better count than the run over all places |
| `Priorities.DropReasons` | src/optimizer/solver/service.py:128-171 | an optional place is dropped only if the attempt over all places left out a must-see, a normal one only if an attempt over exactly the places that are not optional did too; and if the last attempt left one out it was over exactly the must-sees |
| `Priorities.DropsPayOff` | src/optimizer/solver/service.py:128-171 | a place is dropped only for a route that visits lexicographically more than the route of every attempt that still had the place |
| `OpeningHours.ParseTimeWindow` | src/optimizer/solver/service.py:44-98 | the loop builds the window of the place, or none when it cannot be visited |
| `OpeningHours.WindowIsExact` | src/optimizer/solver/service.py:44-98 | the window admits a visit iff the visit keeps the preferred hours (else the day bounds) and lies in one opening period of that weekday |
| `OpeningHours.GoogleWeekdayIsExact` | src/optimizer/solver/service.py:38-41 | Google's day of week is the date's ordinal modulo 7: ordinal 1 is a Monday and counts 1, and the next date is the next day |
| `OpeningHours.WindowWhenOpen` | src/optimizer/solver/service.py:44-98 | a place has a window iff some visit of a second keeps its preferred hours, or the day bounds, and one of its periods of that weekday |
| `OpeningHours.WindowIsUsable` | src/optimizer/solver/service.py:90-98 | every window has ordered, non-empty segments and closes by the place's own bound |
| `RouteOptimizer.CollectPlaces` | src/optimizer/solver/service.py:213-237 | the loop splits the requested ids into accepted ones, each with its window and visit time, and rejected ones, in order |
| `Responses.AcceptedExactly` | src/optimizer/solver/service.py:213-237 | a place enters the solver iff it is known, has both coordinates and is open for some visit that day |
| `RouteOptimizer.BuildSteps` | src/optimizer/solver/service.py:303-338 | the loop reports every stop between the anchors once, in order, and sums travel, visits and waits |
| `RouteOptimizer.StopIsSound` | src/optimizer/solver/service.py:303-335 | each scheduled stop between the anchors lies in the place's opening hours and in the day |
| `RouteOptimizer.StepIsSound` | src/optimizer/solver/service.py:318-335 | the reported clock times of a step decode to the exact scheduled seconds, midnight included |
| `RouteOptimizer.ReportHolds` | src/optimizer/solver/service.py:303-348 | the reported steps are the stops of the route between its anchors and one timeline: each arrival is the previous departure plus the leg, the last departure plus the leg to the end anchor is within the day, and every leg is the matrix entry between its two stops |
| `RouteOptimizer.ExplainedIsPrioritized` | src/optimizer/solver/service.py:268-301 | the priority guarantee of the response itself: its steps have lexicographically greatest counts among the attempts run, hold all must-sees if any attempt did, and of its skipped places only the dropped ones were given up, never a must-see, only for a better count, and only for the reasons of DropReasons |
| `RouteOptimizer.ConservedIntro` | src/optimizer/solver/service.py:218-321 | rejected, dropped and unrouted places together with the steps are exactly the request, each once if the request repeats none |
| `RouteOptimizer.OptimizeRoute` | src/optimizer/solver/service.py:174-348 | every response has conservation, timeline, opening hours, totals and the matrix legs, reports the 2-opt improvement of the best tier attempt, and keeps the priority guarantee; it fails iff there is no matrix and some place is accepted. VisitsAreKept, RouteIsImproved and StartIsBest read this in the terms of the request and the documents |
| `Responses.VisitsAreKept` | src/optimizer/solver/service.py:174-348 | every step visits the last document of its id for its stored duration, arrives and leaves within the bounds of the request, keeps the stored preferred hours, and if the place has periods lies in one that opens on the weekday `departureDate % 7` |
| `RouteOptimizer.ReportedLedger` | src/optimizer/solver/service.py:305-348 | travel, visit and wait totals account for all seconds up to the last departure, the whole-minute waits losing under 60 seconds a step |
| `Accommodations.ValidateNoStayOverlaps` | src/accommodations/models.py:30-39 | the check compares neighbours in check-in order |
| `Accommodations.OverlapCheckIsExact` | src/accommodations/models.py:30-39 | comparing neighbours accepts iff no two stays of the list share any night |
| `Accommodations.NoSharedNightIsUnordered` | src/accommodations/models.py:30-39 | sharing no night does not depend on list order and excludes listing a stay twice |
| `Accommodations.ResolveDayAnchors` | src/accommodations/resolver.py:19-26 | per date, the first stay woken up in and the first slept in |
| `Accommodations.AnchorsAreUnique` | src/accommodations/resolver.py:19-26 | when no night is shared, a stay is a day's anchor iff it is woken up in, or slept in, that day |
| `Accommodations.AnchorsIgnoreListOrder` | src/accommodations/resolver.py:19-26 | the stays at a day's anchors, and whether it is a transition day, do not depend on list order |
| `Accommodations.TransitionIsChangeover` | src/optimizer/solver/models.py:32-34 | a day is a transition day iff some stay checks out and some stay checks in on that date |
| `Partition.OpenDayIndices` | src/optimizer/solver/multi_day_service.py:70-85 | the loop collects the days on which the place is open; all days when there are none or no hours |
| `Partition.OpenDaysAreExact` | src/optimizer/solver/multi_day_service.py:70-85 | those are in ascending order exactly the days with a period that opens on their date's weekday `date % 7`, or all days if no day has one |
| `Partition.CandidateDays` | src/optimizer/solver/multi_day_service.py:224-238 | a flexible place's open slots, or all its slots when none is open; an auto place's open days |
| `Partition.CandidatesAreExact` | src/optimizer/solver/multi_day_service.py:224-238 | the candidates of an unpinned place are its open slot days in the order of its slots, or all its slot days if none is open, or without slots the open days |
| `Partition.PackUnpinned` | src/optimizer/solver/multi_day_service.py:189-200 | an unpinned place goes to the first of its admissible candidates with the most room, or to the unassigned list iff none is admissible |
| `Partition.StepTakesMostRoom` | src/optimizer/solver/multi_day_service.py:146-200 | the same in minutes: room is the hours of an ordinary day or the budget of the nearer side, less the stored durations already packed there; a side takes a place only if it has that room, and the place goes to the first day with the most of it |
| `Partition.PackOrderByPriority` | src/optimizer/solver/multi_day_service.py:202-206 | flexible before auto, each sorted with must-sees first |
| `Partition.PackOrderIsExact` | src/optimizer/solver/multi_day_service.py:202-206 | in terms of the request: first exactly the places with several slots, then exactly those with none, neither with a place before one of stored higher priority, and places of equal priority in the order of the request |
| `Partition.PlaceIntoKeeps` | src/optimizer/solver/multi_day_service.py:176-187 | putting a place into a bucket keeps every fill counter equal to the visit minutes in its bucket and adds just that place |
| `Partition.PackKeeps` | src/optimizer/solver/multi_day_service.py:189-241 | packing one place keeps counters and budgets, loses no place, and settles it on a candidate day or for lack of room |
| `Partition.SettledStays` | src/optimizer/solver/multi_day_service.py:152-241 | buckets only grow, so a place found without room would find none later either |
| `Partition.PinAllFills` | src/optimizer/solver/multi_day_service.py:208-222 | after the pinned phase each transfer side holds exactly the minutes pinned to it |
| `Partition.PartitionGuarantee` | src/optimizer/solver/multi_day_service.py:116-252 | every place is kept exactly once, counters are exact, each transfer side stays within the larger of its budget and its pinned minutes, pinned places are on their day, an unpinned place is unassigned only if every candidate is a transfer day without room for it or it has no coordinates, and every place on a transfer day is on its right side: after the transfer iff strictly nearer to the second stay, before it iff located and not, and reported at once iff it lacks a coordinate |
| `Partition.RunRightSides` | src/optimizer/solver/multi_day_service.py:106-252 | at every step of the packing the POST places of a transfer day are located and strictly nearer to the stay of the night, the PRE places located and not, and the reported ones without coordinates |
| `Partition.PartitionPlaces` | src/optimizer/solver/multi_day_service.py:116-252 | the whole partition as run, with that guarantee |
| `TransferDays.ContextWindows` | src/optimizer/solver/multi_day_service.py:267-297 | the PRE window ends with the first of departure, day end and check-out; the POST window begins with the last of arrival, day start and check-in |
| `TransferDays.BudgetIsWholeMinutes` | src/optimizer/solver/multi_day_service.py:295-296 | a budget is the whole minutes of its window, and zero iff the window is shorter than a minute |
| `TransferDays.EndBoundRoundTrip` | src/optimizer/solver/multi_day_service.py:260-264 | an end bound within the day survives its encoding and never becomes the forbidden wall-clock midnight |
| `TransferDays.PreRequestIsExact` | src/optimizer/solver/multi_day_service.py:365-382 | whenever a PRE request is built it passes the request validators, starts and ends at the origin, and its bounds decode to exactly the PRE window |
| `TransferDays.PostRequestIsExact` | src/optimizer/solver/multi_day_service.py:384-400 | whenever a POST request is built it passes the request validators, starts and ends at the destination, and its bounds decode to exactly the POST window |
| `TripPlanner.SlotsOfIsExact` | src/optimizer/solver/multi_day_service.py:460-463 | the slot looked up for a place and day is one of the place's own slots for that day, and there is one iff the place has any |
| `Plans.SlotIsLast` | src/optimizer/solver/multi_day_service.py:460-463 | in a request without repeated places the slot used for a place and day is the place's last one for that day, and there is none iff the place has none |
| `TripPlanner.TransferDaysAreExact` | src/optimizer/solver/multi_day_service.py:469-474 | in a valid request the days planned around a transfer are exactly those with a transfer on their date |
| `TripPlanner.DayDocsAreExact` | src/optimizer/solver/multi_day_service.py:332-347 | a solver call sees each known place of its bucket, with exactly its overridden hours, and no other |
| `TripPlanner.AnchorNeverMixes` | src/optimizer/solver/multi_day_service.py:520-532 | the two coordinates of an anchor come from one source: the day, else the stay, else the trip |
| `Plans.OrdinaryRequestIsExact` | src/optimizer/solver/multi_day_service.py:506-533 | an ordinary day is solved for exactly its date, bounds, places and the trip's mode, from the stay woken up in to the stay slept in unless the day gives its own anchors; on a changeover without a transfer, or where there is no stay, from and to the trip's |
| `TripPlanner.OrdinaryRequestIsValid` | src/optimizer/solver/multi_day_service.py:512-533 | the request built for an ordinary day passes the request validators |
| `TripPlanner.SolveSide` | src/optimizer/solver/multi_day_service.py:365-425 | one side of a transfer day: solved when it has places and time; otherwise an empty segment that reports its places when the window left no time; it fails iff the call accepts a place and has no matrix |
| `TripPlanner.PlanTransferDay` | src/optimizer/solver/multi_day_service.py:350-433 | both sides answered; the day reports its POST side's totals and the skipped places of both sides |
| `TripPlanner.PlanOrdinaryDay` | src/optimizer/solver/multi_day_service.py:491-547 | an ordinary day is answered by one solver call, or is empty when it has no places |
| `TripPlanner.DayConserves` | src/optimizer/solver/multi_day_service.py:350-433 | the steps and skipped places of a planned day are exactly the places packed into it |
| `TripPlanner.TripConserves` | src/optimizer/solver/multi_day_service.py:436-553 | each requested id occurs exactly once among all steps (through both segments on transfer days), skipped lists and the unassigned list |
| `TripPlanner.OptimizeTrip` | src/optimizer/solver/multi_day_service.py:436-553 | the whole pipeline: whenever it returns, the partition guarantee, a planned response for every day and whole-trip conservation hold; it fails iff some solver call that accepts a place has no matrix |
| `TripPlanner.TransferDayTimeline` | src/optimizer/solver/multi_day_service.py:267-433 | on every planned transfer day the PRE route is back at the origin by departure, check-out and day end, and the POST route sets out no earlier than arrival and check-in, between the two stays of that date |
| `Plans.TransferDayPlaces` | src/optimizer/solver/multi_day_service.py:106-433 | on every planned transfer day the first segment reports only places whose stored location is not nearer to the stay of the night, the second only places that are, and the day itself besides only places without coordinates; the transfer connects the two stays at the times of the request |
| `TripPlanner.OrdinaryVisitsKeepHours` | src/optimizer/solver/multi_day_service.py:332-347 | every visit of an ordinary day keeps the place's opening hours and preferred hours of that day |
| `TripPlanner.SideVisitsKeepHours` | src/optimizer/solver/multi_day_service.py:365-400 | so does every visit on either side of a transfer day |
| `TripPlanner.PreferredHoursBound` | src/optimizer/solver/multi_day_service.py:332-347 | what that means: a slot's hour bounds the visit where given, else the place's own, else the day's, and the visit lies in one opening period of the weekday |
| `Plans.OrdinaryVisitPlanned` | src/optimizer/solver/multi_day_service.py:332-347 | every visit of an ordinary day is to the last document of its id, with the hours of the place's slot where it gives them, in the bounds of the day and on its weekday |
| `Plans.SideVisitPlanned` | src/optimizer/solver/multi_day_service.py:365-400 | every visit on a side of a transfer day likewise, in the bounds of that side |
| `Plans.TransfersAreValidExactly` | src/optimizer/solver/models.py:302-336 | with valid stays the transfers pass validation iff each arrives after it departs, no two share a date, each lies on a trip day on which one stay ends and one begins, and that day sets no anchors |
| `Plans.RequestsAreValidExactly` | src/optimizer/solver/models.py:204-336 | the validators of a trip request accept exactly: 1 to 31 days of distinct dates, each from one moment to a later one; 2 to 50 distinct places with slots on those days; stays that share no night; such transfers; and no transit |
| `Reconcile.PositionsPermute` | src/trips/editing/reconcile.py:86-86 | selectors count through a permutation of the list's positions |
| `Reconcile.PositionsSorted` | src/trips/editing/reconcile.py:86-86 | in check-in order |
| `Reconcile.ResolveSelectors` | src/trips/editing/reconcile.py:76-102 | the loop returns the position of every selecting operation, or the first error |
| `Reconcile.ResolutionIsExact` | src/trips/editing/reconcile.py:76-102 | selectors resolve iff each names an existing stay and no two name the same one, and then to the position counted in check-in order |
| `Reconcile.ResolutionIsInjective` | src/trips/editing/reconcile.py:88-101 | two operations of a resolved batch are about different stays |
| `Reconcile.ReconcileTransfers` | src/trips/editing/reconcile.py:105-133 | the loop splits the transfers into kept and dropped ones, in order |
| `Reconcile.ReconciliationIsExact` | src/trips/editing/reconcile.py:105-133 | a transfer is kept iff its date is a changeover of the new stays or had no transfer before the batch |
| `Reconcile.DedupeFlexibleSlots` | src/trips/editing/reconcile.py:67-73 | accepts iff no day is listed twice |
| `Reconcile.PinThereAndBack` | src/trips/editing/apply.py:130-140 | moving a pinned place to another day and back, naming no hours, restores it exactly |
| `ApplyEdits.Draft.ApplyStayOps` | src/trips/editing/apply.py:86-111 | updates in place, then removals, then additions give the stays described from the list before the batch |
| `ApplyEdits.Draft.Handle` | src/trips/editing/apply.py:125-234 | every other handler changes the draft as its specification says, or reports its error and changes nothing; OperationMeans says what that is, field by field |
| `ApplyEdits.ApplyOperations` | src/trips/editing/apply.py:59-83 | a batch gives the specified outcome: selection errors first, then the first failing handler, then reconciliation and validation; BatchMeans and BatchFails say what that is |
| `EditEffects.OperationMeans` | src/trips/editing/apply.py:114-234 | each operation changes exactly the named fields: a named hour or time is the new one, a cleared time is none even if named, all else and all other days, places and transfers stay; slots keep the hours the place had that day; a removed place or transfer alone goes and the rest keep their order; and it fails exactly for the listed reasons, in their order |
| `EditEffects.StaysMean` | src/trips/editing/apply.py:86-111 | the stays after a batch are those not named by a removal, in order, each with exactly the fields its update names, and then the added ones in the order of the batch; a selector names the stay that as many others precede by check-in |
| `EditEffects.BatchMeans` | src/trips/editing/apply.py:59-83 | a successful batch runs through states: the new stays first, then the effect of each other operation in the order of the batch; of the transfers then left exactly those stay whose date is a trip day that changes stays or had no transfer before, in order, and the dates of the others are reported in order |
| `EditEffects.BatchFails` | src/trips/editing/apply.py:59-83 | a failed batch has the error of the first selector that names no stay or one named before, or of the first operation that fails in the state its predecessors left, or leaves an invalid trip |
| `EditGuarantees.AfterOneUpdate` | src/trips/editing/apply.py:92-94 | a stay that a fitting batch updates is changed by exactly its one update |
| `EditGuarantees.StaysIgnoreOrder` | src/trips/editing/apply.py:86-111 | the resulting stays do not depend on the order of updates and removals |
| `EditGuarantees.BatchIgnoresStayOrder` | src/trips/editing/apply.py:59-83 | nor does the outcome of a whole batch, wherever those operations stand among the others |
| `EditGuarantees.HandlersKeep` | src/trips/editing/apply.py:125-234 | no handler adds a place, moves a day's date, or touches stays and trip anchors, and all of them keep the places valid and the mode allowed |
| `EditGuarantees.ValidationIsExact` | src/trips/editing/apply.py:71-83 | the final validation of an edited valid trip fails iff a day window, the stays or the transfers are invalid; never because of places or mode |
| `EditGuarantees.StayBatchIsExact` | src/trips/editing/apply.py:59-83 | a batch about stays only, on a valid trip, succeeds iff its selectors fit and the new stays are valid and share no night; it then changes nothing else and drops exactly the transfers whose date is no changeover any more |
| `EditGuarantees.OffDayTransferFate` | src/trips/editing/reconcile.py:105-133 | a transfer left on a date that is no changeover fails the batch if the date had none before, and is dropped otherwise, even if re-added by this batch |
| `EditGuarantees.ReaddedTransferIsDropped` | src/trips/editing/reconcile.py:111-133 | a valid trip and a batch that cancels a changeover and replaces its transfer: the batch succeeds and the transfer it adds is dropped |
| `EditGuarantees.AddThenRemoveTransfer` | src/trips/editing/apply.py:186-215 | removing a transfer just added restores the trip |
| `TripStore.TripRepository.Save` | src/trips/repository.py:76-110 | creates the current row and revision row 0, both or neither |
| `TripStore.TripRepository.InsertBoth` | src/trips/repository.py:439-506 | the two writes of a transaction happen together; a violated primary key leaves both tables unchanged |
| `TripStore.TripRepository.Update` | src/trips/repository.py:154-233 | missing trip, plan-type conflict, missing or stale token, identical snapshot and new revision, in that order, as one transaction on the two tables |
| `TripStore.TripRepository.Delete` | src/trips/repository.py:235-239 | removes a trip and all its revisions and no other row |
| `TripStore.TripRepository.RestoreRevision` | src/trips/repository.py:288-357 | the two reads and the compare-and-set of a restore that nothing interleaves with |
| `StoreOutcomes.UpdateOutcome` | src/trips/repository.py:154-233 | row by row: each refusal and the identical snapshot leave every row as it was, and otherwise exactly one revision row is added, numbered one higher, and the current row holds the same snapshot |
| `StoreOutcomes.DeleteOutcome` | src/trips/repository.py:235-239 | afterwards no current and no revision row of the trip is left, every row of other trips is unchanged, and the result tells whether there was a trip |
| `StoreOutcomes.RestoreOutcome` | src/trips/repository.py:288-357 | row by row: the refusals in their order, and otherwise one new revision that holds the target's snapshot and names the target |
| `TripEditor.Apply` | src/trips/editing/service.py:57-110 | read, check, apply, re-plan and compare-and-set, in that order, with its failures |
| `TripEditor.EditIsAllOrNothing` | src/trips/editing/service.py:57-110 | a failed edit leaves both tables untouched; a successful one stores the request obtained by applying the operations to the stored one, in at most one new revision numbered expected + 1 |
| `StoreOutcomes.EditOutcome` | src/trips/editing/service.py:57-110 | each failure exactly when its condition is the first to hold, and otherwise the edited request is stored with its plan and the old name as the next revision, or nothing is written if that changes nothing |
| `StoreOutcomes.InterleavedOutcome` | src/trips/editing/service.py:91-110 | when the trip changed between read and write nothing is written, and the editor, looking again, reports a trip that is gone by then as deleted and one that has moved on as stale |
| `WriteScope.TripSessionStateStore.BindTrip` | src/orchestrator/trip_session_state.py:53-80 | replaces the thread's document by the trip binding and drops any armed scope |
| `WriteScope.TripSessionStateStore.BindPlaceSelection` | src/orchestrator/trip_session_state.py:82-101 | likewise for a place selection |
| `WriteScope.TripSessionStateStore.ArmPending` | src/orchestrator/trip_session_state.py:113-141 | snapshots the current binding for one tool call, or reports that there is none |
| `WriteScope.TripSessionStateStore.ConsumePending` | src/orchestrator/trip_session_state.py:143-161 | returns what was armed and leaves nothing armed |
| `WriteScope.TripSessionStateStore.ClearPending` | src/orchestrator/trip_session_state.py:163-167 | leaves nothing armed and the binding in place |
| `WriteScope.TripSessionStateStore.ClearBinding` | src/orchestrator/trip_session_state.py:103-105 | removes the thread's document and no other |
| `ChatTurns.StartTurn` | src/orchestrator/router.py:232-254 | a new message leaves nothing armed and binds the thread to the trip at its current revision, to the selection, or to nothing when the trip is missing; other threads are untouched |
| `ChatTurns.InspectInterrupt` | src/orchestrator/router.py:71-110 | a write is proposed iff it is the only one and the thread is bound, armed with exactly that binding; every other write interrupt leaves nothing armed |
| `ChatTurns.Resume` | src/orchestrator/router.py:223-230 | a rejection drops the armed scope |
| `StoreOutcomes.UsableExactly` | src/orchestrator/trip_edit_tool.py:57-62 | a pending scope is usable for a trip and revision iff it binds that trip at that revision and was not armed for another tool call |
| `StoreOutcomes.BoundThenArmed` | src/orchestrator/trip_session_state.py:53-141 | a thread bound to a trip and armed for one call lets that call, and no other, write that trip at the bound revision |
| `ChatTurns.EditMultiDayTrip` | src/orchestrator/trip_edit_tool.py:39-93 | the scope is consumed whatever happens next; without a usable one no table changes, with one the edit is about its trip and revision only |
| `ChatTurns.RevertTripRevision` | src/orchestrator/trip_history_tools.py:79-132 | the same for a restore: the caller chooses only the target revision |
| `ProtocolSafety.StepKeeps` | src/trips/repository.py:154-357 | every atomic step of editors, restores, manual updates, deletions and chat threads keeps the invariant and only adds to the history |
| `ProtocolSafety.RunKeeps` | src/trips/repository.py:76-357 | the invariant holds after any interleaving from the empty system, trips being created at revision 0 or imported at any revision |
| `ProtocolSafety.EditCommitKeeps` | src/trips/editing/service.py:91-97 | if the editor's compare-and-set writes, the trip still held what the editor had read |
| `ProtocolSafety.RestoreCommitKeeps` | src/trips/repository.py:322-353 | if the restore's compare-and-set writes, the target it read before is a strictly earlier revision with that snapshot |
| `ProtocolSafety.ConsumeKeeps` | src/orchestrator/trip_session_state.py:143-161 | a consumption takes an arming of that thread which was never consumed before |
| `ProtocolGuarantees.HistoryInvariant` | src/trips/repository.py:76-239 | in every reachable state a trip's rows are exactly the contiguous range from its first to its current revision, the current row equals the newest one, rows never outlive their trip and share its plan type, and the next number is free |
| `ProtocolGuarantees.PrimaryKeyIsNeverHit` | src/trips/repository.py:475-506 | no update, restore or creation in any reachable state meets a taken primary key |
| `ProtocolGuarantees.RowsNeverChange` | src/trips/repository.py:475-506 | over any run a revision row never changes while it exists, and a trip's plan type never changes |
| `ProtocolGuarantees.DeletedStaysDeleted` | src/trips/repository.py:235-239 | a deleted trip never comes back under its id |
| `ProtocolProgress.StepHappens` | src/trips/repository.py:76-357 | what every event does to the rows, the documents and the operations in flight: a writer whose trip is at the expected revision does write the next one and otherwise none, reads take what is stored, tools consume and start exactly the operation their scope allows, and nothing else changes |
| `ProtocolProgress.DeletionIsFinal` | src/trips/repository.py:235-239 | after the deletion of a trip no state of the run holds a current or revision row of it |
| `ProtocolGuarantees.NoLostUpdates` | src/trips/editing/service.py:57-110 | over any interleaving each ORCHESTRATOR revision r+1 holds exactly the request obtained by applying that editor's operations to the request of revision r |
| `ProtocolGuarantees.WritersMintNext` | src/trips/repository.py:172-231 | only the compare-and-set writers move an existing trip on, and only to the revision after the one they expected |
| `ProtocolGuarantees.AtMostOneWriterWins` | src/trips/repository.py:172-231 | of all steps in a run that expect the same revision of the same trip, at most one writes a new revision |
| `ProtocolGuarantees.Origin` | src/trips/repository.py:288-357 | following restored-from strictly decreases and ends at a revision that is no restore and has the same snapshot |
| `ProtocolGuarantees.RestoreProvenance` | src/trips/repository.py:288-357 | in every reachable state a restored row copies a strictly earlier existing row of its trip, so every chain of restores has such an origin |
| `ProtocolGuarantees.WriteScopeSafety` | src/orchestrator/trip_session_state.py:53-167 | over any run an armed scope is the current binding's, every consumption has an arming of its own, and each arming yields at most one revision, numbered armed revision + 1 of the armed trip |
| `StoredPlans.StoredRequestsAreValid` | src/trips/repository.py:154-357 | over any run in which saved and updated requests are validated, every stored multi-day request is valid, in all revisions and current rows |
| `StoredPlans.EditedTripsHoldTheirPlans` | src/trips/editing/service.py:77-97 | over any run in which the editor re-plans with what the planner may return, every edited revision, and every restored copy of one however many restores later, holds a plan of its own request that reports every place of it exactly once |

## Left out

- TripPlanner.OptimizeTrip: the response is not compared with a globally best trip, which the heuristics do not promise; ordinary-day capacity only ranks days and is no limit.
- RouteOptimizer.OptimizeRoute: skip reasons, names and coordinates of reported places are not part of the responses; they are derived from the same lists and decide nothing. Visit durations are natural numbers.
- RouteOptimizer.ReportedLedger: the leg to the end anchor is reported on its own and is bounded by the timeline instead.
- TimeWindows.SecondsToTimeRoundTrip: times have whole seconds; microseconds, which the source drops when it converts, are not modelled.
- Partition.PartitionPlaces: the buckets are one value rebuilt at each step instead of dictionaries changed in place, so that the run can be recorded; the two rejection reasons are left out.
- ApplyEdits.ApplyOperations: field limits of the edit operations that the handlers do not rely on (name lengths, coordinate and hour ranges) are not checked.
- TripStore.TripRepository.Update: schema version, display columns, timestamps, revision summaries and re-validation of a stored snapshot when it is read back are not modelled.
- TripStore.TripRepository.Save: the fresh id is an argument.
- ChatTurns.InspectInterrupt: the conversation graph is reduced to the list of pending write calls, or to being unreadable; cancelling its dangling tool calls is not modelled.
- ProtocolGuarantees.WriteScopeSafety: expiry of thread documents is an event that may happen at any time; the write tools for single places only consume a scope here.
- The migration command: only its effect, a trip that starts with one MIGRATION row at any revision.
- Listing and reading revisions, the matrix cache, the place store and scraping, HTTP, authentication, streaming, the language model and the frontends: input and output only.
- The haversine distance, calendar arithmetic beyond the day of week, JSON canonicalisation, hashing and SQL text.
