/** The single-day pipeline: filter places, construct, improve, schedule and report. */
module RouteOptimizer {
  import opened Wrappers
  import opened Sequences
  import opened TimeWindows
  import opened Scheduling
  import opened NearestNeighbor
  import opened TwoOpt
  import opened Priorities
  import opened OpeningHours

  datatype TransportMode = WALK | DRIVE | BICYCLE | TRANSIT

  /** An optional location; the validators demand both coordinates or none. */
  datatype Place = Place(lat: Option<real>, lng: Option<real>) {
    predicate Valid() { lat.Some? <==> lng.Some? }
    predicate Given() { lat.Some? && lng.Some? }
  }

  datatype OptimizeRequest = OptimizeRequest(
    placeIds: seq<Id>,
    transportMode: TransportMode,
    dayStartHour: int,
    dayEndHour: int,
    dayStartTime: Option<Time>,
    dayEndTime: Option<Time>,
    start: Place,
    end: Place,
    departureDate: Option<int>)
  {
    function DayStartS(): int { ResolveDayBoundS(dayStartHour, dayStartTime) }
    function DayEndS(): int { ResolveDayBoundS(dayEndHour, dayEndTime) }

    /** The request model's field limits and validators. */
    predicate Valid() {
      && 1 <= |placeIds| <= 50
      && ValidDay(dayStartHour, dayEndHour, dayStartTime, dayEndTime)
      && start.Valid() && end.Valid()
    }
  }

  predicate ValidDay(startHour: int, endHour: int, startTime: Option<Time>, endTime: Option<Time>) {
    && 0 <= startHour <= 23 && 1 <= endHour <= 24
    && endTime != Some(MIDNIGHT)
    && (endHour == 24 ==> endTime.None?)
    && ResolveDayBoundS(startHour, startTime) < ResolveDayBoundS(endHour, endTime)
  }

  datatype RouteStep = RouteStep(
    placeId: Id, arrivalTime: Time, departureTime: Time, travelFromPreviousS: int, visitDurationMin: int, waitMin: int)

  datatype OptimizeResponse = OptimizeResponse(
    steps: seq<RouteStep>,
    totalTravelTimeS: int,
    totalVisitTimeMin: int,
    totalWaitMin: int,
    transportMode: TransportMode,
    skipped: seq<Id>,
    travelToEndS: int)

  datatype PlanError = MatrixUnavailable

  const START_ANCHOR: Id := "__start__"
  const END_ANCHOR: Id := "__end__"

  function StepIds(steps: seq<RouteStep>): seq<Id> {
    seq(|steps|, i requires 0 <= i < |steps| => steps[i].placeId)
  }

  /** The documents by id; a later document replaces an earlier one of the same id. */
  function DocMap(docs: seq<PlaceDoc>): map<Id, PlaceDoc> {
    if docs == [] then map[]
    else DocMap(docs[..|docs| - 1])[docs[|docs| - 1].id := docs[|docs| - 1]]
  }

  /** Seconds from midnight of a departure: 00:00 can only be the end of the day. */
  function DepartureS(t: Time): int {
    if t == MIDNIGHT then SECONDS_PER_DAY else ToSeconds(t)
  }

  // ---------------------------------------------------------------------------------------
  // Which places enter the solver
  // ---------------------------------------------------------------------------------------

  /** The day a place is tested against. */
  datatype Day = Day(docs: map<Id, PlaceDoc>, start: int, end: int, weekday: Option<int>) {
    function WindowOf(n: Id): Option<TimeWindow> {
      if n in docs && docs[n].HasCoordinates() then Window(docs[n], start, end, weekday) else None
    }

    /** The place exists, has coordinates and can be open that day. */
    predicate Accepts(n: Id) {
      WindowOf(n).Some?
    }
  }

  function DayOf(request: OptimizeRequest, docs: seq<PlaceDoc>): Day {
    Day(DocMap(docs), request.DayStartS(), request.DayEndS(),
        if request.departureDate.Some? then Some(GoogleWeekday(request.departureDate.value)) else None)
  }

  function Accepted(day: Day, ids: seq<Id>): seq<Id> {
    if ids == [] then []
    else
      var n := ids[|ids| - 1];
      Accepted(day, ids[..|ids| - 1]) + (if day.Accepts(n) then [n] else [])
  }

  function Rejected(day: Day, ids: seq<Id>): seq<Id> {
    if ids == [] then []
    else
      var n := ids[|ids| - 1];
      Rejected(day, ids[..|ids| - 1]) + (if day.Accepts(n) then [] else [n])
  }

  lemma {:induction false} AcceptedOrRejected(day: Day, ids: seq<Id>)
    ensures multiset(Accepted(day, ids)) + multiset(Rejected(day, ids)) == multiset(ids)
    ensures forall n :: n in Accepted(day, ids) ==> day.Accepts(n) && n in ids
    ensures forall n :: n in Rejected(day, ids) ==> !day.Accepts(n) && n in ids
    ensures forall n :: n in ids ==> n in Accepted(day, ids) || n in Rejected(day, ids)
    ensures |Accepted(day, ids)| <= |ids|
  {
    if ids != [] {
      AcceptedOrRejected(day, ids[..|ids| - 1]);
      LastElement(ids);
    }
  }

  /** Both lists keep the order of the request. */
  lemma {:induction false} SplitInOrder(day: Day, ids: seq<Id>)
    ensures KeptInOrder(Accepted(day, ids), ids, (n: Id) => day.Accepts(n))
    ensures KeptInOrder(Rejected(day, ids), ids, (n: Id) => !day.Accepts(n))
  {
    hide KeptInOrder, Day.Accepts;
    if ids == [] {
      NothingKept((n: Id) => day.Accepts(n));
      NothingKept((n: Id) => !day.Accepts(n));
    } else {
      SplitInOrder(day, ids[..|ids| - 1]);
      KeptNext(Accepted(day, ids[..|ids| - 1]), ids, (n: Id) => day.Accepts(n));
      KeptNext(Rejected(day, ids[..|ids| - 1]), ids, (n: Id) => !day.Accepts(n));
    }
  }

  function VisitS(day: Day, n: Id): int
    requires n in day.docs
  {
    day.docs[n].VisitMin() * 60
  }

  method CollectPlaces(day: Day, ids: seq<Id>)
    returns (coords: seq<Id>, skipped: seq<Id>, windows: map<Id, TimeWindow>, visits: map<Id, int>)
    ensures coords == Accepted(day, ids) && skipped == Rejected(day, ids)
    ensures windows.Keys == Elements(coords) && visits.Keys == Elements(coords)
    ensures forall n :: n in coords ==> day.Accepts(n) && windows[n] == day.WindowOf(n).value && visits[n] == VisitS(day, n)
  {
    coords, skipped, windows, visits := [], [], map[], map[];
    for i := 0 to |ids|
      invariant coords == Accepted(day, ids[..i]) && skipped == Rejected(day, ids[..i])
      invariant windows.Keys == Elements(coords) && visits.Keys == Elements(coords)
      invariant forall n :: n in coords ==> day.Accepts(n) && windows[n] == day.WindowOf(n).value && visits[n] == VisitS(day, n)
    {
      assert ids[..i + 1][..i] == ids[..i];
      var n := ids[i];
      if n !in day.docs || !day.docs[n].HasCoordinates() {
        skipped := skipped + [n];
        continue;
      }
      var window := ParseTimeWindow(day.docs[n], day.start, day.end, day.weekday);
      if window.None? {
        skipped := skipped + [n];
        continue;
      }
      coords := coords + [n];
      windows := windows[n := window.value];
      visits := visits[n := day.docs[n].VisitMin() * 60];
    }
    assert ids[..|ids|] == ids;
  }

  // ---------------------------------------------------------------------------------------
  // From the timetable to the reported steps
  // ---------------------------------------------------------------------------------------

  function StepOf(p: Instance, s: Stop): RouteStep {
    var wait := Max(0, s.departure - p.Visit(s.node) - s.arrival);
    RouteStep(s.node, SecondsToTime(s.arrival), SecondsToTime(s.departure), s.travel, p.Visit(s.node) / 60, wait / 60)
  }

  /** The part of a timetable between the anchors. */
  function First(hasStart: bool): nat {
    if hasStart then 1 else 0
  }

  function Last(t: seq<Stop>, hasEnd: bool): int {
    if hasEnd then |t| - 1 else |t|
  }

  function EndTravel(t: seq<Stop>, hasEnd: bool): int {
    if hasEnd && t != [] then t[|t| - 1].travel else 0
  }

  /** The anchors stand at their ends of the timetable and nowhere else. */
  predicate AnchorsAtEnds(t: seq<Stop>, hasStart: bool, hasEnd: bool) {
    && First(hasStart) <= Last(t, hasEnd)
    && (hasStart ==> t != [] && t[0].node == START_ANCHOR)
    && (hasEnd ==> t != [] && t[|t| - 1].node == END_ANCHOR)
    && forall i :: First(hasStart) <= i < Last(t, hasEnd) ==> t[i].node != START_ANCHOR && t[i].node != END_ANCHOR
  }

  function SumTravel(steps: seq<RouteStep>): int {
    if steps == [] then 0 else SumTravel(steps[..|steps| - 1]) + steps[|steps| - 1].travelFromPreviousS
  }

  function SumVisit(steps: seq<RouteStep>): int {
    if steps == [] then 0 else SumVisit(steps[..|steps| - 1]) + steps[|steps| - 1].visitDurationMin
  }

  function SumWait(steps: seq<RouteStep>): int {
    if steps == [] then 0 else SumWait(steps[..|steps| - 1]) + steps[|steps| - 1].waitMin
  }

  /** What the reporting loop makes of a timetable. */
  ghost predicate Reports(p: Instance, t: seq<Stop>, hasStart: bool, hasEnd: bool, steps: seq<RouteStep>) {
    |steps| == Last(t, hasEnd) - First(hasStart) && ReportsFrom(p, t, First(hasStart), steps)
  }

  ghost predicate ReportsFrom(p: Instance, t: seq<Stop>, lo: nat, steps: seq<RouteStep>) {
    && lo + |steps| <= |t|
    && forall i :: 0 <= i < |steps| ==> steps[i] == StepOf(p, t[lo + i])
  }

  lemma ReportsNext(p: Instance, t: seq<Stop>, lo: nat, steps: seq<RouteStep>)
    requires ReportsFrom(p, t, lo, steps) && lo + |steps| < |t|
    ensures ReportsFrom(p, t, lo, steps + [StepOf(p, t[lo + |steps|])])
  {
  }

  method ReportStop(p: Instance, s: Stop) returns (step: RouteStep)
    ensures step == StepOf(p, s)
  {
    var visitS := p.Visit(s.node);
    var waitS := Max(0, s.departure - visitS - s.arrival);
    step := RouteStep(s.node, SecondsToTime(s.arrival), SecondsToTime(s.departure), s.travel, visitS / 60, waitS / 60);
  }

  /** What the reporting loop has accumulated after `i` stops. */
  ghost predicate Progress(p: Instance, t: seq<Stop>, hasStart: bool, hasEnd: bool, i: nat, steps: seq<RouteStep>,
                           travel: int, visit: int, wait: int, travelToEnd: int) {
    && i <= |t|
    && travel == TotalTravel(t[..i]) && visit == SumVisit(steps) && wait == SumWait(steps)
    && (t != [] ==> ReportsFrom(p, t, First(hasStart), steps))
    && |steps| == (if i <= First(hasStart) then 0
                   else (if i <= Last(t, hasEnd) then i else Last(t, hasEnd)) - First(hasStart))
    && travelToEnd == if i == |t| && i > 0 && hasEnd then t[i - 1].travel else 0
  }

  lemma AnchorPassed(p: Instance, t: seq<Stop>, hasStart: bool, hasEnd: bool, i: nat, steps: seq<RouteStep>,
                     travel: int, visit: int, wait: int, travelToEnd: int)
    requires i < |t| && AnchorsAtEnds(t, hasStart, hasEnd)
    requires Progress(p, t, hasStart, hasEnd, i, steps, travel, visit, wait, travelToEnd)
    ensures hasEnd && t[i].node == END_ANCHOR ==>
              Progress(p, t, hasStart, hasEnd, i + 1, steps, travel + t[i].travel, visit, wait, t[i].travel)
    ensures !(hasEnd && t[i].node == END_ANCHOR) && hasStart && t[i].node == START_ANCHOR ==>
              Progress(p, t, hasStart, hasEnd, i + 1, steps, travel + t[i].travel, visit, wait, travelToEnd)
  {
    assert t[..i + 1][..i] == t[..i];
    hide ReportsFrom, StepOf;
  }

  lemma TravelNext(t: seq<Stop>, i: nat)
    requires i < |t|
    ensures TotalTravel(t[..i + 1]) == TotalTravel(t[..i]) + t[i].travel
  {
    assert t[..i + 1][..i] == t[..i];
  }

  lemma SumsNext(steps: seq<RouteStep>, step: RouteStep)
    ensures SumVisit(steps + [step]) == SumVisit(steps) + step.visitDurationMin
    ensures SumWait(steps + [step]) == SumWait(steps) + step.waitMin
  {
    assert (steps + [step])[..|steps|] == steps;
  }

  lemma StopReported(p: Instance, t: seq<Stop>, hasStart: bool, hasEnd: bool, i: nat, steps: seq<RouteStep>,
                     travel: int, visit: int, wait: int, travelToEnd: int, step: RouteStep)
    requires i < |t| && AnchorsAtEnds(t, hasStart, hasEnd) && step == StepOf(p, t[i])
    requires !(hasEnd && t[i].node == END_ANCHOR) && !(hasStart && t[i].node == START_ANCHOR)
    requires Progress(p, t, hasStart, hasEnd, i, steps, travel, visit, wait, travelToEnd)
    ensures Progress(p, t, hasStart, hasEnd, i + 1, steps + [step], travel + t[i].travel,
                     visit + step.visitDurationMin, wait + step.waitMin, travelToEnd)
  {
    hide ReportsFrom, StepOf, SumVisit, SumWait, TotalTravel;
    TravelNext(t, i);
    SumsNext(steps, step);
    ReportsNext(p, t, First(hasStart), steps);
    assert First(hasStart) + |steps| == i;
  }

  method BuildSteps(p: Instance, t: seq<Stop>, hasStart: bool, hasEnd: bool)
    returns (steps: seq<RouteStep>, totalTravel: int, totalVisit: int, totalWait: int, travelToEnd: int)
    requires t != [] ==> AnchorsAtEnds(t, hasStart, hasEnd)
    ensures t != [] ==> Reports(p, t, hasStart, hasEnd, steps)
    ensures t == [] ==> steps == []
    ensures totalTravel == TotalTravel(t)
    ensures totalVisit == SumVisit(steps) && totalWait == SumWait(steps)
    ensures travelToEnd == EndTravel(t, hasEnd)
  {
    steps, totalTravel, totalVisit, totalWait, travelToEnd := [], 0, 0, 0, 0;
    for i := 0 to |t|
      invariant Progress(p, t, hasStart, hasEnd, i, steps, totalTravel, totalVisit, totalWait, travelToEnd)
    {
      hide Progress, StepOf, AnchorsAtEnds;
      AnchorPassed(p, t, hasStart, hasEnd, i, steps, totalTravel, totalVisit, totalWait, travelToEnd);
      var s := t[i];
      if hasEnd && s.node == END_ANCHOR {
        totalTravel := totalTravel + s.travel;
        travelToEnd := s.travel;
        continue;
      }
      if hasStart && s.node == START_ANCHOR {
        totalTravel := totalTravel + s.travel;
        continue;
      }
      var step := ReportStop(p, s);
      StopReported(p, t, hasStart, hasEnd, i, steps, totalTravel, totalVisit, totalWait, travelToEnd, step);
      totalTravel := totalTravel + s.travel;
      steps := steps + [step];
      totalVisit := totalVisit + step.visitDurationMin;
      totalWait := totalWait + step.waitMin;
    }
    assert t[..|t|] == t;
  }

  // ---------------------------------------------------------------------------------------
  // What a response guarantees
  // ---------------------------------------------------------------------------------------

  /** Every requested place is visited or skipped, never both, and nothing else is reported. */
  ghost predicate Conserved(ids: seq<Id>, steps: seq<RouteStep>, skipped: seq<Id>) {
    && Distinct(StepIds(steps))
    && Elements(StepIds(steps)) !! Elements(skipped)
    && Elements(StepIds(steps)) + Elements(skipped) == Elements(ids)
    && (Distinct(ids) ==> multiset(StepIds(steps)) + multiset(skipped) == multiset(ids))
  }

  function ArrivalS(s: RouteStep): int {
    ToSeconds(s.arrivalTime)
  }

  function LeaveS(s: RouteStep): int {
    DepartureS(s.departureTime)
  }

  /** When the visit of a step begins. */
  function VisitStartS(s: RouteStep): int {
    LeaveS(s) - 60 * s.visitDurationMin
  }

  /** A step visits a place the day accepts, within its opening hours, and reports the whole minutes waited. */
  ghost predicate StepSound(day: Day, s: RouteStep) {
    && day.Accepts(s.placeId)
    && s.visitDurationMin == day.docs[s.placeId].VisitMin()
    && OpenFor(day.docs[s.placeId], day.start, day.end, day.weekday, VisitStartS(s), 60 * s.visitDurationMin)
    && day.start <= ArrivalS(s) <= VisitStartS(s)
    && s.waitMin == (VisitStartS(s) - ArrivalS(s)) / 60
    && 0 <= s.travelFromPreviousS && LeaveS(s) <= day.end
  }

  /** The reported clock times of a route: legs and visits follow each other and end within the day. */
  ghost predicate Timeline(day: Day, steps: seq<RouteStep>, travelToEnd: int) {
    && 0 <= travelToEnd
    && (forall i :: 0 <= i < |steps| ==> StepSound(day, steps[i]))
    && (forall i :: 0 < i < |steps| ==> ArrivalS(steps[i]) == LeaveS(steps[i - 1]) + steps[i].travelFromPreviousS)
    && (steps != [] ==>
          && ArrivalS(steps[0]) == day.start + steps[0].travelFromPreviousS
          && LeaveS(steps[|steps| - 1]) + travelToEnd <= day.end)
  }

  ghost predicate Totals(r: OptimizeResponse) {
    && r.totalTravelTimeS == SumTravel(r.steps) + r.travelToEndS
    && r.totalVisitTimeMin == SumVisit(r.steps)
    && r.totalWaitMin == SumWait(r.steps)
  }

  predicate LegIs(matrix: Matrix, from: Id, to: Id, seconds: int) {
    (from, to) in matrix && matrix[(from, to)] == seconds
  }

  /** Every reported leg is the matrix entry between the stops it connects, anchors included. */
  ghost predicate LegsReported(matrix: Matrix, hasStart: bool, hasEnd: bool, steps: seq<RouteStep>, travelToEnd: int) {
    && (forall i :: 0 < i < |steps| ==>
          LegIs(matrix, steps[i - 1].placeId, steps[i].placeId, steps[i].travelFromPreviousS))
    && (steps != [] && hasStart ==> LegIs(matrix, START_ANCHOR, steps[0].placeId, steps[0].travelFromPreviousS))
    && (steps != [] && hasEnd ==> LegIs(matrix, steps[|steps| - 1].placeId, END_ANCHOR, travelToEnd))
    && (steps == [] && travelToEnd != 0 ==> hasStart && hasEnd && LegIs(matrix, START_ANCHOR, END_ANCHOR, travelToEnd))
  }

  /** The solver input of a day: windows and visit times of its accepted places. */
  function InstanceFor(day: Day, coords: seq<Id>, matrix: Matrix): Instance {
    Instance(matrix, map n | n in coords && day.Accepts(n) :: day.WindowOf(n).value,
             map n | n in coords && n in day.docs :: VisitS(day, n), day.start, day.end)
  }

  function PrioritiesOf(day: Day, coords: seq<Id>): map<Id, Priority> {
    map n | n in coords && n in day.docs :: day.docs[n].priority.GetOr(Normal)
  }

  /** The route between its anchors. */
  function Middle(route: seq<Id>, hasStart: bool, hasEnd: bool): seq<Id> {
    var from, to := First(hasStart), if hasEnd then |route| - 1 else |route|;
    if from <= to then route[from..to] else []
  }

  /** How a response came about: the attempts run, the one kept, and the improved route it reports. */
  datatype Search = Search(attempts: seq<Attempt>, kept: int, route: seq<Id>)

  ghost predicate Explains(p: Problem, day: Day, coords: seq<Id>, rejected: seq<Id>, hasStart: bool, hasEnd: bool,
                           search: Search, r: OptimizeResponse) {
    && 0 <= search.kept < |search.attempts|
    && var best := search.attempts[search.kept];
       && Searched(p, coords, PrioritiesOf(day, coords), StartAnchor(hasStart), EndAnchor(hasEnd),
                   search.attempts, search.kept, best)
       && TwoOptOf(p, best.route, search.route, MAX_ITERATIONS, hasEnd)
       && StepIds(r.steps) == Middle(search.route, hasStart, hasEnd)
       && r.skipped == rejected + SelectSkipped(coords, Elements(best.tier)) + best.skipped
  }

  /** The response reports the improved best attempt of the tier search on the day's accepted places. */
  ghost predicate Explained(request: OptimizeRequest, day: Day, matrix: Matrix, r: OptimizeResponse) {
    var coords := Accepted(day, request.placeIds);
    && InstanceFor(day, coords, matrix).WellFormed()
    && exists search :: Explains(InstanceFor(day, coords, matrix), day, coords, Rejected(day, request.placeIds),
                                 request.start.Given(), request.end.Given(), search, r)
  }

  /** The guarantees of one single-day solver call. */
  ghost predicate Answers(request: OptimizeRequest, docs: seq<PlaceDoc>, matrix: Option<Matrix>, r: OptimizeResponse) {
    && Conserved(request.placeIds, r.steps, r.skipped)
    && Timeline(DayOf(request, docs), r.steps, r.travelToEndS)
    && Totals(r)
    && r.transportMode == request.transportMode
    && (!request.end.Given() ==> r.travelToEndS == 0)
    && (!request.start.Given() && r.steps != [] ==> r.steps[0].travelFromPreviousS == 0)
    && if Accepted(DayOf(request, docs), request.placeIds) == []
       then r.steps == [] && r.travelToEndS == 0
       else && matrix.Some?
            && LegsReported(matrix.value, request.start.Given(), request.end.Given(), r.steps, r.travelToEndS)
            && Explained(request, DayOf(request, docs), matrix.value, r)
  }

  /**
   * The reported totals account for the whole day: the seconds from its start to the arrival at
   * the end are travel, visits and waiting, of which the whole-minute waits lose under 60 s a step.
   */
  lemma {:induction false} ReportedLedger(day: Day, steps: seq<RouteStep>, travelToEnd: int)
    requires Timeline(day, steps, travelToEnd) && steps != []
    ensures var lost := LeaveS(steps[|steps| - 1]) - day.start
                        - SumTravel(steps) - 60 * SumVisit(steps) - 60 * SumWait(steps);
            0 <= lost <= 59 * |steps|
  {
    var k := |steps| - 1;
    var s := steps[k];
    assert StepSound(day, s);
    var wait := VisitStartS(s) - ArrivalS(s);
    assert 0 <= wait - 60 * (wait / 60) <= 59;
    if k > 0 {
      var before := steps[..k];
      assert StepSound(day, steps[k - 1]);
      assert Timeline(day, before, 0);
      ReportedLedger(day, before, 0);
      assert before[|before| - 1] == steps[k - 1];
    } else {
      assert steps[..0] == [];
      assert SumTravel(steps) == s.travelFromPreviousS;
      assert SumVisit(steps) == s.visitDurationMin;
      assert SumWait(steps) == s.waitMin;
    }
  }

  // ---------------------------------------------------------------------------------------
  // Proof that the pipeline gives these guarantees
  // ---------------------------------------------------------------------------------------

  function StartAnchor(given: bool): Option<Id> {
    if given then Some(START_ANCHOR) else None
  }

  function EndAnchor(given: bool): Option<Id> {
    if given then Some(END_ANCHOR) else None
  }

  lemma {:induction false} DocMapFrom(docs: seq<PlaceDoc>)
    ensures forall n :: n in DocMap(docs) ==> DocMap(docs)[n] in docs && DocMap(docs)[n].id == n
  {
    if docs != [] {
      DocMapFrom(docs[..|docs| - 1]);
    }
  }

  /** The solver input of a day: its windows and visits come from accepted places only. */
  ghost predicate InstanceOf(p: Instance, day: Day, coords: seq<Id>) {
    && p.windows.Keys == Elements(coords) && p.visits.Keys == Elements(coords)
    && p.dayStart == day.start && p.dayEnd == day.end
    && forall n :: n in coords ==>
         day.Accepts(n) && p.windows[n] == day.WindowOf(n).value && p.visits[n] == VisitS(day, n)
  }

  lemma InstanceFrame(p: Instance, day: Day, coords: seq<Id>)
    requires InstanceOf(p, day, coords)
    ensures p.windows.Keys == Elements(coords) && p.visits.Keys == Elements(coords)
    ensures p.dayStart == day.start && p.dayEnd == day.end
  {
  }

  lemma InstanceIsProblem(p: Instance, day: Day, coords: seq<Id>)
    requires InstanceOf(p, day, coords)
    requires 0 <= day.start && day.end <= SECONDS_PER_DAY
    requires forall leg :: leg in p.matrix ==> 0 <= p.matrix[leg]
    ensures p.WellFormed()
  {
    forall n | n in p.windows
      ensures p.windows[n].Ordered() && p.windows[n].segments != []
    {
      assert n in coords;
      WindowIsUsable(day.docs[n], day.start, day.end, day.weekday);
    }
    forall n | n in p.visits ensures 0 <= p.visits[n] {
      assert n in coords;
    }
  }

  /** The final route, ready for reporting. */
  ghost predicate Final(p: Problem, route: seq<Id>, coords: seq<Id>, hasStart: bool, hasEnd: bool) {
    && Feasible(p, route) && Distinct(route)
    && (hasStart ==> route[0] == START_ANCHOR)
    && (hasEnd ==> route[|route| - 1] == END_ANCHOR)
    && forall n :: n in route && IsStop(n, StartAnchor(hasStart), EndAnchor(hasEnd)) ==> n in coords
  }

  lemma ImprovedIsFinal(p: Problem, a: Attempt, route: seq<Id>, coords: seq<Id>, hasStart: bool, hasEnd: bool)
    requires Sound(p, a, StartAnchor(hasStart), EndAnchor(hasEnd)) && a.route != []
    requires Rearranged(a.route, route, hasEnd)
    requires route == a.route || Improves(p, a.route, route)
    requires forall n :: n in a.tier ==> n in coords
    ensures Final(p, route, coords, hasStart, hasEnd)
    ensures Elements(route) == Elements(a.route)
  {
    SameMultisetSameElements(a.route, route);
    PermutationDistinct(a.route, route);
  }

  lemma FinalAnchorsAtEnds(p: Problem, route: seq<Id>, coords: seq<Id>, hasStart: bool, hasEnd: bool)
    requires Final(p, route, coords, hasStart, hasEnd)
    requires START_ANCHOR !in coords && END_ANCHOR !in coords
    ensures Schedule(p, route) == Timetable(p, route).value && |Schedule(p, route)| == |route|
    ensures AnchorsAtEnds(Schedule(p, route), hasStart, hasEnd)
    ensures forall i :: 0 <= i < |route| ==> Schedule(p, route)[i].node == route[i]
    ensures forall i :: First(hasStart) <= i < Last(Schedule(p, route), hasEnd) ==> route[i] in coords
  {
    var t := Schedule(p, route);
    TimetableNodes(p, route);
    forall i | First(hasStart) <= i < Last(t, hasEnd) ensures route[i] in coords {
      assert route[i] in route;
      assert hasStart ==> route[i] != route[0];
      assert hasEnd ==> route[i] != route[|route| - 1];
    }
  }

  /** The seconds of one scheduled stop: after the arrival, within the day, and while the place is open. */
  ghost predicate StopSound(p: Instance, day: Day, s: Stop) {
    && day.Accepts(s.node)
    && p.Visit(s.node) == 60 * day.docs[s.node].VisitMin()
    && OpenFor(day.docs[s.node], day.start, day.end, day.weekday, s.departure - p.Visit(s.node), p.Visit(s.node))
    && day.start <= s.arrival <= s.departure - p.Visit(s.node)
    && 0 <= s.travel && s.departure <= day.end
  }

  /** A visit that begins as early as possible after an arrival keeps the place's hours. */
  lemma StartIsOpen(p: Problem, day: Day, coords: seq<Id>, n: Id, arrival: int)
    requires InstanceOf(p, day, coords) && n in coords && p.StartAt(n, arrival).Some?
    ensures p.dayStart == day.start && p.dayEnd == day.end
    ensures day.Accepts(n) && p.Visit(n) == 60 * day.docs[n].VisitMin()
    ensures arrival <= p.StartAt(n, arrival).value
    ensures OpenFor(day.docs[n], day.start, day.end, day.weekday, p.StartAt(n, arrival).value, p.Visit(n))
  {
    StartAtFits(p, n, arrival);
    WindowIsExact(day.docs[n], day.start, day.end, day.weekday, p.StartAt(n, arrival).value, p.Visit(n));
    hide OpenFor, Window;
  }

  lemma StopIsSound(p: Problem, day: Day, coords: seq<Id>, route: seq<Id>, j: nat)
    requires InstanceOf(p, day, coords) && Feasible(p, route) && j < |route| && route[j] in coords
    requires |Timetable(p, route).value| == |route|
    ensures StopSound(p, day, Timetable(p, route).value[j])
    ensures 0 <= day.start && day.end <= SECONDS_PER_DAY
  {
    var s := Timetable(p, route).value[j];
    var n := route[j];
    TimetableStep(p, route, j);
    StartIsOpen(p, day, coords, n, s.arrival);
    hide OpenFor, InstanceOf;
    PrefixFeasible(p, route, j + 1);
    TimetablePrefix(p, route, j + 1);
    ArrivalInDay(p, route, j);
  }

  /** One sound stop becomes one sound step whose times decode to the scheduled seconds. */
  lemma StepIsSound(p: Problem, day: Day, s: Stop)
    requires StopSound(p, day, s) && 0 <= day.start && day.end <= SECONDS_PER_DAY
    ensures var step := StepOf(p, s);
            StepSound(day, step) && ArrivalS(step) == s.arrival && LeaveS(step) == s.departure
  {
    var minutes := day.docs[s.node].VisitMin();
    assert p.Visit(s.node) / 60 == minutes;
    SecondsToTimeRoundTrip(s.arrival);
    DepartureDecodes(s.departure);
    hide OpenFor, SecondsToTime, ToSeconds;
  }

  lemma DepartureDecodes(s: int)
    requires 0 < s <= SECONDS_PER_DAY
    ensures DepartureS(SecondsToTime(s)) == s
  {
    SecondsToTimeRoundTrip(s);
    if s == SECONDS_PER_DAY {
      assert SecondsToTime(s) == MIDNIGHT;
    }
  }

  lemma ArrivalInDay(p: Problem, route: seq<Id>, j: nat)
    requires Timetable(p, route).Some? && j < |route|
    requires |Timetable(p, route).value| == |route|
    ensures p.dayStart <= Timetable(p, route).value[j].arrival
    ensures 0 <= Timetable(p, route).value[j].travel
  {
    TimetableStep(p, route, j);
    TimetablePrefix(p, route, j);
    TimeLedger(p, route[..j]);
  }

  /** The reported steps form the timeline of the day. */
  lemma TimelineHolds(p: Problem, day: Day, coords: seq<Id>, route: seq<Id>, hasStart: bool, hasEnd: bool,
                      steps: seq<RouteStep>, travelToEnd: int)
    requires InstanceOf(p, day, coords) && START_ANCHOR !in coords && END_ANCHOR !in coords
    requires Final(p, route, coords, hasStart, hasEnd)
    requires Reports(p, Schedule(p, route), hasStart, hasEnd, steps)
    requires travelToEnd == EndTravel(Schedule(p, route), hasEnd)
    ensures Timeline(day, steps, travelToEnd)
    ensures !hasStart && steps != [] ==> steps[0].travelFromPreviousS == 0
  {
    hide StepSound, InstanceOf, Timetable, Final, StepOf, ArrivalS, LeaveS;
    var t := Schedule(p, route);
    var lo := First(hasStart);
    InstanceFrame(p, day, coords);
    BeginsInDay(p, coords, route, hasStart, hasEnd);
    EndsInDay(p, coords, route, hasStart, hasEnd);
    forall i | 0 <= i < |steps|
      ensures StepSound(day, steps[i]) && StepClock(t, lo + i, steps[i])
    {
      StepAt(p, day, coords, route, hasStart, hasEnd, steps, i);
    }
    forall i | 0 < i < |steps|
      ensures ArrivalS(steps[i]) == LeaveS(steps[i - 1]) + steps[i].travelFromPreviousS
    {
      assert StepClock(t, lo + i, steps[i]) && StepClock(t, lo + i - 1, steps[i - 1]);
      TimetableStep(p, route, lo + i);
    }
    if steps != [] {
      assert StepClock(t, lo, steps[0]) && StepClock(t, lo + |steps| - 1, steps[|steps| - 1]);
    }
  }

  lemma StepAt(p: Problem, day: Day, coords: seq<Id>, route: seq<Id>, hasStart: bool, hasEnd: bool,
               steps: seq<RouteStep>, i: nat)
    requires InstanceOf(p, day, coords) && START_ANCHOR !in coords && END_ANCHOR !in coords
    requires Final(p, route, coords, hasStart, hasEnd)
    requires Reports(p, Schedule(p, route), hasStart, hasEnd, steps) && i < |steps|
    ensures StepSound(day, steps[i]) && StepClock(Schedule(p, route), First(hasStart) + i, steps[i])
  {
    hide StepSound, InstanceOf, Timetable;
    FinalAnchorsAtEnds(p, route, coords, hasStart, hasEnd);
    StopIsSound(p, day, coords, route, First(hasStart) + i);
    StepIsSound(p, day, Schedule(p, route)[First(hasStart) + i]);
  }

  ghost predicate StepClock(t: seq<Stop>, j: int, s: RouteStep) {
    && 0 <= j < |t|
    && ArrivalS(s) == t[j].arrival && LeaveS(s) == t[j].departure && s.travelFromPreviousS == t[j].travel
  }

  /** How a scheduled day begins: the first stop is reached from the start of the day, without travel if there is no anchor. */
  lemma BeginsInDay(p: Problem, coords: seq<Id>, route: seq<Id>, hasStart: bool, hasEnd: bool)
    requires p.windows.Keys == Elements(coords) && p.visits.Keys == Elements(coords)
    requires START_ANCHOR !in coords && END_ANCHOR !in coords
    requires Final(p, route, coords, hasStart, hasEnd)
    ensures var t := Schedule(p, route);
            var lo, hi := First(hasStart), Last(t, hasEnd);
            && |t| == |route|
            && (lo < hi ==> t[lo].arrival == p.dayStart + t[lo].travel && (!hasStart ==> t[lo].travel == 0))
  {
    var t := Schedule(p, route);
    FinalAnchorsAtEnds(p, route, coords, hasStart, hasEnd);
    assert START_ANCHOR !in Elements(coords);
    TimetableStep(p, route, 0);
    if |route| > 1 {
      TimetableStep(p, route, 1);
    }
  }

  /** How it ends: the last stop leaves time to travel to the end anchor within the day. */
  lemma EndsInDay(p: Problem, coords: seq<Id>, route: seq<Id>, hasStart: bool, hasEnd: bool)
    requires p.windows.Keys == Elements(coords) && p.visits.Keys == Elements(coords)
    requires START_ANCHOR !in coords && END_ANCHOR !in coords
    requires Final(p, route, coords, hasStart, hasEnd)
    ensures var t := Schedule(p, route);
            var lo, hi := First(hasStart), Last(t, hasEnd);
            && |t| == |route| && 0 <= EndTravel(t, hasEnd)
            && (lo < hi ==> t[hi - 1].departure + EndTravel(t, hasEnd) <= p.dayEnd)
  {
    var t := Schedule(p, route);
    FinalAnchorsAtEnds(p, route, coords, hasStart, hasEnd);
    assert END_ANCHOR !in Elements(coords);
    var last := |route| - 1;
    TimetableStep(p, route, last);
    ArrivalInDay(p, route, last);
    if hasEnd {
      StartAtFits(p, route[last], t[last].arrival);
    }
  }

  /** The ids of the steps are the stops between the anchors. */
  lemma StepIdsAreStops(p: Problem, coords: seq<Id>, route: seq<Id>, hasStart: bool, hasEnd: bool, steps: seq<RouteStep>)
    requires START_ANCHOR !in coords && END_ANCHOR !in coords
    requires Final(p, route, coords, hasStart, hasEnd)
    requires Reports(p, Schedule(p, route), hasStart, hasEnd, steps)
    ensures Distinct(StepIds(steps))
    ensures forall n :: n in StepIds(steps) <==> n in route && n in coords
  {
    var ids := StepIds(steps);
    var lo := First(hasStart);
    var t := Schedule(p, route);
    FinalAnchorsAtEnds(p, route, coords, hasStart, hasEnd);
    assert forall i :: 0 <= i < |ids| ==> ids[i] == route[lo + i];
    forall n | n in route && n in coords ensures n in ids {
      var j :| 0 <= j < |route| && route[j] == n;
      assert lo <= j < Last(t, hasEnd);
      assert ids[j - lo] == n;
    }
  }

  /** How the places of a request end up: rejected, dropped, left out by the solver, or visited. */
  ghost predicate SortedOut(day: Day, ids: seq<Id>, coords: seq<Id>, a: Attempt, dropped: seq<Id>, stepIds: seq<Id>) {
    && coords == Accepted(day, ids)
    && (forall n :: n in a.tier ==> n in coords)
    && (Distinct(coords) ==> Distinct(a.tier)) && (Distinct(a.tier) ==> Distinct(a.skipped))
    && dropped == SelectSkipped(coords, Elements(a.tier))
    && Elements(a.skipped) == Elements(a.tier) - Elements(a.route)
    && Distinct(stepIds)
    && (forall n :: n in stepIds <==> n in a.route && n in coords)
    && (forall n :: n in a.route && n in coords ==> n in a.tier)
  }

  lemma SkippedElements(day: Day, ids: seq<Id>, coords: seq<Id>, a: Attempt, dropped: seq<Id>, stepIds: seq<Id>, n: Id)
    requires SortedOut(day, ids, coords, a, dropped, stepIds)
    ensures n in Rejected(day, ids) <==> n in ids && !day.Accepts(n)
    ensures n in dropped <==> n in ids && day.Accepts(n) && n !in a.tier
    ensures n in a.skipped <==> n in ids && day.Accepts(n) && n in a.tier && n !in a.route
    ensures n in stepIds <==> n in ids && day.Accepts(n) && n in a.tier && n in a.route
  {
    AcceptedOrRejected(day, ids);
    SelectSkippedElements(coords, Elements(a.tier));
    assert n in dropped <==> n in Elements(dropped);
    assert n in a.skipped <==> n in Elements(a.skipped);
  }

  /** Rejected, dropped and unrouted places together with the steps are exactly the request. */
  lemma ConservedIntro(day: Day, ids: seq<Id>, coords: seq<Id>, a: Attempt, dropped: seq<Id>, steps: seq<RouteStep>)
    requires SortedOut(day, ids, coords, a, dropped, StepIds(steps))
    ensures Conserved(ids, steps, Rejected(day, ids) + dropped + a.skipped)
  {
    hide SortedOut;
    var stepIds := StepIds(steps);
    var skipped := Rejected(day, ids) + dropped + a.skipped;
    forall n
      ensures n in skipped <==> n in ids && n !in stepIds
      ensures n in stepIds ==> n in ids
    {
      SkippedElements(day, ids, coords, a, dropped, stepIds, n);
    }
    SkippedDistinct(day, ids, coords, a, dropped, stepIds);
    if Distinct(ids) {
      ConcatDistinct(stepIds, skipped);
      DistinctSameElements(stepIds + skipped, ids);
    }
  }

  lemma SkippedDistinct(day: Day, ids: seq<Id>, coords: seq<Id>, a: Attempt, dropped: seq<Id>, stepIds: seq<Id>)
    requires SortedOut(day, ids, coords, a, dropped, stepIds)
    ensures Distinct(stepIds)
    ensures Distinct(ids) ==> Distinct(Rejected(day, ids) + dropped + a.skipped)
  {
    if Distinct(ids) {
      var rejected := Rejected(day, ids);
      AcceptedDistinct(day, ids);
      SelectSkippedElements(coords, Elements(a.tier));
      forall n ensures n in rejected ==> n !in dropped {
        SkippedElements(day, ids, coords, a, dropped, stepIds, n);
      }
      forall n | n in rejected + dropped ensures n !in a.skipped {
        assert n in rejected || n in dropped;
        SkippedElements(day, ids, coords, a, dropped, stepIds, n);
      }
      ConcatDistinct(rejected, dropped);
      ConcatDistinct(rejected + dropped, a.skipped);
    }
  }

  lemma AcceptedDistinct(day: Day, ids: seq<Id>)
    requires Distinct(ids)
    ensures Distinct(Accepted(day, ids)) && Distinct(Rejected(day, ids))
  {
    AcceptedOrRejected(day, ids);
    forall n
      ensures multiset(Accepted(day, ids))[n] <= 1 && multiset(Rejected(day, ids))[n] <= 1
    {
      DistinctCount(ids, n);
      assert multiset(ids)[n] == multiset(Accepted(day, ids))[n] + multiset(Rejected(day, ids))[n];
    }
    CountDistinct(Accepted(day, ids));
    CountDistinct(Rejected(day, ids));
  }

  /** The cap on 2-opt rounds. */
  const MAX_ITERATIONS: nat := 100

  method OptimizeRoute(request: OptimizeRequest, docs: seq<PlaceDoc>, matrix: Option<Matrix>)
    returns (result: Result<OptimizeResponse, PlanError>)
    requires request.Valid()
    requires START_ANCHOR !in request.placeIds && END_ANCHOR !in request.placeIds
    ensures result.Ok? ==> Answers(request, docs, matrix, result.value)
    ensures result.Ok? ==> Prioritized(request, DayOf(request, docs), result.value)
    ensures result.Err? <==> matrix.None? && exists n :: n in request.placeIds && DayOf(request, docs).Accepts(n)
  {
    hide Conserved, Timeline, Totals, InstanceOf, LegsReported, Explained, InstanceFor, Prioritized;
    var day := DayOf(request, docs);
    var coords, rejected, windows, visits := CollectPlaces(day, request.placeIds);
    AcceptedOrRejected(day, request.placeIds);
    if coords == [] {
      NothingAccepted(day, request.placeIds);
      EmptyReport(day, request.transportMode, rejected);
      EmptyIsPrioritized(request, day, OptimizeResponse([], 0, 0, 0, request.transportMode, rejected, 0));
      return Ok(OptimizeResponse([], 0, 0, 0, request.transportMode, rejected, 0));
    }
    assert coords[0] in request.placeIds && day.Accepts(coords[0]);
    if matrix.None? {
      return Err(MatrixUnavailable);
    }
    var p := Instance(matrix.value, windows, visits, day.start, day.end);
    assert InstanceOf(p, day, coords) by {
      InstanceIntro(p, day, coords);
    }
    DocMapFrom(docs);
    DayBoundsInDay(request);
    InstanceIsProblem(p, day, coords);
    InstanceIsFor(p, day, coords);
    var response := SolveAndReport(p, day, request, coords, rejected);
    AnsweredIsPrioritized(request, day, matrix.value, response);
    result := Ok(response);
  }

  lemma EmptyReport(day: Day, mode: TransportMode, skipped: seq<Id>)
    ensures Timeline(day, [], 0) && Totals(OptimizeResponse([], 0, 0, 0, mode, skipped, 0))
  {
  }

  lemma InstanceIntro(p: Instance, day: Day, coords: seq<Id>)
    requires p.windows.Keys == Elements(coords) && p.visits.Keys == Elements(coords)
    requires p.dayStart == day.start && p.dayEnd == day.end
    requires forall n :: n in coords ==>
               day.Accepts(n) && p.windows[n] == day.WindowOf(n).value && p.visits[n] == VisitS(day, n)
    ensures InstanceOf(p, day, coords)
  {
  }

  lemma NothingAccepted(day: Day, ids: seq<Id>)
    requires Accepted(day, ids) == []
    ensures Conserved(ids, [], Rejected(day, ids))
    ensures forall n :: n in ids ==> !day.Accepts(n)
  {
    AcceptedOrRejected(day, ids);
    forall n | n in ids ensures n in Rejected(day, ids) {
      assert n !in Accepted(day, ids);
    }
  }

  lemma DayBoundsInDay(request: OptimizeRequest)
    requires request.Valid()
    ensures 0 <= request.DayStartS() && request.DayEndS() <= SECONDS_PER_DAY
  {
  }

  /** Construct, improve, schedule and report the route of the accepted places. */
  method SolveAndReport(p: Problem, day: Day, request: OptimizeRequest, coords: seq<Id>, rejected: seq<Id>)
    returns (response: OptimizeResponse)
    requires InstanceOf(p, day, coords)
    requires coords == Accepted(day, request.placeIds) && rejected == Rejected(day, request.placeIds)
    requires START_ANCHOR !in coords && END_ANCHOR !in coords
    ensures Conserved(request.placeIds, response.steps, response.skipped)
    ensures Timeline(day, response.steps, response.travelToEndS)
    ensures Totals(response) && response.transportMode == request.transportMode
    ensures !request.end.Given() ==> response.travelToEndS == 0
    ensures !request.start.Given() && response.steps != [] ==> response.steps[0].travelFromPreviousS == 0
    ensures LegsReported(p.matrix, request.start.Given(), request.end.Given(), response.steps, response.travelToEndS)
    ensures p == InstanceFor(day, coords, p.matrix) ==> Explained(request, day, p.matrix, response)
  {
    hide Explained, LegsReported, Conserved, Timeline, InstanceFor, Reports, AnchorsAtEnds, Final, Searched, TwoOptOf, Sound;
    var hasStart, hasEnd := request.start.Given(), request.end.Given();
    var best, dropped, route, attempts, kept := SolveRoute(p, coords, PrioritiesOf(day, coords), hasStart, hasEnd);
    var schedule := ScheduleRoute(p, route);
    ReadyToReport(p, coords, best, route, hasStart, hasEnd);
    var steps, totalTravel, totalVisit, totalWait, travelToEnd := BuildSteps(p, schedule, hasStart, hasEnd);
    ReportConserves(p, day, request.placeIds, coords, best, dropped, route, hasStart, hasEnd, steps);
    ReportHolds(p, day, coords, best, route, hasStart, hasEnd, steps, totalTravel, travelToEnd);
    response := OptimizeResponse(steps, totalTravel, totalVisit, totalWait, request.transportMode,
                                 rejected + dropped + best.skipped, travelToEnd);
    ExplainedIntro(p, day, request, coords, rejected, best, Search(attempts, kept, route), response);
  }

  /** The best attempt of the tier search, improved by 2-opt. */
  method SolveRoute(p: Problem, coords: seq<Id>, priorities: map<Id, Priority>, hasStart: bool, hasEnd: bool)
    returns (best: Attempt, dropped: seq<Id>, route: seq<Id>, ghost attempts: seq<Attempt>, ghost kept: int)
    requires START_ANCHOR !in coords && END_ANCHOR !in coords && p.windows.Keys == p.visits.Keys == Elements(coords)
    ensures Searched(p, coords, priorities, StartAnchor(hasStart), EndAnchor(hasEnd), attempts, kept, best)
    ensures dropped == SelectSkipped(coords, Elements(best.tier))
    ensures TwoOptOf(p, best.route, route, MAX_ITERATIONS, hasEnd)
    ensures Rearranged(best.route, route, hasEnd) && (route == best.route || Improves(p, best.route, route))
    ensures Sound(p, best, StartAnchor(hasStart), EndAnchor(hasEnd))
    ensures (forall n :: n in best.tier ==> n in coords) && (Distinct(coords) ==> Distinct(best.tier))
  {
    hide Searched, Sound, Rearranged, LocallyOptimal, Improves;
    best, dropped, attempts, kept := SolveWithPriorities(p, coords, priorities, StartAnchor(hasStart), EndAnchor(hasEnd));
    KeptFacts(p, coords, priorities, hasStart, hasEnd, attempts, kept, best);
    route := TwoOptSearch(p, best.route, MAX_ITERATIONS, hasEnd);
  }

  lemma ExplainedIntro(p: Problem, day: Day, request: OptimizeRequest, coords: seq<Id>, rejected: seq<Id>, best: Attempt,
                       search: Search, r: OptimizeResponse)
    requires coords == Accepted(day, request.placeIds) && rejected == Rejected(day, request.placeIds)
    requires Searched(p, coords, PrioritiesOf(day, coords), StartAnchor(request.start.Given()),
                      EndAnchor(request.end.Given()), search.attempts, search.kept, best)
    requires TwoOptOf(p, best.route, search.route, MAX_ITERATIONS, request.end.Given())
    requires StepIds(r.steps) == Middle(search.route, request.start.Given(), request.end.Given())
    requires r.skipped == rejected + SelectSkipped(coords, Elements(best.tier)) + best.skipped
    ensures p == InstanceFor(day, coords, p.matrix) ==> Explained(request, day, p.matrix, r)
  {
    hide RanTiers, TiersDone, TwoOptOf, InstanceFor;
    assert Explains(p, day, coords, rejected, request.start.Given(), request.end.Given(), search, r);
  }

  lemma KeptFacts(p: Problem, coords: seq<Id>, priorities: map<Id, Priority>, hasStart: bool, hasEnd: bool,
                  attempts: seq<Attempt>, kept: int, best: Attempt)
    requires Searched(p, coords, priorities, StartAnchor(hasStart), EndAnchor(hasEnd), attempts, kept, best)
    ensures Sound(p, best, StartAnchor(hasStart), EndAnchor(hasEnd))
    ensures forall n :: n in best.tier ==> n in coords
    ensures Distinct(coords) ==> Distinct(best.tier)
  {
    hide RunOf;
    assert RanTier(p, coords, priorities, attempts[kept], StartAnchor(hasStart), EndAnchor(hasEnd));
    TierElements(coords, priorities, best.level);
  }

  lemma ReadyToReport(p: Problem, coords: seq<Id>, best: Attempt, route: seq<Id>, hasStart: bool, hasEnd: bool)
    requires START_ANCHOR !in coords && END_ANCHOR !in coords
    requires Sound(p, best, StartAnchor(hasStart), EndAnchor(hasEnd))
    requires forall n :: n in best.tier ==> n in coords
    requires Rearranged(best.route, route, hasEnd)
    requires route == best.route || Improves(p, best.route, route)
    ensures route == [] <==> best.route == []
    ensures Schedule(p, route) == [] <==> route == []
    ensures route != [] ==>
              && Final(p, route, coords, hasStart, hasEnd)
              && Elements(route) == Elements(best.route)
              && AnchorsAtEnds(Schedule(p, route), hasStart, hasEnd)
  {
    hide Sound;
    if best.route != [] {
      ImprovedIsFinal(p, best, route, coords, hasStart, hasEnd);
      FinalAnchorsAtEnds(p, route, coords, hasStart, hasEnd);
    }
  }

  lemma {:induction false} ReportedTravel(p: Instance, t: seq<Stop>, lo: nat, steps: seq<RouteStep>)
    requires ReportsFrom(p, t, lo, steps)
    ensures TotalTravel(t[..lo + |steps|]) == TotalTravel(t[..lo]) + SumTravel(steps)
  {
    if steps != [] {
      var k := |steps| - 1;
      ReportedTravel(p, t, lo, steps[..k]);
      var longer := t[..lo + |steps|];
      assert longer[..|longer| - 1] == t[..lo + k];
      assert steps[k] == StepOf(p, t[lo + k]);
    } else {
      assert t[..lo + |steps|] == t[..lo];
    }
  }

  lemma TravelAddsUp(p: Problem, coords: seq<Id>, route: seq<Id>, hasStart: bool, hasEnd: bool, steps: seq<RouteStep>)
    requires START_ANCHOR !in coords && END_ANCHOR !in coords
    requires Final(p, route, coords, hasStart, hasEnd)
    requires Reports(p, Schedule(p, route), hasStart, hasEnd, steps)
    ensures TotalTravel(Schedule(p, route)) == SumTravel(steps) + EndTravel(Schedule(p, route), hasEnd)
  {
    var t := Schedule(p, route);
    var lo := First(hasStart);
    FinalAnchorsAtEnds(p, route, coords, hasStart, hasEnd);
    ReportedTravel(p, t, lo, steps);
    TimetableStep(p, route, 0);
    assert TotalTravel(t[..lo]) == 0 by {
      if hasStart {
        assert t[..1][..0] == [];
      }
    }
    if !hasEnd {
      assert t[..lo + |steps|] == t;
    }
  }

  /** What is reported of a route: nothing when there is none, else its schedule between the anchors. */
  ghost predicate Reported(p: Problem, coords: seq<Id>, best: Attempt, route: seq<Id>, hasStart: bool, hasEnd: bool,
                           steps: seq<RouteStep>) {
    && (route == [] <==> best.route == [])
    && if route == [] then steps == [] && Schedule(p, route) == []
       else && Final(p, route, coords, hasStart, hasEnd) && Elements(route) == Elements(best.route)
            && Reports(p, Schedule(p, route), hasStart, hasEnd, steps)
  }

  lemma ReportConserves(p: Problem, day: Day, ids: seq<Id>, coords: seq<Id>, best: Attempt, dropped: seq<Id>,
                        route: seq<Id>, hasStart: bool, hasEnd: bool, steps: seq<RouteStep>)
    requires coords == Accepted(day, ids) && START_ANCHOR !in coords && END_ANCHOR !in coords
    requires Sound(p, best, StartAnchor(hasStart), EndAnchor(hasEnd))
    requires (forall n :: n in best.tier ==> n in coords) && (Distinct(coords) ==> Distinct(best.tier))
    requires dropped == SelectSkipped(coords, Elements(best.tier))
    requires Reported(p, coords, best, route, hasStart, hasEnd, steps)
    ensures Conserved(ids, steps, Rejected(day, ids) + dropped + best.skipped)
  {
    hide Timetable, Reports, Conserved, Final, Sound;
    if route != [] {
      StepIdsAreStops(p, coords, route, hasStart, hasEnd, steps);
      assert forall n :: n in route <==> n in Elements(route);
      assert forall n :: n in best.route <==> n in Elements(best.route);
    }
    StopsAreInTier(p, coords, best, hasStart, hasEnd);
    ConservedIntro(day, ids, coords, best, dropped, steps);
  }

  /** The report of a route: its timeline, its stops in order, the legs of the matrix, and the travel total. */
  lemma ReportHolds(p: Problem, day: Day, coords: seq<Id>, best: Attempt, route: seq<Id>, hasStart: bool, hasEnd: bool,
                    steps: seq<RouteStep>, totalTravel: int, travelToEnd: int)
    requires InstanceOf(p, day, coords) && START_ANCHOR !in coords && END_ANCHOR !in coords
    requires Reported(p, coords, best, route, hasStart, hasEnd, steps)
    requires totalTravel == TotalTravel(Schedule(p, route)) && travelToEnd == EndTravel(Schedule(p, route), hasEnd)
    ensures Timeline(day, steps, travelToEnd)
    ensures totalTravel == SumTravel(steps) + travelToEnd
    ensures !hasEnd ==> travelToEnd == 0
    ensures !hasStart && steps != [] ==> steps[0].travelFromPreviousS == 0
    ensures StepIds(steps) == Middle(route, hasStart, hasEnd)
    ensures LegsReported(p.matrix, hasStart, hasEnd, steps, travelToEnd)
  {
    ReportedLegs(p, coords, best, route, hasStart, hasEnd, steps, travelToEnd);
    assert route == [] ==> Timeline(day, steps, travelToEnd);
    hide Timetable, Reports, InstanceOf, Timeline, Final, LegsReported, Middle;
    if route != [] {
      TimelineHolds(p, day, coords, route, hasStart, hasEnd, steps, travelToEnd);
      TravelAddsUp(p, coords, route, hasStart, hasEnd, steps);
    }
  }

  /** The steps are the route between its anchors, and their legs those of the matrix. */
  lemma ReportedLegs(p: Problem, coords: seq<Id>, best: Attempt, route: seq<Id>, hasStart: bool, hasEnd: bool,
                     steps: seq<RouteStep>, travelToEnd: int)
    requires START_ANCHOR !in coords && END_ANCHOR !in coords
    requires Reported(p, coords, best, route, hasStart, hasEnd, steps)
    requires travelToEnd == EndTravel(Schedule(p, route), hasEnd)
    ensures StepIds(steps) == Middle(route, hasStart, hasEnd)
    ensures LegsReported(p.matrix, hasStart, hasEnd, steps, travelToEnd)
  {
    hide Timetable, Final;
    if route == [] {
      assert StepIds(steps) == [];
    } else {
      FinalAnchorsAtEnds(p, route, coords, hasStart, hasEnd);
      forall i | 0 <= i < |steps| ensures StepOnRoute(p, route, First(hasStart) + i, steps[i]) {
        LegOfStop(p, route, First(hasStart) + i);
      }
      LegOfStop(p, route, |route| - 1);
      hide Schedule;
      RouteLegs(p, route, hasStart, hasEnd, steps, travelToEnd);
    }
  }

  /** A step reports the `j`-th stop of a route and the leg to it. */
  ghost predicate StepOnRoute(p: Problem, route: seq<Id>, j: int, s: RouteStep) {
    && 0 <= j < |route| && s.placeId == route[j]
    && if j == 0 then s.travelFromPreviousS == 0 else LegIs(p.matrix, route[j - 1], route[j], s.travelFromPreviousS)
  }

  lemma RouteLegs(p: Problem, route: seq<Id>, hasStart: bool, hasEnd: bool, steps: seq<RouteStep>, travelToEnd: int)
    requires route != [] && (hasStart ==> route[0] == START_ANCHOR) && (hasEnd ==> route[|route| - 1] == END_ANCHOR)
    requires |steps| == (if hasEnd then |route| - 1 else |route|) - First(hasStart)
    requires forall i :: 0 <= i < |steps| ==> StepOnRoute(p, route, First(hasStart) + i, steps[i])
    requires if !hasEnd || |route| == 1 then travelToEnd == 0
             else LegIs(p.matrix, route[|route| - 2], route[|route| - 1], travelToEnd)
    ensures StepIds(steps) == Middle(route, hasStart, hasEnd)
    ensures LegsReported(p.matrix, hasStart, hasEnd, steps, travelToEnd)
  {
    hide LegIs;
    forall i | 0 < i < |steps|
      ensures LegIs(p.matrix, steps[i - 1].placeId, steps[i].placeId, steps[i].travelFromPreviousS)
    {
      assert StepOnRoute(p, route, First(hasStart) + i - 1, steps[i - 1]);
      assert StepOnRoute(p, route, First(hasStart) + i, steps[i]);
    }
    if steps != [] {
      assert StepOnRoute(p, route, First(hasStart), steps[0]);
      assert StepOnRoute(p, route, First(hasStart) + |steps| - 1, steps[|steps| - 1]);
    }
    forall i | 0 <= i < |steps| ensures StepIds(steps)[i] == Middle(route, hasStart, hasEnd)[i] {
      assert StepOnRoute(p, route, First(hasStart) + i, steps[i]);
    }
  }

  lemma LegOfStop(p: Problem, route: seq<Id>, i: nat)
    requires Timetable(p, route).Some? && i < |route|
    ensures |Schedule(p, route)| == |route| && Schedule(p, route)[i].node == route[i]
    ensures i > 0 ==> LegIs(p.matrix, route[i - 1], route[i], Schedule(p, route)[i].travel)
    ensures i == 0 ==> Schedule(p, route)[i].travel == 0
  {
    TimetableStep(p, route, i);
  }

  lemma InstanceIsFor(p: Problem, day: Day, coords: seq<Id>)
    requires InstanceOf(p, day, coords)
    ensures p == InstanceFor(day, coords, p.matrix)
  {
    var q := InstanceFor(day, coords, p.matrix);
    assert forall n :: n in coords <==> n in Elements(coords);
    assert q.windows.Keys == p.windows.Keys && q.visits.Keys == p.visits.Keys;
    assert q.windows == p.windows && q.visits == p.visits;
  }

  // ---------------------------------------------------------------------------------------
  // Priorities in the response
  // ---------------------------------------------------------------------------------------

  /**
   * The priority guarantee of a response: its steps visit the lexicographically most places (must-see, normal,
   * optional) of all attempts run, and all must-sees if any attempt did. Its skipped places are the rejected ones,
   * the dropped ones, and those the solver left out: no must-see is dropped, places are dropped only if the
   * steps visit more than every attempt that still had them, and only for the reasons in `DropsExplained`.
   */
  ghost predicate PrioritizedOver(day: Day, coords: seq<Id>, rejected: seq<Id>, attempts: seq<Attempt>,
                                  dropped: seq<Id>, left: seq<Id>, r: OptimizeResponse) {
    var priorities, visited := PrioritiesOf(day, coords), StepIds(r.steps);
    && attempts != [] && attempts[0].tier == coords
    && (forall i :: 0 <= i < |attempts| ==> !LexLess(coords, priorities, visited, attempts[i].route))
    && ((exists i :: 0 <= i < |attempts| && VisitsMustSees(coords, priorities, attempts[i].route)) ==>
          VisitsMustSees(coords, priorities, visited))
    && r.skipped == rejected + dropped + left
    && (forall n :: n in dropped ==> n in coords && PriorityOf(priorities, n) != MustSee)
    && (dropped != [] ==> LexLess(coords, priorities, attempts[0].route, visited))
    && DroppedForBetter(coords, priorities, attempts, dropped, visited)
    && DropsExplained(coords, priorities, attempts, dropped)
  }

  ghost predicate Prioritized(request: OptimizeRequest, day: Day, r: OptimizeResponse) {
    var coords := Accepted(day, request.placeIds);
    if coords == [] then r.steps == [] && r.skipped == Rejected(day, request.placeIds)
    else exists attempts, dropped, left :: PrioritizedOver(day, coords, Rejected(day, request.placeIds), attempts, dropped, left, r)
  }

  lemma EmptyIsPrioritized(request: OptimizeRequest, day: Day, r: OptimizeResponse)
    requires Accepted(day, request.placeIds) == [] && r.steps == [] && r.skipped == Rejected(day, request.placeIds)
    ensures Prioritized(request, day, r)
  {
  }

  /** Anchors and order do not matter to the counts. */
  lemma SameCounts(coords: seq<Id>, priorities: map<Id, Priority>, a: seq<Id>, b: seq<Id>)
    requires Distinct(a) && Distinct(b) && forall n :: n in coords ==> (n in a <==> n in b)
    ensures forall pr :: Count(coords, priorities, a, pr) == Count(coords, priorities, b, pr)
    ensures VisitsMustSees(coords, priorities, a) <==> VisitsMustSees(coords, priorities, b)
    ensures forall x :: LexLess(coords, priorities, a, x) == LexLess(coords, priorities, b, x)
    ensures forall x :: LexLess(coords, priorities, x, a) == LexLess(coords, priorities, x, b)
  {
    hide Count;
    forall pr ensures Count(coords, priorities, a, pr) == Count(coords, priorities, b, pr) {
      CountIsSize(coords, priorities, a, pr);
      CountIsSize(coords, priorities, b, pr);
      assert VisitedOf(coords, priorities, a, pr) == VisitedOf(coords, priorities, b, pr);
    }
  }

  /** Only anchors stand outside the middle of a route. */
  lemma MiddleKeepsStops(route: seq<Id>, hasStart: bool, hasEnd: bool, n: Id)
    requires route != [] && hasStart ==> route[0] == START_ANCHOR
    requires route != [] && hasEnd ==> route[|route| - 1] == END_ANCHOR
    requires n != START_ANCHOR && n != END_ANCHOR
    ensures n in Middle(route, hasStart, hasEnd) <==> n in route
  {
    var from, to := First(hasStart), if hasEnd then |route| - 1 else |route|;
    var middle := Middle(route, hasStart, hasEnd);
    if n in route {
      var i :| 0 <= i < |route| && route[i] == n;
      assert from <= i < to;
      assert middle[i - from] == n;
    }
    if n in middle {
      var k :| 0 <= k < |middle| && middle[k] == n;
      assert route[from + k] == n;
    }
  }

  /** The places visited are those of the kept route. */
  lemma VisitedAreKept(p: Problem, coords: seq<Id>, best: Attempt, route: seq<Id>, hasStart: bool, hasEnd: bool)
    requires START_ANCHOR !in coords && END_ANCHOR !in coords
    requires Sound(p, best, StartAnchor(hasStart), EndAnchor(hasEnd)) && Rearranged(best.route, route, hasEnd)
    ensures Distinct(Middle(route, hasStart, hasEnd)) && Distinct(best.route)
    ensures forall n :: n in coords ==> (n in Middle(route, hasStart, hasEnd) <==> n in best.route)
  {
    SameMultisetSameElements(best.route, route);
    PermutationDistinct(best.route, route);
    assert Distinct(Middle(route, hasStart, hasEnd));
    hide Middle;
    forall n | n in coords ensures n in Middle(route, hasStart, hasEnd) <==> n in best.route {
      MiddleKeepsStops(route, hasStart, hasEnd, n);
    }
  }

  lemma AnsweredIsPrioritized(request: OptimizeRequest, day: Day, matrix: Matrix, r: OptimizeResponse)
    requires |request.placeIds| <= 50 && Accepted(day, request.placeIds) != []
    requires START_ANCHOR !in request.placeIds && END_ANCHOR !in request.placeIds
    requires Explained(request, day, matrix, r)
    ensures Prioritized(request, day, r)
  {
    hide Searched, TwoOptOf, PrioritizedOver, InstanceFor;
    var coords, rejected := Accepted(day, request.placeIds), Rejected(day, request.placeIds);
    AcceptedOrRejected(day, request.placeIds);
    var p: Problem := InstanceFor(day, coords, matrix);
    var hasStart, hasEnd := request.start.Given(), request.end.Given();
    var search :| Explains(p, day, coords, rejected, hasStart, hasEnd, search, r);
    ExplainedIsPrioritized(p, day, coords, rejected, hasStart, hasEnd, search, r);
  }

  lemma ExplainedIsPrioritized(p: Problem, day: Day, coords: seq<Id>, rejected: seq<Id>, hasStart: bool, hasEnd: bool,
                               search: Search, r: OptimizeResponse)
    requires |coords| <= 50 && START_ANCHOR !in coords && END_ANCHOR !in coords
    requires Explains(p, day, coords, rejected, hasStart, hasEnd, search, r)
    ensures var best := search.attempts[search.kept];
            PrioritizedOver(day, coords, rejected, search.attempts, SelectSkipped(coords, Elements(best.tier)), best.skipped, r)
  {
    hide Count, LexLess, RanTier, RanTiers, VisitsMustSees, LocallyOptimal, Improves, TiersDone, KeptBest, SelectSkipped;
    var priorities, best := PrioritiesOf(day, coords), search.attempts[search.kept];
    KeptFacts(p, coords, priorities, hasStart, hasEnd, search.attempts, search.kept, best);
    PriorityGuarantee(p, coords, priorities, StartAnchor(hasStart), EndAnchor(hasEnd), search.attempts, search.kept,
                      SelectSkipped(coords, Elements(best.tier)));
    DropReasons(p, coords, priorities, StartAnchor(hasStart), EndAnchor(hasEnd), search.attempts, search.kept,
                SelectSkipped(coords, Elements(best.tier)));
    DropsPayOff(p, coords, priorities, StartAnchor(hasStart), EndAnchor(hasEnd), search.attempts, search.kept,
                SelectSkipped(coords, Elements(best.tier)));
    hide DropsExplained;
    VisitedAreKept(p, coords, best, search.route, hasStart, hasEnd);
    SameCounts(coords, priorities, best.route, StepIds(r.steps));
    FirstTierIsAll(p, coords, priorities, hasStart, hasEnd, search.attempts);
  }

  lemma FirstTierIsAll(p: Problem, coords: seq<Id>, priorities: map<Id, Priority>, hasStart: bool, hasEnd: bool,
                       attempts: seq<Attempt>)
    requires RanTiers(p, coords, priorities, attempts, StartAnchor(hasStart), EndAnchor(hasEnd)) && attempts != []
    ensures attempts[0].tier == coords
  {
    assert RanTier(p, coords, priorities, attempts[0], StartAnchor(hasStart), EndAnchor(hasEnd));
    TierElements(coords, priorities, 0);
  }

  lemma StopsAreInTier(p: Problem, coords: seq<Id>, best: Attempt, hasStart: bool, hasEnd: bool)
    requires START_ANCHOR !in coords && END_ANCHOR !in coords
    requires Sound(p, best, StartAnchor(hasStart), EndAnchor(hasEnd))
    ensures forall n :: n in best.route && n in coords ==> n in best.tier
    ensures Elements(best.skipped) == Elements(best.tier) - Elements(best.route)
    ensures Distinct(best.tier) ==> Distinct(best.skipped)
  {
  }
}
