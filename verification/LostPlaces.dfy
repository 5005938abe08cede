/** Requests on which the solver skips a place that fits: late preferred hours, and hours beyond the sentinel. */
module LostPlaces {
  import opened Wrappers
  import opened Sequences
  import opened TimeWindows
  import opened Scheduling
  import opened NearestNeighbor
  import opened TwoOpt
  import opened Leftovers
  import opened Priorities
  import opened OpeningHours
  import opened RouteOptimizer
  import opened Accommodations
  import opened TripRequests
  import opened Partition
  import opened TransferDays
  import opened TripPlanner

  const NOWHERE := Place(None, None)
  const HERE := Place(Some(0.0), Some(0.0))

  function PlaceWithHours(id: Id, from: Option<int>, to: Option<int>): PlaceDoc {
    PlaceDoc(id, Some(0.0), Some(0.0), from, to, None, None, [])
  }

  /** What the place store lets anyone write: hours of the day, the first before the second, and positive durations. */
  predicate Storable(doc: PlaceDoc) {
    && (doc.preferredHourFrom.Some? ==> 0 <= doc.preferredHourFrom.value <= 23)
    && (doc.preferredHourTo.Some? ==> 0 <= doc.preferredHourTo.value <= 23)
    && (doc.preferredHourFrom.Some? && doc.preferredHourTo.Some? ==>
          doc.preferredHourFrom.value < doc.preferredHourTo.value)
    && doc.visitDurationMin != Some(0)
  }

  // ---------------------------------------------------------------------------------------
  // A response that visits nothing
  // ---------------------------------------------------------------------------------------

  /** Whatever tier is tried, the construction returns the start anchor alone. */
  ghost predicate GoesNowhere(p: Problem, day: Day, coords: seq<Id>) {
    forall level: nat, route ::
      level < 3 && IsAttempt(p, START_ANCHOR, Tier(coords, PrioritiesOf(day, coords), level), None, route) ==>
        route == [START_ANCHOR]
  }

  lemma ExplainedNowhere(p: Problem, day: Day, coords: seq<Id>, rejected: seq<Id>, search: Search, r: OptimizeResponse)
    requires Explains(p, day, coords, rejected, true, false, search, r) && GoesNowhere(p, day, coords)
    ensures r.steps == []
  {
    hide Searched, TwoOptOf, GoesNowhere, SelectSkipped;
    KeptGoesNowhere(p, day, coords, search);
    assert |StepIds(r.steps)| == |Middle([START_ANCHOR], true, false)| == 0;
  }

  lemma NothingVisited(request: OptimizeRequest, r: OptimizeResponse)
    requires Conserved(request.placeIds, r.steps, r.skipped) && r.steps == []
    ensures Elements(r.skipped) == Elements(request.placeIds)
  {
    assert StepIds(r.steps) == [];
  }

  /** Then every response to the request visits nothing and skips every place. */
  lemma NowhereVisitsNothing(request: OptimizeRequest, docs: seq<PlaceDoc>, matrix: Matrix, p: Problem, r: OptimizeResponse)
    requires request.start.Given() && !request.end.Given()
    requires Answers(request, docs, Some(matrix), r)
    requires Accepted(DayOf(request, docs), request.placeIds) != [] ==>
               && p == InstanceFor(DayOf(request, docs), Accepted(DayOf(request, docs), request.placeIds), matrix)
               && GoesNowhere(p, DayOf(request, docs), Accepted(DayOf(request, docs), request.placeIds))
    ensures r.steps == [] && Elements(r.skipped) == Elements(request.placeIds)
  {
    hide Timeline, Totals, LegsReported, InstanceFor, DayOf, Conserved, Explains, GoesNowhere;
    var day := DayOf(request, docs);
    var coords := Accepted(day, request.placeIds);
    if coords != [] {
      assert Explained(request, day, matrix, r);
      var search :| Explains(p, day, coords, Rejected(day, request.placeIds), true, false, search, r);
      ExplainedNowhere(p, day, coords, Rejected(day, request.placeIds), search, r);
    }
    NothingVisited(request, r);
  }

  lemma KeptGoesNowhere(p: Problem, day: Day, coords: seq<Id>, search: Search)
    requires 0 <= search.kept < |search.attempts| && GoesNowhere(p, day, coords)
    requires Searched(p, coords, PrioritiesOf(day, coords), Some(START_ANCHOR), None, search.attempts, search.kept,
                      search.attempts[search.kept])
    requires TwoOptOf(p, search.attempts[search.kept].route, search.route, MAX_ITERATIONS, false)
    ensures search.route == [START_ANCHOR]
  {
    hide IsAttempt, Sound;
    assert RanTier(p, coords, PrioritiesOf(day, coords), search.attempts[search.kept], Some(START_ANCHOR), None);
  }

  // ---------------------------------------------------------------------------------------
  // Late preferred hours
  // ---------------------------------------------------------------------------------------

  /** A walk from here between 9:00 and 21:00 to "bar", preferably from 21 to 22, and to "park", at any time until 23. */
  const LATE_REQUEST := OptimizeRequest(["bar", "park"], WALK, 9, 21, None, None, HERE, NOWHERE, None)
  const LATE_DOCS := [PlaceWithHours("bar", Some(21), Some(22)), PlaceWithHours("park", None, Some(23))]
  const LATE_MATRIX: Matrix := map[(START_ANCHOR, "bar") := 0, (START_ANCHOR, "park") := 0]
  const LATE_DAY := DayOf(LATE_REQUEST, LATE_DOCS)
  const LATE_PLACES: seq<Id> := ["bar", "park"]

  const BAR_WINDOW := TimeWindow([Segment(75600, 79200)])
  const PARK_WINDOW := TimeWindow([Segment(32400, 82800)])

  lemma DocMapOfTwo(a: PlaceDoc, b: PlaceDoc)
    requires a.id != b.id
    ensures DocMap([a, b]) == map[a.id := a, b.id := b]
  {
    assert [a, b][..1] == [a] && [a][..0] == [];
    assert DocMap([a]) == map[a.id := a];
  }

  lemma AcceptedTwo(day: Day, a: Id, b: Id)
    requires day.Accepts(a) && day.Accepts(b)
    ensures Accepted(day, [a, b]) == [a, b]
  {
    assert [a, b][..1] == [a] && [a][..0] == [];
    assert Accepted(day, [a]) == [a];
  }

  /** Without opening periods the window parser keeps the preferred hours, or the bounds of the day. */
  lemma PlainWindow(day: Day, n: Id)
    requires n in day.docs && day.docs[n].HasCoordinates() && day.docs[n].periods == []
    requires OpenS(day.docs[n], day.start) < CloseS(day.docs[n], day.end)
    ensures day.WindowOf(n) == Some(TimeWindow([Segment(OpenS(day.docs[n], day.start), CloseS(day.docs[n], day.end))]))
  {
  }

  /** What the service's own window parser makes of the request. */
  lemma LateWindows()
    ensures LATE_DAY.start == 32400 && LATE_DAY.end == 75600
    ensures "bar" in LATE_DAY.docs && "park" in LATE_DAY.docs
    ensures LATE_DAY.WindowOf("bar") == Some(BAR_WINDOW) && LATE_DAY.WindowOf("park") == Some(PARK_WINDOW)
    ensures VisitS(LATE_DAY, "bar") == VisitS(LATE_DAY, "park") == 1800
    ensures Accepted(LATE_DAY, LATE_PLACES) == LATE_PLACES
    ensures forall n :: n in LATE_PLACES ==> PriorityOf(PrioritiesOf(LATE_DAY, LATE_PLACES), n) == Normal
  {
    DocMapOfTwo(LATE_DOCS[0], LATE_DOCS[1]);
    assert LATE_DAY.docs == map["bar" := LATE_DOCS[0], "park" := LATE_DOCS[1]];
    hide DocMap;
    PlainWindow(LATE_DAY, "bar");
    PlainWindow(LATE_DAY, "park");
    AcceptedTwo(LATE_DAY, "bar", "park");
  }

  /** The solver's input for it, as far as the construction reads it. */
  ghost predicate LateProblem(p: Instance) {
    && p.matrix == LATE_MATRIX && p.dayStart == 32400 && p.dayEnd == 75600
    && p.windows == map["bar" := BAR_WINDOW, "park" := PARK_WINDOW]
    && p.visits == map["bar" := 1800, "park" := 1800]
  }

  lemma LateInstance(day: Day, coords: seq<Id>)
    requires day.start == 32400 && day.end == 75600 && coords == LATE_PLACES
    requires "bar" in day.docs && "park" in day.docs
    requires day.WindowOf("bar") == Some(BAR_WINDOW) && day.WindowOf("park") == Some(PARK_WINDOW)
    requires VisitS(day, "bar") == VisitS(day, "park") == 1800
    ensures LateProblem(InstanceFor(day, coords, LATE_MATRIX))
  {
    hide Window;
    var p := InstanceFor(day, coords, LATE_MATRIX);
    assert forall n :: n in coords <==> n == "bar" || n == "park";
    assert p.windows.Keys == {"bar", "park"} && p.visits.Keys == {"bar", "park"};
  }

  lemma LateIsWellFormed(p: Instance)
    requires LateProblem(p)
    ensures p.WellFormed()
  {
  }

  /** The clocks after the first stop: at the bar only after the day, in the park at once. */
  lemma LateClocks(p: Problem)
    requires LateProblem(p)
    ensures Clock(p, [START_ANCHOR]) == Some(32400) && Feasible(p, [START_ANCHOR])
    ensures p.StartAt("bar", 32400) == Some(75600) && p.StartAt("park", 32400) == Some(32400)
    ensures Deadline(p, "bar") == 79200 && Deadline(p, "park") == 82800
    ensures p.Leg(START_ANCHOR, "bar") == Some(0) && p.Leg(START_ANCHOR, "park") == Some(0)
    ensures !Feasible(p, [START_ANCHOR] + ["bar"]) && Feasible(p, [START_ANCHOR] + ["park"])
  {
    StartAlone(p, START_ANCHOR);
    hide Clock, Timetable;
    assert p.StartAt("bar", 32400) == Some(75600);
    assert p.StartAt("park", 32400) == Some(32400);
    AppendedFits(p, [START_ANCHOR], "bar");
    AppendedFits(p, [START_ANCHOR], "park");
  }

  /** With both places to choose from, the bar is chosen first: it closes earlier. */
  lemma BarIsChosen(p: Problem, pool: set<Id>, c: Id)
    requires LateProblem(p) && EdfChoice(p, [START_ANCHOR], pool, c, None)
    requires pool <= {"bar", "park"} && ("park" in pool ==> "bar" in pool)
    ensures c == "bar"
  {
    LateClocks(p);
    hide Clock, Timetable;
    assert Admissible(p, [START_ANCHOR], "bar", None);
  }

  /** It overruns the day and ends the construction. */
  lemma BarEndsTheRun(p: Problem, tier: seq<Id>, route: seq<Id>)
    requires LateProblem(p) && IsAttempt(p, START_ANCHOR, tier, None, route)
    requires (forall n :: n in tier ==> n in LATE_PLACES) && ("park" in tier ==> "bar" in tier)
    ensures route == [START_ANCHOR]
  {
    hide Clock, Timetable, EdfChoice, LateProblem;
    LateClocks(p);
    assert Core(route, None) == route;
    if |route| > 1 {
      PrefixFeasible(p, route, 2);
      assert route[..1] == [START_ANCHOR] && route[..2] == [START_ANCHOR] + [route[1]];
      BarIsChosen(p, Pool(tier, [START_ANCHOR]), route[1]);
    }
  }

  lemma LateGoesNowhere(p: Problem, day: Day, coords: seq<Id>)
    requires LateProblem(p) && coords == LATE_PLACES
    requires forall n :: n in coords ==> PriorityOf(PrioritiesOf(day, coords), n) == Normal
    ensures GoesNowhere(p, day, coords)
  {
    hide LateProblem, IsAttempt, PrioritiesOf;
    forall level: nat, route |
      level < 3 && IsAttempt(p, START_ANCHOR, Tier(coords, PrioritiesOf(day, coords), level), None, route)
      ensures route == [START_ANCHOR]
    {
      TierElements(coords, PrioritiesOf(day, coords), level);
      BarEndsTheRun(p, Tier(coords, PrioritiesOf(day, coords), level), route);
    }
  }

  /**
   * Every response to this valid request visits nothing and skips the park, although the walk to the park
   * alone keeps its hours and ends within the day.
   */
  lemma LateHoursLoseThePark(r: OptimizeResponse)
    requires Answers(LATE_REQUEST, LATE_DOCS, Some(LATE_MATRIX), r)
    ensures LATE_REQUEST.Valid() && forall doc :: doc in LATE_DOCS ==> Storable(doc)
    ensures r.steps == [] && "park" in r.skipped
    ensures InstanceFor(LATE_DAY, LATE_PLACES, LATE_MATRIX).WellFormed()
    ensures Feasible(InstanceFor(LATE_DAY, LATE_PLACES, LATE_MATRIX), [START_ANCHOR] + ["park"])
    ensures MayStrand(InstanceFor(LATE_DAY, LATE_PLACES, LATE_MATRIX), START_ANCHOR, LATE_PLACES)
  {
    LateWindows();
    hide DayOf, InstanceFor, IsAttempt, Answers, LateProblem, GoesNowhere, MayStrand, Feasible, PrioritiesOf;
    LateInstance(LATE_DAY, LATE_PLACES);
    LateIsWellFormed(InstanceFor(LATE_DAY, LATE_PLACES, LATE_MATRIX));
    var p: Problem := InstanceFor(LATE_DAY, LATE_PLACES, LATE_MATRIX);
    LateClocks(p);
    LateGoesNowhere(p, LATE_DAY, LATE_PLACES);
    NowhereVisitsNothing(LATE_REQUEST, LATE_DOCS, LATE_MATRIX, p, r);
    assert "park" in Elements(LATE_REQUEST.placeIds);
    LateIsForeseen(p);
  }

  /** The check before the call foresees it. */
  lemma LateIsForeseen(p: Problem)
    requires LateProblem(p)
    ensures MayStrand(p, START_ANCHOR, LATE_PLACES)
  {
    LateClocks(p);
    hide Clock, Timetable;
    assert p.windows["bar"].segments[0] in p.windows["bar"].segments;
    assert MayBlock(p, 32400, "bar", "park");
    assert "bar" in LATE_PLACES && "park" in LATE_PLACES;
    assert MayBeStranded(p, 32400, START_ANCHOR, LATE_PLACES, "park");
  }

  /** The request is answered, and so. */
  method AnswerLateRequest() returns (r: OptimizeResponse)
    ensures Answers(LATE_REQUEST, LATE_DOCS, Some(LATE_MATRIX), r) && r.steps == [] && "park" in r.skipped
  {
    hide Answers, Prioritized;
    var result := OptimizeRoute(LATE_REQUEST, LATE_DOCS, Some(LATE_MATRIX));
    r := result.value;
    LateHoursLoseThePark(r);
  }

  /** As long as no place prefers an hour after the day, no run without an end anchor leaves over a place that fits. */
  lemma HoursInDayLoseNothing(p: Problem, day: Day, coords: seq<Id>, start: Id, nodes: seq<Id>, route: seq<Id>, u: Id)
    requires InstanceOf(p, day, coords)
    requires forall n :: n in nodes ==> n in coords && CloseS(day.docs[n], day.end) <= day.end
    requires IsAttempt(p, start, nodes, None, route) && route != [] && u in nodes && u !in route
    ensures !Feasible(p, route + [u])
  {
    forall n | n in nodes ensures n in p.windows && forall g :: g in p.windows[n].segments ==> g.close <= p.dayEnd {
      WindowIsUsable(day.docs[n], day.start, day.end, day.weekday);
    }
    hide InstanceOf, IsAttempt;
    NothingLeftFitsInDay(p, start, nodes, route);
  }

  // ---------------------------------------------------------------------------------------
  // Hours beyond the sentinel
  // ---------------------------------------------------------------------------------------

  /** A one-day trip to "tower", whose day slot gives the preferred hour 277778, and to a place nobody knows. */
  const FAR_REQUEST := MultiDayRequest(
    [DayConfig(1, 9, 21, None, None, HERE, NOWHERE)],
    [PlacePreference("tower", [DaySlot(0, None, Some(277778))]), PlacePreference("unknown", [DaySlot(0, None, None)])],
    WALK, NOWHERE, NOWHERE, [], [])
  const FAR_DOCS := [PlaceWithHours("tower", None, None)]
  const FAR_MATRIX: Matrix := map[(START_ANCHOR, "tower") := 0]
  const FAR_MATRICES: Matrices := (d, leg) => Some(FAR_MATRIX)
  const FAR_WINDOW := TimeWindow([Segment(32400, 1_000_000_800)])

  function FarTour(nearer: Geography): Tour {
    TourOf(FAR_REQUEST, FAR_DOCS, nearer, FAR_MATRICES)
  }

  lemma FarRequestIsValid()
    ensures FAR_REQUEST.Valid() && Plannable(FAR_REQUEST)
  {
    assert Dates(FAR_REQUEST.days) == [1];
    assert PlaceIds(FAR_REQUEST.places) == ["tower", "unknown"];
    assert TransferDates([]) == [];
  }

  /** The planner knows the tower with the slot's hour, and nothing else. */
  lemma FarDocuments(nearer: Geography)
    ensures FarTour(nearer).trip.docs == map["tower" := FAR_DOCS[0]] && KeyedById(FarTour(nearer).trip.docs)
    ensures DayDoc(FarTour(nearer), "tower", 0) == PlaceWithHours("tower", None, Some(277778))
    ensures FarTour(nearer).trip.contexts == map[]
  {
    assert FAR_DOCS[..0] == [];
    SlotsOfIsExact(FAR_REQUEST.places);
    assert FAR_REQUEST.places[0] in FAR_REQUEST.places && FAR_REQUEST.places[0].slots[0] in FAR_REQUEST.places[0].slots;
    hide SlotsOf;
    assert ContextOf(FAR_REQUEST, 0).None?;
  }

  /** On its day the solver call accepts the tower alone. */
  lemma FarDay(nearer: Geography, ids: seq<Id>)
    requires "tower" in ids
    ensures var day := DayOf(OrdinaryRequest(FAR_REQUEST, 0, ids), DayDocs(FarTour(nearer), ids, 0));
            && day.start == 32400 && day.end == 75600
            && "tower" in day.docs && day.WindowOf("tower") == Some(FAR_WINDOW) && VisitS(day, "tower") == 1800
            && forall n :: n in Accepted(day, ids) <==> n == "tower"
  {
    FarDocuments(nearer);
    DayDocsAreExact(FarTour(nearer), ids, 0);
    hide DayDocs, TourOf, SlotsOf;
    var day := DayOf(OrdinaryRequest(FAR_REQUEST, 0, ids), DayDocs(FarTour(nearer), ids, 0));
    PlainWindow(day, "tower");
    AcceptedOrRejected(day, ids);
  }

  /** The solver's input for it, as far as the construction reads it. */
  ghost predicate FarProblem(p: Instance) {
    && p.matrix == FAR_MATRIX && p.dayStart == 32400 && p.dayEnd == 75600
    && p.windows == map["tower" := FAR_WINDOW] && p.visits == map["tower" := 1800]
  }

  lemma FarInstance(day: Day, coords: seq<Id>)
    requires day.start == 32400 && day.end == 75600 && forall n :: n in coords <==> n == "tower"
    requires "tower" in day.docs && day.WindowOf("tower") == Some(FAR_WINDOW) && VisitS(day, "tower") == 1800
    ensures FarProblem(InstanceFor(day, coords, FAR_MATRIX)) && InstanceFor(day, coords, FAR_MATRIX).WellFormed()
  {
    var p := InstanceFor(day, coords, FAR_MATRIX);
    assert p.windows.Keys == {"tower"} && p.visits.Keys == {"tower"};
  }

  lemma FarClocks(p: Problem)
    requires FarProblem(p)
    ensures Feasible(p, [START_ANCHOR]) && Feasible(p, [START_ANCHOR] + ["tower"])
    ensures Deadline(p, "tower") > LARGE
  {
    StartAlone(p, START_ANCHOR);
    hide Clock, Timetable;
    assert p.StartAt("tower", 32400) == Some(32400);
    AppendedFits(p, [START_ANCHOR], "tower");
  }

  lemma SecondStop(p: Problem, start: Id, nodes: seq<Id>, route: seq<Id>)
    requires Greedy(p, start, nodes, route, None) && |route| > 1
    ensures route[1] in nodes && Deadline(p, route[1]) <= LARGE
  {
    assert EdfChoice(p, route[..1], Pool(nodes, route[..1]), route[1], None);
  }

  /** The scan never sees the tower. */
  lemma TowerIsNeverChosen(p: Problem, tier: seq<Id>, route: seq<Id>)
    requires FarProblem(p) && IsAttempt(p, START_ANCHOR, tier, None, route)
    requires forall n :: n in tier ==> n == "tower"
    ensures route == [START_ANCHOR]
  {
    hide Clock, Timetable, EdfChoice, FarProblem;
    FarClocks(p);
    assert Core(route, None) == route;
    if |route| > 1 {
      SecondStop(p, START_ANCHOR, tier, route);
    }
  }

  lemma FarGoesNowhere(p: Problem, day: Day, coords: seq<Id>)
    requires FarProblem(p) && forall n :: n in coords ==> n == "tower"
    ensures GoesNowhere(p, day, coords)
  {
    hide FarProblem, IsAttempt;
    forall level: nat, route |
      level < 3 && IsAttempt(p, START_ANCHOR, Tier(coords, PrioritiesOf(day, coords), level), None, route)
      ensures route == [START_ANCHOR]
    {
      TierElements(coords, PrioritiesOf(day, coords), level);
      TowerIsNeverChosen(p, Tier(coords, PrioritiesOf(day, coords), level), route);
    }
  }

  /** The partition puts the tower into the bucket of its day. */
  lemma FarBucket(nearer: Geography, st: Packing)
    requires Partitioned(FarTour(nearer).trip, FAR_REQUEST.places, st)
    ensures st.Shaped(1) && "tower" in st.buckets[0]
  {
    FarDocuments(nearer);
    var trip := FarTour(nearer).trip;
    assert trip.days == FAR_REQUEST.days && BalancedDay(trip, st, 0);
    assert FAR_REQUEST.places[0] in FAR_REQUEST.places;
    hide Candidates, Contents, MinutesOf, SidesBounded, TourOf;
    assert Settled(trip, st, FAR_REQUEST.places[0]);
  }

  /** The solver call of the trip's day. */
  function FarCall(nearer: Geography, ids: seq<Id>): (OptimizeRequest, seq<PlaceDoc>) {
    (OrdinaryRequest(FAR_REQUEST, 0, ids), DayDocs(FarTour(nearer), ids, 0))
  }

  lemma FarPlan(nearer: Geography, st: Packing, response: MultiDayResponse)
    requires st.Shaped(1) && st.buckets[0] != [] && TripPlanned(FarTour(nearer), st, response)
    ensures |response.days| == 1
    ensures var call := FarCall(nearer, st.buckets[0]);
            Answers(call.0, call.1, Some(FAR_MATRIX), response.days[0].AsResponse(WALK))
  {
    FarDocuments(nearer);
    var tour := FarTour(nearer);
    assert tour.matrixFor(0, Whole) == Some(FAR_MATRIX) && tour.request == FAR_REQUEST;
    hide TourOf, Answers, DayDocs, OrdinaryRequest;
    assert DayPlanned(tour, st, 0, response.days[0]);
  }

  lemma FarInput(nearer: Geography, ids: seq<Id>) returns (p: Problem)
    requires "tower" in ids
    ensures var call := FarCall(nearer, ids);
            var day := DayOf(call.0, call.1);
            && p == InstanceFor(day, Accepted(day, ids), FAR_MATRIX) && Feasible(p, [START_ANCHOR] + ["tower"])
            && GoesNowhere(p, day, Accepted(day, ids))
            && call.0.placeIds == ids && call.0.start.Given() && !call.0.end.Given()
  {
    FarDay(nearer, ids);
    var call := FarCall(nearer, ids);
    var day := DayOf(call.0, call.1);
    hide DayOf, DayDocs, FarProblem, InstanceFor, GoesNowhere;
    FarInstance(day, Accepted(day, ids));
    p := InstanceFor(day, Accepted(day, ids), FAR_MATRIX);
    FarClocks(p);
    FarGoesNowhere(p, day, Accepted(day, ids));
  }

  /** The plan skips the tower on its day, although the walk to the tower alone is feasible. */
  ghost predicate LosesTheTower(nearer: Geography, st: Packing, response: MultiDayResponse) {
    && st.Shaped(1) && |response.days| == 1
    && response.days[0].steps == [] && "tower" in response.days[0].skipped
    && var call := FarCall(nearer, st.buckets[0]);
       var day := DayOf(call.0, call.1);
       Feasible(InstanceFor(day, Accepted(day, st.buckets[0]), FAR_MATRIX), [START_ANCHOR] + ["tower"])
  }

  lemma FarPlanLoses(nearer: Geography, st: Packing, response: MultiDayResponse)
    requires st.Shaped(1) && "tower" in st.buckets[0] && |response.days| == 1
    requires var call := FarCall(nearer, st.buckets[0]);
             Answers(call.0, call.1, Some(FAR_MATRIX), response.days[0].AsResponse(WALK))
    ensures LosesTheTower(nearer, st, response)
  {
    hide FarCall, Answers, DayOf, InstanceFor, GoesNowhere, Feasible;
    var call := FarCall(nearer, st.buckets[0]);
    var p := FarInput(nearer, st.buckets[0]);
    var r := response.days[0].AsResponse(WALK);
    NowhereVisitsNothing(call.0, call.1, FAR_MATRIX, p, r);
    assert "tower" in Elements(r.skipped);
  }

  /**
   * Every plan of this valid trip skips the tower on its day, although walking there fits: its last closing
   * time, 277778 hours, lies beyond the sentinel the candidate scan starts from.
   */
  lemma FarHoursLoseTheTower(nearer: Geography, st: Packing, response: MultiDayResponse)
    requires Partitioned(FarTour(nearer).trip, FAR_REQUEST.places, st) && TripPlanned(FarTour(nearer), st, response)
    ensures FAR_REQUEST.Valid() && forall doc :: doc in FAR_DOCS ==> Storable(doc)
    ensures LosesTheTower(nearer, st, response)
  {
    hide FarTour, Partitioned, TripPlanned, Answers, FarCall, LosesTheTower;
    assert forall doc :: doc in FAR_DOCS ==> Storable(doc);
    FarRequestIsValid();
    FarBucket(nearer, st);
    FarPlan(nearer, st, response);
    FarPlanLoses(nearer, st, response);
  }
}
