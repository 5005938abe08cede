/** A request whose route of a start and two places goes the long way round, and every response keeps it. */
module ShortRoutes {
  import opened Wrappers
  import opened Sequences
  import opened TimeWindows
  import opened Scheduling
  import opened NearestNeighbor
  import opened Leftovers
  import opened TwoOpt
  import opened Priorities
  import opened OpeningHours
  import opened RouteOptimizer
  import opened LostPlaces

  /**
   * A walk from here between 9:00 and 21:00 to "castle", preferably until 20, and "well". The castle is an
   * hour away from everywhere, but a minute from the well on the way there, and the well is next door.
   */
  const SHORT_REQUEST := OptimizeRequest(["castle", "well"], WALK, 9, 21, None, None, HERE, NOWHERE, None)
  const SHORT_DOCS := [PlaceWithHours("castle", None, Some(20)), PlaceWithHours("well", None, None)]
  const SHORT_MATRIX: Matrix :=
    map[(START_ANCHOR, "castle") := 3600, ("castle", "well") := 3600, (START_ANCHOR, "well") := 60, ("well", "castle") := 60]
  const SHORT_DAY := DayOf(SHORT_REQUEST, SHORT_DOCS)
  const SHORT_PLACES: seq<Id> := ["castle", "well"]

  const CASTLE_WINDOW := TimeWindow([Segment(32400, 72000)])
  const WELL_WINDOW := TimeWindow([Segment(32400, 75600)])

  /** The order the construction finds. */
  const LONG_WAY: seq<Id> := [START_ANCHOR, "castle", "well"]

  lemma ShortWindows()
    ensures SHORT_DAY.start == 32400 && SHORT_DAY.end == 75600
    ensures "castle" in SHORT_DAY.docs && "well" in SHORT_DAY.docs
    ensures SHORT_DAY.WindowOf("castle") == Some(CASTLE_WINDOW) && SHORT_DAY.WindowOf("well") == Some(WELL_WINDOW)
    ensures VisitS(SHORT_DAY, "castle") == VisitS(SHORT_DAY, "well") == 1800
    ensures Accepted(SHORT_DAY, SHORT_PLACES) == SHORT_PLACES
    ensures forall n :: n in SHORT_PLACES ==> PriorityOf(PrioritiesOf(SHORT_DAY, SHORT_PLACES), n) == Normal
  {
    DocMapOfTwo(SHORT_DOCS[0], SHORT_DOCS[1]);
    assert SHORT_DAY.docs == map["castle" := SHORT_DOCS[0], "well" := SHORT_DOCS[1]];
    hide DocMap;
    PlainWindow(SHORT_DAY, "castle");
    PlainWindow(SHORT_DAY, "well");
    AcceptedTwo(SHORT_DAY, "castle", "well");
  }

  /** The solver's input for it, as far as the construction reads it. */
  ghost predicate ShortProblem(p: Instance) {
    && p.matrix == SHORT_MATRIX && p.dayStart == 32400 && p.dayEnd == 75600
    && p.windows == map["castle" := CASTLE_WINDOW, "well" := WELL_WINDOW]
    && p.visits == map["castle" := 1800, "well" := 1800]
  }

  lemma ShortInstance(day: Day, coords: seq<Id>)
    requires day.start == 32400 && day.end == 75600 && coords == SHORT_PLACES
    requires "castle" in day.docs && "well" in day.docs
    requires day.WindowOf("castle") == Some(CASTLE_WINDOW) && day.WindowOf("well") == Some(WELL_WINDOW)
    requires VisitS(day, "castle") == VisitS(day, "well") == 1800
    ensures ShortProblem(InstanceFor(day, coords, SHORT_MATRIX))
  {
    hide Window;
    var p := InstanceFor(day, coords, SHORT_MATRIX);
    assert forall n :: n in coords <==> n == "castle" || n == "well";
    assert p.windows.Keys == {"castle", "well"} && p.visits.Keys == {"castle", "well"};
  }

  lemma ShortIsWellFormed(p: Instance)
    requires ShortProblem(p)
    ensures p.WellFormed()
  {
  }

  /** The clocks of the two orders. */
  lemma ShortClocks(p: Problem)
    requires ShortProblem(p)
    ensures Clock(p, [START_ANCHOR]) == Some(32400)
    ensures Clock(p, [START_ANCHOR, "castle"]) == Some(37800) && Clock(p, LONG_WAY) == Some(43200)
    ensures Clock(p, Swapped(LONG_WAY)) == Some(36120)
  {
    StartAlone(p, START_ANCHOR);
    hide Clock;
    assert p.StartAt("castle", 36000) == Some(36000) && p.StartAt("well", 41400) == Some(41400);
    assert p.StartAt("well", 32460) == Some(32460) && p.StartAt("castle", 34320) == Some(34320);
    assert [START_ANCHOR] + ["castle"] == [START_ANCHOR, "castle"] && [START_ANCHOR, "castle"] + ["well"] == LONG_WAY;
    assert [START_ANCHOR] + ["well"] == [START_ANCHOR, "well"] && [START_ANCHOR, "well"] + ["castle"] == Swapped(LONG_WAY);
    ClockSnoc(p, [START_ANCHOR], "castle");
    assert Clock(p, [START_ANCHOR, "castle"]) == Some(37800);
    ClockSnoc(p, [START_ANCHOR, "castle"], "well");
    ClockSnoc(p, [START_ANCHOR], "well");
    assert Clock(p, [START_ANCHOR, "well"]) == Some(34260);
    ClockSnoc(p, [START_ANCHOR, "well"], "castle");
  }

  /** The other order is feasible too, and two hours shorter but for two minutes. */
  lemma SwapImproves(p: Problem)
    requires ShortProblem(p)
    ensures Feasible(p, LONG_WAY) && RouteTravel(p, LONG_WAY) == 7200
    ensures Improves(p, LONG_WAY, Swapped(LONG_WAY)) && RouteTravel(p, Swapped(LONG_WAY)) == 120
  {
    ShortClocks(p);
    LegsOfThree(p, START_ANCHOR, "castle", "well");
    LegsOfThree(p, START_ANCHOR, "well", "castle");
    hide Clock, RouteTravel;
  }

  // ---------------------------------------------------------------------------------------
  // The construction has no choice
  // ---------------------------------------------------------------------------------------

  /** The castle closes earlier, so it comes first. */
  lemma CastleFirst(p: Problem, c: Id)
    requires ShortProblem(p) && EdfChoice(p, [START_ANCHOR], {"castle", "well"}, c, None)
    ensures c == "castle"
  {
    ShortClocks(p);
    hide Clock, Timetable;
    assert p.StartAt("castle", 36000) == Some(36000);
    assert Admissible(p, [START_ANCHOR], "castle", None);
    assert Deadline(p, "castle") == 72000 && Deadline(p, "well") == 75600;
  }

  lemma StartIsNotTheEnd(p: Problem)
    requires ShortProblem(p)
    ensures Feasible(p, [START_ANCHOR]) && !Exhausted(p, SHORT_PLACES, [START_ANCHOR], None)
  {
    ShortClocks(p);
    hide Clock, Timetable, EdfChoice;
    assert Pool(SHORT_PLACES, [START_ANCHOR]) == {"castle", "well"};
    assert p.StartAt("castle", 36000) == Some(36000);
    assert Admissible(p, [START_ANCHOR], "castle", None);
    forall b | EdfChoice(p, [START_ANCHOR], {"castle", "well"}, b, None) ensures Feasible(p, [START_ANCHOR] + [b]) {
      CastleFirst(p, b);
      assert [START_ANCHOR] + [b] == [START_ANCHOR, "castle"];
    }
  }

  lemma CastleIsNotTheEnd(p: Problem)
    requires ShortProblem(p)
    ensures !Exhausted(p, SHORT_PLACES, [START_ANCHOR, "castle"], None)
  {
    ShortClocks(p);
    hide Clock, Timetable, EdfChoice;
    var core: seq<Id> := [START_ANCHOR, "castle"];
    assert Pool(SHORT_PLACES, core) == {"well"};
    assert p.StartAt("well", 41400) == Some(41400);
    assert Admissible(p, core, "well", None);
    forall b | EdfChoice(p, core, {"well"}, b, None) ensures Feasible(p, core + [b]) {
      ChosenFromPool(p, core, {"well"}, b, None);
      assert core + [b] == LONG_WAY;
    }
  }

  lemma SecondStopIsCastle(p: Problem, route: seq<Id>)
    requires ShortProblem(p) && Greedy(p, START_ANCHOR, SHORT_PLACES, route, None) && |route| > 1
    ensures route[..2] == [START_ANCHOR, "castle"]
  {
    hide EdfChoice, Greedy, ShortProblem;
    FirstIsStart(p, route);
    GreedyChoice(p, START_ANCHOR, SHORT_PLACES, route, None, 1);
    assert route[..1] == [START_ANCHOR] && Pool(SHORT_PLACES, [START_ANCHOR]) == {"castle", "well"};
    CastleFirst(p, route[1]);
  }

  lemma ThirdStopIsWell(p: Problem, route: seq<Id>)
    requires Greedy(p, START_ANCHOR, SHORT_PLACES, route, None) && |route| > 2 && route[..2] == [START_ANCHOR, "castle"]
    ensures route == LONG_WAY
  {
    GreedyVisitsNodes(p, START_ANCHOR, SHORT_PLACES, route, None);
    hide Greedy;
    assert route[0] == route[..2][0] && route[1] == route[..2][1];
    forall i | 2 <= i < |route| ensures route[i] == "well" {
      assert route[i] in route && route[i] != route[0] && route[i] != route[1];
    }
  }

  /** Every run from the start over both places goes the long way. */
  lemma LongWayIsForced(p: Problem, route: seq<Id>)
    requires ShortProblem(p) && IsAttempt(p, START_ANCHOR, SHORT_PLACES, None, route)
    ensures route == LONG_WAY
  {
    StartIsNotTheEnd(p);
    hide Greedy, Exhausted, ShortProblem, Clock, Timetable;
    assert Core(route, None) == route;
    assert route != [];
    FirstIsStart(p, route);
    assert |route| == 1 ==> route == [START_ANCHOR];
    SecondStopIsCastle(p, route);
    NotYetTheEnd(p, route);
    ThirdStopIsWell(p, route);
  }

  lemma NotYetTheEnd(p: Problem, route: seq<Id>)
    requires ShortProblem(p) && Exhausted(p, SHORT_PLACES, route, None)
    requires |route| >= 2 && route[..2] == [START_ANCHOR, "castle"]
    ensures |route| > 2
  {
    hide Exhausted, ShortProblem;
    if |route| == 2 {
      assert route == [START_ANCHOR, "castle"];
      CastleIsNotTheEnd(p);
    }
  }

  lemma FirstIsStart(p: Problem, route: seq<Id>)
    requires Greedy(p, START_ANCHOR, SHORT_PLACES, route, None)
    ensures route != [] && route[0] == START_ANCHOR
  {
  }

  // ---------------------------------------------------------------------------------------
  // So every response goes it too
  // ---------------------------------------------------------------------------------------

  /** Without must-sees the tier search stops after its first attempt. */
  lemma OneAttempt(p: Problem, coords: seq<Id>, priorities: map<Id, Priority>, attempts: seq<Attempt>)
    requires RanTiers(p, coords, priorities, attempts, Some(START_ANCHOR), None) && attempts != []
    requires forall n :: n in coords ==> PriorityOf(priorities, n) == Normal
    ensures |attempts| == 1 && attempts[0].tier == coords
    ensures IsAttempt(p, START_ANCHOR, coords, None, attempts[0].route)
  {
    var a := attempts[0];
    assert RanTier(p, coords, priorities, a, Some(START_ANCHOR), None);
    TierElements(coords, priorities, 0);
    hide RanTier;
    forall n | n in a.skipped ensures PriorityOf(priorities, n) == Normal {
      assert n in Elements(a.skipped);
    }
  }

  lemma KeptGoesLong(p: Problem, day: Day, coords: seq<Id>, search: Search)
    requires ShortProblem(p) && coords == SHORT_PLACES && 0 <= search.kept < |search.attempts|
    requires forall n :: n in coords ==> PriorityOf(PrioritiesOf(day, coords), n) == Normal
    requires Searched(p, coords, PrioritiesOf(day, coords), Some(START_ANCHOR), None, search.attempts, search.kept,
                      search.attempts[search.kept])
    requires TwoOptOf(p, search.attempts[search.kept].route, search.route, MAX_ITERATIONS, false)
    ensures search.route == LONG_WAY
  {
    hide IsAttempt, ShortProblem, RanTiers;
    OneAttempt(p, coords, PrioritiesOf(day, coords), search.attempts);
    LongWayIsForced(p, search.attempts[0].route);
  }

  lemma StepsOfLongWay(p: Problem, day: Day, coords: seq<Id>, rejected: seq<Id>, search: Search, r: OptimizeResponse)
    requires Explains(p, day, coords, rejected, true, false, search, r)
    requires ShortProblem(p) && coords == SHORT_PLACES
    requires forall n :: n in coords ==> PriorityOf(PrioritiesOf(day, coords), n) == Normal
    ensures StepIds(r.steps) == SHORT_PLACES
  {
    hide Searched, TwoOptOf, ShortProblem, SelectSkipped, PrioritiesOf;
    KeptGoesLong(p, day, coords, search);
  }

  lemma TravelOfTwo(steps: seq<RouteStep>)
    requires StepIds(steps) == SHORT_PLACES
    requires LegsReported(SHORT_MATRIX, true, false, steps, 0)
    ensures SumTravel(steps) == 7200
  {
    assert |steps| == |StepIds(steps)| == 2;
    assert steps[0].placeId == StepIds(steps)[0] && steps[1].placeId == StepIds(steps)[1];
    assert steps[..1][..0] == [];
    assert SumTravel(steps[..1]) == steps[0].travelFromPreviousS;
  }

  lemma ShortAnswer(r: OptimizeResponse)
    requires Answers(SHORT_REQUEST, SHORT_DOCS, Some(SHORT_MATRIX), r)
    requires Accepted(SHORT_DAY, SHORT_PLACES) != []
    ensures Explained(SHORT_REQUEST, SHORT_DAY, SHORT_MATRIX, r)
    ensures LegsReported(SHORT_MATRIX, true, false, r.steps, 0) && r.totalTravelTimeS == SumTravel(r.steps)
  {
    hide Conserved, Timeline, LegsReported, Explained, DayOf, Accepted, SumTravel, SumVisit, SumWait;
  }

  lemma ShortRouteIsLong(p: Problem, r: OptimizeResponse)
    requires Explained(SHORT_REQUEST, SHORT_DAY, SHORT_MATRIX, r) && Accepted(SHORT_DAY, SHORT_PLACES) == SHORT_PLACES
    requires ShortProblem(p) && p == InstanceFor(SHORT_DAY, SHORT_PLACES, SHORT_MATRIX)
    requires forall n :: n in SHORT_PLACES ==> PriorityOf(PrioritiesOf(SHORT_DAY, SHORT_PLACES), n) == Normal
    ensures StepIds(r.steps) == SHORT_PLACES
  {
    hide DayOf, InstanceFor, ShortProblem, PrioritiesOf, Explains, Accepted, Rejected;
    var search :| Explains(p, SHORT_DAY, SHORT_PLACES, Rejected(SHORT_DAY, SHORT_PLACES), true, false, search, r);
    StepsOfLongWay(p, SHORT_DAY, SHORT_PLACES, Rejected(SHORT_DAY, SHORT_PLACES), search, r);
  }

  /**
   * Every response to this valid request travels two hours, although the same places in the other order are
   * feasible within two minutes of travel: the search does not look at routes of three stops.
   */
  lemma ShortRouteStaysLong(r: OptimizeResponse)
    requires Answers(SHORT_REQUEST, SHORT_DOCS, Some(SHORT_MATRIX), r)
    ensures SHORT_REQUEST.Valid() && forall doc :: doc in SHORT_DOCS ==> Storable(doc)
    ensures StepIds(r.steps) == SHORT_PLACES && r.totalTravelTimeS == 7200
    ensures var p := InstanceFor(SHORT_DAY, SHORT_PLACES, SHORT_MATRIX);
            && p.WellFormed() && Improves(p, LONG_WAY, Swapped(LONG_WAY)) && RouteTravel(p, Swapped(LONG_WAY)) == 120
            && !LocallyOptimal(p, LONG_WAY, false)
  {
    ShortWindows();
    hide DayOf, InstanceFor, Answers, Explained, ShortProblem, Improves, RouteTravel, LocallyOptimal, PrioritiesOf, LegsReported,
         Accepted, SumTravel;
    ShortInstance(SHORT_DAY, SHORT_PLACES);
    ShortIsWellFormed(InstanceFor(SHORT_DAY, SHORT_PLACES, SHORT_MATRIX));
    var p: Problem := InstanceFor(SHORT_DAY, SHORT_PLACES, SHORT_MATRIX);
    SwapImproves(p);
    ShortRoutesExact(p, LONG_WAY, false);
    ShortAnswer(r);
    ShortRouteIsLong(p, r);
    TravelOfTwo(r.steps);
  }

  /** The request is answered, and so. */
  method AnswerShortRequest() returns (r: OptimizeResponse)
    ensures Answers(SHORT_REQUEST, SHORT_DOCS, Some(SHORT_MATRIX), r)
    ensures StepIds(r.steps) == SHORT_PLACES && r.totalTravelTimeS == 7200
  {
    hide Answers, Prioritized;
    var result := OptimizeRoute(SHORT_REQUEST, SHORT_DOCS, Some(SHORT_MATRIX));
    r := result.value;
    ShortRouteStaysLong(r);
  }
}
