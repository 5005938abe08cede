/** What a response means in the terms of the request and the stored documents alone. */
module Responses {
  import opened Wrappers
  import opened Sequences
  import opened TimeWindows
  import opened Scheduling
  import opened NearestNeighbor
  import opened TwoOpt
  import opened Priorities
  import opened OpeningHours
  import opened RouteOptimizer

  // ---------------------------------------------------------------------------------------
  // The documents
  // ---------------------------------------------------------------------------------------

  /** `doc` is the last document of its id. */
  ghost predicate IsDocOf(docs: seq<PlaceDoc>, n: Id, doc: PlaceDoc) {
    exists i :: 0 <= i < |docs| && docs[i] == doc && doc.id == n && forall j :: i < j < |docs| ==> docs[j].id != n
  }

  lemma {:induction false} DocMapIsLast(docs: seq<PlaceDoc>, n: Id)
    ensures n in DocMap(docs) <==> exists doc :: doc in docs && doc.id == n
    ensures n in DocMap(docs) ==> IsDocOf(docs, n, DocMap(docs)[n])
  {
    if docs != [] {
      var k := |docs| - 1;
      DocMapIsLast(docs[..k], n);
      LastElement(docs);
      if docs[k].id != n && n in DocMap(docs) {
        var i :| 0 <= i < k && docs[..k][i] == DocMap(docs)[n] && forall j :: i < j < k ==> docs[..k][j].id != n;
        assert docs[i] == DocMap(docs)[n];
        forall j | i < j < |docs| ensures docs[j].id != n {
          assert j < k ==> docs[j] == docs[..k][j];
        }
      } else if docs[k].id == n {
        assert IsDocOf(docs, n, docs[k]);
      }
    }
  }

  /** A place enters the solver exactly when it is known, has both coordinates, and some visit keeps its hours that day. */
  lemma AcceptedExactly(day: Day, n: Id)
    ensures day.Accepts(n) <==>
            && n in day.docs && day.docs[n].lat.Some? && day.docs[n].lng.Some?
            && exists start :: OpenFor(day.docs[n], day.start, day.end, day.weekday, start, 1)
  {
    if n in day.docs {
      WindowWhenOpen(day.docs[n], day.start, day.end, day.weekday);
    }
  }

  /** Places are ranked by their stored priority, those without one as normal. */
  lemma PrioritiesAreStored(day: Day, coords: seq<Id>, n: Id)
    requires n in coords && n in day.docs
    ensures var stored := day.docs[n].priority;
            PriorityOf(PrioritiesOf(day, coords), n) == if stored.Some? then stored.value else Normal
  {
  }

  // ---------------------------------------------------------------------------------------
  // The visits
  // ---------------------------------------------------------------------------------------

  /** A bound of the day in seconds: the explicit time, or else the hour. */
  ghost predicate IsBound(seconds: int, hour: int, time: Option<Time>) {
    match time
    case Some(t) => seconds == 3600 * t.hour + 60 * t.minute + t.second
    case None => seconds == 3600 * hour
  }

  /** A visit that lasts as long as the document says, else half an hour. */
  ghost predicate LastsAsStored(doc: PlaceDoc, minutes: int) {
    match doc.visitDurationMin
    case Some(m) => minutes == if m > 0 then m else 30
    case None => minutes == 30
  }

  /** From arrival to departure a visit lies in the day; it keeps the preferred hours and one period of its date's weekday. */
  ghost predicate VisitKept(doc: PlaceDoc, from: int, to: int, date: Option<int>, s: RouteStep) {
    var begin, finish := VisitStartS(s), VisitStartS(s) + 60 * s.visitDurationMin;
    && doc.id == s.placeId && doc.lat.Some? && doc.lng.Some? && LastsAsStored(doc, s.visitDurationMin)
    && from <= ArrivalS(s) <= begin && finish == LeaveS(s) <= to
    && (if doc.preferredHourFrom.Some? then 3600 * doc.preferredHourFrom.value <= begin else from <= begin)
    && (if doc.preferredHourTo.Some? then finish <= 3600 * doc.preferredHourTo.value else finish <= to)
    && (date.Some? && doc.periods != [] ==>
          exists p :: p in doc.periods && p.open.Some? && p.open.value.day == Some(date.value % 7)
                      && OpenDuring(p, begin, 60 * s.visitDurationMin))
  }

  /** Every step of a response visits its place as its document and the request's own day allow. */
  lemma VisitsAreKept(request: OptimizeRequest, docs: seq<PlaceDoc>, matrix: Option<Matrix>, r: OptimizeResponse, i: nat)
    returns (doc: PlaceDoc, from: int, to: int)
    requires Answers(request, docs, matrix, r) && i < |r.steps|
    ensures IsDocOf(docs, r.steps[i].placeId, doc)
    ensures IsBound(from, request.dayStartHour, request.dayStartTime) && IsBound(to, request.dayEndHour, request.dayEndTime)
    ensures VisitKept(doc, from, to, request.departureDate, r.steps[i])
  {
    hide Conserved, Totals, LegsReported, Explained;
    var s, day := r.steps[i], DayOf(request, docs);
    assert Timeline(day, r.steps, r.travelToEndS) && StepSound(day, s);
    DocMapFrom(docs);
    DocMapIsLast(docs, s.placeId);
    doc, from, to := day.docs[s.placeId], day.start, day.end;
    if request.departureDate.Some? {
      GoogleWeekdayIsExact(request.departureDate.value);
    }
  }

  // ---------------------------------------------------------------------------------------
  // The route
  // ---------------------------------------------------------------------------------------

  /** Turning around the stops `i + 1` to `j` of one route gives the other. */
  ghost predicate Turned(route: seq<Id>, other: seq<Id>, i: int, j: int) {
    && 0 <= i < j < |route| == |other|
    && forall k :: 0 <= k < |route| ==> other[k] == route[if i < k <= j then i + 1 + j - k else k]
  }

  /** No turn of two stops or more after the first, short of a pinned last one, gives a feasible route with less travel. */
  ghost predicate NoTurnHelps(p: Problem, route: seq<Id>, pinEnd: bool) {
    forall i, j, other :: 0 <= i && i + 2 <= j < (if pinEnd then |route| - 1 else |route|) && Turned(route, other, i, j) ==>
      !(Feasible(p, other) && RouteTravel(p, other) < RouteTravel(p, route))
  }

  lemma OptimalMeans(p: Problem, route: seq<Id>, pinEnd: bool)
    ensures LocallyOptimal(p, route, pinEnd) <==> NoTurnHelps(p, route, pinEnd)
  {
    hide Feasible, RouteTravel, Reverse2;
    forall i, j | 0 <= i && i + 2 <= j < |route| ensures Turned(route, Reverse2(route, i, j), i, j) {
      MoveReverses(route, i, j);
    }
    forall i, j, other | 0 <= i && i + 2 <= j < |route| && Turned(route, other, i, j) ensures other == Reverse2(route, i, j) {
      assert Turned(route, Reverse2(route, i, j), i, j);
    }
    if LocallyOptimal(p, route, pinEnd) {
      forall i, j, other | 0 <= i && i + 2 <= j < (if pinEnd then |route| - 1 else |route|) && Turned(route, other, i, j)
        ensures !(Feasible(p, other) && RouteTravel(p, other) < RouteTravel(p, route))
      {
        assert AllowedMove(route, pinEnd, i, j);
      }
    }
  }

  /** The route of the response was improved: nothing allowed improves it, or it lost 100 seconds of travel, or it is short. */
  lemma RouteIsImproved(request: OptimizeRequest, day: Day, matrix: Matrix, r: OptimizeResponse)
    returns (p: Problem, search: Search)
    requires Explained(request, day, matrix, r)
    ensures p == InstanceFor(day, Accepted(day, request.placeIds), matrix)
    ensures 0 <= search.kept < |search.attempts|
    ensures StepIds(r.steps) == Middle(search.route, request.start.Given(), request.end.Given())
    ensures var built, pinEnd := search.attempts[search.kept].route, request.end.Given();
            && Rearranged(built, search.route, pinEnd)
            && (|| NoTurnHelps(p, search.route, pinEnd)
                || RouteTravel(p, search.route) + 100 <= RouteTravel(p, built)
                || (|built| == 3 && !pinEnd && search.route == built))
  {
    hide InstanceFor, Searched, LocallyOptimal, NoTurnHelps, Improves, Rearranged, Middle;
    var coords := Accepted(day, request.placeIds);
    p := InstanceFor(day, coords, matrix);
    search :| Explains(p, day, coords, Rejected(day, request.placeIds), request.start.Given(), request.end.Given(), search, r);
    if |search.attempts[search.kept].route| < 4 {
      ShortRoutesExact(p, search.route, request.end.Given());
    }
    OptimalMeans(p, search.route, request.end.Given());
  }

  /** Without a start location no other starting place would have given the kept tier a better route. */
  ghost predicate BestStart(p: Problem, day: Day, coords: seq<Id>, endAnchor: Option<Id>, search: Search, visited: seq<Id>) {
    && 0 <= search.kept < |search.attempts|
    && var tier := search.attempts[search.kept].tier;
       tier == [] || exists runs ::
         BestOfRuns(p, coords, PrioritiesOf(day, coords), tier, endAnchor, runs, search.attempts[search.kept].route)
         && forall run :: run in runs ==> !LexLess(coords, PrioritiesOf(day, coords), visited, run)
  }

  lemma StartIsBest(request: OptimizeRequest, day: Day, matrix: Matrix, r: OptimizeResponse)
    returns (p: Problem, search: Search)
    requires Explained(request, day, matrix, r) && !request.start.Given() && |request.placeIds| <= 50
    requires START_ANCHOR !in request.placeIds && END_ANCHOR !in request.placeIds
    ensures p == InstanceFor(day, Accepted(day, request.placeIds), matrix)
    ensures StepIds(r.steps) == Middle(search.route, false, request.end.Given())
    ensures BestStart(p, day, Accepted(day, request.placeIds), EndAnchor(request.end.Given()), search, StepIds(r.steps))
  {
    hide InstanceFor, Searched, TwoOptOf, Middle, BestStart;
    var coords := Accepted(day, request.placeIds);
    AcceptedOrRejected(day, request.placeIds);
    p := InstanceFor(day, coords, matrix);
    search :| Explains(p, day, coords, Rejected(day, request.placeIds), false, request.end.Given(), search, r);
    ExplainedStart(p, day, coords, Rejected(day, request.placeIds), request.end.Given(), search, r);
  }

  lemma ExplainedStart(p: Problem, day: Day, coords: seq<Id>, rejected: seq<Id>, hasEnd: bool, search: Search,
                       r: OptimizeResponse)
    requires |coords| <= 50 && START_ANCHOR !in coords && END_ANCHOR !in coords
    requires Explains(p, day, coords, rejected, false, hasEnd, search, r)
    ensures BestStart(p, day, coords, EndAnchor(hasEnd), search, StepIds(r.steps))
  {
    hide Count, LexLess, BestOfRuns, IsAttempt, FirstBest, RouteTravel, LocallyOptimal, Improves, SelectSkipped, PrioritiesOf;
    var priorities, best := PrioritiesOf(day, coords), search.attempts[search.kept];
    KeptFacts(p, coords, priorities, false, hasEnd, search.attempts, search.kept, best);
    VisitedAreKept(p, coords, best, search.route, false, hasEnd);
    SameCounts(coords, priorities, best.route, StepIds(r.steps));
    if best.tier != [] {
      assert RanTier(p, coords, priorities, best, None, EndAnchor(hasEnd));
      var runs :| AttemptsRun(p, best.tier, EndAnchor(hasEnd), runs) && |runs| == |best.tier|
                  && FirstBest(p, runs, best.route, Some(Weights(coords, priorities)));
      RunsKeepMost(p, coords, priorities, best.tier, EndAnchor(hasEnd), runs, best.route);
      NoRunVisitsMore(p, coords, priorities, best.tier, EndAnchor(hasEnd), runs, best.route);
    }
  }

  lemma NoRunVisitsMore(p: Problem, coords: seq<Id>, priorities: map<Id, Priority>, tier: seq<Id>, endAnchor: Option<Id>,
                        runs: seq<seq<Id>>, route: seq<Id>)
    requires BestOfRuns(p, coords, priorities, tier, endAnchor, runs, route)
    ensures forall run :: run in runs ==> !LexLess(coords, priorities, route, run)
  {
    hide LexLess, IsAttempt;
  }
}
