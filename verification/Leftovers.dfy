/**
 * When the construction may leave over a place that would still fit: exact conditions on the windows,
 * visits and day bounds, that is, on everything known before the travel times are.
 */
module Leftovers {
  import opened Wrappers
  import opened Sequences
  import opened TimeWindows
  import opened Scheduling
  import opened NearestNeighbor

  function WithMatrix(p: Problem, matrix: Matrix): Problem {
    p.(matrix := matrix)
  }

  /** A visit beginning as soon as possible after `arrival` ends within the day. */
  predicate FitsFrom(p: Instance, n: Id, arrival: int) {
    p.StartAt(n, arrival).Some? && p.StartAt(n, arrival).value + p.Visit(n) <= p.dayEnd
  }

  /** The scan accepts a visit after `arrival` although it ends after the day. */
  predicate Overruns(p: Instance, n: Id, arrival: int) {
    && p.StartAt(n, arrival).Some? && p.StartAt(n, arrival).value + p.Visit(n) > p.dayEnd
    && (n !in p.windows ==> arrival <= p.dayEnd)
  }

  /** From `earliest` on, the visit fits an opening that closes after the day. */
  predicate RunsLate(p: Instance, earliest: int, n: Id) {
    if n in p.windows
    then exists g :: g in p.windows[n].segments && g.close > p.dayEnd && Max(earliest, g.open) + p.Visit(n) <= g.close
    else p.Visit(n) > 0
  }

  /** `b` may be chosen before `u` and end the construction while `u` still fits. */
  predicate MayBlock(p: Instance, earliest: int, b: Id, u: Id) {
    || (Deadline(p, b) < Deadline(p, u) && RunsLate(p, earliest, b))
    || (&& Deadline(p, b) == Deadline(p, u)
        && exists arrival :: earliest <= arrival <= p.dayEnd && Overruns(p, b, arrival) && FitsFrom(p, u, arrival))
  }

  /** `u` fits right after the start, but its deadline is beyond the sentinel or some other place may block it. */
  predicate MayBeStranded(p: Instance, earliest: int, start: Id, nodes: seq<Id>, u: Id) {
    && u in nodes && u != start && FitsFrom(p, u, earliest)
    && (Deadline(p, u) > 1_000_000_000 || exists b :: b in nodes && b != start && b != u && MayBlock(p, earliest, b, u))
  }

  /** The check a caller can make before knowing any travel time. */
  predicate MayStrand(p: Instance, start: Id, nodes: seq<Id>) {
    Feasible(p, [start]) && exists u :: u in nodes && MayBeStranded(p, Clock(p, [start]).value, start, nodes, u)
  }

  /** No run leaves over a place that could still be appended. */
  ghost predicate LeavesNothing(p: Problem, start: Id, nodes: seq<Id>) {
    forall route, u :: IsAttempt(p, start, nodes, None, route) && route != [] && u in nodes && u !in route ==>
      !Feasible(p, route + [u])
  }

  // ---------------------------------------------------------------------------------------
  // A place is left over only where the check says so
  // ---------------------------------------------------------------------------------------

  lemma {:induction false} ClockGrows(p: Problem, route: seq<Id>, k: nat)
    requires Clock(p, route).Some? && k <= |route|
    ensures Clock(p, route[..k]).Some? && Clock(p, route[..k]).value <= Clock(p, route).value
  {
    if k == |route| {
      assert route[..k] == route;
    } else {
      var last := |route| - 1;
      ClockPrefix(p, route, last);
      ClockGrows(p, route[..last], k);
      assert route[..last][..k] == route[..k];
      TimetableStep(p, route, last);
      TimetablePrefix(p, route, last);
      TimeLedger(p, route);
      ArrivalIsLater(p, route, last);
    }
  }

  lemma ArrivalIsLater(p: Problem, route: seq<Id>, last: nat)
    requires Timetable(p, route).Some? && last + 1 == |route|
    ensures |Timetable(p, route).value| == |route|
    ensures ClockAfter(p, Timetable(p, route).value[..last]) <= Timetable(p, route).value[last].arrival
  {
    TimetableStep(p, route, last);
  }

  /** Fitting from an arrival means fitting from every earlier one. */
  lemma FitsEarlier(p: Problem, n: Id, early: int, late: int)
    requires early <= late && FitsFrom(p, n, late)
    ensures FitsFrom(p, n, early)
  {
    if n in p.windows {
      EarliestStartMonotone(p.windows[n], early, late, p.Visit(n));
    }
  }

  lemma OverrunRunsLate(p: Problem, n: Id, earliest: int, arrival: int)
    requires p.dayStart <= earliest <= arrival && Overruns(p, n, arrival)
    ensures RunsLate(p, earliest, n)
  {
    StartAtFits(p, n, arrival);
  }

  /** What the clock equations say of one place appended to a feasible route. */
  lemma AppendedFits(p: Problem, route: seq<Id>, u: Id)
    requires route != [] && Clock(p, route).Some?
    ensures Feasible(p, route + [u]) <==>
            && p.Leg(route[|route| - 1], u).Some?
            && FitsFrom(p, u, Clock(p, route).value + p.Leg(route[|route| - 1], u).value)
  {
    ClockSnoc(p, route, u);
  }

  lemma FittingArrival(p: Problem, u: Id, arrival: int)
    requires FitsFrom(p, u, arrival)
    ensures arrival <= p.dayEnd < LARGE
  {
    StartAtFits(p, u, arrival);
  }

  /** A fitting place is admissible unless its deadline lies beyond the sentinel. */
  lemma FittingIsAdmissible(p: Problem, route: seq<Id>, u: Id)
    requires route != [] && Clock(p, route).Some? && Feasible(p, route + [u]) && Deadline(p, u) <= LARGE
    ensures Admissible(p, route, u, None)
  {
    AppendedFits(p, route, u);
    ClockAtLeastDayStart(p, route);
    FittingArrival(p, u, Clock(p, route).value + p.Leg(route[|route| - 1], u).value);
  }

  lemma ChoiceOverruns(p: Problem, route: seq<Id>, pool: set<Id>, b: Id)
    requires route != [] && Clock(p, route).Some?
    requires EdfChoice(p, route, pool, b, None) && !Feasible(p, route + [b])
    ensures p.Leg(route[|route| - 1], b).Some?
    ensures Overruns(p, b, Clock(p, route).value + p.Leg(route[|route| - 1], b).value)
  {
    AppendedFits(p, route, b);
  }

  /** The place that ended the construction may block the one left over. */
  lemma ChoiceBlocks(p: Problem, route: seq<Id>, pool: set<Id>, b: Id, u: Id, earliest: int)
    requires route != [] && Clock(p, route).Some? && p.dayStart <= earliest <= Clock(p, route).value
    requires EdfChoice(p, route, pool, b, None) && !Feasible(p, route + [b])
    requires u in pool && Feasible(p, route + [u]) && Deadline(p, u) <= LARGE
    ensures MayBlock(p, earliest, b, u)
  {
    FittingIsAdmissible(p, route, u);
    ChoiceOverruns(p, route, pool, b);
    AppendedFits(p, route, u);
    hide Admissible, Timetable;
    var clock := Clock(p, route).value;
    var toB, toU := clock + p.Leg(route[|route| - 1], b).value, clock + p.Leg(route[|route| - 1], u).value;
    assert NoLater(p, route, b, u);
    OverrunRunsLate(p, b, earliest, toB);
    if Deadline(p, b) == Deadline(p, u) {
      FitsEarlier(p, u, toB, toU);
      FittingArrival(p, u, toU);
      assert Overruns(p, b, toB) && FitsFrom(p, u, toB);
    }
  }

  lemma LeftOverIsForeseen(p: Problem, start: Id, nodes: seq<Id>, route: seq<Id>, u: Id)
    requires IsAttempt(p, start, nodes, None, route) && route != []
    requires u in nodes && u !in route && Feasible(p, route + [u])
    ensures MayStrand(p, start, nodes)
  {
    hide EdfChoice, Admissible, Timetable, MayBlock;
    assert Core(route, None) == route && route[..1] == [start];
    PrefixFeasible(p, route, 1);
    ClockGrows(p, route, 1);
    ClockAtLeastDayStart(p, [start]);
    var earliest := Clock(p, [start]).value;
    AppendedFits(p, route, u);
    FitsEarlier(p, u, earliest, Clock(p, route).value + p.Leg(route[|route| - 1], u).value);
    if Deadline(p, u) <= LARGE {
      FittingIsAdmissible(p, route, u);
      assert u in Pool(nodes, route);
      var b :| EdfChoice(p, route, Pool(nodes, route), b, None) && !Feasible(p, route + [b]);
      ChosenFromPool(p, route, Pool(nodes, route), b, None);
      ChoiceBlocks(p, route, Pool(nodes, route), b, u, earliest);
      assert b in nodes && b != start && b != u;
    }
    assert MayBeStranded(p, earliest, start, nodes, u);
  }

  // ---------------------------------------------------------------------------------------
  // Wherever the check says so, some travel times do leave the place over
  // ---------------------------------------------------------------------------------------

  /** The check reads no travel time. */
  lemma CheckIgnoresMatrix(p: Problem, matrix: Matrix, start: Id, nodes: seq<Id>)
    ensures Clock(WithMatrix(p, matrix), [start]) == Clock(p, [start])
    ensures MayStrand(WithMatrix(p, matrix), start, nodes) <==> MayStrand(p, start, nodes)
  {
    var q := WithMatrix(p, matrix);
    StartAlone(p, start);
    StartAlone(q, start);
    hide Clock;
    SameArrivals(p, matrix);
    forall earliest, b, u ensures MayBlock(q, earliest, b, u) == MayBlock(p, earliest, b, u) {
      SameBlocking(p, matrix, earliest, b, u);
    }
    hide MayBlock;
    if Clock(p, [start]).Some? {
      forall u
        ensures MayBeStranded(q, Clock(p, [start]).value, start, nodes, u) ==
                MayBeStranded(p, Clock(p, [start]).value, start, nodes, u)
      {
      }
    }
  }

  lemma SameArrivals(p: Problem, matrix: Matrix)
    ensures forall n, arrival :: FitsFrom(WithMatrix(p, matrix), n, arrival) == FitsFrom(p, n, arrival)
    ensures forall n, arrival :: Overruns(WithMatrix(p, matrix), n, arrival) == Overruns(p, n, arrival)
    ensures forall n :: Deadline(WithMatrix(p, matrix), n) == Deadline(p, n)
    ensures WithMatrix(p, matrix).matrix == matrix && WithMatrix(p, matrix).dayEnd == p.dayEnd
  {
  }

  lemma SameBlocking(p: Problem, matrix: Matrix, earliest: int, b: Id, u: Id)
    ensures MayBlock(WithMatrix(p, matrix), earliest, b, u) == MayBlock(p, earliest, b, u)
  {
    SameArrivals(p, matrix);
    hide FitsFrom, Overruns;
  }

  /** A late opening can be reached so late that the visit overruns, soon after the end of the day at most. */
  lemma LateArrival(p: Problem, n: Id, earliest: int) returns (arrival: int)
    requires RunsLate(p, earliest, n) && earliest <= p.dayEnd
    requires p.dayStart <= earliest
    ensures earliest <= arrival <= p.dayEnd + 1 && Overruns(p, n, arrival)
  {
    if n in p.windows {
      var g :| g in p.windows[n].segments && g.close > p.dayEnd && Max(earliest, g.open) + p.Visit(n) <= g.close;
      var latest := g.close - p.Visit(n);
      arrival := if latest <= p.dayEnd then latest else p.dayEnd + 1;
      var start := Max(arrival, g.open);
      assert p.windows[n].Fits(start, p.Visit(n));
      EarliestStartIsMinimum(p.windows[n], arrival, p.Visit(n));
    } else {
      arrival := p.dayEnd;
    }
  }

  /** Travel times with which `b` ends the construction at the start although `u` would still fit. */
  lemma BlockingTravel(p: Problem, earliest: int, start: Id, b: Id, u: Id) returns (matrix: Matrix)
    requires Feasible(p, [start]) && earliest == Clock(p, [start]).value
    requires start != b && start != u && b != u
    requires FitsFrom(p, u, earliest) && MayBlock(p, earliest, b, u) && Deadline(p, u) <= LARGE
    ensures matrix.Keys == {(start, b), (start, u)}
    ensures Overruns(p, b, earliest + matrix[(start, b)]) && FitsFrom(p, u, earliest + matrix[(start, u)])
    ensures matrix[(start, b)] < LARGE && matrix[(start, u)] < LARGE
    ensures Deadline(p, b) < Deadline(p, u)
         || (Deadline(p, b) == Deadline(p, u) && matrix[(start, b)] <= matrix[(start, u)])
  {
    hide FitsFrom, Overruns, RunsLate;
    ClockAtLeastDayStart(p, [start]);
    if Deadline(p, b) < Deadline(p, u) {
      var arrival := LateArrival(p, b, earliest);
      matrix := map[(start, b) := arrival - earliest, (start, u) := 0];
    } else {
      var arrival :| earliest <= arrival <= p.dayEnd && Overruns(p, b, arrival) && FitsFrom(p, u, arrival);
      matrix := map[(start, b) := arrival - earliest, (start, u) := arrival - earliest];
    }
  }

  /** A run from the start that only knows legs to `b` and `u` stops there, because `b` overruns. */
  lemma BlockedAtStart(q: Problem, start: Id, nodes: seq<Id>, b: Id, u: Id)
    requires Feasible(q, [start]) && start != b && start != u && b != u && b in nodes && u in nodes
    requires q.matrix.Keys == {(start, b), (start, u)}
    requires var earliest := Clock(q, [start]).value;
             && Overruns(q, b, earliest + q.matrix[(start, b)]) && FitsFrom(q, u, earliest + q.matrix[(start, u)])
    requires q.matrix[(start, b)] < LARGE && q.matrix[(start, u)] < LARGE && Deadline(q, u) <= LARGE
    requires Deadline(q, b) < Deadline(q, u)
          || (Deadline(q, b) == Deadline(q, u) && q.matrix[(start, b)] <= q.matrix[(start, u)])
    ensures IsAttempt(q, start, nodes, None, [start]) && Feasible(q, [start] + [u])
  {
    hide Clock, Timetable;
    var core := [start];
    AppendedFits(q, core, b);
    AppendedFits(q, core, u);
    assert Core(core, None) == core;
    assert EdfChoice(q, core, Pool(nodes, core), b, None);
    assert Exhausted(q, nodes, core, None);
  }

  /** A run that only knows a leg to a place beyond the sentinel stops at its start. */
  lemma UnseenAtStart(q: Problem, start: Id, nodes: seq<Id>, u: Id)
    requires Feasible(q, [start]) && start != u && u in nodes && q.matrix == map[(start, u) := 0]
    requires FitsFrom(q, u, Clock(q, [start]).value) && Deadline(q, u) > LARGE
    ensures IsAttempt(q, start, nodes, None, [start]) && Feasible(q, [start] + [u])
  {
    hide Clock, Timetable;
    AppendedFits(q, [start], u);
    assert Core([start], None) == [start];
    assert Exhausted(q, nodes, [start], None);
  }

  lemma StrandingTravel(p: Problem, start: Id, nodes: seq<Id>) returns (matrix: Matrix)
    requires MayStrand(p, start, nodes)
    ensures !LeavesNothing(WithMatrix(p, matrix), start, nodes)
  {
    hide Clock, IsAttempt, MayBlock, FitsFrom, Overruns, Deadline;
    assert Feasible(p, [start]);
    var earliest := Clock(p, [start]).value;
    var u :| u in nodes && MayBeStranded(p, earliest, start, nodes, u);
    if Deadline(p, u) > LARGE {
      matrix := map[(start, u) := 0];
      CheckIgnoresMatrix(p, matrix, start, nodes);
      SameArrivals(p, matrix);
      UnseenAtStart(WithMatrix(p, matrix), start, nodes, u);
    } else {
      var b :| b in nodes && b != start && b != u && MayBlock(p, earliest, b, u);
      matrix := BlockingTravel(p, earliest, start, b, u);
      CheckIgnoresMatrix(p, matrix, start, nodes);
      SameArrivals(p, matrix);
      BlockedAtStart(WithMatrix(p, matrix), start, nodes, b, u);
    }
    assert u !in [start];
  }

  /**
   * Without an end anchor: whatever the travel times, no run from `start` leaves over a place that still
   * fits, exactly when the check on windows, visits and day bounds rules it out.
   */
  lemma StrandingIsExact(p: Problem, start: Id, nodes: seq<Id>)
    ensures (forall matrix: Matrix :: LeavesNothing(WithMatrix(p, matrix), start, nodes)) <==> !MayStrand(p, start, nodes)
  {
    if MayStrand(p, start, nodes) {
      var matrix := StrandingTravel(p, start, nodes);
    } else {
      forall matrix: Matrix ensures LeavesNothing(WithMatrix(p, matrix), start, nodes) {
        var q := WithMatrix(p, matrix);
        CheckIgnoresMatrix(p, matrix, start, nodes);
        forall route, u | IsAttempt(q, start, nodes, None, route) && route != [] && u in nodes && u !in route
          ensures !Feasible(q, route + [u])
        {
          if Feasible(q, route + [u]) {
            LeftOverIsForeseen(q, start, nodes, route, u);
          }
        }
      }
    }
  }

  /** Every place has a window, and no opening of any of them runs past the end of the day. */
  predicate ClosesInDay(p: Instance, nodes: seq<Id>) {
    forall n :: n in nodes ==> n in p.windows && forall g :: g in p.windows[n].segments ==> g.close <= p.dayEnd
  }

  /** In particular nothing that fits is left over when no window runs past the end of the day. */
  lemma {:induction false} NothingLeftFitsInDay(p: Problem, start: Id, nodes: seq<Id>, route: seq<Id>)
    requires ClosesInDay(p, nodes)
    requires IsAttempt(p, start, nodes, None, route) && route != []
    ensures forall u :: u in nodes && u !in route ==> !Feasible(p, route + [u])
  {
    if u :| u in nodes && u !in route && Feasible(p, route + [u]) {
      LeftOverIsForeseen(p, start, nodes, route, u);
      hide IsAttempt, Timetable;
      ClosedInDayStrandsNothing(p, start, nodes);
    }
  }

  lemma ClosedInDayStrandsNothing(p: Problem, start: Id, nodes: seq<Id>)
    requires ClosesInDay(p, nodes)
    ensures !MayStrand(p, start, nodes)
  {
    hide Clock;
    forall n, earliest | n in nodes
      ensures Deadline(p, n) <= LARGE && !RunsLate(p, earliest, n) && !Overruns(p, n, earliest)
    {
      assert p.windows[n].segments[|p.windows[n].segments| - 1] in p.windows[n].segments;
      if p.StartAt(n, earliest).Some? {
        StartAtFits(p, n, earliest);
      }
    }
  }

  // ---------------------------------------------------------------------------------------
  // With an end anchor
  // ---------------------------------------------------------------------------------------

  /** No run leaves over a place that could still be visited before the anchor. */
  ghost predicate LeavesNothingBefore(p: Problem, start: Id, nodes: seq<Id>, anchor: Id) {
    forall route, u :: IsAttempt(p, start, nodes, Some(anchor), route) && route != [] && u in nodes && u !in route ==>
      !Feasible(p, route[..|route| - 1] + [u, anchor])
  }

  /** Some place fits right after the start but its deadline lies beyond the sentinel. */
  predicate MayOverlook(p: Instance, start: Id, nodes: seq<Id>) {
    && Feasible(p, [start])
    && exists u :: u in nodes && u != start && Deadline(p, u) > 1_000_000_000 && FitsFrom(p, u, Clock(p, [start]).value)
  }

  lemma OverlookedIsForeseen(p: Problem, start: Id, nodes: seq<Id>, anchor: Id, route: seq<Id>, u: Id)
    requires AnchorApart(p, start, nodes, Some(anchor))
    requires IsAttempt(p, start, nodes, Some(anchor), route) && route != []
    requires u in nodes && u !in route && Feasible(p, route[..|route| - 1] + [u, anchor])
    ensures MayOverlook(p, start, nodes)
  {
    hide EdfChoice, Admissible, Timetable;
    NothingLeftFits(p, start, nodes, anchor, route);
    var core := route[..|route| - 1];
    assert core == Core(route, Some(anchor)) && core[..1] == [start];
    assert (core + [u, anchor])[..|core| + 1] == core + [u];
    PrefixFeasible(p, core + [u, anchor], |core| + 1);
    PrefixFeasible(p, core, 1);
    ClockGrows(p, core, 1);
    AppendedFits(p, core, u);
    FitsEarlier(p, u, Clock(p, [start]).value, Clock(p, core).value + p.Leg(core[|core| - 1], u).value);
  }

  /** Travel times with which the run goes from the start straight to the anchor, past a place that fits. */
  lemma OverlookingTravel(p: Problem, start: Id, nodes: seq<Id>, anchor: Id) returns (matrix: Matrix)
    requires AnchorApart(p, start, nodes, Some(anchor)) && MayOverlook(p, start, nodes)
    ensures !LeavesNothingBefore(WithMatrix(p, matrix), start, nodes, anchor)
  {
    hide Timetable;
    var u :| u in nodes && u != start && Deadline(p, u) > LARGE && FitsFrom(p, u, Clock(p, [start]).value);
    matrix := map[(start, u) := 0, (u, anchor) := 0, (start, anchor) := 0];
    CheckIgnoresMatrix(p, matrix, start, nodes);
    hide Clock;
    OverlookedAtStart(WithMatrix(p, matrix), start, nodes, anchor, u);
    assert [start, anchor][..1] == [start] && u !in [start, anchor];
  }

  lemma OverlookedAtStart(q: Problem, start: Id, nodes: seq<Id>, anchor: Id, u: Id)
    requires AnchorApart(q, start, nodes, Some(anchor)) && Feasible(q, [start])
    requires start != u && u in nodes && Deadline(q, u) > LARGE && FitsFrom(q, u, Clock(q, [start]).value)
    requires q.matrix == map[(start, u) := 0, (u, anchor) := 0, (start, anchor) := 0]
    ensures IsAttempt(q, start, nodes, Some(anchor), [start, anchor])
    ensures Feasible(q, [start] + [u, anchor])
  {
    hide Clock, Timetable;
    AnchorIsFeasible(q, [start], anchor);
    AppendedFits(q, [start], u);
    AnchorIsFeasible(q, [start] + [u], anchor);
    AppendedClock(q, [start], u);
    assert [start] + [anchor] == [start, anchor] && [start] + [u] + [anchor] == [start] + [u, anchor];
    assert Core([start, anchor], Some(anchor)) == [start];
    assert Exhausted(q, nodes, [start], Some(anchor));
  }

  lemma AppendedClock(p: Problem, route: seq<Id>, u: Id)
    requires route != [] && Feasible(p, route + [u]) && Clock(p, route).Some?
    ensures Clock(p, route + [u]).Some? && Clock(p, route + [u]).value <= p.dayEnd
  {
  }

  /**
   * With an end anchor the lookahead leaves only the sentinel: whatever the travel times, no run leaves over
   * a place that still fits before the anchor, exactly when no fitting place has a deadline beyond it.
   */
  lemma OverlookingIsExact(p: Problem, start: Id, nodes: seq<Id>, anchor: Id)
    requires AnchorApart(p, start, nodes, Some(anchor))
    ensures (forall matrix: Matrix :: LeavesNothingBefore(WithMatrix(p, matrix), start, nodes, anchor))
            <==> !MayOverlook(p, start, nodes)
  {
    if MayOverlook(p, start, nodes) {
      var matrix := OverlookingTravel(p, start, nodes, anchor);
    } else {
      forall matrix: Matrix ensures LeavesNothingBefore(WithMatrix(p, matrix), start, nodes, anchor) {
        var q := WithMatrix(p, matrix);
        CheckIgnoresMatrix(p, matrix, start, nodes);
        forall route, u | IsAttempt(q, start, nodes, Some(anchor), route) && route != [] && u in nodes && u !in route
          ensures !Feasible(q, route[..|route| - 1] + [u, anchor])
        {
          if Feasible(q, route[..|route| - 1] + [u, anchor]) {
            OverlookedIsForeseen(q, start, nodes, anchor, route, u);
            OverlookIgnoresMatrix(p, matrix, start, nodes);
          }
        }
      }
    }
  }

  lemma OverlookIgnoresMatrix(p: Problem, matrix: Matrix, start: Id, nodes: seq<Id>)
    ensures MayOverlook(WithMatrix(p, matrix), start, nodes) <==> MayOverlook(p, start, nodes)
  {
    CheckIgnoresMatrix(p, matrix, start, nodes);
    hide Clock;
    SameArrivals(p, matrix);
  }
}
