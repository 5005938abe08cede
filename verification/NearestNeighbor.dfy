/**
 * Route construction: nearest neighbour with earliest-deadline-first choice and, when the day
 * must end at an anchor, a lookahead that never strands the route.
 */
module NearestNeighbor {
  import opened Wrappers
  import opened Sequences
  import opened TimeWindows
  import opened Scheduling

  /** The route without its forced final stop. */
  function Core(route: seq<Id>, endAnchor: Option<Id>): seq<Id> {
    if endAnchor.Some? && route != [] then route[..|route| - 1] else route
  }

  /** `c` can follow `core`: it can be reached and visited, and the end anchor stays reachable in time. */
  predicate Admissible(p: Instance, core: seq<Id>, c: Id, endAnchor: Option<Id>) {
    && core != [] && Clock(p, core).Some?
    && p.Leg(core[|core| - 1], c).Some?
    && var arrival := Clock(p, core).value + p.Leg(core[|core| - 1], c).value;
       var start := p.StartAt(c, arrival);
       && start.Some?
       && (c !in p.windows ==> arrival <= p.dayEnd)
       && (endAnchor.Some? ==>
             && p.Leg(c, endAnchor.value).Some?
             && start.value + p.Visit(c) + p.Leg(c, endAnchor.value).value <= p.dayEnd)
       && BeatsSentinel(p, core, c)
  }

  function Deadline(p: Instance, c: Id): int {
    if c in p.windows && p.windows[c].segments != [] then p.windows[c].CloseS() else p.dayEnd
  }

  /** The scan starts from the sentinel, so it sees only deadlines below it, or at it with less travel. */
  predicate BeatsSentinel(p: Instance, core: seq<Id>, c: Id)
    requires core != [] && p.Leg(core[|core| - 1], c).Some?
  {
    Deadline(p, c) < LARGE || (Deadline(p, c) == LARGE && p.Leg(core[|core| - 1], c).value < LARGE)
  }

  /** `c` closes before `d`, or they close together and `c` is at most as far from the end of `core`. */
  predicate NoLater(p: Problem, core: seq<Id>, c: Id, d: Id)
    requires core != []
    requires p.Leg(core[|core| - 1], c).Some? && p.Leg(core[|core| - 1], d).Some?
  {
    || Deadline(p, c) < Deadline(p, d)
    || (&& Deadline(p, c) == Deadline(p, d)
        && p.Leg(core[|core| - 1], c).value <= p.Leg(core[|core| - 1], d).value)
  }

  /** Earliest deadline first: `c` is admissible and no admissible node of the pool comes before it. */
  ghost predicate EdfChoice(p: Problem, core: seq<Id>, pool: set<Id>, c: Id, endAnchor: Option<Id>)
  {
    && c in pool && Admissible(p, core, c, endAnchor)
    && forall d :: d in pool && Admissible(p, core, d, endAnchor) ==> NoLater(p, core, c, d)
  }

  lemma ChosenFromPool(p: Problem, core: seq<Id>, pool: set<Id>, b: Id, endAnchor: Option<Id>)
    requires EdfChoice(p, core, pool, b, endAnchor)
    ensures b in pool
  {
  }

  function Pool(nodes: seq<Id>, core: seq<Id>): set<Id> {
    Elements(nodes) - Elements(core)
  }

  /** Every stop after the first was an earliest-deadline choice among the nodes left at that point. */
  ghost predicate Greedy(p: Problem, start: Id, nodes: seq<Id>, core: seq<Id>, endAnchor: Option<Id>)
  {
    && core != [] && core[0] == start && Feasible(p, core)
    && forall k :: 1 <= k < |core| ==> EdfChoice(p, core[..k], Pool(nodes, core[..k]), core[k], endAnchor)
  }

  lemma GreedyChoice(p: Problem, start: Id, nodes: seq<Id>, core: seq<Id>, endAnchor: Option<Id>, k: nat)
    requires Greedy(p, start, nodes, core, endAnchor) && 1 <= k < |core|
    ensures EdfChoice(p, core[..k], Pool(nodes, core[..k]), core[k], endAnchor)
  {
  }

  /** Construction stops when nothing is admissible, or when the node chosen next would end after the day. */
  ghost predicate Exhausted(p: Problem, nodes: seq<Id>, core: seq<Id>, endAnchor: Option<Id>)
  {
    || (forall c :: c in Pool(nodes, core) ==> !Admissible(p, core, c, endAnchor))
    || (&& endAnchor.None?
        && exists b :: EdfChoice(p, core, Pool(nodes, core), b, endAnchor) && !Feasible(p, core + [b]))
  }

  /** What one construction run from `start` may return. */
  ghost predicate IsAttempt(p: Problem, start: Id, nodes: seq<Id>, endAnchor: Option<Id>, route: seq<Id>)
  {
    if route == [] then
      || !Feasible(p, [start])
      || (&& endAnchor.Some? && !Feasible(p, [start, endAnchor.value])
          && forall c :: c in Pool(nodes, [start]) ==> !Admissible(p, [start], c, endAnchor))
    else
      && (endAnchor.Some? ==> route[|route| - 1] == endAnchor.value)
      && Feasible(p, route)
      && Greedy(p, start, nodes, Core(route, endAnchor), endAnchor)
      && Exhausted(p, nodes, Core(route, endAnchor), endAnchor)
  }

  /** The forced final stop is no place of the request and not the start. */
  predicate AnchorApart(p: Instance, start: Id, nodes: seq<Id>, endAnchor: Option<Id>) {
    endAnchor.Some? ==> p.IsAnchor(endAnchor.value) && endAnchor.value !in nodes && endAnchor.value != start
  }

  lemma {:induction false} GreedyVisitsNodes(p: Problem, start: Id, nodes: seq<Id>, core: seq<Id>, endAnchor: Option<Id>)
    requires Greedy(p, start, nodes, core, endAnchor)
    ensures Distinct(core)
    ensures forall n :: n in core ==> n == start || n in nodes
  {
    forall i, j | 0 <= i < j < |core| ensures core[i] != core[j] {
      assert EdfChoice(p, core[..j], Pool(nodes, core[..j]), core[j], endAnchor);
      assert core[i] in core[..j];
    }
    forall n | n in core ensures n == start || n in nodes {
      var k :| 0 <= k < |core| && core[k] == n;
      if k > 0 {
        assert EdfChoice(p, core[..k], Pool(nodes, core[..k]), core[k], endAnchor);
      }
    }
  }

  lemma ClockAtLeastDayStart(p: Problem, route: seq<Id>)
    requires Clock(p, route).Some?
    ensures p.dayStart <= Clock(p, route).value
  {
    TimeLedger(p, route);
  }

  /** Appending the end anchor to a scheduled order only costs the leg to it. */
  lemma AnchorIsFeasible(p: Problem, core: seq<Id>, anchor: Id)
    requires p.IsAnchor(anchor) && core != [] && Clock(p, core).Some?
    ensures Feasible(p, core + [anchor]) <==>
            && p.Leg(core[|core| - 1], anchor).Some?
            && Clock(p, core).value + p.Leg(core[|core| - 1], anchor).value <= p.dayEnd
  {
    ClockSnoc(p, core, anchor);
    ClockAtLeastDayStart(p, core);
  }

  /** With an end anchor the candidate test is the feasibility test, for every place whose deadline the scan sees. */
  lemma LookaheadIsExact(p: Problem, core: seq<Id>, c: Id, anchor: Id)
    requires p.IsAnchor(anchor) && core != [] && Clock(p, core).Some?
    ensures Admissible(p, core, c, Some(anchor)) <==> Feasible(p, core + [c, anchor]) && Deadline(p, c) <= 1_000_000_000
  {
    ClockSnoc(p, core, c);
    ClockAtLeastDayStart(p, core);
    var longer := core + [c, anchor];
    assert longer == core + [c] + [anchor];
    assert longer[..|core| + 1] == core + [c];
    if Clock(p, longer).Some? {
      ClockPrefix(p, longer, |core| + 1);
    }
    if Clock(p, core + [c]).Some? {
      AnchorIsFeasible(p, core + [c], anchor);
      var arrival := Clock(p, core).value + p.Leg(core[|core| - 1], c).value;
      StartAtFits(p, c, arrival);
    }
  }

  /**
   * What a run that returns a route leaves over: a place that would still fit before the anchor is left
   * exactly when its deadline lies beyond the sentinel, where the scan never sees it.
   */
  lemma NothingLeftFits(p: Problem, start: Id, nodes: seq<Id>, anchor: Id, route: seq<Id>)
    requires AnchorApart(p, start, nodes, Some(anchor))
    requires IsAttempt(p, start, nodes, Some(anchor), route) && route != []
    ensures route[0] == start && route[|route| - 1] == anchor
    ensures forall u :: u in nodes && u != start && Feasible(p, route[..|route| - 1] + [u, anchor]) ==>
              (u !in route <==> Deadline(p, u) > 1_000_000_000)
  {
    hide EdfChoice, Timetable;
    var core := route[..|route| - 1];
    assert core == Core(route, Some(anchor));
    assert Greedy(p, start, nodes, core, Some(anchor));
    forall u | u in nodes && u != start && Feasible(p, core + [u, anchor])
      ensures u !in route <==> Deadline(p, u) > LARGE
    {
      if u !in route {
        assert u in Pool(nodes, core);
        LookaheadIsExact(p, core, u, anchor);
      } else {
        assert u in core;
        ChosenIsSeen(p, start, nodes, core, Some(anchor), u);
      }
    }
  }

  /** Every stop after the first has a deadline that the scan sees. */
  lemma ChosenIsSeen(p: Problem, start: Id, nodes: seq<Id>, core: seq<Id>, endAnchor: Option<Id>, n: Id)
    requires Greedy(p, start, nodes, core, endAnchor) && n in core && n != start
    ensures Deadline(p, n) <= LARGE
  {
    var k :| 0 <= k < |core| && core[k] == n;
    assert EdfChoice(p, core[..k], Pool(nodes, core[..k]), core[k], endAnchor);
  }

  /**
   * A run fails exactly when the start cannot be visited, or neither the anchor alone nor any
   * single place the scan sees can be visited before it in time: once one stop has been added it cannot fail.
   */
  lemma {:induction false} FailureIsExact(p: Problem, start: Id, nodes: seq<Id>, anchor: Id, route: seq<Id>)
    requires AnchorApart(p, start, nodes, Some(anchor))
    requires IsAttempt(p, start, nodes, Some(anchor), route)
    ensures route == [] <==>
              || !Feasible(p, [start])
              || (&& !Feasible(p, [start, anchor])
                  && forall u :: u in nodes && u != start && Deadline(p, u) <= 1_000_000_000 ==> !Feasible(p, [start, u, anchor]))
  {
    hide NoLater, Timetable;
    if Feasible(p, [start]) {
      forall u
        ensures Admissible(p, [start], u, Some(anchor)) <==> Feasible(p, [start, u, anchor]) && Deadline(p, u) <= LARGE
      {
        LookaheadIsExact(p, [start], u, anchor);
        assert [start] + [u, anchor] == [start, u, anchor];
      }
    }
    if route != [] {
      var core := route[..|route| - 1];
      FirstStopFeasible(p, core);
      assert core[..1] == [start];
      if |core| == 1 {
        assert route == [start, anchor];
      } else {
        assert EdfChoice(p, core[..1], Pool(nodes, core[..1]), core[1], Some(anchor));
      }
    }
  }

  lemma FirstStopFeasible(p: Problem, core: seq<Id>)
    requires Feasible(p, core)
    ensures Feasible(p, core[..1])
  {
    PrefixFeasible(p, core, 1);
  }

  /** Every non-empty prefix of a feasible order is feasible. */
  lemma {:induction false} PrefixFeasible(p: Problem, route: seq<Id>, k: nat)
    requires Feasible(p, route) && 1 <= k <= |route|
    ensures Feasible(p, route[..k])
    decreases |route|
  {
    if k == |route| {
      assert route[..k] == route;
    } else {
      var last := |route| - 1;
      TimetableStep(p, route, last);
      TimetablePrefix(p, route, last);
      TimeLedger(p, route);
      assert route[..last][..k] == route[..k];
      PrefixFeasible(p, route[..last], k);
    }
  }

  /** What the scan knows after some nodes: the best of them and its two sort keys, or the sentinels. */
  ghost predicate Scanned(p: Problem, core: seq<Id>, seen: set<Id>, endAnchor: Option<Id>, best: Option<Id>,
                          bestClose: int, bestTravel: int)
    requires core != []
  {
    match best
    case None =>
      bestClose == LARGE && bestTravel == LARGE && forall c :: c in seen ==> !Admissible(p, core, c, endAnchor)
    case Some(b) =>
      bestClose == Deadline(p, b) && p.Leg(core[|core| - 1], b) == Some(bestTravel) && EdfChoice(p, core, seen, b, endAnchor)
  }

  /** A candidate that fails a test of the scan, or does not beat the best, changes nothing. */
  lemma ScanPasses(p: Problem, core: seq<Id>, seen: set<Id>, endAnchor: Option<Id>, best: Option<Id>, bestClose: int,
                   bestTravel: int, c: Id)
    requires core != [] && Scanned(p, core, seen, endAnchor, best, bestClose, bestTravel)
    requires Admissible(p, core, c, endAnchor) ==>
               var travel := p.Leg(core[|core| - 1], c).value;
               !(Deadline(p, c) < bestClose || (Deadline(p, c) == bestClose && travel < bestTravel))
    ensures Scanned(p, core, seen + {c}, endAnchor, best, bestClose, bestTravel)
  {
    hide Clock;
  }

  /** An admissible candidate that beats the best takes its place. */
  lemma ScanTakes(p: Problem, core: seq<Id>, seen: set<Id>, endAnchor: Option<Id>, best: Option<Id>, bestClose: int,
                  bestTravel: int, c: Id)
    requires core != [] && Scanned(p, core, seen, endAnchor, best, bestClose, bestTravel)
    requires Admissible(p, core, c, endAnchor)
    requires var travel := p.Leg(core[|core| - 1], c).value;
             Deadline(p, c) < bestClose || (Deadline(p, c) == bestClose && travel < bestTravel)
    ensures Scanned(p, core, seen + {c}, endAnchor, Some(c), Deadline(p, c), p.Leg(core[|core| - 1], c).value)
  {
    hide Clock;
  }

  /** The tests of the scan, short of the comparison with the best so far. */
  predicate PassesTests(p: Problem, core: seq<Id>, c: Id, endAnchor: Option<Id>, arrival: int)
  {
    && p.StartAt(c, arrival).Some? && (c !in p.windows ==> arrival <= p.dayEnd)
    && (endAnchor.Some? ==>
          && p.Leg(c, endAnchor.value).Some?
          && p.StartAt(c, arrival).value + p.Visit(c) + p.Leg(c, endAnchor.value).value <= p.dayEnd)
  }

  /** Together with beating the best so far, the tests are admissibility. */
  lemma TestsAreAdmissibility(p: Problem, core: seq<Id>, c: Id, endAnchor: Option<Id>, arrival: int, seen: set<Id>,
                              best: Option<Id>, bestClose: int, bestTravel: int)
    requires core != [] && Clock(p, core).Some? && p.Leg(core[|core| - 1], c).Some?
    requires arrival == Clock(p, core).value + p.Leg(core[|core| - 1], c).value
    requires Scanned(p, core, seen, endAnchor, best, bestClose, bestTravel)
    ensures Admissible(p, core, c, endAnchor) <==> PassesTests(p, core, c, endAnchor, arrival) && BeatsSentinel(p, core, c)
    ensures (var travel := p.Leg(core[|core| - 1], c).value;
             Deadline(p, c) < bestClose || (Deadline(p, c) == bestClose && travel < bestTravel)) ==> BeatsSentinel(p, core, c)
  {
    hide Clock;
  }

  /** One round of the construction loop: scan the unvisited nodes for the earliest deadline. */
  method ChooseNext(p: Problem, core: seq<Id>, current: int, unvisited: set<Id>, endAnchor: Option<Id>)
    returns (best: Option<Id>, bestTravel: int)
    requires core != [] && Clock(p, core) == Some(current)
    ensures best.Some? ==> EdfChoice(p, core, unvisited, best.value, endAnchor)
    ensures best.Some? ==> p.Leg(core[|core| - 1], best.value) == Some(bestTravel)
    ensures best.None? ==> forall c :: c in unvisited ==> !Admissible(p, core, c, endAnchor)
  {
    best := None;
    var bestClose := LARGE;
    bestTravel := LARGE;
    var rest := unvisited;
    while rest != {}
      invariant rest <= unvisited
      invariant Scanned(p, core, unvisited - rest, endAnchor, best, bestClose, bestTravel)
      decreases rest
    {
      hide Scanned, Clock, Admissible, BeatsSentinel;
      var candidate :| candidate in rest;
      ghost var seen := unvisited - rest;
      rest := rest - {candidate};
      assert unvisited - rest == seen + {candidate};
      var entry := p.Leg(core[|core| - 1], candidate);
      if entry.None? {
        NoLegNotAdmissible(p, core, candidate, endAnchor);
        ScanPasses(p, core, seen, endAnchor, best, bestClose, bestTravel, candidate);
        continue;
      }
      var travel := entry.value;
      var arrival := current + travel;
      TestsAreAdmissibility(p, core, candidate, endAnchor, arrival, seen, best, bestClose, bestTravel);
      var start := p.StartAt(candidate, arrival);
      var closeS;
      if candidate in p.windows {
        if start.None? {
          ScanPasses(p, core, seen, endAnchor, best, bestClose, bestTravel, candidate);
          continue;
        }
        closeS := p.windows[candidate].CloseS();
      } else {
        if arrival > p.dayEnd {
          ScanPasses(p, core, seen, endAnchor, best, bestClose, bestTravel, candidate);
          continue;
        }
        closeS := p.dayEnd;
      }
      if endAnchor.Some? {
        var endEntry := p.Leg(candidate, endAnchor.value);
        if endEntry.None? || start.value + p.Visit(candidate) + endEntry.value > p.dayEnd {
          ScanPasses(p, core, seen, endAnchor, best, bestClose, bestTravel, candidate);
          continue;
        }
      }
      if closeS < bestClose || (closeS == bestClose && travel < bestTravel) {
        ScanTakes(p, core, seen, endAnchor, best, bestClose, bestTravel, candidate);
        bestClose := closeS;
        bestTravel := travel;
        best := Some(candidate);
      } else {
        ScanPasses(p, core, seen, endAnchor, best, bestClose, bestTravel, candidate);
      }
    }
    assert unvisited - rest == unvisited;
  }

  lemma NoLegNotAdmissible(p: Problem, core: seq<Id>, c: Id, endAnchor: Option<Id>)
    requires core != [] && p.Leg(core[|core| - 1], c).None?
    ensures !Admissible(p, core, c, endAnchor)
  {
  }

  /** How the nodes of a run are split between the route and the skipped list. */
  ghost predicate Splits(nodes: seq<Id>, endAnchor: Option<Id>, route: seq<Id>, skipped: seq<Id>) {
    if route == [] then skipped == nodes
    else Distinct(route) && Distinct(skipped) && Elements(skipped) == Pool(nodes, Core(route, endAnchor))
  }

  method NnFromStart(p: Problem, start: Id, nodes: seq<Id>, endAnchor: Option<Id>)
    returns (route: seq<Id>, skipped: seq<Id>)
    requires AnchorApart(p, start, nodes, endAnchor)
    ensures IsAttempt(p, start, nodes, endAnchor, route)
    ensures Splits(nodes, endAnchor, route, skipped)
  {
    StartAlone(p, start);
    var startTime := if start in p.windows then p.windows[start].EarliestStart(p.dayStart, p.Visit(start))
                     else Some(p.dayStart);
    if startTime.None? || startTime.value + p.Visit(start) > p.dayEnd {
      return [], nodes;
    }
    var current, unvisited;
    route, unvisited, current := GrowRoute(p, start, nodes, startTime.value + p.Visit(start), endAnchor);
    skipped := ListOfSet(unvisited);
    GreedyVisitsNodes(p, start, nodes, route, endAnchor);
    if endAnchor.Some? {
      AnchorIsFeasible(p, route, endAnchor.value);
      var endEntry := p.Leg(route[|route| - 1], endAnchor.value);
      if endEntry.None? || current + endEntry.value > p.dayEnd {
        assert route == [start];  // once a stop has been added the anchor stays reachable
        assert [start] + [endAnchor.value] == [start, endAnchor.value];
        return [], nodes;
      }
      assert Core(route + [endAnchor.value], endAnchor) == route;
      route := route + [endAnchor.value];
    }
  }

  lemma StartAlone(p: Instance, start: Id)
    ensures Clock(p, [start]) ==
            match p.StartAt(start, p.dayStart)
            case None => None
            case Some(s) => Some(s + p.Visit(start))
  {
    ClockSnoc(p, [], start);
    assert [] + [start] == [start];
  }

  /** Adds one earliest-deadline stop after the other; `current` is the running clock. */
  method GrowRoute(p: Problem, start: Id, nodes: seq<Id>, startDeparture: int, endAnchor: Option<Id>)
    returns (route: seq<Id>, unvisited: set<Id>, current: int)
    requires AnchorApart(p, start, nodes, endAnchor)
    requires Growing(p, start, nodes, [start], Elements(nodes) - {start}, startDeparture, endAnchor)
    ensures Growing(p, start, nodes, route, unvisited, current, endAnchor)
    ensures Exhausted(p, nodes, route, endAnchor)
  {
    hide EdfChoice, Admissible, Timetable;
    route := [start];
    unvisited := Elements(nodes) - {start};
    current := startDeparture;
    while unvisited != {}
      invariant Growing(p, start, nodes, route, unvisited, current, endAnchor)
      decreases unvisited
    {
      var best, bestTravel := ChooseNext(p, route, current, unvisited, endAnchor);
      if best.None? {
        break;
      }
      var node := best.value;
      ChosenFromPool(p, route, unvisited, node, endAnchor);
      GrowStep(p, start, nodes, route, unvisited, current, endAnchor, node, bestTravel);
      // The candidate scan has already found a start for this arrival, so there is one.
      var effectiveStart := p.StartAt(node, current + bestTravel);
      var nextDeparture := effectiveStart.value + p.Visit(node);
      if nextDeparture > p.dayEnd {
        break;  // only without an end anchor, as GrowStep shows
      }
      route := route + [node];
      unvisited := unvisited - {node};
      current := nextDeparture;
    }
  }

  /** The running clock is the scheduler's clock, and after the first choice the anchor is within reach. */
  ghost predicate Growing(p: Problem, start: Id, nodes: seq<Id>, route: seq<Id>, unvisited: set<Id>,
                          current: int, endAnchor: Option<Id>)
  {
    && unvisited == Pool(nodes, route)
    && Clock(p, route) == Some(current)
    && Greedy(p, start, nodes, route, endAnchor)
    && (|route| > 1 && endAnchor.Some? ==> ReachesAnchor(p, route, endAnchor.value))
  }

  /** One step of the running clock agrees with the scheduler and keeps the end anchor within reach. */
  lemma GrowStep(p: Problem, start: Id, nodes: seq<Id>, route: seq<Id>, unvisited: set<Id>, current: int,
                 endAnchor: Option<Id>, node: Id, travel: int)
    requires Growing(p, start, nodes, route, unvisited, current, endAnchor)
    requires EdfChoice(p, route, unvisited, node, endAnchor)
    requires p.Leg(route[|route| - 1], node) == Some(travel)
    ensures p.StartAt(node, current + travel).Some?
    ensures var departure := p.StartAt(node, current + travel).value + p.Visit(node);
            if departure <= p.dayEnd
            then Growing(p, start, nodes, route + [node], unvisited - {node}, departure, endAnchor)
            else Exhausted(p, nodes, route, endAnchor)
  {
    hide NoLater, Timetable;
    ClockSnoc(p, route, node);
    if endAnchor.Some? {
      AnchorExcludesOverrun(p, route, node, endAnchor);
    }
    if Feasible(p, route + [node]) {
      GreedyGrows(p, start, nodes, route, node, endAnchor);
    }
  }

  /** The end anchor can still be reached from the last stop of `core` by the end of the day. */
  predicate ReachesAnchor(p: Instance, core: seq<Id>, anchor: Id) {
    && core != [] && Clock(p, core).Some?
    && p.Leg(core[|core| - 1], anchor).Some?
    && Clock(p, core).value + p.Leg(core[|core| - 1], anchor).value <= p.dayEnd
  }

  lemma AnchorExcludesOverrun(p: Problem, core: seq<Id>, n: Id, endAnchor: Option<Id>)
    requires Admissible(p, core, n, endAnchor) && endAnchor.Some?
    ensures Clock(p, core + [n]).Some? && ReachesAnchor(p, core + [n], endAnchor.value)
    ensures Clock(p, core + [n]).value <= p.dayEnd
  {
    ClockSnoc(p, core, n);
  }

  lemma GreedyGrows(p: Problem, start: Id, nodes: seq<Id>, core: seq<Id>, n: Id, endAnchor: Option<Id>)
    requires Greedy(p, start, nodes, core, endAnchor)
    requires EdfChoice(p, core, Pool(nodes, core), n, endAnchor) && Feasible(p, core + [n])
    ensures Greedy(p, start, nodes, core + [n], endAnchor)
    ensures Pool(nodes, core + [n]) == Pool(nodes, core) - {n}
  {
    var longer := core + [n];
    forall k | 1 <= k < |longer|
      ensures EdfChoice(p, longer[..k], Pool(nodes, longer[..k]), longer[k], endAnchor)
    {
      assert longer[..k] == core[..k];
      assert core[..|core|] == core;
    }
    assert forall x :: x in longer <==> x in core || x == n;
  }

  /** `a` is a worse attempt than `b`: less weight, or the same weight and no less travel. */
  predicate NoBetter(p: Instance, a: seq<Id>, b: seq<Id>, weights: Option<map<Id, int>>) {
    || Score(a, weights) < Score(b, weights)
    || (Score(a, weights) == Score(b, weights) && RouteTravel(p, b) <= RouteTravel(p, a))
  }

  predicate StrictlyWorse(p: Instance, a: seq<Id>, b: seq<Id>, weights: Option<map<Id, int>>) {
    || Score(a, weights) < Score(b, weights)
    || (Score(a, weights) == Score(b, weights) && RouteTravel(p, b) < RouteTravel(p, a))
  }

  /** The first of the best routes over all starting nodes. */
  ghost predicate FirstBest(p: Instance, attempts: seq<seq<Id>>, best: seq<Id>, weights: Option<map<Id, int>>) {
    exists k :: 0 <= k < |attempts| && BestAt(p, attempts, k, best, weights)
  }

  ghost predicate BestAt(p: Instance, attempts: seq<seq<Id>>, k: int, best: seq<Id>, weights: Option<map<Id, int>>)
    requires 0 <= k < |attempts|
  {
    && attempts[k] == best
    && (forall i :: 0 <= i < |attempts| ==> NoBetter(p, attempts[i], best, weights))
    && (forall i :: 0 <= i < k ==> StrictlyWorse(p, attempts[i], best, weights))
  }

  predicate PositiveWeights(weights: Option<map<Id, int>>) {
    weights.Some? ==> forall n :: n in weights.value ==> 0 < weights.value[n]
  }

  lemma {:induction false} ScorePositive(route: seq<Id>, weights: Option<map<Id, int>>)
    requires PositiveWeights(weights)
    ensures Score(route, weights) >= |route|
  {
    if route != [] {
      ScorePositive(route[..|route| - 1], weights);
    }
  }

  /** Tries every node as the start; `attempts` records what each construction run returned. */
  method NearestNeighborRoute(p: Problem, nodes: seq<Id>, weights: Option<map<Id, int>>, endAnchor: Option<Id>)
    returns (route: seq<Id>, skipped: seq<Id>, ghost attempts: seq<seq<Id>>)
    requires PositiveWeights(weights)
    requires endAnchor.Some? ==> p.IsAnchor(endAnchor.value) && endAnchor.value !in nodes
    ensures |attempts| == |nodes| && AttemptsRun(p, nodes, endAnchor, attempts)
    ensures if nodes == [] then route == [] && skipped == [] else FirstBest(p, attempts, route, weights)
    ensures skipped == SelectSkipped(nodes, Elements(route))
  {
    attempts := [];
    route := [];
    var bestScore := 0;
    var bestTime := LARGE;
    ghost var k := 0;
    for i := 0 to |nodes|
      invariant |attempts| == i
      invariant AttemptsRun(p, nodes, endAnchor, attempts)
      invariant bestScore == Score(route, weights)
      invariant i == 0 ==> route == [] && bestTime == LARGE
      invariant i > 0 ==> bestTime == RouteTravel(p, route)
      invariant i > 0 ==> k < i && BestAt(p, attempts, k, route, weights)
    {
      var attempt, _ := NnFromStart(p, nodes[i], nodes, endAnchor);
      var t := RouteTravelTime(p, attempt);
      var score := RouteScore(attempt, weights);
      BestGrows(p, attempts, k, route, attempt, weights);
      attempts := attempts + [attempt];
      if score > bestScore || (score == bestScore && t < bestTime) {
        bestScore := score;
        bestTime := t;
        route := attempt;
        k := i;
      }
    }
    assert nodes != [] ==> BestAt(p, attempts, k, route, weights);
    skipped := ListSkipped(nodes, Elements(route));
  }

  ghost predicate AttemptsRun(p: Problem, nodes: seq<Id>, endAnchor: Option<Id>, attempts: seq<seq<Id>>)
  {
    && |attempts| <= |nodes|
    && forall i :: 0 <= i < |attempts| ==> IsAttempt(p, nodes[i], nodes, endAnchor, attempts[i])
  }

  /** Keeping the better of the best so far and the next attempt keeps the first best. */
  lemma BestGrows(p: Problem, attempts: seq<seq<Id>>, k: nat, best: seq<Id>, next: seq<Id>,
                  weights: Option<map<Id, int>>)
    requires PositiveWeights(weights)
    requires next != [] ==> Feasible(p, next)
    requires if attempts == [] then best == [] else k < |attempts| && BestAt(p, attempts, k, best, weights)
    ensures var time := if attempts == [] then LARGE else RouteTravel(p, best);
            var better := || Score(next, weights) > Score(best, weights)
                          || (Score(next, weights) == Score(best, weights) && RouteTravel(p, next) < time);
            if better then BestAt(p, attempts + [next], |attempts|, next, weights)
            else attempts != [] && BestAt(p, attempts + [next], k, best, weights)
  {
    if attempts == [] {
      ScorePositive(next, weights);
      if next != [] {
        FeasibleTravelBelowSentinel(p, next);
      }
    }
  }

  method ListSkipped(nodes: seq<Id>, visited: set<Id>) returns (skipped: seq<Id>)
    ensures skipped == SelectSkipped(nodes, visited)
  {
    skipped := [];
    for i := 0 to |nodes|
      invariant skipped == SelectSkipped(nodes[..i], visited)
    {
      assert nodes[..i + 1][..i] == nodes[..i];
      if nodes[i] !in visited {
        skipped := skipped + [nodes[i]];
      }
    }
    assert nodes[..|nodes|] == nodes;
  }

  /** The nodes outside `visited`, in order. */
  function SelectSkipped(nodes: seq<Id>, visited: set<Id>): seq<Id> {
    if nodes == [] then []
    else
      var n := nodes[|nodes| - 1];
      SelectSkipped(nodes[..|nodes| - 1], visited) + (if n in visited then [] else [n])
  }

  lemma {:induction false} SelectSkippedElements(nodes: seq<Id>, visited: set<Id>)
    ensures Elements(SelectSkipped(nodes, visited)) == Elements(nodes) - visited
    ensures Distinct(nodes) ==> Distinct(SelectSkipped(nodes, visited))
  {
    if nodes != [] {
      var k := |nodes| - 1;
      var before := SelectSkipped(nodes[..k], visited);
      SelectSkippedElements(nodes[..k], visited);
      assert forall n :: n in before <==> n in Elements(before);
      assert forall n :: n in nodes <==> n in nodes[..k] || n == nodes[k];
      assert Distinct(nodes) ==> nodes[k] !in before;
    }
  }

  lemma {:induction false} SkippedInOrder(nodes: seq<Id>, visited: set<Id>)
    ensures KeptInOrder(SelectSkipped(nodes, visited), nodes, (n: Id) => n !in visited)
  {
    hide KeptInOrder;
    if nodes == [] {
      NothingKept((n: Id) => n !in visited);
    } else {
      SkippedInOrder(nodes[..|nodes| - 1], visited);
      KeptNext(SelectSkipped(nodes[..|nodes| - 1], visited), nodes, (n: Id) => n !in visited);
    }
  }

  /**
   * Earliest deadline first: whenever a greedy route goes on to a stop, no place still left that it could have gone
   * on to closes earlier, nor at the same time and nearer by.
   */
  lemma GreedyIsEarliestDeadline(p: Problem, start: Id, nodes: seq<Id>, core: seq<Id>, endAnchor: Option<Id>, k: nat, d: Id)
    requires Greedy(p, start, nodes, core, endAnchor) && 1 <= k < |core|
    requires d in nodes && d !in core[..k] && Admissible(p, core[..k], d, endAnchor)
    ensures p.Leg(core[k - 1], core[k]).Some? && p.Leg(core[k - 1], d).Some?
    ensures Deadline(p, core[k]) <= Deadline(p, d)
    ensures Deadline(p, core[k]) == Deadline(p, d) ==> p.Leg(core[k - 1], core[k]).value <= p.Leg(core[k - 1], d).value
  {
    GreedyChoice(p, start, nodes, core, endAnchor, k);
    hide Clock;
  }
}
