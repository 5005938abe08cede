/**
 * The route scheduler: clock times of a visiting order, its feasibility and its cost.
 * All times are integer seconds from midnight.
 */
module Scheduling {
  import opened Wrappers
  import opened TimeWindows

  type Id = string

  /** Sentinel for the travel cost of an order with a missing leg. */
  const LARGE := 1_000_000_000

  /** One solver call: the distance matrix, opening windows, visit durations and day bounds. */
  datatype Instance = Instance(
    matrix: map<(Id, Id), int>,
    windows: map<Id, TimeWindow>,
    visits: map<Id, int>,
    dayStart: int,
    dayEnd: int)
  {
    function Leg(from: Id, to: Id): Option<int> {
      if (from, to) in matrix then Some(matrix[(from, to)]) else None
    }

    function Visit(n: Id): int {
      if n in visits then visits[n] else 0
    }

    /** The earliest moment a visit of `n` can begin after arriving at `arrival`. */
    function StartAt(n: Id, arrival: int): Option<int> {
      if n in windows then windows[n].EarliestStart(arrival, Visit(n)) else Some(Max(arrival, dayStart))
    }

    predicate WindowsOrdered() {
      forall n :: n in windows ==> windows[n].Ordered()
    }

    /** Times and durations a solver call is made with. */
    predicate WellFormed() {
      && WindowsOrdered()
      && (forall leg :: leg in matrix ==> 0 <= matrix[leg])
      && (forall n :: n in visits ==> 0 <= visits[n])
      && (forall n :: n in windows ==> windows[n].segments != [])
      && 0 <= dayStart && dayEnd <= SECONDS_PER_DAY
    }

    /** Ids that mark a day's start or end and carry no window and no visit. */
    predicate IsAnchor(n: Id) {
      n !in windows && n !in visits
    }
  }

  /** Travel times in seconds; a missing entry is a leg that cannot be travelled. */
  type Matrix = m: map<(Id, Id), int> | forall leg :: leg in m ==> 0 <= m[leg] witness map[]

  /** The inputs a route is built and improved on. */
  type Problem = p: Instance | p.WellFormed() witness Instance(map[], map[], map[], 0, 0)

  function Max(a: int, b: int): int {
    if a >= b then a else b
  }

  datatype Stop = Stop(node: Id, arrival: int, departure: int, travel: int)

  function ClockAfter(p: Instance, t: seq<Stop>): int {
    if t == [] then p.dayStart else t[|t| - 1].departure
  }

  function Extend(p: Instance, t: seq<Stop>, node: Id): Option<seq<Stop>> {
    var leg := if t == [] then Some(0) else p.Leg(t[|t| - 1].node, node);
    if leg.None? then None
    else
      var arrival := ClockAfter(p, t) + leg.value;
      var start := p.StartAt(node, arrival);
      if start.None? then None
      else Some(t + [Stop(node, arrival, start.value + p.Visit(node), leg.value)])
  }

  /** The clock times of an order, or `None` when some leg or window makes it impossible. */
  function Timetable(p: Instance, route: seq<Id>): Option<seq<Stop>> {
    if route == [] then Some([])
    else
      var before := Timetable(p, route[..|route| - 1]);
      if before.None? then None else Extend(p, before.value, route[|route| - 1])
  }

  /** The scheduler's own result: `[]` stands for an impossible order as well as for an empty one. */
  function Schedule(p: Instance, route: seq<Id>): seq<Stop> {
    Timetable(p, route).GetOr([])
  }

  /** The clock after the last stop. */
  function Clock(p: Instance, route: seq<Id>): Option<int> {
    match Timetable(p, route)
    case None => None
    case Some(t) => Some(ClockAfter(p, t))
  }

  predicate Feasible(p: Instance, route: seq<Id>) {
    route != [] && Clock(p, route).Some? && Clock(p, route).value <= p.dayEnd
  }

  lemma {:induction false} TimetableNodes(p: Instance, route: seq<Id>)
    requires Timetable(p, route).Some?
    ensures |Timetable(p, route).value| == |route|
    ensures forall i :: 0 <= i < |route| ==> Timetable(p, route).value[i].node == route[i]
  {
    if route != [] {
      TimetableNodes(p, route[..|route| - 1]);
    }
  }

  lemma {:induction false} TimetablePrefix(p: Instance, route: seq<Id>, k: nat)
    requires Timetable(p, route).Some? && k <= |route|
    ensures Timetable(p, route[..k]).Some?
    ensures k <= |Timetable(p, route).value|
    ensures Timetable(p, route[..k]).value == Timetable(p, route).value[..k]
  {
    TimetableNodes(p, route);
    if k == |route| {
      assert route[..k] == route;
    } else {
      TimetablePrefix(p, route[..|route| - 1], k);
      assert route[..|route| - 1][..k] == route[..k];
    }
  }

  /** One more stop: the timetable grows by `Extend`, and a failed extension dooms the whole order. */
  lemma ScheduleStep(p: Instance, route: seq<Id>, i: nat, t: seq<Stop>)
    requires i < |route| && Timetable(p, route[..i]) == Some(t)
    ensures |t| == i && (i > 0 ==> t[i - 1].node == route[i - 1])
    ensures Timetable(p, route[..i + 1]) == Extend(p, t, route[i])
    ensures Extend(p, t, route[i]) == None ==> Timetable(p, route) == None
  {
    TimetableNodes(p, route[..i]);
    assert route[..i + 1][..i] == route[..i];
    if Timetable(p, route).Some? {
      TimetablePrefix(p, route, i + 1);
    }
  }

  lemma ExtendLast(p: Instance, t: seq<Stop>, node: Id)
    requires Extend(p, t, node).Some?
    ensures var more := Extend(p, t, node).value;
            && |more| == |t| + 1 && more[..|t|] == t
            && var s := more[|t|];
               && s.node == node
               && (if t == [] then s.travel == 0 else p.Leg(t[|t| - 1].node, node) == Some(s.travel))
               && s.arrival == ClockAfter(p, t) + s.travel
               && p.StartAt(node, s.arrival) == Some(s.departure - p.Visit(node))
  {
  }

  /** The scheduler's times satisfy the clock equations stop by stop. */
  lemma {:induction false} TimetableStep(p: Instance, route: seq<Id>, i: nat)
    requires Timetable(p, route).Some? && i < |route|
    ensures |Timetable(p, route).value| == |route|
    ensures var t := Timetable(p, route).value;
            && t[i].node == route[i]
            && (i == 0 ==> t[i].travel == 0 && t[i].arrival == p.dayStart)
            && (i > 0 ==> p.Leg(route[i - 1], route[i]) == Some(t[i].travel)
                          && t[i].arrival == t[i - 1].departure + t[i].travel)
            && p.StartAt(route[i], t[i].arrival) == Some(t[i].departure - p.Visit(route[i]))
  {
    var t := Timetable(p, route).value;
    TimetableNodes(p, route);
    TimetablePrefix(p, route, i + 1);
    TimetablePrefix(p, route, i);
    ScheduleStep(p, route, i, t[..i]);
    ExtendLast(p, t[..i], route[i]);
    assert t[..i + 1][i] == t[i];
  }

  /** The clock of an order grows by one stop in the way the construction heuristic computes it. */
  lemma ClockSnoc(p: Instance, route: seq<Id>, n: Id)
    requires Clock(p, route).Some?
    ensures Clock(p, route + [n]) ==
            (var leg := if route == [] then Some(0) else p.Leg(route[|route| - 1], n);
             if leg.None? then None
             else
               var start := p.StartAt(n, Clock(p, route).value + leg.value);
               if start.None? then None else Some(start.value + p.Visit(n)))
  {
    var t := Timetable(p, route).value;
    var longer := route + [n];
    TimetableNodes(p, route);
    assert longer[..|longer| - 1] == route && longer[|longer| - 1] == n;
    assert Timetable(p, longer) == Extend(p, t, n);
    if Extend(p, t, n).Some? {
      assert ClockAfter(p, Extend(p, t, n).value) == Extend(p, t, n).value[|t|].departure;
    }
  }

  /** An order with an impossible prefix is impossible. */
  lemma ClockPrefix(p: Instance, route: seq<Id>, k: nat)
    requires Clock(p, route).Some? && k <= |route|
    ensures Clock(p, route[..k]).Some?
  {
    TimetablePrefix(p, route, k);
  }

  method ScheduleRoute(p: Instance, route: seq<Id>) returns (result: seq<Stop>)
    ensures result == Schedule(p, route)
  {
    result := [];
    var current := p.dayStart;
    for i := 0 to |route|
      invariant Timetable(p, route[..i]) == Some(result)
      invariant current == ClockAfter(p, result)
    {
      ScheduleStep(p, route, i, result);
      var node := route[i];
      var travel := 0;
      if i > 0 {
        var entry := p.Leg(route[i - 1], node);
        if entry.None? {
          return [];
        }
        travel := entry.value;
      }
      var arrival := current + travel;
      var start := p.StartAt(node, arrival);
      if start.None? {
        return [];
      }
      var departure := start.value + p.Visit(node);
      result := result + [Stop(node, arrival, departure, travel)];
      current := departure;
    }
    assert route[..|route|] == route;
  }

  method IsFeasible(p: Instance, route: seq<Id>) returns (ok: bool)
    ensures ok == Feasible(p, route)
  {
    var sched := ScheduleRoute(p, route);
    if Timetable(p, route).Some? {
      TimetableNodes(p, route);
    }
    if sched == [] {
      return false;
    }
    return sched[|sched| - 1].departure <= p.dayEnd;
  }

  // ---------------------------------------------------------------------------------------
  // The feasibility test is exact
  // ---------------------------------------------------------------------------------------

  /** Start times that a traveller could follow: every leg has its time and every visit its window. */
  ghost predicate Respects(p: Instance, route: seq<Id>, starts: seq<int>) {
    && |starts| == |route|
    && forall i :: 0 <= i < |route| ==> RespectsAt(p, route, starts, i)
  }

  ghost predicate RespectsAt(p: Instance, route: seq<Id>, starts: seq<int>, i: int)
    requires 0 <= i < |route| == |starts|
  {
    && (if i == 0 then p.dayStart <= starts[0]
        else && p.Leg(route[i - 1], route[i]).Some?
             && starts[i - 1] + p.Visit(route[i - 1]) + p.Leg(route[i - 1], route[i]).value <= starts[i])
    && (if route[i] in p.windows then p.windows[route[i]].Fits(starts[i], p.Visit(route[i]))
        else p.dayStart <= starts[i])
  }

  /** The start times the scheduler assigns. */
  function Starts(p: Instance, t: seq<Stop>): seq<int> {
    seq(|t|, i requires 0 <= i < |t| => t[i].departure - p.Visit(t[i].node))
  }

  lemma StartAtIsMinimum(p: Instance, n: Id, arrival: int, s: int)
    requires p.WindowsOrdered()
    requires arrival <= s
    requires if n in p.windows then p.windows[n].Fits(s, p.Visit(n)) else p.dayStart <= s
    ensures p.StartAt(n, arrival).Some? && p.StartAt(n, arrival).value <= s
  {
    if n in p.windows {
      EarliestStartIsMinimum(p.windows[n], arrival, p.Visit(n));
    }
  }

  lemma StartAtFits(p: Instance, n: Id, arrival: int)
    requires p.WindowsOrdered() && p.StartAt(n, arrival).Some?
    ensures var s := p.StartAt(n, arrival).value;
            && arrival <= s
            && (if n in p.windows then p.windows[n].Fits(s, p.Visit(n)) else p.dayStart <= s)
  {
    if n in p.windows {
      EarliestStartIsMinimum(p.windows[n], arrival, p.Visit(n));
    }
  }

  /** The scheduler's own start times can be followed. */
  lemma ScheduleRespects(p: Instance, route: seq<Id>)
    requires p.WindowsOrdered() && Timetable(p, route).Some?
    ensures Respects(p, route, Starts(p, Timetable(p, route).value))
  {
    var t := Timetable(p, route).value;
    TimetableNodes(p, route);
    var starts := Starts(p, t);
    forall i | 0 <= i < |route| ensures RespectsAt(p, route, starts, i) {
      TimetableStep(p, route, i);
      StartAtFits(p, route[i], t[i].arrival);
      if i > 0 {
        TimetableStep(p, route, i - 1);
      }
    }
  }

  /** No assignment that can be followed starts any visit earlier than the scheduler does. */
  lemma {:induction false} ScheduleIsEarliest(p: Instance, route: seq<Id>, starts: seq<int>)
    requires p.WindowsOrdered() && Respects(p, route, starts)
    ensures Timetable(p, route).Some?
    ensures |Timetable(p, route).value| == |route|
    ensures forall i :: 0 <= i < |route| ==> Starts(p, Timetable(p, route).value)[i] <= starts[i]
  {
    if route != [] {
      var k := |route| - 1;
      var before := route[..k];
      assert Respects(p, before, starts[..k]) by {
        forall i | 0 <= i < k ensures RespectsAt(p, before, starts[..k], i) {
          assert RespectsAt(p, route, starts, i);
        }
      }
      ScheduleIsEarliest(p, before, starts[..k]);
      TimetableNodes(p, before);
      var t := Timetable(p, before).value;
      assert RespectsAt(p, route, starts, k);
      if k > 0 {
        assert Starts(p, t)[k - 1] <= starts[..k][k - 1];
      }
      var leg := if k == 0 then 0 else p.Leg(route[k - 1], route[k]).value;
      StartAtIsMinimum(p, route[k], ClockAfter(p, t) + leg, starts[k]);
      forall i | 0 <= i < k ensures Starts(p, Timetable(p, route).value)[i] <= starts[i] {
        assert Starts(p, t)[i] <= starts[..k][i];
      }
    }
  }

  /** The feasibility test accepts exactly the orders some traveller could follow by the end of the day. */
  lemma FeasibilityIsExact(p: Instance, route: seq<Id>)
    requires p.WindowsOrdered() && route != []
    ensures Feasible(p, route) <==>
            exists starts ::
              && Respects(p, route, starts)
              && starts[|route| - 1] + p.Visit(route[|route| - 1]) <= p.dayEnd
  {
    var last := |route| - 1;
    if Feasible(p, route) {
      ScheduleRespects(p, route);
      TimetableNodes(p, route);
      var starts := Starts(p, Timetable(p, route).value);
      assert starts[last] + p.Visit(route[last]) <= p.dayEnd;
    }
    forall starts | Respects(p, route, starts) && starts[last] + p.Visit(route[last]) <= p.dayEnd
      ensures Feasible(p, route)
    {
      ScheduleIsEarliest(p, route, starts);
      TimetableNodes(p, route);
      assert Starts(p, Timetable(p, route).value)[last] <= starts[last];
    }
  }

  // ---------------------------------------------------------------------------------------
  // Time ledger and travel cost
  // ---------------------------------------------------------------------------------------

  function TotalTravel(t: seq<Stop>): int {
    if t == [] then 0 else TotalTravel(t[..|t| - 1]) + t[|t| - 1].travel
  }

  function TotalVisit(p: Instance, t: seq<Stop>): int {
    if t == [] then 0 else TotalVisit(p, t[..|t| - 1]) + p.Visit(t[|t| - 1].node)
  }

  function Wait(p: Instance, s: Stop): int {
    s.departure - p.Visit(s.node) - s.arrival
  }

  function TotalWait(p: Instance, t: seq<Stop>): int {
    if t == [] then 0 else TotalWait(p, t[..|t| - 1]) + Wait(p, t[|t| - 1])
  }

  /** Every second of a scheduled day is travel, waiting or visiting, and none of them is negative. */
  lemma {:induction false} TimeLedger(p: Problem, route: seq<Id>)
    requires Timetable(p, route).Some?
    ensures var t := Timetable(p, route).value;
            && ClockAfter(p, t) - p.dayStart == TotalTravel(t) + TotalWait(p, t) + TotalVisit(p, t)
            && 0 <= TotalTravel(t) && 0 <= TotalWait(p, t) && 0 <= TotalVisit(p, t)
            && (forall i :: 0 <= i < |t| ==> 0 <= Wait(p, t[i]) && t[i].arrival <= t[i].departure)
  {
    if route != [] {
      var k := |route| - 1;
      TimeLedger(p, route[..k]);
      TimetableNodes(p, route);
      TimetableStep(p, route, k);
      TimetablePrefix(p, route, k);
      var t := Timetable(p, route).value;
      StartAtFits(p, route[k], t[k].arrival);
      assert t[..|t| - 1] == Timetable(p, route[..k]).value;
      if k > 0 {
        TimetableStep(p, route, k - 1);
        assert t[..k][k - 1] == t[k - 1];
      }
    }
  }

  /** Total travel seconds of an order, `LARGE` when a leg is missing. */
  function RouteTravel(p: Instance, route: seq<Id>): int {
    if forall i :: 1 <= i < |route| ==> p.Leg(route[i - 1], route[i]).Some? then LegSum(p, route) else LARGE
  }

  function LegSum(p: Instance, route: seq<Id>): int {
    if |route| <= 1 then 0
    else LegSum(p, route[..|route| - 1]) + p.Leg(route[|route| - 2], route[|route| - 1]).GetOr(0)
  }

  method RouteTravelTime(p: Instance, route: seq<Id>) returns (total: int)
    ensures total == RouteTravel(p, route)
  {
    total := 0;
    if route == [] {
      return;
    }
    for i := 1 to |route|
      invariant total == LegSum(p, route[..i])
      invariant forall j :: 1 <= j < i ==> p.Leg(route[j - 1], route[j]).Some?
    {
      var entry := p.Leg(route[i - 1], route[i]);
      if entry.None? {
        return LARGE;
      }
      assert route[..i + 1][..i] == route[..i];
      total := total + entry.value;
    }
    assert route[..|route|] == route;
  }

  lemma {:induction false} ScheduledTravel(p: Instance, route: seq<Id>)
    requires Timetable(p, route).Some?
    ensures TotalTravel(Timetable(p, route).value) == LegSum(p, route)
  {
    if route != [] {
      var k := |route| - 1;
      ScheduledTravel(p, route[..k]);
      TimetableStep(p, route, k);
      TimetablePrefix(p, route, k);
      var t := Timetable(p, route).value;
      assert t[..|t| - 1] == Timetable(p, route[..k]).value;
    }
  }

  /** A feasible order's travel is the travel of its timetable, fits in the day and stays below the sentinel. */
  lemma FeasibleTravelBelowSentinel(p: Problem, route: seq<Id>)
    requires Feasible(p, route)
    ensures RouteTravel(p, route) == TotalTravel(Timetable(p, route).value)
    ensures 0 <= RouteTravel(p, route) <= p.dayEnd - p.dayStart < LARGE
  {
    TimeLedger(p, route);
    ScheduledTravel(p, route);
    forall i | 1 <= i < |route| ensures p.Leg(route[i - 1], route[i]).Some? {
      TimetableStep(p, route, i);
    }
  }

  function WeightOf(weights: Option<map<Id, int>>, n: Id): int {
    if weights.Some? && n in weights.value then weights.value[n] else 1
  }

  /** Total priority weight of an order; without weights every node counts as 1. */
  function Score(route: seq<Id>, weights: Option<map<Id, int>>): int {
    if route == [] then 0 else Score(route[..|route| - 1], weights) + WeightOf(weights, route[|route| - 1])
  }

  method RouteScore(route: seq<Id>, weights: Option<map<Id, int>>) returns (score: int)
    ensures score == Score(route, weights)
  {
    if weights.None? {
      UnweightedScore(route);
      return |route|;
    }
    score := 0;
    for i := 0 to |route|
      invariant score == Score(route[..i], weights)
    {
      assert route[..i + 1][..i] == route[..i];
      score := score + WeightOf(weights, route[i]);
    }
    assert route[..|route|] == route;
  }

  lemma {:induction false} UnweightedScore(route: seq<Id>)
    ensures Score(route, None) == |route|
  {
    if route != [] {
      UnweightedScore(route[..|route| - 1]);
    }
  }
}
