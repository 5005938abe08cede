/** 2-opt improvement: segment reversals that shorten the route and keep it feasible. */
module TwoOpt {
  import opened Scheduling

  function Backwards<T>(s: seq<T>): seq<T> {
    if s == [] then [] else Backwards(s[1..]) + [s[0]]
  }

  /** Reverses the stops `i + 1` to `j`. */
  function Reverse2(route: seq<Id>, i: int, j: int): seq<Id>
    requires 0 <= i < j < |route|
  {
    route[..i + 1] + Backwards(route[i + 1..j + 1]) + route[j + 1..]
  }

  /** One past the last stop a reversal may move. */
  function MovableEnd(route: seq<Id>, pinEnd: bool): int {
    if pinEnd then |route| - 1 else |route|
  }

  /** A reversal turns two stops or more around, but not the first one, nor the last one when it is pinned. */
  predicate AllowedMove(route: seq<Id>, pinEnd: bool, i: int, j: int) {
    0 <= i && i + 2 <= j < |route| && (pinEnd ==> j < |route| - 1)
  }

  predicate Improves(p: Instance, route: seq<Id>, candidate: seq<Id>) {
    RouteTravel(p, candidate) < RouteTravel(p, route) && Feasible(p, candidate)
  }

  /** No allowed reversal is both feasible and strictly shorter. */
  ghost predicate LocallyOptimal(p: Instance, route: seq<Id>, pinEnd: bool) {
    forall i, j :: AllowedMove(route, pinEnd, i, j) ==> !Improves(p, route, Reverse2(route, i, j))
  }

  /** The same stops, with the first one in place, and the last one too when it is pinned. */
  ghost predicate Rearranged(route: seq<Id>, other: seq<Id>, pinEnd: bool) {
    && multiset(other) == multiset(route)
    && |other| == |route|
    && (route != [] ==> other[0] == route[0])
    && (route != [] && pinEnd ==> other[|route| - 1] == route[|route| - 1])
  }

  lemma {:induction false} BackwardsPermutes<T>(s: seq<T>)
    ensures multiset(Backwards(s)) == multiset(s)
    ensures |Backwards(s)| == |s|
  {
    if s != [] {
      BackwardsPermutes(s[1..]);
      assert s == [s[0]] + s[1..];
    }
  }

  lemma {:induction false} BackwardsAt<T>(s: seq<T>, k: nat)
    requires k < |s|
    ensures |Backwards(s)| == |s| && Backwards(s)[k] == s[|s| - 1 - k]
  {
    BackwardsPermutes(s);
    BackwardsPermutes(s[1..]);
    if k < |s| - 1 {
      BackwardsAt(s[1..], k);
    }
  }

  /** A move turns exactly the stops between its ends around. */
  lemma MoveReverses(route: seq<Id>, i: int, j: int)
    requires 0 <= i < j < |route|
    ensures |Reverse2(route, i, j)| == |route|
    ensures forall k :: 0 <= k < |route| ==>
              Reverse2(route, i, j)[k] == route[if i < k <= j then i + 1 + j - k else k]
  {
    var middle := route[i + 1..j + 1];
    BackwardsPermutes(middle);
    forall k | 0 <= k < |middle| ensures Backwards(middle)[k] == middle[|middle| - 1 - k] {
      BackwardsAt(middle, k);
    }
  }

  lemma MoveRearranges(route: seq<Id>, pinEnd: bool, i: int, j: int)
    requires AllowedMove(route, pinEnd, i, j)
    ensures Rearranged(route, Reverse2(route, i, j), pinEnd)
  {
    BackwardsPermutes(route[i + 1..j + 1]);
    assert route == route[..i + 1] + route[i + 1..j + 1] + route[j + 1..];
  }

  /** The scan over all allowed reversals, first improvement wins. */
  method FindImprovement(p: Instance, route: seq<Id>, currentTime: int, pinEnd: bool)
    returns (found: bool, better: seq<Id>)
    requires currentTime == RouteTravel(p, route)
    ensures found ==> Improves(p, route, better) && Rearranged(route, better, pinEnd)
    ensures !found ==> LocallyOptimal(p, route, pinEnd)
  {
    found, better := false, route;
    for i := 0 to Max(0, |route| - 1)
      invariant !found
      invariant forall a, b :: a < i && AllowedMove(route, pinEnd, a, b) ==> !Improves(p, route, Reverse2(route, a, b))
    {
      var j := i + 2;
      while j < MovableEnd(route, pinEnd)
        invariant !found && i + 2 <= j
        invariant forall b :: b < j && AllowedMove(route, pinEnd, i, b) ==> !Improves(p, route, Reverse2(route, i, b))
      {
        var candidate := Reverse2(route, i, j);
        MoveRearranges(route, pinEnd, i, j);
        var candidateTime := RouteTravelTime(p, candidate);
        if candidateTime < currentTime {
          var feasible := IsFeasible(p, candidate);
          if feasible {
            return true, candidate;
          }
        }
        j := j + 1;
      }
    }
  }

  /** The rounds ran out: each of them made the route at least a second shorter. */
  predicate Capped(p: Instance, start: seq<Id>, route: seq<Id>, maxIterations: nat) {
    RouteTravel(p, route) + maxIterations <= RouteTravel(p, start)
  }

  /**
   * What the search may return. Routes of fewer than four stops come back untouched; a longer one is
   * rearranged until nothing improves it or the rounds run out.
   */
  ghost predicate TwoOptOf(p: Instance, start: seq<Id>, route: seq<Id>, maxIterations: nat, pinEnd: bool) {
    && Rearranged(start, route, pinEnd)
    && (route == start || Improves(p, start, route))
    && if |start| < 4 then route == start
       else LocallyOptimal(p, route, pinEnd) || Capped(p, start, route, maxIterations)
  }

  /** Two stops after a fixed first one, the other way round. */
  function Swapped(route: seq<Id>): seq<Id>
    requires |route| == 3
  {
    [route[0], route[2], route[1]]
  }

  /** The only moves the search never looks at are those of unpinned three-stop routes: one each. */
  lemma ShortRoutesExact(p: Instance, route: seq<Id>, pinEnd: bool)
    requires |route| < 4
    ensures LocallyOptimal(p, route, pinEnd) <==> |route| != 3 || pinEnd || !Improves(p, route, Swapped(route))
  {
    hide Improves;
    if |route| == 3 && !pinEnd {
      OnlyMove(route);
      assert AllowedMove(route, pinEnd, 0, 2);
      forall i, j | AllowedMove(route, pinEnd, i, j) ensures i == 0 && j == 2 {
      }
    }
  }

  lemma OnlyMove(route: seq<Id>)
    requires |route| == 3
    ensures Reverse2(route, 0, 2) == Swapped(route)
  {
    MoveReverses(route, 0, 2);
  }

  /** Three stops whose second and third are far apart from the first in one order and near in the other. */
  const DETOUR := Instance(
    map[("s", "f") := 3600, ("f", "n") := 3600, ("s", "n") := 60, ("n", "f") := 60], map[], map[], 0, 10000)

  lemma DetourImproves()
    ensures DETOUR.WellFormed() && Feasible(DETOUR, ["s", "f", "n"])
    ensures Improves(DETOUR, ["s", "f", "n"], Swapped(["s", "f", "n"]))
    ensures RouteTravel(DETOUR, ["s", "f", "n"]) == 7200
  {
    var p := DETOUR;
    PlainRoute(p, "s", "f", "n");
    PlainRoute(p, "s", "n", "f");
  }

  /** Without windows and visits a three-stop route takes the time of its legs. */
  lemma PlainRoute(p: Instance, a: Id, b: Id, c: Id)
    requires p.windows == map[] && p.visits == map[] && p.dayStart == 0
    requires p.Leg(a, b).Some? && p.Leg(b, c).Some? && p.Leg(a, b).value >= 0 && p.Leg(b, c).value >= 0
    ensures var travel := p.Leg(a, b).value + p.Leg(b, c).value;
            && RouteTravel(p, [a, b, c]) == travel
            && (Feasible(p, [a, b, c]) <==> travel <= p.dayEnd)
  {
    assert [] + [a] == [a] && [a] + [b] == [a, b] && [a, b] + [c] == [a, b, c];
    ClockSnoc(p, [], a);
    ClockSnoc(p, [a], b);
    ClockSnoc(p, [a, b], c);
    LegsOfThree(p, a, b, c);
    hide Clock;
  }

  lemma LegsOfThree(p: Instance, a: Id, b: Id, c: Id)
    requires p.Leg(a, b).Some? && p.Leg(b, c).Some?
    ensures RouteTravel(p, [a, b, c]) == p.Leg(a, b).value + p.Leg(b, c).value
  {
    var route := [a, b, c];
    assert route[..2] == [a, b] && route[..2][..1] == [a];
    assert LegSum(p, [a, b]) == p.Leg(a, b).value;
    assert LegSum(p, route) == LegSum(p, [a, b]) + p.Leg(b, c).value;
  }

  /**
   * For routes of a given length every result is locally optimal, or the rounds ran out, on all instances
   * exactly when the length is not three or the end is pinned (or no round was allowed).
   */
  lemma OptimalityByLength(n: nat, pinEnd: bool, maxIterations: nat)
    ensures (forall p: Problem, start, route :: |start| == n && TwoOptOf(p, start, route, maxIterations, pinEnd) ==>
               LocallyOptimal(p, route, pinEnd) || Capped(p, start, route, maxIterations))
            <==> n != 3 || pinEnd || maxIterations == 0
  {
    if n == 3 && !pinEnd && maxIterations > 0 {
      DetourImproves();
      var p: Problem := DETOUR;
      var start: seq<Id> := ["s", "f", "n"];
      hide Improves, DETOUR, LocallyOptimal, RouteTravel;
      assert TwoOptOf(p, start, start, maxIterations, pinEnd);
      ShortRoutesExact(p, start, pinEnd);
    } else {
      forall p: Problem, start, route | |start| == n && TwoOptOf(p, start, route, maxIterations, pinEnd)
        ensures LocallyOptimal(p, route, pinEnd) || Capped(p, start, route, maxIterations)
      {
        if n < 4 {
          ShortRoutesExact(p, route, pinEnd);
        }
      }
    }
  }

  /**
   * Local search. The iteration cap can only cut it short after the route became at least `maxIterations`
   * seconds shorter; otherwise the result admits no further improvement, except that an unpinned route of
   * three stops keeps its order even if the other one is feasible and shorter.
   */
  method TwoOptSearch(p: Instance, start: seq<Id>, maxIterations: nat, pinEnd: bool) returns (route: seq<Id>)
    ensures TwoOptOf(p, start, route, maxIterations, pinEnd)
    ensures LocallyOptimal(p, route, pinEnd) || Capped(p, start, route, maxIterations)
         || (|start| == 3 && !pinEnd && Improves(p, start, Swapped(start)))
  {
    route := start;
    if |route| < 4 {
      ShortRoutesExact(p, route, pinEnd);
      return;
    }
    var improved := true;
    var iterations := 0;
    while improved && iterations < maxIterations
      invariant 0 <= iterations <= maxIterations
      invariant Rearranged(start, route, pinEnd)
      invariant route == start || Improves(p, start, route)
      invariant improved ==> RouteTravel(p, route) + iterations <= RouteTravel(p, start)
      invariant !improved ==> LocallyOptimal(p, route, pinEnd)
    {
      iterations := iterations + 1;
      var currentTime := RouteTravelTime(p, route);
      var better;
      improved, better := FindImprovement(p, route, currentTime, pinEnd);
      if improved {
        route := better;
      }
    }
  }
}
