/** Priority tiers: a hard must-see guarantee on top of the route construction. */
module Priorities {
  import opened Wrappers
  import opened Sequences
  import opened Scheduling
  import opened NearestNeighbor

  datatype Priority = MustSee | Normal | Optional

  function PriorityWeight(pr: Priority): int {
    match pr
    case MustSee => 1_000_000
    case Normal => 1_000
    case Optional => 1
  }

  function PriorityOf(priorities: map<Id, Priority>, n: Id): Priority {
    if n in priorities then priorities[n] else Normal
  }

  function Weights(nodeIds: seq<Id>, priorities: map<Id, Priority>): map<Id, int> {
    map n | n in nodeIds :: PriorityWeight(PriorityOf(priorities, n))
  }

  /** The places a tier keeps: all, those that are not optional, the must-sees alone. */
  predicate InTier(priorities: map<Id, Priority>, level: nat, n: Id) {
    if level == 0 then true
    else if level == 1 then PriorityOf(priorities, n) != Optional
    else PriorityOf(priorities, n) == MustSee
  }

  function Tier(nodeIds: seq<Id>, priorities: map<Id, Priority>, level: nat): seq<Id> {
    if nodeIds == [] then []
    else
      var n := nodeIds[|nodeIds| - 1];
      Tier(nodeIds[..|nodeIds| - 1], priorities, level) + (if InTier(priorities, level, n) then [n] else [])
  }

  lemma {:induction false} TierElements(nodeIds: seq<Id>, priorities: map<Id, Priority>, level: nat)
    ensures forall n :: n in Tier(nodeIds, priorities, level) <==> n in nodeIds && InTier(priorities, level, n)
    ensures Distinct(nodeIds) ==> Distinct(Tier(nodeIds, priorities, level))
    ensures |Tier(nodeIds, priorities, level)| <= |nodeIds|
    ensures level == 0 ==> Tier(nodeIds, priorities, level) == nodeIds
  {
    if nodeIds != [] {
      var k := |nodeIds| - 1;
      LastElement(nodeIds);
      TierElements(nodeIds[..k], priorities, level);
      if InTier(priorities, level, nodeIds[k]) {
        LastElement(Tier(nodeIds, priorities, level));
        assert Tier(nodeIds, priorities, level)[..|Tier(nodeIds[..k], priorities, level)|]
            == Tier(nodeIds[..k], priorities, level);
      }
    }
  }

  /** The three candidate sets: all places, those not marked optional, those marked must-see; unmarked ones are normal. */
  lemma TiersAreExact(nodeIds: seq<Id>, priorities: map<Id, Priority>)
    ensures Tier(nodeIds, priorities, 0) == nodeIds
    ensures forall n :: n in Tier(nodeIds, priorities, 1) <==> n in nodeIds && PriorityOf(priorities, n) != Optional
    ensures forall n :: n in Tier(nodeIds, priorities, 2) <==> n in nodeIds && PriorityOf(priorities, n) == MustSee
    ensures KeptInOrder(Tier(nodeIds, priorities, 1), nodeIds, (n: Id) => n !in priorities || priorities[n] != Optional)
    ensures KeptInOrder(Tier(nodeIds, priorities, 2), nodeIds, (n: Id) => n in priorities && priorities[n] == MustSee)
  {
    TierElements(nodeIds, priorities, 0);
    TierElements(nodeIds, priorities, 1);
    TierElements(nodeIds, priorities, 2);
    TierInOrder(nodeIds, priorities, 1, (n: Id) => n !in priorities || priorities[n] != Optional);
    TierInOrder(nodeIds, priorities, 2, (n: Id) => n in priorities && priorities[n] == MustSee);
  }

  lemma {:induction false} TierInOrder(nodeIds: seq<Id>, priorities: map<Id, Priority>, level: nat, keep: Id -> bool)
    requires forall n :: keep(n) <==> InTier(priorities, level, n)
    ensures KeptInOrder(Tier(nodeIds, priorities, level), nodeIds, keep)
  {
    hide KeptInOrder;
    if nodeIds == [] {
      NothingKept(keep);
    } else {
      TierInOrder(nodeIds[..|nodeIds| - 1], priorities, level, keep);
      KeptNext(Tier(nodeIds[..|nodeIds| - 1], priorities, level), nodeIds, keep);
    }
  }

  method SelectTier(nodeIds: seq<Id>, priorities: map<Id, Priority>, level: nat) returns (tier: seq<Id>)
    ensures tier == Tier(nodeIds, priorities, level)
  {
    tier := [];
    for i := 0 to |nodeIds|
      invariant tier == Tier(nodeIds[..i], priorities, level)
    {
      assert nodeIds[..i + 1][..i] == nodeIds[..i];
      if InTier(priorities, level, nodeIds[i]) {
        tier := tier + [nodeIds[i]];
      }
    }
    assert nodeIds[..|nodeIds|] == nodeIds;
  }

  /** How many stops are requested places of a given priority. */
  function Count(nodeIds: seq<Id>, priorities: map<Id, Priority>, route: seq<Id>, pr: Priority): nat {
    if route == [] then 0
    else
      var n := route[|route| - 1];
      Count(nodeIds, priorities, route[..|route| - 1], pr)
      + (if n in nodeIds && PriorityOf(priorities, n) == pr then 1 else 0)
  }

  /** The weight an attempt is kept by; anchors weigh nothing. */
  function RouteWeight(nodeIds: seq<Id>, priorities: map<Id, Priority>, route: seq<Id>): int {
    if route == [] then 0
    else
      var n := route[|route| - 1];
      RouteWeight(nodeIds, priorities, route[..|route| - 1])
      + (if n in nodeIds then PriorityWeight(PriorityOf(priorities, n)) else 0)
  }

  method SumWeights(weights: map<Id, int>, route: seq<Id>, ghost nodeIds: seq<Id>, ghost priorities: map<Id, Priority>)
    returns (score: int)
    requires weights == Weights(nodeIds, priorities)
    ensures score == RouteWeight(nodeIds, priorities, route)
  {
    score := 0;
    for i := 0 to |route|
      invariant score == RouteWeight(nodeIds, priorities, route[..i])
    {
      assert route[..i + 1][..i] == route[..i];
      score := score + (if route[i] in weights then weights[route[i]] else 0);
    }
    assert route[..|route|] == route;
  }

  /** Lexicographic comparison of (must-see, normal, optional) counts: `b` visits more than `a`. */
  predicate LexLess(nodeIds: seq<Id>, priorities: map<Id, Priority>, a: seq<Id>, b: seq<Id>) {
    var ma, mb := Count(nodeIds, priorities, a, MustSee), Count(nodeIds, priorities, b, MustSee);
    var na, nb := Count(nodeIds, priorities, a, Normal), Count(nodeIds, priorities, b, Normal);
    var oa, ob := Count(nodeIds, priorities, a, Optional), Count(nodeIds, priorities, b, Optional);
    ma < mb || (ma == mb && (na < nb || (na == nb && oa < ob)))
  }

  lemma {:induction false} WeightByCounts(nodeIds: seq<Id>, priorities: map<Id, Priority>, route: seq<Id>)
    ensures RouteWeight(nodeIds, priorities, route) ==
            1_000_000 * Count(nodeIds, priorities, route, MustSee)
            + 1_000 * Count(nodeIds, priorities, route, Normal)
            + Count(nodeIds, priorities, route, Optional)
  {
    if route != [] {
      WeightByCounts(nodeIds, priorities, route[..|route| - 1]);
    }
  }

  lemma VisitedGrows(nodeIds: seq<Id>, priorities: map<Id, Priority>, route: seq<Id>, pr: Priority)
    requires Distinct(route) && route != []
    ensures var k := |route| - 1;
            var before := VisitedOf(nodeIds, priorities, route[..k], pr);
            var visited := VisitedOf(nodeIds, priorities, route, pr);
            if route[k] in nodeIds && PriorityOf(priorities, route[k]) == pr
            then route[k] !in before && visited == before + {route[k]}
            else visited == before
  {
    LastElement(route);
  }

  /** In a route without repetitions the count of a priority is the number of places visited with it. */
  lemma {:induction false} CountIsSize(nodeIds: seq<Id>, priorities: map<Id, Priority>, route: seq<Id>, pr: Priority)
    requires Distinct(route)
    ensures Count(nodeIds, priorities, route, pr) == |VisitedOf(nodeIds, priorities, route, pr)|
  {
    if route == [] {
      assert VisitedOf(nodeIds, priorities, route, pr) == {};
    } else {
      CountIsSize(nodeIds, priorities, route[..|route| - 1], pr);
      VisitedGrows(nodeIds, priorities, route, pr);
    }
  }

  /** A route without repetitions visits no more places of any priority than there are. */
  lemma CountBounded(nodeIds: seq<Id>, priorities: map<Id, Priority>, route: seq<Id>, pr: Priority)
    requires Distinct(route)
    ensures Count(nodeIds, priorities, route, pr) <= |nodeIds|
  {
    CountIsSize(nodeIds, priorities, route, pr);
    SubsetSize(VisitedOf(nodeIds, priorities, route, pr), Elements(nodeIds));
    ElementsSize(nodeIds);
  }

  function VisitedOf(nodeIds: seq<Id>, priorities: map<Id, Priority>, route: seq<Id>, pr: Priority): set<Id> {
    set n | n in route && n in nodeIds && PriorityOf(priorities, n) == pr
  }

  lemma {:induction false} SubsetSize<T>(a: set<T>, b: set<T>)
    requires a <= b
    ensures |a| <= |b|
    ensures |a| == |b| ==> a == b
  {
    assert b == a + (b - a);
    assert |b| == |a| + |b - a|;
    if |a| == |b| {
      assert b - a == {};
    }
  }

  lemma {:induction false} ElementsSize<T>(s: seq<T>)
    ensures |Elements(s)| <= |s|
  {
    if s != [] {
      ElementsSize(s[1..]);
      assert s == [s[0]] + s[1..];
      assert Elements(s) == {s[0]} + Elements(s[1..]);
    }
  }

  /** Below 1000 places the weights order routes exactly as the lexicographic counts do. */
  lemma WeightsAreLexicographic(nodeIds: seq<Id>, priorities: map<Id, Priority>, a: seq<Id>, b: seq<Id>)
    requires |nodeIds| < 1000 && Distinct(a) && Distinct(b)
    ensures RouteWeight(nodeIds, priorities, a) < RouteWeight(nodeIds, priorities, b)
            <==> LexLess(nodeIds, priorities, a, b)
  {
    WeightByCounts(nodeIds, priorities, a);
    WeightByCounts(nodeIds, priorities, b);
    CountBounded(nodeIds, priorities, a, Normal);
    CountBounded(nodeIds, priorities, b, Normal);
    CountBounded(nodeIds, priorities, a, Optional);
    CountBounded(nodeIds, priorities, b, Optional);
  }

  // ---------------------------------------------------------------------------------------
  // The best of the runs within one attempt
  // ---------------------------------------------------------------------------------------

  /** Stops that are no requested places; each of them scores 1. */
  function Outside(nodeIds: seq<Id>, route: seq<Id>): nat {
    if route == [] then 0
    else Outside(nodeIds, route[..|route| - 1]) + (if route[|route| - 1] in nodeIds then 0 else 1)
  }

  /** The score the construction compares is the weight of the requested places plus one for every other stop. */
  lemma {:induction false} ScoreIsWeight(nodeIds: seq<Id>, priorities: map<Id, Priority>, route: seq<Id>)
    ensures Score(route, Some(Weights(nodeIds, priorities))) == RouteWeight(nodeIds, priorities, route) + Outside(nodeIds, route)
  {
    if route != [] {
      ScoreIsWeight(nodeIds, priorities, route[..|route| - 1]);
    }
  }

  lemma {:induction false} NoneOutside(nodeIds: seq<Id>, route: seq<Id>)
    requires forall n :: n in route ==> n in nodeIds
    ensures Outside(nodeIds, route) == 0
  {
    if route != [] {
      NoneOutside(nodeIds, route[..|route| - 1]);
    }
  }

  /** A run over a tier has nothing but its end anchor outside the request. */
  lemma RunOutside(p: Problem, nodeIds: seq<Id>, tier: seq<Id>, start: Id, endAnchor: Option<Id>, route: seq<Id>)
    requires IsAttempt(p, start, tier, endAnchor, route) && start in tier && forall n :: n in tier ==> n in nodeIds
    requires endAnchor.Some? ==> endAnchor.value !in nodeIds
    ensures Outside(nodeIds, route) == if route != [] && endAnchor.Some? then 1 else 0
    ensures Distinct(route)
  {
    if route != [] {
      var core := Core(route, endAnchor);
      GreedyVisitsNodes(p, start, tier, core, endAnchor);
      NoneOutside(nodeIds, core);
      if endAnchor.Some? {
        assert route == core + [endAnchor.value];
        LastElement(route);
      }
    }
  }

  /** No run over any starting node visits lexicographically more places, nor as many with less travel. */
  ghost predicate BestOfRuns(p: Problem, nodeIds: seq<Id>, priorities: map<Id, Priority>, tier: seq<Id>,
                             endAnchor: Option<Id>, runs: seq<seq<Id>>, route: seq<Id>)
  {
    && |runs| == |tier| && route in runs
    && (forall i :: 0 <= i < |runs| ==>
          && IsAttempt(p, tier[i], tier, endAnchor, runs[i])
          && !LexLess(nodeIds, priorities, route, runs[i])
          && (LexLess(nodeIds, priorities, runs[i], route) || runs[i] == [] || RouteTravel(p, route) <= RouteTravel(p, runs[i])))
    && exists k :: 0 <= k < |runs| && runs[k] == route && forall i :: 0 <= i < k ==>
         LexLess(nodeIds, priorities, runs[i], route) || runs[i] == [] || RouteTravel(p, route) < RouteTravel(p, runs[i])
  }

  lemma RunIsNoBetter(p: Problem, nodeIds: seq<Id>, priorities: map<Id, Priority>, tier: seq<Id>, endAnchor: Option<Id>,
                      start: Id, other: Id, route: seq<Id>, run: seq<Id>)
    requires |nodeIds| < 1000 && forall n :: n in tier ==> n in nodeIds
    requires start in tier && other in tier && (endAnchor.Some? ==> endAnchor.value !in nodeIds)
    requires IsAttempt(p, start, tier, endAnchor, route) && IsAttempt(p, other, tier, endAnchor, run)
    requires NoBetter(p, run, route, Some(Weights(nodeIds, priorities)))
    ensures !LexLess(nodeIds, priorities, route, run)
    ensures LexLess(nodeIds, priorities, run, route) || run == [] || RouteTravel(p, route) <= RouteTravel(p, run)
    ensures StrictlyWorse(p, run, route, Some(Weights(nodeIds, priorities))) ==>
              LexLess(nodeIds, priorities, run, route) || run == [] || RouteTravel(p, route) < RouteTravel(p, run)
  {
    RunOutside(p, nodeIds, tier, start, endAnchor, route);
    RunOutside(p, nodeIds, tier, other, endAnchor, run);
    hide IsAttempt, LexLess, RouteTravel;
    ScoreIsWeight(nodeIds, priorities, route);
    ScoreIsWeight(nodeIds, priorities, run);
    WeightByCounts(nodeIds, priorities, route);
    WeightByCounts(nodeIds, priorities, run);
    EmptyWeighsNothing(nodeIds, priorities, route, run);
    WeightsAreLexicographic(nodeIds, priorities, route, run);
    WeightsAreLexicographic(nodeIds, priorities, run, route);
  }

  lemma EmptyWeighsNothing(nodeIds: seq<Id>, priorities: map<Id, Priority>, a: seq<Id>, b: seq<Id>)
    ensures a == [] ==> RouteWeight(nodeIds, priorities, a) == 0
    ensures b == [] ==> RouteWeight(nodeIds, priorities, b) == 0
  {
  }

  /** Below 1000 places, the route kept over all starting nodes is the best of the runs by counts, then by travel. */
  lemma RunsKeepMost(p: Problem, nodeIds: seq<Id>, priorities: map<Id, Priority>, tier: seq<Id>, endAnchor: Option<Id>,
                     runs: seq<seq<Id>>, route: seq<Id>)
    requires |nodeIds| < 1000 && tier != [] && forall n :: n in tier ==> n in nodeIds
    requires endAnchor.Some? ==> endAnchor.value !in nodeIds
    requires AttemptsRun(p, tier, endAnchor, runs) && |runs| == |tier|
    requires FirstBest(p, runs, route, Some(Weights(nodeIds, priorities)))
    ensures BestOfRuns(p, nodeIds, priorities, tier, endAnchor, runs, route)
  {
    hide IsAttempt, LexLess, NoBetter, StrictlyWorse, RouteTravel;
    var k :| 0 <= k < |runs| && BestAt(p, runs, k, route, Some(Weights(nodeIds, priorities)));
    forall i | 0 <= i < |runs|
      ensures !LexLess(nodeIds, priorities, route, runs[i])
      ensures LexLess(nodeIds, priorities, runs[i], route) || runs[i] == [] || RouteTravel(p, route) <= RouteTravel(p, runs[i])
      ensures i < k ==>
                LexLess(nodeIds, priorities, runs[i], route) || runs[i] == [] || RouteTravel(p, route) < RouteTravel(p, runs[i])
    {
      RunIsNoBetter(p, nodeIds, priorities, tier, endAnchor, tier[k], tier[i], route, runs[i]);
    }
  }

  /** One run of the construction on the tier of a level. */
  datatype Attempt = Attempt(level: nat, tier: seq<Id>, route: seq<Id>, skipped: seq<Id>)

  /** The anchors are no requested places. */
  predicate AnchorsApart(p: Instance, nodeIds: seq<Id>, startAnchor: Option<Id>, endAnchor: Option<Id>) {
    && (startAnchor.Some? ==> p.IsAnchor(startAnchor.value) && startAnchor.value !in nodeIds)
    && (endAnchor.Some? ==> p.IsAnchor(endAnchor.value) && endAnchor.value !in nodeIds)
    && (startAnchor.Some? ==> startAnchor != endAnchor)
  }

  predicate IsStop(n: Id, startAnchor: Option<Id>, endAnchor: Option<Id>) {
    Some(n) != startAnchor && Some(n) != endAnchor
  }

  /** What every attempt guarantees, however its start was chosen. */
  ghost predicate Sound(p: Instance, a: Attempt, startAnchor: Option<Id>, endAnchor: Option<Id>) {
    && Distinct(a.route)
    && (a.route != [] ==> Feasible(p, a.route))
    && (a.route != [] && startAnchor.Some? ==> a.route[0] == startAnchor.value)
    && (a.route != [] && endAnchor.Some? ==> a.route[|a.route| - 1] == endAnchor.value)
    && (forall n :: n in a.route && IsStop(n, startAnchor, endAnchor) ==> n in a.tier)
    && Elements(a.skipped) == Elements(a.tier) - Elements(a.route)
    && (Distinct(a.tier) ==> Distinct(a.skipped))
  }

  lemma AttemptIsSound(p: Problem, start: Id, a: Attempt, startAnchor: Option<Id>, endAnchor: Option<Id>)
    requires AnchorApart(p, start, a.tier, endAnchor)
    requires startAnchor == Some(start) || (startAnchor == None && start in a.tier)
    requires IsAttempt(p, start, a.tier, endAnchor, a.route)
    requires Splits(a.tier, endAnchor, a.route, a.skipped) || a.skipped == SelectSkipped(a.tier, Elements(a.route))
    ensures Sound(p, a, startAnchor, endAnchor)
  {
    SelectSkippedElements(a.tier, Elements(a.route));
    var core := Core(a.route, endAnchor);
    if a.route != [] {
      GreedyVisitsNodes(p, start, a.tier, core, endAnchor);
      if endAnchor.Some? {
        assert a.route == core + [endAnchor.value];
      }
      assert Pool(a.tier, core) == Elements(a.tier) - Elements(a.route);
    }
  }

  method RunTier(p: Problem, tier: seq<Id>, weights: map<Id, int>, startAnchor: Option<Id>, endAnchor: Option<Id>,
                 ghost level: nat)
    returns (route: seq<Id>, skipped: seq<Id>)
    requires AnchorsApart(p, tier, startAnchor, endAnchor) && PositiveWeights(Some(weights))
    ensures Sound(p, Attempt(level, tier, route, skipped), startAnchor, endAnchor)
    ensures RunOf(p, tier, weights, startAnchor, endAnchor, route)
  {
    if startAnchor.Some? {
      route, skipped := NnFromStart(p, startAnchor.value, tier, endAnchor);
      AttemptIsSound(p, startAnchor.value, Attempt(level, tier, route, skipped), startAnchor, endAnchor);
    } else {
      ghost var attempts;
      route, skipped, attempts := NearestNeighborRoute(p, tier, Some(weights), endAnchor);
      if tier != [] {
        ghost var k :| 0 <= k < |attempts| && BestAt(p, attempts, k, route, Some(weights));
        AttemptIsSound(p, tier[k], Attempt(level, tier, route, skipped), startAnchor, endAnchor);
      }
      assert AttemptsRun(p, tier, endAnchor, attempts);
    }
  }

  /** The route of a tier: pinned to the start anchor, or the best over all starting nodes. */
  ghost predicate RunOf(p: Problem, tier: seq<Id>, weights: map<Id, int>, startAnchor: Option<Id>,
                        endAnchor: Option<Id>, route: seq<Id>)
  {
    if startAnchor.Some? then IsAttempt(p, startAnchor.value, tier, endAnchor, route)
    else if tier == [] then route == []
    else exists attempts :: && AttemptsRun(p, tier, endAnchor, attempts) && |attempts| == |tier|
                            && FirstBest(p, attempts, route, Some(weights))
  }

  predicate SkipsMustSee(priorities: map<Id, Priority>, skipped: seq<Id>) {
    exists n :: n in skipped && PriorityOf(priorities, n) == MustSee
  }

  /** The kept attempt is the first one of greatest weight. */
  ghost predicate KeptBest(nodeIds: seq<Id>, priorities: map<Id, Priority>, attempts: seq<Attempt>, kept: int) {
    && 0 <= kept < |attempts|
    && (forall i :: 0 <= i < |attempts| ==>
          RouteWeight(nodeIds, priorities, attempts[i].route) <= RouteWeight(nodeIds, priorities, attempts[kept].route))
    && (forall i :: 0 <= i < kept ==>
          RouteWeight(nodeIds, priorities, attempts[i].route) < RouteWeight(nodeIds, priorities, attempts[kept].route))
  }

  ghost predicate RanTier(p: Problem, nodeIds: seq<Id>, priorities: map<Id, Priority>, a: Attempt,
                          startAnchor: Option<Id>, endAnchor: Option<Id>)
  {
    && a.level < 3 && a.tier == Tier(nodeIds, priorities, a.level)
    && Sound(p, a, startAnchor, endAnchor)
    && RunOf(p, a.tier, Weights(nodeIds, priorities), startAnchor, endAnchor, a.route)
  }

  /** The next attempt is at a higher level with fewer places; the levels passed over would have removed nothing. */
  predicate Descends(nodeIds: seq<Id>, priorities: map<Id, Priority>, a: Attempt, level: nat, tier: seq<Id>) {
    && a.level < level && |tier| < |a.tier|
    && forall l: nat :: a.level < l < level ==> |Tier(nodeIds, priorities, l)| == |a.tier|
  }

  /**
   * The attempts were runs on ever smaller tiers of ever higher levels, starting with all places; each but
   * the last left out a must-see.
   */
  ghost predicate RanTiers(p: Problem, nodeIds: seq<Id>, priorities: map<Id, Priority>, attempts: seq<Attempt>,
                           startAnchor: Option<Id>, endAnchor: Option<Id>)
  {
    && (attempts != [] ==> attempts[0].level == 0)
    && (forall i :: 0 <= i < |attempts| ==> RanTier(p, nodeIds, priorities, attempts[i], startAnchor, endAnchor))
    && (forall i :: 0 <= i < |attempts| - 1 ==> SkipsMustSee(priorities, attempts[i].skipped))
    && (forall i :: 0 <= i < |attempts| - 1 ==>
          Descends(nodeIds, priorities, attempts[i], attempts[i + 1].level, attempts[i + 1].tier))
  }

  /** A higher level keeps no more places. */
  lemma {:induction false} TiersShrink(nodeIds: seq<Id>, priorities: map<Id, Priority>, level: nat)
    ensures |Tier(nodeIds, priorities, level + 1)| <= |Tier(nodeIds, priorities, level)|
  {
    if nodeIds != [] {
      TiersShrink(nodeIds[..|nodeIds| - 1], priorities, level);
    }
  }

  /** The tiers run out only when the must-see tier has been reached. */
  ghost predicate TiersDone(nodeIds: seq<Id>, priorities: map<Id, Priority>, attempts: seq<Attempt>) {
    && attempts != []
    && (|| !SkipsMustSee(priorities, attempts[|attempts| - 1].skipped)
        || |attempts[|attempts| - 1].tier| == |Tier(nodeIds, priorities, 2)|)
  }

  /** The attempts run, in order, and the one that is kept. */
  ghost predicate Searched(p: Problem, nodeIds: seq<Id>, priorities: map<Id, Priority>, startAnchor: Option<Id>,
                           endAnchor: Option<Id>, attempts: seq<Attempt>, kept: int, best: Attempt)
  {
    && RanTiers(p, nodeIds, priorities, attempts, startAnchor, endAnchor)
    && TiersDone(nodeIds, priorities, attempts)
    && KeptBest(nodeIds, priorities, attempts, kept)
    && attempts[kept] == best
  }

  method SolveWithPriorities(p: Problem, nodeIds: seq<Id>, priorities: map<Id, Priority>, startAnchor: Option<Id>,
                             endAnchor: Option<Id>)
    returns (best: Attempt, dropped: seq<Id>, ghost attempts: seq<Attempt>, ghost kept: int)
    requires AnchorsApart(p, nodeIds, startAnchor, endAnchor)
    ensures Searched(p, nodeIds, priorities, startAnchor, endAnchor, attempts, kept, best)
    ensures dropped == SelectSkipped(nodeIds, Elements(best.tier))
  {
    best, attempts, kept := SearchTiers(p, nodeIds, priorities, startAnchor, endAnchor);
    dropped := ListSkipped(nodeIds, Elements(best.tier));
  }

  method SearchTiers(p: Problem, nodeIds: seq<Id>, priorities: map<Id, Priority>, startAnchor: Option<Id>,
                     endAnchor: Option<Id>)
    returns (best: Attempt, ghost attempts: seq<Attempt>, ghost kept: int)
    requires AnchorsApart(p, nodeIds, startAnchor, endAnchor)
    ensures Searched(p, nodeIds, priorities, startAnchor, endAnchor, attempts, kept, best)
  {
    hide RanTier, Tier;
    attempts, kept := [], 0;
    best := Attempt(0, [], [], []);
    var bestScore := -1;
    var prevSize: Option<nat> := None;
    var level: nat := 0;
    var stop := false;
    while level < 3 && !stop
      invariant level <= 3 && (level == 0 <==> attempts == [])
      invariant RanTiers(p, nodeIds, priorities, attempts, startAnchor, endAnchor)
      invariant Keeping(nodeIds, priorities, attempts, kept, best, bestScore, prevSize, stop)
      invariant level > 0 ==> prevSize == Some(|Tier(nodeIds, priorities, level - 1)|)
      invariant attempts != [] ==>
                  var last := attempts[|attempts| - 1];
                  && last.level < level
                  && forall l: nat :: last.level < l < level ==> |Tier(nodeIds, priorities, l)| == |last.tier|
    {
      if level > 0 {
        TiersShrink(nodeIds, priorities, level - 1);
      }
      var tier := SelectTier(nodeIds, priorities, level);
      level := level + 1;
      if prevSize == Some(|tier|) {
        continue;  // this tier removes nothing
      }
      prevSize := Some(|tier|);
      var attempt, score := TryTier(p, nodeIds, priorities, tier, startAnchor, endAnchor, attempts, level - 1);
      KeepBest(nodeIds, priorities, attempts, kept, best, bestScore, attempt);
      if score > bestScore {
        bestScore := score;
        best := attempt;
        kept := |attempts|;
      }
      attempts := attempts + [attempt];
      stop := !SkipsMustSee(priorities, attempt.skipped);
    }
  }

  method TryTier(p: Problem, nodeIds: seq<Id>, priorities: map<Id, Priority>, tier: seq<Id>, startAnchor: Option<Id>,
                 endAnchor: Option<Id>, ghost attempts: seq<Attempt>, level: nat)
    returns (attempt: Attempt, score: int)
    requires AnchorsApart(p, nodeIds, startAnchor, endAnchor)
    requires RanTiers(p, nodeIds, priorities, attempts, startAnchor, endAnchor)
    requires level < 3 && tier == Tier(nodeIds, priorities, level)
    requires if attempts == [] then level == 0
             else && SkipsMustSee(priorities, attempts[|attempts| - 1].skipped)
                  && Descends(nodeIds, priorities, attempts[|attempts| - 1], level, tier)
    ensures attempt.level == level && attempt.tier == tier
    ensures RanTiers(p, nodeIds, priorities, attempts + [attempt], startAnchor, endAnchor)
    ensures score == RouteWeight(nodeIds, priorities, attempt.route)
  {
    var weights := Weights(nodeIds, priorities);
    TierElements(nodeIds, priorities, level);
    var route, skipped := RunTier(p, tier, weights, startAnchor, endAnchor, level);
    attempt := Attempt(level, tier, route, skipped);
    score := SumWeights(weights, route, nodeIds, priorities);
    RanOneMore(p, nodeIds, priorities, attempts, startAnchor, endAnchor, attempt);
  }

  /** The best attempt so far, the size of the last tier that was run, and whether it left out no must-see. */
  ghost predicate Keeping(nodeIds: seq<Id>, priorities: map<Id, Priority>, attempts: seq<Attempt>, kept: int,
                          best: Attempt, bestScore: int, prevSize: Option<nat>, stop: bool)
  {
    if attempts == [] then bestScore == -1 && prevSize == None && !stop
    else
      && KeptBest(nodeIds, priorities, attempts, kept)
      && attempts[kept] == best
      && bestScore == RouteWeight(nodeIds, priorities, best.route)
      && prevSize == Some(|attempts[|attempts| - 1].tier|)
      && stop == !SkipsMustSee(priorities, attempts[|attempts| - 1].skipped)
  }

  lemma KeepBest(nodeIds: seq<Id>, priorities: map<Id, Priority>, attempts: seq<Attempt>, kept: int,
                 best: Attempt, bestScore: int, next: Attempt)
    requires attempts == [] ==> bestScore == -1
    requires attempts != [] ==>
               && KeptBest(nodeIds, priorities, attempts, kept) && attempts[kept] == best
               && bestScore == RouteWeight(nodeIds, priorities, best.route)
    ensures var more := attempts + [next];
            var score := RouteWeight(nodeIds, priorities, next.route);
            var stop := !SkipsMustSee(priorities, next.skipped);
            if score > bestScore
            then Keeping(nodeIds, priorities, more, |attempts|, next, score, Some(|next.tier|), stop)
            else Keeping(nodeIds, priorities, more, kept, best, bestScore, Some(|next.tier|), stop)
  {
    WeightByCounts(nodeIds, priorities, next.route);
  }

  lemma RanOneMore(p: Problem, nodeIds: seq<Id>, priorities: map<Id, Priority>, attempts: seq<Attempt>,
                   startAnchor: Option<Id>, endAnchor: Option<Id>, next: Attempt)
    requires RanTiers(p, nodeIds, priorities, attempts, startAnchor, endAnchor)
    requires attempts == [] ==> next.level == 0
    requires attempts != [] ==>
               && SkipsMustSee(priorities, attempts[|attempts| - 1].skipped)
               && Descends(nodeIds, priorities, attempts[|attempts| - 1], next.level, next.tier)
    requires RanTier(p, nodeIds, priorities, next, startAnchor, endAnchor)
    ensures RanTiers(p, nodeIds, priorities, attempts + [next], startAnchor, endAnchor)
  {
    hide RanTier, SkipsMustSee, Descends;
    var more := attempts + [next];
    forall i | 0 <= i < |more| ensures RanTier(p, nodeIds, priorities, more[i], startAnchor, endAnchor) {
      assert more[i] == if i < |attempts| then attempts[i] else next;
    }
    forall i | 0 <= i < |more| - 1
      ensures SkipsMustSee(priorities, more[i].skipped)
      ensures Descends(nodeIds, priorities, more[i], more[i + 1].level, more[i + 1].tier)
    {
      assert more[i] == attempts[i];
      assert i < |attempts| - 1 || i == |attempts| - 1;
    }
  }

  /** A level that removes nobody keeps the tier. */
  lemma {:induction false} SameSizeSameTier(nodeIds: seq<Id>, priorities: map<Id, Priority>, level: nat)
    requires |Tier(nodeIds, priorities, level + 1)| == |Tier(nodeIds, priorities, level)|
    ensures Tier(nodeIds, priorities, level + 1) == Tier(nodeIds, priorities, level)
  {
    if nodeIds != [] {
      TiersShrink(nodeIds[..|nodeIds| - 1], priorities, level);
      SameSizeSameTier(nodeIds[..|nodeIds| - 1], priorities, level);
    }
  }

  /** An attempt left out a must-see. */
  predicate LeftOutMustSee(priorities: map<Id, Priority>, a: Attempt) {
    exists n :: n in a.skipped && PriorityOf(priorities, n) == MustSee
  }

  /** An attempt was made with exactly the requested places that are not optional. */
  ghost predicate WithoutOptional(nodeIds: seq<Id>, priorities: map<Id, Priority>, a: Attempt) {
    forall n :: n in a.tier <==> n in nodeIds && PriorityOf(priorities, n) != Optional
  }

  /**
   * Why places are dropped: an optional one because the attempt over all places left out a must-see, a normal
   * one because the attempt without optional places did too; and the attempts end only when no must-see is
   * left out or nothing but must-sees was tried.
   */
  ghost predicate DropsExplained(nodeIds: seq<Id>, priorities: map<Id, Priority>, attempts: seq<Attempt>, dropped: seq<Id>) {
    && attempts != [] && attempts[0].tier == nodeIds
    && (forall n :: n in dropped && PriorityOf(priorities, n) == Optional ==> LeftOutMustSee(priorities, attempts[0]))
    && (forall n :: n in dropped && PriorityOf(priorities, n) == Normal ==>
          exists a :: a in attempts && WithoutOptional(nodeIds, priorities, a) && LeftOutMustSee(priorities, a))
    && (LeftOutMustSee(priorities, attempts[|attempts| - 1]) ==>
          forall n :: n in attempts[|attempts| - 1].tier <==> n in nodeIds && PriorityOf(priorities, n) == MustSee)
  }

  lemma DropReasons(p: Problem, nodeIds: seq<Id>, priorities: map<Id, Priority>, startAnchor: Option<Id>,
                    endAnchor: Option<Id>, attempts: seq<Attempt>, kept: int, dropped: seq<Id>)
    requires RanTiers(p, nodeIds, priorities, attempts, startAnchor, endAnchor)
    requires TiersDone(nodeIds, priorities, attempts) && 0 <= kept < |attempts|
    requires dropped == SelectSkipped(nodeIds, Elements(attempts[kept].tier))
    ensures DropsExplained(nodeIds, priorities, attempts, dropped)
  {
    hide Sound, RunOf, Tier, RanTier, KeptInOrder, SelectSkipped, Distinct;
    forall i | 0 <= i < |attempts|
      ensures attempts[i].level < 3 && attempts[i].tier == Tier(nodeIds, priorities, attempts[i].level)
    {
      RanTierFacts(p, nodeIds, priorities, attempts[i], startAnchor, endAnchor);
    }
    TiersAreExact(nodeIds, priorities);
    SelectSkippedElements(nodeIds, Elements(attempts[kept].tier));
    forall n | n in dropped ensures n in nodeIds && n !in attempts[kept].tier {
      assert n in Elements(dropped);
    }
    if n :| n in dropped && PriorityOf(priorities, n) == Normal {
      NormalDropped(nodeIds, priorities, attempts, kept, n);
    }
    if LeftOutMustSee(priorities, attempts[|attempts| - 1]) {
      LastTier(nodeIds, priorities, attempts[|attempts| - 1].level);
    }
  }

  lemma NormalDropped(nodeIds: seq<Id>, priorities: map<Id, Priority>, attempts: seq<Attempt>, kept: int, n: Id)
    requires 0 <= kept < |attempts| && attempts[0].level == 0
    requires forall i :: 0 <= i < |attempts| ==>
               attempts[i].level < 3 && attempts[i].tier == Tier(nodeIds, priorities, attempts[i].level)
    requires forall i :: 0 <= i < |attempts| - 1 ==>
               && SkipsMustSee(priorities, attempts[i].skipped)
               && Descends(nodeIds, priorities, attempts[i], attempts[i + 1].level, attempts[i + 1].tier)
    requires n in nodeIds && n !in attempts[kept].tier && PriorityOf(priorities, n) == Normal
    ensures exists a :: a in attempts && WithoutOptional(nodeIds, priorities, a) && LeftOutMustSee(priorities, a)
  {
    TiersAreExact(nodeIds, priorities);
    hide Tier;
    assert attempts[kept].level == 2 && kept > 0;
    var a := attempts[kept - 1];
    assert Descends(nodeIds, priorities, a, attempts[kept].level, attempts[kept].tier);
    if a.level == 0 {
      SameSizeSameTier(nodeIds, priorities, 0);
    }
    assert a in attempts && WithoutOptional(nodeIds, priorities, a) && LeftOutMustSee(priorities, a);
  }

  lemma LastTier(nodeIds: seq<Id>, priorities: map<Id, Priority>, level: nat)
    requires level < 3 && |Tier(nodeIds, priorities, level)| == |Tier(nodeIds, priorities, 2)|
    ensures forall n :: n in Tier(nodeIds, priorities, level) <==> n in nodeIds && PriorityOf(priorities, n) == MustSee
  {
    TiersAreExact(nodeIds, priorities);
    hide Tier;
    TiersShrink(nodeIds, priorities, 0);
    TiersShrink(nodeIds, priorities, 1);
    if level < 2 {
      SameSizeSameTier(nodeIds, priorities, 1);
    }
    if level == 0 {
      SameSizeSameTier(nodeIds, priorities, 0);
    }
  }

  /** A place is given up only for a route that is better than that of every attempt which still had it. */
  ghost predicate DroppedForBetter(nodeIds: seq<Id>, priorities: map<Id, Priority>, attempts: seq<Attempt>, dropped: seq<Id>,
                                   visited: seq<Id>) {
    forall n, i :: n in dropped && 0 <= i < |attempts| && n in attempts[i].tier ==>
      LexLess(nodeIds, priorities, attempts[i].route, visited)
  }

  /** Later attempts have higher levels, and tiers of higher levels hold no more. */
  lemma {:induction false} LaterTiersHoldLess(nodeIds: seq<Id>, priorities: map<Id, Priority>, attempts: seq<Attempt>, i: nat, j: nat)
    requires i < j < |attempts|
    requires forall k :: 0 <= k < |attempts| ==> attempts[k].tier == Tier(nodeIds, priorities, attempts[k].level)
    requires forall k :: 0 <= k < |attempts| - 1 ==>
               Descends(nodeIds, priorities, attempts[k], attempts[k + 1].level, attempts[k + 1].tier)
    ensures attempts[i].level < attempts[j].level
    ensures forall n :: n in attempts[j].tier ==> n in attempts[i].tier
    decreases j - i
  {
    hide Tier;
    if i + 1 < j {
      LaterTiersHoldLess(nodeIds, priorities, attempts, i, j - 1);
    }
    assert Descends(nodeIds, priorities, attempts[j - 1], attempts[j].level, attempts[j].tier);
    TierElements(nodeIds, priorities, attempts[i].level);
    TierElements(nodeIds, priorities, attempts[j].level);
  }

  lemma DropsPayOff(p: Problem, nodeIds: seq<Id>, priorities: map<Id, Priority>, startAnchor: Option<Id>,
                    endAnchor: Option<Id>, attempts: seq<Attempt>, kept: int, dropped: seq<Id>)
    requires |nodeIds| < 1000
    requires RanTiers(p, nodeIds, priorities, attempts, startAnchor, endAnchor)
    requires KeptBest(nodeIds, priorities, attempts, kept)
    requires dropped == SelectSkipped(nodeIds, Elements(attempts[kept].tier))
    ensures DroppedForBetter(nodeIds, priorities, attempts, dropped, attempts[kept].route)
  {
    hide RunOf, Tier, LexLess, Descends, RouteWeight, Distinct, RanTier, SkipsMustSee, SelectSkipped;
    forall i | 0 <= i < |attempts|
      ensures attempts[i].tier == Tier(nodeIds, priorities, attempts[i].level) && Distinct(attempts[i].route)
    {
      RanTierFacts(p, nodeIds, priorities, attempts[i], startAnchor, endAnchor);
    }
    SelectSkippedElements(nodeIds, Elements(attempts[kept].tier));
    forall n, i | n in dropped && 0 <= i < |attempts| && n in attempts[i].tier
      ensures LexLess(nodeIds, priorities, attempts[i].route, attempts[kept].route)
    {
      assert n in Elements(dropped);
      if kept < i {
        LaterTiersHoldLess(nodeIds, priorities, attempts, kept, i);
      }
      WeightsAreLexicographic(nodeIds, priorities, attempts[i].route, attempts[kept].route);
    }
  }

  lemma RanTierFacts(p: Problem, nodeIds: seq<Id>, priorities: map<Id, Priority>, a: Attempt, startAnchor: Option<Id>,
                     endAnchor: Option<Id>)
    requires RanTier(p, nodeIds, priorities, a, startAnchor, endAnchor)
    ensures a.level < 3 && a.tier == Tier(nodeIds, priorities, a.level) && Distinct(a.route)
  {
    hide RunOf, Tier;
  }

  /** The must-sees of a request are visited by `route`. */
  ghost predicate VisitsMustSees(nodeIds: seq<Id>, priorities: map<Id, Priority>, route: seq<Id>) {
    forall n :: n in nodeIds && PriorityOf(priorities, n) == MustSee ==> n in route
  }

  /**
   * The priority guarantee. The kept attempt has lexicographically greatest counts among the
   * attempts run; it visits every must-see if any attempt did; no must-see is ever dropped; and
   * places are dropped only for a route that outweighs the one over all places.
   */
  lemma PriorityGuarantee(p: Problem, nodeIds: seq<Id>, priorities: map<Id, Priority>, startAnchor: Option<Id>,
                          endAnchor: Option<Id>, attempts: seq<Attempt>, kept: int, dropped: seq<Id>)
    requires |nodeIds| < 1000
    requires RanTiers(p, nodeIds, priorities, attempts, startAnchor, endAnchor)
    requires KeptBest(nodeIds, priorities, attempts, kept)
    requires dropped == SelectSkipped(nodeIds, Elements(attempts[kept].tier))
    ensures forall i :: 0 <= i < |attempts| ==> !LexLess(nodeIds, priorities, attempts[kept].route, attempts[i].route)
    ensures (exists i :: 0 <= i < |attempts| && VisitsMustSees(nodeIds, priorities, attempts[i].route))
            ==> VisitsMustSees(nodeIds, priorities, attempts[kept].route)
    ensures forall n :: n in dropped ==> n in nodeIds && PriorityOf(priorities, n) != MustSee
    ensures dropped != [] ==> LexLess(nodeIds, priorities, attempts[0].route, attempts[kept].route)
  {
    forall i | 0 <= i < |attempts|
      ensures !LexLess(nodeIds, priorities, attempts[kept].route, attempts[i].route)
      ensures VisitsMustSees(nodeIds, priorities, attempts[i].route)
              ==> VisitsMustSees(nodeIds, priorities, attempts[kept].route)
    {
      assert RanTier(p, nodeIds, priorities, attempts[i], startAnchor, endAnchor);
      WeightsAreLexicographic(nodeIds, priorities, attempts[kept].route, attempts[i].route);
      if VisitsMustSees(nodeIds, priorities, attempts[i].route) {
        MostMustSees(nodeIds, priorities, attempts[i].route, attempts[kept].route);
      }
    }
    assert RanTier(p, nodeIds, priorities, attempts[kept], startAnchor, endAnchor);
    assert RanTier(p, nodeIds, priorities, attempts[0], startAnchor, endAnchor);
    TierElements(nodeIds, priorities, attempts[kept].level);
    TierElements(nodeIds, priorities, 0);
    SelectSkippedElements(nodeIds, Elements(attempts[kept].tier));
    forall n | n in dropped ensures n in nodeIds && PriorityOf(priorities, n) != MustSee {
      assert n in Elements(dropped);
    }
    if dropped != [] {
      assert dropped[0] in Elements(dropped);
      assert kept != 0;
      WeightsAreLexicographic(nodeIds, priorities, attempts[0].route, attempts[kept].route);
    }
  }

  lemma MostMustSees(nodeIds: seq<Id>, priorities: map<Id, Priority>, all: seq<Id>, route: seq<Id>)
    requires Distinct(all) && Distinct(route) && VisitsMustSees(nodeIds, priorities, all)
    requires Count(nodeIds, priorities, all, MustSee) <= Count(nodeIds, priorities, route, MustSee)
    ensures VisitsMustSees(nodeIds, priorities, route)
  {
    CountIsSize(nodeIds, priorities, all, MustSee);
    CountIsSize(nodeIds, priorities, route, MustSee);
    var a := VisitedOf(nodeIds, priorities, all, MustSee);
    var b := VisitedOf(nodeIds, priorities, route, MustSee);
    assert b <= a;
    SubsetSize(b, a);
    forall n | n in nodeIds && PriorityOf(priorities, n) == MustSee ensures n in route {
      assert n in a;
    }
  }
}
