/** Assigning places to the days of a trip, and to the two sides of a transfer day. */
module Partition {
  import opened Wrappers
  import opened Sequences
  import opened TimeWindows
  import opened Scheduling
  import opened Priorities
  import opened OpeningHours
  import opened RouteOptimizer
  import opened Accommodations
  import opened TripRequests

  /** Windows and visit budgets on either side of a transfer. */
  datatype TransitionDayContext = TransitionDayContext(
    transfer: Transfer,
    origin: Stay,
    destination: Stay,
    preStartS: int,
    preEndS: int,
    postStartS: int,
    postEndS: int,
    preBudgetMin: int,
    postBudgetMin: int)

  datatype TransitionSide = ORIGIN | DESTINATION | NO_COORDINATES

  /** Whether a location is strictly nearer to the destination stay than to the origin stay. */
  type Geography = (real, real, Stay, Stay) -> bool

  function SideOf(doc: PlaceDoc, ctx: TransitionDayContext, nearer: Geography): TransitionSide {
    if !doc.HasCoordinates() then NO_COORDINATES
    else if nearer(doc.lat.value, doc.lng.value, ctx.origin, ctx.destination) then DESTINATION
    else ORIGIN
  }

  /** What the partition reads and never changes. */
  datatype Trip = Trip(
    days: seq<DayConfig>,
    docs: map<Id, PlaceDoc>,
    contexts: map<nat, TransitionDayContext>,
    nearer: Geography)
  {
    /** A place without a document counts as an empty one. */
    function Doc(id: Id): PlaceDoc {
      if id in docs then docs[id] else PlaceDoc(id, None, None, None, None, None, None, [])
    }

    function Minutes(id: Id): nat {
      Doc(id).VisitMin()
    }

    function Side(day: nat, id: Id): Option<TransitionSide> {
      if day in contexts then Some(SideOf(Doc(id), contexts[day], nearer)) else None
    }

    function Rank(id: Id): int {
      match Doc(id).priority.GetOr(Normal)
      case MustSee => 0
      case Normal => 1
      case Optional => 2
    }
  }

  /** The buckets, their running fill counters and the places that found no room. */
  datatype Packing = Packing(
    buckets: seq<seq<Id>>,
    fill: seq<int>,
    pre: seq<seq<Id>>,
    preFill: seq<int>,
    post: seq<seq<Id>>,
    postFill: seq<int>,
    preSkipped: seq<seq<Id>>,
    unassigned: seq<Id>)
  {
    predicate Shaped(n: nat) {
      && |buckets| == |fill| == |pre| == |preFill| == n
      && |post| == |postFill| == |preSkipped| == n
    }
  }

  function Capacity(d: DayConfig): int {
    (d.endHour - d.startHour) * 60
  }

  function Remaining(trip: Trip, st: Packing, day: nat, side: Option<TransitionSide>): int
    requires st.Shaped(|trip.days|) && day < |trip.days|
  {
    if day !in trip.contexts then Capacity(trip.days[day]) - st.fill[day]
    else if side == Some(ORIGIN) then trip.contexts[day].preBudgetMin - st.preFill[day]
    else trip.contexts[day].postBudgetMin - st.postFill[day]
  }

  /** A day without a transfer takes any place; a side of a transfer day takes what its budget still holds. */
  predicate Admits(trip: Trip, st: Packing, day: nat, id: Id)
    requires st.Shaped(|trip.days|) && day < |trip.days|
  {
    day in trip.contexts ==>
      trip.Side(day, id) != Some(NO_COORDINATES) && Remaining(trip, st, day, trip.Side(day, id)) >= trip.Minutes(id)
  }

  function PlaceInto(trip: Trip, st: Packing, day: nat, side: Option<TransitionSide>, id: Id): Packing
    requires st.Shaped(|trip.days|) && day < |trip.days|
  {
    if day !in trip.contexts then
      st.(buckets := st.buckets[day := st.buckets[day] + [id]], fill := st.fill[day := st.fill[day] + trip.Minutes(id)])
    else if side == Some(ORIGIN) then
      st.(pre := st.pre[day := st.pre[day] + [id]], preFill := st.preFill[day := st.preFill[day] + trip.Minutes(id)])
    else
      st.(post := st.post[day := st.post[day] + [id]], postFill := st.postFill[day := st.postFill[day] + trip.Minutes(id)])
  }

  // ---------------------------------------------------------------------------------------
  // Candidate days
  // ---------------------------------------------------------------------------------------

  predicate OpenOn(doc: PlaceDoc, d: DayConfig) {
    exists p :: p in doc.periods && OnDay(p, GoogleWeekday(d.date))
  }

  function OpenAmong(doc: PlaceDoc, days: seq<DayConfig>, upTo: nat): seq<nat>
    requires upTo <= |days|
  {
    if upTo == 0 then []
    else OpenAmong(doc, days, upTo - 1) + (if OpenOn(doc, days[upTo - 1]) then [upTo - 1] else [])
  }

  /** The days on which a place opens; all days when its hours are unknown or match no day. */
  function OpenDays(doc: PlaceDoc, days: seq<DayConfig>): seq<nat> {
    var open := OpenAmong(doc, days, |days|);
    if doc.periods == [] || open == [] then Range(|days|) else open
  }

  method OpenDayIndices(doc: PlaceDoc, days: seq<DayConfig>) returns (result: seq<nat>)
    ensures result == OpenDays(doc, days)
  {
    if doc.periods == [] {
      return Range(|days|);
    }
    result := [];
    for i := 0 to |days|
      invariant result == OpenAmong(doc, days, i)
    {
      if OpenOn(doc, days[i]) {
        result := result + [i];
      }
    }
    if result == [] {
      result := Range(|days|);
    }
  }

  lemma {:induction false} OpenAmongIsExact(doc: PlaceDoc, days: seq<DayConfig>, upTo: nat)
    requires upTo <= |days|
    ensures forall d :: d in OpenAmong(doc, days, upTo) <==> 0 <= d < upTo && OpenOn(doc, days[d])
  {
    if upTo > 0 {
      OpenAmongIsExact(doc, days, upTo - 1);
    }
  }

  lemma OpenDaysAreDays(doc: PlaceDoc, days: seq<DayConfig>)
    requires days != []
    ensures OpenDays(doc, days) != []
    ensures forall d :: d in OpenDays(doc, days) ==> 0 <= d < |days|
  {
    OpenAmongIsExact(doc, days, |days|);
    RangeIsAll(|days|);
  }

  function SlotDays(slots: seq<DaySlot>, open: seq<nat>): seq<nat> {
    if slots == [] then []
    else
      var d := slots[|slots| - 1].dayIndex;
      SlotDays(slots[..|slots| - 1], open) + (if d in open then [d] else [])
  }

  function DayIndices(slots: seq<DaySlot>): seq<nat> {
    seq(|slots|, i requires 0 <= i < |slots| => slots[i].dayIndex)
  }

  /** Where an unpinned place may go: its open slots, all its slots when none is open, or the open days. */
  function Candidates(trip: Trip, pref: PlacePreference): seq<nat> {
    var open := OpenDays(trip.Doc(pref.placeId), trip.days);
    if pref.slots == [] then open
    else if SlotDays(pref.slots, open) == [] then DayIndices(pref.slots)
    else SlotDays(pref.slots, open)
  }

  method CandidateDays(trip: Trip, pref: PlacePreference) returns (candidates: seq<nat>)
    ensures candidates == Candidates(trip, pref)
  {
    var open := OpenDayIndices(trip.Doc(pref.placeId), trip.days);
    if pref.slots == [] {
      return open;
    }
    candidates := [];
    for i := 0 to |pref.slots|
      invariant candidates == SlotDays(pref.slots[..i], open)
    {
      assert pref.slots[..i + 1][..i] == pref.slots[..i];
      if pref.slots[i].dayIndex in open {
        candidates := candidates + [pref.slots[i].dayIndex];
      }
    }
    assert pref.slots[..|pref.slots|] == pref.slots;
    if candidates == [] {
      candidates := DayIndices(pref.slots);
    }
  }

  lemma {:induction false} SlotDaysAreSlots(slots: seq<DaySlot>, open: seq<nat>)
    ensures forall d :: d in SlotDays(slots, open) <==> d in open && exists s :: s in slots && s.dayIndex == d
  {
    if slots != [] {
      var k := |slots| - 1;
      SlotDaysAreSlots(slots[..k], open);
      LastElement(slots);
      forall d ensures d in SlotDays(slots, open) <==> d in open && exists s :: s in slots && s.dayIndex == d {
        assert slots[k] in slots;
      }
    }
  }

  predicate SlotsInRange(trip: Trip, pref: PlacePreference) {
    forall s :: s in pref.slots ==> s.dayIndex < |trip.days|
  }

  lemma CandidatesAreDays(trip: Trip, pref: PlacePreference)
    requires trip.days != [] && SlotsInRange(trip, pref)
    ensures Candidates(trip, pref) != []
    ensures forall k :: 0 <= k < |Candidates(trip, pref)| ==> Candidates(trip, pref)[k] < |trip.days|
  {
    var open := OpenDays(trip.Doc(pref.placeId), trip.days);
    OpenDaysAreDays(trip.Doc(pref.placeId), trip.days);
    SlotDaysAreSlots(pref.slots, open);
    var c := Candidates(trip, pref);
    forall k | 0 <= k < |c| ensures c[k] < |trip.days| {
      assert c[k] in c;
      if pref.slots != [] && SlotDays(pref.slots, open) == [] {
        assert c[k] == pref.slots[k].dayIndex && pref.slots[k] in pref.slots;
      }
    }
  }

  // ---------------------------------------------------------------------------------------
  // One unpinned place
  // ---------------------------------------------------------------------------------------

  /** The `k`-th candidate is the first admissible one with the most room. */
  ghost predicate Roomiest(trip: Trip, st: Packing, id: Id, days: seq<nat>, k: nat)
    requires st.Shaped(|trip.days|) && k < |days|
    requires forall j :: 0 <= j < |days| ==> days[j] < |trip.days|
  {
    && Admits(trip, st, days[k], id)
    && forall j :: 0 <= j < |days| && Admits(trip, st, days[j], id) ==>
         var room, best := Remaining(trip, st, days[j], trip.Side(days[j], id)),
                           Remaining(trip, st, days[k], trip.Side(days[k], id));
         room <= best && (j < k ==> room < best)
  }

  /** Packing one unpinned place: into its roomiest admissible day, or onto the unassigned list. */
  ghost predicate PackStep(trip: Trip, st: Packing, pref: PlacePreference, next: Packing) {
    && st.Shaped(|trip.days|)
    && var id, days := pref.placeId, Candidates(trip, pref);
       && (forall j :: 0 <= j < |days| ==> days[j] < |trip.days|)
       && (|| (exists k: nat :: k < |days| && Roomiest(trip, st, id, days, k)
                             && next == PlaceInto(trip, st, days[k], trip.Side(days[k], id), id))
           || (&& (forall j :: 0 <= j < |days| ==> !Admits(trip, st, days[j], id))
               && next == st.(unassigned := st.unassigned + [id])))
  }

  method PackUnpinned(trip: Trip, st: Packing, pref: PlacePreference) returns (next: Packing)
    requires st.Shaped(|trip.days|) && trip.days != [] && SlotsInRange(trip, pref)
    ensures PackStep(trip, st, pref, next)
  {
    var id := pref.placeId;
    var days := CandidateDays(trip, pref);
    CandidatesAreDays(trip, pref);
    var best: Option<nat> := None;
    var bestRoom := 0;
    for k := 0 to |days|
      invariant best.None? ==> forall j :: 0 <= j < k ==> !Admits(trip, st, days[j], id)
      invariant best.Some? ==>
                  && best.value < k && Roomiest(trip, st, id, days[..k], best.value)
                  && bestRoom == Remaining(trip, st, days[best.value], trip.Side(days[best.value], id))
    {
      var room := Remaining(trip, st, days[k], trip.Side(days[k], id));
      if Admits(trip, st, days[k], id) && (best.None? || room > bestRoom) {
        best, bestRoom := Some(k), room;
      }
    }
    assert days[..|days|] == days;
    if best.None? {
      return st.(unassigned := st.unassigned + [id]);
    }
    return PlaceInto(trip, st, days[best.value], trip.Side(days[best.value], id), id);
  }

  // ---------------------------------------------------------------------------------------
  // The whole partition
  // ---------------------------------------------------------------------------------------

  /** A pinned place goes to its day, on the side it is nearer to; without coordinates a transfer day reports it. */
  function PinPlace(trip: Trip, st: Packing, pref: PlacePreference): Packing
    requires st.Shaped(|trip.days|) && |pref.slots| == 1 && pref.slots[0].dayIndex < |trip.days|
  {
    var day, id := pref.slots[0].dayIndex, pref.placeId;
    if trip.Side(day, id) == Some(NO_COORDINATES)
    then st.(preSkipped := st.preSkipped[day := st.preSkipped[day] + [id]])
    else PlaceInto(trip, st, day, trip.Side(day, id), id)
  }

  predicate IsPinned(p: PlacePreference) { |p.slots| == 1 }
  predicate IsFlexible(p: PlacePreference) { |p.slots| > 1 }
  predicate IsAuto(p: PlacePreference) { |p.slots| == 0 }

  datatype Tier3 = Pinned | Flexible | Auto

  predicate OfTier(p: PlacePreference, tier: Tier3) {
    match tier
    case Pinned => IsPinned(p)
    case Flexible => IsFlexible(p)
    case Auto => IsAuto(p)
  }

  function Select(places: seq<PlacePreference>, tier: Tier3): seq<PlacePreference> {
    if places == [] then []
    else
      var p := places[|places| - 1];
      Select(places[..|places| - 1], tier) + (if OfTier(p, tier) then [p] else [])
  }

  method SelectTierOf(places: seq<PlacePreference>, tier: Tier3) returns (result: seq<PlacePreference>)
    ensures result == Select(places, tier)
  {
    result := [];
    for i := 0 to |places|
      invariant result == Select(places[..i], tier)
    {
      assert places[..i + 1][..i] == places[..i];
      if OfTier(places[i], tier) {
        result := result + [places[i]];
      }
    }
    assert places[..|places|] == places;
  }

  function ByRank(trip: Trip, prefs: seq<PlacePreference>): seq<PlacePreference> {
    SortBy(prefs, (a, b) => RankLe(trip, a, b))
  }

  predicate RankLe(trip: Trip, a: PlacePreference, b: PlacePreference) {
    trip.Rank(a.placeId) <= trip.Rank(b.placeId)
  }

  /** The unpinned places in the order they are packed: flexible before auto, each by priority rank. */
  function PackOrder(trip: Trip, places: seq<PlacePreference>): seq<PlacePreference> {
    ByRank(trip, Select(places, Flexible)) + ByRank(trip, Select(places, Auto))
  }

  /** Higher-priority places claim room first. */
  lemma {:induction false} PackOrderByPriority(trip: Trip, places: seq<PlacePreference>)
    ensures multiset(PackOrder(trip, places)) == multiset(Select(places, Flexible)) + multiset(Select(places, Auto))
    ensures Sorted(ByRank(trip, Select(places, Flexible)), (a, b) => RankLe(trip, a, b))
    ensures Sorted(ByRank(trip, Select(places, Auto)), (a, b) => RankLe(trip, a, b))
  {
    var le := (a, b) => RankLe(trip, a, b);
    SortBySorts(Select(places, Flexible), le);
    SortBySorts(Select(places, Auto), le);
    assert ByRank(trip, Select(places, Flexible)) == SortBy(Select(places, Flexible), le);
    assert ByRank(trip, Select(places, Auto)) == SortBy(Select(places, Auto), le);
  }

  function Nothing<T>(n: nat, x: T): seq<T> {
    seq(n, _ => x)
  }

  function EmptyPacking(n: nat): Packing {
    Packing(Nothing(n, []), Nothing(n, 0), Nothing(n, []), Nothing(n, 0), Nothing(n, []), Nothing(n, 0),
            Nothing(n, []), [])
  }

  function MinutesOf(trip: Trip, ids: seq<Id>): nat {
    if ids == [] then 0 else MinutesOf(trip, ids[..|ids| - 1]) + trip.Minutes(ids[|ids| - 1])
  }

  /** Every fill counter is the sum of the visit minutes in its bucket, and each day uses its own kind of bucket. */
  ghost predicate Balanced(trip: Trip, st: Packing) {
    && st.Shaped(|trip.days|)
    && forall d: nat :: d < |trip.days| ==> BalancedDay(trip, st, d)
  }

  ghost predicate BalancedDay(trip: Trip, st: Packing, d: nat)
    requires st.Shaped(|trip.days|) && d < |trip.days|
  {
    && st.fill[d] == MinutesOf(trip, st.buckets[d])
    && st.preFill[d] == MinutesOf(trip, st.pre[d])
    && st.postFill[d] == MinutesOf(trip, st.post[d])
    && (if d in trip.contexts then st.buckets[d] == []
        else st.pre[d] == [] && st.post[d] == [] && st.preSkipped[d] == [])
  }

  function Flat(lists: seq<seq<Id>>): multiset<Id> {
    if lists == [] then multiset{} else Flat(lists[..|lists| - 1]) + multiset(lists[|lists| - 1])
  }

  /** Every place the packing accounts for, with repetition. */
  function Contents(st: Packing): multiset<Id> {
    Flat(st.buckets) + Flat(st.pre) + Flat(st.post) + Flat(st.preSkipped) + multiset(st.unassigned)
  }

  predicate InDay(st: Packing, day: nat, id: Id)
    requires st.Shaped(|st.fill|) && day < |st.fill|
  {
    id in st.buckets[day] || id in st.pre[day] || id in st.post[day] || id in st.preSkipped[day]
  }

  /** Nothing is taken back: buckets only grow, and so do the fill counters. */
  ghost predicate Grows(st: Packing, next: Packing, n: nat) {
    && st.Shaped(n) && next.Shaped(n)
    && forall d :: 0 <= d < n ==>
         && st.preFill[d] <= next.preFill[d] && st.postFill[d] <= next.postFill[d]
         && forall id :: InDay(st, d, id) ==> InDay(next, d, id)
  }

  lemma {:induction false} FlatGrows(lists: seq<seq<Id>>, d: nat, id: Id)
    requires d < |lists|
    ensures Flat(lists[d := lists[d] + [id]]) == Flat(lists) + multiset{id}
  {
    var k := |lists| - 1;
    var more := lists[d := lists[d] + [id]];
    if d < k {
      FlatGrows(lists[..k], d, id);
      assert more[..k] == lists[..k][d := lists[..k][d] + [id]];
    } else {
      assert more[..k] == lists[..k];
    }
  }

  lemma MinutesGrow(trip: Trip, ids: seq<Id>, id: Id)
    ensures MinutesOf(trip, ids + [id]) == MinutesOf(trip, ids) + trip.Minutes(id)
  {
    assert (ids + [id])[..|ids|] == ids;
  }

  lemma PlaceIntoBalances(trip: Trip, st: Packing, day: nat, side: Option<TransitionSide>, id: Id)
    requires Balanced(trip, st) && day < |trip.days|
    ensures Balanced(trip, PlaceInto(trip, st, day, side, id))
  {
    hide MinutesOf;
    MinutesGrow(trip, st.buckets[day], id);
    MinutesGrow(trip, st.pre[day], id);
    MinutesGrow(trip, st.post[day], id);
    var next := PlaceInto(trip, st, day, side, id);
    forall d: nat | d < |trip.days| ensures BalancedDay(trip, next, d) {
      assert BalancedDay(trip, st, d);
    }
  }

  lemma PlaceIntoAdds(trip: Trip, st: Packing, day: nat, side: Option<TransitionSide>, id: Id)
    requires st.Shaped(|trip.days|) && day < |trip.days|
    ensures Contents(PlaceInto(trip, st, day, side, id)) == Contents(st) + multiset{id}
  {
    hide Flat;
    FlatGrows(st.buckets, day, id);
    FlatGrows(st.pre, day, id);
    FlatGrows(st.post, day, id);
  }

  lemma PlaceIntoGrows(trip: Trip, st: Packing, day: nat, side: Option<TransitionSide>, id: Id)
    requires st.Shaped(|trip.days|) && day < |trip.days|
    ensures Grows(st, PlaceInto(trip, st, day, side, id), |trip.days|)
    ensures InDay(PlaceInto(trip, st, day, side, id), day, id)
  {
  }

  /** Putting a place into a bucket keeps the counters exact and adds just that place. */
  lemma PlaceIntoKeeps(trip: Trip, st: Packing, day: nat, side: Option<TransitionSide>, id: Id)
    requires Balanced(trip, st) && day < |trip.days|
    ensures var next := PlaceInto(trip, st, day, side, id);
            && Balanced(trip, next) && Contents(next) == Contents(st) + multiset{id}
            && Grows(st, next, |trip.days|) && InDay(next, day, id)
  {
    PlaceIntoBalances(trip, st, day, side, id);
    PlaceIntoAdds(trip, st, day, side, id);
    PlaceIntoGrows(trip, st, day, side, id);
  }

  lemma PinKeeps(trip: Trip, st: Packing, pref: PlacePreference)
    requires Balanced(trip, st) && PinnedInRange(trip, pref)
    ensures var next := PinPlace(trip, st, pref);
            && Balanced(trip, next) && Contents(next) == Contents(st) + multiset{pref.placeId}
            && Grows(st, next, |trip.days|) && InDay(next, pref.slots[0].dayIndex, pref.placeId)
            && next.unassigned == st.unassigned
  {
    hide MinutesOf, Flat;
    var day, id := pref.slots[0].dayIndex, pref.placeId;
    if trip.Side(day, id) == Some(NO_COORDINATES) {
      FlatGrows(st.preSkipped, day, id);
      forall d: nat | d < |trip.days| ensures BalancedDay(trip, PinPlace(trip, st, pref), d) {
        assert BalancedDay(trip, st, d);
      }
    } else {
      PlaceIntoKeeps(trip, st, day, trip.Side(day, id), id);
    }
  }

  /** An unassigned place found every candidate day to be a transfer day without coordinates or room for it. */
  ghost predicate NoRoom(trip: Trip, st: Packing, pref: PlacePreference)
    requires st.Shaped(|trip.days|)
  {
    forall d :: d in Candidates(trip, pref) ==> d < |trip.days| && !Admits(trip, st, d, pref.placeId)
  }

  /** Where a place ended up: on its pinned day, on a candidate day, or unassigned for lack of room. */
  ghost predicate Settled(trip: Trip, st: Packing, pref: PlacePreference)
    requires st.Shaped(|trip.days|)
  {
    if IsPinned(pref) then pref.slots[0].dayIndex < |trip.days| && InDay(st, pref.slots[0].dayIndex, pref.placeId)
    else
      || (pref.placeId in st.unassigned && NoRoom(trip, st, pref))
      || (exists d :: d in Candidates(trip, pref) && d < |trip.days| && InDay(st, d, pref.placeId))
  }

  /** Neither side of a transfer day exceeds its budget, unless the pinned places alone already do. */
  ghost predicate WithinBudgets(trip: Trip, base: Packing, st: Packing)
    requires base.Shaped(|trip.days|) && st.Shaped(|trip.days|)
  {
    forall d: nat :: d < |trip.days| && d in trip.contexts ==>
      && st.preFill[d] <= Max(trip.contexts[d].preBudgetMin, base.preFill[d])
      && st.postFill[d] <= Max(trip.contexts[d].postBudgetMin, base.postFill[d])
  }

  lemma AdmittedWithinBudgets(trip: Trip, base: Packing, st: Packing, day: nat, id: Id)
    requires base.Shaped(|trip.days|) && st.Shaped(|trip.days|) && WithinBudgets(trip, base, st)
    requires day < |trip.days| && Admits(trip, st, day, id)
    ensures WithinBudgets(trip, base, PlaceInto(trip, st, day, trip.Side(day, id), id))
  {
  }

  /** What one packing step keeps: exact counters, every place, the budgets; and it settles its place. */
  ghost predicate Packed(trip: Trip, base: Packing, st: Packing, pref: PlacePreference, next: Packing)
    requires base.Shaped(|trip.days|)
  {
    && Balanced(trip, next) && Contents(next) == Contents(st) + multiset{pref.placeId}
    && Grows(st, next, |trip.days|) && WithinBudgets(trip, base, next)
    && Settled(trip, next, pref)
    && forall id :: id in st.unassigned ==> id in next.unassigned
  }

  lemma PackKeeps(trip: Trip, base: Packing, st: Packing, pref: PlacePreference, next: Packing)
    requires Balanced(trip, st) && base.Shaped(|trip.days|) && WithinBudgets(trip, base, st)
    requires PackStep(trip, st, pref, next) && !IsPinned(pref)
    ensures Packed(trip, base, st, pref, next)
  {
    var id, days := pref.placeId, Candidates(trip, pref);
    if k: nat :| k < |days| && Roomiest(trip, st, id, days, k)
                 && next == PlaceInto(trip, st, days[k], trip.Side(days[k], id), id) {
      RoomiestKeeps(trip, base, st, pref, days[k]);
    } else {
      UnassignedKeeps(trip, base, st, pref);
    }
  }

  lemma RoomiestKeeps(trip: Trip, base: Packing, st: Packing, pref: PlacePreference, day: nat)
    requires Balanced(trip, st) && base.Shaped(|trip.days|) && WithinBudgets(trip, base, st) && !IsPinned(pref)
    requires day in Candidates(trip, pref) && day < |trip.days| && Admits(trip, st, day, pref.placeId)
    ensures Packed(trip, base, st, pref, PlaceInto(trip, st, day, trip.Side(day, pref.placeId), pref.placeId))
  {
    hide Flat, MinutesOf, Candidates, WithinBudgets, Balanced, Contents, Grows, InDay;
    PlaceIntoKeeps(trip, st, day, trip.Side(day, pref.placeId), pref.placeId);
    AdmittedWithinBudgets(trip, base, st, day, pref.placeId);
  }

  lemma UnassignedKeeps(trip: Trip, base: Packing, st: Packing, pref: PlacePreference)
    requires Balanced(trip, st) && base.Shaped(|trip.days|) && WithinBudgets(trip, base, st) && !IsPinned(pref)
    requires NoRoom(trip, st, pref)
    ensures Packed(trip, base, st, pref, st.(unassigned := st.unassigned + [pref.placeId]))
  {
    hide Flat, MinutesOf, Candidates;
    var next := st.(unassigned := st.unassigned + [pref.placeId]);
    forall d | d in Candidates(trip, pref) ensures d < |trip.days| && !Admits(trip, next, d, pref.placeId) {
      assert !Admits(trip, st, d, pref.placeId);
    }
    forall d: nat | d < |trip.days| ensures BalancedDay(trip, next, d) {
      assert BalancedDay(trip, st, d);
    }
  }

  /** A place that is settled stays settled as more places are packed. */
  lemma SettledStays(trip: Trip, st: Packing, next: Packing, pref: PlacePreference)
    requires Grows(st, next, |trip.days|) && Settled(trip, st, pref)
    requires forall id :: id in st.unassigned ==> id in next.unassigned
    ensures Settled(trip, next, pref)
  {
    hide Candidates;
    if IsPinned(pref) {
      assert st.preFill[pref.slots[0].dayIndex] <= next.preFill[pref.slots[0].dayIndex];
    } else {
      if pref.placeId in st.unassigned && NoRoom(trip, st, pref) {
        forall d | d in Candidates(trip, pref) ensures d < |trip.days| && !Admits(trip, next, d, pref.placeId) {
          assert !Admits(trip, st, d, pref.placeId);
          assert st.preFill[d] <= next.preFill[d];
        }
      } else {
        var d :| d in Candidates(trip, pref) && d < |trip.days| && InDay(st, d, pref.placeId);
        assert st.preFill[d] <= next.preFill[d] && InDay(next, d, pref.placeId);
      }
    }
  }

  predicate PinnedInRange(trip: Trip, p: PlacePreference) {
    IsPinned(p) && p.slots[0].dayIndex < |trip.days|
  }

  predicate AllPinned(trip: Trip, pinned: seq<PlacePreference>) {
    forall i :: 0 <= i < |pinned| ==> PinnedInRange(trip, pinned[i])
  }

  function PinAll(trip: Trip, pinned: seq<PlacePreference>): Packing
    requires AllPinned(trip, pinned)
    ensures PinAll(trip, pinned).Shaped(|trip.days|)
  {
    if pinned == [] then EmptyPacking(|trip.days|)
    else
      PinPlace(trip, PinAll(trip, pinned[..|pinned| - 1]), pinned[|pinned| - 1])
  }

  /** Minutes pinned to one side of a day. */
  function PinnedMinutes(trip: Trip, pinned: seq<PlacePreference>, day: nat, side: TransitionSide): nat {
    if pinned == [] then 0
    else
      var p := pinned[|pinned| - 1];
      PinnedMinutes(trip, pinned[..|pinned| - 1], day, side)
      + (if p.slots != [] && p.slots[0].dayIndex == day && trip.Side(day, p.placeId) == Some(side)
         then trip.Minutes(p.placeId) else 0)
  }

  function IdsOf(prefs: seq<PlacePreference>): multiset<Id> {
    multiset(PlaceIds(prefs))
  }

  ghost predicate AllSettled(trip: Trip, st: Packing, prefs: seq<PlacePreference>)
    requires st.Shaped(|trip.days|)
  {
    forall p :: p in prefs ==> Settled(trip, st, p)
  }

  lemma EmptyIsBalanced(trip: Trip)
    ensures Balanced(trip, EmptyPacking(|trip.days|))
    ensures Contents(EmptyPacking(|trip.days|)) == multiset{}
  {
    EmptyIsFlat(|trip.days|);
  }

  lemma {:induction false} EmptyIsFlat(n: nat)
    ensures Flat(Nothing(n, [])) == multiset{}
  {
    if n > 0 {
      EmptyIsFlat(n - 1);
      assert Nothing<seq<Id>>(n, [])[..n - 1] == Nothing(n - 1, []);
    }
  }

  /** The pinned phase keeps the counters exact and accounts for every pinned place. */
  lemma {:induction false} PinAllKeeps(trip: Trip, pinned: seq<PlacePreference>)
    requires AllPinned(trip, pinned)
    ensures var st := PinAll(trip, pinned);
            Balanced(trip, st) && Contents(st) == IdsOf(pinned) && st.unassigned == []
    decreases |pinned|, 1
  {
    if pinned == [] {
      EmptyIsBalanced(trip);
      assert PlaceIds(pinned) == [];
    } else {
      PinOneMore(trip, pinned);
    }
  }

  lemma {:induction false} PinOneMore(trip: Trip, pinned: seq<PlacePreference>)
    requires AllPinned(trip, pinned) && pinned != []
    ensures var st := PinAll(trip, pinned);
            Balanced(trip, st) && Contents(st) == IdsOf(pinned) && st.unassigned == []
    decreases |pinned|, 0
  {
    hide Contents, Balanced, Grows, InDay, PinPlace, IdsOf;
    var k := |pinned| - 1;
    PinAllKeeps(trip, pinned[..k]);
    PinKeeps(trip, PinAll(trip, pinned[..k]), pinned[k]);
    IdsOfConcat(pinned[..k], [pinned[k]]);
    IdsOfOne(pinned[k]);
    assert pinned == pinned[..k] + [pinned[k]];
  }

  /** Every pinned place is on its day. */
  lemma {:induction false} PinAllSettles(trip: Trip, pinned: seq<PlacePreference>)
    requires AllPinned(trip, pinned)
    ensures AllSettled(trip, PinAll(trip, pinned), pinned)
  {
    if pinned != [] {
      var k := |pinned| - 1;
      var before := PinAll(trip, pinned[..k]);
      hide Contents, Balanced, Grows, InDay;
      PinAllSettles(trip, pinned[..k]);
      PinAllKeeps(trip, pinned[..k]);
      PinKeeps(trip, before, pinned[k]);
      LastElement(pinned);
      forall q | q in pinned[..k] ensures Settled(trip, PinAll(trip, pinned), q) {
        SettledStays(trip, before, PinAll(trip, pinned), q);
      }
    }
  }

  /** After the pinned phase the sides of a transfer day hold exactly the pinned minutes. */
  lemma {:induction false} PinAllFills(trip: Trip, pinned: seq<PlacePreference>)
    requires AllPinned(trip, pinned)
    ensures var st := PinAll(trip, pinned);
            forall d: nat :: d < |trip.days| && d in trip.contexts ==>
              && st.preFill[d] == PinnedMinutes(trip, pinned, d, ORIGIN)
              && st.postFill[d] == PinnedMinutes(trip, pinned, d, DESTINATION)
  {
    if pinned != [] {
      var k := |pinned| - 1;
      PinAllFills(trip, pinned[..k]);
      PinFills(trip, PinAll(trip, pinned[..k]), pinned[k]);
    }
  }

  lemma PinFills(trip: Trip, st: Packing, p: PlacePreference)
    requires st.Shaped(|trip.days|) && IsPinned(p) && p.slots[0].dayIndex < |trip.days|
    ensures var next := PinPlace(trip, st, p);
            forall d: nat :: d < |trip.days| && d in trip.contexts ==>
              && next.preFill[d] == st.preFill[d] + (if p.slots[0].dayIndex == d && trip.Side(d, p.placeId) == Some(ORIGIN)
                                                     then trip.Minutes(p.placeId) else 0)
              && next.postFill[d] == st.postFill[d] + (if p.slots[0].dayIndex == d && trip.Side(d, p.placeId) == Some(DESTINATION)
                                                       then trip.Minutes(p.placeId) else 0)
  {
  }

  /** A run of the partition: the packings after the pinned phase and after each unpinned place. */
  ghost predicate PackRun(trip: Trip, places: seq<PlacePreference>, trace: seq<Packing>)
    requires AllPinned(trip, Select(places, Pinned))
  {
    var order := PackOrder(trip, places);
    && |trace| == |order| + 1
    && trace[0] == PinAll(trip, Select(places, Pinned))
    && forall i :: 0 <= i < |order| ==> PackStep(trip, trace[i], order[i], trace[i + 1])
  }

  lemma {:induction false} SelectElements(places: seq<PlacePreference>, tier: Tier3)
    ensures forall p :: p in Select(places, tier) <==> p in places && OfTier(p, tier)
  {
    if places != [] {
      SelectElements(places[..|places| - 1], tier);
      LastElement(places);
    }
  }

  /** Pinning all pinned places, one after the other. */
  method PinPhase(trip: Trip, pinned: seq<PlacePreference>) returns (st: Packing)
    requires AllPinned(trip, pinned)
    ensures st == PinAll(trip, pinned)
  {
    st := EmptyPacking(|trip.days|);
    for i := 0 to |pinned|
      invariant st == PinAll(trip, pinned[..i])
    {
      assert pinned[..i + 1][..i] == pinned[..i];
      var p := pinned[i];
      var day := p.slots[0].dayIndex;
      var side := trip.Side(day, p.placeId);
      if side == Some(NO_COORDINATES) {
        st := st.(preSkipped := st.preSkipped[day := st.preSkipped[day] + [p.placeId]]);
      } else {
        st := PlaceInto(trip, st, day, side, p.placeId);
      }
    }
    assert pinned[..|pinned|] == pinned;
  }

  lemma IdsOfConcat(a: seq<PlacePreference>, b: seq<PlacePreference>)
    ensures IdsOf(a + b) == IdsOf(a) + IdsOf(b)
  {
    assert PlaceIds(a + b) == PlaceIds(a) + PlaceIds(b);
  }

  lemma IdsOfOne(p: PlacePreference)
    ensures IdsOf([p]) == multiset{p.placeId}
  {
    assert PlaceIds([p]) == [p.placeId];
  }

  lemma {:induction false} IdsOfInsert(p: PlacePreference, s: seq<PlacePreference>, le: (PlacePreference, PlacePreference) -> bool)
    ensures IdsOf(Insert(p, s, le)) == IdsOf([p]) + IdsOf(s)
  {
    hide IdsOf;
    if s == [] {
      IdsOfConcat([p], s);
      assert [p] + s == [p];
    } else if le(p, s[0]) {
      IdsOfConcat([p], s);
    } else {
      IdsOfInsert(p, s[1..], le);
      IdsOfConcat([s[0]], Insert(p, s[1..], le));
      IdsOfConcat([s[0]], s[1..]);
      assert s == [s[0]] + s[1..];
    }
  }

  lemma {:induction false} IdsOfSorted(s: seq<PlacePreference>, le: (PlacePreference, PlacePreference) -> bool)
    ensures IdsOf(SortBy(s, le)) == IdsOf(s)
  {
    hide IdsOf;
    if s != [] {
      IdsOfSorted(s[1..], le);
      IdsOfInsert(s[0], SortBy(s[1..], le), le);
      IdsOfConcat([s[0]], s[1..]);
      assert s == [s[0]] + s[1..];
    }
  }

  lemma {:induction false} TiersPartition(places: seq<PlacePreference>)
    ensures IdsOf(places) == IdsOf(Select(places, Pinned)) + IdsOf(Select(places, Flexible)) + IdsOf(Select(places, Auto))
  {
    assert places == [] ==>
      && IdsOf(places) == multiset{}
      && Select(places, Pinned) == Select(places, Flexible) == Select(places, Auto) == places;
    hide IdsOf, Select;
    if places != [] {
      var k := |places| - 1;
      var p := places[k];
      TiersPartition(places[..k]);
      IdsOfConcat(places[..k], [p]);
      SelectNext(places, Pinned);
      SelectNext(places, Flexible);
      SelectNext(places, Auto);
      assert places == places[..k] + [p];
    }
  }

  lemma SelectNext(places: seq<PlacePreference>, tier: Tier3)
    requires places != []
    ensures var k := |places| - 1;
            IdsOf(Select(places, tier)) ==
            IdsOf(Select(places[..k], tier)) + (if OfTier(places[k], tier) then IdsOf([places[k]]) else multiset{})
  {
    var k := |places| - 1;
    IdsOfConcat(Select(places[..k], tier), [places[k]]);
    assert Select(places[..k], tier) + [] == Select(places[..k], tier);
  }

  lemma OrderElements(trip: Trip, places: seq<PlacePreference>)
    ensures forall p :: p in PackOrder(trip, places) <==> p in Select(places, Flexible) || p in Select(places, Auto)
  {
    hide Select, ByRank;
    PackOrderByPriority(trip, places);
    var both := Select(places, Flexible) + Select(places, Auto);
    assert multiset(PackOrder(trip, places)) == multiset(both);
    SameMultisetSameElements(PackOrder(trip, places), both);
  }

  /** The pinned places and the packing order together are the requested places. */
  lemma OrderCoversPlaces(trip: Trip, places: seq<PlacePreference>)
    ensures IdsOf(Select(places, Pinned)) + IdsOf(PackOrder(trip, places)) == multiset(PlaceIds(places))
    ensures forall p :: p in places ==> p in Select(places, Pinned) || p in PackOrder(trip, places)
    ensures forall p :: p in PackOrder(trip, places) ==> p in places && !IsPinned(p)
  {
    var flexible, auto := Select(places, Flexible), Select(places, Auto);
    assert multiset(PlaceIds(places)) == IdsOf(places);
    hide IdsOf, Select;
    TiersPartition(places);
    IdsOfConcat(ByRank(trip, flexible), ByRank(trip, auto));
    IdsOfSorted(flexible, (a, b) => RankLe(trip, a, b));
    IdsOfSorted(auto, (a, b) => RankLe(trip, a, b));
    SelectElements(places, Pinned);
    SelectElements(places, Flexible);
    SelectElements(places, Auto);
    OrderElements(trip, places);
  }

  lemma SelectPinnedInRange(trip: Trip, places: seq<PlacePreference>)
    requires forall p :: p in places ==> SlotsInRange(trip, p)
    ensures AllPinned(trip, Select(places, Pinned))
  {
    SelectElements(places, Pinned);
    var pinned := Select(places, Pinned);
    forall i | 0 <= i < |pinned| ensures PinnedInRange(trip, pinned[i]) {
      assert pinned[i] in pinned;
      assert pinned[i].slots[0] in pinned[i].slots;
    }
  }

  ghost predicate SoFar(trip: Trip, places: seq<PlacePreference>, done: seq<PlacePreference>, st: Packing)
    requires AllPinned(trip, Select(places, Pinned))
  {
    var pinned := Select(places, Pinned);
    && Balanced(trip, st) && Contents(st) == IdsOf(pinned) + IdsOf(done)
    && WithinBudgets(trip, PinAll(trip, pinned), st)
    && AllSettled(trip, st, pinned) && AllSettled(trip, st, done)
  }

  lemma SoFarNext(trip: Trip, places: seq<PlacePreference>, done: seq<PlacePreference>, st: Packing,
                  p: PlacePreference, next: Packing)
    requires AllPinned(trip, Select(places, Pinned)) && SoFar(trip, places, done, st)
    requires PackStep(trip, st, p, next) && !IsPinned(p)
    ensures SoFar(trip, places, done + [p], next)
  {
    PackKeeps(trip, PinAll(trip, Select(places, Pinned)), st, p, next);
    assert Grows(st, next, |trip.days|);
    hide PackStep, WithinBudgets, Contents, Grows, Settled, IdsOf, MinutesOf, Balanced, PinAll, Select;
    AllSettledStay(trip, st, next, Select(places, Pinned));
    AllSettledStay(trip, st, next, done);
    IdsOfConcat(done, [p]);
    IdsOfOne(p);
  }

  lemma AllSettledStay(trip: Trip, st: Packing, next: Packing, prefs: seq<PlacePreference>)
    requires Grows(st, next, |trip.days|) && AllSettled(trip, st, prefs)
    requires forall id :: id in st.unassigned ==> id in next.unassigned
    ensures AllSettled(trip, next, prefs)
  {
    hide Settled;
    forall q | q in prefs ensures Settled(trip, next, q) {
      SettledStays(trip, st, next, q);
    }
  }

  /** Neither side of a transfer day exceeds the larger of its budget and its pinned minutes. */
  ghost predicate SidesBounded(trip: Trip, places: seq<PlacePreference>, st: Packing)
    requires st.Shaped(|trip.days|)
  {
    var pinned := Select(places, Pinned);
    forall d: nat :: d < |trip.days| && d in trip.contexts ==>
      && MinutesOf(trip, st.pre[d]) <= Max(trip.contexts[d].preBudgetMin, PinnedMinutes(trip, pinned, d, ORIGIN))
      && MinutesOf(trip, st.post[d]) <= Max(trip.contexts[d].postBudgetMin, PinnedMinutes(trip, pinned, d, DESTINATION))
  }

  // ---------------------------------------------------------------------------------------
  // Both sides of a transfer day hold the places that belong there
  // ---------------------------------------------------------------------------------------

  /** A place with both coordinates. */
  predicate Located(trip: Trip, id: Id) {
    id in trip.docs && trip.docs[id].lat.Some? && trip.docs[id].lng.Some?
  }

  /** A located place strictly nearer to the stay of the night than to the stay of the morning. */
  predicate NearDestination(trip: Trip, d: nat, id: Id)
    requires d in trip.contexts
  {
    && Located(trip, id)
    && trip.nearer(trip.docs[id].lat.value, trip.docs[id].lng.value, trip.contexts[d].origin, trip.contexts[d].destination)
  }

  /** POST places are nearer to the destination, PRE places are located and are not, and only unlocated ones are skipped. */
  ghost predicate OnRightSides(trip: Trip, st: Packing) {
    && st.Shaped(|trip.days|)
    && forall d: nat, id :: d < |trip.days| && d in trip.contexts ==>
         && (id in st.post[d] ==> NearDestination(trip, d, id))
         && (id in st.pre[d] ==> Located(trip, id) && !NearDestination(trip, d, id))
         && (id in st.preSkipped[d] ==> !Located(trip, id))
  }

  lemma SideIsExact(trip: Trip, d: nat, id: Id)
    requires d in trip.contexts
    ensures trip.Side(d, id) == Some(if !Located(trip, id) then NO_COORDINATES
                                     else if NearDestination(trip, d, id) then DESTINATION else ORIGIN)
  {
  }

  lemma PlaceIntoRightSide(trip: Trip, st: Packing, day: nat, id: Id)
    requires OnRightSides(trip, st) && day < |trip.days|
    requires day in trip.contexts ==> trip.Side(day, id) != Some(NO_COORDINATES)
    ensures OnRightSides(trip, PlaceInto(trip, st, day, trip.Side(day, id), id))
  {
    if day in trip.contexts {
      SideIsExact(trip, day, id);
    }
    hide NearDestination, Located;
  }

  lemma PinRightSide(trip: Trip, st: Packing, pref: PlacePreference)
    requires OnRightSides(trip, st) && PinnedInRange(trip, pref)
    ensures OnRightSides(trip, PinPlace(trip, st, pref))
  {
    var day, id := pref.slots[0].dayIndex, pref.placeId;
    if day in trip.contexts {
      SideIsExact(trip, day, id);
    }
    if trip.Side(day, id) != Some(NO_COORDINATES) {
      PlaceIntoRightSide(trip, st, day, id);
    }
    hide NearDestination, Located;
  }

  lemma {:induction false} PinAllRightSides(trip: Trip, pinned: seq<PlacePreference>)
    requires AllPinned(trip, pinned)
    ensures OnRightSides(trip, PinAll(trip, pinned))
  {
    if pinned != [] {
      hide OnRightSides, PinPlace;
      PinAllRightSides(trip, pinned[..|pinned| - 1]);
      PinRightSide(trip, PinAll(trip, pinned[..|pinned| - 1]), pinned[|pinned| - 1]);
    }
  }

  lemma PackRightSide(trip: Trip, st: Packing, pref: PlacePreference, next: Packing)
    requires OnRightSides(trip, st) && PackStep(trip, st, pref, next)
    ensures OnRightSides(trip, next)
  {
    hide NearDestination, Located;
    var id, days := pref.placeId, Candidates(trip, pref);
    if k: nat :| k < |days| && Roomiest(trip, st, id, days, k)
                 && next == PlaceInto(trip, st, days[k], trip.Side(days[k], id), id) {
      hide OnRightSides, PlaceInto;
      PlaceIntoRightSide(trip, st, days[k], id);
    }
  }

  lemma {:induction false} RunRightSides(trip: Trip, places: seq<PlacePreference>, trace: seq<Packing>, i: nat)
    requires AllPinned(trip, Select(places, Pinned)) && PackRun(trip, places, trace) && i < |trace|
    ensures OnRightSides(trip, trace[i])
  {
    hide OnRightSides, PackStep, PackOrder, Select;
    if i == 0 {
      PinAllRightSides(trip, Select(places, Pinned));
    } else {
      RunRightSides(trip, places, trace, i - 1);
      PackRightSide(trip, trace[i - 1], PackOrder(trip, places)[i - 1], trace[i]);
    }
  }

  /** What the partition of a valid request guarantees. */
  ghost predicate Partitioned(trip: Trip, places: seq<PlacePreference>, st: Packing) {
    && OnRightSides(trip, st)
    && Balanced(trip, st)
    && Contents(st) == multiset(PlaceIds(places))
    && AllSettled(trip, st, places)
    && SidesBounded(trip, places, st)
  }

  lemma {:induction false} RunSoFar(trip: Trip, places: seq<PlacePreference>, trace: seq<Packing>, i: nat)
    requires AllPinned(trip, Select(places, Pinned)) && PackRun(trip, places, trace) && i < |trace|
    ensures SoFar(trip, places, PackOrder(trip, places)[..i], trace[i])
  {
    var order := PackOrder(trip, places);
    hide Select, PackOrder, PackStep, Contents, Settled, MinutesOf;
    if i == 0 {
      PinAllKeeps(trip, Select(places, Pinned));
      PinAllSettles(trip, Select(places, Pinned));
    } else {
      RunSoFar(trip, places, trace, i - 1);
      OrderCoversPlaces(trip, places);
      assert order[i - 1] in order;
      SoFarNext(trip, places, order[..i - 1], trace[i - 1], order[i - 1], trace[i]);
      assert order[..i] == order[..i - 1] + [order[i - 1]];
    }
  }

  /**
   * Every run of the partition keeps every place exactly once, its counters exact and its transfer
   * sides within their budgets, and leaves a place unassigned only when no candidate day had room.
   */
  lemma PartitionGuarantee(trip: Trip, places: seq<PlacePreference>, trace: seq<Packing>)
    requires forall p :: p in places ==> SlotsInRange(trip, p)
    requires AllPinned(trip, Select(places, Pinned)) && PackRun(trip, places, trace)
    ensures Partitioned(trip, places, trace[|trace| - 1])
  {
    var order := PackOrder(trip, places);
    var st := trace[|trace| - 1];
    RunSoFar(trip, places, trace, |order|);
    assert order[..|order|] == order;
    OrderCoversPlaces(trip, places);
    hide Select, PackOrder, PackStep, Settled, MinutesOf, Contents, BalancedDay, OnRightSides;
    RunRightSides(trip, places, trace, |order|);
    FinalSidesBounded(trip, places, st);
  }

  lemma FinalSidesBounded(trip: Trip, places: seq<PlacePreference>, st: Packing)
    requires AllPinned(trip, Select(places, Pinned)) && Balanced(trip, st)
    requires WithinBudgets(trip, PinAll(trip, Select(places, Pinned)), st)
    ensures SidesBounded(trip, places, st)
  {
    PinAllFills(trip, Select(places, Pinned));
    hide Select, PinAll, PinnedMinutes, MinutesOf;
    forall d: nat | d < |trip.days| && d in trip.contexts
      ensures MinutesOf(trip, st.pre[d]) == st.preFill[d] && MinutesOf(trip, st.post[d]) == st.postFill[d]
    {
      assert BalancedDay(trip, st, d);
    }
  }

  method PartitionPlaces(trip: Trip, places: seq<PlacePreference>) returns (st: Packing, ghost trace: seq<Packing>)
    requires trip.days != [] && forall p :: p in places ==> SlotsInRange(trip, p)
    ensures AllPinned(trip, Select(places, Pinned)) && PackRun(trip, places, trace) && st == trace[|trace| - 1]
    ensures Partitioned(trip, places, st)
  {
    SelectPinnedInRange(trip, places);
    OrderCoversPlaces(trip, places);
    hide PackStep, Partitioned;
    var pinned := SelectTierOf(places, Pinned);
    var flexible := SelectTierOf(places, Flexible);
    var auto := SelectTierOf(places, Auto);
    st := PinPhase(trip, pinned);
    st, trace := PackPhase(trip, st, ByRank(trip, flexible) + ByRank(trip, auto));
    PartitionGuarantee(trip, places, trace);
  }

  /** Packing the unpinned places, one after the other. */
  method PackPhase(trip: Trip, start: Packing, order: seq<PlacePreference>) returns (st: Packing, ghost trace: seq<Packing>)
    requires trip.days != [] && start.Shaped(|trip.days|)
    requires forall i :: 0 <= i < |order| ==> SlotsInRange(trip, order[i])
    ensures |trace| == |order| + 1 && trace[0] == start && st == trace[|order|]
    ensures forall i :: 0 <= i < |order| ==> PackStep(trip, trace[i], order[i], trace[i + 1])
  {
    hide PackStep;
    st := start;
    trace := [st];
    for i := 0 to |order|
      invariant |trace| == i + 1 && trace[0] == start && st == trace[i]
      invariant st.Shaped(|trip.days|)
      invariant forall k :: 0 <= k < i ==> PackStep(trip, trace[k], order[k], trace[k + 1])
    {
      var next := PackUnpinned(trip, st, order[i]);
      ShapeKept(trip, st, order[i], next);
      st := next;
      trace := trace + [st];
    }
  }

  lemma ShapeKept(trip: Trip, st: Packing, pref: PlacePreference, next: Packing)
    requires PackStep(trip, st, pref, next)
    ensures next.Shaped(|trip.days|)
  {
  }

  // ---------------------------------------------------------------------------------------
  // What the partition reads, in terms of the documents and the request
  // ---------------------------------------------------------------------------------------

  /** The stored visit minutes of a place; half an hour without a document or a positive duration. */
  lemma MinutesAreStored(trip: Trip, id: Id)
    ensures if id in trip.docs && trip.docs[id].visitDurationMin.Some? && trip.docs[id].visitDurationMin.value > 0
            then trip.Minutes(id) == trip.docs[id].visitDurationMin.value
            else trip.Minutes(id) == 30
  {
  }

  /** Room of a day for a place, in minutes: of the whole day, or of the side of the transfer it belongs to. */
  ghost function Room(trip: Trip, st: Packing, d: nat, id: Id): int
    requires st.Shaped(|trip.days|) && d < |trip.days|
  {
    if d !in trip.contexts then 60 * (trip.days[d].endHour - trip.days[d].startHour) - MinutesOf(trip, st.buckets[d])
    else if NearDestination(trip, d, id) then trip.contexts[d].postBudgetMin - MinutesOf(trip, st.post[d])
    else trip.contexts[d].preBudgetMin - MinutesOf(trip, st.pre[d])
  }

  /** A day takes a place if it has no transfer, or if the place is located and its side has the room. */
  ghost predicate HasRoom(trip: Trip, st: Packing, d: nat, id: Id)
    requires st.Shaped(|trip.days|) && d < |trip.days|
  {
    d in trip.contexts ==> Located(trip, id) && Room(trip, st, d, id) >= trip.Minutes(id)
  }

  lemma AdmissionIsRoom(trip: Trip, st: Packing, d: nat, id: Id)
    requires Balanced(trip, st) && d < |trip.days|
    ensures Admits(trip, st, d, id) <==> HasRoom(trip, st, d, id)
    ensures Admits(trip, st, d, id) ==> Remaining(trip, st, d, trip.Side(d, id)) == Room(trip, st, d, id)
  {
    assert BalancedDay(trip, st, d);
    hide MinutesOf;
    if d in trip.contexts {
      SideIsExact(trip, d, id);
    }
  }

  /**
   * One packing step: the place goes to the first of its candidate days with the most room of those that have
   * room for it, or, when none has, to the unassigned list.
   */
  lemma StepTakesMostRoom(trip: Trip, st: Packing, pref: PlacePreference, next: Packing)
    requires Balanced(trip, st) && PackStep(trip, st, pref, next)
    ensures var id, days := pref.placeId, Candidates(trip, pref);
            && (forall j :: 0 <= j < |days| ==> days[j] < |trip.days|)
            && if forall j :: 0 <= j < |days| ==> !HasRoom(trip, st, days[j], id)
               then next == st.(unassigned := st.unassigned + [id])
               else exists k: nat :: k < |days| && HasRoom(trip, st, days[k], id)
                      && next == PlaceInto(trip, st, days[k], trip.Side(days[k], id), id)
                      && forall j :: 0 <= j < |days| && HasRoom(trip, st, days[j], id) ==>
                           && Room(trip, st, days[j], id) <= Room(trip, st, days[k], id)
                           && (j < k ==> Room(trip, st, days[j], id) < Room(trip, st, days[k], id))
  {
    hide Balanced, Candidates, Admits, HasRoom, Room, Remaining, PlaceInto;
    var id, days := pref.placeId, Candidates(trip, pref);
    forall j | 0 <= j < |days|
      ensures Admits(trip, st, days[j], id) <==> HasRoom(trip, st, days[j], id)
      ensures Admits(trip, st, days[j], id) ==> Remaining(trip, st, days[j], trip.Side(days[j], id)) == Room(trip, st, days[j], id)
    {
      AdmissionIsRoom(trip, st, days[j], id);
    }
    if k: nat :| k < |days| && Roomiest(trip, st, id, days, k)
                 && next == PlaceInto(trip, st, days[k], trip.Side(days[k], id), id) {
      assert HasRoom(trip, st, days[k], id);
    }
  }

  /** The place opens on the weekday of the date. */
  ghost predicate OpensOn(doc: PlaceDoc, date: int) {
    exists p :: p in doc.periods && p.open.Some? && p.open.value.day == Some(date % 7)
  }

  ghost predicate Ascending(s: seq<nat>) {
    forall i, j :: 0 <= i < j < |s| ==> s[i] < s[j]
  }

  lemma {:induction false} OpenAmongAscends(doc: PlaceDoc, days: seq<DayConfig>, upTo: nat)
    requires upTo <= |days|
    ensures Ascending(OpenAmong(doc, days, upTo))
  {
    OpenAmongIsExact(doc, days, upTo);
    if upTo > 0 {
      OpenAmongAscends(doc, days, upTo - 1);
      OpenAmongIsExact(doc, days, upTo - 1);
      var before := OpenAmong(doc, days, upTo - 1);
      forall i | 0 <= i < |before| ensures before[i] < upTo - 1 {
        assert before[i] in before;
      }
    }
  }

  lemma {:induction false} RangeAscends(n: nat)
    ensures Ascending(Range(n))
  {
    if n > 0 {
      RangeAscends(n - 1);
      RangeIsAll(n - 1);
      var before := Range(n - 1);
      forall i | 0 <= i < |before| ensures before[i] < n - 1 {
        assert before[i] in before;
      }
    }
  }

  /** A place is open on the days with a period on their date's weekday, or on all days when there is none; in their order. */
  lemma OpenDaysAreExact(doc: PlaceDoc, days: seq<DayConfig>)
    ensures Ascending(OpenDays(doc, days))
    ensures forall d :: d in OpenDays(doc, days) <==>
              0 <= d < |days| && (OpensOn(doc, days[d].date) || forall e :: e in days ==> !OpensOn(doc, e.date))
  {
    OpenAmongIsExact(doc, days, |days|);
    OpenAmongAscends(doc, days, |days|);
    RangeAscends(|days|);
    RangeIsAll(|days|);
    forall d: nat | d < |days| ensures OpenOn(doc, days[d]) <==> OpensOn(doc, days[d].date) {
      GoogleWeekdayIsExact(days[d].date);
    }
    hide OpenOn, OpensOn, OpenAmong;
    var open := OpenAmong(doc, days, |days|);
    if doc.periods == [] {
      NeverOpens(doc);
    } else if open == [] {
      forall e | e in days ensures !OpensOn(doc, e.date) {
        var d: nat :| d < |days| && days[d] == e;
        assert d !in open;
      }
    } else {
      assert open[0] in open && days[open[0]] in days;
    }
  }

  lemma NeverOpens(doc: PlaceDoc)
    requires doc.periods == []
    ensures forall date :: !OpensOn(doc, date)
  {
  }

  /** `c` is a list of the days of some slots, in their order. */
  ghost predicate DaysOfSlots(c: seq<nat>, slots: seq<DaySlot>) {
    Subsequence(c, DayIndices(slots))
  }

  lemma {:induction false} SlotDaysInOrder(slots: seq<DaySlot>, open: seq<nat>)
    ensures DaysOfSlots(SlotDays(slots, open), slots)
  {
    if slots != [] {
      var k := |slots| - 1;
      SlotDaysInOrder(slots[..k], open);
      SlotDaysAreSlots(slots[..k], open);
      assert DayIndices(slots)[..|DayIndices(slots)| - 1] == DayIndices(slots[..k]);
      var before := SlotDays(slots[..k], open);
      assert before + [] == before;
      SubsequenceNext(before, DayIndices(slots));
      if slots[k].dayIndex !in open {
        assert slots[k].dayIndex !in before;
      }
    }
  }

  /** The place has a slot for the day. */
  ghost predicate HasSlot(pref: PlacePreference, d: nat) {
    exists s :: s in pref.slots && s.dayIndex == d
  }

  /**
   * Where an unpinned place may go: the days of its slots on which it is open, all days of its slots when it is
   * open on none, or, without slots, the days on which it is open.
   */
  lemma CandidatesAreExact(trip: Trip, pref: PlacePreference)
    ensures var open := OpenDays(trip.Doc(pref.placeId), trip.days);
            && (pref.slots == [] ==> Candidates(trip, pref) == open)
            && (pref.slots != [] ==>
                  && DaysOfSlots(Candidates(trip, pref), pref.slots)
                  && forall d: nat :: d in Candidates(trip, pref) <==>
                       HasSlot(pref, d) && (d in open || forall e: nat :: HasSlot(pref, e) ==> e !in open))
  {
    var open := OpenDays(trip.Doc(pref.placeId), trip.days);
    SlotDaysAreSlots(pref.slots, open);
    SlotDaysInOrder(pref.slots, open);
    WholeIsSubsequence(DayIndices(pref.slots));
    forall d: nat ensures d in DayIndices(pref.slots) <==> HasSlot(pref, d) {
      SlotDay(pref, d);
    }
    hide SlotDays, DayIndices, OpenDays;
    if pref.slots != [] && SlotDays(pref.slots, open) != [] {
      assert SlotDays(pref.slots, open)[0] in SlotDays(pref.slots, open);
    }
  }

  lemma SlotDay(pref: PlacePreference, d: nat)
    ensures d in DayIndices(pref.slots) <==> HasSlot(pref, d)
  {
    if HasSlot(pref, d) {
      var s :| s in pref.slots && s.dayIndex == d;
      var i :| 0 <= i < |pref.slots| && pref.slots[i] == s;
      assert DayIndices(pref.slots)[i] == d;
    }
    if d in DayIndices(pref.slots) {
      var i :| 0 <= i < |pref.slots| && DayIndices(pref.slots)[i] == d;
      assert pref.slots[i] in pref.slots;
    }
  }

  lemma {:induction false} WholeIsSubsequence<T>(s: seq<T>)
    ensures Subsequence(s, s)
  {
    if s != [] {
      WholeIsSubsequence(s[..|s| - 1]);
    }
  }

  lemma {:induction false} SelectInOrder(places: seq<PlacePreference>, tier: Tier3)
    ensures Subsequence(Select(places, tier), places)
  {
    if places != [] {
      var k := |places| - 1;
      SelectInOrder(places[..k], tier);
      SelectElements(places[..k], tier);
      assert Select(places[..k], tier) + [] == Select(places[..k], tier);
      SubsequenceNext(Select(places[..k], tier), places);
    }
  }

  /** The stored priority of a place; normal without a document or a priority. */
  ghost predicate HasPriority(trip: Trip, id: Id, pr: Priority) {
    if id in trip.docs && trip.docs[id].priority.Some? then trip.docs[id].priority.value == pr else pr == Normal
  }

  /** `a` has a higher priority than `b`. */
  ghost predicate Outranks(trip: Trip, a: Id, b: Id) {
    || (HasPriority(trip, a, MustSee) && !HasPriority(trip, b, MustSee))
    || (!HasPriority(trip, a, Optional) && HasPriority(trip, b, Optional))
  }

  lemma RankIsPriority(trip: Trip, a: PlacePreference, b: PlacePreference)
    ensures !RankLe(trip, a, b) <==> Outranks(trip, b.placeId, a.placeId)
  {
  }

  /** The places of the same rank as `p`, in their order. */
  ghost function SameRank(trip: Trip, prefs: seq<PlacePreference>, p: PlacePreference): seq<PlacePreference> {
    Equivalents(prefs, (a, b) => RankLe(trip, a, b), p)
  }

  /** No place is packed after one it outranks, and places of one priority keep the order of the request. */
  ghost predicate ByPriority(trip: Trip, from: seq<PlacePreference>, order: seq<PlacePreference>) {
    && (forall i, j :: 0 <= i < j < |order| ==> !Outranks(trip, order[j].placeId, order[i].placeId))
    && (forall p :: SameRank(trip, order, p) == SameRank(trip, from, p))
    && multiset(order) == multiset(from)
  }

  lemma ByRankIsByPriority(trip: Trip, prefs: seq<PlacePreference>)
    ensures ByPriority(trip, prefs, ByRank(trip, prefs))
  {
    var le := (a, b) => RankLe(trip, a, b);
    SortBySorts(prefs, le);
    var order := ByRank(trip, prefs);
    assert order == SortBy(prefs, le);
    forall i, j | 0 <= i < j < |order| ensures !Outranks(trip, order[j].placeId, order[i].placeId) {
      assert le(order[i], order[j]);
      RankIsPriority(trip, order[i], order[j]);
    }
    forall p ensures SameRank(trip, order, p) == SameRank(trip, prefs, p) {
      SortByIsStable(prefs, le, p);
      assert SameRank(trip, order, p) == Equivalents(order, le, p) && SameRank(trip, prefs, p) == Equivalents(prefs, le, p);
    }
  }

  /** Places with several slots are packed first, then those without any, each kind by priority. */
  lemma PackOrderIsExact(trip: Trip, places: seq<PlacePreference>) returns (flexible: seq<PlacePreference>, auto: seq<PlacePreference>)
    ensures Subsequence(flexible, places) && forall p :: p in flexible <==> p in places && |p.slots| > 1
    ensures Subsequence(auto, places) && forall p :: p in auto <==> p in places && p.slots == []
    ensures exists k: nat :: k <= |PackOrder(trip, places)|
              && ByPriority(trip, flexible, PackOrder(trip, places)[..k]) && ByPriority(trip, auto, PackOrder(trip, places)[k..])
  {
    flexible, auto := Select(places, Flexible), Select(places, Auto);
    SelectInOrder(places, Flexible);
    SelectInOrder(places, Auto);
    SelectElements(places, Flexible);
    SelectElements(places, Auto);
    hide Select, ByPriority, ByRank;
    ByRankIsByPriority(trip, flexible);
    ByRankIsByPriority(trip, auto);
    var k := |ByRank(trip, flexible)|;
    assert PackOrder(trip, places)[..k] == ByRank(trip, flexible) && PackOrder(trip, places)[k..] == ByRank(trip, auto);
  }
}
