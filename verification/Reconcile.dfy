/** Edit operations of a multi-day trip, the selection of stays, and the reconciliation of transfers. */
module Reconcile {
  import opened Wrappers
  import opened Sequences
  import opened TimeWindows
  import opened Scheduling
  import opened RouteOptimizer
  import opened Accommodations
  import opened TripRequests

  datatype Operation =
    | SetPlaceAuto(placeId: Id)
    | SetPlacePinned(placeId: Id, dayIndex: nat, hourFrom: Option<int>, hourTo: Option<int>)
    | SetPlaceFlexible(placeId: Id, slots: seq<DaySlot>)
    | RemovePlace(placeId: Id)
    | UpdateDayWindow(dayIndex: nat, startHour: Option<int>, endHour: Option<int>, startTime: Option<Time>,
                      endTime: Option<Time>, clearStart: bool, clearEnd: bool)
    | SetTransportMode(mode: TransportMode)
    | AddTransfer(transfer: Transfer)
    | UpdateTransfer(date: int, departure: Option<Time>, arrival: Option<Time>, caption: Option<string>, clearCaption: bool)
    | RemoveTransfer(date: int)
    | AddStay(stay: Stay)
    | UpdateStay(stayIndex: nat, name: Option<string>, lat: Option<real>, lng: Option<real>, checkIn: Option<int>,
                 checkOut: Option<int>, checkInFrom: Option<Time>, checkOutBy: Option<Time>,
                 clearCheckInFrom: bool, clearCheckOutBy: bool)
    | RemoveStay(stayIndex: nat)
  {
    predicate ForStays() { AddStay? || UpdateStay? || RemoveStay? }

    /** The operation names an existing stay. */
    predicate Selects() { UpdateStay? || RemoveStay? }

    /** The operation models' own field limits that the handlers rely on. */
    predicate WellFormed() { SetTransportMode? ==> mode != TRANSIT }
  }

  datatype EditError =
    | InvalidDayIndex
    | PlaceNotInTrip
    | TooFewPlaces
    | OperationInvalid
    | StayNotFound
    | SelectorConflict
    | TransferNotFound
    | TransferAlreadyExists
    | EditInvalid

  // ---------------------------------------------------------------------------------------
  // Selecting stays
  // ---------------------------------------------------------------------------------------

  function CheckInAt(stays: seq<Stay>, i: nat): int {
    if i < |stays| then stays[i].checkIn else 0
  }

  predicate PositionLe(stays: seq<Stay>, i: nat, j: nat) {
    CheckInAt(stays, i) <= CheckInAt(stays, j)
  }

  /** The positions of the stays in check-in order; a selector counts in this order. */
  function SortedPositions(stays: seq<Stay>): seq<nat> {
    SortBy(Range(|stays|), (i, j) => PositionLe(stays, i, j))
  }

  /** The positions are a permutation of the list's own. */
  lemma PositionsPermute(stays: seq<Stay>)
    ensures |SortedPositions(stays)| == |stays| && Distinct(SortedPositions(stays))
    ensures forall i :: i in SortedPositions(stays) <==> 0 <= i < |stays|
  {
    var p := SortedPositions(stays);
    PositionsSorted(stays);
    hide SortedPositions;
    RangeIsAll(|stays|);
    SameMultisetSameElements(p, Range(|stays|));
    PermutationDistinct(Range(|stays|), p);
  }

  /** The positions are in check-in order. */
  lemma {:induction false} PositionsSorted(stays: seq<Stay>)
    ensures Sorted(SortedPositions(stays), (i, j) => PositionLe(stays, i, j))
    ensures multiset(SortedPositions(stays)) == multiset(Range(|stays|))
  {
    var le := (i, j) => PositionLe(stays, i, j);
    assert TotalPreorder(le);
    assert SortedPositions(stays) == SortBy(Range(|stays|), le);
    SortBySorts(Range(|stays|), le);
  }

  /** The stay each operation is about, as a position in the list before the batch; none for additions. */
  function Resolved(stays: seq<Stay>, ops: seq<Operation>): Result<seq<Option<nat>>, EditError> {
    if ops == [] then Ok([])
    else
      var k := |ops| - 1;
      var before := Resolved(stays, ops[..k]);
      var positions := SortedPositions(stays);
      if before.Err? then before
      else if !ops[k].Selects() then Ok(before.value + [None])
      else if ops[k].stayIndex >= |positions| then Err(StayNotFound)
      else if Some(positions[ops[k].stayIndex]) in before.value then Err(SelectorConflict)
      else Ok(before.value + [Some(positions[ops[k].stayIndex])])
  }

  lemma {:induction false} ResolvedLength(stays: seq<Stay>, ops: seq<Operation>)
    ensures Resolved(stays, ops).Ok? ==> |Resolved(stays, ops).value| == |ops|
  {
    if ops != [] {
      ResolvedLength(stays, ops[..|ops| - 1]);
    }
  }

  /** An error of a shorter batch stays the error of every longer one. */
  lemma {:induction false} FirstErrorStays(stays: seq<Stay>, ops: seq<Operation>, k: nat)
    requires k <= |ops| && Resolved(stays, ops[..k]).Err?
    ensures Resolved(stays, ops) == Resolved(stays, ops[..k])
  {
    if k < |ops| {
      assert ops[..|ops| - 1][..k] == ops[..k];
      FirstErrorStays(stays, ops[..|ops| - 1], k);
    } else {
      assert ops[..k] == ops;
    }
  }

  method ResolveSelectors(stays: seq<Stay>, ops: seq<Operation>) returns (result: Result<seq<Option<nat>>, EditError>)
    ensures result == Resolved(stays, ops)
  {
    var positions := SortedPositions(stays);
    var resolved: seq<Option<nat>> := [];
    var claimed: set<nat> := {};
    for k := 0 to |ops|
      invariant Resolved(stays, ops[..k]) == Ok(resolved)
      invariant forall i :: i in claimed <==> Some(i) in resolved
    {
      assert ops[..k + 1][..k] == ops[..k];
      if !ops[k].Selects() {
        resolved := resolved + [None];
        continue;
      }
      var selector := ops[k].stayIndex;
      if selector >= |positions| {
        FirstErrorStays(stays, ops, k + 1);
        return Err(StayNotFound);
      }
      if positions[selector] in claimed {
        FirstErrorStays(stays, ops, k + 1);
        return Err(SelectorConflict);
      }
      claimed := claimed + {positions[selector]};
      resolved := resolved + [Some(positions[selector])];
    }
    assert ops[..|ops|] == ops;
    result := Ok(resolved);
  }

  /** The selectors of a batch, in order. */
  function Selectors(ops: seq<Operation>): seq<nat> {
    if ops == [] then []
    else
      var op := ops[|ops| - 1];
      Selectors(ops[..|ops| - 1]) + (if op.Selects() then [op.stayIndex] else [])
  }

  /** Every selector names an existing stay, and no two name the same one. */
  predicate SelectorsFit(stays: seq<Stay>, ops: seq<Operation>) {
    && Distinct(Selectors(ops))
    && forall i :: i in Selectors(ops) ==> i < |stays|
  }

  predicate Hits(stays: seq<Stay>, op: Operation, i: nat) {
    op.Selects() && op.stayIndex < |SortedPositions(stays)| && SortedPositions(stays)[op.stayIndex] == i
  }

  /** A resolved batch: every selecting operation has the position its selector counts to, and no other has one. */
  ghost predicate Resolves(stays: seq<Stay>, ops: seq<Operation>, targets: seq<Option<nat>>) {
    && |targets| == |ops|
    && forall k :: 0 <= k < |ops| ==>
         match targets[k]
         case Some(i) => i < |stays| && Hits(stays, ops[k], i)
         case None => !ops[k].Selects()
  }

  lemma {:induction false} SelectorIn(ops: seq<Operation>, k: nat)
    requires k < |ops| && ops[k].Selects()
    ensures ops[k].stayIndex in Selectors(ops)
  {
    if k < |ops| - 1 {
      SelectorIn(ops[..|ops| - 1], k);
    }
  }

  lemma {:induction false} SelectorFrom(ops: seq<Operation>, i: nat) returns (k: nat)
    requires i in Selectors(ops)
    ensures k < |ops| && ops[k].Selects() && ops[k].stayIndex == i
  {
    var last := |ops| - 1;
    if ops[last].Selects() && ops[last].stayIndex == i {
      k := last;
    } else {
      k := SelectorFrom(ops[..last], i);
    }
  }

  /** Selectors resolve exactly when they fit, and then to the positions they count to. */
  lemma {:induction false} ResolutionIsExact(stays: seq<Stay>, ops: seq<Operation>)
    ensures Resolved(stays, ops).Ok? <==> SelectorsFit(stays, ops)
    ensures Resolved(stays, ops).Ok? ==> Resolves(stays, ops, Resolved(stays, ops).value)
  {
    if ops != [] {
      var k := |ops| - 1;
      ResolutionIsExact(stays, ops[..k]);
      SelectorsNext(stays, ops);
      PositionsPermute(stays);
      hide Resolves, Hits, SelectorsFit, SortedPositions;
      if Resolved(stays, ops[..k]).Ok? {
        var before := Resolved(stays, ops[..k]).value;
        if ops[k].Selects() && ops[k].stayIndex < |stays| {
          ClaimedIsSelected(stays, ops[..k], before, ops[k].stayIndex);
        }
        if Resolved(stays, ops).Ok? {
          ResolvesNext(stays, ops, before, Resolved(stays, ops).value[k]);
        }
      }
    }
  }

  lemma SelectorsNext(stays: seq<Stay>, ops: seq<Operation>)
    requires ops != []
    ensures var k := |ops| - 1;
            SelectorsFit(stays, ops) <==>
            && SelectorsFit(stays, ops[..k])
            && (ops[k].Selects() ==> ops[k].stayIndex < |stays| && ops[k].stayIndex !in Selectors(ops[..k]))
  {
    var k := |ops| - 1;
    assert Selectors(ops[..k]) + [] == Selectors(ops[..k]);
    if ops[k].Selects() {
      LastElement(Selectors(ops));
      assert Selectors(ops)[..|Selectors(ops[..k])|] == Selectors(ops[..k]);
    }
  }

  lemma ResolvesNext(stays: seq<Stay>, ops: seq<Operation>, before: seq<Option<nat>>, target: Option<nat>)
    requires ops != [] && Resolves(stays, ops[..|ops| - 1], before)
    requires var op := ops[|ops| - 1];
             if op.Selects() then op.stayIndex < |stays| && |SortedPositions(stays)| == |stays|
                                  && target == Some(SortedPositions(stays)[op.stayIndex])
             else target.None?
    ensures Resolves(stays, ops, before + [target])
  {
    var k := |ops| - 1;
    PositionsPermute(stays);
    assert target.Some? ==> target.value in SortedPositions(stays);
    assert forall j :: 0 <= j < k ==> ops[..k][j] == ops[j];
    hide SortedPositions;
  }

  /** A position is already claimed exactly when its selector occurred before. */
  lemma ClaimedIsSelected(stays: seq<Stay>, ops: seq<Operation>, targets: seq<Option<nat>>, selector: nat)
    requires Resolves(stays, ops, targets) && selector < |stays|
    requires |SortedPositions(stays)| == |stays|
    ensures Some(SortedPositions(stays)[selector]) in targets <==> selector in Selectors(ops)
  {
    PositionsPermute(stays);
    var target := Some(SortedPositions(stays)[selector]);
    if target in targets {
      var k :| 0 <= k < |targets| && targets[k] == target;
      assert Hits(stays, ops[k], target.value);
      assert ops[k].stayIndex == selector;
      SelectorIn(ops, k);
    }
    if selector in Selectors(ops) {
      var k := SelectorFrom(ops, selector);
      assert targets[k].Some? && Hits(stays, ops[k], targets[k].value);
      assert targets[k] == target;
    }
  }

  /** The selection is injective: two operations of a resolved batch are about different stays. */
  lemma ResolutionIsInjective(stays: seq<Stay>, ops: seq<Operation>, k: nat, l: nat)
    requires SelectorsFit(stays, ops) && k < l < |ops| && ops[k].Selects() && ops[l].Selects()
    ensures ops[k].stayIndex != ops[l].stayIndex
    ensures Resolved(stays, ops).Ok?
    ensures var targets := Resolved(stays, ops).value; |targets| == |ops| && targets[k] != targets[l]
  {
    ResolutionIsExact(stays, ops);
    PositionsPermute(stays);
    SelectorsApart(ops, k, l);
    var targets := Resolved(stays, ops).value;
    assert Hits(stays, ops[k], targets[k].value) && Hits(stays, ops[l], targets[l].value);
  }

  lemma {:induction false} SelectorsApart(ops: seq<Operation>, k: nat, l: nat)
    requires Distinct(Selectors(ops)) && k < l < |ops| && ops[k].Selects() && ops[l].Selects()
    ensures ops[k].stayIndex != ops[l].stayIndex
  {
    var last := |ops| - 1;
    assert Selectors(ops)[..|Selectors(ops[..last])|] == Selectors(ops[..last]);
    if l < last {
      SelectorsApart(ops[..last], k, l);
    } else {
      SelectorIn(ops[..last], k);
      LastElement(Selectors(ops));
    }
  }

  // ---------------------------------------------------------------------------------------
  // Transfers after a change of stays
  // ---------------------------------------------------------------------------------------

  /** The date is a day of the trip on which the traveller changes stays. */
  predicate IsChangeover(days: seq<DayConfig>, stays: seq<Stay>, date: int) {
    date in Dates(days) && IsTransitionDay(AnchorsOf(stays, date))
  }

  predicate Survives(days: seq<DayConfig>, stays: seq<Stay>, before: set<int>, t: Transfer) {
    IsChangeover(days, stays, t.date) || t.date !in before
  }

  function Surviving(days: seq<DayConfig>, stays: seq<Stay>, before: set<int>, transfers: seq<Transfer>): seq<Transfer> {
    if transfers == [] then []
    else
      var t := transfers[|transfers| - 1];
      Surviving(days, stays, before, transfers[..|transfers| - 1]) + (if Survives(days, stays, before, t) then [t] else [])
  }

  function Orphaned(days: seq<DayConfig>, stays: seq<Stay>, before: set<int>, transfers: seq<Transfer>): seq<int> {
    if transfers == [] then []
    else
      var t := transfers[|transfers| - 1];
      Orphaned(days, stays, before, transfers[..|transfers| - 1]) + (if Survives(days, stays, before, t) then [] else [t.date])
  }

  method ReconcileTransfers(days: seq<DayConfig>, stays: seq<Stay>, transfers: seq<Transfer>, before: set<int>)
    returns (kept: seq<Transfer>, dropped: seq<int>)
    ensures kept == Surviving(days, stays, before, transfers)
    ensures dropped == Orphaned(days, stays, before, transfers)
  {
    kept, dropped := [], [];
    for i := 0 to |transfers|
      invariant kept == Surviving(days, stays, before, transfers[..i])
      invariant dropped == Orphaned(days, stays, before, transfers[..i])
    {
      assert transfers[..i + 1][..i] == transfers[..i];
      var t := transfers[i];
      if IsChangeover(days, stays, t.date) || t.date !in before {
        kept := kept + [t];
      } else {
        dropped := dropped + [t.date];
      }
    }
    assert transfers[..|transfers|] == transfers;
  }

  /** The kept and the dropped transfers, by what the stays say about their dates. */
  lemma {:induction false} ReconciliationIsExact(days: seq<DayConfig>, stays: seq<Stay>, before: set<int>, transfers: seq<Transfer>)
    ensures forall t :: t in Surviving(days, stays, before, transfers) <==>
              t in transfers && (IsChangeover(days, stays, t.date) || t.date !in before)
    ensures forall date :: date in Orphaned(days, stays, before, transfers) <==>
              date in TransferDates(transfers) && date in before && !IsChangeover(days, stays, date)
    ensures |Surviving(days, stays, before, transfers)| + |Orphaned(days, stays, before, transfers)| == |transfers|
  {
    hide IsChangeover;
    if transfers != [] {
      var k := |transfers| - 1;
      ReconciliationIsExact(days, stays, before, transfers[..k]);
      LastElement(transfers);
      DatesNext(transfers);
    }
  }

  lemma DatesNext(transfers: seq<Transfer>)
    requires transfers != []
    ensures var k := |transfers| - 1;
            && TransferDates(transfers) == TransferDates(transfers[..k]) + [transfers[k].date]
            && (Distinct(TransferDates(transfers)) <==>
                  Distinct(TransferDates(transfers[..k])) && transfers[k].date !in TransferDates(transfers[..k]))
  {
    var k := |transfers| - 1;
    LastElement(TransferDates(transfers));
    assert TransferDates(transfers)[..k] == TransferDates(transfers[..k]);
  }

  /** Dropping transfers keeps their dates distinct. */
  lemma {:induction false} SurvivingStayDistinct(days: seq<DayConfig>, stays: seq<Stay>, before: set<int>, transfers: seq<Transfer>)
    requires Distinct(TransferDates(transfers))
    ensures Distinct(TransferDates(Surviving(days, stays, before, transfers)))
  {
    hide IsChangeover;
    if transfers != [] {
      var k := |transfers| - 1;
      DatesNext(transfers);
      SurvivingStayDistinct(days, stays, before, transfers[..k]);
      ReconciliationIsExact(days, stays, before, transfers[..k]);
      KeptDatesAreDates(days, stays, before, transfers[..k]);
      var kept := Surviving(days, stays, before, transfers[..k]);
      assert kept + [] == kept;
      assert (kept + [transfers[k]])[..|kept|] == kept;
      DatesNext(kept + [transfers[k]]);
    }
  }

  lemma KeptDatesAreDates(days: seq<DayConfig>, stays: seq<Stay>, before: set<int>, transfers: seq<Transfer>)
    requires forall t :: t in Surviving(days, stays, before, transfers) ==> t in transfers
    ensures forall date :: date in TransferDates(Surviving(days, stays, before, transfers)) ==> date in TransferDates(transfers)
  {
    var kept := Surviving(days, stays, before, transfers);
    forall date | date in TransferDates(kept) ensures date in TransferDates(transfers) {
      var i :| 0 <= i < |kept| && TransferDates(kept)[i] == date;
      assert kept[i] in transfers;
      var j :| 0 <= j < |transfers| && transfers[j] == kept[i];
      assert TransferDates(transfers)[j] == date;
    }
  }

  // ---------------------------------------------------------------------------------------
  // Checks and preserved hours
  // ---------------------------------------------------------------------------------------

  const MIN_PLACES := 2

  function PlaceAt(places: seq<PlacePreference>, id: Id): Option<nat> {
    PlaceFrom(places, id, 0)
  }

  function PlaceFrom(places: seq<PlacePreference>, id: Id, from: nat): Option<nat>
    decreases |places| - from
  {
    if from >= |places| then None
    else if places[from].placeId == id then Some(from)
    else PlaceFrom(places, id, from + 1)
  }

  lemma {:induction false} PlaceFromIsFirst(places: seq<PlacePreference>, id: Id, from: nat)
    requires from <= |places|
    ensures match PlaceFrom(places, id, from)
            case Some(i) => from <= i < |places| && places[i].placeId == id
            case None => forall k :: from <= k < |places| ==> places[k].placeId != id
    decreases |places| - from
  {
    if from < |places| && places[from].placeId != id {
      PlaceFromIsFirst(places, id, from + 1);
    }
  }

  function SlotOn(slots: seq<DaySlot>, day: nat): Option<DaySlot> {
    if slots == [] then None
    else if slots[0].dayIndex == day then Some(slots[0])
    else SlotOn(slots[1..], day)
  }

  /** Each requested hour, or else the one the place already had on that day. */
  function MergedSlot(existing: seq<DaySlot>, day: nat, hourFrom: Option<int>, hourTo: Option<int>): DaySlot {
    var was := SlotOn(existing, day);
    DaySlot(day,
            if hourFrom.Some? || was.None? then hourFrom else was.value.hourFrom,
            if hourTo.Some? || was.None? then hourTo else was.value.hourTo)
  }

  /** Pinning a place that has a single slot keeps that slot's hours when the result would have none. */
  function PinnedSlot(existing: seq<DaySlot>, day: nat, hourFrom: Option<int>, hourTo: Option<int>): DaySlot {
    var merged := MergedSlot(existing, day, hourFrom, hourTo);
    if merged.hourFrom.None? && merged.hourTo.None? && |existing| == 1
    then DaySlot(day, existing[0].hourFrom, existing[0].hourTo)
    else merged
  }

  lemma SlotOnOne(slot: DaySlot, day: nat)
    ensures SlotOn([slot], day) == if slot.dayIndex == day then Some(slot) else None
  {
    assert [slot][1..] == [];
  }

  /** Moving a pinned place to another day and back, naming no hours, restores it. */
  lemma PinThereAndBack(existing: seq<DaySlot>, day: nat)
    requires |existing| == 1
    ensures var there := PinnedSlot(existing, day, None, None);
            [PinnedSlot([there], existing[0].dayIndex, None, None)] == existing
  {
    SlotOnOne(existing[0], day);
    var there := PinnedSlot(existing, day, None, None);
    SlotOnOne(there, existing[0].dayIndex);
    assert existing == [existing[0]];
  }

  predicate DistinctSlotDays(slots: seq<DaySlot>) {
    forall i, j :: 0 <= i < j < |slots| ==> slots[i].dayIndex != slots[j].dayIndex
  }

  method DedupeFlexibleSlots(slots: seq<DaySlot>) returns (ok: bool)
    ensures ok <==> DistinctSlotDays(slots)
  {
    var seen: set<nat> := {};
    for i := 0 to |slots|
      invariant forall d :: d in seen <==> exists k :: 0 <= k < i && slots[k].dayIndex == d
      invariant DistinctSlotDays(slots[..i])
    {
      if slots[i].dayIndex in seen {
        return false;
      }
      seen := seen + {slots[i].dayIndex};
    }
    return true;
  }
}
