/** What a batch of edits guarantees: order does not matter where it should not, and valid trips stay valid. */
module EditGuarantees {
  import opened Wrappers
  import opened Sequences
  import opened TimeWindows
  import opened Scheduling
  import opened RouteOptimizer
  import opened Accommodations
  import opened TripRequests
  import opened Reconcile
  import opened ApplyEdits

  // ---------------------------------------------------------------------------------------
  // The order of updates and removals does not matter
  // ---------------------------------------------------------------------------------------

  lemma {:induction false} AfterNoUpdate(stays: seq<Stay>, ops: seq<Operation>, i: nat)
    requires i < |stays|
    requires forall op :: op in ops && op.UpdateStay? ==> !Hits(stays, op, i)
    ensures AfterUpdates(stays, ops, i) == stays[i]
  {
    if ops != [] {
      AfterNoUpdate(stays, ops[..|ops| - 1], i);
    }
  }

  /** Two operations about the same stay carry the same selector. */
  lemma SameStaySameSelector(stays: seq<Stay>, p: Operation, q: Operation, i: nat)
    requires Hits(stays, p, i) && Hits(stays, q, i)
    ensures p.stayIndex == q.stayIndex
  {
    PositionsPermute(stays);
  }

  /** An updated stay is changed by its one update only. */
  lemma {:induction false} AfterOneUpdate(stays: seq<Stay>, ops: seq<Operation>, i: nat, k: nat)
    requires Distinct(Selectors(ops)) && i < |stays|
    requires k < |ops| && ops[k].UpdateStay? && Hits(stays, ops[k], i)
    ensures AfterUpdates(stays, ops, i) == Updated(stays[i], ops[k])
  {
    var last := |ops| - 1;
    var op := ops[k];
    hide Hits;
    if k == last {
      forall p | p in ops[..last] && p.UpdateStay? ensures !Hits(stays, p, i) {
        var j :| 0 <= j < last && ops[j] == p;
        SelectorsApart(ops, j, k);
        if Hits(stays, p, i) {
          SameStaySameSelector(stays, p, op, i);
        }
      }
      AfterNoUpdate(stays, ops[..last], i);
    } else {
      if ops[last].UpdateStay? {
        SelectorsApart(ops, k, last);
        if Hits(stays, ops[last], i) {
          SameStaySameSelector(stays, op, ops[last], i);
        }
      }
      assert Selectors(ops)[..|Selectors(ops[..last])|] == Selectors(ops[..last]);
      AfterOneUpdate(stays, ops[..last], i, k);
    }
  }

  lemma {:induction false} SelectorsConcat(a: seq<Operation>, b: seq<Operation>)
    ensures Selectors(a + b) == Selectors(a) + Selectors(b)
  {
    if b == [] {
      assert a + b == a;
    } else {
      SelectorsConcat(a, b[..|b| - 1]);
      assert (a + b)[..|a + b| - 1] == a + b[..|b| - 1];
    }
  }

  /** Reordering a batch reorders its selectors. */
  lemma {:induction false} SelectorsPermute(a: seq<Operation>, b: seq<Operation>)
    requires multiset(a) == multiset(b)
    ensures multiset(Selectors(a)) == multiset(Selectors(b))
  {
    if a == [] {
      SameMultisetSameElements(a, b);
    } else {
      var k := |a| - 1;
      var p := PermutationWithoutLast(a, b);
      SelectorsPermute(a[..k], b[..p] + b[p + 1..]);
      SelectorsTakeOut(a, k);
      SelectorsTakeOut(b, p);
      assert a[..k] + a[k + 1..] == a[..k];
    }
  }

  lemma SelectorsTakeOut(ops: seq<Operation>, p: nat)
    requires p < |ops|
    ensures multiset(Selectors(ops)) == multiset(Selectors(ops[..p] + ops[p + 1..])) + multiset(Selectors([ops[p]]))
  {
    hide Selectors;
    SelectorsConcat(ops[..p], ops[p + 1..]);
    SelectorsConcat(ops[..p], [ops[p]]);
    SelectorsConcat(ops[..p] + [ops[p]], ops[p + 1..]);
    assert ops == ops[..p] + [ops[p]] + ops[p + 1..];
  }

  lemma FitPermutes(stays: seq<Stay>, a: seq<Operation>, b: seq<Operation>)
    requires multiset(a) == multiset(b) && SelectorsFit(stays, a)
    ensures SelectorsFit(stays, b)
  {
    SelectorsPermute(a, b);
    PermutationDistinct(Selectors(a), Selectors(b));
    SameMultisetSameElements(Selectors(a), Selectors(b));
  }

  lemma UpdatesAgree(stays: seq<Stay>, a: seq<Operation>, b: seq<Operation>, i: nat)
    requires Distinct(Selectors(a)) && Distinct(Selectors(b)) && i < |stays|
    requires forall op :: op in a <==> op in b
    ensures AfterUpdates(stays, a, i) == AfterUpdates(stays, b, i)
  {
    hide Hits;
    if op :| op in a && op.UpdateStay? && Hits(stays, op, i) {
      var k :| 0 <= k < |a| && a[k] == op;
      assert op in b;
      var l :| 0 <= l < |b| && b[l] == op;
      AfterOneUpdate(stays, a, i, k);
      AfterOneUpdate(stays, b, i, l);
    } else {
      AfterNoUpdate(stays, a, i);
      AfterNoUpdate(stays, b, i);
    }
  }

  lemma {:induction false} SurvivorsAgree(stays: seq<Stay>, a: seq<Operation>, b: seq<Operation>, n: nat)
    requires Distinct(Selectors(a)) && Distinct(Selectors(b)) && n <= |stays|
    requires forall op :: op in a <==> op in b
    ensures Survivors(stays, a, n) == Survivors(stays, b, n)
  {
    if n > 0 {
      SurvivorsAgree(stays, a, b, n - 1);
      UpdatesAgree(stays, a, b, n - 1);
      hide Hits, AfterUpdates;
      assert Removes(stays, a, n - 1) <==> Removes(stays, b, n - 1);
    }
  }

  /** The resulting stays do not depend on the order of the updates and removals in a batch. */
  lemma {:induction false} StaysIgnoreOrder(stays: seq<Stay>, a: seq<Operation>, b: seq<Operation>)
    requires multiset(a) == multiset(b) && Added(a) == Added(b)
    ensures SelectorsFit(stays, a) <==> SelectorsFit(stays, b)
    ensures SelectorsFit(stays, a) ==> NewStays(stays, a) == NewStays(stays, b)
  {
    SameMultisetSameElements(a, b);
    if SelectorsFit(stays, a) {
      FitPermutes(stays, a, b);
      SurvivorsAgree(stays, a, b, |stays|);
    }
    if SelectorsFit(stays, b) {
      FitPermutes(stays, b, a);
    }
  }

  /**
   * A whole batch likewise: what it does depends on its updates and removals of stays as a
   * collection, wherever they stand among the other operations.
   */
  lemma BatchIgnoresStayOrder(request: MultiDayRequest, a: seq<Operation>, b: seq<Operation>)
    requires OtherOps(a) == OtherOps(b)
    requires multiset(StayOps(a)) == multiset(StayOps(b)) && Added(StayOps(a)) == Added(StayOps(b))
    ensures SelectorsFit(request.stays, StayOps(a)) ==> Applied(request, a) == Applied(request, b)
    ensures Applied(request, a).Ok? <==> Applied(request, b).Ok?
  {
    StaysIgnoreOrder(request.stays, StayOps(a), StayOps(b));
    ResolutionIsExact(request.stays, StayOps(a));
    ResolutionIsExact(request.stays, StayOps(b));
    hide NewStays, Resolved, Resolves, SelectorsFit, ReconciledWith, HandledAll;
  }

  // ---------------------------------------------------------------------------------------
  // What every handler keeps
  // ---------------------------------------------------------------------------------------

  /** No operation adds a place, moves a day to another date, or touches the stays and the trip's own anchors. */
  ghost predicate Keeps(r: MultiDayRequest, next: MultiDayRequest) {
    && Dates(next.days) == Dates(r.days)
    && next.start == r.start && next.end == r.end && next.stays == r.stays
    && (forall id :: id in PlaceIds(next.places) ==> id in PlaceIds(r.places))
    && (r.ValidPlaces() ==> next.ValidPlaces())
    && (r.transportMode != TRANSIT ==> next.transportMode != TRANSIT)
  }

  lemma WithSlotsKeeps(r: MultiDayRequest, i: nat, slots: seq<DaySlot>)
    requires i < |r.places| && DaysInRange(slots, |r.days|)
    ensures Keeps(r, WithSlots(r, i, slots))
  {
    var next := WithSlots(r, i, slots);
    assert PlaceIds(next.places) == PlaceIds(r.places);
    if r.ValidPlaces() {
      forall p, s | p in next.places && s in p.slots ensures s.dayIndex < |r.days| {
        assert p in r.places || p.slots == slots;
      }
    }
  }

  lemma IdOfPlace(places: seq<PlacePreference>, id: Id)
    ensures id in PlaceIds(places) <==> exists p :: p in places && p.placeId == id
  {
    if id in PlaceIds(places) {
      var i :| 0 <= i < |places| && PlaceIds(places)[i] == id;
      assert places[i] in places;
    }
    if p :| p in places && p.placeId == id {
      var i :| 0 <= i < |places| && places[i] == p;
      assert PlaceIds(places)[i] == id;
    }
  }

  lemma {:induction false} WithoutPlaceFilters(places: seq<PlacePreference>, id: Id)
    ensures forall p :: p in WithoutPlace(places, id) <==> p in places && p.placeId != id
  {
    if places != [] {
      WithoutPlaceFilters(places[..|places| - 1], id);
      LastElement(places);
    }
  }

  lemma WithoutPlaceElements(places: seq<PlacePreference>, id: Id)
    ensures forall p :: p in WithoutPlace(places, id) <==> p in places && p.placeId != id
    ensures forall x :: x in PlaceIds(WithoutPlace(places, id)) <==> x in PlaceIds(places) && x != id
  {
    WithoutPlaceFilters(places, id);
    hide WithoutPlace, PlaceIds;
    forall x ensures x in PlaceIds(WithoutPlace(places, id)) <==> x in PlaceIds(places) && x != id {
      IdOfPlace(places, x);
      IdOfPlace(WithoutPlace(places, id), x);
    }
  }

  lemma {:induction false} WithoutPlaceDistinct(places: seq<PlacePreference>, id: Id)
    requires Distinct(PlaceIds(places))
    ensures Distinct(PlaceIds(WithoutPlace(places, id)))
    ensures |WithoutPlace(places, id)| == |places| - (if id in PlaceIds(places) then 1 else 0)
  {
    if places != [] {
      var k := |places| - 1;
      IdsNext(places);
      WithoutPlaceDistinct(places[..k], id);
      WithoutPlaceElements(places[..k], id);
      var before := WithoutPlace(places[..k], id);
      assert before + [] == before;
      if places[k].placeId != id {
        assert (before + [places[k]])[..|before|] == before;
        IdsNext(before + [places[k]]);
      }
    }
  }

  lemma IdsNext(places: seq<PlacePreference>)
    requires places != []
    ensures var k := |places| - 1;
            && PlaceIds(places) == PlaceIds(places[..k]) + [places[k].placeId]
            && (Distinct(PlaceIds(places)) <==>
                  Distinct(PlaceIds(places[..k])) && places[k].placeId !in PlaceIds(places[..k]))
  {
    LastElement(PlaceIds(places));
    assert PlaceIds(places)[..|places| - 1] == PlaceIds(places[..|places| - 1]);
  }

  lemma RemovePlaceKeeps(r: MultiDayRequest, id: Id)
    requires id in PlaceIds(r.places) && |r.places| > MIN_PLACES
    ensures Keeps(r, r.(places := WithoutPlace(r.places, id)))
  {
    WithoutPlaceElements(r.places, id);
    if r.ValidPlaces() {
      WithoutPlaceDistinct(r.places, id);
    }
  }

  lemma PlaceEditKeeps(r: MultiDayRequest, op: Operation)
    requires op.SetPlaceAuto? || op.SetPlacePinned? || op.SetPlaceFlexible? || op.RemovePlace?
    requires PlaceEdited(r, op).Ok?
    ensures Keeps(r, PlaceEdited(r, op).value)
  {
    hide Keeps, WithSlots;
    PlaceFromIsFirst(r.places, op.placeId, 0);
    var i := PlaceAt(r.places, op.placeId).value;
    assert PlaceIds(r.places)[i] == op.placeId;
    match op {
      case SetPlaceAuto(_) => WithSlotsKeeps(r, i, []);
      case SetPlacePinned(_, day, hourFrom, hourTo) =>
        WithSlotsKeeps(r, i, [PinnedSlot(r.places[i].slots, day, hourFrom, hourTo)]);
      case SetPlaceFlexible(_, slots) => WithSlotsKeeps(r, i, MergedSlots(r.places[i].slots, slots));
      case RemovePlace(id) => RemovePlaceKeeps(r, id);
    }
  }

  lemma HandlerKeeps(r: MultiDayRequest, op: Operation)
    requires !op.ForStays() && op.WellFormed() && Handled(r, op).Ok?
    ensures Keeps(r, Handled(r, op).value)
  {
    hide PlaceEdited;
    if op.SetPlaceAuto? || op.SetPlacePinned? || op.SetPlaceFlexible? || op.RemovePlace? {
      PlaceEditKeeps(r, op);
    }
  }

  lemma {:induction false} HandlersKeep(r: MultiDayRequest, ops: seq<Operation>)
    requires NoneForStays(ops) && forall op :: op in ops ==> op.WellFormed()
    requires HandledAll(r, ops).Ok?
    ensures Keeps(r, HandledAll(r, ops).value)
  {
    hide Handled;
    if ops != [] {
      HandlersKeep(r, ops[..|ops| - 1]);
      HandlerKeeps(HandledAll(r, ops[..|ops| - 1]).value, ops[|ops| - 1]);
    }
  }

  /**
   * Of the request's validators only those of the day windows, the stays and the transfers can reject
   * an edited trip: the handlers' own checks already protect the places and the transport mode.
   */
  lemma ValidationIsExact(request: MultiDayRequest, ops: seq<Operation>)
    requires request.Valid() && forall op :: op in ops ==> op.WellFormed()
    requires Edited(request, ops).Ok?
    ensures var r := ReconciledWith(DatesBefore(request), Edited(request, ops).value);
            Applied(request, ops) == Err(EditInvalid) <==>
            !((forall d :: d in r.days ==> d.Valid()) && r.ValidStays() && r.ValidTransfers())
  {
    OtherOpsAreOthers(ops);
    var start := request.(stays := NewStays(request.stays, StayOps(ops)));
    var edited := Edited(request, ops).value;
    hide NewStays, HandledAll, Resolved;
    assert start.ValidPlaces();
    HandlersKeep(start, OtherOps(ops));
    assert |Dates(edited.days)| == |Dates(request.days)|;
  }

  // ---------------------------------------------------------------------------------------
  // Batches about stays only
  // ---------------------------------------------------------------------------------------

  ghost predicate KeepsChangeovers(before: MultiDayRequest, stays: seq<Stay>, kept: seq<Transfer>, removed: seq<int>) {
    && (forall t :: t in kept <==> t in before.transfers && Changeover(stays, t.date))
    && (forall date :: date in removed <==> date in TransferDates(before.transfers) && !Changeover(stays, date))
  }

  lemma TransferOf(transfers: seq<Transfer>, date: int) returns (t: Transfer)
    requires date in TransferDates(transfers)
    ensures t in transfers && t.date == date
  {
    var i :| 0 <= i < |transfers| && TransferDates(transfers)[i] == date;
    t := transfers[i];
  }

  lemma DateOf(transfers: seq<Transfer>, t: Transfer)
    requires t in transfers
    ensures t.date in TransferDates(transfers)
  {
    var i :| 0 <= i < |transfers| && transfers[i] == t;
    assert TransferDates(transfers)[i] == t.date;
  }

  lemma ReconciledByStays(request: MultiDayRequest, stays: seq<Stay>)
    requires request.ValidTransfers() && AllValid(stays) && NoSharedNight(stays)
    ensures var before := DatesBefore(request);
            KeepsChangeovers(request, stays, Surviving(request.days, stays, before, request.transfers),
                             Orphaned(request.days, stays, before, request.transfers))
  {
    var before := DatesBefore(request);
    ReconciliationIsExact(request.days, stays, before, request.transfers);
    hide Surviving, Orphaned, NoSharedNight, AllValid;
    forall t | t in request.transfers
      ensures t.date in before && (IsChangeover(request.days, stays, t.date) <==> Changeover(stays, t.date))
    {
      DateOf(request.transfers, t);
      TransitionIsChangeover(stays, t.date);
    }
    forall date | date in TransferDates(request.transfers)
      ensures date in before && (IsChangeover(request.days, stays, date) <==> Changeover(stays, date))
    {
      var t := TransferOf(request.transfers, date);
    }
  }

  lemma ReconciledIsValid(request: MultiDayRequest, stays: seq<Stay>)
    requires request.Valid() && AllValid(stays) && NoSharedNight(stays)
    ensures ReconciledWith(DatesBefore(request), request.(stays := stays)).Valid()
  {
    var before := DatesBefore(request);
    ReconciliationIsExact(request.days, stays, before, request.transfers);
    SurvivingStayDistinct(request.days, stays, before, request.transfers);
    OverlapCheckIsExact(stays);
    hide Surviving, NoSharedNight, AnchorsOf;
    forall t | t in request.transfers ensures t.date in before {
      DateOf(request.transfers, t);
    }
  }

  /**
   * A batch about stays only, on a valid trip: it succeeds exactly when its selectors fit and the new
   * stays are valid and share no night. It then changes nothing but the stays, and drops exactly the
   * transfers whose date is no longer a changeover.
   */
  lemma StayBatchIsExact(request: MultiDayRequest, ops: seq<Operation>)
    requires request.Valid() && OtherOps(ops) == []
    ensures var stays := NewStays(request.stays, StayOps(ops));
            && (Applied(request, ops).Ok? <==>
                  SelectorsFit(request.stays, StayOps(ops)) && AllValid(stays) && NoSharedNight(stays))
            && (Applied(request, ops).Ok? ==>
                  var outcome := Applied(request, ops).value;
                  && outcome.request == request.(stays := stays, transfers := outcome.request.transfers)
                  && outcome.request.Valid()
                  && KeepsChangeovers(request, stays, outcome.request.transfers, outcome.removedTransferDates))
  {
    var stays := NewStays(request.stays, StayOps(ops));
    ResolutionIsExact(request.stays, StayOps(ops));
    if AllValid(stays) {
      OverlapCheckIsExact(stays);
    }
    hide NewStays, Resolved, Resolves, SelectorsFit, NoSharedNight, Surviving, Orphaned, KeepsChangeovers;
    if AllValid(stays) && NoSharedNight(stays) {
      ReconciledIsValid(request, stays);
      ReconciledByStays(request, stays);
    }
  }

  /**
   * A transfer left on a date that is no changeover makes the batch fail exactly when no transfer stood
   * on that date before the batch; otherwise it is dropped, even if this very batch removed and re-added it.
   */
  lemma OffDayTransferFate(request: MultiDayRequest, ops: seq<Operation>, t: Transfer)
    requires Edited(request, ops).Ok? && t in Edited(request, ops).value.transfers
    requires var r := Edited(request, ops).value; !IsChangeover(r.days, r.stays, t.date)
    ensures t.date !in DatesBefore(request) ==> Applied(request, ops) == Err(EditInvalid)
    ensures t.date in DatesBefore(request) && Applied(request, ops).Ok? ==>
              && t !in Applied(request, ops).value.request.transfers
              && t.date in Applied(request, ops).value.removedTransferDates
  {
    var r := Edited(request, ops).value;
    var before := DatesBefore(request);
    ReconciliationIsExact(r.days, r.stays, before, r.transfers);
    DateOf(r.transfers, t);
    hide Edited, DatesBefore;
  }

  // ---------------------------------------------------------------------------------------
  // A re-added transfer
  // ---------------------------------------------------------------------------------------

  const NO_ANCHOR := Place(None, None)
  const FIRST_STAY := Stay("first", 0.0, 0.0, 1, 3, None, None)
  const SECOND_STAY := Stay("second", 1.0, 1.0, 3, 5, None, None)
  const OLD_TRANSFER := Transfer(3, Time(9, 0, 0), Time(11, 0, 0), None)
  const NEW_TRANSFER := Transfer(3, Time(10, 0, 0), Time(12, 0, 0), None)

  /** A trip that changes stays on day 3, with a transfer that day. */
  const CHANGING_TRIP := MultiDayRequest(
    [DayConfig(3, 9, 21, None, None, NO_ANCHOR, NO_ANCHOR)],
    [PlacePreference("museum", []), PlacePreference("park", [])],
    WALK, NO_ANCHOR, NO_ANCHOR, [FIRST_STAY, SECOND_STAY], [OLD_TRANSFER])

  /** Cancels the second stay, and so the changeover, and replaces the transfer of that day. */
  const READDING_BATCH := [RemoveStay(1), RemoveTransfer(3), AddTransfer(NEW_TRANSFER)]

  lemma ChangingTripIsValid()
    ensures CHANGING_TRIP.Valid()
  {
    var stays := CHANGING_TRIP.stays;
    assert Dates(CHANGING_TRIP.days) == [3] && TransferDates(CHANGING_TRIP.transfers) == [3];
    assert PlaceIds(CHANGING_TRIP.places) == ["museum", "park"];
    assert ByCheckIn(stays) == stays by { TwoStaysInOrder(FIRST_STAY, SECOND_STAY); }
    AnchorsOfTwo(FIRST_STAY, SECOND_STAY, 3);
  }

  lemma OneStayInOrder(a: Stay)
    ensures ByCheckIn([a]) == [a]
  {
    assert [a][1..] == [];
    assert SortBy([a], (x, y) => CheckInLe(x, y)) == Insert(a, SortBy([], (x, y) => CheckInLe(x, y)), (x, y) => CheckInLe(x, y));
  }

  lemma TwoStaysInOrder(a: Stay, b: Stay)
    requires a.checkIn <= b.checkIn
    ensures ByCheckIn([a, b]) == [a, b]
  {
    assert [a, b][1..] == [b] && [b][1..] == [];
    assert SortBy([b], (x, y) => CheckInLe(x, y)) == [b];
  }

  lemma AnchorsOfTwo(a: Stay, b: Stay, day: int)
    requires WakesUpIn(a, day) && !a.Covers(day) && !WakesUpIn(b, day) && b.Covers(day)
    ensures IsTransitionDay(AnchorsOf([a, b], day))
  {
    assert FirstFrom([a, b], Morning, day, 0) == Some(0);
    assert FirstFrom([a, b], Night, day, 1) == Some(1);
  }

  /** With the first stay alone nobody sleeps anywhere on day 3. */
  lemma NoChangeoverLeft()
    ensures !IsTransitionDay(AnchorsOf([FIRST_STAY], 3))
  {
    assert FirstFrom([FIRST_STAY], Night, 3, 1) == None;
    assert FirstFrom([FIRST_STAY], Night, 3, 0) == None;
  }

  lemma ReaddingSplits()
    ensures StayOps(READDING_BATCH) == [RemoveStay(1)]
    ensures OtherOps(READDING_BATCH) == [RemoveTransfer(3), AddTransfer(NEW_TRANSFER)]
  {
    var one, two := READDING_BATCH[..1], READDING_BATCH[..2];
    assert READDING_BATCH[..2] == [RemoveStay(1), RemoveTransfer(3)] && two[..1] == [RemoveStay(1)];
    assert [RemoveStay(1)][..0] == [];
    assert StayOps([RemoveStay(1)]) == [RemoveStay(1)] && OtherOps([RemoveStay(1)]) == [];
    assert StayOps(two) == [RemoveStay(1)] && OtherOps(two) == [RemoveTransfer(3)];
  }

  /** The selector counts to the second stay, which is removed. */
  lemma SecondStayRemoved()
    ensures SelectorsFit(CHANGING_TRIP.stays, [RemoveStay(1)])
    ensures NewStays(CHANGING_TRIP.stays, [RemoveStay(1)]) == [FIRST_STAY]
  {
    var stays, ops := CHANGING_TRIP.stays, [RemoveStay(1)];
    assert ops[..0] == [];
    assert Selectors(ops) == [1];
    PositionsPermute(stays);
    PositionsSorted(stays);
    var p := SortedPositions(stays);
    assert p[0] in p && p[1] in p;
    assert PositionLe(stays, p[0], p[1]);
    assert p[0] == 0 && p[1] == 1;
    hide SortedPositions;
    assert Removes(stays, ops, 1) by { assert ops[0] in ops && Hits(stays, ops[0], 1); }
    assert !Removes(stays, ops, 0);
    assert AfterUpdates(stays, ops, 0) == FIRST_STAY;
    assert Survivors(stays, ops, 1) == [FIRST_STAY] && Survivors(stays, ops, 2) == [FIRST_STAY];
    assert Added(ops) == [];
  }

  /** The old transfer goes and the new one comes, on the same date. */
  lemma TransferReplaced(r: MultiDayRequest)
    requires r.transfers == [OLD_TRANSFER] && r.days == CHANGING_TRIP.days
    ensures HandledAll(r, [RemoveTransfer(3), AddTransfer(NEW_TRANSFER)]) == Ok(r.(transfers := [NEW_TRANSFER]))
  {
    var ops := [RemoveTransfer(3), AddTransfer(NEW_TRANSFER)];
    assert ops[..1] == [RemoveTransfer(3)] && ops[..1][..0] == [];
    assert [OLD_TRANSFER][..0] == [];
    assert WithoutTransfer([OLD_TRANSFER], 3) == [];
    assert HandledAll(r, ops[..1]) == Ok(r.(transfers := []));
    assert TransferDates([]) == [] && Dates(r.days)[0] == 3;
    assert [] + [NEW_TRANSFER] == [NEW_TRANSFER];
  }

  lemma ReaddedIsReconciled()
    ensures Edited(CHANGING_TRIP, READDING_BATCH) == Ok(CHANGING_TRIP.(stays := [FIRST_STAY], transfers := [NEW_TRANSFER]))
  {
    OtherOpsAreOthers(READDING_BATCH);
    ReaddingSplits();
    SecondStayRemoved();
    ResolutionIsExact(CHANGING_TRIP.stays, [RemoveStay(1)]);
    hide Resolved, NewStays, HandledAll, StayOps, OtherOps;
    TransferReplaced(CHANGING_TRIP.(stays := [FIRST_STAY]));
  }

  lemma ReconciledTripIsValid()
    ensures CHANGING_TRIP.(stays := [FIRST_STAY], transfers := []).Valid()
  {
    ChangingTripIsValid();
    OneStayInOrder(FIRST_STAY);
    assert TransferDates([]) == [];
  }

  /**
   * The batch succeeds on a valid trip and silently drops the transfer it has just added: the trip had
   * another one on that date before.
   */
  lemma ReaddedTransferIsDropped()
    ensures CHANGING_TRIP.Valid() && NEW_TRANSFER !in CHANGING_TRIP.transfers
    ensures Applied(CHANGING_TRIP, READDING_BATCH)
         == Ok(Outcome(CHANGING_TRIP.(stays := [FIRST_STAY], transfers := []), [3]))
  {
    ChangingTripIsValid();
    ReaddedIsReconciled();
    ReconciledTripIsValid();
    NoChangeoverLeft();
    var r := CHANGING_TRIP.(stays := [FIRST_STAY], transfers := [NEW_TRANSFER]);
    hide Edited, AnchorsOf, IsTransitionDay;
    assert [NEW_TRANSFER][..0] == [];
    assert TransferDates(CHANGING_TRIP.transfers) == [3];
    assert 3 in DatesBefore(CHANGING_TRIP);
    assert !Survives(r.days, r.stays, DatesBefore(CHANGING_TRIP), NEW_TRANSFER);
    assert Surviving(r.days, r.stays, DatesBefore(CHANGING_TRIP), [NEW_TRANSFER]) == [];
    assert Orphaned(r.days, r.stays, DatesBefore(CHANGING_TRIP), [NEW_TRANSFER]) == [3];
  }

  // ---------------------------------------------------------------------------------------
  // Undoing
  // ---------------------------------------------------------------------------------------

  lemma {:induction false} WithoutAbsent(transfers: seq<Transfer>, date: int)
    requires forall t :: t in transfers ==> t.date != date
    ensures WithoutTransfer(transfers, date) == transfers
  {
    if transfers != [] {
      LastElement(transfers);
      WithoutAbsent(transfers[..|transfers| - 1], date);
    }
  }

  /** Removing a transfer just added restores the trip. */
  lemma AddThenRemoveTransfer(r: MultiDayRequest, t: Transfer)
    requires TransferEdited(r, AddTransfer(t)).Ok?
    ensures TransferEdited(TransferEdited(r, AddTransfer(t)).value, RemoveTransfer(t.date)) == Ok(r)
  {
    var more := r.transfers + [t];
    forall u | u in r.transfers ensures u.date != t.date {
      DateOf(r.transfers, u);
    }
    WithoutAbsent(r.transfers, t.date);
    assert more[..|more| - 1] == r.transfers;
    TransferFromIsFirst(more, t.date, 0);
    assert more[|r.transfers|] == t;
    assert r.transfers + [] == r.transfers;
  }
}
