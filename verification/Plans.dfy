/** What a trip plan means in the terms of the trip request and the stored documents alone. */
module Plans {
  import opened Wrappers
  import opened Sequences
  import opened TimeWindows
  import opened Scheduling
  import opened Priorities
  import opened OpeningHours
  import opened RouteOptimizer
  import opened Responses
  import opened Accommodations
  import opened TripRequests
  import opened Partition
  import opened TransferDays
  import opened TripPlanner

  // ---------------------------------------------------------------------------------------
  // Valid requests
  // ---------------------------------------------------------------------------------------

  /** A day has hours in range, an end that is no wall-clock midnight, and runs from a moment of the day to a later one. */
  ghost predicate IsDay(cfg: DayConfig) {
    && 0 <= cfg.startHour <= 23 && 1 <= cfg.endHour <= 24
    && (cfg.endTime.Some? ==> cfg.endHour != 24 && cfg.endTime.value != Time(0, 0, 0))
    && (forall from, to :: IsBound(from, cfg.startHour, cfg.startTime) && IsBound(to, cfg.endHour, cfg.endTime) ==> from < to)
    && (cfg.start.lat.Some? <==> cfg.start.lng.Some?) && (cfg.end.lat.Some? <==> cfg.end.lng.Some?)
  }

  lemma ValidDayIsExact(cfg: DayConfig)
    ensures cfg.Valid() <==> IsDay(cfg)
    ensures cfg.Valid() ==> 0 <= cfg.StartS() < cfg.EndS() <= 86400
    ensures IsBound(cfg.StartS(), cfg.startHour, cfg.startTime) && IsBound(cfg.EndS(), cfg.endHour, cfg.endTime)
  {
    assert IsBound(cfg.StartS(), cfg.startHour, cfg.startTime) && IsBound(cfg.EndS(), cfg.endHour, cfg.endTime);
  }

  /** What a request must satisfy, without the order of its stays or the anchors computed from them. */
  ghost predicate IsRequest(r: MultiDayRequest) {
    && 1 <= |r.days| <= 31 && (forall d :: d in r.days ==> IsDay(d))
    && (forall i, j :: 0 <= i < j < |r.days| ==> r.days[i].date != r.days[j].date)
    && 2 <= |r.places| <= 50 && (forall i, j :: 0 <= i < j < |r.places| ==> r.places[i].placeId != r.places[j].placeId)
    && (forall p :: p in r.places ==> forall s :: s in p.slots ==> s.dayIndex < |r.days|)
    && (forall s :: s in r.stays ==> s.checkIn < s.checkOut) && NoSharedNight(r.stays)
    && (forall i :: 0 <= i < |r.transfers| ==> DayOfTransfer(r, r.transfers[i]))
    && (forall i, j :: 0 <= i < j < |r.transfers| ==> r.transfers[i].date != r.transfers[j].date)
    && (r.transportMode == WALK || r.transportMode == DRIVE || r.transportMode == BICYCLE)
    && (r.start.lat.Some? <==> r.start.lng.Some?) && (r.end.lat.Some? <==> r.end.lng.Some?)
  }

  lemma StaysAreValidExactly(r: MultiDayRequest)
    ensures r.ValidStays() <==> (forall s :: s in r.stays ==> s.checkIn < s.checkOut) && NoSharedNight(r.stays)
  {
    hide NoSharedNight, NoOverlapsFound;
    if forall s :: s in r.stays ==> s.checkIn < s.checkOut {
      OverlapCheckIsExact(r.stays);
    }
  }

  lemma DaysAndPlacesAreValidExactly(r: MultiDayRequest)
    ensures r.ValidDays() <==>
            && 1 <= |r.days| <= 31 && (forall d :: d in r.days ==> IsDay(d))
            && (forall i, j :: 0 <= i < j < |r.days| ==> r.days[i].date != r.days[j].date)
    ensures r.ValidPlaces() <==>
            && 2 <= |r.places| <= 50 && (forall i, j :: 0 <= i < j < |r.places| ==> r.places[i].placeId != r.places[j].placeId)
            && (forall p :: p in r.places ==> forall s :: s in p.slots ==> s.dayIndex < |r.days|)
  {
    forall d: DayConfig ensures d.Valid() <==> IsDay(d) {
      ValidDayIsExact(d);
    }
    hide IsDay;
    var dates, ids := Dates(r.days), PlaceIds(r.places);
    assert forall i :: 0 <= i < |dates| ==> dates[i] == r.days[i].date;
    assert forall i :: 0 <= i < |ids| ==> ids[i] == r.places[i].placeId;
  }

  /** The validators of a trip request accept exactly these. */
  lemma RequestsAreValidExactly(r: MultiDayRequest)
    ensures r.Valid() <==> IsRequest(r)
  {
    hide NoSharedNight, DayOfTransfer, IsDay, MultiDayRequest.ValidStays, MultiDayRequest.ValidDays, MultiDayRequest.ValidPlaces,
         MultiDayRequest.ValidTransfers;
    DaysAndPlacesAreValidExactly(r);
    StaysAreValidExactly(r);
    if r.ValidStays() {
      TransfersAreValidExactly(r);
    }
  }

  /**
   * In a request with valid, non-overlapping stays the transfers are valid exactly when each arrives after it
   * departs, no two share a date, each lies on a day of the trip on which the stay changes, and no such day
   * sets anchors of its own.
   */
  lemma TransfersAreValidExactly(r: MultiDayRequest)
    requires r.ValidStays()
    ensures r.ValidTransfers() <==>
            && (forall i :: 0 <= i < |r.transfers| ==> DayOfTransfer(r, r.transfers[i]))
            && (forall i, j :: 0 <= i < j < |r.transfers| ==> r.transfers[i].date != r.transfers[j].date)
  {
    hide IsTransitionDay, AnchorsOf, DayOfTransfer, MultiDayRequest.ValidStays;
    forall t ensures DayOfTransfer(r, t) <==> TransferFits(r, t) {
      TransferFitsExactly(r, t);
    }
    var dates := TransferDates(r.transfers);
    assert forall i :: 0 <= i < |dates| ==> dates[i] == r.transfers[i].date;
    assert r.ValidTransfers() <==> Distinct(dates) && forall t :: t in r.transfers ==> TransferFits(r, t);
    hide MultiDayRequest.ValidTransfers, TransferFits;
    assert (forall t :: t in r.transfers ==> TransferFits(r, t)) <==>
           forall i :: 0 <= i < |r.transfers| ==> TransferFits(r, r.transfers[i]);
  }

  /** What the validator asks of one transfer. */
  ghost predicate TransferFits(r: MultiDayRequest, t: Transfer) {
    && t.Valid() && t.date in Dates(r.days) && IsTransitionDay(AnchorsOf(r.stays, t.date))
    && forall d :: d in r.days && d.date == t.date ==> d.start.lat.None? && d.end.lat.None?
  }

  /** The transfer takes time, its date is a day of the trip and a changeover, and days of that date set no anchors. */
  ghost predicate DayOfTransfer(r: MultiDayRequest, t: Transfer) {
    && 3600 * t.departure.hour + 60 * t.departure.minute + t.departure.second
       < 3600 * t.arrival.hour + 60 * t.arrival.minute + t.arrival.second
    && (exists d :: d in r.days && d.date == t.date)
    && Changeover(r.stays, t.date)
    && forall d :: d in r.days && d.date == t.date ==> d.start.lat.None? && d.end.lat.None?
  }

  lemma TransferFitsExactly(r: MultiDayRequest, t: Transfer)
    requires r.ValidStays()
    ensures DayOfTransfer(r, t) <==> TransferFits(r, t)
  {
    hide IsTransitionDay, AnchorsOf, Changeover, NoSharedNight, NoOverlapsFound;
    OverlapCheckIsExact(r.stays);
    TransitionIsChangeover(r.stays, t.date);
    if t.date in Dates(r.days) {
      var i :| 0 <= i < |r.days| && Dates(r.days)[i] == t.date;
      assert r.days[i] in r.days && r.days[i].date == t.date;
    }
    if d :| d in r.days && d.date == t.date {
      var i :| 0 <= i < |r.days| && r.days[i] == d;
      assert Dates(r.days)[i] == t.date;
    }
  }

  // ---------------------------------------------------------------------------------------
  // The slot of a place on a day
  // ---------------------------------------------------------------------------------------

  /** `s` is the last slot of the list for the day. */
  ghost predicate LastSlot(slots: seq<DaySlot>, d: nat, s: DaySlot) {
    exists i :: 0 <= i < |slots| && slots[i] == s && s.dayIndex == d && forall j :: i < j < |slots| ==> slots[j].dayIndex != d
  }

  lemma {:induction false} AddedSlotIsLast(slots: SlotMap, id: Id, more: seq<DaySlot>, d: nat)
    ensures var after := AddSlots(slots, id, more);
            if exists s :: s in more && s.dayIndex == d
            then (id, d) in after && LastSlot(more, d, after[(id, d)])
            else (id, d) in after <==> (id, d) in slots
  {
    if more != [] {
      var k := |more| - 1;
      AddedSlotIsLast(slots, id, more[..k], d);
      LastElement(more);
      var after := AddSlots(slots, id, more);
      if more[k].dayIndex == d {
        assert LastSlot(more, d, more[k]);
      } else if exists s :: s in more && s.dayIndex == d {
        var i :| 0 <= i < k && more[..k][i] == after[(id, d)] && forall j :: i < j < k ==> more[..k][j].dayIndex != d;
        assert more[i] == after[(id, d)];
        forall j | i < j < |more| ensures more[j].dayIndex != d {
          assert j < k ==> more[j] == more[..k][j];
        }
        assert LastSlot(more, d, after[(id, d)]);
      }
    }
  }

  lemma {:induction false} OtherSlotsStay(slots: SlotMap, id: Id, more: seq<DaySlot>)
    ensures forall k: (Id, nat) :: k.0 != id ==> (k in AddSlots(slots, id, more) <==> k in slots)
    ensures forall k: (Id, nat) :: k.0 != id && k in slots ==> AddSlots(slots, id, more)[k] == slots[k]
  {
    if more != [] {
      OtherSlotsStay(slots, id, more[..|more| - 1]);
    }
  }

  /** The planner uses a place's last slot for the day, if it has one. */
  lemma {:induction false} SlotIsLast(places: seq<PlacePreference>, p: PlacePreference, d: nat)
    requires Distinct(PlaceIds(places)) && p in places
    ensures if exists s :: s in p.slots && s.dayIndex == d
            then (p.placeId, d) in SlotsOf(places) && LastSlot(p.slots, d, SlotsOf(places)[(p.placeId, d)])
            else (p.placeId, d) !in SlotsOf(places)
  {
    var k := |places| - 1;
    var last := places[k];
    LastElement(places);
    LastElement(PlaceIds(places));
    assert PlaceIds(places)[..|PlaceIds(places)| - 1] == PlaceIds(places[..k]);
    OtherSlotsStay(SlotsOf(places[..k]), last.placeId, last.slots);
    AddedSlotIsLast(SlotsOf(places[..k]), last.placeId, last.slots, d);
    hide AddSlots, LastSlot;
    if p in places[..k] {
      SlotIsLast(places[..k], p, d);
      PlaceIdIn(places[..k], p);
      assert p.placeId != last.placeId;
    } else {
      assert p == last;
      NoSlotYet(places[..k], p.placeId, d);
    }
  }

  lemma PlaceIdIn(places: seq<PlacePreference>, p: PlacePreference)
    requires p in places
    ensures p.placeId in PlaceIds(places)
  {
    var i :| 0 <= i < |places| && places[i] == p;
    assert PlaceIds(places)[i] == p.placeId;
  }

  lemma NoSlotYet(places: seq<PlacePreference>, id: Id, d: nat)
    requires id !in PlaceIds(places)
    ensures (id, d) !in SlotsOf(places)
  {
    SlotsOfIsExact(places);
    hide SlotsOf;
    if (id, d) in SlotsOf(places) {
      var p :| p in places && p.placeId == id;
      PlaceIdIn(places, p);
    }
  }

  /** A document with the hours of a slot, where the slot gives them. */
  ghost predicate WithHoursOf(stored: PlaceDoc, slot: Option<DaySlot>, doc: PlaceDoc) {
    && doc.id == stored.id && doc.lat == stored.lat && doc.lng == stored.lng && doc.periods == stored.periods
    && doc.visitDurationMin == stored.visitDurationMin && doc.priority == stored.priority
    && (if slot.Some? && slot.value.hourFrom.Some? then doc.preferredHourFrom == slot.value.hourFrom
        else doc.preferredHourFrom == stored.preferredHourFrom)
    && (if slot.Some? && slot.value.hourTo.Some? then doc.preferredHourTo == slot.value.hourTo
        else doc.preferredHourTo == stored.preferredHourTo)
  }

  // ---------------------------------------------------------------------------------------
  // The visits of a day
  // ---------------------------------------------------------------------------------------

  /** The documents of the tour are the given ones, the last of each id. */
  ghost predicate Stores(tour: Tour, docs: seq<PlaceDoc>) {
    tour.trip.docs == DocMap(docs)
  }

  /** A step visits its place as the stored document, with the hours of the place's slot for that day, and the bounds allow. */
  ghost predicate VisitPlanned(tour: Tour, docs: seq<PlaceDoc>, d: nat, from: int, to: int, s: RouteStep) {
    && d < |tour.request.days|
    && exists stored, doc :: IsDocOf(docs, s.placeId, stored) && WithHoursOf(stored, SlotAt(tour, s.placeId, d), doc)
                             && VisitKept(doc, from, to, Some(tour.request.days[d].date), s)
  }

  lemma AnsweredVisitPlanned(tour: Tour, docs: seq<PlaceDoc>, d: nat, leg: Leg, request: OptimizeRequest, ids: seq<Id>,
                             r: OptimizeResponse, i: nat)
    requires Stores(tour, docs) && d < |tour.request.days| && request.departureDate == Some(tour.request.days[d].date)
    requires Answers(request, DayDocs(tour, ids, d), tour.matrixFor(d, leg), r) && i < |r.steps|
    ensures VisitPlanned(tour, docs, d, request.DayStartS(), request.DayEndS(), r.steps[i])
  {
    hide Answers, VisitKept, IsDocOf, DayDocs, WithHoursOf;
    var s := r.steps[i];
    var doc, from, to := VisitsAreKept(request, DayDocs(tour, ids, d), tour.matrixFor(d, leg), r, i);
    assert from == request.DayStartS() && to == request.DayEndS();
    var stored := DayDocIsStored(tour, docs, ids, d, s.placeId, doc);
  }

  lemma DayDocIsStored(tour: Tour, docs: seq<PlaceDoc>, ids: seq<Id>, d: nat, n: Id, doc: PlaceDoc) returns (stored: PlaceDoc)
    requires Stores(tour, docs) && IsDocOf(DayDocs(tour, ids, d), n, doc)
    ensures IsDocOf(docs, n, stored) && WithHoursOf(stored, SlotAt(tour, n, d), doc)
  {
    DocMapFrom(docs);
    DayDocsAreExact(tour, ids, d);
    DocMapIsLast(DayDocs(tour, ids, d), n);
    LastDocIsMapped(DayDocs(tour, ids, d), n, doc);
    DocMapIsLast(docs, n);
    stored := tour.trip.docs[n];
  }

  lemma LastDocIsMapped(docs: seq<PlaceDoc>, n: Id, doc: PlaceDoc)
    requires IsDocOf(docs, n, doc)
    ensures n in DocMap(docs) && DocMap(docs)[n] == doc
  {
    DocMapIsLast(docs, n);
    var i :| 0 <= i < |docs| && docs[i] == doc && forall j :: i < j < |docs| ==> docs[j].id != n;
    var k :| 0 <= k < |docs| && docs[k] == DocMap(docs)[n] && docs[k].id == n && forall j :: k < j < |docs| ==> docs[j].id != n;
    assert i == k;
  }

  /** Every visit of an ordinary day is planned within the day's own bounds. */
  lemma OrdinaryVisitPlanned(tour: Tour, docs: seq<PlaceDoc>, st: Packing, d: nat, plan: DayPlan, i: nat)
    requires Stores(tour, docs) && st.Shaped(|tour.request.days|) && d < |tour.request.days| && d !in tour.trip.contexts
    requires DayPlanned(tour, st, d, plan) && i < |plan.steps|
    ensures VisitPlanned(tour, docs, d, tour.request.days[d].StartS(), tour.request.days[d].EndS(), plan.steps[i])
  {
    var ids := st.buckets[d];
    var request := OrdinaryRequest(tour.request, d, ids);
    assert ids != [] by {
      assert plan.steps == plan.AsResponse(tour.request.transportMode).steps;
    }
    assert request.DayStartS() == tour.request.days[d].StartS() && request.DayEndS() == tour.request.days[d].EndS();
    hide Answers, VisitPlanned, OrdinaryRequest;
    AnsweredVisitPlanned(tour, docs, d, Whole, request, ids, plan.AsResponse(tour.request.transportMode), i);
  }

  /** Every visit on a side of a transfer day is planned within the bounds of that side. */
  lemma SideVisitPlanned(tour: Tour, docs: seq<PlaceDoc>, d: nat, leg: Leg, ids: seq<Id>, seg: DayRouteSegment, i: nat)
    requires Stores(tour, docs) && d in tour.trip.contexts && d < |tour.request.days|
    requires SideAnswered(tour, d, leg, ids, seg) && i < |seg.steps|
    ensures var request := SideRequest(tour, d, leg, ids);
            VisitPlanned(tour, docs, d, request.DayStartS(), request.DayEndS(), seg.steps[i])
  {
    var request := SideRequest(tour, d, leg, ids);
    assert request.departureDate == Some(tour.request.days[d].date);
    hide Answers, VisitPlanned, SideRequest;
    AnsweredVisitPlanned(tour, docs, d, leg, request, ids, seg.AsResponse(tour.request.transportMode), i);
  }

  // ---------------------------------------------------------------------------------------
  // Anchors and requests
  // ---------------------------------------------------------------------------------------

  /** An anchor is the day's own if it gives one, else the stay if there is one to use, else the trip's. */
  ghost predicate AnchorFrom(own: Place, stay: Option<Stay>, trip: Place, anchor: Place) {
    if own.Given() then anchor == own
    else if stay.Some? then anchor == Place(Some(stay.value.lat), Some(stay.value.lng))
    else anchor == trip
  }

  /**
   * An ordinary day is solved for its date, hours and mode, from the stay woken up in and to the stay slept in,
   * unless the day gives its own anchors, changes stays, or has no stay.
   */
  lemma OrdinaryRequestIsExact(request: MultiDayRequest, d: nat, ids: seq<Id>) returns (morning: Option<Stay>, night: Option<Stay>)
    requires request.Valid() && d < |request.days|
    ensures var cfg, r := request.days[d], OrdinaryRequest(request, d, ids);
            && r.placeIds == ids && r.transportMode == request.transportMode && r.departureDate == Some(cfg.date)
            && r.dayStartHour == cfg.startHour && r.dayEndHour == cfg.endHour
            && r.dayStartTime == cfg.startTime && r.dayEndTime == cfg.endTime
            && AnchorFrom(cfg.start, morning, request.start, r.start) && AnchorFrom(cfg.end, night, request.end, r.end)
    ensures var date := request.days[d].date;
            if Changeover(request.stays, date) then morning.None? && night.None?
            else && (forall s :: s in request.stays && WakesUpIn(s, date) ==> morning == Some(s))
                 && (morning.Some? ==> morning.value in request.stays && WakesUpIn(morning.value, date))
                 && (forall s :: s in request.stays && s.Covers(date) ==> night == Some(s))
                 && (night.Some? ==> night.value in request.stays && night.value.Covers(date))
  {
    var cfg, stays := request.days[d], request.stays;
    var anchors := AnchorsOf(stays, cfg.date);
    assert cfg.Valid();
    OverlapCheckIsExact(stays);
    TransitionIsChangeover(stays, cfg.date);
    AnchorsAreUnique(stays, cfg.date);
    AnchorsAreFirst(stays, cfg.date);
    if IsTransitionDay(anchors) {
      morning, night := None, None;
    } else {
      morning, night := StayAt(stays, anchors.start), StayAt(stays, anchors.end);
    }
    AnchorNeverMixes(cfg.start, morning, request.start);
    AnchorNeverMixes(cfg.end, night, request.end);
    hide Changeover, NoSharedNight, NoOverlapsFound;
    forall s | s in stays && !IsTransitionDay(anchors)
      ensures WakesUpIn(s, cfg.date) ==> morning == Some(s)
      ensures s.Covers(cfg.date) ==> night == Some(s)
    {
      var i :| 0 <= i < |stays| && stays[i] == s;
    }
  }

  // ---------------------------------------------------------------------------------------
  // Transfer days
  // ---------------------------------------------------------------------------------------

  /** A located place, as stored, that is or is not strictly nearer to the second of two stays. */
  ghost predicate Nearer(docs: seq<PlaceDoc>, nearer: Geography, origin: Stay, destination: Stay, id: Id, second: bool) {
    exists doc :: IsDocOf(docs, id, doc) && doc.lat.Some? && doc.lng.Some?
                  && nearer(doc.lat.value, doc.lng.value, origin, destination) == second
  }

  ghost predicate Unlocated(docs: seq<PlaceDoc>, id: Id) {
    forall doc :: IsDocOf(docs, id, doc) ==> doc.lat.None? || doc.lng.None?
  }

  /** The reported transfer connects the two stays at the transfer's times. */
  ghost predicate Connects(seg: TransferSegment, transfer: Transfer, origin: Stay, destination: Stay) {
    && seg.origin.name == origin.name && seg.origin.lat == origin.lat && seg.origin.lng == origin.lng
    && seg.destination.name == destination.name && seg.destination.lat == destination.lat && seg.destination.lng == destination.lng
    && seg.departure == transfer.departure && seg.arrival == transfer.arrival && seg.caption == transfer.caption
    && ToSeconds(seg.departure) + seg.durationS == ToSeconds(seg.arrival)
  }

  /**
   * The places a planned transfer day reports: before the transfer those located no nearer to the second stay,
   * after it those nearer to it, and otherwise only places without coordinates.
   */
  lemma TransferDayPlaces(tour: Tour, docs: seq<PlaceDoc>, st: Packing, d: nat, plan: DayPlan)
    returns (transfer: Transfer, origin: Stay, destination: Stay)
    requires Ready(tour) && Stores(tour, docs) && st.Shaped(|tour.request.days|) && d < |tour.request.days|
    requires d in tour.trip.contexts && SolvableDay(st, d) && OnRightSides(tour.trip, st) && DayPlanned(tour, st, d, plan)
    ensures transfer in tour.request.transfers && transfer.date == plan.date
    ensures origin in tour.request.stays && WakesUpIn(origin, plan.date)
    ensures destination in tour.request.stays && destination.Covers(plan.date)
    ensures plan.transfer.Some? && Connects(plan.transfer.value, transfer, origin, destination)
    ensures |plan.routeSegments| == 2
    ensures forall id :: id in StepIds(plan.routeSegments[0].steps) || id in plan.routeSegments[0].skipped ==>
              Nearer(docs, tour.trip.nearer, origin, destination, id, false)
    ensures forall id :: id in StepIds(plan.routeSegments[1].steps) || id in plan.routeSegments[1].skipped ==>
              Nearer(docs, tour.trip.nearer, origin, destination, id, true)
    ensures exists unlocated :: (forall id :: id in unlocated ==> Unlocated(docs, id))
              && plan.skipped == unlocated + plan.routeSegments[0].skipped + plan.routeSegments[1].skipped
  {
    transfer, origin, destination := ContextFacts(tour, d);
    var pre, post := plan.routeSegments[0], plan.routeSegments[1];
    assert tour.trip.contexts[d].origin == origin && tour.trip.contexts[d].destination == destination
           && tour.trip.contexts[d].transfer == transfer;
    assert tour.trip.days == tour.request.days;
    hide Ready, BuildContext, SideAnswered, Solvable;
    SideConserves(tour, d, PreTransfer, st.pre[d], pre);
    SideConserves(tour, d, PostTransfer, st.post[d], post);
    ReportedIn(StepIds(pre.steps), pre.skipped, st.pre[d]);
    ReportedIn(StepIds(post.steps), post.skipped, st.post[d]);
    forall id
      ensures id in st.pre[d] ==> Nearer(docs, tour.trip.nearer, origin, destination, id, false)
      ensures id in st.post[d] ==> Nearer(docs, tour.trip.nearer, origin, destination, id, true)
      ensures id in st.preSkipped[d] ==> Unlocated(docs, id)
    {
      SideOfStored(tour, docs, st, d, id);
    }
    assert plan.skipped == plan.AsResponse(tour.request.transportMode).skipped;
    assert plan.skipped == st.preSkipped[d] + pre.skipped + post.skipped;
  }

  lemma ReportedIn(steps: seq<Id>, skipped: seq<Id>, ids: seq<Id>)
    requires multiset(steps) + multiset(skipped) == multiset(ids)
    ensures forall id :: id in steps || id in skipped ==> id in ids
  {
    forall id | id in steps || id in skipped ensures id in ids {
      assert id in multiset(steps) + multiset(skipped);
    }
  }

  lemma SideOfStored(tour: Tour, docs: seq<PlaceDoc>, st: Packing, d: nat, id: Id)
    requires Stores(tour, docs) && OnRightSides(tour.trip, st) && d < |tour.trip.days| && d in tour.trip.contexts
    ensures var ctx := tour.trip.contexts[d];
            && (id in st.pre[d] ==> Nearer(docs, tour.trip.nearer, ctx.origin, ctx.destination, id, false))
            && (id in st.post[d] ==> Nearer(docs, tour.trip.nearer, ctx.origin, ctx.destination, id, true))
            && (id in st.preSkipped[d] ==> Unlocated(docs, id))
  {
    hide DocMap, IsDocOf;
    DocMapIsLast(docs, id);
    forall doc | IsDocOf(docs, id, doc) ensures id in DocMap(docs) && DocMap(docs)[id] == doc {
      LastDocIsMapped(docs, id, doc);
    }
    assert id in st.post[d] ==> NearDestination(tour.trip, d, id);
    assert id in st.pre[d] ==> Located(tour.trip, id) && !NearDestination(tour.trip, d, id);
    assert Located(tour.trip, id) ==> IsDocOf(docs, id, tour.trip.docs[id]);
  }
}
