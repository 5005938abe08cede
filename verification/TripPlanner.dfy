/** The multi-day planner: partition the places, solve every day, and assemble the trip. */
module TripPlanner {
  import opened Wrappers
  import opened Sequences
  import opened TimeWindows
  import opened Scheduling
  import opened Priorities
  import opened OpeningHours
  import opened RouteOptimizer
  import opened Accommodations
  import opened TripRequests
  import opened Partition
  import opened TransferDays

  /** Which solver call of a day: the only one of an ordinary day, or one side of a transfer. */
  datatype Leg = Whole | PreTransfer | PostTransfer

  datatype TransferEndpoint = TransferEndpoint(name: string, lat: real, lng: real)

  datatype TransferSegment = TransferSegment(
    origin: TransferEndpoint, destination: TransferEndpoint,
    departure: Time, arrival: Time, durationS: int, caption: Option<string>)

  datatype DayRouteSegment = DayRouteSegment(
    kind: Leg,
    steps: seq<RouteStep>,
    totalTravelTimeS: int,
    totalVisitTimeMin: int,
    totalWaitMin: int,
    travelToEndS: int,
    skipped: seq<Id>)
  {
    function AsResponse(mode: TransportMode): OptimizeResponse {
      OptimizeResponse(steps, totalTravelTimeS, totalVisitTimeMin, totalWaitMin, mode, skipped, travelToEndS)
    }
  }

  datatype DayPlan = DayPlan(
    dayIndex: nat,
    date: int,
    steps: seq<RouteStep>,
    totalTravelTimeS: int,
    totalVisitTimeMin: int,
    totalWaitMin: int,
    skipped: seq<Id>,
    travelToEndS: int,
    transfer: Option<TransferSegment>,
    routeSegments: seq<DayRouteSegment>)
  {
    function AsResponse(mode: TransportMode): OptimizeResponse {
      OptimizeResponse(steps, totalTravelTimeS, totalVisitTimeMin, totalWaitMin, mode, skipped, travelToEndS)
    }
  }

  datatype MultiDayResponse = MultiDayResponse(days: seq<DayPlan>, transportMode: TransportMode, unassigned: seq<Id>)

  // ---------------------------------------------------------------------------------------
  // What the planner looks up before it partitions
  // ---------------------------------------------------------------------------------------

  type SlotMap = map<(Id, nat), DaySlot>

  function AddSlots(slots: SlotMap, id: Id, more: seq<DaySlot>): SlotMap {
    if more == [] then slots
    else
      var s := more[|more| - 1];
      AddSlots(slots, id, more[..|more| - 1])[(id, s.dayIndex) := s]
  }

  /** The preferred hours by place and day; a later slot for the same day replaces an earlier one. */
  function SlotsOf(places: seq<PlacePreference>): SlotMap {
    if places == [] then map[]
    else
      var p := places[|places| - 1];
      AddSlots(SlotsOf(places[..|places| - 1]), p.placeId, p.slots)
  }

  method BuildSlotMap(places: seq<PlacePreference>) returns (slots: SlotMap)
    ensures slots == SlotsOf(places)
  {
    slots := map[];
    for i := 0 to |places|
      invariant slots == SlotsOf(places[..i])
    {
      assert places[..i + 1][..i] == places[..i];
      var p := places[i];
      ghost var before := slots;
      for j := 0 to |p.slots|
        invariant slots == AddSlots(before, p.placeId, p.slots[..j])
      {
        assert p.slots[..j + 1][..j] == p.slots[..j];
        slots := slots[(p.placeId, p.slots[j].dayIndex) := p.slots[j]];
      }
      assert p.slots[..|p.slots|] == p.slots;
    }
    assert places[..|places|] == places;
  }

  lemma {:induction false} AddSlotsIsExact(slots: SlotMap, id: Id, more: seq<DaySlot>)
    ensures forall k :: k in AddSlots(slots, id, more) <==> k in slots || (k.0 == id && exists s :: s in more && s.dayIndex == k.1)
    ensures forall k :: k in AddSlots(slots, id, more) ==>
              || (k in slots && AddSlots(slots, id, more)[k] == slots[k])
              || (k.0 == id && AddSlots(slots, id, more)[k] in more && AddSlots(slots, id, more)[k].dayIndex == k.1)
  {
    if more != [] {
      var n := |more| - 1;
      AddSlotsIsExact(slots, id, more[..n]);
      LastElement(more);
      forall k ensures k in AddSlots(slots, id, more) <==> k in slots || (k.0 == id && exists s :: s in more && s.dayIndex == k.1) {
        assert more[n] in more;
      }
    }
  }

  /** The looked-up slot of a place on a day is one of its own slots for that day, and is there if it has any. */
  lemma {:induction false} SlotsOfIsExact(places: seq<PlacePreference>)
    ensures forall k :: k in SlotsOf(places) <==>
              exists p :: p in places && p.placeId == k.0 && exists s :: s in p.slots && s.dayIndex == k.1
    ensures forall k :: k in SlotsOf(places) ==>
              SlotsOf(places)[k].dayIndex == k.1 && exists p :: p in places && p.placeId == k.0 && SlotsOf(places)[k] in p.slots
  {
    if places != [] {
      var n := |places| - 1;
      var last := places[n];
      SlotsOfIsExact(places[..n]);
      AddSlotsIsExact(SlotsOf(places[..n]), last.placeId, last.slots);
      LastElement(places);
      hide AddSlots;
      assert last in places;
    }
  }

  /** The transfer scheduled on a date; a later entry replaces an earlier one. */
  function TransferOn(transfers: seq<Transfer>, date: int): Option<Transfer> {
    if transfers == [] then None
    else if transfers[|transfers| - 1].date == date then Some(transfers[|transfers| - 1])
    else TransferOn(transfers[..|transfers| - 1], date)
  }

  lemma {:induction false} TransferOnDate(transfers: seq<Transfer>, date: int)
    ensures match TransferOn(transfers, date)
            case Some(t) => t in transfers && t.date == date
            case None => forall t :: t in transfers ==> t.date != date
  {
    if transfers != [] {
      TransferOnDate(transfers[..|transfers| - 1], date);
      LastElement(transfers);
    }
  }

  /** The transfer context of a day: there is a transfer that day, and the day changes stays. */
  function ContextOf(request: MultiDayRequest, d: nat): Option<TransitionDayContext>
    requires d < |request.days|
  {
    var cfg := request.days[d];
    var transfer, anchors := TransferOn(request.transfers, cfg.date), AnchorsOf(request.stays, cfg.date);
    AnchorsAreFirst(request.stays, cfg.date);
    if transfer.Some? && IsTransitionDay(anchors)
    then Some(BuildContext(transfer.value, request.stays[anchors.start.value], request.stays[anchors.end.value], cfg))
    else None
  }

  function ContextsUpTo(request: MultiDayRequest, n: nat): map<nat, TransitionDayContext>
    requires n <= |request.days|
  {
    map d: nat | 0 <= d < n && ContextOf(request, d).Some? :: ContextOf(request, d).value
  }

  lemma ContextsNext(request: MultiDayRequest, n: nat)
    requires n < |request.days|
    ensures ContextsUpTo(request, n + 1) ==
            if ContextOf(request, n).Some? then ContextsUpTo(request, n)[n := ContextOf(request, n).value]
            else ContextsUpTo(request, n)
  {
    hide ContextOf;
  }

  method BuildContexts(request: MultiDayRequest) returns (contexts: map<nat, TransitionDayContext>)
    ensures contexts == ContextsUpTo(request, |request.days|)
  {
    var anchors := ResolveDayAnchors(Dates(request.days), request.stays);
    contexts := map[];
    assert contexts == ContextsUpTo(request, 0);
    hide ContextsUpTo;
    for d := 0 to |request.days|
      invariant contexts == ContextsUpTo(request, d)
    {
      ContextsNext(request, d);
      var cfg := request.days[d];
      assert anchors[d] == AnchorsOf(request.stays, cfg.date);
      AnchorsAreFirst(request.stays, cfg.date);
      var transfer := TransferOn(request.transfers, cfg.date);
      if transfer.Some? && IsTransitionDay(anchors[d]) {
        contexts := contexts[d := BuildContext(transfer.value, request.stays[anchors[d].start.value],
                                               request.stays[anchors[d].end.value], cfg)];
      }
    }
  }

  /** What the routing service answers to each solver call of a trip. */
  type Matrices = (nat, Leg) -> Option<Matrix>

  /** Everything the planner reads after its lookups. */
  datatype Tour = Tour(request: MultiDayRequest, trip: Trip, slots: SlotMap, matrixFor: Matrices)

  function TourOf(request: MultiDayRequest, docs: seq<PlaceDoc>, nearer: Geography, matrixFor: Matrices): Tour {
    Tour(request, Trip(request.days, DocMap(docs), ContextsUpTo(request, |request.days|), nearer), SlotsOf(request.places),
         matrixFor)
  }

  /** In a valid request the transfer days are exactly the days on which a transfer is scheduled. */
  lemma TransferDaysAreExact(request: MultiDayRequest, docs: seq<PlaceDoc>, nearer: Geography, matrixFor: Matrices, d: nat)
    requires request.Valid() && d < |request.days|
    ensures d in TourOf(request, docs, nearer, matrixFor).trip.contexts <==>
            exists t :: t in request.transfers && t.date == request.days[d].date
  {
    var date := request.days[d].date;
    TransferOnDate(request.transfers, date);
    if t :| t in request.transfers && t.date == date {
      assert IsTransitionDay(AnchorsOf(request.stays, t.date));
    }
  }

  // ---------------------------------------------------------------------------------------
  // The documents of one solver call
  // ---------------------------------------------------------------------------------------

  /** A slot's preferred hours replace the place's own, each where given. */
  function Overridden(doc: PlaceDoc, slot: Option<DaySlot>): PlaceDoc {
    if slot.None? then doc
    else
      doc.(preferredHourFrom := if slot.value.hourFrom.Some? then slot.value.hourFrom else doc.preferredHourFrom,
           preferredHourTo := if slot.value.hourTo.Some? then slot.value.hourTo else doc.preferredHourTo)
  }

  function SlotAt(tour: Tour, id: Id, d: nat): Option<DaySlot> {
    if (id, d) in tour.slots then Some(tour.slots[(id, d)]) else None
  }

  function DayDoc(tour: Tour, id: Id, d: nat): PlaceDoc
    requires id in tour.trip.docs
  {
    Overridden(tour.trip.docs[id], SlotAt(tour, id, d))
  }

  function DayDocs(tour: Tour, ids: seq<Id>, d: nat): seq<PlaceDoc> {
    if ids == [] then []
    else
      var n := ids[|ids| - 1];
      DayDocs(tour, ids[..|ids| - 1], d) + (if n in tour.trip.docs then [DayDoc(tour, n, d)] else [])
  }

  method BuildDayDocs(tour: Tour, ids: seq<Id>, d: nat) returns (docs: seq<PlaceDoc>)
    ensures docs == DayDocs(tour, ids, d)
  {
    docs := [];
    for i := 0 to |ids|
      invariant docs == DayDocs(tour, ids[..i], d)
    {
      assert ids[..i + 1][..i] == ids[..i];
      var n := ids[i];
      if n !in tour.trip.docs {
        continue;
      }
      var doc := tour.trip.docs[n];
      if (n, d) in tour.slots {
        var slot := tour.slots[(n, d)];
        if slot.hourFrom.Some? {
          doc := doc.(preferredHourFrom := slot.hourFrom);
        }
        if slot.hourTo.Some? {
          doc := doc.(preferredHourTo := slot.hourTo);
        }
      }
      docs := docs + [doc];
    }
    assert ids[..|ids|] == ids;
  }

  /** The documents keep their own ids. */
  ghost predicate KeyedById(docs: map<Id, PlaceDoc>) {
    forall n :: n in docs ==> docs[n].id == n
  }

  /** The solver sees each known place with exactly its overridden hours. */
  lemma {:induction false} DayDocsAreExact(tour: Tour, ids: seq<Id>, d: nat)
    requires KeyedById(tour.trip.docs)
    ensures forall n :: n in DocMap(DayDocs(tour, ids, d)) <==> n in ids && n in tour.trip.docs
    ensures forall n :: n in DocMap(DayDocs(tour, ids, d)) ==> DocMap(DayDocs(tour, ids, d))[n] == DayDoc(tour, n, d)
  {
    if ids != [] {
      var k := |ids| - 1;
      DayDocsAreExact(tour, ids[..k], d);
      LastElement(ids);
      var before := DayDocs(tour, ids[..k], d);
      assert before + [] == before;
      if ids[k] in tour.trip.docs {
        assert (before + [DayDoc(tour, ids[k], d)])[..|before|] == before;
      }
    }
  }

  // ---------------------------------------------------------------------------------------
  // The requests of the solver calls
  // ---------------------------------------------------------------------------------------

  function Pick(own: Option<real>, stay: Option<real>, trip: Option<real>): Option<real> {
    if own.Some? then own else if stay.Some? then stay else trip
  }

  function LatOf(stay: Option<Stay>): Option<real> { if stay.Some? then Some(stay.value.lat) else None }
  function LngOf(stay: Option<Stay>): Option<real> { if stay.Some? then Some(stay.value.lng) else None }

  /** A day's own anchor, else the stay's location, else the trip's. */
  function AnchorPlace(own: Place, stay: Option<Stay>, trip: Place): Place {
    Place(Pick(own.lat, LatOf(stay), trip.lat), Pick(own.lng, LngOf(stay), trip.lng))
  }

  function OrdinaryRequest(request: MultiDayRequest, d: nat, ids: seq<Id>): OptimizeRequest
    requires d < |request.days|
  {
    var cfg := request.days[d];
    var anchors := AnchorsOf(request.stays, cfg.date);
    var startStay := if IsTransitionDay(anchors) then None else StayAt(request.stays, anchors.start);
    var endStay := if IsTransitionDay(anchors) then None else StayAt(request.stays, anchors.end);
    OptimizeRequest(ids, request.transportMode, cfg.startHour, cfg.endHour, cfg.startTime, cfg.endTime,
                    AnchorPlace(cfg.start, startStay, request.start), AnchorPlace(cfg.end, endStay, request.end),
                    Some(cfg.date))
  }

  /** The two coordinates of an anchor always come from the same source. */
  lemma AnchorNeverMixes(own: Place, stay: Option<Stay>, trip: Place)
    requires own.Valid() && trip.Valid()
    ensures AnchorPlace(own, stay, trip) == if own.Given() then own else if stay.Some? then At(stay.value) else trip
  {
  }

  lemma OrdinaryRequestIsValid(request: MultiDayRequest, d: nat, ids: seq<Id>)
    requires d < |request.days| && request.days[d].Valid() && request.start.Valid() && request.end.Valid()
    requires 1 <= |ids| <= 50
    ensures OrdinaryRequest(request, d, ids).Valid()
  {
  }

  function BudgetOf(ctx: TransitionDayContext, leg: Leg): int {
    if leg == PreTransfer then ctx.preBudgetMin else ctx.postBudgetMin
  }

  function SideRequest(tour: Tour, d: nat, leg: Leg, ids: seq<Id>): OptimizeRequest
    requires d in tour.trip.contexts && d < |tour.request.days|
  {
    var mode, cfg, ctx := tour.request.transportMode, tour.request.days[d], tour.trip.contexts[d];
    if leg == PreTransfer then PreRequest(mode, cfg, ctx, ids) else PostRequest(mode, cfg, ctx, ids)
  }

  /** What holds of every tour of a valid request. */
  ghost predicate Ready(tour: Tour) {
    && tour.request.Valid() && tour.trip.days == tour.request.days
    && tour.trip.contexts == ContextsUpTo(tour.request, |tour.request.days|)
    && KeyedById(tour.trip.docs)
  }

  /** Ids that fit one solver call. */
  ghost predicate Solvable(ids: seq<Id>) {
    |ids| <= 50 && Distinct(ids) && START_ANCHOR !in ids && END_ANCHOR !in ids
  }

  /** A transfer day's context comes from its transfer and the two stays it connects. */
  lemma ContextFacts(tour: Tour, d: nat) returns (transfer: Transfer, origin: Stay, destination: Stay)
    requires Ready(tour) && d < |tour.request.days| && d in tour.trip.contexts
    ensures tour.trip.contexts[d] == BuildContext(transfer, origin, destination, tour.request.days[d])
    ensures transfer in tour.request.transfers && transfer.date == tour.request.days[d].date && transfer.Valid()
    ensures origin in tour.request.stays && WakesUpIn(origin, transfer.date)
    ensures destination in tour.request.stays && destination.Covers(transfer.date)
  {
    var request, date := tour.request, tour.request.days[d].date;
    TransferOnDate(request.transfers, date);
    AnchorsAreFirst(request.stays, date);
    var anchors := AnchorsOf(request.stays, date);
    transfer := TransferOn(request.transfers, date).value;
    origin, destination := request.stays[anchors.start.value], request.stays[anchors.end.value];
  }

  lemma SideRequestIsValid(tour: Tour, d: nat, leg: Leg, ids: seq<Id>)
    requires Ready(tour) && d < |tour.request.days| && d in tour.trip.contexts
    requires 1 <= |ids| <= 50 && BudgetOf(tour.trip.contexts[d], leg) > 0
    ensures SideRequest(tour, d, leg, ids).Valid()
  {
    var transfer, origin, destination := ContextFacts(tour, d);
    var cfg, mode := tour.request.days[d], tour.request.transportMode;
    assert cfg.Valid();
    hide BuildContext, PreRequest, PostRequest;
    if leg == PreTransfer {
      PreRequestIsExact(mode, cfg, transfer, origin, destination, ids);
    } else {
      PostRequestIsExact(mode, cfg, transfer, origin, destination, ids);
    }
  }

  // ---------------------------------------------------------------------------------------
  // Solving the days
  // ---------------------------------------------------------------------------------------

  /** A segment without a route; when the window left no time, it reports all places of its side. */
  function EmptySegment(leg: Leg, skipped: seq<Id>): DayRouteSegment {
    DayRouteSegment(leg, [], 0, 0, 0, 0, skipped)
  }

  /** One side of a transfer day: solved when it has places and time, else empty. */
  ghost predicate SideAnswered(tour: Tour, d: nat, leg: Leg, ids: seq<Id>, seg: DayRouteSegment)
    requires d in tour.trip.contexts && d < |tour.request.days|
  {
    if ids == [] || BudgetOf(tour.trip.contexts[d], leg) == 0 then seg == EmptySegment(leg, ids)
    else
      && seg.kind == leg
      && Answers(SideRequest(tour, d, leg, ids), DayDocs(tour, ids, d), tour.matrixFor(d, leg),
                 seg.AsResponse(tour.request.transportMode))
  }

  function LegRequest(tour: Tour, d: nat, leg: Leg, ids: seq<Id>): OptimizeRequest
    requires d < |tour.request.days| && (leg != Whole ==> d in tour.trip.contexts)
  {
    if leg == Whole then OrdinaryRequest(tour.request, d, ids) else SideRequest(tour, d, leg, ids)
  }

  /** A solver call is made for these places of a day: it is the day's kind of call, with places and time for them. */
  predicate CallIsMade(tour: Tour, d: nat, leg: Leg, ids: seq<Id>) {
    && d < |tour.request.days| && ids != []
    && if leg == Whole then d !in tour.trip.contexts
       else d in tour.trip.contexts && BudgetOf(tour.trip.contexts[d], leg) > 0
  }

  /** The call accepts some place, so it asks for travel times, and there are none. */
  ghost predicate LacksMatrix(tour: Tour, d: nat, leg: Leg, ids: seq<Id>) {
    && CallIsMade(tour, d, leg, ids) && tour.matrixFor(d, leg).None?
    && exists n :: n in ids && DayOf(LegRequest(tour, d, leg, ids), DayDocs(tour, ids, d)).Accepts(n)
  }

  method SolveSide(tour: Tour, d: nat, leg: Leg, ids: seq<Id>) returns (result: Result<DayRouteSegment, PlanError>)
    requires Ready(tour) && d < |tour.request.days| && d in tour.trip.contexts && Solvable(ids)
    requires BudgetOf(tour.trip.contexts[d], leg) >= 0 && leg != Whole
    ensures result.Ok? ==> SideAnswered(tour, d, leg, ids, result.value)
    ensures result.Err? <==> LacksMatrix(tour, d, leg, ids)
  {
    assert LacksMatrix(tour, d, leg, ids) ==> ids != [] && BudgetOf(tour.trip.contexts[d], leg) > 0;
    hide Ready, Answers, SideRequest, LacksMatrix;
    var ctx := tour.trip.contexts[d];
    if ids != [] && BudgetOf(ctx, leg) > 0 {
      var docs := BuildDayDocs(tour, ids, d);
      var solved := SolveSideRequest(tour, d, leg, ids, docs);
      if solved.Err? {
        return Err(solved.error);
      }
      var r := solved.value;
      result := Ok(DayRouteSegment(leg, r.steps, r.totalTravelTimeS, r.totalVisitTimeMin, r.totalWaitMin,
                                   r.travelToEndS, r.skipped));
      assert result.value.AsResponse(tour.request.transportMode) == r;
    } else {
      var windowSkipped := if BudgetOf(ctx, leg) == 0 then ids else [];
      result := Ok(EmptySegment(leg, windowSkipped));
    }
  }

  method SolveSideRequest(tour: Tour, d: nat, leg: Leg, ids: seq<Id>, docs: seq<PlaceDoc>)
    returns (result: Result<OptimizeResponse, PlanError>)
    requires Ready(tour) && d < |tour.request.days| && d in tour.trip.contexts && Solvable(ids) && ids != []
    requires BudgetOf(tour.trip.contexts[d], leg) > 0 && leg != Whole && docs == DayDocs(tour, ids, d)
    ensures result.Ok? ==> Answers(SideRequest(tour, d, leg, ids), docs, tour.matrixFor(d, leg), result.value)
    ensures result.Ok? ==> result.value.transportMode == tour.request.transportMode
    ensures result.Err? <==> LacksMatrix(tour, d, leg, ids)
  {
    SideRequestIsValid(tour, d, leg, ids);
    var request := SideRequest(tour, d, leg, ids);
    assert request.placeIds == ids && request.transportMode == tour.request.transportMode;
    hide Ready, SideRequest, Conserved, Timeline, Totals, Explained, LegsReported, Prioritized;
    result := OptimizeRoute(request, docs, tour.matrixFor(d, leg));
  }

  function TransferSegmentOf(ctx: TransitionDayContext): TransferSegment {
    TransferSegment(
      TransferEndpoint(ctx.origin.name, ctx.origin.lat, ctx.origin.lng),
      TransferEndpoint(ctx.destination.name, ctx.destination.lat, ctx.destination.lng),
      ctx.transfer.departure, ctx.transfer.arrival,
      ToSeconds(ctx.transfer.arrival) - ToSeconds(ctx.transfer.departure), ctx.transfer.caption)
  }

  /** The plan of a transfer day: both sides answered, and the day itself reporting its POST side. */
  ghost predicate TransferDayPlanned(tour: Tour, st: Packing, d: nat, plan: DayPlan)
    requires st.Shaped(|tour.request.days|) && d in tour.trip.contexts && d < |tour.request.days|
  {
    && |plan.routeSegments| == 2
    && var pre, post := plan.routeSegments[0], plan.routeSegments[1];
       && SideAnswered(tour, d, PreTransfer, st.pre[d], pre)
       && SideAnswered(tour, d, PostTransfer, st.post[d], post)
       && plan.AsResponse(tour.request.transportMode) ==
          post.AsResponse(tour.request.transportMode).(skipped := st.preSkipped[d] + pre.skipped + post.skipped)
       && plan.transfer == Some(TransferSegmentOf(tour.trip.contexts[d]))
  }

  function NoRoute(mode: TransportMode): OptimizeResponse {
    OptimizeResponse([], 0, 0, 0, mode, [], 0)
  }

  ghost predicate OrdinaryDayPlanned(tour: Tour, st: Packing, d: nat, plan: DayPlan)
    requires st.Shaped(|tour.request.days|) && d < |tour.request.days|
  {
    && plan.routeSegments == [] && plan.transfer.None?
    && if st.buckets[d] == [] then plan.AsResponse(tour.request.transportMode) == NoRoute(tour.request.transportMode)
       else Answers(OrdinaryRequest(tour.request, d, st.buckets[d]), DayDocs(tour, st.buckets[d], d), tour.matrixFor(d, Whole),
                    plan.AsResponse(tour.request.transportMode))
  }

  ghost predicate DayPlanned(tour: Tour, st: Packing, d: nat, plan: DayPlan)
    requires st.Shaped(|tour.request.days|) && d < |tour.request.days|
  {
    && plan.dayIndex == d && plan.date == tour.request.days[d].date
    && if d in tour.trip.contexts then TransferDayPlanned(tour, st, d, plan) else OrdinaryDayPlanned(tour, st, d, plan)
  }

  ghost predicate SolvableDay(st: Packing, d: nat)
    requires st.Shaped(|st.fill|) && d < |st.fill|
  {
    Solvable(st.buckets[d]) && Solvable(st.pre[d]) && Solvable(st.post[d])
  }

  lemma BudgetsAreNatural(tour: Tour, d: nat)
    requires Ready(tour) && d < |tour.request.days| && d in tour.trip.contexts
    ensures BudgetOf(tour.trip.contexts[d], PreTransfer) >= 0 && BudgetOf(tour.trip.contexts[d], PostTransfer) >= 0
  {
    var transfer, origin, destination := ContextFacts(tour, d);
    hide Ready;
  }

  function LegIds(st: Packing, d: nat, leg: Leg): seq<Id>
    requires st.Shaped(|st.fill|) && d < |st.fill|
  {
    match leg
    case Whole => st.buckets[d]
    case PreTransfer => st.pre[d]
    case PostTransfer => st.post[d]
  }

  /** Some call of the day lacks the matrix it needs. */
  ghost predicate DayFails(tour: Tour, st: Packing, d: nat)
    requires st.Shaped(|st.fill|) && d < |st.fill|
  {
    exists leg :: LacksMatrix(tour, d, leg, LegIds(st, d, leg))
  }

  /** The day around its two sides. */
  function TransferDayPlan(tour: Tour, st: Packing, d: nat, pre: DayRouteSegment, post: DayRouteSegment): DayPlan
    requires st.Shaped(|tour.request.days|) && d in tour.trip.contexts && d < |tour.request.days|
  {
    DayPlan(d, tour.request.days[d].date, post.steps, post.totalTravelTimeS, post.totalVisitTimeMin, post.totalWaitMin,
            st.preSkipped[d] + pre.skipped + post.skipped, post.travelToEndS,
            Some(TransferSegmentOf(tour.trip.contexts[d])), [pre, post])
  }

  lemma TransferDayAssembled(tour: Tour, st: Packing, d: nat, pre: DayRouteSegment, post: DayRouteSegment)
    requires st.Shaped(|tour.request.days|) && d in tour.trip.contexts && d < |tour.request.days|
    requires SideAnswered(tour, d, PreTransfer, st.pre[d], pre) && SideAnswered(tour, d, PostTransfer, st.post[d], post)
    ensures DayPlanned(tour, st, d, TransferDayPlan(tour, st, d, pre, post))
  {
    hide SideAnswered, TransferSegmentOf;
  }

  /** A transfer day makes no other calls than those of its sides. */
  lemma TransferFailure(tour: Tour, st: Packing, d: nat)
    requires st.Shaped(|tour.request.days|) && d in tour.trip.contexts && d < |tour.request.days|
    ensures DayFails(tour, st, d) <==>
            LacksMatrix(tour, d, PreTransfer, st.pre[d]) || LacksMatrix(tour, d, PostTransfer, st.post[d])
  {
    assert !LacksMatrix(tour, d, Whole, st.buckets[d]);
    hide LacksMatrix;
    assert LegIds(st, d, Whole) == st.buckets[d] && LegIds(st, d, PreTransfer) == st.pre[d]
           && LegIds(st, d, PostTransfer) == st.post[d];
  }

  method PlanTransferDay(tour: Tour, st: Packing, d: nat)
    returns (result: Result<DayPlan, PlanError>)
    requires Ready(tour) && st.Shaped(|tour.request.days|) && d < |tour.request.days| && d in tour.trip.contexts
    requires SolvableDay(st, d)
    ensures result.Ok? ==> DayPlanned(tour, st, d, result.value)
    ensures result.Err? <==> DayFails(tour, st, d)
  {
    hide Ready, SideAnswered, TransferDayPlan, LacksMatrix, DayFails, DayPlanned;
    BudgetsAreNatural(tour, d);
    TransferFailure(tour, st, d);
    var preResult := SolveSide(tour, d, PreTransfer, st.pre[d]);
    if preResult.Err? {
      return Err(preResult.error);
    }
    var postResult := SolveSide(tour, d, PostTransfer, st.post[d]);
    if postResult.Err? {
      return Err(postResult.error);
    }
    TransferDayAssembled(tour, st, d, preResult.value, postResult.value);
    result := Ok(TransferDayPlan(tour, st, d, preResult.value, postResult.value));
  }

  lemma OrdinaryFailure(tour: Tour, st: Packing, d: nat)
    requires st.Shaped(|tour.request.days|) && d < |tour.request.days| && d !in tour.trip.contexts
    ensures DayFails(tour, st, d) <==>
            && st.buckets[d] != [] && tour.matrixFor(d, Whole).None?
            && exists n :: n in st.buckets[d] &&
                 DayOf(OrdinaryRequest(tour.request, d, st.buckets[d]), DayDocs(tour, st.buckets[d], d)).Accepts(n)
  {
    assert LegRequest(tour, d, Whole, st.buckets[d]) == OrdinaryRequest(tour.request, d, st.buckets[d]);
    assert forall leg :: LacksMatrix(tour, d, leg, LegIds(st, d, leg)) ==> leg == Whole;
    assert LegIds(st, d, Whole) == st.buckets[d];
    hide OrdinaryRequest, DayDocs;
    assert DayFails(tour, st, d) <==> LacksMatrix(tour, d, Whole, LegIds(st, d, Whole));
  }

  method PlanOrdinaryDay(tour: Tour, st: Packing, d: nat)
    returns (result: Result<DayPlan, PlanError>)
    requires Ready(tour) && st.Shaped(|tour.request.days|) && d < |tour.request.days| && d !in tour.trip.contexts
    requires SolvableDay(st, d)
    ensures result.Ok? ==> DayPlanned(tour, st, d, result.value)
    ensures result.Err? <==> DayFails(tour, st, d)
  {
    OrdinaryFailure(tour, st, d);
    var cfg, ids := tour.request.days[d], st.buckets[d];
    if ids == [] {
      return Ok(DayPlan(d, cfg.date, [], 0, 0, 0, [], 0, None, []));
    }
    assert cfg.Valid();
    OrdinaryRequestIsValid(tour.request, d, ids);
    var request := OrdinaryRequest(tour.request, d, ids);
    assert request.placeIds == ids && request.transportMode == tour.request.transportMode;
    hide Ready, OrdinaryRequest, Conserved, Timeline, Totals, Explained, LegsReported, Prioritized, DayFails;
    var docs := BuildDayDocs(tour, ids, d);
    var solved := OptimizeRoute(request, docs, tour.matrixFor(d, Whole));
    if solved.Err? {
      return Err(solved.error);
    }
    var r := solved.value;
    result := Ok(DayPlan(d, cfg.date, r.steps, r.totalTravelTimeS, r.totalVisitTimeMin, r.totalWaitMin, r.skipped,
                         r.travelToEndS, None, []));
    assert result.value.AsResponse(tour.request.transportMode) == r;
  }

  // ---------------------------------------------------------------------------------------
  // Where every place ends up
  // ---------------------------------------------------------------------------------------

  function SegmentSteps(segments: seq<DayRouteSegment>): multiset<Id> {
    if segments == [] then multiset{}
    else SegmentSteps(segments[..|segments| - 1]) + multiset(StepIds(segments[|segments| - 1].steps))
  }

  /** The places one day reports; the steps of a transfer day are those of its two segments. */
  function Reported(plan: DayPlan): multiset<Id> {
    (if plan.routeSegments == [] then multiset(StepIds(plan.steps)) else SegmentSteps(plan.routeSegments))
    + multiset(plan.skipped)
  }

  function ReportedDays(days: seq<DayPlan>): multiset<Id> {
    if days == [] then multiset{} else ReportedDays(days[..|days| - 1]) + Reported(days[|days| - 1])
  }

  /** Every mention of a place in the trip: steps, skipped lists and the unassigned list. */
  function Everything(r: MultiDayResponse): multiset<Id> {
    ReportedDays(r.days) + multiset(r.unassigned)
  }

  lemma SideConserves(tour: Tour, d: nat, leg: Leg, ids: seq<Id>, seg: DayRouteSegment)
    requires d in tour.trip.contexts && d < |tour.request.days|
    requires SideAnswered(tour, d, leg, ids, seg) && Distinct(ids)
    ensures multiset(StepIds(seg.steps)) + multiset(seg.skipped) == multiset(ids)
  {
    hide Timeline, Totals, Explained, LegsReported;
    if ids == [] || BudgetOf(tour.trip.contexts[d], leg) == 0 {
      assert StepIds([]) == [];
    } else {
      assert SideRequest(tour, d, leg, ids).placeIds == ids;
      assert Answers(SideRequest(tour, d, leg, ids), DayDocs(tour, ids, d), tour.matrixFor(d, leg),
                     seg.AsResponse(tour.request.transportMode));
    }
  }

  /** What the packing holds for one day. */
  function DayContents(st: Packing, d: nat): multiset<Id>
    requires st.Shaped(|st.fill|) && d < |st.fill|
  {
    multiset(st.buckets[d]) + multiset(st.pre[d]) + multiset(st.post[d]) + multiset(st.preSkipped[d])
  }

  lemma TransferDayConserves(tour: Tour, st: Packing, d: nat, plan: DayPlan)
    requires st.Shaped(|tour.request.days|) && d < |tour.request.days| && SolvableDay(st, d)
    requires d in tour.trip.contexts && TransferDayPlanned(tour, st, d, plan) && st.buckets[d] == []
    ensures Reported(plan) == DayContents(st, d)
  {
    hide SideAnswered;
    var pre, post := plan.routeSegments[0], plan.routeSegments[1];
    SideConserves(tour, d, PreTransfer, st.pre[d], pre);
    SideConserves(tour, d, PostTransfer, st.post[d], post);
    assert plan.routeSegments == [pre, post];
    assert [pre, post][..1] == [pre] && [pre][..0] == [];
    assert SegmentSteps([pre]) == multiset(StepIds(pre.steps));
    assert plan.skipped == plan.AsResponse(tour.request.transportMode).skipped
                        == st.preSkipped[d] + pre.skipped + post.skipped;
  }

  lemma OrdinaryDayConserves(tour: Tour, st: Packing, d: nat, plan: DayPlan)
    requires st.Shaped(|tour.request.days|) && d < |tour.request.days| && SolvableDay(st, d)
    requires OrdinaryDayPlanned(tour, st, d, plan)
    requires st.pre[d] == [] && st.post[d] == [] && st.preSkipped[d] == []
    ensures Reported(plan) == DayContents(st, d)
  {
    hide Timeline, Totals, Explained, LegsReported;
    var ids := st.buckets[d];
    var r := plan.AsResponse(tour.request.transportMode);
    assert plan.steps == r.steps && plan.skipped == r.skipped;
    if ids == [] {
      assert StepIds([]) == [];
    } else {
      assert OrdinaryRequest(tour.request, d, ids).placeIds == ids;
      assert Answers(OrdinaryRequest(tour.request, d, ids), DayDocs(tour, ids, d), tour.matrixFor(d, Whole), r);
    }
  }

  /** A planned day reports exactly the places packed into it. */
  lemma DayConserves(tour: Tour, st: Packing, d: nat, plan: DayPlan)
    requires tour.trip.days == tour.request.days
    requires Balanced(tour.trip, st) && d < |tour.request.days| && SolvableDay(st, d)
    requires DayPlanned(tour, st, d, plan)
    ensures Reported(plan) == DayContents(st, d)
  {
    assert BalancedDay(tour.trip, st, d);
    hide TransferDayPlanned, OrdinaryDayPlanned, Reported, MinutesOf;
    if d in tour.trip.contexts {
      TransferDayConserves(tour, st, d, plan);
    } else {
      OrdinaryDayConserves(tour, st, d, plan);
    }
  }

  lemma {:induction false} FlatHolds(lists: seq<seq<Id>>, d: nat)
    requires d < |lists|
    ensures multiset(lists[d]) <= Flat(lists)
  {
    if d < |lists| - 1 {
      FlatHolds(lists[..|lists| - 1], d);
    }
  }

  lemma PartOfSolvable(part: seq<Id>, whole: seq<Id>)
    requires multiset(part) <= multiset(whole) && Solvable(whole)
    ensures Solvable(part)
  {
    forall n ensures multiset(part)[n] <= 1 {
      DistinctCount(whole, n);
    }
    CountDistinct(part);
    assert multiset(whole) == multiset(part) + (multiset(whole) - multiset(part));
    assert |multiset(part)| == |part| && |multiset(whole)| == |whole|;
    assert forall n :: n in part ==> n in multiset(part) && n in multiset(whole);
  }

  lemma DaysAreSolvable(st: Packing, ids: seq<Id>, d: nat)
    requires st.Shaped(|st.fill|) && d < |st.fill|
    requires Contents(st) == multiset(ids) && Solvable(ids)
    ensures SolvableDay(st, d)
  {
    hide Solvable, Flat;
    FlatHolds(st.buckets, d);
    FlatHolds(st.pre, d);
    FlatHolds(st.post, d);
    PartOfSolvable(st.buckets[d], ids);
    PartOfSolvable(st.pre[d], ids);
    PartOfSolvable(st.post[d], ids);
  }

  /** The whole trip as planned, day by day. */
  ghost predicate TripPlanned(tour: Tour, st: Packing, r: MultiDayResponse) {
    && st.Shaped(|tour.request.days|)
    && |r.days| == |tour.request.days|
    && (forall d: nat :: d < |r.days| ==> DayPlanned(tour, st, d, r.days[d]))
    && r.unassigned == st.unassigned
    && r.transportMode == tour.request.transportMode
  }

  function BucketsUpTo(st: Packing, n: nat): multiset<Id>
    requires st.Shaped(|st.fill|) && n <= |st.fill|
  {
    Flat(st.buckets[..n]) + Flat(st.pre[..n]) + Flat(st.post[..n]) + Flat(st.preSkipped[..n])
  }

  lemma BucketsNext(st: Packing, n: nat)
    requires st.Shaped(|st.fill|) && n < |st.fill|
    ensures BucketsUpTo(st, n + 1) == BucketsUpTo(st, n) + DayContents(st, n)
  {
    assert st.buckets[..n + 1][..n] == st.buckets[..n];
    assert st.pre[..n + 1][..n] == st.pre[..n];
    assert st.post[..n + 1][..n] == st.post[..n];
    assert st.preSkipped[..n + 1][..n] == st.preSkipped[..n];
  }

  lemma {:induction false} DaysConserve(tour: Tour, st: Packing, plans: seq<DayPlan>)
    requires tour.trip.days == tour.request.days && Balanced(tour.trip, st)
    requires |plans| <= |tour.request.days|
    requires forall d: nat :: d < |plans| ==> SolvableDay(st, d) && DayPlanned(tour, st, d, plans[d])
    ensures ReportedDays(plans) == BucketsUpTo(st, |plans|)
  {
    hide DayPlanned, Reported, Solvable, BalancedDay, DayContents;
    if plans == [] {
      assert st.buckets[..0] == [] && st.pre[..0] == [] && st.post[..0] == [] && st.preSkipped[..0] == [];
    } else {
      var k := |plans| - 1;
      DaysConserve(tour, st, plans[..k]);
      BucketsNext(st, k);
      hide BucketsUpTo;
      assert SolvableDay(st, k);
      DayConserves(tour, st, k, plans[k]);
    }
  }

  /** Every requested place is reported exactly once: as a step, skipped on a day, or unassigned. */
  lemma TripConserves(tour: Tour, st: Packing, r: MultiDayResponse)
    requires Ready(tour) && Solvable(PlaceIds(tour.request.places))
    requires Partitioned(tour.trip, tour.request.places, st) && TripPlanned(tour, st, r)
    ensures Everything(r) == multiset(PlaceIds(tour.request.places))
    ensures forall id :: Everything(r)[id] == if id in PlaceIds(tour.request.places) then 1 else 0
  {
    var ids := PlaceIds(tour.request.places);
    hide Ready, DayPlanned, BalancedDay, AllSettled, SidesBounded, PlaceIds, ReportedDays, Flat;
    assert tour.trip.days == tour.request.days by { UnfoldReady(tour); }
    forall d: nat | d < |r.days| ensures SolvableDay(st, d) {
      DaysAreSolvable(st, ids, d);
    }
    DaysConserve(tour, st, r.days);
    var n := |r.days|;
    assert st.buckets[..n] == st.buckets && st.pre[..n] == st.pre && st.post[..n] == st.post
           && st.preSkipped[..n] == st.preSkipped;
    forall id ensures multiset(ids)[id] == if id in ids then 1 else 0 {
      DistinctCount(ids, id);
    }
  }

  lemma UnfoldReady(tour: Tour)
    requires Ready(tour)
    ensures tour.trip.days == tour.request.days && tour.request.days != []
    ensures forall p :: p in tour.request.places ==> SlotsInRange(tour.trip, p)
  {
  }

  // ---------------------------------------------------------------------------------------
  // The trip
  // ---------------------------------------------------------------------------------------

  /** The inputs the planner is promised: a valid request for real place ids. */
  ghost predicate Plannable(request: MultiDayRequest) {
    && request.Valid()
    && START_ANCHOR !in PlaceIds(request.places) && END_ANCHOR !in PlaceIds(request.places)
  }

  lemma TourIsReady(request: MultiDayRequest, docs: seq<PlaceDoc>, nearer: Geography, matrixFor: Matrices)
    requires Plannable(request)
    ensures Ready(TourOf(request, docs, nearer, matrixFor))
    ensures Solvable(PlaceIds(request.places))
  {
    hide ContextsUpTo;
    assert |PlaceIds(request.places)| <= 50;
    DocMapFrom(docs);
  }

  method PlanDay(tour: Tour, st: Packing, d: nat) returns (result: Result<DayPlan, PlanError>)
    requires Ready(tour) && st.Shaped(|tour.request.days|) && d < |tour.request.days| && SolvableDay(st, d)
    ensures result.Ok? ==> DayPlanned(tour, st, d, result.value)
    ensures result.Err? <==> DayFails(tour, st, d)
  {
    hide Ready, DayPlanned, DayFails;
    if d in tour.trip.contexts {
      result := PlanTransferDay(tour, st, d);
    } else {
      result := PlanOrdinaryDay(tour, st, d);
    }
  }

  /** The days one after the other, until a solver call fails. */
  method PlanDays(tour: Tour, st: Packing) returns (result: Result<MultiDayResponse, PlanError>)
    requires Ready(tour) && st.Shaped(|tour.request.days|)
    requires forall d: nat :: d < |tour.request.days| ==> SolvableDay(st, d)
    ensures result.Ok? ==> TripPlanned(tour, st, result.value)
    ensures result.Err? <==> exists d: nat :: d < |tour.request.days| && DayFails(tour, st, d)
  {
    hide Ready, DayPlanned, DayFails, SolvableDay;
    var plans: seq<DayPlan> := [];
    for d := 0 to |tour.request.days|
      invariant |plans| == d
      invariant forall k: nat :: k < d ==> DayPlanned(tour, st, k, plans[k]) && !DayFails(tour, st, k)
    {
      var planned := PlanDay(tour, st, d);
      if planned.Err? {
        return Err(planned.error);
      }
      plans := plans + [planned.value];
    }
    result := Ok(MultiDayResponse(plans, tour.request.transportMode, st.unassigned));
  }

  lemma PartitionedDaysAreSolvable(trip: Trip, places: seq<PlacePreference>, st: Packing)
    requires Partitioned(trip, places, st) && Solvable(PlaceIds(places))
    ensures st.Shaped(|trip.days|)
    ensures forall d: nat :: d < |trip.days| ==> SolvableDay(st, d)
  {
    hide AllSettled, SidesBounded, Contents, BalancedDay;
    forall d: nat | d < |trip.days| ensures SolvableDay(st, d) {
      DaysAreSolvable(st, PlaceIds(places), d);
    }
  }

  method OptimizeTrip(request: MultiDayRequest, docs: seq<PlaceDoc>, nearer: Geography, matrixFor: Matrices)
    returns (result: Result<MultiDayResponse, PlanError>, ghost st: Packing)
    requires Plannable(request)
    ensures Partitioned(TourOf(request, docs, nearer, matrixFor).trip, request.places, st)
    ensures result.Ok? ==> TripPlanned(TourOf(request, docs, nearer, matrixFor), st, result.value)
    ensures result.Ok? ==> Everything(result.value) == multiset(PlaceIds(request.places))
    ensures st.Shaped(|request.days|)
    ensures result.Err? <==> exists d: nat :: d < |request.days| && DayFails(TourOf(request, docs, nearer, matrixFor), st, d)
  {
    ghost var expected := TourOf(request, docs, nearer, matrixFor);
    TourIsReady(request, docs, nearer, matrixFor);
    UnfoldReady(expected);
    assert expected.request == request;
    var slots := BuildSlotMap(request.places);
    var contexts := BuildContexts(request);
    var tour := Tour(request, Trip(request.days, DocMap(docs), contexts, nearer), slots, matrixFor);
    assert tour == expected;
    hide TourOf, Ready, Plannable, TripPlanned, Partitioned, Everything, PackRun, SolvableDay, Solvable, SlotsInRange,
         DayFails;
    var packing, trace := PartitionPlaces(tour.trip, request.places);
    st := packing;
    PartitionedDaysAreSolvable(tour.trip, request.places, packing);
    result := PlanDays(tour, packing);
    if result.Ok? {
      TripConserves(tour, packing, result.value);
    }
  }

  // ---------------------------------------------------------------------------------------
  // What the plan of a day means
  // ---------------------------------------------------------------------------------------

  /** A visit to a place keeps the place's hours on that day, with the slot's preferred hours applied. */
  ghost predicate KeepsHours(tour: Tour, d: nat, from: int, to: int, s: RouteStep) {
    && s.placeId in tour.trip.docs && d < |tour.request.days|
    && s.visitDurationMin == tour.trip.Minutes(s.placeId)
    && OpenFor(DayDoc(tour, s.placeId, d), from, to, Some(GoogleWeekday(tour.request.days[d].date)),
               VisitStartS(s), 60 * s.visitDurationMin)
  }

  lemma AnsweredKeepsHours(tour: Tour, d: nat, leg: Leg, request: OptimizeRequest, ids: seq<Id>, r: OptimizeResponse, i: nat)
    requires KeyedById(tour.trip.docs) && d < |tour.request.days|
    requires request.departureDate == Some(tour.request.days[d].date)
    requires Answers(request, DayDocs(tour, ids, d), tour.matrixFor(d, leg), r) && i < |r.steps|
    ensures KeepsHours(tour, d, request.DayStartS(), request.DayEndS(), r.steps[i])
  {
    var s := r.steps[i];
    var day := DayOf(request, DayDocs(tour, ids, d));
    DayDocsAreExact(tour, ids, d);
    assert StepSound(day, s);
    assert s.placeId in day.docs;
    assert day.docs[s.placeId] == DayDoc(tour, s.placeId, d);
  }

  /**
   * What keeping the hours means: the slot's preferred hours bound the visit where it gives them, else
   * the place's own, else the bounds of the day or of the side.
   */
  lemma PreferredHoursBound(tour: Tour, d: nat, from: int, to: int, s: RouteStep)
    requires KeepsHours(tour, d, from, to, s)
    ensures var slot, doc := SlotAt(tour, s.placeId, d), tour.trip.docs[s.placeId];
            var begin, finish := VisitStartS(s), VisitStartS(s) + 60 * s.visitDurationMin;
            && (if slot.Some? && slot.value.hourFrom.Some? then slot.value.hourFrom.value * 3600 <= begin
                else if doc.preferredHourFrom.Some? then doc.preferredHourFrom.value * 3600 <= begin
                else from <= begin)
            && (if slot.Some? && slot.value.hourTo.Some? then finish <= slot.value.hourTo.value * 3600
                else if doc.preferredHourTo.Some? then finish <= doc.preferredHourTo.value * 3600
                else finish <= to)
            && (doc.periods != [] ==>
                  exists p :: p in doc.periods && p.open.Some? && p.open.value.day == Some(tour.request.days[d].date % 7)
                              && OpenDuring(p, begin, 60 * s.visitDurationMin))
  {
    GoogleWeekdayIsExact(tour.request.days[d].date);
  }

  /** Every visit on either side of a transfer day keeps its place's hours on that day. */
  lemma SideVisitsKeepHours(tour: Tour, d: nat, leg: Leg, ids: seq<Id>, seg: DayRouteSegment, i: nat)
    requires KeyedById(tour.trip.docs) && d in tour.trip.contexts && d < |tour.request.days|
    requires SideAnswered(tour, d, leg, ids, seg) && i < |seg.steps|
    ensures var request := SideRequest(tour, d, leg, ids);
            KeepsHours(tour, d, request.DayStartS(), request.DayEndS(), seg.steps[i])
  {
    var request := SideRequest(tour, d, leg, ids);
    assert request.departureDate == Some(tour.request.days[d].date);
    hide Answers, KeepsHours, SideRequest;
    AnsweredKeepsHours(tour, d, leg, request, ids, seg.AsResponse(tour.request.transportMode), i);
  }

  /** Every visit of an ordinary day keeps its place's hours on that day. */
  lemma OrdinaryVisitsKeepHours(tour: Tour, st: Packing, d: nat, plan: DayPlan, i: nat)
    requires Ready(tour) && st.Shaped(|tour.request.days|) && d < |tour.request.days| && d !in tour.trip.contexts
    requires DayPlanned(tour, st, d, plan) && i < |plan.steps|
    ensures KeepsHours(tour, d, tour.request.days[d].StartS(), tour.request.days[d].EndS(), plan.steps[i])
  {
    var ids := st.buckets[d];
    var request := OrdinaryRequest(tour.request, d, ids);
    assert ids != [] by {
      assert plan.steps == plan.AsResponse(tour.request.transportMode).steps;
    }
    assert request.DayStartS() == tour.request.days[d].StartS() && request.DayEndS() == tour.request.days[d].EndS();
    hide Answers, KeepsHours, OrdinaryRequest;
    AnsweredKeepsHours(tour, d, Whole, request, ids, plan.AsResponse(tour.request.transportMode), i);
  }

  /** The PRE side is back at the origin by the departure, the check-out and the end of the day. */
  ghost predicate PreClock(transfer: Transfer, origin: Stay, cfg: DayConfig, pre: DayRouteSegment) {
    pre.steps != [] ==>
      && cfg.StartS() <= ArrivalS(pre.steps[0])
      && forall b :: b in PreEnds(transfer, origin, cfg) ==> LeaveS(pre.steps[|pre.steps| - 1]) + pre.travelToEndS <= b
  }

  /** The POST side sets out no earlier than the arrival, the check-in and the day's start, and ends in the day. */
  ghost predicate PostClock(transfer: Transfer, destination: Stay, cfg: DayConfig, post: DayRouteSegment) {
    post.steps != [] ==>
      && (forall b :: b in PostStarts(transfer, destination, cfg) ==> b <= ArrivalS(post.steps[0]) - post.steps[0].travelFromPreviousS)
      && LeaveS(post.steps[|post.steps| - 1]) + post.travelToEndS <= cfg.EndS()
  }

  /** A segment sets out and is back within the given seconds. */
  ghost predicate RunsWithin(seg: DayRouteSegment, startS: int, endS: int)
    requires seg.steps != []
  {
    && startS <= ArrivalS(seg.steps[0]) - seg.steps[0].travelFromPreviousS
    && startS <= ArrivalS(seg.steps[0])
    && LeaveS(seg.steps[|seg.steps| - 1]) + seg.travelToEndS <= endS
  }

  lemma PreClockHolds(mode: TransportMode, cfg: DayConfig, ids: seq<Id>, pre: DayRouteSegment,
                      transfer: Transfer, origin: Stay, destination: Stay)
    requires cfg.Valid()
    requires pre.steps != [] ==>
               var ctx := BuildContext(transfer, origin, destination, cfg);
               var request := PreRequest(mode, cfg, ctx, ids);
               1 <= |ids| <= 50 && ctx.preBudgetMin > 0 && RunsWithin(pre, request.DayStartS(), request.DayEndS())
    ensures PreClock(transfer, origin, cfg, pre)
  {
    hide BuildContext, PreRequest, PreEnds;
    if pre.steps != [] {
      PreRequestIsExact(mode, cfg, transfer, origin, destination, ids);
    }
  }

  lemma PostClockHolds(mode: TransportMode, cfg: DayConfig, ids: seq<Id>, post: DayRouteSegment,
                       transfer: Transfer, origin: Stay, destination: Stay)
    requires cfg.Valid()
    requires post.steps != [] ==>
               var ctx := BuildContext(transfer, origin, destination, cfg);
               var request := PostRequest(mode, cfg, ctx, ids);
               1 <= |ids| <= 50 && ctx.postBudgetMin > 0 && RunsWithin(post, request.DayStartS(), request.DayEndS())
    ensures PostClock(transfer, destination, cfg, post)
  {
    hide BuildContext, PostRequest, PostStarts;
    if post.steps != [] {
      PostRequestIsExact(mode, cfg, transfer, origin, destination, ids);
    }
  }

  lemma ReadyDay(tour: Tour, d: nat)
    requires Ready(tour) && d < |tour.request.days|
    ensures tour.request.days[d].Valid()
  {
    assert tour.request.days[d] in tour.request.days;
  }

  lemma AtMostFifty(ids: seq<Id>)
    requires Solvable(ids)
    ensures |ids| <= 50
  {
  }

  /** A side with steps was solved, within the bounds of its request. */
  lemma SideTimeline(tour: Tour, d: nat, leg: Leg, ids: seq<Id>, seg: DayRouteSegment)
    requires d in tour.trip.contexts && d < |tour.request.days|
    requires BudgetOf(tour.trip.contexts[d], leg) >= 0
    requires SideAnswered(tour, d, leg, ids, seg) && seg.steps != []
    ensures ids != [] && BudgetOf(tour.trip.contexts[d], leg) > 0
    ensures RunsWithin(seg, SideRequest(tour, d, leg, ids).DayStartS(), SideRequest(tour, d, leg, ids).DayEndS())
  {
    hide SideRequest, Conserved, Totals, Explained, LegsReported;
    var r := seg.AsResponse(tour.request.transportMode);
    var day := DayOf(SideRequest(tour, d, leg, ids), DayDocs(tour, ids, d));
    assert Timeline(day, r.steps, r.travelToEndS);
    assert StepSound(day, r.steps[0]);
  }

  /** The timeline of every planned transfer day. */
  lemma TransferDayTimeline(tour: Tour, st: Packing, d: nat, plan: DayPlan)
    returns (transfer: Transfer, origin: Stay, destination: Stay)
    requires Ready(tour) && st.Shaped(|tour.request.days|) && d < |tour.request.days| && d in tour.trip.contexts
    requires SolvableDay(st, d) && DayPlanned(tour, st, d, plan)
    ensures transfer in tour.request.transfers && transfer.date == plan.date
    ensures origin in tour.request.stays && WakesUpIn(origin, plan.date)
    ensures destination in tour.request.stays && destination.Covers(plan.date)
    ensures PreClock(transfer, origin, tour.request.days[d], plan.routeSegments[0])
    ensures PostClock(transfer, destination, tour.request.days[d], plan.routeSegments[1])
    ensures ToSeconds(transfer.departure) < ToSeconds(transfer.arrival)
  {
    transfer, origin, destination := ContextFacts(tour, d);
    var cfg, mode := tour.request.days[d], tour.request.transportMode;
    var pre, post := plan.routeSegments[0], plan.routeSegments[1];
    ReadyDay(tour, d);
    BudgetsAreNatural(tour, d);
    AtMostFifty(st.pre[d]);
    AtMostFifty(st.post[d]);
    hide Ready, BuildContext, SideAnswered, Solvable, PreClock, PostClock, RunsWithin, PreRequest, PostRequest;
    if pre.steps != [] {
      SideTimeline(tour, d, PreTransfer, st.pre[d], pre);
    }
    if post.steps != [] {
      SideTimeline(tour, d, PostTransfer, st.post[d], post);
    }
    PreClockHolds(mode, cfg, st.pre[d], pre, transfer, origin, destination);
    PostClockHolds(mode, cfg, st.post[d], post, transfer, origin, destination);
  }
}
