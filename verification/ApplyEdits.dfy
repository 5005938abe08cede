/** Applying a batch of edit operations to a multi-day request. */
module ApplyEdits {
  import opened Wrappers
  import opened Sequences
  import opened TimeWindows
  import opened Scheduling
  import opened RouteOptimizer
  import opened Accommodations
  import opened TripRequests
  import opened Reconcile

  datatype Outcome = Outcome(request: MultiDayRequest, removedTransferDates: seq<int>)

  function StayOps(ops: seq<Operation>): seq<Operation> {
    if ops == [] then []
    else
      var op := ops[|ops| - 1];
      StayOps(ops[..|ops| - 1]) + (if op.ForStays() then [op] else [])
  }

  function OtherOps(ops: seq<Operation>): seq<Operation> {
    if ops == [] then []
    else
      var op := ops[|ops| - 1];
      OtherOps(ops[..|ops| - 1]) + (if op.ForStays() then [] else [op])
  }

  method SelectStayOps(ops: seq<Operation>) returns (result: seq<Operation>)
    ensures result == StayOps(ops)
  {
    result := [];
    for k := 0 to |ops|
      invariant result == StayOps(ops[..k])
    {
      assert ops[..k + 1][..k] == ops[..k];
      if ops[k].ForStays() {
        result := result + [ops[k]];
      }
    }
    assert ops[..|ops|] == ops;
  }

  // ---------------------------------------------------------------------------------------
  // Stays: updates, then removals, then additions
  // ---------------------------------------------------------------------------------------

  function Updated(stay: Stay, op: Operation): Stay
    requires op.UpdateStay?
  {
    Stay(op.name.GetOr(stay.name), op.lat.GetOr(stay.lat), op.lng.GetOr(stay.lng),
         op.checkIn.GetOr(stay.checkIn), op.checkOut.GetOr(stay.checkOut),
         if op.clearCheckInFrom then None else if op.checkInFrom.Some? then op.checkInFrom else stay.checkInFrom,
         if op.clearCheckOutBy then None else if op.checkOutBy.Some? then op.checkOutBy else stay.checkOutBy)
  }

  /** One stay after the updates of a batch, applied in order. */
  function AfterUpdates(stays: seq<Stay>, ops: seq<Operation>, i: nat): Stay
    requires i < |stays|
  {
    if ops == [] then stays[i]
    else
      var op := ops[|ops| - 1];
      var before := AfterUpdates(stays, ops[..|ops| - 1], i);
      if op.UpdateStay? && Hits(stays, op, i) then Updated(before, op) else before
  }

  predicate Removes(stays: seq<Stay>, ops: seq<Operation>, i: nat) {
    exists op :: op in ops && op.RemoveStay? && Hits(stays, op, i)
  }

  function Survivors(stays: seq<Stay>, ops: seq<Operation>, n: nat): seq<Stay>
    requires n <= |stays|
  {
    if n == 0 then []
    else
      Survivors(stays, ops, n - 1) + (if Removes(stays, ops, n - 1) then [] else [AfterUpdates(stays, ops, n - 1)])
  }

  function Added(ops: seq<Operation>): seq<Stay> {
    if ops == [] then []
    else
      var op := ops[|ops| - 1];
      Added(ops[..|ops| - 1]) + (if op.AddStay? then [op.stay] else [])
  }

  /** The stays after a batch, in terms of the list before it. */
  function NewStays(stays: seq<Stay>, ops: seq<Operation>): seq<Stay> {
    Survivors(stays, ops, |stays|) + Added(ops)
  }

  // ---------------------------------------------------------------------------------------
  // The other operations, as a function of the request before
  // ---------------------------------------------------------------------------------------

  function WithSlots(r: MultiDayRequest, i: nat, slots: seq<DaySlot>): MultiDayRequest
    requires i < |r.places|
  {
    r.(places := r.places[i := r.places[i].(slots := slots)])
  }

  function MergedSlots(existing: seq<DaySlot>, slots: seq<DaySlot>): seq<DaySlot> {
    seq(|slots|, i requires 0 <= i < |slots| => MergedSlot(existing, slots[i].dayIndex, slots[i].hourFrom, slots[i].hourTo))
  }

  predicate DaysInRange(slots: seq<DaySlot>, n: nat) {
    forall i :: 0 <= i < |slots| ==> slots[i].dayIndex < n
  }

  function WithoutPlace(places: seq<PlacePreference>, id: Id): seq<PlacePreference> {
    if places == [] then []
    else
      var p := places[|places| - 1];
      WithoutPlace(places[..|places| - 1], id) + (if p.placeId == id then [] else [p])
  }

  function WithoutTransfer(transfers: seq<Transfer>, date: int): seq<Transfer> {
    if transfers == [] then []
    else
      var t := transfers[|transfers| - 1];
      WithoutTransfer(transfers[..|transfers| - 1], date) + (if t.date == date then [] else [t])
  }

  function NewWindow(day: DayConfig, op: Operation): DayConfig
    requires op.UpdateDayWindow?
  {
    day.(startHour := op.startHour.GetOr(day.startHour),
         endHour := op.endHour.GetOr(day.endHour),
         startTime := if op.clearStart then None else if op.startTime.Some? then op.startTime else day.startTime,
         endTime := if op.clearEnd then None else if op.endTime.Some? then op.endTime else day.endTime)
  }

  function NewTransfer(t: Transfer, op: Operation): Transfer
    requires op.UpdateTransfer?
  {
    t.(departure := op.departure.GetOr(t.departure),
       arrival := op.arrival.GetOr(t.arrival),
       caption := if op.clearCaption then None else if op.caption.Some? then op.caption else t.caption)
  }

  function TransferFrom(transfers: seq<Transfer>, date: int, from: nat): Option<nat>
    decreases |transfers| - from
  {
    if from >= |transfers| then None
    else if transfers[from].date == date then Some(from)
    else TransferFrom(transfers, date, from + 1)
  }

  lemma {:induction false} TransferFromIsFirst(transfers: seq<Transfer>, date: int, from: nat)
    requires from <= |transfers|
    ensures match TransferFrom(transfers, date, from)
            case Some(i) => from <= i < |transfers| && transfers[i].date == date
            case None => forall k :: from <= k < |transfers| ==> transfers[k].date != date
    decreases |transfers| - from
  {
    if from < |transfers| && transfers[from].date != date {
      TransferFromIsFirst(transfers, date, from + 1);
    }
  }

  /** The request after an edit of one place, or the reason why it cannot be edited so. */
  function PlaceEdited(r: MultiDayRequest, op: Operation): Result<MultiDayRequest, EditError>
    requires op.SetPlaceAuto? || op.SetPlacePinned? || op.SetPlaceFlexible? || op.RemovePlace?
  {
    PlaceFromIsFirst(r.places, op.placeId, 0);
    match PlaceAt(r.places, op.placeId)
    case None => Err(PlaceNotInTrip)
    case Some(i) =>
      match op {
        case SetPlaceAuto(_) => Ok(WithSlots(r, i, []))
        case SetPlacePinned(_, day, hourFrom, hourTo) =>
          if day >= |r.days| then Err(InvalidDayIndex)
          else Ok(WithSlots(r, i, [PinnedSlot(r.places[i].slots, day, hourFrom, hourTo)]))
        case SetPlaceFlexible(_, slots) =>
          if !DistinctSlotDays(slots) then Err(OperationInvalid)
          else if !DaysInRange(slots, |r.days|) then Err(InvalidDayIndex)
          else Ok(WithSlots(r, i, MergedSlots(r.places[i].slots, slots)))
        case RemovePlace(id) =>
          if |r.places| - 1 < MIN_PLACES then Err(TooFewPlaces)
          else Ok(r.(places := WithoutPlace(r.places, id)))
      }
  }

  function TransferEdited(r: MultiDayRequest, op: Operation): Result<MultiDayRequest, EditError>
    requires op.AddTransfer? || op.UpdateTransfer? || op.RemoveTransfer?
  {
    match op {
      case AddTransfer(t) =>
        if t.date in TransferDates(r.transfers) then Err(TransferAlreadyExists)
        else if t.date !in Dates(r.days) then Err(InvalidDayIndex)
        else Ok(r.(transfers := r.transfers + [t]))
      case UpdateTransfer(date, _, _, _, _) =>
        TransferFromIsFirst(r.transfers, date, 0);
        var found := TransferFrom(r.transfers, date, 0);
        if found.None? then Err(TransferNotFound)
        else Ok(r.(transfers := r.transfers[found.value := NewTransfer(r.transfers[found.value], op)]))
      case RemoveTransfer(date) =>
        if TransferFrom(r.transfers, date, 0).None? then Err(TransferNotFound)
        else Ok(r.(transfers := WithoutTransfer(r.transfers, date)))
    }
  }

  function Handled(r: MultiDayRequest, op: Operation): Result<MultiDayRequest, EditError>
    requires !op.ForStays()
  {
    match op {
      case UpdateDayWindow(d, _, _, _, _, _, _) =>
        if d >= |r.days| then Err(InvalidDayIndex) else Ok(r.(days := r.days[d := NewWindow(r.days[d], op)]))
      case SetTransportMode(mode) => Ok(r.(transportMode := mode))
      case AddTransfer(_) => TransferEdited(r, op)
      case UpdateTransfer(_, _, _, _, _) => TransferEdited(r, op)
      case RemoveTransfer(_) => TransferEdited(r, op)
      case SetPlaceAuto(_) => PlaceEdited(r, op)
      case SetPlacePinned(_, _, _, _) => PlaceEdited(r, op)
      case SetPlaceFlexible(_, _) => PlaceEdited(r, op)
      case RemovePlace(_) => PlaceEdited(r, op)
    }
  }

  predicate NoneForStays(ops: seq<Operation>) {
    forall k :: 0 <= k < |ops| ==> !ops[k].ForStays()
  }

  /** The operations one after the other, until one fails. */
  function HandledAll(r: MultiDayRequest, ops: seq<Operation>): Result<MultiDayRequest, EditError>
    requires NoneForStays(ops)
  {
    if ops == [] then Ok(r)
    else
      var before := HandledAll(r, ops[..|ops| - 1]);
      if before.Err? then before else Handled(before.value, ops[|ops| - 1])
  }

  lemma {:induction false} OtherOpsAreOthers(ops: seq<Operation>)
    ensures NoneForStays(OtherOps(ops))
    ensures forall op :: op in OtherOps(ops) ==> op in ops
  {
    if ops != [] {
      OtherOpsAreOthers(ops[..|ops| - 1]);
    }
  }

  // ---------------------------------------------------------------------------------------
  // A whole batch
  // ---------------------------------------------------------------------------------------

  /** The edited state before transfers are reconciled and the request is validated. */
  function Edited(request: MultiDayRequest, ops: seq<Operation>): Result<MultiDayRequest, EditError> {
    OtherOpsAreOthers(ops);
    var resolved := Resolved(request.stays, StayOps(ops));
    if resolved.Err? then Err(resolved.error)
    else HandledAll(request.(stays := NewStays(request.stays, StayOps(ops))), OtherOps(ops))
  }

  function DatesBefore(request: MultiDayRequest): set<int> {
    Elements(TransferDates(request.transfers))
  }

  function ReconciledWith(before: set<int>, r: MultiDayRequest): MultiDayRequest {
    r.(transfers := Surviving(r.days, r.stays, before, r.transfers))
  }

  function Applied(request: MultiDayRequest, ops: seq<Operation>): Result<Outcome, EditError> {
    match Edited(request, ops)
    case Err(e) => Err(e)
    case Ok(r) =>
      var before := DatesBefore(request);
      if ReconciledWith(before, r).Valid()
      then Ok(Outcome(ReconciledWith(before, r), Orphaned(r.days, r.stays, before, r.transfers)))
      else Err(EditInvalid)
  }

  /** The working copy that the handlers of one batch change in place. */
  class Draft {
    var days: seq<DayConfig>
    var places: seq<PlacePreference>
    var mode: TransportMode
    var stays: seq<Stay>
    var transfers: seq<Transfer>
    const start: Place
    const end: Place

    function Value(): MultiDayRequest
      reads this
    {
      MultiDayRequest(days, places, mode, start, end, stays, transfers)
    }

    constructor (request: MultiDayRequest)
      ensures Value() == request
    {
      days, places, mode := request.days, request.places, request.transportMode;
      stays, transfers := request.stays, request.transfers;
      start, end := request.start, request.end;
    }

    method ApplyUpdates(ops: seq<Operation>, targets: seq<Option<nat>>)
      requires Resolves(stays, ops, targets)
      modifies this`stays
      ensures |stays| == |old(stays)|
      ensures forall i :: 0 <= i < |stays| ==> stays[i] == AfterUpdates(old(stays), ops, i)
    {
      ghost var was := stays;
      hide Hits;
      for k := 0 to |ops|
        invariant |stays| == |was|
        invariant forall i :: 0 <= i < |stays| ==> stays[i] == AfterUpdates(was, ops[..k], i)
      {
        assert ops[..k + 1][..k] == ops[..k];
        if ops[k].UpdateStay? {
          var i := targets[k].value;
          OnlyOneHit(was, ops[k], i);
          stays := stays[i := Updated(stays[i], ops[k])];
        }
      }
      assert ops[..|ops|] == ops;
    }

    /** Updates in place, then removals, then additions. */
    method ApplyStayOps(ops: seq<Operation>, targets: seq<Option<nat>>)
      requires Resolves(stays, ops, targets)
      modifies this`stays
      ensures stays == NewStays(old(stays), ops)
    {
      ghost var was := stays;
      ApplyUpdates(ops, targets);
      var removed := set k | 0 <= k < |ops| && ops[k].RemoveStay? && targets[k].Some? :: targets[k].value;
      RemovedIsExact(was, ops, targets, removed);
      var updated := stays;
      var kept := [];
      hide AfterUpdates, Removes, Resolves, Hits;
      for i := 0 to |updated|
        invariant kept == Survivors(was, ops, i)
        invariant stays == updated
      {
        if i !in removed {
          kept := kept + [updated[i]];
        }
      }
      for k := 0 to |ops|
        invariant kept == Survivors(was, ops, |was|) + Added(ops[..k])
        invariant stays == updated
      {
        assert ops[..k + 1][..k] == ops[..k];
        if ops[k].AddStay? {
          kept := kept + [ops[k].stay];
        }
      }
      assert ops[..|ops|] == ops;
      stays := kept;
    }

    method SetPlaceAuto(id: Id) returns (error: Option<EditError>)
      modifies this`places
      ensures Follows(PlaceEdited(old(Value()), Operation.SetPlaceAuto(id)), error, old(Value()), Value())
    {
      PlaceFromIsFirst(places, id, 0);
      var found := PlaceAt(places, id);
      if found.None? {
        return Some(PlaceNotInTrip);
      }
      places := places[found.value := places[found.value].(slots := [])];
      error := None;
    }

    method SetPlacePinned(id: Id, day: nat, hourFrom: Option<int>, hourTo: Option<int>) returns (error: Option<EditError>)
      modifies this`places
      ensures Follows(PlaceEdited(old(Value()), Operation.SetPlacePinned(id, day, hourFrom, hourTo)), error, old(Value()), Value())
    {
      PlaceFromIsFirst(places, id, 0);
      var found := PlaceAt(places, id);
      if found.None? {
        return Some(PlaceNotInTrip);
      }
      if day >= |days| {
        return Some(InvalidDayIndex);
      }
      var existing := places[found.value].slots;
      var slot := MergedSlot(existing, day, hourFrom, hourTo);
      if slot.hourFrom.None? && slot.hourTo.None? && |existing| == 1 {
        slot := DaySlot(day, existing[0].hourFrom, existing[0].hourTo);
      }
      places := places[found.value := places[found.value].(slots := [slot])];
      error := None;
    }

    method SetPlaceFlexible(id: Id, slots: seq<DaySlot>) returns (error: Option<EditError>)
      modifies this`places
      ensures Follows(PlaceEdited(old(Value()), Operation.SetPlaceFlexible(id, slots)), error, old(Value()), Value())
    {
      PlaceFromIsFirst(places, id, 0);
      var found := PlaceAt(places, id);
      if found.None? {
        return Some(PlaceNotInTrip);
      }
      var distinct := DedupeFlexibleSlots(slots);
      if !distinct {
        return Some(OperationInvalid);
      }
      var existing := places[found.value].slots;
      var newSlots: seq<DaySlot> := [];
      for i := 0 to |slots|
        invariant newSlots == MergedSlots(existing, slots)[..i]
        invariant DaysInRange(slots[..i], |days|)
        invariant Value() == old(Value())
      {
        if slots[i].dayIndex >= |days| {
          return Some(InvalidDayIndex);
        }
        newSlots := newSlots + [MergedSlot(existing, slots[i].dayIndex, slots[i].hourFrom, slots[i].hourTo)];
      }
      assert newSlots == MergedSlots(existing, slots);
      places := places[found.value := places[found.value].(slots := newSlots)];
      error := None;
    }

    method RemovePlace(id: Id) returns (error: Option<EditError>)
      modifies this`places
      ensures Follows(PlaceEdited(old(Value()), Operation.RemovePlace(id)), error, old(Value()), Value())
    {
      PlaceFromIsFirst(places, id, 0);
      if PlaceAt(places, id).None? {
        return Some(PlaceNotInTrip);
      }
      if |places| - 1 < MIN_PLACES {
        return Some(TooFewPlaces);
      }
      var kept := [];
      for i := 0 to |places|
        invariant kept == WithoutPlace(places[..i], id)
        invariant Value() == old(Value())
      {
        assert places[..i + 1][..i] == places[..i];
        if places[i].placeId != id {
          kept := kept + [places[i]];
        }
      }
      assert places[..|places|] == places;
      places := kept;
      error := None;
    }

    method UpdateDayWindow(op: Operation) returns (error: Option<EditError>)
      requires op.UpdateDayWindow?
      modifies this`days
      ensures Follows(Handled(old(Value()), op), error, old(Value()), Value())
    {
      if op.dayIndex >= |days| {
        return Some(InvalidDayIndex);
      }
      var day := days[op.dayIndex];
      if op.startHour.Some? {
        day := day.(startHour := op.startHour.value);
      }
      if op.endHour.Some? {
        day := day.(endHour := op.endHour.value);
      }
      if op.startTime.Some? {
        day := day.(startTime := op.startTime);
      }
      if op.endTime.Some? {
        day := day.(endTime := op.endTime);
      }
      if op.clearStart {
        day := day.(startTime := None);
      }
      if op.clearEnd {
        day := day.(endTime := None);
      }
      days := days[op.dayIndex := day];
      error := None;
    }

    method AddTransfer(t: Transfer) returns (error: Option<EditError>)
      modifies this`transfers
      ensures Follows(TransferEdited(old(Value()), Operation.AddTransfer(t)), error, old(Value()), Value())
    {
      if t.date in TransferDates(transfers) {
        return Some(TransferAlreadyExists);
      }
      if t.date !in Dates(days) {
        return Some(InvalidDayIndex);
      }
      transfers := transfers + [t];
      error := None;
    }

    method UpdateTransfer(op: Operation) returns (error: Option<EditError>)
      requires op.UpdateTransfer?
      modifies this`transfers
      ensures Follows(TransferEdited(old(Value()), op), error, old(Value()), Value())
    {
      TransferFromIsFirst(transfers, op.date, 0);
      var found := TransferFrom(transfers, op.date, 0);
      if found.None? {
        return Some(TransferNotFound);
      }
      var t := transfers[found.value];
      if op.departure.Some? {
        t := t.(departure := op.departure.value);
      }
      if op.arrival.Some? {
        t := t.(arrival := op.arrival.value);
      }
      if op.caption.Some? {
        t := t.(caption := op.caption);
      }
      if op.clearCaption {
        t := t.(caption := None);
      }
      transfers := transfers[found.value := t];
      error := None;
    }

    method RemoveTransfer(date: int) returns (error: Option<EditError>)
      modifies this`transfers
      ensures Follows(TransferEdited(old(Value()), Operation.RemoveTransfer(date)), error, old(Value()), Value())
    {
      if TransferFrom(transfers, date, 0).None? {
        return Some(TransferNotFound);
      }
      var kept := [];
      for i := 0 to |transfers|
        invariant kept == WithoutTransfer(transfers[..i], date)
        invariant Value() == old(Value())
      {
        assert transfers[..i + 1][..i] == transfers[..i];
        if transfers[i].date != date {
          kept := kept + [transfers[i]];
        }
      }
      assert transfers[..|transfers|] == transfers;
      transfers := kept;
      error := None;
    }

    /** The handler of one operation. */
    method Handle(op: Operation) returns (error: Option<EditError>)
      requires !op.ForStays()
      modifies this`days, this`places, this`mode, this`transfers
      ensures Follows(Handled(old(Value()), op), error, old(Value()), Value())
    {
      hide PlaceEdited, TransferEdited;
      match op {
        case SetPlaceAuto(id) => error := SetPlaceAuto(id);
        case SetPlacePinned(id, day, hourFrom, hourTo) => error := SetPlacePinned(id, day, hourFrom, hourTo);
        case SetPlaceFlexible(id, slots) => error := SetPlaceFlexible(id, slots);
        case RemovePlace(id) => error := RemovePlace(id);
        case UpdateDayWindow(_, _, _, _, _, _, _) => error := UpdateDayWindow(op);
        case SetTransportMode(newMode) =>
          mode := newMode;
          error := None;
        case AddTransfer(t) => error := AddTransfer(t);
        case UpdateTransfer(_, _, _, _, _) => error := UpdateTransfer(op);
        case RemoveTransfer(date) => error := RemoveTransfer(date);
      }
    }
  }

  /** A handler's outcome: the specified new value, or the specified error with nothing changed. */
  predicate Follows(spec: Result<MultiDayRequest, EditError>, error: Option<EditError>,
                    before: MultiDayRequest, after: MultiDayRequest) {
    match spec
    case Ok(r) => error.None? && after == r
    case Err(e) => error == Some(e) && after == before
  }

  lemma OnlyOneHit(stays: seq<Stay>, op: Operation, i: nat)
    requires Hits(stays, op, i)
    ensures forall j: nat :: Hits(stays, op, j) <==> j == i
  {
  }

  lemma RemovedIsExact(stays: seq<Stay>, ops: seq<Operation>, targets: seq<Option<nat>>, removed: set<nat>)
    requires Resolves(stays, ops, targets)
    requires removed == set k | 0 <= k < |ops| && ops[k].RemoveStay? && targets[k].Some? :: targets[k].value
    ensures forall i: nat :: i in removed <==> Removes(stays, ops, i)
  {
    forall i: nat ensures i in removed <==> Removes(stays, ops, i) {
      if i in removed {
        var k :| 0 <= k < |ops| && ops[k].RemoveStay? && targets[k].Some? && targets[k].value == i;
        assert Hits(stays, ops[k], i);
      }
      if Removes(stays, ops, i) {
        var op :| op in ops && op.RemoveStay? && Hits(stays, op, i);
        var k :| 0 <= k < |ops| && ops[k] == op;
        assert targets[k].Some? && Hits(stays, ops[k], targets[k].value);
      }
    }
  }

  lemma {:induction false} FirstFailureStays(r: MultiDayRequest, ops: seq<Operation>, k: nat)
    requires NoneForStays(ops) && k <= |ops| && HandledAll(r, ops[..k]).Err?
    ensures HandledAll(r, ops) == HandledAll(r, ops[..k])
  {
    if k < |ops| {
      assert ops[..|ops| - 1][..k] == ops[..k];
      FirstFailureStays(r, ops[..|ops| - 1], k);
    } else {
      assert ops[..k] == ops;
    }
  }

  lemma {:induction false} OtherOpsPrefix(ops: seq<Operation>, k: nat)
    requires k <= |ops|
    ensures |OtherOps(ops[..k])| <= |OtherOps(ops)|
    ensures OtherOps(ops)[..|OtherOps(ops[..k])|] == OtherOps(ops[..k])
  {
    if k < |ops| {
      OtherOpsPrefix(ops[..|ops| - 1], k);
      assert ops[..|ops| - 1][..k] == ops[..k];
    } else {
      assert ops[..k] == ops;
    }
  }

  /** Running the handlers over a draft, skipping the operations on stays. */
  method HandleOthers(draft: Draft, ops: seq<Operation>) returns (error: Option<EditError>)
    requires NoneForStays(OtherOps(ops))
    modifies draft
    ensures var spec := HandledAll(old(draft.Value()), OtherOps(ops));
            match spec
            case Ok(r) => error.None? && draft.Value() == r
            case Err(e) => error == Some(e)
  {
    ghost var was := draft.Value();
    hide Handled;
    for k := 0 to |ops|
      invariant NoneForStays(OtherOps(ops[..k]))
      invariant HandledAll(was, OtherOps(ops[..k])) == Ok(draft.Value())
    {
      assert ops[..k + 1][..k] == ops[..k];
      if ops[k].ForStays() {
        assert OtherOps(ops[..k + 1]) == OtherOps(ops[..k]);
        continue;
      }
      OtherOpsNext(was, ops[..k + 1]);
      error := draft.Handle(ops[k]);
      if error.Some? {
        OtherOpsPrefix(ops, k + 1);
        FirstFailureStays(was, OtherOps(ops), |OtherOps(ops[..k + 1])|);
        return;
      }
    }
    assert ops[..|ops|] == ops;
    error := None;
  }

  lemma OtherOpsNext(r: MultiDayRequest, ops: seq<Operation>)
    requires ops != [] && !ops[|ops| - 1].ForStays()
    requires NoneForStays(OtherOps(ops[..|ops| - 1]))
    ensures NoneForStays(OtherOps(ops))
    ensures var before := HandledAll(r, OtherOps(ops[..|ops| - 1]));
            HandledAll(r, OtherOps(ops)) == if before.Err? then before else Handled(before.value, ops[|ops| - 1])
  {
    var others := OtherOps(ops);
    assert others[..|others| - 1] == OtherOps(ops[..|ops| - 1]);
  }

  method ApplyOperations(request: MultiDayRequest, ops: seq<Operation>) returns (result: Result<Outcome, EditError>)
    ensures result == Applied(request, ops)
  {
    var draft := new Draft(request);
    var stayOps := SelectStayOps(ops);
    var resolved := ResolveSelectors(request.stays, stayOps);
    OtherOpsAreOthers(ops);
    if resolved.Err? {
      return Err(resolved.error);
    }
    ResolutionIsExact(request.stays, stayOps);
    hide Resolves, NewStays, Resolved;
    draft.ApplyStayOps(stayOps, resolved.value);
    assert draft.Value() == request.(stays := NewStays(request.stays, stayOps));
    var error := HandleOthers(draft, ops);
    if error.Some? {
      return Err(error.value);
    }
    var before := set t | t in request.transfers :: t.date;
    DatesAsSet(request.transfers);
    if draft.transfers != [] && !AllValid(draft.stays) {
      return Err(EditInvalid);
    }
    ghost var edited := draft.Value();
    var kept, removed := ReconcileTransfers(draft.days, draft.stays, draft.transfers, before);
    draft.transfers := kept;
    assert draft.Value() == ReconciledWith(before, edited);
    if !draft.Value().Valid() {
      return Err(EditInvalid);
    }
    result := Ok(Outcome(draft.Value(), removed));
  }

  lemma DatesAsSet(transfers: seq<Transfer>)
    ensures (set t | t in transfers :: t.date) == Elements(TransferDates(transfers))
  {
    var dates := TransferDates(transfers);
    forall t | t in transfers ensures t.date in dates {
      var i :| 0 <= i < |transfers| && transfers[i] == t;
      assert dates[i] == t.date;
    }
    forall d | d in dates ensures d in set t | t in transfers :: t.date {
      var i :| 0 <= i < |dates| && dates[i] == d;
      assert transfers[i] in transfers;
    }
  }
}
