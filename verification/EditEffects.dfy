/** What each edit operation does to a trip, and what a batch of them does, in the terms of the operations alone. */
module EditEffects {
  import opened Wrappers
  import opened Sequences
  import opened TimeWindows
  import opened Scheduling
  import opened RouteOptimizer
  import opened Accommodations
  import opened TripRequests
  import opened Reconcile
  import opened ApplyEdits
  import opened EditGuarantees

  // ---------------------------------------------------------------------------------------
  // Fields
  // ---------------------------------------------------------------------------------------

  /** A field takes the value an operation names, and else keeps its own. */
  predicate Takes<T(==)>(named: Option<T>, was: T, now: T) {
    match named
    case Some(v) => now == v
    case None => now == was
  }

  /** An optional field likewise, except that clearing it wins over naming a value. */
  predicate TakesOrClears<T(==)>(named: Option<T>, clear: bool, was: Option<T>, now: Option<T>) {
    if clear then now.None? else if named.Some? then now == named else now == was
  }

  // ---------------------------------------------------------------------------------------
  // Places
  // ---------------------------------------------------------------------------------------

  ghost predicate HasPlace(r: MultiDayRequest, id: Id) {
    exists p :: p in r.places && p.placeId == id
  }

  /** Only the slots of one place with the id differ. */
  ghost predicate OnlySlotsOf(r: MultiDayRequest, next: MultiDayRequest, id: Id, i: nat) {
    && i < |r.places| && |next.places| == |r.places|
    && r.places[i].placeId == id && next.places[i].placeId == id
    && (forall j :: 0 <= j < |r.places| && j != i ==> next.places[j] == r.places[j])
    && next.days == r.days && next.transportMode == r.transportMode && next.start == r.start && next.end == r.end
    && next.stays == r.stays && next.transfers == r.transfers
  }

  /** The slot is the first of the list for its day. */
  ghost predicate FirstSlotOf(slots: seq<DaySlot>, s: DaySlot) {
    exists i :: 0 <= i < |slots| && slots[i] == s && forall j :: 0 <= j < i ==> slots[j].dayIndex != s.dayIndex
  }

  /** A slot with the hours asked for; an hour not asked for is the one the place had on that day, if it had one. */
  ghost predicate KeepsOwnHours(existing: seq<DaySlot>, asked: DaySlot, now: DaySlot) {
    && now.dayIndex == asked.dayIndex
    && (asked.hourFrom.Some? ==> now.hourFrom == asked.hourFrom)
    && (asked.hourTo.Some? ==> now.hourTo == asked.hourTo)
    && (forall s :: FirstSlotOf(existing, s) && s.dayIndex == asked.dayIndex ==>
          && (asked.hourFrom.None? ==> now.hourFrom == s.hourFrom)
          && (asked.hourTo.None? ==> now.hourTo == s.hourTo))
    && ((forall s :: s in existing ==> s.dayIndex != asked.dayIndex) ==> now == asked)
  }

  /** A place with one slot that is moved to another day without naming hours takes that slot's hours along. */
  ghost predicate PinnedTo(existing: seq<DaySlot>, asked: DaySlot, now: seq<DaySlot>) {
    && |now| == 1
    && (if |existing| == 1 && asked.hourFrom.None? && asked.hourTo.None?
        then now[0] == DaySlot(asked.dayIndex, existing[0].hourFrom, existing[0].hourTo)
        else KeepsOwnHours(existing, asked, now[0]))
  }

  ghost predicate SharedDay(slots: seq<DaySlot>) {
    exists i, j :: 0 <= i < j < |slots| && slots[i].dayIndex == slots[j].dayIndex
  }

  lemma {:induction false} SlotOnIsFirst(slots: seq<DaySlot>, day: nat)
    ensures match SlotOn(slots, day)
            case Some(s) => s.dayIndex == day && FirstSlotOf(slots, s)
                            && forall t :: FirstSlotOf(slots, t) && t.dayIndex == day ==> t == s
            case None => forall s :: s in slots ==> s.dayIndex != day
  {
    if slots != [] {
      SlotOnIsFirst(slots[1..], day);
      if slots[0].dayIndex == day {
        assert FirstSlotOf(slots, slots[0]);
      } else {
        assert slots == [slots[0]] + slots[1..];
        forall t: DaySlot | t.dayIndex == day ensures FirstSlotOf(slots, t) <==> FirstSlotOf(slots[1..], t) {
          FirstSlotOfTail(slots, t);
        }
      }
    }
  }

  lemma FirstSlotOfTail(slots: seq<DaySlot>, t: DaySlot)
    requires slots != [] && slots[0].dayIndex != t.dayIndex
    ensures FirstSlotOf(slots, t) <==> FirstSlotOf(slots[1..], t)
  {
    if FirstSlotOf(slots, t) {
      var i :| 0 <= i < |slots| && slots[i] == t && forall j :: 0 <= j < i ==> slots[j].dayIndex != t.dayIndex;
      assert slots[1..][i - 1] == t;
    }
    if FirstSlotOf(slots[1..], t) {
      var i :| 0 <= i < |slots| - 1 && slots[1..][i] == t
               && forall j :: 0 <= j < i ==> slots[1..][j].dayIndex != t.dayIndex;
      assert slots[i + 1] == t;
      forall j | 0 <= j < i + 1 ensures slots[j].dayIndex != t.dayIndex {
        assert j > 0 ==> slots[j] == slots[1..][j - 1];
      }
    }
  }

  lemma MergedKeepsOwnHours(existing: seq<DaySlot>, asked: DaySlot)
    ensures KeepsOwnHours(existing, asked, MergedSlot(existing, asked.dayIndex, asked.hourFrom, asked.hourTo))
  {
    SlotOnIsFirst(existing, asked.dayIndex);
    hide SlotOn;
  }

  lemma PinnedAsAsked(existing: seq<DaySlot>, asked: DaySlot)
    ensures PinnedTo(existing, asked, [PinnedSlot(existing, asked.dayIndex, asked.hourFrom, asked.hourTo)])
  {
    MergedKeepsOwnHours(existing, asked);
    hide KeepsOwnHours;
    if |existing| == 1 {
      SlotOnOne(existing[0], asked.dayIndex);
      assert existing == [existing[0]];
    }
  }

  lemma {:induction false} WithoutPlaceKeeps(places: seq<PlacePreference>, id: Id)
    ensures KeptInOrder(WithoutPlace(places, id), places, (p: PlacePreference) => p.placeId != id)
  {
    if places != [] {
      WithoutPlaceKeeps(places[..|places| - 1], id);
      KeptNext(WithoutPlace(places[..|places| - 1], id), places, (p: PlacePreference) => p.placeId != id);
    }
  }

  lemma {:induction false} WithoutTransferKeeps(transfers: seq<Transfer>, date: int)
    ensures KeptInOrder(WithoutTransfer(transfers, date), transfers, (t: Transfer) => t.date != date)
  {
    if transfers != [] {
      WithoutTransferKeeps(transfers[..|transfers| - 1], date);
      KeptNext(WithoutTransfer(transfers[..|transfers| - 1], date), transfers, (t: Transfer) => t.date != date);
    }
  }

  // ---------------------------------------------------------------------------------------
  // One operation
  // ---------------------------------------------------------------------------------------

  /** The new slots of one place, all of it else unchanged. */
  ghost predicate PlaceEffect(r: MultiDayRequest, op: Operation, next: MultiDayRequest) {
    match op
    case SetPlaceAuto(id) => exists i: nat :: OnlySlotsOf(r, next, id, i) && next.places[i].slots == []
    case SetPlacePinned(id, day, hourFrom, hourTo) =>
      && day < |r.days|
      && exists i: nat :: OnlySlotsOf(r, next, id, i)
                     && PinnedTo(r.places[i].slots, DaySlot(day, hourFrom, hourTo), next.places[i].slots)
    case SetPlaceFlexible(id, asked) =>
      && !SharedDay(asked) && (forall s :: s in asked ==> s.dayIndex < |r.days|)
      && exists i: nat :: OnlySlotsOf(r, next, id, i) && |next.places[i].slots| == |asked|
                     && forall k :: 0 <= k < |asked| ==> KeepsOwnHours(r.places[i].slots, asked[k], next.places[i].slots[k])
    case RemovePlace(id) =>
      && HasPlace(r, id) && |r.places| > 2
      && next == r.(places := next.places)
      && KeptInOrder(next.places, r.places, (p: PlacePreference) => p.placeId != id)
    case _ => false
  }

  ghost predicate HasTransfer(r: MultiDayRequest, date: int) {
    exists t :: t in r.transfers && t.date == date
  }

  ghost predicate HasDay(r: MultiDayRequest, date: int) {
    exists d :: d in r.days && d.date == date
  }

  ghost predicate TransferEffect(r: MultiDayRequest, op: Operation, next: MultiDayRequest) {
    && next == r.(transfers := next.transfers)
    && match op
       case AddTransfer(t) => !HasTransfer(r, t.date) && HasDay(r, t.date) && next.transfers == r.transfers + [t]
       case UpdateTransfer(date, departure, arrival, caption, clearCaption) =>
         && |next.transfers| == |r.transfers|
         && (exists i :: && 0 <= i < |r.transfers| && r.transfers[i].date == date && next.transfers[i].date == date
                         && Takes(departure, r.transfers[i].departure, next.transfers[i].departure)
                         && Takes(arrival, r.transfers[i].arrival, next.transfers[i].arrival)
                         && TakesOrClears(caption, clearCaption, r.transfers[i].caption, next.transfers[i].caption)
                         && forall j :: 0 <= j < |r.transfers| && j != i ==> next.transfers[j] == r.transfers[j])
       case RemoveTransfer(date) =>
         HasTransfer(r, date) && KeptInOrder(next.transfers, r.transfers, (t: Transfer) => t.date != date)
       case _ => false
  }

  ghost predicate WindowEffect(r: MultiDayRequest, op: Operation, next: MultiDayRequest)
    requires op.UpdateDayWindow?
  {
    var d := op.dayIndex;
    && d < |r.days| && |next.days| == |r.days| && next == r.(days := next.days)
    && (forall j :: 0 <= j < |r.days| && j != d ==> next.days[j] == r.days[j])
    && next.days[d].date == r.days[d].date && next.days[d].start == r.days[d].start && next.days[d].end == r.days[d].end
    && Takes(op.startHour, r.days[d].startHour, next.days[d].startHour)
    && Takes(op.endHour, r.days[d].endHour, next.days[d].endHour)
    && TakesOrClears(op.startTime, op.clearStart, r.days[d].startTime, next.days[d].startTime)
    && TakesOrClears(op.endTime, op.clearEnd, r.days[d].endTime, next.days[d].endTime)
  }

  /** What a successful operation other than on stays does. */
  ghost predicate Effect(r: MultiDayRequest, op: Operation, next: MultiDayRequest) {
    if op.UpdateDayWindow? then WindowEffect(r, op, next)
    else if op.SetTransportMode? then next == r.(transportMode := op.mode)
    else PlaceEffect(r, op, next) || TransferEffect(r, op, next)
  }

  /** Why an operation other than on stays fails. */
  ghost predicate Fails(r: MultiDayRequest, op: Operation, e: EditError) {
    match op
    case SetPlaceAuto(id) => e == PlaceNotInTrip && !HasPlace(r, id)
    case SetPlacePinned(id, day, _, _) =>
      if !HasPlace(r, id) then e == PlaceNotInTrip else day >= |r.days| && e == InvalidDayIndex
    case SetPlaceFlexible(id, slots) =>
      if !HasPlace(r, id) then e == PlaceNotInTrip
      else if SharedDay(slots) then e == OperationInvalid
      else (exists s :: s in slots && s.dayIndex >= |r.days|) && e == InvalidDayIndex
    case RemovePlace(id) =>
      if !HasPlace(r, id) then e == PlaceNotInTrip else |r.places| <= 2 && e == TooFewPlaces
    case UpdateDayWindow(day, _, _, _, _, _, _) => day >= |r.days| && e == InvalidDayIndex
    case AddTransfer(t) =>
      if HasTransfer(r, t.date) then e == TransferAlreadyExists else !HasDay(r, t.date) && e == InvalidDayIndex
    case UpdateTransfer(date, _, _, _, _) => !HasTransfer(r, date) && e == TransferNotFound
    case RemoveTransfer(date) => !HasTransfer(r, date) && e == TransferNotFound
    case _ => false
  }

  /** An outcome is the effect, or a failure for its reason. */
  ghost predicate Means(r: MultiDayRequest, op: Operation, outcome: Result<MultiDayRequest, EditError>) {
    match outcome
    case Ok(next) => Effect(r, op, next)
    case Err(e) => Fails(r, op, e)
  }

  lemma PlaceAtIsExact(r: MultiDayRequest, id: Id)
    ensures match PlaceAt(r.places, id)
            case Some(i) => i < |r.places| && r.places[i].placeId == id && HasPlace(r, id)
            case None => !HasPlace(r, id)
  {
    PlaceFromIsFirst(r.places, id, 0);
  }

  lemma PlaceOperationMeans(r: MultiDayRequest, op: Operation)
    requires op.SetPlaceAuto? || op.SetPlacePinned? || op.SetPlaceFlexible? || op.RemovePlace?
    ensures Means(r, op, PlaceEdited(r, op))
  {
    hide HasPlace, MergedSlot, PinnedSlot, PinnedTo, KeepsOwnHours, KeptInOrder, WithoutPlace;
    PlaceAtIsExact(r, op.placeId);
    if PlaceAt(r.places, op.placeId).Some? && PlaceEdited(r, op).Ok? {
      var i := PlaceAt(r.places, op.placeId).value;
      var next := PlaceEdited(r, op).value;
      var existing := r.places[i].slots;
      match op {
        case SetPlaceAuto(_) => assert OnlySlotsOf(r, next, op.placeId, i);
        case SetPlacePinned(_, day, hourFrom, hourTo) =>
          PinnedAsAsked(existing, DaySlot(day, hourFrom, hourTo));
          assert OnlySlotsOf(r, next, op.placeId, i);
        case SetPlaceFlexible(_, asked) =>
          forall k | 0 <= k < |asked| ensures KeepsOwnHours(existing, asked[k], MergedSlots(existing, asked)[k]) {
            MergedKeepsOwnHours(existing, asked[k]);
          }
          assert OnlySlotsOf(r, next, op.placeId, i);
        case RemovePlace(_) => WithoutPlaceKeeps(r.places, op.placeId);
      }
    }
  }

  lemma TransferAtIsExact(r: MultiDayRequest, date: int)
    ensures match TransferFrom(r.transfers, date, 0)
            case Some(i) => i < |r.transfers| && r.transfers[i].date == date && HasTransfer(r, date)
            case None => !HasTransfer(r, date)
    ensures date in TransferDates(r.transfers) <==> HasTransfer(r, date)
    ensures date in Dates(r.days) <==> HasDay(r, date)
  {
    TransferFromIsFirst(r.transfers, date, 0);
    if HasTransfer(r, date) {
      var t :| t in r.transfers && t.date == date;
      DateOf(r.transfers, t);
    }
    if date in TransferDates(r.transfers) {
      var t := TransferOf(r.transfers, date);
    }
    if d :| d in r.days && d.date == date {
      var i :| 0 <= i < |r.days| && r.days[i] == d;
      assert Dates(r.days)[i] == date;
    }
  }

  lemma TransferOperationMeans(r: MultiDayRequest, op: Operation)
    requires op.AddTransfer? || op.UpdateTransfer? || op.RemoveTransfer?
    ensures Means(r, op, TransferEdited(r, op))
  {
    hide HasTransfer, HasDay, KeptInOrder, WithoutTransfer, TransferDates, Dates;
    match op {
      case AddTransfer(t) => TransferAtIsExact(r, t.date);
      case UpdateTransfer(date, _, _, _, _) => TransferAtIsExact(r, date);
      case RemoveTransfer(date) =>
        TransferAtIsExact(r, date);
        WithoutTransferKeeps(r.transfers, date);
    }
  }

  /** Each handler does what its operation says, or fails for the reason it has. */
  lemma OperationMeans(r: MultiDayRequest, op: Operation)
    requires !op.ForStays()
    ensures Means(r, op, Handled(r, op))
  {
    hide PlaceEdited, TransferEdited, PlaceEffect, TransferEffect, WindowEffect;
    match op {
      case UpdateDayWindow(_, _, _, _, _, _, _) => DayWindowMeans(r, op);
      case SetTransportMode(_) =>
      case SetPlaceAuto(_) => PlaceOperationMeans(r, op);
      case SetPlacePinned(_, _, _, _) => PlaceOperationMeans(r, op);
      case SetPlaceFlexible(_, _) => PlaceOperationMeans(r, op);
      case RemovePlace(_) => PlaceOperationMeans(r, op);
      case AddTransfer(_) => TransferOperationMeans(r, op);
      case UpdateTransfer(_, _, _, _, _) => TransferOperationMeans(r, op);
      case RemoveTransfer(_) => TransferOperationMeans(r, op);
    }
  }

  lemma DayWindowMeans(r: MultiDayRequest, op: Operation)
    requires op.UpdateDayWindow?
    ensures Means(r, op, Handled(r, op))
  {
  }

  // ---------------------------------------------------------------------------------------
  // Stays
  // ---------------------------------------------------------------------------------------

  /** The operation names the stay at this position: as many stays begin before it as its selector says. */
  ghost predicate Names(stays: seq<Stay>, op: Operation, i: nat) {
    && op.Selects() && i < |stays|
    && op.stayIndex == |set j | 0 <= j < |stays| && stays[j].checkIn < stays[i].checkIn|
  }

  lemma {:induction false} DistinctElements<T>(s: seq<T>)
    requires Distinct(s)
    ensures |Elements(s)| == |s|
  {
    if s != [] {
      DistinctElements(s[..|s| - 1]);
      LastElement(s);
      assert Elements(s) == Elements(s[..|s| - 1]) + {s[|s| - 1]};
    }
  }

  /** In a trip whose stays share no night, check-ins differ, and selectors count in their order. */
  lemma SelectorCounts(stays: seq<Stay>, op: Operation, i: nat)
    requires AllValid(stays) && NoSharedNight(stays) && op.Selects()
    ensures Hits(stays, op, i) <==> Names(stays, op, i)
  {
    var p := SortedPositions(stays);
    PositionsPermute(stays);
    PositionsSorted(stays);
    hide SortedPositions, AllValid, NoSharedNight;
    if i < |stays| {
      assert i in p;
      var k :| 0 <= k < |p| && p[k] == i;
      forall j: nat | j < |stays| ensures stays[j].checkIn < stays[i].checkIn <==> j in p[..k] {
        assert j in p;
        var l :| 0 <= l < |p| && p[l] == j;
        CheckInsDiffer(stays, i, j);
        if l < k {
          assert PositionLe(stays, p[l], p[k]);
          assert p[..k][l] == j;
        } else if k < l {
          assert PositionLe(stays, p[k], p[l]);
        }
      }
      assert (set j | 0 <= j < |stays| && stays[j].checkIn < stays[i].checkIn) == Elements(p[..k]) by {
        forall j | j in p[..k] ensures 0 <= j < |stays| {
          assert j in p;
        }
      }
      DistinctElements(p[..k]);
    } else {
      forall k | 0 <= k < |p| ensures p[k] != i {
        assert p[k] in p;
      }
    }
  }

  lemma CheckInsDiffer(stays: seq<Stay>, i: nat, j: nat)
    requires AllValid(stays) && NoSharedNight(stays) && i < |stays| && j < |stays|
    ensures i != j ==> stays[i].checkIn != stays[j].checkIn
  {
    assert stays[i].Valid() && stays[j].Valid();
    assert stays[i].Covers(stays[i].checkIn) && stays[j].Covers(stays[j].checkIn);
  }

  /** A stay with the fields an update names. */
  ghost predicate UpdatedAs(was: Stay, op: Operation, now: Stay)
    requires op.UpdateStay?
  {
    && Takes(op.name, was.name, now.name) && Takes(op.lat, was.lat, now.lat) && Takes(op.lng, was.lng, now.lng)
    && Takes(op.checkIn, was.checkIn, now.checkIn) && Takes(op.checkOut, was.checkOut, now.checkOut)
    && TakesOrClears(op.checkInFrom, op.clearCheckInFrom, was.checkInFrom, now.checkInFrom)
    && TakesOrClears(op.checkOutBy, op.clearCheckOutBy, was.checkOutBy, now.checkOutBy)
  }

  lemma UpdatedAsNamed(was: Stay, op: Operation)
    requires op.UpdateStay?
    ensures UpdatedAs(was, op, Updated(was, op))
  {
  }

  /** The stay at a position after a batch that does not remove it. */
  ghost predicate StayAfter(stays: seq<Stay>, ops: seq<Operation>, i: nat, now: Stay) {
    && i < |stays|
    && (forall op :: op in ops && op.UpdateStay? && Names(stays, op, i) ==> UpdatedAs(stays[i], op, now))
    && ((forall op :: op in ops && op.UpdateStay? ==> !Names(stays, op, i)) ==> now == stays[i])
  }

  ghost predicate Cancelled(stays: seq<Stay>, ops: seq<Operation>, i: nat) {
    exists op :: op in ops && op.RemoveStay? && Names(stays, op, i)
  }

  ghost predicate Increasing(s: seq<nat>) {
    forall a, b :: 0 <= a < b < |s| ==> s[a] < s[b]
  }

  /** The positions of the stays that are not removed, and the additions, make up the new list. */
  ghost predicate MadeOf(stays: seq<Stay>, ops: seq<Operation>, kept: seq<nat>, added: seq<Operation>, after: seq<Stay>) {
    && Increasing(kept) && (forall i: nat :: i in kept <==> i < |stays| && !Cancelled(stays, ops, i))
    && |after| == |kept| + |added|
    && (forall k :: 0 <= k < |kept| ==> StayAfter(stays, ops, kept[k], after[k]))
    && (forall k :: 0 <= k < |added| ==> added[k].AddStay? && after[|kept| + k] == added[k].stay)
  }

  lemma StayAfterBatch(stays: seq<Stay>, ops: seq<Operation>, i: nat)
    requires AllValid(stays) && NoSharedNight(stays) && SelectorsFit(stays, ops) && i < |stays|
    ensures StayAfter(stays, ops, i, AfterUpdates(stays, ops, i))
    ensures Cancelled(stays, ops, i) <==> Removes(stays, ops, i)
  {
    hide AllValid, NoSharedNight, Hits, Names, AfterUpdates, Updated, UpdatedAs;
    forall op | op in ops && op.Selects() ensures Hits(stays, op, i) <==> Names(stays, op, i) {
      SelectorCounts(stays, op, i);
    }
    forall op | op in ops && op.UpdateStay? && Names(stays, op, i)
      ensures UpdatedAs(stays[i], op, AfterUpdates(stays, ops, i))
    {
      var k :| 0 <= k < |ops| && ops[k] == op;
      AfterOneUpdate(stays, ops, i, k);
      UpdatedAsNamed(stays[i], op);
    }
    if forall op :: op in ops && op.UpdateStay? ==> !Names(stays, op, i) {
      AfterNoUpdate(stays, ops, i);
    }
  }

  /** The survivors are the stays at the positions not removed, in order. */
  lemma {:induction false} SurvivorsAre(stays: seq<Stay>, ops: seq<Operation>, n: nat) returns (kept: seq<nat>)
    requires n <= |stays|
    ensures Increasing(kept) && forall i: nat :: i in kept <==> i < n && !Removes(stays, ops, i)
    ensures |Survivors(stays, ops, n)| == |kept|
    ensures forall k :: 0 <= k < |kept| ==> kept[k] < |stays| && Survivors(stays, ops, n)[k] == AfterUpdates(stays, ops, kept[k])
  {
    hide Removes, AfterUpdates;
    if n == 0 {
      return [];
    }
    var before := SurvivorsAre(stays, ops, n - 1);
    if Removes(stays, ops, n - 1) {
      kept := before;
    } else {
      forall k | 0 <= k < |before| ensures before[k] < n - 1 {
        assert before[k] in before;
      }
      kept := before + [n - 1];
    }
  }

  lemma {:induction false} AdditionsAre(ops: seq<Operation>) returns (added: seq<Operation>)
    ensures KeptInOrder(added, ops, (op: Operation) => op.AddStay?)
    ensures |added| == |Added(StayOps(ops))|
    ensures forall k :: 0 <= k < |added| ==> added[k].AddStay? && Added(StayOps(ops))[k] == added[k].stay
  {
    hide KeptInOrder;
    if ops == [] {
      NothingKept((op: Operation) => op.AddStay?);
      return [];
    }
    var k := |ops| - 1;
    var before := AdditionsAre(ops[..k]);
    KeptNext(before, ops, (op: Operation) => op.AddStay?);
    added := before + (if ops[k].AddStay? then [ops[k]] else []);
    var all := StayOps(ops);
    if ops[k].ForStays() {
      assert all[..|all| - 1] == StayOps(ops[..k]);
      assert Added(StayOps(ops[..k])) + [] == Added(StayOps(ops[..k]));
    } else {
      assert all == StayOps(ops[..k]);
    }
  }

  lemma {:induction false} StayOpsKept(ops: seq<Operation>)
    ensures KeptInOrder(StayOps(ops), ops, (op: Operation) => op.ForStays())
    ensures forall op :: op in StayOps(ops) <==> op in ops && op.ForStays()
  {
    if ops != [] {
      StayOpsKept(ops[..|ops| - 1]);
      KeptNext(StayOps(ops[..|ops| - 1]), ops, (op: Operation) => op.ForStays());
      LastElement(ops);
    }
  }

  lemma {:induction false} OtherOpsKept(ops: seq<Operation>)
    ensures KeptInOrder(OtherOps(ops), ops, (op: Operation) => !op.ForStays())
  {
    if ops != [] {
      OtherOpsKept(ops[..|ops| - 1]);
      KeptNext(OtherOps(ops[..|ops| - 1]), ops, (op: Operation) => !op.ForStays());
    }
  }

  /** The names of a batch are those of its operations on stays. */
  lemma MadeOfStayOps(stays: seq<Stay>, ops: seq<Operation>, kept: seq<nat>, added: seq<Operation>, after: seq<Stay>)
    requires MadeOf(stays, StayOps(ops), kept, added, after)
    ensures MadeOf(stays, ops, kept, added, after)
  {
    hide Names, UpdatedAs, StayOps;
    StayOpsKept(ops);
    hide KeptInOrder;
    forall i: nat
      ensures Cancelled(stays, ops, i) <==> Cancelled(stays, StayOps(ops), i)
      ensures forall now :: StayAfter(stays, StayOps(ops), i, now) ==> StayAfter(stays, ops, i, now)
    {
    }
  }

  /**
   * After a batch of operations on stays: the stays not removed, in their order, each with the fields its
   * update names, and then the added ones in the order of the batch.
   */
  lemma StaysMean(stays: seq<Stay>, ops: seq<Operation>) returns (kept: seq<nat>, added: seq<Operation>)
    requires AllValid(stays) && NoSharedNight(stays) && SelectorsFit(stays, StayOps(ops))
    ensures MadeOf(stays, ops, kept, added, NewStays(stays, StayOps(ops)))
    ensures KeptInOrder(added, ops, (op: Operation) => op.AddStay?)
  {
    hide AllValid, NoSharedNight, SelectorsFit, KeptInOrder, Survivors, Added, StayOps, StayAfter, Cancelled, Removes;
    kept := SurvivorsAre(stays, StayOps(ops), |stays|);
    added := AdditionsAre(ops);
    forall i: nat | i < |stays|
      ensures StayAfter(stays, StayOps(ops), i, AfterUpdates(stays, StayOps(ops), i))
      ensures Cancelled(stays, StayOps(ops), i) <==> Removes(stays, StayOps(ops), i)
    {
      StayAfterBatch(stays, StayOps(ops), i);
    }
    MadeOfStayOps(stays, ops, kept, added, NewStays(stays, StayOps(ops)));
  }

  // ---------------------------------------------------------------------------------------
  // A whole batch
  // ---------------------------------------------------------------------------------------

  /** Each operation takes effect on the state its predecessor left. */
  ghost predicate Traced(states: seq<MultiDayRequest>, others: seq<Operation>) {
    && 1 <= |states| <= |others| + 1
    && forall k :: 1 <= k < |states| ==> Effect(states[k - 1], others[k - 1], states[k])
  }

  lemma {:induction false} HandledTrace(r: MultiDayRequest, ops: seq<Operation>) returns (states: seq<MultiDayRequest>)
    requires NoneForStays(ops)
    ensures Traced(states, ops) && states[0] == r
    ensures match HandledAll(r, ops)
            case Ok(last) => |states| == |ops| + 1 && states[|ops|] == last
            case Err(e) => |states| <= |ops| && Fails(states[|states| - 1], ops[|states| - 1], e)
  {
    hide Effect, Fails, Handled;
    if ops == [] {
      return [r];
    }
    var k := |ops| - 1;
    states := HandledTrace(r, ops[..k]);
    if HandledAll(r, ops[..k]).Ok? {
      OperationMeans(states[k], ops[k]);
      if Handled(states[k], ops[k]).Ok? {
        states := states + [Handled(states[k], ops[k]).value];
      }
    }
  }

  /** The first operation that names no stay, or one named before, decides the error. */
  ghost predicate SelectionFails(stays: seq<Stay>, ops: seq<Operation>, e: EditError) {
    exists k :: && 0 <= k < |ops| && NamesWrongly(stays, ops, k, e)
                && forall j, other :: 0 <= j < k ==> !NamesWrongly(stays, ops, j, other)
  }

  ghost predicate NamesWrongly(stays: seq<Stay>, ops: seq<Operation>, k: nat, e: EditError)
    requires k < |ops|
  {
    && ops[k].Selects()
    && if ops[k].stayIndex >= |stays| then e == StayNotFound
       else e == SelectorConflict && exists j :: 0 <= j < k && ops[j].Selects() && ops[j].stayIndex == ops[k].stayIndex
  }

  lemma {:induction false} SelectionFailsFirst(stays: seq<Stay>, ops: seq<Operation>)
    requires Resolved(stays, ops).Err?
    ensures SelectionFails(stays, ops, Resolved(stays, ops).error)
  {
    var k := |ops| - 1;
    var e := Resolved(stays, ops).error;
    var before := Resolved(stays, ops[..k]);
    ResolutionIsExact(stays, ops[..k]);
    if before.Err? {
      SelectionFailsFirst(stays, ops[..k]);
      hide Resolved, SortedPositions;
      var m :| && 0 <= m < k && NamesWrongly(stays, ops[..k], m, e)
               && forall j, other :: 0 <= j < m ==> !NamesWrongly(stays, ops[..k], j, other);
      forall j, other | 0 <= j <= m ensures NamesWrongly(stays, ops, j, other) <==> NamesWrongly(stays, ops[..k], j, other) {
        SameNames(stays, ops, k, j, other);
      }
    } else {
      PositionsPermute(stays);
      if ops[k].stayIndex < |stays| {
        ClaimedIsSelected(stays, ops[..k], before.value, ops[k].stayIndex);
        var j := SelectorFrom(ops[..k], ops[k].stayIndex);
        assert ops[j].Selects() && ops[j].stayIndex == ops[k].stayIndex;
      }
      assert NamesWrongly(stays, ops, k, e);
      hide Resolved, SortedPositions;
      forall j, other | 0 <= j < k ensures !NamesWrongly(stays, ops, j, other) {
        FitNames(stays, ops, k, j, other);
      }
    }
  }

  lemma SameNames(stays: seq<Stay>, ops: seq<Operation>, k: nat, j: nat, e: EditError)
    requires j < k <= |ops|
    ensures NamesWrongly(stays, ops, j, e) <==> NamesWrongly(stays, ops[..k], j, e)
  {
  }

  lemma FitNames(stays: seq<Stay>, ops: seq<Operation>, k: nat, j: nat, e: EditError)
    requires j < k <= |ops| && SelectorsFit(stays, ops[..k])
    ensures !NamesWrongly(stays, ops, j, e)
  {
    var some := ops[..k];
    if NamesWrongly(stays, ops, j, e) {
      SelectorIn(some, j);
      if ops[j].stayIndex < |stays| {
        var i :| 0 <= i < j && ops[i].Selects() && ops[i].stayIndex == ops[j].stayIndex;
        SelectorsApart(some, i, j);
      }
    }
  }

  /** The transfer's date is a day of the trip on which the stay changes, or had no transfer before the batch. */
  ghost predicate MayStay(request: MultiDayRequest, last: MultiDayRequest, t: Transfer) {
    (HasDay(last, t.date) && Changeover(last.stays, t.date)) || !HasTransfer(request, t.date)
  }

  lemma MayStayIsSurvival(request: MultiDayRequest, last: MultiDayRequest, t: Transfer)
    requires AllValid(last.stays) && NoSharedNight(last.stays)
    ensures MayStay(request, last, t) <==> Survives(last.days, last.stays, DatesBefore(request), t)
  {
    hide Changeover, AllValid, NoSharedNight, AnchorsOf, IsTransitionDay;
    TransitionIsChangeover(last.stays, t.date);
    TransferAtIsExact(request, t.date);
    TransferAtIsExact(last, t.date);
    hide HasDay, HasTransfer, Dates, TransferDates;
  }

  lemma {:induction false} SurvivingKept(request: MultiDayRequest, last: MultiDayRequest, transfers: seq<Transfer>)
    returns (lost: seq<Transfer>)
    requires AllValid(last.stays) && NoSharedNight(last.stays)
    ensures KeptInOrder(Surviving(last.days, last.stays, DatesBefore(request), transfers), transfers,
                        (t: Transfer) => MayStay(request, last, t))
    ensures KeptInOrder(lost, transfers, (t: Transfer) => !MayStay(request, last, t))
    ensures Orphaned(last.days, last.stays, DatesBefore(request), transfers) == TransferDates(lost)
  {
    hide AllValid, NoSharedNight, MayStay, Survives, KeptInOrder;
    if transfers == [] {
      NothingKept((t: Transfer) => MayStay(request, last, t));
      NothingKept((t: Transfer) => !MayStay(request, last, t));
      return [];
    }
    var k := |transfers| - 1;
    var before := SurvivingKept(request, last, transfers[..k]);
    MayStayIsSurvival(request, last, transfers[k]);
    KeptNext(Surviving(last.days, last.stays, DatesBefore(request), transfers[..k]), transfers,
             (t: Transfer) => MayStay(request, last, t));
    KeptNext(before, transfers, (t: Transfer) => !MayStay(request, last, t));
    lost := before + (if MayStay(request, last, transfers[k]) then [] else [transfers[k]]);
    assert TransferDates(before + [transfers[k]]) == TransferDates(before) + [transfers[k].date];
    assert before + [] == before;
    assert Orphaned(last.days, last.stays, DatesBefore(request), transfers[..k]) + []
        == Orphaned(last.days, last.stays, DatesBefore(request), transfers[..k]);
  }

  /**
   * A successful batch: the stays change first, then each other operation takes effect in turn, and of the
   * transfers then left those on dates that stopped being changeovers go and are reported.
   */
  lemma BatchMeans(request: MultiDayRequest, ops: seq<Operation>)
    returns (others: seq<Operation>, states: seq<MultiDayRequest>, kept: seq<nat>, added: seq<Operation>, lost: seq<Transfer>)
    requires request.Valid() && Applied(request, ops).Ok?
    ensures KeptInOrder(others, ops, (op: Operation) => !op.ForStays())
    ensures KeptInOrder(added, ops, (op: Operation) => op.AddStay?)
    ensures Traced(states, others) && |states| == |others| + 1
    ensures states[0] == request.(stays := states[0].stays) && MadeOf(request.stays, ops, kept, added, states[0].stays)
    ensures var last, outcome := states[|others|], Applied(request, ops).value;
            && outcome.request == last.(transfers := outcome.request.transfers) && outcome.request.Valid()
            && KeptInOrder(outcome.request.transfers, last.transfers, (t: Transfer) => MayStay(request, last, t))
            && KeptInOrder(lost, last.transfers, (t: Transfer) => !MayStay(request, last, t))
            && outcome.removedTransferDates == TransferDates(lost)
  {
    OtherOpsAreOthers(ops);
    OtherOpsKept(ops);
    ResolutionIsExact(request.stays, StayOps(ops));
    OverlapCheckIsExact(request.stays);
    var first := request.(stays := NewStays(request.stays, StayOps(ops)));
    others := OtherOps(ops);
    hide StayOps, OtherOps, NewStays, HandledAll, Resolved, Resolves, SelectorsFit, NoSharedNight, AllValid, NoOverlapsFound,
         Surviving, Orphaned, KeptInOrder, MadeOf, MayStay, Traced, DatesBefore;
    kept, added := StaysMean(request.stays, ops);
    states := HandledTrace(first, others);
    var last := states[|others|];
    OverlapCheckIsExact(last.stays);
    lost := SurvivingKept(request, last, last.transfers);
  }

  /** A failed batch: a wrong selector, an operation that fails where it stands, or an invalid trip in the end. */
  lemma BatchFails(request: MultiDayRequest, ops: seq<Operation>)
    returns (forStays: seq<Operation>, others: seq<Operation>, states: seq<MultiDayRequest>)
    requires Applied(request, ops).Err?
    ensures KeptInOrder(forStays, ops, (op: Operation) => op.ForStays())
    ensures KeptInOrder(others, ops, (op: Operation) => !op.ForStays())
    ensures var e := Applied(request, ops).error;
            || SelectionFails(request.stays, forStays, e)
            || (&& Traced(states, others) && states[0] == request.(stays := NewStays(request.stays, forStays))
                && SelectorsFit(request.stays, forStays)
                && if |states| <= |others| then Fails(states[|states| - 1], others[|states| - 1], e)
                   else e == EditInvalid && !ReconciledWith(DatesBefore(request), states[|others|]).Valid())
  {
    hide StayOps, OtherOps, NewStays, HandledAll, Resolved, Resolves, SelectorsFit, KeptInOrder, Traced, ReconciledWith,
         MultiDayRequest.Valid, Fails, SelectionFails, Orphaned, DatesBefore;
    OtherOpsAreOthers(ops);
    OtherOpsKept(ops);
    StayOpsKept(ops);
    forStays, others, states := StayOps(ops), OtherOps(ops), [];
    ResolutionIsExact(request.stays, forStays);
    if Resolved(request.stays, forStays).Err? {
      SelectionFailsFirst(request.stays, forStays);
    } else {
      states := HandledTrace(request.(stays := NewStays(request.stays, forStays)), others);
    }
  }
}
