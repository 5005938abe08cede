/** The multi-day request and its validators. */
module TripRequests {
  import opened Wrappers
  import opened Sequences
  import opened TimeWindows
  import opened Scheduling
  import opened RouteOptimizer
  import opened Accommodations

  /** A candidate day of a place with optional preferred hours. */
  datatype DaySlot = DaySlot(dayIndex: nat, hourFrom: Option<int>, hourTo: Option<int>)

  /** No slot: any day; one slot: pinned to that day; more: one of those days. */
  datatype PlacePreference = PlacePreference(placeId: Id, slots: seq<DaySlot>)

  datatype DayConfig = DayConfig(
    date: int, startHour: int, endHour: int, startTime: Option<Time>, endTime: Option<Time>, start: Place, end: Place)
  {
    predicate Valid() {
      ValidDay(startHour, endHour, startTime, endTime) && start.Valid() && end.Valid()
    }

    function StartS(): int { ResolveDayBoundS(startHour, startTime) }
    function EndS(): int { ResolveDayBoundS(endHour, endTime) }
  }

  /** A same-day journey between two stays at fixed times. */
  datatype Transfer = Transfer(date: int, departure: Time, arrival: Time, caption: Option<string>) {
    predicate Valid() {
      ToSeconds(departure) < ToSeconds(arrival)
    }
  }

  function Dates(days: seq<DayConfig>): seq<int> {
    seq(|days|, i requires 0 <= i < |days| => days[i].date)
  }

  function PlaceIds(places: seq<PlacePreference>): seq<Id> {
    seq(|places|, i requires 0 <= i < |places| => places[i].placeId)
  }

  function TransferDates(transfers: seq<Transfer>): seq<int> {
    seq(|transfers|, i requires 0 <= i < |transfers| => transfers[i].date)
  }

  datatype MultiDayRequest = MultiDayRequest(
    days: seq<DayConfig>,
    places: seq<PlacePreference>,
    transportMode: TransportMode,
    start: Place,
    end: Place,
    stays: seq<Stay>,
    transfers: seq<Transfer>)
  {
    predicate ValidDays() {
      1 <= |days| <= 31 && (forall d :: d in days ==> d.Valid()) && Distinct(Dates(days))
    }

    predicate ValidPlaces() {
      && 2 <= |places| <= 50
      && (forall p :: p in places ==> forall s :: s in p.slots ==> s.dayIndex < |days|)
      && Distinct(PlaceIds(places))
    }

    predicate ValidStays() {
      AllValid(stays) && NoOverlapsFound(stays)
    }

    /** Transfers have valid times, distinct dates, lie on transition days of the trip, and own their day's anchors. */
    predicate ValidTransfers() {
      && (forall t :: t in transfers ==> t.Valid())
      && Distinct(TransferDates(transfers))
      && (forall t :: t in transfers ==> t.date in Dates(days) && IsTransitionDay(AnchorsOf(stays, t.date)))
      && (forall d, t :: d in days && t in transfers && d.date == t.date ==> d.start.lat.None? && d.end.lat.None?)
    }

    predicate Valid() {
      && ValidDays() && ValidPlaces() && ValidStays() && ValidTransfers()
      && transportMode != TRANSIT
      && start.Valid() && end.Valid()
    }
  }
}
