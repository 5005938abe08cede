/** The two sides of a transfer day: windows, budgets and the requests their routes are solved with. */
module TransferDays {
  import opened Wrappers
  import opened TimeWindows
  import opened Scheduling
  import opened OpeningHours
  import opened RouteOptimizer
  import opened Accommodations
  import opened TripRequests
  import opened Partition

  function Min(a: int, b: int): int {
    if a <= b then a else b
  }

  function At(s: Stay): Place {
    Place(Some(s.lat), Some(s.lng))
  }

  /** Python's floor division by 60, never below zero. */
  function BudgetMin(startS: int, endS: int): int {
    Max(0, (endS - startS) / 60)
  }

  function BuildContext(transfer: Transfer, origin: Stay, destination: Stay, cfg: DayConfig): TransitionDayContext {
    var departureS, arrivalS := ToSeconds(transfer.departure), ToSeconds(transfer.arrival);
    var checkInS := if destination.checkInFrom.Some? then ToSeconds(destination.checkInFrom.value) else cfg.StartS();
    var checkOutS := if origin.checkOutBy.Some? then ToSeconds(origin.checkOutBy.value) else departureS;
    var preStart, preEnd := cfg.StartS(), Min(Min(departureS, cfg.EndS()), checkOutS);
    var postStart, postEnd := Max(Max(arrivalS, checkInS), cfg.StartS()), cfg.EndS();
    TransitionDayContext(transfer, origin, destination, preStart, preEnd, postStart, postEnd,
                         BudgetMin(preStart, preEnd), BudgetMin(postStart, postEnd))
  }

  /** Encodes an end bound so that the request validators accept it: the end of the day has no wall-clock time. */
  function EndBoundFields(endS: int): (int, Option<Time>) {
    if endS >= 24 * 3600 then (24, None) else (23, Some(SecondsToTime(endS)))
  }

  function PreRequest(mode: TransportMode, cfg: DayConfig, ctx: TransitionDayContext, ids: seq<Id>): OptimizeRequest {
    var bound := EndBoundFields(ctx.preEndS);
    OptimizeRequest(ids, mode, cfg.startHour, bound.0, cfg.startTime, bound.1, At(ctx.origin), At(ctx.origin), Some(cfg.date))
  }

  function PostRequest(mode: TransportMode, cfg: DayConfig, ctx: TransitionDayContext, ids: seq<Id>): OptimizeRequest {
    OptimizeRequest(ids, mode, cfg.startHour, cfg.endHour, Some(SecondsToTime(ctx.postStartS)), cfg.endTime,
                    At(ctx.destination), At(ctx.destination), Some(cfg.date))
  }

  /** The budget is the number of whole minutes between two bounds, and zero when they are out of order. */
  lemma BudgetIsWholeMinutes(startS: int, endS: int)
    ensures BudgetMin(startS, endS) > 0 <==> startS + 60 <= endS
    ensures startS <= endS ==> 60 * BudgetMin(startS, endS) <= endS - startS < 60 * BudgetMin(startS, endS) + 60
    ensures endS <= startS ==> BudgetMin(startS, endS) == 0
  {
    var q := (endS - startS) / 60;
    assert 60 * q <= endS - startS < 60 * q + 60;
  }

  /** An end bound within the day survives its encoding and is never the wall-clock midnight. */
  lemma EndBoundRoundTrip(endS: int)
    requires 0 < endS <= SECONDS_PER_DAY
    ensures var bound := EndBoundFields(endS);
            && ResolveDayBoundS(bound.0, bound.1) == endS
            && 1 <= bound.0 <= 24 && bound.1 != Some(MIDNIGHT) && (bound.0 == 24 ==> bound.1.None?)
  {
    hide SecondsToTime, ToSeconds;
    if endS < SECONDS_PER_DAY {
      DaytimeRoundTrip(endS);
    }
  }

  lemma DaytimeRoundTrip(s: int)
    requires 0 < s < SECONDS_PER_DAY
    ensures ToSeconds(SecondsToTime(s)) == s && SecondsToTime(s) != MIDNIGHT
  {
    SecondsToTimeRoundTrip(s);
    hide SecondsToTime;
    assert ToSeconds(MIDNIGHT) == 0;
  }

  function CheckOutBounds(origin: Stay): seq<int> {
    if origin.checkOutBy.Some? then [ToSeconds(origin.checkOutBy.value)] else []
  }

  function CheckInBounds(destination: Stay): seq<int> {
    if destination.checkInFrom.Some? then [ToSeconds(destination.checkInFrom.value)] else []
  }

  /** The bounds that end the PRE side: the departure, the end of the day and the check-out. */
  function PreEnds(transfer: Transfer, origin: Stay, cfg: DayConfig): seq<int> {
    [ToSeconds(transfer.departure), cfg.EndS()] + CheckOutBounds(origin)
  }

  /** The bounds that begin the POST side: the arrival, the start of the day and the check-in. */
  function PostStarts(transfer: Transfer, destination: Stay, cfg: DayConfig): seq<int> {
    [ToSeconds(transfer.arrival), cfg.StartS()] + CheckInBounds(destination)
  }

  predicate IsLeast(x: int, bounds: seq<int>) {
    x in bounds && forall b :: b in bounds ==> x <= b
  }

  predicate IsGreatest(x: int, bounds: seq<int>) {
    x in bounds && forall b :: b in bounds ==> b <= x
  }

  /** The PRE window runs from the start of the day to the first of its ends; the POST window from the last of its starts. */
  lemma ContextWindows(transfer: Transfer, origin: Stay, destination: Stay, cfg: DayConfig)
    ensures var ctx := BuildContext(transfer, origin, destination, cfg);
            && ctx.preStartS == cfg.StartS() && IsLeast(ctx.preEndS, PreEnds(transfer, origin, cfg))
            && IsGreatest(ctx.postStartS, PostStarts(transfer, destination, cfg)) && ctx.postEndS == cfg.EndS()
            && ctx.preBudgetMin == BudgetMin(ctx.preStartS, ctx.preEndS)
            && ctx.postBudgetMin == BudgetMin(ctx.postStartS, ctx.postEndS)
  {
    hide ToSeconds;
    var ctx := BuildContext(transfer, origin, destination, cfg);
    var ends, starts := PreEnds(transfer, origin, cfg), PostStarts(transfer, destination, cfg);
    assert ends[0] == ToSeconds(transfer.departure) && ends[1] == cfg.EndS();
    assert starts[0] == ToSeconds(transfer.arrival) && starts[1] == cfg.StartS();
    assert origin.checkOutBy.Some? ==> ends[2] == ToSeconds(origin.checkOutBy.value);
    assert destination.checkInFrom.Some? ==> starts[2] == ToSeconds(destination.checkInFrom.value);
  }

  /** Whenever a PRE request is built it is valid, round-trips from the origin, and its bounds decode to exactly the PRE window. */
  lemma PreRequestIsExact(mode: TransportMode, cfg: DayConfig, transfer: Transfer, origin: Stay, destination: Stay, ids: seq<Id>)
    requires cfg.Valid() && 1 <= |ids| <= 50
    requires BuildContext(transfer, origin, destination, cfg).preBudgetMin > 0
    ensures var ctx := BuildContext(transfer, origin, destination, cfg);
            var r := PreRequest(mode, cfg, ctx, ids);
            && r.Valid() && r.start == r.end == At(origin) && r.start.Given()
            && r.DayStartS() == ctx.preStartS == cfg.StartS()
            && r.DayEndS() == ctx.preEndS && IsLeast(r.DayEndS(), PreEnds(transfer, origin, cfg))
  {
    var ctx := BuildContext(transfer, origin, destination, cfg);
    assert ctx.origin == origin;
    ContextWindows(transfer, origin, destination, cfg);
    assert ctx.preEndS <= cfg.EndS() by {
      assert PreEnds(transfer, origin, cfg)[1] == cfg.EndS();
    }
    hide EndBoundFields, BudgetMin, BuildContext, PreEnds, IsLeast;
    BudgetIsWholeMinutes(ctx.preStartS, ctx.preEndS);
    EndBoundRoundTrip(ctx.preEndS);
  }

  /** Whenever a POST request is built it is valid, round-trips from the destination, and starts exactly with the POST window. */
  lemma PostRequestIsExact(mode: TransportMode, cfg: DayConfig, transfer: Transfer, origin: Stay, destination: Stay, ids: seq<Id>)
    requires cfg.Valid() && 1 <= |ids| <= 50
    requires BuildContext(transfer, origin, destination, cfg).postBudgetMin > 0
    ensures var ctx := BuildContext(transfer, origin, destination, cfg);
            var r := PostRequest(mode, cfg, ctx, ids);
            && r.Valid() && r.start == r.end == At(destination) && r.start.Given()
            && r.DayStartS() == ctx.postStartS && IsGreatest(r.DayStartS(), PostStarts(transfer, destination, cfg))
            && r.DayEndS() == ctx.postEndS == cfg.EndS()
  {
    var ctx := BuildContext(transfer, origin, destination, cfg);
    assert ctx.destination == destination;
    ContextWindows(transfer, origin, destination, cfg);
    assert ctx.postStartS >= cfg.StartS() by {
      assert PostStarts(transfer, destination, cfg)[1] == cfg.StartS();
    }
    hide SecondsToTime, BudgetMin, BuildContext, PostStarts, IsGreatest;
    BudgetIsWholeMinutes(ctx.postStartS, ctx.postEndS);
    SecondsToTimeRoundTrip(ctx.postStartS);
  }
}
