/** Place documents and the opening window of a place on the planned day. */
module OpeningHours {
  import opened Wrappers
  import opened Sequences
  import opened TimeWindows
  import opened Scheduling
  import opened Priorities

  /** A day of week with a clock time; Google counts Sunday as 0. */
  datatype PeriodPoint = PeriodPoint(day: Option<int>, hour: int, minute: int)

  datatype Period = Period(open: Option<PeriodPoint>, close: Option<PeriodPoint>)

  datatype PlaceDoc = PlaceDoc(
    id: Id,
    lat: Option<real>,
    lng: Option<real>,
    preferredHourFrom: Option<int>,
    preferredHourTo: Option<int>,
    visitDurationMin: Option<nat>,
    priority: Option<Priority>,
    periods: seq<Period>)
  {
    predicate HasCoordinates() {
      lat.Some? && lng.Some?
    }

    /** Python's `visit_duration_min or 30`: an absent or zero duration means half an hour. */
    function VisitMin(): nat {
      if visitDurationMin.GetOr(0) == 0 then 30 else visitDurationMin.value
    }
  }

  /** Google's day of week of a date given as its proleptic ordinal (1 is a Monday). */
  function GoogleWeekday(date: int): int {
    ((date + 6) % 7 + 1) % 7
  }

  /** The ordinal's remainder: Sunday is 0, and every next date is the next day of the week. */
  lemma GoogleWeekdayIsExact(date: int)
    ensures GoogleWeekday(date) == date % 7
    ensures GoogleWeekday(1) == 1 && GoogleWeekday(date + 1) == (GoogleWeekday(date) + 1) % 7
  {
    assert (date + 6) % 7 == (date - 1) % 7;
  }

  predicate OnDay(p: Period, weekday: int) {
    p.open.Some? && p.open.value.day == Some(weekday)
  }

  function PeriodOpens(p: Period): int
    requires p.open.Some?
  {
    p.open.value.hour * 3600 + p.open.value.minute * 60
  }

  /** When a period closes on the planned day: `None` without a closing time, midnight when it closes on another day. */
  function PeriodCloses(p: Period): Option<int>
    requires p.open.Some?
  {
    match p.close
    case None => None
    case Some(c) =>
      if c.day.Some? && c.day != p.open.value.day then Some(24 * 3600)
      else Some(c.hour * 3600 + c.minute * 60)
  }

  /** The bounds a visit must keep: preferred hours replace the bounds of the day. */
  function OpenS(doc: PlaceDoc, dayStart: int): int {
    if doc.preferredHourFrom.Some? then doc.preferredHourFrom.value * 3600 else dayStart
  }

  function CloseS(doc: PlaceDoc, dayEnd: int): int {
    if doc.preferredHourTo.Some? then doc.preferredHourTo.value * 3600 else dayEnd
  }

  /**
   * A visit of `visit` seconds from `start` keeps the preferred hours, or the bounds of the day where there are
   * none, and lies in one opening period of the weekday if the place has periods and the weekday is known.
   */
  predicate OpenFor(doc: PlaceDoc, dayStart: int, dayEnd: int, weekday: Option<int>, start: int, visit: int) {
    && (match doc.preferredHourFrom case Some(h) => 3600 * h <= start case None => dayStart <= start)
    && (match doc.preferredHourTo case Some(h) => start + visit <= 3600 * h case None => start + visit <= dayEnd)
    && (weekday.Some? && doc.periods != [] ==>
          exists p :: p in doc.periods && p.open.Some? && p.open.value.day == weekday && OpenDuring(p, start, visit))
  }

  /** A period without a closing time never closes that day; one that closes on another day closes at midnight. */
  predicate OpenDuring(p: Period, start: int, visit: int)
    requires p.open.Some?
  {
    && 3600 * p.open.value.hour + 60 * p.open.value.minute <= start
    && match p.close
       case None => true
       case Some(c) =>
         if c.day.Some? && c.day != p.open.value.day then start + visit <= 86400
         else start + visit <= 3600 * c.hour + 60 * c.minute
  }

  function Clip(p: Period, openS: int, closeS: int): Segment
    requires p.open.Some?
  {
    var close := PeriodCloses(p).GetOr(closeS);
    Segment(Max(openS, PeriodOpens(p)), if close <= closeS then close else closeS)
  }

  /** The non-empty clipped segments of the weekday's periods, in the order of the periods. */
  function DaySegments(periods: seq<Period>, weekday: int, openS: int, closeS: int): seq<Segment> {
    if periods == [] then []
    else
      var p := periods[|periods| - 1];
      var before := DaySegments(periods[..|periods| - 1], weekday, openS, closeS);
      if OnDay(p, weekday) && Clip(p, openS, closeS).open < Clip(p, openS, closeS).close
      then before + [Clip(p, openS, closeS)]
      else before
  }

  /** The window of a place, or `None` when it cannot be visited that day. */
  function Window(doc: PlaceDoc, dayStart: int, dayEnd: int, weekday: Option<int>): Option<TimeWindow> {
    var openS, closeS := OpenS(doc, dayStart), CloseS(doc, dayEnd);
    if weekday.Some? && doc.periods != [] then
      var segments := DaySegments(doc.periods, weekday.value, openS, closeS);
      if segments == [] then None else Some(TimeWindow.FromSegments(segments))
    else if closeS <= openS then None
    else Some(TimeWindow([Segment(openS, closeS)]))
  }

  method ParseTimeWindow(doc: PlaceDoc, dayStart: int, dayEnd: int, weekday: Option<int>)
    returns (window: Option<TimeWindow>)
    ensures window == Window(doc, dayStart, dayEnd, weekday)
  {
    var openS := if doc.preferredHourFrom.Some? then doc.preferredHourFrom.value * 3600 else dayStart;
    var closeS := if doc.preferredHourTo.Some? then doc.preferredHourTo.value * 3600 else dayEnd;
    if weekday.Some? && doc.periods != [] {
      var segments := [];
      for i := 0 to |doc.periods|
        invariant segments == DaySegments(doc.periods[..i], weekday.value, openS, closeS)
      {
        assert doc.periods[..i + 1][..i] == doc.periods[..i];
        var p := doc.periods[i];
        if OnDay(p, weekday.value) {
          var segOpen := Max(openS, p.open.value.hour * 3600 + p.open.value.minute * 60);
          var segClose := closeS;
          if p.close.Some? {
            var c := p.close.value;
            var ohClose := c.hour * 3600 + c.minute * 60;
            if c.day.Some? && c.day != p.open.value.day {
              ohClose := 24 * 3600;  // closes past midnight: open until the end of the planning day
            }
            segClose := if ohClose <= closeS then ohClose else closeS;
          }
          if segClose > segOpen {
            segments := segments + [Segment(segOpen, segClose)];
          }
        }
      }
      assert doc.periods[..|doc.periods|] == doc.periods;
      return if segments == [] then None else Some(TimeWindow.FromSegments(segments));
    }
    return if closeS <= openS then None else Some(TimeWindow([Segment(openS, closeS)]));
  }

  lemma {:induction false} DaySegmentsFit(periods: seq<Period>, weekday: int, openS: int, closeS: int, start: int, visit: int)
    requires visit > 0
    ensures TimeWindow(DaySegments(periods, weekday, openS, closeS)).Fits(start, visit) <==>
            && openS <= start && start + visit <= closeS
            && exists p :: p in periods && OnDay(p, weekday) && OpenDuring(p, start, visit)
  {
    var w := TimeWindow(DaySegments(periods, weekday, openS, closeS));
    if periods != [] {
      var k := |periods| - 1;
      var p := periods[k];
      var before := TimeWindow(DaySegments(periods[..k], weekday, openS, closeS));
      DaySegmentsFit(periods[..k], weekday, openS, closeS, start, visit);
      assert periods == periods[..k] + [p];
      assert w.Fits(start, visit) <==>
        before.Fits(start, visit) || (OnDay(p, weekday) && openS <= start && start + visit <= closeS
                                      && OpenDuring(p, start, visit)) by {
        ClipFits(before.segments, p, weekday, openS, closeS, start, visit);
      }
    }
  }

  lemma ClipFits(before: seq<Segment>, p: Period, weekday: int, openS: int, closeS: int, start: int, visit: int)
    requires visit > 0
    ensures var grown := if OnDay(p, weekday) && Clip(p, openS, closeS).open < Clip(p, openS, closeS).close
                         then before + [Clip(p, openS, closeS)] else before;
            TimeWindow(grown).Fits(start, visit) <==>
            || TimeWindow(before).Fits(start, visit)
            || (OnDay(p, weekday) && openS <= start && start + visit <= closeS && OpenDuring(p, start, visit))
  {
    if OnDay(p, weekday) {
      var g := Clip(p, openS, closeS);
      var grown := before + [g];
      assert forall h :: h in grown <==> h in before || h == g;
      assert g.open <= start && start + visit <= g.close
         <==> openS <= start && start + visit <= closeS && OpenDuring(p, start, visit);
    }
  }

  /** The window admits exactly the visits that keep the preferred hours and one opening period of the weekday. */
  lemma WindowIsExact(doc: PlaceDoc, dayStart: int, dayEnd: int, weekday: Option<int>, start: int, visit: int)
    requires visit > 0
    ensures OpenFor(doc, dayStart, dayEnd, weekday, start, visit) <==>
            && Window(doc, dayStart, dayEnd, weekday).Some?
            && Window(doc, dayStart, dayEnd, weekday).value.Fits(start, visit)
  {
    var openS, closeS := OpenS(doc, dayStart), CloseS(doc, dayEnd);
    if weekday.Some? && doc.periods != [] {
      var segments := DaySegments(doc.periods, weekday.value, openS, closeS);
      DaySegmentsFit(doc.periods, weekday.value, openS, closeS, start, visit);
      FromSegmentsOrdered(segments);
    } else if openS < closeS {
      var g := Segment(openS, closeS);
      assert TimeWindow([g]).Fits(start, visit) <==> g.open <= start && start + visit <= g.close by {
        assert forall h :: h in [g] <==> h == g;
      }
    }
  }

  lemma {:induction false} DaySegmentsOpen(periods: seq<Period>, weekday: int, openS: int, closeS: int)
    ensures forall g :: g in DaySegments(periods, weekday, openS, closeS) ==> g.open < g.close
  {
    if periods != [] {
      DaySegmentsOpen(periods[..|periods| - 1], weekday, openS, closeS);
    }
  }

  /** A place has a window exactly when some visit, however short, keeps its hours that day. */
  lemma WindowWhenOpen(doc: PlaceDoc, dayStart: int, dayEnd: int, weekday: Option<int>)
    ensures Window(doc, dayStart, dayEnd, weekday).Some? <==>
            exists start :: OpenFor(doc, dayStart, dayEnd, weekday, start, 1)
  {
    forall start | OpenFor(doc, dayStart, dayEnd, weekday, start, 1) ensures Window(doc, dayStart, dayEnd, weekday).Some? {
      WindowIsExact(doc, dayStart, dayEnd, weekday, start, 1);
    }
    if Window(doc, dayStart, dayEnd, weekday).Some? {
      var w := Window(doc, dayStart, dayEnd, weekday).value;
      WindowIsUsable(doc, dayStart, dayEnd, weekday);
      var g := w.segments[0];
      assert g.open < g.close by {
        if weekday.Some? && doc.periods != [] {
          var segments := DaySegments(doc.periods, weekday.value, OpenS(doc, dayStart), CloseS(doc, dayEnd));
          FromSegmentsOrdered(segments);
          DaySegmentsOpen(doc.periods, weekday.value, OpenS(doc, dayStart), CloseS(doc, dayEnd));
          assert g in w.segments;
        }
      }
      assert g in w.segments && w.Fits(g.open, 1);
      WindowIsExact(doc, dayStart, dayEnd, weekday, g.open, 1);
    }
  }

  lemma {:induction false} DaySegmentsClose(periods: seq<Period>, weekday: int, openS: int, closeS: int)
    ensures forall g :: g in DaySegments(periods, weekday, openS, closeS) ==> g.close <= closeS
  {
    if periods != [] {
      DaySegmentsClose(periods[..|periods| - 1], weekday, openS, closeS);
    }
  }

  /** Windows are ordered, non-empty and close by the place's own bound. */
  lemma WindowIsUsable(doc: PlaceDoc, dayStart: int, dayEnd: int, weekday: Option<int>)
    requires Window(doc, dayStart, dayEnd, weekday).Some?
    ensures var w := Window(doc, dayStart, dayEnd, weekday).value;
            && w.Ordered() && w.segments != [] && w.CloseS() <= CloseS(doc, dayEnd)
            && forall g :: g in w.segments ==> g.close <= CloseS(doc, dayEnd)
  {
    if weekday.Some? && doc.periods != [] {
      var openS, closeS := OpenS(doc, dayStart), CloseS(doc, dayEnd);
      var segments := DaySegments(doc.periods, weekday.value, openS, closeS);
      FromSegmentsOrdered(segments);
      DaySegmentsClose(doc.periods, weekday.value, openS, closeS);
    }
  }
}
