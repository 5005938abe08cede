/** Wall-clock bounds and opening windows of the solver's request models. */
module TimeWindows {
  import opened Wrappers
  import opened Sequences

  const SECONDS_PER_DAY := 86400

  type Hour = h: int | 0 <= h < 24
  type Sixtieth = m: int | 0 <= m < 60

  /** A naive wall-clock time of whole seconds. */
  datatype Time = Time(hour: Hour, minute: Sixtieth, second: Sixtieth)

  const MIDNIGHT := Time(0, 0, 0)

  function ToSeconds(t: Time): (s: int)
    ensures 0 <= s < SECONDS_PER_DAY
  {
    t.hour * 3600 + t.minute * 60 + t.second
  }

  function ResolveDayBoundS(hour: int, explicitTime: Option<Time>): int {
    match explicitTime
    case Some(t) => ToSeconds(t)
    case None => hour * 3600
  }

  function SecondsToTime(s: int): Time {
    Time(s / 3600 % 24, s % 3600 / 60, s % 60)
  }

  /** Encoding seconds as a wall-clock time only loses the day: midnight at the end of the day reads 00:00. */
  lemma SecondsToTimeRoundTrip(s: int)
    ensures ToSeconds(SecondsToTime(s)) == s % SECONDS_PER_DAY
    ensures ToSeconds(SecondsToTime(s)) == s <==> 0 <= s < SECONDS_PER_DAY
  {
    var h, rem := s / 3600, s % 3600;
    assert s == 3600 * h + rem;
    assert rem / 60 * 60 + rem % 60 == rem;
    assert s % 60 == rem % 60;
    assert h == 24 * (h / 24) + h % 24;
  }

  lemma {:induction false} TimeRoundTrip(t: Time)
    ensures SecondsToTime(ToSeconds(t)) == t
  {
    var s := ToSeconds(t);
    assert s / 3600 == t.hour;
    assert s % 3600 == t.minute * 60 + t.second;
  }

  datatype Segment = Segment(open: int, close: int)

  predicate SegmentLe(a: Segment, b: Segment) {
    a.open < b.open || (a.open == b.open && a.close <= b.close)
  }

  /** Open/close segments of one place on one day. */
  datatype TimeWindow = TimeWindow(segments: seq<Segment>) {

    static function FromSegments(segments: seq<Segment>): TimeWindow {
      TimeWindow(SortBy(segments, (a, b) => SegmentLe(a, b)))
    }

    predicate Ordered() {
      forall i, j :: 0 <= i < j < |segments| ==> segments[i].open <= segments[j].open
    }

    function CloseS(): int
      requires segments != []
    {
      segments[|segments| - 1].close
    }

    function EarliestStart(arrival: int, visit: int): Option<int> {
      FirstFit(segments, arrival, visit)
    }

    /** A visit starting at `start` lies inside one segment. */
    predicate Fits(start: int, visit: int) {
      exists g :: g in segments && g.open <= start && start + visit <= g.close
    }
  }

  function FirstFit(segments: seq<Segment>, arrival: int, visit: int): Option<int> {
    if segments == [] then None
    else
      var start := if arrival >= segments[0].open then arrival else segments[0].open;
      if start + visit <= segments[0].close then Some(start) else FirstFit(segments[1..], arrival, visit)
  }

  /** The first segment rejects a visit only if it is not the one the visit fits in. */
  lemma LaterSegments(w: TimeWindow, arrival: int, visit: int, t: int)
    requires w.segments != [] && arrival <= t && w.Fits(t, visit)
    requires w.segments[0].close < visit + (if arrival >= w.segments[0].open then arrival else w.segments[0].open)
    ensures TimeWindow(w.segments[1..]).Fits(t, visit)
  {
    var h :| h in w.segments && h.open <= t && t + visit <= h.close;
    assert w.segments == [w.segments[0]] + w.segments[1..];
    assert h != w.segments[0];
  }

  /** What the first fit means on ordered segments: the minimum of all starts that fit. */
  lemma {:induction false} EarliestStartIsMinimum(w: TimeWindow, arrival: int, visit: int)
    requires w.Ordered()
    ensures match w.EarliestStart(arrival, visit)
            case Some(s) =>
              && arrival <= s && w.Fits(s, visit)
              && (forall t :: arrival <= t && w.Fits(t, visit) ==> s <= t)
            case None => forall t :: arrival <= t ==> !w.Fits(t, visit)
    decreases |w.segments|
  {
    if w.segments != [] {
      var g := w.segments[0];
      var rest := TimeWindow(w.segments[1..]);
      var start := if arrival >= g.open then arrival else g.open;
      if start + visit <= g.close {
        forall t | arrival <= t && w.Fits(t, visit) ensures start <= t {
          var h :| h in w.segments && h.open <= t && t + visit <= h.close;
          assert g.open <= h.open;
        }
      } else {
        EarliestStartIsMinimum(rest, arrival, visit);
        forall t | arrival <= t && w.Fits(t, visit) ensures rest.Fits(t, visit) {
          LaterSegments(w, arrival, visit, t);
        }
      }
    }
  }

  /** Arriving earlier never forces a later start. */
  lemma EarliestStartMonotone(w: TimeWindow, early: int, late: int, visit: int)
    requires w.Ordered() && early <= late && w.EarliestStart(late, visit).Some?
    ensures w.EarliestStart(early, visit).Some?
    ensures w.EarliestStart(early, visit).value <= w.EarliestStart(late, visit).value
  {
    EarliestStartIsMinimum(w, early, visit);
    EarliestStartIsMinimum(w, late, visit);
  }

  /** The deadline of a window is the closing time of a segment that no other segment opens after, the latest such one. */
  lemma CloseIsOfLastOpening(segments: seq<Segment>)
    requires segments != []
    ensures TimeWindow.FromSegments(segments).segments != []
    ensures exists g :: g in segments && TimeWindow.FromSegments(segments).CloseS() == g.close
                        && forall h :: h in segments ==> h.open < g.open || (h.open == g.open && h.close <= g.close)
  {
    var le := (a, b) => SegmentLe(a, b);
    SortBySorts(segments, le);
    var sorted := TimeWindow.FromSegments(segments).segments;
    assert sorted == SortBy(segments, le);
    SameMultisetSameElements(sorted, segments);
    var g := sorted[|sorted| - 1];
    assert g in sorted;
    forall h | h in segments ensures h.open < g.open || (h.open == g.open && h.close <= g.close) {
      var i :| 0 <= i < |sorted| && sorted[i] == h;
      assert i < |sorted| - 1 ==> le(sorted[i], g);
    }
  }

  /** `from_segments` accepts segments in any order and keeps exactly the same openings. */
  lemma FromSegmentsOrdered(segments: seq<Segment>)
    ensures TimeWindow.FromSegments(segments).Ordered()
    ensures |TimeWindow.FromSegments(segments).segments| == |segments|
    ensures forall start, visit ::
      TimeWindow.FromSegments(segments).Fits(start, visit) <==> TimeWindow(segments).Fits(start, visit)
    ensures forall g :: g in TimeWindow.FromSegments(segments).segments <==> g in segments
  {
    var le := (a, b) => SegmentLe(a, b);
    SortBySorts(segments, le);
    var w := TimeWindow.FromSegments(segments);
    assert w.segments == SortBy(segments, le);
    SameMultisetSameElements(w.segments, segments);
    forall i, j | 0 <= i < j < |w.segments| ensures w.segments[i].open <= w.segments[j].open {
      assert le(w.segments[i], w.segments[j]);
    }
  }
}
