/** Lodging stays: overlap validation and the anchors a stay gives to a day. Dates are day ordinals. */
module Accommodations {
  import opened Wrappers
  import opened Sequences
  import opened TimeWindows

  /** A stay covers the nights of the half-open interval from check-in to check-out. */
  datatype Stay = Stay(
    name: string,
    lat: real,
    lng: real,
    checkIn: int,
    checkOut: int,
    checkInFrom: Option<Time>,
    checkOutBy: Option<Time>)
  {
    /** The stay model's own validator. */
    predicate Valid() {
      checkIn < checkOut
    }

    predicate Covers(night: int) {
      checkIn <= night < checkOut
    }
  }

  predicate CheckInLe(a: Stay, b: Stay) {
    a.checkIn <= b.checkIn
  }

  function ByCheckIn(stays: seq<Stay>): seq<Stay> {
    SortBy(stays, (a, b) => CheckInLe(a, b))
  }

  /** No two consecutive stays overlap. */
  predicate NeighboursApart(ordered: seq<Stay>) {
    forall i :: 1 <= i < |ordered| ==> ordered[i - 1].checkOut <= ordered[i].checkIn
  }

  /** What the overlap validator accepts: consecutive stays in check-in order. */
  predicate NoOverlapsFound(stays: seq<Stay>) {
    NeighboursApart(ByCheckIn(stays))
  }

  method ValidateNoStayOverlaps(stays: seq<Stay>) returns (ok: bool)
    ensures ok == NoOverlapsFound(stays)
  {
    var ordered := ByCheckIn(stays);
    if ordered == [] {
      return true;
    }
    for i := 1 to |ordered|
      invariant forall k :: 1 <= k < i ==> ordered[k - 1].checkOut <= ordered[k].checkIn
    {
      if ordered[i].checkIn < ordered[i - 1].checkOut {
        return false;
      }
    }
    return true;
  }

  predicate AllValid(stays: seq<Stay>) {
    forall s :: s in stays ==> s.Valid()
  }

  /** No night belongs to two stays of the list. */
  ghost predicate NoSharedNight(stays: seq<Stay>) {
    forall i, j, night :: 0 <= i < j < |stays| && stays[i].Covers(night) ==> !stays[j].Covers(night)
  }

  /** In check-in order, stays whose neighbours are apart are all apart. */
  lemma {:induction false} NeighboursSpread(ordered: seq<Stay>, i: nat, j: nat)
    requires AllValid(ordered) && NeighboursApart(ordered)
    requires i < j < |ordered|
    ensures ordered[i].checkOut <= ordered[j].checkIn
    decreases j - i
  {
    if i + 1 < j {
      NeighboursSpread(ordered, i + 1, j);
      assert ordered[i + 1].Valid();
    }
  }

  /** At most one stay, counted with repetition, covers any night. */
  ghost predicate NightsUnique(stays: multiset<Stay>) {
    && (forall s, t, night :: s in stays && t in stays && s.Covers(night) && t.Covers(night) ==> s == t)
    && (forall s, night :: s in stays && s.Covers(night) ==> stays[s] <= 1)
  }

  /** Sharing no night does not depend on the order of the list. */
  lemma NoSharedNightIsUnordered(stays: seq<Stay>)
    requires AllValid(stays)
    ensures NoSharedNight(stays) <==> NightsUnique(multiset(stays))
  {
    if NoSharedNight(stays) {
      forall s, t, night | s in multiset(stays) && t in multiset(stays) && s.Covers(night) && t.Covers(night)
        ensures s == t
      {
        var i :| 0 <= i < |stays| && stays[i] == s;
        var j :| 0 <= j < |stays| && stays[j] == t;
      }
      forall i, j | 0 <= i < j < |stays| ensures stays[i] != stays[j] {
        assert stays[i].Valid() && stays[i].Covers(stays[i].checkIn);
      }
      forall s ensures multiset(stays)[s] <= 1 {
        DistinctCount(stays, s);
      }
    }
    if NightsUnique(multiset(stays)) {
      forall i, j, night | 0 <= i < j < |stays| && stays[i].Covers(night) ensures !stays[j].Covers(night) {
        if stays[j].Covers(night) {
          var s := stays[i];
          assert s in multiset(stays) && stays[j] in multiset(stays);
          assert stays[j] == s;
          TwiceCounts(stays, i, j);
        }
      }
    }
  }

  lemma TwiceCounts(stays: seq<Stay>, i: nat, j: nat)
    requires i < j < |stays| && stays[i] == stays[j]
    ensures multiset(stays)[stays[i]] >= 2
  {
    assert stays == stays[..j] + [stays[j]] + stays[j + 1..];
    assert stays[..j] == stays[..i] + [stays[i]] + stays[i + 1..j];
  }

  /** Checking neighbours in check-in order decides exactly whether two stays share a night. */
  lemma OverlapCheckIsExact(stays: seq<Stay>)
    requires AllValid(stays)
    ensures NoOverlapsFound(stays) <==> NoSharedNight(stays)
  {
    var le := (a, b) => CheckInLe(a, b);
    var ordered := ByCheckIn(stays);
    SortBySorts(stays, le);
    assert ordered == SortBy(stays, le);
    SameMultisetSameElements(ordered, stays);
    NoSharedNightIsUnordered(stays);
    NoSharedNightIsUnordered(ordered);
    if NeighboursApart(ordered) {
      forall i, j, night | 0 <= i < j < |ordered| && ordered[i].Covers(night) ensures !ordered[j].Covers(night) {
        NeighboursSpread(ordered, i, j);
      }
    }
    if NoSharedNight(ordered) {
      forall i | 1 <= i < |ordered| ensures ordered[i - 1].checkOut <= ordered[i].checkIn {
        assert le(ordered[i - 1], ordered[i]);
        assert ordered[i].Valid() && ordered[i].Covers(ordered[i].checkIn);
        assert !ordered[i - 1].Covers(ordered[i].checkIn);
      }
    }
  }

  // ---------------------------------------------------------------------------------------
  // Day anchors
  // ---------------------------------------------------------------------------------------

  /** The stay woken up in and the stay slept in, as positions in the list: identity is position. */
  datatype DayAnchors = DayAnchors(start: Option<nat>, end: Option<nat>)

  predicate WakesUpIn(s: Stay, day: int) {
    s.checkIn < day <= s.checkOut
  }

  datatype Side = Morning | Night

  predicate Hosts(s: Stay, side: Side, day: int) {
    match side
    case Morning => WakesUpIn(s, day)
    case Night => s.Covers(day)
  }

  function FirstFrom(stays: seq<Stay>, side: Side, day: int, from: nat): Option<nat>
    decreases |stays| - from
  {
    if from >= |stays| then None
    else if Hosts(stays[from], side, day) then Some(from)
    else FirstFrom(stays, side, day, from + 1)
  }

  function AnchorsOf(stays: seq<Stay>, day: int): DayAnchors {
    DayAnchors(FirstFrom(stays, Morning, day, 0), FirstFrom(stays, Night, day, 0))
  }

  method ResolveDayAnchors(dates: seq<int>, stays: seq<Stay>) returns (result: seq<DayAnchors>)
    ensures |result| == |dates|
    ensures forall i :: 0 <= i < |dates| ==> result[i] == AnchorsOf(stays, dates[i])
  {
    result := [];
    for i := 0 to |dates|
      invariant |result| == i
      invariant forall k :: 0 <= k < i ==> result[k] == AnchorsOf(stays, dates[k])
    {
      result := result + [AnchorsOf(stays, dates[i])];
    }
  }

  /** Start and end resolve to two different stays. */
  predicate IsTransitionDay(a: DayAnchors) {
    a.start.Some? && a.end.Some? && a.start != a.end
  }

  lemma {:induction false} FirstFromIsFirst(stays: seq<Stay>, side: Side, day: int, from: nat)
    requires from <= |stays|
    ensures match FirstFrom(stays, side, day, from)
            case Some(i) =>
              from <= i < |stays| && Hosts(stays[i], side, day) && forall k :: from <= k < i ==> !Hosts(stays[k], side, day)
            case None => forall k :: from <= k < |stays| ==> !Hosts(stays[k], side, day)
    decreases |stays| - from
  {
    if from < |stays| && !Hosts(stays[from], side, day) {
      FirstFromIsFirst(stays, side, day, from + 1);
    }
  }

  lemma AnchorsAreFirst(stays: seq<Stay>, day: int)
    ensures match AnchorsOf(stays, day).start
            case Some(i) => i < |stays| && WakesUpIn(stays[i], day)
            case None => forall k :: 0 <= k < |stays| ==> !WakesUpIn(stays[k], day)
    ensures match AnchorsOf(stays, day).end
            case Some(i) => i < |stays| && stays[i].Covers(day)
            case None => forall k :: 0 <= k < |stays| ==> !stays[k].Covers(day)
  {
    FirstFromIsFirst(stays, Morning, day, 0);
    FirstFromIsFirst(stays, Night, day, 0);
    forall k | 0 <= k < |stays|
      ensures Hosts(stays[k], Morning, day) == WakesUpIn(stays[k], day)
      ensures Hosts(stays[k], Night, day) == stays[k].Covers(day)
    {
    }
  }

  /** Without shared nights each anchor is the only candidate, so the order of the list does not matter. */
  lemma AnchorsAreUnique(stays: seq<Stay>, day: int)
    requires NoSharedNight(stays)
    ensures forall i :: 0 <= i < |stays| ==> (AnchorsOf(stays, day).start == Some(i) <==> WakesUpIn(stays[i], day))
    ensures forall i :: 0 <= i < |stays| ==> (AnchorsOf(stays, day).end == Some(i) <==> stays[i].Covers(day))
  {
    AnchorsAreFirst(stays, day);
    forall i, j | 0 <= i < j < |stays| ensures !(WakesUpIn(stays[i], day) && WakesUpIn(stays[j], day)) {
      assert WakesUpIn(stays[i], day) ==> stays[i].Covers(day - 1);
      assert WakesUpIn(stays[j], day) ==> stays[j].Covers(day - 1);
    }
  }

  /** One stay checks out and one checks in on that date. */
  ghost predicate Changeover(stays: seq<Stay>, day: int) {
    exists i, j :: 0 <= i < |stays| && 0 <= j < |stays| && stays[i].checkOut == day && stays[j].checkIn == day
  }

  /** A day is a transition day iff one stay checks out and another checks in on that date. */
  lemma TransitionIsChangeover(stays: seq<Stay>, day: int)
    requires AllValid(stays) && NoSharedNight(stays)
    ensures IsTransitionDay(AnchorsOf(stays, day)) <==> Changeover(stays, day)
  {
    AnchorsAreUnique(stays, day);
    AnchorsAreFirst(stays, day);
    var a := AnchorsOf(stays, day);
    if IsTransitionDay(a) {
      var i, j := a.start.value, a.end.value;
      assert stays[i].Covers(day - 1) && stays[j].Covers(day);
      assert a.end != Some(i) && a.start != Some(j);
      assert !stays[i].Covers(day) && !WakesUpIn(stays[j], day);
      assert stays[i].checkOut == day && stays[j].checkIn == day;
    }
    forall i, j | && 0 <= i < |stays| && 0 <= j < |stays|
                  && stays[i].checkOut == day && stays[j].checkIn == day
      ensures IsTransitionDay(a)
    {
      assert stays[i].Valid() && stays[j].Valid();
      assert a.start == Some(i) && a.end == Some(j);
    }
  }

  /** The stays at a day's anchors do not depend on the order in which the stays are listed. */
  lemma AnchorsIgnoreListOrder(a: seq<Stay>, b: seq<Stay>, day: int)
    requires AllValid(a) && NoSharedNight(a) && multiset(a) == multiset(b)
    ensures StayAt(a, AnchorsOf(a, day).start) == StayAt(b, AnchorsOf(b, day).start)
    ensures StayAt(a, AnchorsOf(a, day).end) == StayAt(b, AnchorsOf(b, day).end)
    ensures IsTransitionDay(AnchorsOf(a, day)) <==> IsTransitionDay(AnchorsOf(b, day))
  {
    SameMultisetSameElements(a, b);
    NoSharedNightIsUnordered(a);
    NoSharedNightIsUnordered(b);
    OneAnchorCarriesOver(a, b, day);
    OneAnchorCarriesOver(b, a, day);
    TransitionIsChangeover(a, day);
    TransitionIsChangeover(b, day);
    ChangeoverCarriesOver(a, b, day);
    ChangeoverCarriesOver(b, a, day);
  }

  function StayAt(stays: seq<Stay>, i: Option<nat>): Option<Stay> {
    if i.Some? && i.value < |stays| then Some(stays[i.value]) else None
  }

  lemma OneAnchorCarriesOver(a: seq<Stay>, b: seq<Stay>, day: int)
    requires NoSharedNight(a) && NoSharedNight(b) && forall s :: s in a ==> s in b
    ensures AnchorsOf(a, day).start.Some? ==>
              StayAt(a, AnchorsOf(a, day).start) == StayAt(b, AnchorsOf(b, day).start)
    ensures AnchorsOf(a, day).end.Some? ==>
              StayAt(a, AnchorsOf(a, day).end) == StayAt(b, AnchorsOf(b, day).end)
  {
    AnchorsAreFirst(a, day);
    AnchorsAreUnique(b, day);
    var x := AnchorsOf(a, day);
    if x.start.Some? {
      assert a[x.start.value] in b;
      var i :| 0 <= i < |b| && b[i] == a[x.start.value];
      assert AnchorsOf(b, day).start == Some(i);
    }
    if x.end.Some? {
      assert a[x.end.value] in b;
      var i :| 0 <= i < |b| && b[i] == a[x.end.value];
      assert AnchorsOf(b, day).end == Some(i);
    }
  }

  lemma ChangeoverCarriesOver(a: seq<Stay>, b: seq<Stay>, day: int)
    requires forall s :: s in a ==> s in b
    ensures Changeover(a, day) ==> Changeover(b, day)
  {
    if Changeover(a, day) {
      var i, j :| 0 <= i < |a| && 0 <= j < |a| && a[i].checkOut == day && a[j].checkIn == day;
      assert a[i] in b && a[j] in b;
      var k :| 0 <= k < |b| && b[k] == a[i];
      var l :| 0 <= l < |b| && b[l] == a[j];
    }
  }
}
