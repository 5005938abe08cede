/** Editing a stored trip: read, check, apply, re-plan, and compare-and-set. */
module TripEditor {
  import opened Wrappers
  import opened TripRequests
  import opened TripPlanner
  import opened Reconcile
  import opened ApplyEdits
  import opened TripStore

  datatype EditFailure =
    | NoSuchTrip
    | UnsupportedPlanType
    | StaleRevision
    | BadOperations(error: EditError)
    | OptimizerFailed
    | TripDeleted
    | PersistenceFailed

  /** The planner as the editor sees it: a response for a request, or a failure. */
  type Planner = MultiDayRequest -> Option<MultiDayResponse>

  /** The batch model's own limits. */
  predicate ValidBatch(ops: seq<Operation>) {
    1 <= |ops| <= 40 && forall op :: op in ops ==> op.WellFormed()
  }

  /** The check after reading: the trip exists, is a multi-day trip, and is at the expected revision. */
  function Readable(read: Option<TripDetail>, expected: int): (r: Result<TripDetail, EditFailure>)
    ensures r.Ok? ==> read == Some(r.value) && r.value.snapshot.MultiDay? && r.value.revision == expected
  {
    if read.None? then Err(NoSuchTrip)
    else if !read.value.snapshot.MultiDay? then Err(UnsupportedPlanType)
    else if read.value.revision != expected then Err(StaleRevision)
    else Ok(read.value)
  }

  /** What the editor wants to store, computed from what it read. */
  function EditedSnapshot(base: Snapshot, ops: seq<Operation>, plan: Planner): Result<Snapshot, EditFailure>
    requires base.MultiDay?
  {
    match Applied(base.request, ops)
    case Err(e) => Err(BadOperations(e))
    case Ok(outcome) =>
      match plan(outcome.request)
      case None => Err(OptimizerFailed)
      case Some(response) => Ok(MultiDay(base.name, outcome.request, response))
  }

  /** How the editor reports the outcome of its write; a conflict on a vanished trip is a deletion. */
  function WriteOutcome(written: Result<Option<TripDetail>, StoreError>, stillThere: bool): Result<TripDetail, EditFailure> {
    match written
    case Ok(Some(detail)) => Ok(detail)
    case Ok(None) => Err(TripDeleted)
    case Err(ConcurrencyConflict) => Err(if stillThere then StaleRevision else TripDeleted)
    case Err(_) => Err(PersistenceFailed)
  }

  /** An edit that nothing interleaves with. */
  function EditAlone(store: Store, id: TripId, ops: seq<Operation>, expected: int, plan: Planner)
    : (Store, Result<TripDetail, EditFailure>)
  {
    match Readable(Details(store, id), expected)
    case Err(e) => (store, Err(e))
    case Ok(base) =>
      match EditedSnapshot(base.snapshot, ops, plan)
      case Err(e) => (store, Err(e))
      case Ok(snapshot) =>
        var written := UpdateTx(store, id, SaveRequest(snapshot, Some(expected)), ORCHESTRATOR);
        (written.0, WriteOutcome(written.1, id in written.0.trips))
  }

  method Apply(trips: TripRepository, id: TripId, ops: seq<Operation>, expected: int, plan: Planner)
    returns (result: Result<TripDetail, EditFailure>)
    modifies trips
    ensures (trips.Tables(), result) == EditAlone(old(trips.Tables()), id, ops, expected, plan)
  {
    var read := trips.Get(id);
    var readable := Readable(read, expected);
    if readable.Err? {
      return Err(readable.error);
    }
    var base := readable.value.snapshot;
    var applied := ApplyOperations(base.request, ops);
    if applied.Err? {
      return Err(BadOperations(applied.error));
    }
    var response := plan(applied.value.request);
    if response.None? {
      return Err(OptimizerFailed);
    }
    var snapshot := MultiDay(base.name, applied.value.request, response.value);
    assert Ok(snapshot) == EditedSnapshot(base, ops, plan);
    hide Applied;
    var written := trips.Update(id, SaveRequest(snapshot, Some(expected)), ORCHESTRATOR);
    match written {
      case Ok(Some(detail)) => result := Ok(detail);
      case Ok(None) => result := Err(TripDeleted);
      case Err(error) =>
        if error == ConcurrencyConflict {
          var again := trips.Get(id);
          result := Err(if again.None? then TripDeleted else StaleRevision);
        } else {
          result := Err(PersistenceFailed);
        }
    }
  }

  /** Nothing is saved unless everything succeeds, and then one revision at most. */
  lemma EditIsAllOrNothing(store: Store, id: TripId, ops: seq<Operation>, expected: int, plan: Planner)
    ensures var (after, result) := EditAlone(store, id, ops, expected, plan);
            && (result.Err? ==> after == store)
            && (result.Ok? ==>
                  && id in store.trips && store.trips[id].revision == expected && store.trips[id].snapshot.MultiDay?
                  && result.value.snapshot.MultiDay?
                  && Applied(store.trips[id].snapshot.request, ops).Ok?
                  && result.value.snapshot.request == Applied(store.trips[id].snapshot.request, ops).value.request
                  && Details(after, id) == Some(result.value)
                  && if result.value.snapshot == store.trips[id].snapshot then after == store
                     else && result.value.revision == expected + 1
                          && after.revisions == store.revisions[(id, expected + 1) :=
                               RevisionRow(ORCHESTRATOR, None, result.value.snapshot)])
  {
    hide Applied;
  }
}
