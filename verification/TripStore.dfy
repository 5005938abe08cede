/** The persistence boundary of trips: a current row per trip and an immutable row per revision. */
module TripStore {
  import opened Wrappers
  import opened RouteOptimizer
  import opened TripRequests
  import opened TripPlanner

  type TripId = string

  datatype PlanType = SINGLE_DAY | MULTI_DAY

  /** What a revision stores; two snapshots have the same hash exactly when they are equal. */
  datatype Snapshot =
    | SingleDay(name: string, date: int, single: OptimizeRequest, singleResponse: OptimizeResponse)
    | MultiDay(name: string, request: MultiDayRequest, response: MultiDayResponse)
  {
    function Plan(): PlanType {
      if SingleDay? then SINGLE_DAY else MULTI_DAY
    }
  }

  datatype Source = CREATED | MANUAL | ORCHESTRATOR | REVERT | MIGRATION

  datatype TripRow = TripRow(planType: PlanType, revision: int, snapshot: Snapshot)

  datatype RevisionRow = RevisionRow(source: Source, restoredFrom: Option<int>, snapshot: Snapshot)

  type RevisionKey = (TripId, int)

  /** The two tables. */
  datatype Store = Store(trips: map<TripId, TripRow>, revisions: map<RevisionKey, RevisionRow>)

  datatype SaveRequest = SaveRequest(snapshot: Snapshot, expectedRevision: Option<int>)

  datatype TripDetail = TripDetail(id: TripId, revision: int, snapshot: Snapshot)

  datatype StoreError =
    | TripNotFound
    | PlanTypeConflict
    | MissingExpectedRevision
    | ConcurrencyConflict
    | RevisionAlreadyCurrent
    | RevisionNotFound
    | PrimaryKeyViolated

  // ---------------------------------------------------------------------------------------
  // Transactions: each either commits as a whole or leaves the store as it was
  // ---------------------------------------------------------------------------------------

  function Details(store: Store, id: TripId): Option<TripDetail> {
    if id in store.trips then Some(TripDetail(id, store.trips[id].revision, store.trips[id].snapshot)) else None
  }

  /** A new current row and the matching revision row, unless that revision already has a row. */
  function Write(store: Store, id: TripId, row: TripRow, revision: RevisionRow): (r: (Store, Result<TripDetail, StoreError>))
    ensures r.1.Err? ==> r.0 == store
  {
    if (id, row.revision) in store.revisions then (store, Err(PrimaryKeyViolated))
    else (Store(store.trips[id := row], store.revisions[(id, row.revision) := revision]),
          Ok(TripDetail(id, row.revision, row.snapshot)))
  }

  /** Creation: a new trip at revision 0. */
  function SaveTx(store: Store, id: TripId, snapshot: Snapshot): (Store, Result<TripDetail, StoreError>) {
    if id in store.trips then (store, Err(PrimaryKeyViolated))
    else Write(store, id, TripRow(snapshot.Plan(), 0, snapshot), RevisionRow(CREATED, None, snapshot))
  }

  /** Compare-and-set update; an identical snapshot at the expected revision changes nothing. */
  function UpdateTx(store: Store, id: TripId, request: SaveRequest, source: Source)
    : (r: (Store, Result<Option<TripDetail>, StoreError>))
    ensures r.1.Err? ==> r.0 == store
  {
    if id !in store.trips then (store, Ok(None))
    else
      var row := store.trips[id];
      if row.planType != request.snapshot.Plan() then (store, Err(PlanTypeConflict))
      else if request.expectedRevision.None? then (store, Err(MissingExpectedRevision))
      else if request.expectedRevision.value != row.revision then (store, Err(ConcurrencyConflict))
      else if request.snapshot == row.snapshot then (store, Ok(Details(store, id)))
      else
        var written := Write(store, id, TripRow(request.snapshot.Plan(), row.revision + 1, request.snapshot),
                             RevisionRow(source, None, request.snapshot));
        (written.0, if written.1.Ok? then Ok(Some(written.1.value)) else Err(written.1.error))
  }

  function DeleteTx(store: Store, id: TripId): (Store, bool) {
    (Store(store.trips - {id}, map k | k in store.revisions && k.0 != id :: store.revisions[k]), id in store.trips)
  }

  /** Why a restore stops at reading the current row. */
  function RestoreRefused(row: Option<TripDetail>, target: int, expected: int): Option<StoreError> {
    if row.None? then Some(TripNotFound)
    else if expected != row.value.revision then Some(ConcurrencyConflict)
    else if target == row.value.revision then Some(RevisionAlreadyCurrent)
    else None
  }

  function RevisionAt(store: Store, id: TripId, revision: int): Option<RevisionRow> {
    if (id, revision) in store.revisions then Some(store.revisions[(id, revision)]) else None
  }

  /** The writing transaction of a restore, given the target's row read before it. */
  function RestoreTx(store: Store, id: TripId, target: int, targetRow: RevisionRow, expected: int)
    : (r: (Store, Result<TripDetail, StoreError>))
    ensures r.1.Err? ==> r.0 == store
  {
    if id !in store.trips || store.trips[id].revision != expected then (store, Err(ConcurrencyConflict))
    else
      Write(store, id, TripRow(targetRow.snapshot.Plan(), expected + 1, targetRow.snapshot),
            RevisionRow(REVERT, Some(target), targetRow.snapshot))
  }

  /** A restore that nothing interleaves with. */
  function RestoreAlone(store: Store, id: TripId, target: int, expected: int): (Store, Result<TripDetail, StoreError>) {
    var refused := RestoreRefused(Details(store, id), target, expected);
    if refused.Some? then (store, Err(refused.value))
    else if RevisionAt(store, id, target).None? then (store, Err(RevisionNotFound))
    else RestoreTx(store, id, target, RevisionAt(store, id, target).value, expected)
  }

  // ---------------------------------------------------------------------------------------
  // The repository
  // ---------------------------------------------------------------------------------------

  class TripRepository {
    var trips: map<TripId, TripRow>
    var revisions: map<RevisionKey, RevisionRow>

    function Tables(): Store
      reads this
    {
      Store(trips, revisions)
    }

    constructor ()
      ensures Tables() == Store(map[], map[])
    {
      trips, revisions := map[], map[];
    }

    /** The freshly minted id is the caller's choice here. */
    method Save(id: TripId, snapshot: Snapshot) returns (result: Result<TripDetail, StoreError>)
      modifies this
      ensures (Tables(), result) == SaveTx(old(Tables()), id, snapshot)
    {
      if id in trips {
        return Err(PrimaryKeyViolated);
      }
      result := InsertBoth(id, TripRow(snapshot.Plan(), 0, snapshot), RevisionRow(CREATED, None, snapshot));
    }

    /** Both rows of one transaction; a violated primary key rolls the current row back. */
    method InsertBoth(id: TripId, row: TripRow, revision: RevisionRow) returns (result: Result<TripDetail, StoreError>)
      modifies this
      ensures (Tables(), result) == Write(old(Tables()), id, row, revision)
    {
      var before := trips;
      trips := trips[id := row];
      if (id, row.revision) in revisions {
        trips := before;
        return Err(PrimaryKeyViolated);
      }
      revisions := revisions[(id, row.revision) := revision];
      result := Ok(TripDetail(id, row.revision, row.snapshot));
    }

    method Get(id: TripId) returns (result: Option<TripDetail>)
      ensures result == Details(Tables(), id)
    {
      if id !in trips {
        return None;
      }
      result := Some(TripDetail(id, trips[id].revision, trips[id].snapshot));
    }

    method Update(id: TripId, request: SaveRequest, source: Source) returns (result: Result<Option<TripDetail>, StoreError>)
      modifies this
      ensures (Tables(), result) == UpdateTx(old(Tables()), id, request, source)
    {
      if id !in trips {
        return Ok(None);
      }
      var row := trips[id];
      if row.planType != request.snapshot.Plan() {
        return Err(PlanTypeConflict);
      }
      if request.expectedRevision.None? {
        return Err(MissingExpectedRevision);
      }
      if request.expectedRevision.value != row.revision {
        return Err(ConcurrencyConflict);
      }
      if request.snapshot == row.snapshot {
        return Ok(Some(TripDetail(id, row.revision, row.snapshot)));
      }
      var written := InsertBoth(id, TripRow(request.snapshot.Plan(), row.revision + 1, request.snapshot),
                                RevisionRow(source, None, request.snapshot));
      match written {
        case Ok(detail) => result := Ok(Some(detail));
        case Err(error) => result := Err(error);
      }
    }

    method Delete(id: TripId) returns (existed: bool)
      modifies this
      ensures (Tables(), existed) == DeleteTx(old(Tables()), id)
    {
      existed := id in trips;
      revisions := map k | k in revisions && k.0 != id :: revisions[k];
      trips := trips - {id};
    }

    method CommitRestore(id: TripId, target: int, targetRow: RevisionRow, expected: int)
      returns (result: Result<TripDetail, StoreError>)
      modifies this
      ensures (Tables(), result) == RestoreTx(old(Tables()), id, target, targetRow, expected)
    {
      if id !in trips || trips[id].revision != expected {
        return Err(ConcurrencyConflict);
      }
      result := InsertBoth(id, TripRow(targetRow.snapshot.Plan(), expected + 1, targetRow.snapshot),
                           RevisionRow(REVERT, Some(target), targetRow.snapshot));
    }

    /** Two reads and a writing transaction; run without interleaving. */
    method RestoreRevision(id: TripId, target: int, expected: int) returns (result: Result<TripDetail, StoreError>)
      modifies this
      ensures (Tables(), result) == RestoreAlone(old(Tables()), id, target, expected)
    {
      var row := Get(id);
      var refused := RestoreRefused(row, target, expected);
      if refused.Some? {
        return Err(refused.value);
      }
      if (id, target) !in revisions {
        return Err(RevisionNotFound);
      }
      result := CommitRestore(id, target, revisions[(id, target)], expected);
    }
  }
}
