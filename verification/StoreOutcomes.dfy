/** What the transactions, an edit and a chat turn do to the stored rows and documents, row by row. */
module StoreOutcomes {
  import opened Wrappers
  import opened Scheduling
  import opened RouteOptimizer
  import opened TripRequests
  import opened TripPlanner
  import opened Reconcile
  import opened ApplyEdits
  import opened TripStore
  import opened TripEditor
  import opened WriteScope
  import opened ChatTurns

  // ---------------------------------------------------------------------------------------
  // Rows
  // ---------------------------------------------------------------------------------------

  ghost predicate TripIs(store: Store, id: TripId, revision: int, snapshot: Snapshot) {
    && id in store.trips && store.trips[id].revision == revision && store.trips[id].snapshot == snapshot
    && store.trips[id].planType == if snapshot.SingleDay? then SINGLE_DAY else MULTI_DAY
  }

  ghost predicate OtherTripsStay(before: Store, after: Store, id: TripId) {
    && (forall x :: x != id ==> (x in after.trips <==> x in before.trips))
    && (forall x :: x != id && x in before.trips ==> after.trips[x] == before.trips[x])
  }

  /** The current row and one new revision row of a trip are written, and no other row changes. */
  ghost predicate Wrote(before: Store, after: Store, id: TripId, revision: int, snapshot: Snapshot, source: Source,
                        restoredFrom: Option<int>) {
    var key := (id, revision);
    && TripIs(after, id, revision, snapshot) && OtherTripsStay(before, after, id)
    && key !in before.revisions && key in after.revisions
    && after.revisions[key].source == source && after.revisions[key].restoredFrom == restoredFrom
    && after.revisions[key].snapshot == snapshot
    && (forall k :: k != key ==> (k in after.revisions <==> k in before.revisions))
    && (forall k :: k in before.revisions ==> after.revisions[k] == before.revisions[k])
  }

  /** The trip has no row left, and no other trip loses one. */
  ghost predicate Gone(before: Store, after: Store, id: TripId) {
    && id !in after.trips && OtherTripsStay(before, after, id)
    && (forall k :: k in after.revisions <==> k in before.revisions && k.0 != id)
    && (forall k :: k in after.revisions ==> after.revisions[k] == before.revisions[k])
  }

  lemma WriteOutcomes(store: Store, id: TripId, row: TripRow, revision: RevisionRow)
    requires row.planType == row.snapshot.Plan() && revision.snapshot == row.snapshot
    ensures var (after, result) := Write(store, id, row, revision);
            if (id, row.revision) in store.revisions then after == store && result == Err(PrimaryKeyViolated)
            else && Wrote(store, after, id, row.revision, row.snapshot, revision.source, revision.restoredFrom)
                 && result == Ok(TripDetail(id, row.revision, row.snapshot))
  {
  }

  /** Creation starts a trip at revision 0, unless one of its rows is there. */
  lemma SaveOutcome(store: Store, id: TripId, snapshot: Snapshot)
    ensures var (after, result) := SaveTx(store, id, snapshot);
            if id in store.trips || (id, 0) in store.revisions then after == store && result == Err(PrimaryKeyViolated)
            else Wrote(store, after, id, 0, snapshot, CREATED, None) && result == Ok(TripDetail(id, 0, snapshot))
  {
    WriteOutcomes(store, id, TripRow(snapshot.Plan(), 0, snapshot), RevisionRow(CREATED, None, snapshot));
    hide Write, Wrote;
  }

  /** The plan types of a row and of a snapshot to be stored. */
  ghost predicate SamePlan(row: TripRow, snapshot: Snapshot) {
    row.planType == SINGLE_DAY <==> snapshot.SingleDay?
  }

  /** The outcomes of an update: the checks in their order, the unchanged trip, the next revision. */
  lemma UpdateOutcome(store: Store, id: TripId, request: SaveRequest, source: Source)
    ensures var (after, result) := UpdateTx(store, id, request, source);
            if id !in store.trips then after == store && result == Ok(None)
            else
              var row := store.trips[id];
              if !SamePlan(row, request.snapshot) then after == store && result == Err(PlanTypeConflict)
              else if request.expectedRevision == None then after == store && result == Err(MissingExpectedRevision)
              else if request.expectedRevision != Some(row.revision) then after == store && result == Err(ConcurrencyConflict)
              else if request.snapshot == row.snapshot
              then after == store && result == Ok(Some(TripDetail(id, row.revision, row.snapshot)))
              else if (id, row.revision + 1) in store.revisions then after == store && result == Err(PrimaryKeyViolated)
              else && Wrote(store, after, id, row.revision + 1, request.snapshot, source, None)
                   && result == Ok(Some(TripDetail(id, row.revision + 1, request.snapshot)))
  {
    if id in store.trips {
      WriteOutcomes(store, id, TripRow(request.snapshot.Plan(), store.trips[id].revision + 1, request.snapshot),
                    RevisionRow(source, None, request.snapshot));
    }
    hide Write, Wrote;
  }

  /** Deletion leaves no row of the trip and every row of the others, and tells whether there was a trip. */
  lemma DeleteOutcome(store: Store, id: TripId)
    ensures Gone(store, DeleteTx(store, id).0, id)
    ensures DeleteTx(store, id).1 <==> id in store.trips
  {
  }

  /** The writing half of a restore: the next revision holds what was read of the target, unless the trip has moved on. */
  lemma RestoreTxOutcome(store: Store, id: TripId, target: int, row: RevisionRow, expected: int)
    ensures var (after, result) := RestoreTx(store, id, target, row, expected);
            if id !in store.trips || store.trips[id].revision != expected
            then after == store && result == Err(ConcurrencyConflict)
            else if (id, expected + 1) in store.revisions then after == store && result == Err(PrimaryKeyViolated)
            else && Wrote(store, after, id, expected + 1, row.snapshot, REVERT, Some(target))
                 && result == Ok(TripDetail(id, expected + 1, row.snapshot))
  {
    WriteOutcomes(store, id, TripRow(row.snapshot.Plan(), expected + 1, row.snapshot),
                  RevisionRow(REVERT, Some(target), row.snapshot));
    hide Write, Wrote;
  }

  /** The outcomes of a restore: the checks in their order, then a new revision with the target's snapshot. */
  lemma RestoreOutcome(store: Store, id: TripId, target: int, expected: int)
    ensures var (after, result) := RestoreAlone(store, id, target, expected);
            if id !in store.trips then after == store && result == Err(TripNotFound)
            else if store.trips[id].revision != expected then after == store && result == Err(ConcurrencyConflict)
            else if target == expected then after == store && result == Err(RevisionAlreadyCurrent)
            else if (id, target) !in store.revisions then after == store && result == Err(RevisionNotFound)
            else if (id, expected + 1) in store.revisions then after == store && result == Err(PrimaryKeyViolated)
            else
              var snapshot := store.revisions[(id, target)].snapshot;
              && Wrote(store, after, id, expected + 1, snapshot, REVERT, Some(target))
              && result == Ok(TripDetail(id, expected + 1, snapshot))
  {
    if (id, target) in store.revisions {
      RestoreTxOutcome(store, id, target, store.revisions[(id, target)], expected);
    }
    hide RestoreTx, Wrote;
  }

  // ---------------------------------------------------------------------------------------
  // An edit
  // ---------------------------------------------------------------------------------------

  /**
   * The outcomes of an edit: what is wrong first with the trip, the operations or the plan decides, and else
   * the edited request is stored with its plan under the old name.
   */
  lemma EditOutcome(store: Store, id: TripId, ops: seq<Operation>, expected: int, plan: Planner)
    ensures var (after, result) := EditAlone(store, id, ops, expected, plan);
            if id !in store.trips then after == store && result == Err(NoSuchTrip)
            else
              var base := store.trips[id].snapshot;
              if base.SingleDay? then after == store && result == Err(UnsupportedPlanType)
              else if store.trips[id].revision != expected then after == store && result == Err(StaleRevision)
              else match Applied(base.request, ops)
                case Err(e) => after == store && result == Err(BadOperations(e))
                case Ok(outcome) =>
                  match plan(outcome.request)
                  case None => after == store && result == Err(OptimizerFailed)
                  case Some(response) =>
                    var edited := MultiDay(base.name, outcome.request, response);
                    if store.trips[id].planType == SINGLE_DAY then after == store && result == Err(PersistenceFailed)
                    else if edited == base then after == store && result == Ok(TripDetail(id, expected, base))
                    else if (id, expected + 1) in store.revisions then after == store && result == Err(PersistenceFailed)
                    else && Wrote(store, after, id, expected + 1, edited, ORCHESTRATOR, None)
                         && result == Ok(TripDetail(id, expected + 1, edited))
  {
    if id in store.trips && store.trips[id].snapshot.MultiDay? {
      var base := store.trips[id].snapshot;
      match Applied(base.request, ops) {
        case Err(_) =>
        case Ok(outcome) =>
          match plan(outcome.request) {
            case None =>
            case Some(response) =>
              var edited := MultiDay(base.name, outcome.request, response);
              UpdateOutcome(store, id, SaveRequest(edited, Some(expected)), ORCHESTRATOR);
          }
      }
    }
    hide Applied, UpdateTx, Wrote;
  }

  /**
   * When others wrote between the read and the write nothing is written. The editor then looks again, and reports a
   * trip that is gone at the write or by then as deleted, and one that has moved on as stale.
   */
  lemma InterleavedOutcome(now: Store, later: Store, id: TripId, edited: Snapshot, expected: int)
    requires id in now.trips ==> SamePlan(now.trips[id], edited)
    requires id !in now.trips || now.trips[id].revision != expected
    ensures var (after, result) := UpdateTx(now, id, SaveRequest(edited, Some(expected)), ORCHESTRATOR);
            && after == now
            && WriteOutcome(result, id in later.trips)
               == Err(if id in now.trips && id in later.trips then StaleRevision else TripDeleted)
  {
    UpdateOutcome(now, id, SaveRequest(edited, Some(expected)), ORCHESTRATOR);
    hide UpdateTx;
  }

  // ---------------------------------------------------------------------------------------
  // Threads
  // ---------------------------------------------------------------------------------------

  ghost predicate OtherThreadsStay(before: Threads, after: Threads, thread: ThreadId) {
    && (forall t :: t != thread ==> (t in after <==> t in before))
    && (forall t :: t != thread && t in before ==> after[t] == before[t])
  }

  /** The thread is bound as it was, and holds this pending scope. */
  ghost predicate PendingBecomes(before: Threads, after: Threads, thread: ThreadId, pending: Option<PendingScope>) {
    && OtherThreadsStay(before, after, thread) && (thread in after <==> thread in before)
    && (thread in before ==> after[thread].scope == before[thread].scope && after[thread].pending == pending)
  }

  ghost predicate BindingBecomes(before: Threads, after: Threads, thread: ThreadId, scope: Scope) {
    && OtherThreadsStay(before, after, thread)
    && thread in after && after[thread].scope == scope && after[thread].pending == None
  }

  lemma ThreadOutcomes(docs: Threads, thread: ThreadId, scope: Scope, toolCallId: string)
    ensures BindingBecomes(docs, Bound(docs, thread, scope), thread, scope)
    ensures PendingBecomes(docs, Cleared(docs, thread), thread, None)
    ensures thread !in docs ==> Armed(docs, thread, toolCallId) == docs
    ensures thread in docs ==>
              PendingBecomes(docs, Armed(docs, thread, toolCallId), thread, Some(PendingScope(toolCallId, docs[thread].scope)))
  {
  }

  /** The scope of a trip names it, the revision it was read at and exactly its places. */
  ghost predicate ScopeOfTrip(trip: TripDetail, scope: Scope) {
    && scope.kind == TripBinding && scope.tripId == Some(trip.id) && scope.revision == Some(trip.revision)
    && scope.name == Some(trip.snapshot.name)
    && scope.planType == Some(if trip.snapshot.SingleDay? then SINGLE_DAY else MULTI_DAY)
    && match trip.snapshot
       case SingleDay(_, _, single, _) => scope.allowedPlaceIds == single.placeIds
       case MultiDay(_, request, _) =>
         && |scope.allowedPlaceIds| == |request.places|
         && forall i :: 0 <= i < |request.places| ==> scope.allowedPlaceIds[i] == request.places[i].placeId
  }

  lemma ScopeIsOfTrip(trip: TripDetail)
    ensures ScopeOfTrip(trip, ScopeOf(trip))
  {
  }

  /** A pending scope can be used by a tool call exactly if it binds a trip and was not armed for another call. */
  ghost predicate UsableBy(pending: Option<PendingScope>, toolCallId: string, id: TripId, revision: int) {
    && pending.Some? && pending.value.scope.kind == TripBinding
    && pending.value.scope.tripId == Some(id) && pending.value.scope.revision == Some(revision)
    && (pending.value.toolCallId == toolCallId || pending.value.toolCallId == "" || toolCallId == "")
  }

  lemma UsableExactly(pending: Option<PendingScope>, toolCallId: string, id: TripId, revision: int)
    ensures UsableScope(pending, toolCallId) == Some(Target(id, revision)) <==> UsableBy(pending, toolCallId, id, revision)
  {
  }

  /** A thread bound to a trip and armed for a call lets that call write that trip at that revision, and no other call. */
  lemma BoundThenArmed(docs: Threads, thread: ThreadId, trip: TripDetail, toolCallId: string, call: string)
    requires toolCallId != "" && call != ""
    ensures var armed := Armed(Bound(docs, thread, ScopeOf(trip)), thread, toolCallId);
            UsableScope(PendingOf(armed, thread), call) == if call == toolCallId then Some(Target(trip.id, trip.revision)) else None
  {
    ScopeIsOfTrip(trip);
  }

  /** A thread bound to a selection of places can never write a trip, and a bound thread only after it is armed. */
  lemma SelectionNeverWrites(docs: Threads, thread: ThreadId, allowed: seq<Id>, scope: Scope, toolCallId: string, call: string)
    ensures UsableScope(PendingOf(Armed(Bound(docs, thread, SelectionScope(allowed)), thread, toolCallId), thread), call) == None
    ensures UsableScope(PendingOf(Bound(docs, thread, scope), thread), call) == None
    ensures UsableScope(PendingOf(Cleared(docs, thread), thread), call) == None
  {
  }
}
