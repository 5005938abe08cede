/** The order in which a chat turn, its interrupt and its write tools touch the scope and the trips. */
module ChatTurns {
  import opened Wrappers
  import opened Scheduling
  import opened TripRequests
  import opened Reconcile
  import opened TripStore
  import opened TripEditor
  import opened WriteScope

  /** The trip and revision that a consumed scope allows one tool call to write. */
  datatype Target = Target(id: TripId, revision: int)

  /** A consumed scope is usable for a trip binding armed for this very tool call. */
  function UsableScope(pending: Option<PendingScope>, toolCallId: string): Option<Target> {
    if pending.None? then None
    else
      var scope := pending.value.scope;
      if scope.kind != TripBinding || scope.tripId.None? || scope.revision.None? then None
      else if pending.value.toolCallId != "" && toolCallId != "" && pending.value.toolCallId != toolCallId then None
      else Some(Target(scope.tripId.value, scope.revision.value))
  }

  function AllowedPlaces(snapshot: Snapshot): seq<Id> {
    match snapshot
    case MultiDay(_, request, _) => PlaceIds(request.places)
    case SingleDay(_, _, single, _) => single.placeIds
  }

  function ScopeOf(trip: TripDetail): Scope {
    TripScope(trip.id, trip.snapshot.Plan(), trip.snapshot.name, trip.revision, AllowedPlaces(trip.snapshot))
  }

  /** A new message: any proposal is abandoned before the thread is bound anew. */
  method StartTurn(sessions: TripSessionStateStore, trips: TripRepository, thread: ThreadId,
                   tripId: Option<TripId>, selection: seq<Id>)
    modifies sessions
    ensures PendingOf(sessions.docs, thread).None?
    ensures forall t :: t != thread ==> (t in sessions.docs <==> t in old(sessions.docs))
    ensures forall t :: t != thread && t in sessions.docs ==> sessions.docs[t] == old(sessions.docs)[t]
    ensures match tripId
            case None => thread in sessions.docs && sessions.docs[thread].scope == SelectionScope(selection)
            case Some(id) =>
              if id in trips.Tables().trips
              then thread in sessions.docs && sessions.docs[thread].scope == ScopeOf(Details(trips.Tables(), id).value)
              else thread !in sessions.docs
  {
    sessions.ClearPending(thread);
    if tripId.None? {
      sessions.BindPlaceSelection(thread, selection);
      return;
    }
    var trip := trips.Get(tripId.value);
    match trip {
      case None => sessions.ClearBinding(thread);
      case Some(t) =>
        sessions.BindTrip(thread, t.id, t.snapshot.Plan(), t.snapshot.name, t.revision, AllowedPlaces(t.snapshot));
    }
  }

  /** The tool calls of an interrupted turn, as the graph state shows them; `None` when it cannot be read. */
  type Interrupt = Option<seq<string>>

  datatype Inspection = NothingPending | Proposed(toolCallId: string) | FailedClosed

  /**
   * After a turn: exactly one pending write is proposed, armed with the thread's own binding. Anything
   * that is not exactly that fails closed, leaving nothing armed.
   */
  method InspectInterrupt(sessions: TripSessionStateStore, thread: ThreadId, writes: Interrupt) returns (r: Inspection)
    modifies sessions
    ensures match r
            case NothingPending => sessions.docs == old(sessions.docs) && writes == Some([])
            case Proposed(id) =>
              && writes == Some([id]) && thread in old(sessions.docs)
              && sessions.docs == Armed(old(sessions.docs), thread, id)
              && PendingOf(sessions.docs, thread) == Some(PendingScope(id, old(sessions.docs)[thread].scope))
            case FailedClosed =>
              && PendingOf(sessions.docs, thread).None? && sessions.docs == Cleared(old(sessions.docs), thread)
              && (writes.None? || |writes.value| >= 2 || thread !in old(sessions.docs))
  {
    if writes.None? {
      sessions.ClearPending(thread);
      return FailedClosed;
    }
    if writes.value == [] {
      return NothingPending;
    }
    if |writes.value| >= 2 {
      sessions.ClearPending(thread);
      return FailedClosed;
    }
    assert writes.value == [writes.value[0]];
    var armed := sessions.ArmPending(thread, writes.value[0]);
    if !armed {
      sessions.ClearPending(thread);
      return FailedClosed;
    }
    r := Proposed(writes.value[0]);
  }

  /** Resuming: a rejection drops the armed scope before the graph goes on. */
  method Resume(sessions: TripSessionStateStore, thread: ThreadId, confirmed: bool)
    modifies sessions
    ensures sessions.docs == if confirmed then old(sessions.docs) else Cleared(old(sessions.docs), thread)
  {
    if !confirmed {
      sessions.ClearPending(thread);
    }
  }

  datatype ToolOutcome =
    | ScopeExpired
    | InvalidBatch
    | Edited(edit: Result<TripDetail, EditFailure>)
    | Reverted(restore: Result<TripDetail, StoreError>)

  /** The edit tool: the scope is consumed first, and nothing but the scope says what is edited. */
  method EditMultiDayTrip(sessions: TripSessionStateStore, trips: TripRepository, thread: ThreadId, toolCallId: string,
                          ops: seq<Operation>, plan: Planner) returns (outcome: ToolOutcome)
    modifies sessions, trips
    ensures sessions.docs == Cleared(old(sessions.docs), thread)
    ensures match UsableScope(PendingOf(old(sessions.docs), thread), toolCallId)
            case None => outcome == ScopeExpired && trips.Tables() == old(trips.Tables())
            case Some(target) =>
              if !ValidBatch(ops) then outcome == InvalidBatch && trips.Tables() == old(trips.Tables())
              else outcome.Edited? &&
                   (trips.Tables(), outcome.edit) == EditAlone(old(trips.Tables()), target.id, ops, target.revision, plan)
  {
    var pending := sessions.ConsumePending(thread);
    var target := UsableScope(pending, toolCallId);
    if target.None? {
      return ScopeExpired;
    }
    if !ValidBatch(ops) {
      return InvalidBatch;
    }
    var result := Apply(trips, target.value.id, ops, target.value.revision, plan);
    outcome := Edited(result);
  }

  /** The revert tool: likewise, with only the target revision chosen by the caller. */
  method RevertTripRevision(sessions: TripSessionStateStore, trips: TripRepository, thread: ThreadId, toolCallId: string,
                            revision: int) returns (outcome: ToolOutcome)
    modifies sessions, trips
    ensures sessions.docs == Cleared(old(sessions.docs), thread)
    ensures match UsableScope(PendingOf(old(sessions.docs), thread), toolCallId)
            case None => outcome == ScopeExpired && trips.Tables() == old(trips.Tables())
            case Some(target) =>
              outcome.Reverted? &&
              (trips.Tables(), outcome.restore) == RestoreAlone(old(trips.Tables()), target.id, revision, target.revision)
  {
    var pending := sessions.ConsumePending(thread);
    var target := UsableScope(pending, toolCallId);
    if target.None? {
      return ScopeExpired;
    }
    var result := trips.RestoreRevision(target.value.id, revision, target.value.revision);
    outcome := Reverted(result);
  }
}
