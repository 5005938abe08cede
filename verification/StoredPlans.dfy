/** What the stored trips are worth: requests stay valid, and edited trips hold a plan of their own request. */
module StoredPlans {
  import opened Wrappers
  import opened Sequences
  import opened Scheduling
  import opened OpeningHours
  import opened RouteOptimizer
  import opened TripRequests
  import opened Partition
  import opened TripPlanner
  import opened Reconcile
  import opened ApplyEdits
  import opened TripStore
  import opened TripEditor
  import opened Protocol
  import opened ProtocolSafety
  import opened ProtocolGuarantees

  /** One run of the planner: the documents, distances and travel times it saw, and how it packed the places. */
  ghost predicate PlannedBy(request: MultiDayRequest, docs: seq<PlaceDoc>, nearer: Geography, matrixFor: Matrices,
                            st: Packing, response: MultiDayResponse) {
    && Partitioned(TourOf(request, docs, nearer, matrixFor).trip, request.places, st)
    && TripPlanned(TourOf(request, docs, nearer, matrixFor), st, response)
  }

  /** What the planner may return for a request. */
  ghost predicate MayReturn(request: MultiDayRequest, response: MultiDayResponse) {
    Plannable(request) ==>
      exists docs, nearer, matrixFor, st :: PlannedBy(request, docs, nearer, matrixFor, st, response)
  }

  /** The editor's planner returns only what the planner may return. */
  ghost predicate Faithful(plan: Planner) {
    forall request, response :: plan(request) == Some(response) ==> MayReturn(request, response)
  }

  /** The planner itself is faithful: `MayReturn` asks no more than it ensures. */
  method PlanFaithfully(request: MultiDayRequest, docs: seq<PlaceDoc>, nearer: Geography, matrixFor: Matrices)
    returns (result: Result<MultiDayResponse, PlanError>)
    requires Plannable(request)
    ensures result.Ok? ==> MayReturn(request, result.value)
  {
    hide Plannable, Partitioned, TripPlanned, Everything, DayFails, TourOf;
    ghost var st;
    result, st := OptimizeTrip(request, docs, nearer, matrixFor);
    if result.Ok? {
      assert PlannedBy(request, docs, nearer, matrixFor, st, result.value);
    }
  }

  /** A multi-day snapshot holds a valid request. */
  predicate RequestValid(snapshot: Snapshot) {
    snapshot.MultiDay? ==> snapshot.request.Valid()
  }

  /** A multi-day snapshot holds a valid request and a plan of that very request. */
  ghost predicate HoldsPlan(snapshot: Snapshot) {
    snapshot.MultiDay? && snapshot.request.Valid() && MayReturn(snapshot.request, snapshot.response)
  }

  /** Every requested place is reported exactly once in such a plan. */
  lemma PlanReportsPlaces(snapshot: Snapshot)
    requires HoldsPlan(snapshot)
    requires START_ANCHOR !in PlaceIds(snapshot.request.places) && END_ANCHOR !in PlaceIds(snapshot.request.places)
    ensures Everything(snapshot.response) == multiset(PlaceIds(snapshot.request.places))
  {
    hide Partitioned, TripPlanned, Everything, MultiDayRequest.Valid, Ready, Solvable, PlaceIds;
    var request, response := snapshot.request, snapshot.response;
    assert Plannable(request);
    var docs, nearer, matrixFor, st :| PlannedBy(request, docs, nearer, matrixFor, st, response);
    TourIsReady(request, docs, nearer, matrixFor);
    assert TourOf(request, docs, nearer, matrixFor).request == request;
    hide TourOf;
    TripConserves(TourOf(request, docs, nearer, matrixFor), st, response);
  }

  // ---------------------------------------------------------------------------------------
  // Every step, every run
  // ---------------------------------------------------------------------------------------

  /** What comes from outside: saved and updated requests are validated, and the editor's planner is the planner. */
  ghost predicate Honest(e: Event) {
    match e
    case Saved(_, snapshot) => RequestValid(snapshot)
    case Imported(_, _, snapshot) => RequestValid(snapshot)
    case Updated(_, request) => RequestValid(request.snapshot)
    case EditWrites(_, plan) => Faithful(plan)
    case _ => true
  }

  ghost predicate EntryGood(e: Entry) {
    RequestValid(e.row.snapshot) && (e.writer.EditWriter? ==> HoldsPlan(e.row.snapshot))
  }

  ghost predicate LedgerGood(s: System) {
    forall k :: k in s.ledger ==> EntryGood(s.ledger[k])
  }

  lemma AdvanceKeepsGood(s: System, id: TripId, e: Entry)
    requires LedgerGood(s) && id in s.store.trips && EntryGood(e)
    ensures LedgerGood(Advanced(s, id, e))
  {
    hide EntryGood;
  }

  lemma CreateKeepsGood(s: System, id: TripId, revision: int, source: Source, snapshot: Snapshot)
    requires LedgerGood(s) && RequestValid(snapshot)
    ensures LedgerGood(Create(s, id, revision, source, snapshot))
  {
    hide RequestValid, HoldsPlan;
  }

  /** What the editor computes is a valid request with a plan of its own. */
  lemma EditedHoldsPlan(base: Snapshot, ops: seq<Operation>, plan: Planner)
    requires base.MultiDay? && Faithful(plan) && EditedSnapshot(base, ops, plan).Ok?
    ensures HoldsPlan(EditedSnapshot(base, ops, plan).value) && RequestValid(EditedSnapshot(base, ops, plan).value)
  {
    hide Edited, MayReturn, ReconciledWith, DatesBefore, MultiDayRequest.Valid;
  }

  lemma EditWriteKeepsGood(s: System, job: nat, plan: Planner)
    requires Inv(s) && LedgerGood(s) && Faithful(plan) && job in s.jobs && s.jobs[job].EditRead?
    ensures LedgerGood(StepEditWrite(s, job, plan))
  {
    hide StoreSound, LedgerSound, JobsSound, ScopesSound, BindingsSound, EditedSnapshot, UpdateTx, Commit, HoldsPlan,
         RequestValid, Faithful;
    var j := s.jobs[job];
    if j.base.MultiDay? && EditedSnapshot(j.base, j.ops, plan).Ok? {
      var snapshot := EditedSnapshot(j.base, j.ops, plan).value;
      var request, writer := SaveRequest(snapshot, Some(j.target.revision)), EditWriter(j.arm, j.ops);
      EditedHoldsPlan(j.base, j.ops, plan);
      UpdateCommits(s, j.target.id, request, ORCHESTRATOR, writer);
      if j.target.id in s.store.trips {
        AdvanceKeepsGood(s, j.target.id, Entry(RevisionRow(ORCHESTRATOR, None, snapshot), writer));
      }
    }
  }

  lemma RestoreWriteKeepsGood(s: System, job: nat)
    requires Inv(s) && LedgerGood(s) && job in s.jobs && s.jobs[job].RestoreReady?
    ensures LedgerGood(StepRestoreWrite(s, job))
  {
    hide StoreSound, LedgerSound, JobsSound, ScopesSound, BindingsSound, RestoreTx, Commit, HoldsPlan, RequestValid;
    var j := s.jobs[job];
    JobIsSound(s, job);
    assert EntryGood(s.ledger[(j.target.id, j.revision)]);
    RestoreCommits(s, j.target.id, j.revision, j.row, j.target.revision, RestoreWriter(j.arming));
    if j.target.id in s.store.trips {
      AdvanceKeepsGood(s, j.target.id, Entry(RevisionRow(REVERT, Some(j.revision), j.row.snapshot), RestoreWriter(j.arming)));
    }
  }

  lemma UpdateKeepsGood(s: System, id: TripId, request: SaveRequest)
    requires Inv(s) && LedgerGood(s) && RequestValid(request.snapshot)
    ensures LedgerGood(Step(s, Updated(id, request)))
  {
    hide StoreSound, LedgerSound, JobsSound, ScopesSound, BindingsSound, UpdateTx, Commit, HoldsPlan, RequestValid;
    UpdateCommits(s, id, request, MANUAL, ManualWriter);
    if id in s.store.trips {
      AdvanceKeepsGood(s, id, Entry(RevisionRow(MANUAL, None, request.snapshot), ManualWriter));
    }
  }

  lemma StepKeepsGood(s: System, e: Event)
    requires Inv(s) && LedgerGood(s) && Honest(e)
    ensures LedgerGood(Step(s, e))
  {
    hide Inv, EntryGood, RequestValid, Faithful, Create, Commit, StepEditWrite, StepRestoreWrite;
    if !Writes(e) {
      OthersTouchNoTable(s, e);
    } else {
      match e {
        case Saved(id, snapshot) => CreateKeepsGood(s, id, 0, CREATED, snapshot);
        case Imported(id, revision, snapshot) => CreateKeepsGood(s, id, revision, MIGRATION, snapshot);
        case Updated(id, request) => UpdateKeepsGood(s, id, request);
        case Deleted(_) =>
        case EditWrites(job, plan) => if job in s.jobs && s.jobs[job].EditRead? { EditWriteKeepsGood(s, job, plan); }
        case RestoreWrites(job) => if job in s.jobs && s.jobs[job].RestoreReady? { RestoreWriteKeepsGood(s, job); }
      }
    }
  }

  ghost predicate AllHonest(events: seq<Event>) {
    forall i :: 0 <= i < |events| ==> Honest(events[i])
  }

  lemma {:induction false} RunKeepsGood(events: seq<Event>)
    requires AllHonest(events)
    ensures LedgerGood(Run(events))
  {
    if events != [] {
      var before := events[..|events| - 1];
      RunKeepsGood(before);
      RunKeeps(before);
      hide Inv, LedgerGood, Step, Honest;
      StepKeepsGood(Run(before), events[|events| - 1]);
    }
  }

  /**
   * In every reachable state every stored multi-day request is valid, in all revisions and in the current rows,
   * whatever editors and restores did to them.
   */
  lemma {:induction false} StoredRequestsAreValid(events: seq<Event>)
    requires AllHonest(events)
    ensures var s := Run(events);
            && (forall k :: k in s.store.revisions ==> RequestValid(s.store.revisions[k].snapshot))
            && (forall id :: id in s.store.trips ==> RequestValid(s.store.trips[id].snapshot))
  {
    RunKeepsGood(events);
    RunKeeps(events);
    var s := Run(events);
    hide Run, LedgerSound, JobsSound, ScopesSound, BindingsSound, RequestValid, HoldsPlan;
    forall k | k in s.store.revisions ensures RequestValid(s.store.revisions[k].snapshot) {
      assert RowSound(s, k) && EntryGood(s.ledger[k]);
    }
    forall id | id in s.store.trips ensures RequestValid(s.store.trips[id].snapshot) {
      assert TripSound(s, id);
      assert (id, s.store.trips[id].revision) in s.store.revisions;
    }
  }

  /**
   * In every reachable state every revision written by an editor, and every restored copy of one however many
   * restores later, holds a plan of its own request: every place of the request is reported exactly once.
   */
  lemma {:induction false} EditedTripsHoldTheirPlans(events: seq<Event>, id: TripId, r: int)
    requires AllHonest(events) && (id, r) in Run(events).store.revisions
    ensures var s := Run(events);
            && id in s.births && Traceable(s.store, id, s.births[id].revision)
            && var origin := Origin(s.store, id, s.births[id].revision, r);
               var snapshot := s.store.revisions[(id, r)].snapshot;
               s.store.revisions[(id, origin)].source == ORCHESTRATOR ==>
                 && HoldsPlan(snapshot)
                 && (START_ANCHOR !in PlaceIds(snapshot.request.places) && END_ANCHOR !in PlaceIds(snapshot.request.places) ==>
                       Everything(snapshot.response) == multiset(PlaceIds(snapshot.request.places)))
  {
    RestoreProvenance(events, id, r);
    RunKeepsGood(events);
    RunKeeps(events);
    var s := Run(events);
    hide Run, StoreSound, LedgerSound, JobsSound, ScopesSound, BindingsSound, HoldsPlan, RequestValid, Everything, PlaceIds, Traceable;
    var origin := Origin(s.store, id, s.births[id].revision, r);
    var snapshot := s.store.revisions[(id, r)].snapshot;
    if s.store.revisions[(id, origin)].source == ORCHESTRATOR {
      RowHasEntry(s, id, origin);
      OnlyEditorsOrchestrate(s, id, origin, s.ledger[(id, origin)]);
      assert EntryGood(s.ledger[(id, origin)]);
      if START_ANCHOR !in PlaceIds(snapshot.request.places) && END_ANCHOR !in PlaceIds(snapshot.request.places) {
        PlanReportsPlaces(snapshot);
      }
    }
  }

  lemma OnlyEditorsOrchestrate(s: System, id: TripId, r: int, e: Entry)
    requires id in s.births && EntrySound(s, id, r, e) && e.row.source == ORCHESTRATOR
    ensures e.writer.EditWriter?
  {
    hide EditOf, ArmedFor, Holds;
  }
}
