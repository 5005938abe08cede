/** What each step of the protocol does to the stored rows, the documents and the operations in flight. */
module ProtocolProgress {
  import opened Wrappers
  import opened Sequences
  import opened Scheduling
  import opened TripRequests
  import opened Reconcile
  import opened ApplyEdits
  import opened TripStore
  import opened TripEditor
  import opened WriteScope
  import opened ChatTurns
  import opened StoreOutcomes
  import opened Protocol
  import opened ProtocolSafety
  import opened ProtocolGuarantees

  // ---------------------------------------------------------------------------------------
  // Jobs
  // ---------------------------------------------------------------------------------------

  /** One more operation is in flight. */
  ghost predicate Starts(s: System, t: System, job: Job) {
    && s.nextJob in t.jobs && t.jobs[s.nextJob] == job
    && (forall j :: j != s.nextJob ==> (j in t.jobs <==> j in s.jobs))
    && (forall j :: j != s.nextJob && j in s.jobs ==> t.jobs[j] == s.jobs[j])
  }

  ghost predicate OtherJobsStay(s: System, t: System, job: nat) {
    && (forall j :: j != job ==> (j in t.jobs <==> j in s.jobs))
    && (forall j :: j != job && j in s.jobs ==> t.jobs[j] == s.jobs[j])
  }

  ghost predicate Ends(s: System, t: System, job: nat) {
    job !in t.jobs && OtherJobsStay(s, t, job)
  }

  ghost predicate Becomes(s: System, t: System, job: nat, next: Job) {
    job in t.jobs && t.jobs[job] == next && OtherJobsStay(s, t, job)
  }

  /** The current row of a trip, as one read sees it. */
  ghost predicate Reads(store: Store, id: TripId, read: Option<TripDetail>) {
    match read
    case None => id !in store.trips
    case Some(trip) => id in store.trips && trip == TripDetail(id, store.trips[id].revision, store.trips[id].snapshot)
  }

  // ---------------------------------------------------------------------------------------
  // Steps on the tables
  // ---------------------------------------------------------------------------------------

  /** An update goes through on a trip of its plan type at the expected revision, if it changes anything. */
  ghost predicate GoesThrough(store: Store, id: TripId, request: SaveRequest) {
    && id in store.trips && SamePlan(store.trips[id], request.snapshot)
    && request.expectedRevision == Some(store.trips[id].revision) && request.snapshot != store.trips[id].snapshot
  }

  /** What an editor stores: the edited request of what it read, with the plan of that, under the old name. */
  ghost predicate Edits(base: Snapshot, ops: seq<Operation>, plan: Planner, edited: Snapshot) {
    && base.MultiDay? && edited.MultiDay? && edited.name == base.name
    && Applied(base.request, ops).Ok? && edited.request == Applied(base.request, ops).value.request
    && plan(edited.request) == Some(edited.response)
  }

  ghost predicate CreationMeans(s: System, t: System, id: TripId, revision: int, source: Source, snapshot: Snapshot) {
    && (if id in s.births then t.store == s.store else Wrote(s.store, t.store, id, revision, snapshot, source, None))
    && t.docs == s.docs && t.jobs == s.jobs
  }

  ghost predicate UpdateMeans(s: System, t: System, id: TripId, request: SaveRequest, source: Source) {
    if GoesThrough(s.store, id, request)
    then Wrote(s.store, t.store, id, s.store.trips[id].revision + 1, request.snapshot, source, None)
    else t.store == s.store
  }

  ghost predicate EditWriteMeans(s: System, t: System, job: nat, plan: Planner)
    requires job in s.jobs && s.jobs[job].EditRead?
  {
    var j := s.jobs[job];
    && Ends(s, t, job) && t.docs == s.docs
    && (forall edited :: Edits(j.base, j.ops, plan, edited) ==>
          UpdateMeans(s, t, j.target.id, SaveRequest(edited, Some(j.target.revision)), ORCHESTRATOR))
    && ((forall edited :: !Edits(j.base, j.ops, plan, edited)) ==> t.store == s.store)
  }

  ghost predicate RestoreWriteMeans(s: System, t: System, job: nat)
    requires job in s.jobs && s.jobs[job].RestoreReady?
  {
    var j := s.jobs[job];
    && Ends(s, t, job) && t.docs == s.docs
    && if j.target.id in s.store.trips && s.store.trips[j.target.id].revision == j.target.revision
       then Wrote(s.store, t.store, j.target.id, j.target.revision + 1, j.row.snapshot, REVERT, Some(j.revision))
       else t.store == s.store
  }

  lemma CreationIsExact(s: System, id: TripId, revision: int, source: Source, snapshot: Snapshot)
    requires Inv(s)
    ensures CreationMeans(s, Create(s, id, revision, source, snapshot), id, revision, source, snapshot)
  {
    hide LedgerSound, JobsSound, ScopesSound, BindingsSound;
    var row, first := TripRow(snapshot.Plan(), revision, snapshot), RevisionRow(source, None, snapshot);
    WriteOutcomes(s.store, id, row, first);
    if (id, revision) in s.store.revisions {
      assert RowSound(s, (id, revision)) && TripSound(s, id);
    }
  }

  lemma CommitStores(s: System, after: Store, id: TripId, writer: Writer)
    ensures var t := Commit(s, after, id, writer); t.store == after && t.docs == s.docs && t.jobs == s.jobs
  {
  }

  lemma UpdateIsExact(s: System, id: TripId, request: SaveRequest, source: Source, writer: Writer)
    requires Inv(s)
    ensures UpdateMeans(s, Commit(s, UpdateTx(s.store, id, request, source).0, id, writer), id, request, source)
  {
    hide LedgerSound, JobsSound, ScopesSound, BindingsSound, UpdateTx, Commit, Wrote, SamePlan;
    CommitStores(s, UpdateTx(s.store, id, request, source).0, id, writer);
    UpdateOutcome(s.store, id, request, source);
    if id in s.store.trips {
      NextRevisionIsFree(s, id);
    }
  }

  lemma EditedExactly(base: Snapshot, ops: seq<Operation>, plan: Planner, edited: Snapshot)
    ensures Edits(base, ops, plan, edited) <==> base.MultiDay? && EditedSnapshot(base, ops, plan) == Ok(edited)
  {
    hide Applied;
  }

  lemma EditWriteIsExact(s: System, job: nat, plan: Planner)
    requires Inv(s) && job in s.jobs && s.jobs[job].EditRead?
    ensures EditWriteMeans(s, StepEditWrite(s, job, plan), job, plan)
  {
    hide Inv, UpdateTx, Commit, Edits, EditedSnapshot, UpdateMeans;
    var j := s.jobs[job];
    forall edited
      ensures Edits(j.base, j.ops, plan, edited) <==> j.base.MultiDay? && EditedSnapshot(j.base, j.ops, plan) == Ok(edited)
    {
      EditedExactly(j.base, j.ops, plan, edited);
    }
    if j.base.MultiDay? && EditedSnapshot(j.base, j.ops, plan).Ok? {
      var request := SaveRequest(EditedSnapshot(j.base, j.ops, plan).value, Some(j.target.revision));
      var writer := EditWriter(j.arm, j.ops);
      UpdateIsExact(s, j.target.id, request, ORCHESTRATOR, writer);
      var after := UpdateTx(s.store, j.target.id, request, ORCHESTRATOR).0;
      CommitStores(s, after, j.target.id, writer);
      SameUpdate(s, Commit(s, after, j.target.id, writer), StepEditWrite(s, job, plan), j.target.id, request, ORCHESTRATOR);
    }
  }

  lemma SameUpdate(s: System, t: System, u: System, id: TripId, request: SaveRequest, source: Source)
    requires UpdateMeans(s, t, id, request, source) && t.store == u.store
    ensures UpdateMeans(s, u, id, request, source)
  {
  }

  lemma RestoreWriteIsExact(s: System, job: nat)
    requires Inv(s) && job in s.jobs && s.jobs[job].RestoreReady?
    ensures RestoreWriteMeans(s, StepRestoreWrite(s, job), job)
  {
    hide LedgerSound, JobsSound, ScopesSound, BindingsSound, RestoreTx, Commit, Wrote;
    var j := s.jobs[job];
    CommitStores(s, RestoreTx(s.store, j.target.id, j.revision, j.row, j.target.revision).0, j.target.id, RestoreWriter(j.arming));
    RestoreTxOutcome(s.store, j.target.id, j.revision, j.row, j.target.revision);
    if j.target.id in s.store.trips {
      NextRevisionIsFree(s, j.target.id);
    }
  }

  // ---------------------------------------------------------------------------------------
  // Reading steps, threads and tools
  // ---------------------------------------------------------------------------------------

  ghost predicate EditReadMeans(s: System, t: System, job: nat)
    requires job in s.jobs && s.jobs[job].EditStarted?
  {
    var j := s.jobs[job];
    var id := j.target.id;
    && t.docs == s.docs
    && if id in s.store.trips && s.store.trips[id].snapshot.MultiDay? && s.store.trips[id].revision == j.target.revision
       then Becomes(s, t, job, EditRead(j.arm, j.target, j.ops, s.store.trips[id].snapshot))
       else Ends(s, t, job)
  }

  ghost predicate RestoreReadMeans(s: System, t: System, job: nat)
    requires job in s.jobs && s.jobs[job].RestoreStarted?
  {
    var j := s.jobs[job];
    var id := j.target.id;
    && t.docs == s.docs
    && if id in s.store.trips && s.store.trips[id].revision == j.target.revision && j.revision != j.target.revision
       then Becomes(s, t, job, RestoreRead(j.arming, j.target, j.revision))
       else Ends(s, t, job)
  }

  ghost predicate TargetReadMeans(s: System, t: System, job: nat)
    requires job in s.jobs && s.jobs[job].RestoreRead?
  {
    var j := s.jobs[job];
    var key := (j.target.id, j.revision);
    && t.docs == s.docs
    && if key in s.store.revisions
       then Becomes(s, t, job, RestoreReady(j.arming, j.target, j.revision, s.store.revisions[key]))
       else Ends(s, t, job)
  }

  ghost predicate BindMeans(s: System, t: System, job: nat)
    requires job in s.jobs && s.jobs[job].BindingRead?
  {
    var j := s.jobs[job];
    && Ends(s, t, job)
    && match j.trip
       case None => OtherThreadsStay(s.docs, t.docs, j.thread) && j.thread !in t.docs
       case Some(trip) => exists scope :: ScopeOfTrip(trip, scope) && BindingBecomes(s.docs, t.docs, j.thread, scope)
  }

  ghost predicate ArmMeans(s: System, t: System, thread: ThreadId, toolCallId: string) {
    if thread in s.docs
    then && PendingBecomes(s.docs, t.docs, thread, Some(PendingScope(toolCallId, s.docs[thread].scope)))
         && t.arms == s.arms + [Arm(thread, PendingScope(toolCallId, s.docs[thread].scope))]
         && thread in t.lastArm && t.lastArm[thread] == |s.arms|
    else t == s
  }

  /** The pending scope of the thread, if it is bound. */
  ghost predicate HasPending(docs: Threads, thread: ThreadId, pending: Option<PendingScope>) {
    if thread in docs then pending == docs[thread].pending else pending == None
  }

  /** What a write tool may be called with. */
  ghost predicate Accepted(e: Event) {
    match e
    case EditToolCalled(_, _, ops) => 1 <= |ops| <= 40 && forall op :: op in ops ==> op.WellFormed()
    case _ => true
  }

  /** The operation a write tool starts on a target, under the arming just consumed. */
  ghost predicate StartedBy(e: Event, arm: nat, target: Target, job: Job) {
    match e
    case EditToolCalled(_, _, ops) => job == EditStarted(arm, target, ops)
    case RevertToolCalled(_, _, revision) => job == RestoreStarted(Some(arm), target, revision)
    case _ => false
  }

  /** A write tool takes the pending scope away, and starts its operation on the trip and revision it is usable for. */
  ghost predicate ToolMeans(s: System, t: System, e: Event, pending: Option<PendingScope>)
    requires e.EditToolCalled? || e.RevertToolCalled?
  {
    && PendingBecomes(s.docs, t.docs, e.thread, None)
    && (|| (exists id, revision :: UsableBy(pending, e.toolCallId, id, revision) && ToolStarts(s, t, e, Target(id, revision)))
        || ((!Accepted(e) || forall id, revision :: !UsableBy(pending, e.toolCallId, id, revision)) && t.jobs == s.jobs))
  }

  ghost predicate ToolStarts(s: System, t: System, e: Event, target: Target) {
    && Accepted(e)
    && exists arm, job :: t.consumed == s.consumed + [arm] && StartedBy(e, arm, target, job) && Starts(s, t, job)
  }

  lemma DetailsAreRead(store: Store, id: TripId)
    ensures Reads(store, id, Details(store, id))
  {
  }

  lemma EditReadIsExact(s: System, job: nat)
    requires job in s.jobs && s.jobs[job].EditStarted?
    ensures EditReadMeans(s, StepEditRead(s, job), job)
  {
  }

  lemma RestoreReadIsExact(s: System, job: nat)
    requires job in s.jobs && s.jobs[job].RestoreStarted?
    ensures RestoreReadMeans(s, StepRestoreRead(s, job), job)
  {
  }

  lemma TargetReadIsExact(s: System, job: nat)
    requires job in s.jobs && s.jobs[job].RestoreRead?
    ensures TargetReadMeans(s, StepRestoreReadTarget(s, job), job)
  {
  }

  lemma BindIsExact(s: System, job: nat)
    requires job in s.jobs && s.jobs[job].BindingRead?
    ensures BindMeans(s, StepBind(s, job), job)
  {
    var j := s.jobs[job];
    hide ScopeOf, ScopeOfTrip;
    if j.trip.Some? {
      ScopeIsOfTrip(j.trip.value);
    }
  }

  lemma ConsumeIsExact(s: System, thread: ThreadId)
    requires Inv(s)
    ensures var t := Consume(s, thread);
            && PendingBecomes(s.docs, t.docs, thread, None) && t.jobs == s.jobs && t.nextJob == s.nextJob
            && (PendingOf(s.docs, thread).Some? ==> t.consumed == s.consumed + [ArmOf(s, thread)])
  {
    hide Inv;
    ConsumeKeeps(s, thread);
  }

  lemma UsableIsUnique(pending: Option<PendingScope>, toolCallId: string)
    ensures var usable := UsableScope(pending, toolCallId);
            forall id, revision :: UsableBy(pending, toolCallId, id, revision) <==> usable == Some(Target(id, revision))
  {
    forall id, revision
      ensures UsableBy(pending, toolCallId, id, revision) <==> UsableScope(pending, toolCallId) == Some(Target(id, revision))
    {
      UsableExactly(pending, toolCallId, id, revision);
    }
  }

  lemma UsableNeedsPending(pending: Option<PendingScope>, toolCallId: string)
    ensures UsableScope(pending, toolCallId).Some? ==> pending.Some?
  {
  }

  /** Consuming comes first and decides the documents; what starts is decided by the target. */
  lemma ToolRuns(s: System, e: Event, target: Option<Target>)
    requires e.EditToolCalled? || e.RevertToolCalled?
    requires target == UsableScope(PendingOf(s.docs, e.thread), e.toolCallId)
    requires Consume(s, e.thread).jobs == s.jobs && Consume(s, e.thread).nextJob == s.nextJob
    ensures var t, c := Step(s, e), Consume(s, e.thread);
            && t.docs == c.docs && t.consumed == c.consumed
            && if target.Some? && Accepted(e)
               then exists job :: StartedBy(e, ArmOf(s, e.thread), target.value, job) && Starts(s, t, job)
               else t.jobs == s.jobs
  {
    hide Consume, UsableScope, PendingOf;
    if target.Some? && Accepted(e) {
      var job := if e.EditToolCalled? then EditStarted(ArmOf(s, e.thread), target.value, e.ops)
                 else RestoreStarted(Some(ArmOf(s, e.thread)), target.value, e.revision);
      assert Step(s, e) == Begin(Consume(s, e.thread), job);
      hide Step, Accepted;
      assert StartedBy(e, ArmOf(s, e.thread), target.value, job);
    }
  }

  lemma ToolIsExact(s: System, e: Event, pending: Option<PendingScope>)
    requires Inv(s) && (e.EditToolCalled? || e.RevertToolCalled?) && HasPending(s.docs, e.thread, pending)
    ensures ToolMeans(s, Step(s, e), e, pending)
  {
    hide Inv, Step, Consume, UsableBy, UsableScope, PendingBecomes, Accepted, StartedBy, Starts;
    ConsumeIsExact(s, e.thread);
    UsableIsUnique(pending, e.toolCallId);
    var target, t := UsableScope(pending, e.toolCallId), Step(s, e);
    ToolRuns(s, e, target);
    if target.Some? && Accepted(e) {
      UsableNeedsPending(pending, e.toolCallId);
      var job :| StartedBy(e, ArmOf(s, e.thread), target.value, job) && Starts(s, t, job);
      assert ToolStarts(s, t, e, target.value);
      assert UsableBy(pending, e.toolCallId, target.value.id, target.value.revision);
    }
  }

  // ---------------------------------------------------------------------------------------
  // Every step
  // ---------------------------------------------------------------------------------------

  /** What one event does to a reachable state. */
  ghost predicate Happens(s: System, e: Event, t: System) {
    match e
    case Saved(id, snapshot) => CreationMeans(s, t, id, 0, CREATED, snapshot)
    case Imported(id, revision, snapshot) => CreationMeans(s, t, id, revision, MIGRATION, snapshot)
    case Updated(id, request) => UpdateMeans(s, t, id, request, MANUAL) && t.docs == s.docs && t.jobs == s.jobs
    case Deleted(id) => Gone(s.store, t.store, id) && t.docs == s.docs && t.jobs == s.jobs
    case RestoreRequested(target, revision) => Starts(s, t, RestoreStarted(None, target, revision)) && t.docs == s.docs
    case TripReadForBinding(thread, id) =>
      && t.docs == s.docs
      && exists read :: Reads(s.store, id, read) && Starts(s, t, BindingRead(thread, read))
    case TripBound(job) => if job in s.jobs && s.jobs[job].BindingRead? then BindMeans(s, t, job) else t == s
    case SelectionBound(thread, allowed) =>
      t.jobs == s.jobs && BindingBecomes(s.docs, t.docs, thread, Scope(PlaceSelection, None, None, None, None, allowed))
    case ScopeArmed(thread, toolCallId) => t.jobs == s.jobs && ArmMeans(s, t, thread, toolCallId)
    case ScopeDropped(thread) => t.jobs == s.jobs && PendingBecomes(s.docs, t.docs, thread, None)
    case DocumentDeleted(thread) => t.jobs == s.jobs && thread !in t.docs && OtherThreadsStay(s.docs, t.docs, thread)
    case EditToolCalled(thread, _, _) => forall pending :: HasPending(s.docs, thread, pending) ==> ToolMeans(s, t, e, pending)
    case RevertToolCalled(thread, _, _) => forall pending :: HasPending(s.docs, thread, pending) ==> ToolMeans(s, t, e, pending)
    case OtherToolCalled(thread) => t.jobs == s.jobs && PendingBecomes(s.docs, t.docs, thread, None)
    case EditReads(job) => if job in s.jobs && s.jobs[job].EditStarted? then EditReadMeans(s, t, job) else t == s
    case EditWrites(job, plan) => if job in s.jobs && s.jobs[job].EditRead? then EditWriteMeans(s, t, job, plan) else t == s
    case RestoreReads(job) => if job in s.jobs && s.jobs[job].RestoreStarted? then RestoreReadMeans(s, t, job) else t == s
    case RestoreReadsTarget(job) => if job in s.jobs && s.jobs[job].RestoreRead? then TargetReadMeans(s, t, job) else t == s
    case RestoreWrites(job) => if job in s.jobs && s.jobs[job].RestoreReady? then RestoreWriteMeans(s, t, job) else t == s
  }

  lemma WriteHappens(s: System, e: Event)
    requires Inv(s) && Writes(e)
    ensures Happens(s, e, Step(s, e))
  {
    hide Inv, Create, Commit, StepEditWrite, StepRestoreWrite, UpdateTx, CreationMeans, UpdateMeans, EditWriteMeans,
         RestoreWriteMeans, DeleteTx, Gone;
    match e {
      case Saved(id, snapshot) => CreationIsExact(s, id, 0, CREATED, snapshot);
      case Imported(id, revision, snapshot) => CreationIsExact(s, id, revision, MIGRATION, snapshot);
      case Updated(id, request) =>
        UpdateIsExact(s, id, request, MANUAL, ManualWriter);
        CommitStores(s, UpdateTx(s.store, id, request, MANUAL).0, id, ManualWriter);
      case Deleted(id) => DeleteOutcome(s.store, id);
      case EditWrites(job, plan) => if job in s.jobs && s.jobs[job].EditRead? { EditWriteIsExact(s, job, plan); }
      case RestoreWrites(job) => if job in s.jobs && s.jobs[job].RestoreReady? { RestoreWriteIsExact(s, job); }
    }
  }

  /** The steps that only read the tables. */
  lemma ReadHappens(s: System, e: Event)
    requires e.RestoreRequested? || e.TripReadForBinding? || e.EditReads? || e.RestoreReads? || e.RestoreReadsTarget?
    ensures Happens(s, e, Step(s, e))
  {
    hide StepEditRead, StepRestoreRead, StepRestoreReadTarget, EditReadMeans, RestoreReadMeans, TargetReadMeans, Details, Reads;
    match e {
      case RestoreRequested(_, _) =>
      case TripReadForBinding(thread, id) => DetailsAreRead(s.store, id);
      case EditReads(job) => if job in s.jobs && s.jobs[job].EditStarted? { EditReadIsExact(s, job); }
      case RestoreReads(job) => if job in s.jobs && s.jobs[job].RestoreStarted? { RestoreReadIsExact(s, job); }
      case RestoreReadsTarget(job) => if job in s.jobs && s.jobs[job].RestoreRead? { TargetReadIsExact(s, job); }
    }
  }

  lemma DocumentStepMeans(s: System, e: Event)
    requires e.SelectionBound? || e.ScopeDropped? || e.DocumentDeleted?
    ensures Happens(s, e, Step(s, e))
  {
  }

  lemma ArmIsExact(s: System, thread: ThreadId, toolCallId: string)
    ensures ArmMeans(s, ArmScope(s, thread, toolCallId), thread, toolCallId) && ArmScope(s, thread, toolCallId).jobs == s.jobs
  {
  }

  /** The steps on the documents of threads. */
  lemma ThreadHappens(s: System, e: Event)
    requires Inv(s)
    requires e.TripBound? || e.SelectionBound? || e.ScopeArmed? || e.ScopeDropped? || e.DocumentDeleted? || e.OtherToolCalled?
    ensures Happens(s, e, Step(s, e))
  {
    hide Inv, Consume, StepBind, BindMeans, ArmScope, ArmMeans, PendingBecomes, BindingBecomes, OtherThreadsStay;
    match e {
      case TripBound(job) => if job in s.jobs && s.jobs[job].BindingRead? { BindIsExact(s, job); }
      case ScopeArmed(thread, toolCallId) => ArmIsExact(s, thread, toolCallId);
      case OtherToolCalled(thread) => ConsumeIsExact(s, thread);
      case _ => DocumentStepMeans(s, e);
    }
  }

  lemma ToolHappens(s: System, e: Event)
    requires Inv(s) && (e.EditToolCalled? || e.RevertToolCalled?)
    ensures Happens(s, e, Step(s, e))
  {
    hide Inv, Step, ToolMeans, HasPending;
    forall pending | HasPending(s.docs, e.thread, pending) ensures ToolMeans(s, Step(s, e), e, pending) {
      ToolIsExact(s, e, pending);
    }
  }

  /**
   * Every step of a run does what its event says to the rows, the documents and the operations in flight;
   * a writer whose trip is still at the expected revision does write the next one. No other step touches a row.
   */
  lemma StepHappens(s: System, e: Event)
    requires Inv(s)
    ensures Happens(s, e, Step(s, e))
    ensures !Writes(e) ==> Step(s, e).store == s.store
  {
    hide Inv, Step, Happens;
    if Writes(e) {
      WriteHappens(s, e);
    } else {
      OthersTouchNoTable(s, e);
      if e.EditToolCalled? || e.RevertToolCalled? {
        ToolHappens(s, e);
      } else if e.RestoreRequested? || e.TripReadForBinding? || e.EditReads? || e.RestoreReads? || e.RestoreReadsTarget? {
        ReadHappens(s, e);
      } else {
        ThreadHappens(s, e);
      }
    }
  }

  /** A deletion is final: afterwards no reachable state has a row of the trip. */
  lemma DeletionIsFinal(events: seq<Event>, i: nat, id: TripId)
    requires i < |events| && events[i] == Deleted(id) && id in Run(events[..i]).births
    ensures id !in Run(events).store.trips
    ensures forall k :: k in Run(events).store.revisions ==> k.0 != id
  {
    hide Run, Inv, Extends, Step;
    RunKeeps(events[..i]);
    RunKeeps(events[..i + 1]);
    RunNext(events, i);
    StepHappens(Run(events[..i]), events[i]);
    assert id !in Run(events[..i + 1]).store.trips;
    StepKeeps(Run(events[..i]), events[i]);
    BirthGrew(Run(events[..i]), Run(events[..i + 1]), id);
    DeletedStaysDeleted(events, i + 1, id);
    RunKeeps(events);
    NoRowOfDeleted(Run(events), id);
  }

  lemma NoRowOfDeleted(s: System, id: TripId)
    requires Inv(s) && id !in s.store.trips
    ensures forall k :: k in s.store.revisions ==> k.0 != id
  {
    forall k | k in s.store.revisions ensures k.0 != id {
      assert RowSound(s, k);
    }
  }
}
