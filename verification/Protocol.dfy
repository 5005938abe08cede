/**
 * Editors, restores, manual updates and chat threads interleaving on the trip store. Every step is one
 * atomic action of the program: a transaction, a single read, or one update of a thread's document.
 */
module Protocol {
  import opened Wrappers
  import opened Sequences
  import opened Scheduling
  import opened TripRequests
  import opened Reconcile
  import opened ApplyEdits
  import opened TripStore
  import opened TripEditor
  import opened WriteScope
  import opened ChatTurns

  /** An operation between two of its steps. */
  datatype Job =
    | BindingRead(thread: ThreadId, trip: Option<TripDetail>)
    | EditStarted(arm: nat, target: Target, ops: seq<Operation>)
    | EditRead(arm: nat, target: Target, ops: seq<Operation>, base: Snapshot)
    | RestoreStarted(arming: Option<nat>, target: Target, revision: int)
    | RestoreRead(arming: Option<nat>, target: Target, revision: int)
    | RestoreReady(arming: Option<nat>, target: Target, revision: int, row: RevisionRow)

  /** Who wrote a revision. */
  datatype Writer =
    | Creator
    | ManualWriter
    | EditWriter(arm: nat, ops: seq<Operation>)
    | RestoreWriter(arming: Option<nat>)

  datatype Entry = Entry(row: RevisionRow, writer: Writer)

  datatype Birth = Birth(revision: int, plan: PlanType)

  datatype Arm = Arm(thread: ThreadId, pending: PendingScope)

  /**
   * The stored tables and documents, the operations in flight, and a history that no step reads: the
   * births of trips, a ledger of every revision ever written, the armings of scopes and their consumption.
   */
  datatype System = System(
    store: Store,
    docs: Threads,
    jobs: map<nat, Job>,
    nextJob: nat,
    births: map<TripId, Birth>,
    ledger: map<RevisionKey, Entry>,
    arms: seq<Arm>,
    lastArm: map<ThreadId, nat>,
    consumed: seq<nat>)

  const INITIAL := System(Store(map[], map[]), map[], map[], 0, map[], map[], [], map[], [])

  datatype Event =
    | Saved(id: TripId, snapshot: Snapshot)
    | Imported(id: TripId, revision: int, snapshot: Snapshot)
    | Updated(id: TripId, request: SaveRequest)
    | Deleted(id: TripId)
    | RestoreRequested(target: Target, revision: int)
    | TripReadForBinding(thread: ThreadId, id: TripId)
    | TripBound(job: nat)
    | SelectionBound(thread: ThreadId, allowed: seq<Id>)
    | ScopeArmed(thread: ThreadId, toolCallId: string)
    | ScopeDropped(thread: ThreadId)
    | DocumentDeleted(thread: ThreadId)
    | EditToolCalled(thread: ThreadId, toolCallId: string, ops: seq<Operation>)
    | RevertToolCalled(thread: ThreadId, toolCallId: string, revision: int)
    | OtherToolCalled(thread: ThreadId)
    | EditReads(job: nat)
    | EditWrites(job: nat, plan: Planner)
    | RestoreReads(job: nat)
    | RestoreReadsTarget(job: nat)
    | RestoreWrites(job: nat)

  // ---------------------------------------------------------------------------------------
  // Steps
  // ---------------------------------------------------------------------------------------

  function Begin(s: System, job: Job): (t: System)
    ensures t.store == s.store && t.ledger == s.ledger
  {
    s.(jobs := s.jobs[s.nextJob := job], nextJob := s.nextJob + 1)
  }

  function End(s: System, job: nat): (t: System)
    ensures t.store == s.store && t.ledger == s.ledger
  {
    s.(jobs := s.jobs - {job})
  }

  /** Commits a transaction on one trip, entering a newly written revision into the ledger. */
  function Commit(s: System, after: Store, id: TripId, writer: Writer): System {
    if id in after.trips && (id, after.trips[id].revision) in after.revisions
       && (id, after.trips[id].revision) !in s.store.revisions
    then
      var key := (id, after.trips[id].revision);
      s.(store := after, ledger := s.ledger[key := Entry(after.revisions[key], writer)])
    else s.(store := after)
  }

  /** Ids are minted fresh: an id that was ever used names no new trip. */
  function Create(s: System, id: TripId, revision: int, source: Source, snapshot: Snapshot): System {
    if id in s.births then s
    else
      var row, first := TripRow(snapshot.Plan(), revision, snapshot), RevisionRow(source, None, snapshot);
      var created := Commit(s, Write(s.store, id, row, first).0, id, Creator);
      created.(births := s.births[id := Birth(revision, snapshot.Plan())])
  }

  /** Takes the armed scope of a thread, recording which arming it came from. */
  function Consume(s: System, thread: ThreadId): (t: System)
    ensures t.store == s.store && t.ledger == s.ledger
  {
    var taken := s.(docs := Cleared(s.docs, thread));
    if PendingOf(s.docs, thread).Some? && thread in s.lastArm
    then taken.(consumed := s.consumed + [s.lastArm[thread]])
    else taken
  }

  function ArmOf(s: System, thread: ThreadId): nat {
    if thread in s.lastArm then s.lastArm[thread] else 0
  }

  function CallEditTool(s: System, thread: ThreadId, toolCallId: string, ops: seq<Operation>): (t: System)
    ensures t.store == s.store && t.ledger == s.ledger
  {
    var target := UsableScope(PendingOf(s.docs, thread), toolCallId);
    if target.None? || !ValidBatch(ops) then Consume(s, thread)
    else Begin(Consume(s, thread), EditStarted(ArmOf(s, thread), target.value, ops))
  }

  function CallRevertTool(s: System, thread: ThreadId, toolCallId: string, revision: int): (t: System)
    ensures t.store == s.store && t.ledger == s.ledger
  {
    var target := UsableScope(PendingOf(s.docs, thread), toolCallId);
    if target.None? then Consume(s, thread)
    else Begin(Consume(s, thread), RestoreStarted(Some(ArmOf(s, thread)), target.value, revision))
  }

  function ArmScope(s: System, thread: ThreadId, toolCallId: string): (t: System)
    ensures t.store == s.store && t.ledger == s.ledger
  {
    var docs := Armed(s.docs, thread, toolCallId);
    if thread !in docs || docs[thread].pending.None? then s
    else s.(docs := docs, arms := s.arms + [Arm(thread, docs[thread].pending.value)], lastArm := s.lastArm[thread := |s.arms|])
  }

  function StepEditRead(s: System, job: nat): (t: System)
    requires job in s.jobs && s.jobs[job].EditStarted?
    ensures t.store == s.store && t.ledger == s.ledger
  {
    var j := s.jobs[job];
    var readable := Readable(Details(s.store, j.target.id), j.target.revision);
    if readable.Err? then End(s, job)
    else s.(jobs := s.jobs[job := EditRead(j.arm, j.target, j.ops, readable.value.snapshot)])
  }

  function StepEditWrite(s: System, job: nat, plan: Planner): System
    requires job in s.jobs && s.jobs[job].EditRead?
  {
    var j := s.jobs[job];
    if !j.base.MultiDay? then End(s, job)
    else
      var edited := EditedSnapshot(j.base, j.ops, plan);
      if edited.Err? then End(s, job)
      else
        var request := SaveRequest(edited.value, Some(j.target.revision));
        End(Commit(s, UpdateTx(s.store, j.target.id, request, ORCHESTRATOR).0, j.target.id, EditWriter(j.arm, j.ops)), job)
  }

  function StepRestoreRead(s: System, job: nat): (t: System)
    requires job in s.jobs && s.jobs[job].RestoreStarted?
    ensures t.store == s.store && t.ledger == s.ledger
  {
    var j := s.jobs[job];
    if RestoreRefused(Details(s.store, j.target.id), j.revision, j.target.revision).Some? then End(s, job)
    else s.(jobs := s.jobs[job := RestoreRead(j.arming, j.target, j.revision)])
  }

  function StepRestoreReadTarget(s: System, job: nat): (t: System)
    requires job in s.jobs && s.jobs[job].RestoreRead?
    ensures t.store == s.store && t.ledger == s.ledger
  {
    var j := s.jobs[job];
    var row := RevisionAt(s.store, j.target.id, j.revision);
    if row.None? then End(s, job)
    else s.(jobs := s.jobs[job := RestoreReady(j.arming, j.target, j.revision, row.value)])
  }

  function StepRestoreWrite(s: System, job: nat): System
    requires job in s.jobs && s.jobs[job].RestoreReady?
  {
    var j := s.jobs[job];
    var after := RestoreTx(s.store, j.target.id, j.revision, j.row, j.target.revision).0;
    End(Commit(s, after, j.target.id, RestoreWriter(j.arming)), job)
  }

  function StepBind(s: System, job: nat): (t: System)
    requires job in s.jobs && s.jobs[job].BindingRead?
    ensures t.store == s.store && t.ledger == s.ledger
  {
    var j := s.jobs[job];
    var docs := if j.trip.None? then s.docs - {j.thread} else Bound(s.docs, j.thread, ScopeOf(j.trip.value));
    End(s.(docs := docs), job)
  }

  /** One step; an event that is not possible in a state leaves it unchanged. */
  function Step(s: System, e: Event): System {
    match e
    case Saved(id, snapshot) => Create(s, id, 0, CREATED, snapshot)
    case Imported(id, revision, snapshot) => Create(s, id, revision, MIGRATION, snapshot)
    case Updated(id, request) => Commit(s, UpdateTx(s.store, id, request, MANUAL).0, id, ManualWriter)
    case Deleted(id) => s.(store := DeleteTx(s.store, id).0)
    case RestoreRequested(target, revision) => Begin(s, RestoreStarted(None, target, revision))
    case TripReadForBinding(thread, id) => Begin(s, BindingRead(thread, Details(s.store, id)))
    case TripBound(job) => if job in s.jobs && s.jobs[job].BindingRead? then StepBind(s, job) else s
    case SelectionBound(thread, allowed) => s.(docs := Bound(s.docs, thread, SelectionScope(allowed)))
    case ScopeArmed(thread, toolCallId) => ArmScope(s, thread, toolCallId)
    case ScopeDropped(thread) => s.(docs := Cleared(s.docs, thread))
    case DocumentDeleted(thread) => s.(docs := s.docs - {thread})
    case EditToolCalled(thread, toolCallId, ops) => CallEditTool(s, thread, toolCallId, ops)
    case RevertToolCalled(thread, toolCallId, revision) => CallRevertTool(s, thread, toolCallId, revision)
    case OtherToolCalled(thread) => Consume(s, thread)
    case EditReads(job) => if job in s.jobs && s.jobs[job].EditStarted? then StepEditRead(s, job) else s
    case EditWrites(job, plan) => if job in s.jobs && s.jobs[job].EditRead? then StepEditWrite(s, job, plan) else s
    case RestoreReads(job) => if job in s.jobs && s.jobs[job].RestoreStarted? then StepRestoreRead(s, job) else s
    case RestoreReadsTarget(job) => if job in s.jobs && s.jobs[job].RestoreRead? then StepRestoreReadTarget(s, job) else s
    case RestoreWrites(job) => if job in s.jobs && s.jobs[job].RestoreReady? then StepRestoreWrite(s, job) else s
  }

  /** The state after any sequence of events: every interleaving is one. */
  function Run(events: seq<Event>): System {
    if events == [] then INITIAL else Step(Run(events[..|events| - 1]), events[|events| - 1])
  }

  // ---------------------------------------------------------------------------------------
  // The invariant
  // ---------------------------------------------------------------------------------------

  /** The rows of a live trip: a contiguous range from its birth to its current revision, and all of the ledger. */
  ghost predicate TripSound(s: System, id: TripId)
    requires id in s.store.trips
  {
    var row := s.store.trips[id];
    && id in s.births && s.births[id].revision <= row.revision && row.planType == s.births[id].plan
    && (forall r :: (id, r) in s.store.revisions <==> s.births[id].revision <= r <= row.revision)
    && (forall r :: (id, r) in s.ledger <==> (id, r) in s.store.revisions)
    && s.store.revisions[(id, row.revision)].snapshot == row.snapshot
  }

  /** Every revision row belongs to a live trip and is the one the ledger recorded. */
  ghost predicate RowSound(s: System, k: RevisionKey)
    requires k in s.store.revisions
  {
    k.0 in s.store.trips && k in s.ledger && s.ledger[k].row == s.store.revisions[k]
  }

  ghost predicate StoreSound(s: System) {
    && (forall id :: id in s.store.trips ==> TripSound(s, id))
    && (forall k :: k in s.store.revisions ==> RowSound(s, k))
  }

  /** A consumed arming for the given trip at the given revision. */
  ghost predicate ArmedFor(s: System, arm: nat, id: TripId, revision: int) {
    && arm < |s.arms| && arm in s.consumed
    && var scope := s.arms[arm].pending.scope;
       scope.kind == TripBinding && scope.tripId == Some(id) && scope.revision == Some(revision)
  }

  ghost predicate Holds(s: System, id: TripId, revision: int, snapshot: Snapshot) {
    (id, revision) in s.ledger && s.ledger[(id, revision)].row.snapshot == snapshot
  }

  /** The request of one snapshot comes from that of another by applying a batch of operations. */
  ghost predicate EditOf(base: Snapshot, ops: seq<Operation>, result: Snapshot) {
    && base.MultiDay? && result.MultiDay? && result.name == base.name
    && Applied(base.request, ops).Ok? && result.request == Applied(base.request, ops).value.request
  }

  /** What each kind of writer may have written. */
  ghost predicate EntrySound(s: System, id: TripId, r: int, e: Entry)
    requires id in s.births
  {
    && s.births[id].revision <= r && e.row.snapshot.Plan() == s.births[id].plan
    && (e.writer.Creator? || (id, r - 1) in s.ledger)
    && (e.row.restoredFrom.Some? <==> e.writer.RestoreWriter?)
    && match e.writer {
         case Creator => r == s.births[id].revision && (e.row.source == CREATED || e.row.source == MIGRATION)
         case ManualWriter => e.row.source == MANUAL
         case EditWriter(arm, ops) =>
           && e.row.source == ORCHESTRATOR && ArmedFor(s, arm, id, r - 1)
           && EditOf(s.ledger[(id, r - 1)].row.snapshot, ops, e.row.snapshot)
         case RestoreWriter(arming) =>
           && e.row.source == REVERT && (arming.Some? ==> ArmedFor(s, arming.value, id, r - 1))
           && e.row.restoredFrom.value < r && Holds(s, id, e.row.restoredFrom.value, e.row.snapshot)
       }
  }

  ghost predicate LedgerSound(s: System) {
    forall k :: k in s.ledger ==> k.0 in s.births && EntrySound(s, k.0, k.1, s.ledger[k])
  }

  ghost predicate JobSound(s: System, j: Job) {
    match j {
      case BindingRead(_, trip) => trip.Some? ==> Holds(s, trip.value.id, trip.value.revision, trip.value.snapshot)
      case EditStarted(arm, target, _) => ArmedFor(s, arm, target.id, target.revision)
      case EditRead(arm, target, _, base) =>
        ArmedFor(s, arm, target.id, target.revision) && Holds(s, target.id, target.revision, base)
      case RestoreStarted(arming, target, _) => arming.Some? ==> ArmedFor(s, arming.value, target.id, target.revision)
      case RestoreRead(arming, target, revision) =>
        (arming.Some? ==> ArmedFor(s, arming.value, target.id, target.revision)) && revision != target.revision
      case RestoreReady(arming, target, revision, row) =>
        && (arming.Some? ==> ArmedFor(s, arming.value, target.id, target.revision))
        && revision != target.revision && Holds(s, target.id, revision, row.snapshot)
    }
  }

  ghost predicate JobsSound(s: System) {
    forall j :: j in s.jobs ==> j < s.nextJob && JobSound(s, s.jobs[j])
  }

  /** An armed scope is the binding's own, comes from the thread's last arming, and was not consumed yet. */
  ghost predicate PendingSound(s: System, thread: ThreadId)
    requires thread in s.docs
  {
    s.docs[thread].pending.Some? ==>
      && s.docs[thread].pending.value.scope == s.docs[thread].scope
      && thread in s.lastArm && s.lastArm[thread] < |s.arms|
      && s.arms[s.lastArm[thread]] == Arm(thread, s.docs[thread].pending.value)
      && s.lastArm[thread] !in s.consumed
  }

  ghost predicate ScopesSound(s: System) {
    && (forall thread :: thread in s.docs ==> PendingSound(s, thread))
    && Distinct(s.consumed)
    && (forall a :: a in s.consumed ==> a < |s.arms|)
  }

  /** A trip binding always names a revision that was written. */
  ghost predicate BindingSound(s: System, scope: Scope) {
    scope.kind == TripBinding ==>
      scope.tripId.Some? && scope.revision.Some? && (scope.tripId.value, scope.revision.value) in s.ledger
  }

  ghost predicate BindingsSound(s: System) {
    forall thread :: thread in s.docs ==> BindingSound(s, s.docs[thread].scope)
  }

  ghost predicate Inv(s: System) {
    StoreSound(s) && LedgerSound(s) && JobsSound(s) && ScopesSound(s) && BindingsSound(s)
  }
}
