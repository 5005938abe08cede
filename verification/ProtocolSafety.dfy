/** What holds in every reachable state of the protocol, and over whole runs. */
module ProtocolSafety {
  import opened Wrappers
  import opened Sequences
  import opened Scheduling
  import opened TripRequests
  import opened Reconcile
  import opened ApplyEdits
  import opened TripStore
  import opened TripEditor
  import opened WriteScope
  import opened ChatTurns
  import opened Protocol

  // ---------------------------------------------------------------------------------------
  // History only grows
  // ---------------------------------------------------------------------------------------

  /** Births, written revisions, armings and consumptions are never taken back or changed. */
  ghost predicate Extends(s: System, t: System) {
    && (forall id :: id in s.births ==> id in t.births && t.births[id] == s.births[id])
    && (forall k :: k in s.ledger ==> k in t.ledger && t.ledger[k] == s.ledger[k])
    && |s.arms| <= |t.arms| && t.arms[..|s.arms|] == s.arms
    && (forall a :: a in s.consumed ==> a in t.consumed)
  }

  lemma ArmedForStays(s: System, t: System, arm: nat, id: TripId, revision: int)
    requires Extends(s, t) && ArmedFor(s, arm, id, revision)
    ensures ArmedFor(t, arm, id, revision)
  {
    assert t.arms[..|s.arms|][arm] == t.arms[arm];
  }

  lemma EntryStays(s: System, t: System, id: TripId, r: int, e: Entry)
    requires Extends(s, t) && id in s.births && EntrySound(s, id, r, e)
    ensures id in t.births && EntrySound(t, id, r, e)
  {
    hide EditOf;
    if e.writer.EditWriter? {
      ArmedForStays(s, t, e.writer.arm, id, r - 1);
    } else if e.writer.RestoreWriter? && e.writer.arming.Some? {
      ArmedForStays(s, t, e.writer.arming.value, id, r - 1);
    }
  }

  lemma LedgerStays(s: System, t: System)
    requires Extends(s, t) && LedgerSound(s)
    ensures forall k :: k in s.ledger ==> k.0 in t.births && EntrySound(t, k.0, k.1, t.ledger[k])
  {
    hide EntrySound;
    forall k | k in s.ledger ensures k.0 in t.births && EntrySound(t, k.0, k.1, t.ledger[k]) {
      EntryStays(s, t, k.0, k.1, s.ledger[k]);
    }
  }

  lemma JobStays(s: System, t: System, j: Job)
    requires Extends(s, t) && JobSound(s, j)
    ensures JobSound(t, j)
  {
    match j {
      case BindingRead(_, _) =>
      case EditStarted(arm, target, _) => ArmedForStays(s, t, arm, target.id, target.revision);
      case EditRead(arm, target, _, _) => ArmedForStays(s, t, arm, target.id, target.revision);
      case RestoreStarted(arming, target, _) =>
        if arming.Some? { ArmedForStays(s, t, arming.value, target.id, target.revision); }
      case RestoreRead(arming, target, _) =>
        if arming.Some? { ArmedForStays(s, t, arming.value, target.id, target.revision); }
      case RestoreReady(arming, target, _, _) =>
        if arming.Some? { ArmedForStays(s, t, arming.value, target.id, target.revision); }
    }
  }

  /** Steps that leave the jobs alone, drop one, or put a sound one in its place. */
  lemma JobsStay(s: System, t: System)
    requires Extends(s, t) && JobsSound(s) && s.nextJob <= t.nextJob
    requires forall j :: j in t.jobs ==> (j in s.jobs && t.jobs[j] == s.jobs[j]) || (j < t.nextJob && JobSound(t, t.jobs[j]))
    ensures JobsSound(t)
  {
    hide JobSound;
    forall j | j in t.jobs ensures j < t.nextJob && JobSound(t, t.jobs[j]) {
      if j in s.jobs && t.jobs[j] == s.jobs[j] {
        JobStays(s, t, s.jobs[j]);
      }
    }
  }

  /** A thread's document, the arming it names and the consumed armings decide whether its scope is sound. */
  lemma ScopesStay(s: System, t: System)
    requires Extends(s, t) && ScopesSound(s) && t.docs == s.docs && t.lastArm == s.lastArm && t.consumed == s.consumed
    ensures ScopesSound(t)
  {
    forall thread | thread in t.docs ensures PendingSound(t, thread) {
      assert PendingSound(s, thread);
      assert thread in s.lastArm && s.lastArm[thread] < |s.arms| ==>
               t.arms[..|s.arms|][s.lastArm[thread]] == t.arms[s.lastArm[thread]];
    }
  }

  lemma BindingsStay(s: System, t: System)
    requires Extends(s, t) && BindingsSound(s) && t.docs == s.docs
    ensures BindingsSound(t)
  {
    forall thread | thread in t.docs ensures BindingSound(t, t.docs[thread].scope) {
      assert BindingSound(s, s.docs[thread].scope);
    }
  }

  /** What every step keeps that changes only the store, the births and the ledger, and drops jobs. */
  lemma StoreStepKeeps(s: System, t: System)
    requires Inv(s) && Extends(s, t) && StoreSound(t)
    requires forall k :: k in t.ledger && k !in s.ledger ==> k.0 in t.births && EntrySound(t, k.0, k.1, t.ledger[k])
    requires t.docs == s.docs && t.lastArm == s.lastArm && t.consumed == s.consumed && t.nextJob == s.nextJob
    requires forall j :: j in t.jobs ==> j in s.jobs && t.jobs[j] == s.jobs[j]
    ensures Inv(t)
  {
    LedgerStays(s, t);
    JobsStay(s, t);
    ScopesStay(s, t);
    BindingsStay(s, t);
    hide EntrySound, TripSound, JobSound, PendingSound, BindingSound, StoreSound;
  }

  // ---------------------------------------------------------------------------------------
  // Writing the next revision
  // ---------------------------------------------------------------------------------------

  /** A trip moves to its next revision. */
  function Advanced(s: System, id: TripId, e: Entry): System
    requires id in s.store.trips
  {
    var next := s.store.trips[id].revision + 1;
    s.(store := Store(s.store.trips[id := TripRow(e.row.snapshot.Plan(), next, e.row.snapshot)],
                      s.store.revisions[(id, next) := e.row]),
       ledger := s.ledger[(id, next) := e])
  }

  lemma AdvanceExtends(s: System, id: TripId, e: Entry)
    requires StoreSound(s) && id in s.store.trips
    ensures (id, s.store.trips[id].revision + 1) !in s.ledger
    ensures Extends(s, Advanced(s, id, e))
  {
    assert TripSound(s, id);
  }

  lemma AdvancedStoreSound(s: System, id: TripId, e: Entry)
    requires StoreSound(s) && id in s.store.trips && e.row.snapshot.Plan() == s.store.trips[id].planType
    ensures StoreSound(Advanced(s, id, e))
  {
    var t := Advanced(s, id, e);
    assert TripSound(s, id);
    forall x | x in t.store.trips ensures TripSound(t, x) {
      if x != id {
        assert TripSound(s, x);
      }
    }
    forall k | k in t.store.revisions ensures RowSound(t, k) {
      if k in s.store.revisions {
        assert RowSound(s, k);
      }
    }
  }

  lemma AdvanceKeeps(s: System, id: TripId, e: Entry)
    requires Inv(s) && id in s.store.trips && e.row.snapshot.Plan() == s.store.trips[id].planType
    requires id in s.births && EntrySound(Advanced(s, id, e), id, s.store.trips[id].revision + 1, e)
    ensures Inv(Advanced(s, id, e)) && Extends(s, Advanced(s, id, e))
  {
    hide EntrySound, StoreSound, LedgerSound, JobsSound, ScopesSound, BindingsSound;
    AdvanceExtends(s, id, e);
    AdvancedStoreSound(s, id, e);
    StoreStepKeeps(s, Advanced(s, id, e));
  }

  /** The primary key of the next revision is never taken. */
  lemma NextRevisionIsFree(s: System, id: TripId)
    requires StoreSound(s) && id in s.store.trips
    ensures (id, s.store.trips[id].revision + 1) !in s.store.revisions
    ensures (id, s.store.trips[id].revision) in s.store.revisions
  {
    assert TripSound(s, id);
  }

  /** A committed update writes nothing, or exactly the next revision of a trip that was at the expected one. */
  lemma UpdateCommits(s: System, id: TripId, request: SaveRequest, source: Source, writer: Writer)
    requires StoreSound(s)
    ensures UpdateTx(s.store, id, request, source).1 != Err(PrimaryKeyViolated)
    ensures var t := Commit(s, UpdateTx(s.store, id, request, source).0, id, writer);
            || t == s
            || (&& id in s.store.trips && request.expectedRevision == Some(s.store.trips[id].revision)
                && request.snapshot.Plan() == s.store.trips[id].planType
                && t == Advanced(s, id, Entry(RevisionRow(source, None, request.snapshot), writer)))
  {
    if id in s.store.trips {
      NextRevisionIsFree(s, id);
    }
    hide StoreSound;
  }

  lemma RestoreCommits(s: System, id: TripId, target: int, row: RevisionRow, expected: int, writer: Writer)
    requires StoreSound(s)
    ensures RestoreTx(s.store, id, target, row, expected).1 != Err(PrimaryKeyViolated)
    ensures var t := Commit(s, RestoreTx(s.store, id, target, row, expected).0, id, writer);
            || t == s
            || (&& id in s.store.trips && expected == s.store.trips[id].revision
                && t == Advanced(s, id, Entry(RevisionRow(REVERT, Some(target), row.snapshot), writer)))
  {
    if id in s.store.trips {
      NextRevisionIsFree(s, id);
    }
    hide StoreSound;
  }

  lemma CurrentIsHeld(s: System, id: TripId)
    requires StoreSound(s) && id in s.store.trips
    ensures id in s.births && s.births[id].plan == s.store.trips[id].planType
    ensures s.births[id].revision <= s.store.trips[id].revision
    ensures Holds(s, id, s.store.trips[id].revision, s.store.trips[id].snapshot)
  {
    assert TripSound(s, id);
    assert RowSound(s, (id, s.store.trips[id].revision));
  }

  lemma ManualUpdateKeeps(s: System, id: TripId, request: SaveRequest)
    requires Inv(s)
    ensures Inv(Step(s, Updated(id, request))) && Extends(s, Step(s, Updated(id, request)))
  {
    hide StoreSound, LedgerSound, JobsSound, ScopesSound, BindingsSound, UpdateTx, Commit;
    UpdateCommits(s, id, request, MANUAL, ManualWriter);
    if id in s.store.trips {
      CurrentIsHeld(s, id);
      var e := Entry(RevisionRow(MANUAL, None, request.snapshot), ManualWriter);
      if request.snapshot.Plan() == s.store.trips[id].planType {
        assert EntrySound(Advanced(s, id, e), id, s.store.trips[id].revision + 1, e);
        hide EntrySound;
        AdvanceKeeps(s, id, e);
      }
    }
  }

  /** What the editor writes is sound: the revision before is the one it read and edited. */
  lemma EditEntrySound(s: System, id: TripId, j: Job, snapshot: Snapshot, e: Entry)
    requires StoreSound(s) && id in s.store.trips && j.EditRead? && JobSound(s, j) && EditOf(j.base, j.ops, snapshot)
    requires j.target == Target(id, s.store.trips[id].revision) && snapshot.Plan() == s.store.trips[id].planType
    requires e == Entry(RevisionRow(ORCHESTRATOR, None, snapshot), EditWriter(j.arm, j.ops))
    ensures id in s.births && EntrySound(Advanced(s, id, e), id, s.store.trips[id].revision + 1, e)
  {
    CurrentIsHeld(s, id);
    hide StoreSound, EditOf;
    assert ArmedFor(Advanced(s, id, e), j.arm, id, j.target.revision);
  }

  /** The editor's compare-and-set: if it writes, the trip still held what the editor had read. */
  lemma EditCommitKeeps(s: System, j: Job, snapshot: Snapshot)
    requires Inv(s) && j.EditRead? && JobSound(s, j) && EditOf(j.base, j.ops, snapshot)
    ensures var request := SaveRequest(snapshot, Some(j.target.revision));
            var t := Commit(s, UpdateTx(s.store, j.target.id, request, ORCHESTRATOR).0, j.target.id, EditWriter(j.arm, j.ops));
            Inv(t) && Extends(s, t)
  {
    hide StoreSound, LedgerSound, JobsSound, ScopesSound, BindingsSound, UpdateTx, Commit, EditOf, JobSound, EntrySound;
    var id := j.target.id;
    var request := SaveRequest(snapshot, Some(j.target.revision));
    var writer := EditWriter(j.arm, j.ops);
    UpdateCommits(s, id, request, ORCHESTRATOR, writer);
    if id in s.store.trips && s.store.trips[id].revision == j.target.revision {
      var e := Entry(RevisionRow(ORCHESTRATOR, None, snapshot), writer);
      if snapshot.Plan() == s.store.trips[id].planType {
        EditEntrySound(s, id, j, snapshot, e);
        AdvanceKeeps(s, id, e);
      }
    }
  }

  lemma EndKeeps(s: System, job: nat)
    requires Inv(s)
    ensures Inv(End(s, job)) && Extends(s, End(s, job))
  {
    hide StoreSound, LedgerSound, JobsSound, ScopesSound, BindingsSound, EntrySound;
    SameTablesSound(s, End(s, job));
    StoreStepKeeps(s, End(s, job));
  }

  lemma SameTablesSound(s: System, t: System)
    requires StoreSound(s) && t.store == s.store && t.births == s.births && t.ledger == s.ledger
    ensures StoreSound(t)
  {
    forall id | id in t.store.trips ensures TripSound(t, id) {
      assert TripSound(s, id);
    }
    forall k | k in t.store.revisions ensures RowSound(t, k) {
      assert RowSound(s, k);
    }
  }

  lemma JobIsSound(s: System, job: nat)
    requires JobsSound(s) && job in s.jobs
    ensures JobSound(s, s.jobs[job]) && job < s.nextJob
  {
  }

  lemma EditedIsEdit(base: Snapshot, ops: seq<Operation>, plan: Planner)
    requires base.MultiDay? && EditedSnapshot(base, ops, plan).Ok?
    ensures EditOf(base, ops, EditedSnapshot(base, ops, plan).value)
  {
    hide Applied;
  }

  lemma EditWriteKeeps(s: System, job: nat, plan: Planner)
    requires Inv(s) && job in s.jobs && s.jobs[job].EditRead?
    ensures Inv(StepEditWrite(s, job, plan)) && Extends(s, StepEditWrite(s, job, plan))
  {
    hide StoreSound, LedgerSound, JobsSound, ScopesSound, BindingsSound, EditOf, Commit, UpdateTx, EditedSnapshot, JobSound;
    var j := s.jobs[job];
    EndKeeps(s, job);
    if j.base.MultiDay? && EditedSnapshot(j.base, j.ops, plan).Ok? {
      var snapshot := EditedSnapshot(j.base, j.ops, plan).value;
      JobIsSound(s, job);
      EditedIsEdit(j.base, j.ops, plan);
      EditCommitKeeps(s, j, snapshot);
      var request := SaveRequest(snapshot, Some(j.target.revision));
      EndKeeps(Commit(s, UpdateTx(s.store, j.target.id, request, ORCHESTRATOR).0, j.target.id, EditWriter(j.arm, j.ops)), job);
    }
  }

  /** What a restore writes is sound: a copy of a strictly earlier revision. */
  lemma RestoreEntrySound(s: System, id: TripId, j: Job, e: Entry)
    requires StoreSound(s) && LedgerSound(s) && id in s.store.trips && j.RestoreReady? && JobSound(s, j)
    requires j.target == Target(id, s.store.trips[id].revision)
    requires e == Entry(RevisionRow(REVERT, Some(j.revision), j.row.snapshot), RestoreWriter(j.arming))
    ensures e.row.snapshot.Plan() == s.store.trips[id].planType
    ensures id in s.births && EntrySound(Advanced(s, id, e), id, s.store.trips[id].revision + 1, e)
  {
    hide StoreSound;
    CurrentIsHeld(s, id);
    TargetIsEarlier(s, id, j.revision);
    assert EntrySound(s, id, j.revision, s.ledger[(id, j.revision)]);
    assert j.arming.Some? ==> ArmedFor(Advanced(s, id, e), j.arming.value, id, j.target.revision);
    assert Holds(Advanced(s, id, e), id, j.revision, j.row.snapshot) by {
      AdvanceExtends(s, id, e);
    }
  }

  /** The restore's compare-and-set: if it writes, its target is a strictly earlier revision. */
  lemma RestoreCommitKeeps(s: System, j: Job)
    requires Inv(s) && j.RestoreReady? && JobSound(s, j)
    ensures var t := Commit(s, RestoreTx(s.store, j.target.id, j.revision, j.row, j.target.revision).0, j.target.id,
                            RestoreWriter(j.arming));
            Inv(t) && Extends(s, t)
  {
    hide StoreSound, LedgerSound, JobsSound, ScopesSound, BindingsSound, RestoreTx, Commit, JobSound, EntrySound;
    var id := j.target.id;
    var writer := RestoreWriter(j.arming);
    RestoreCommits(s, id, j.revision, j.row, j.target.revision, writer);
    if id in s.store.trips && s.store.trips[id].revision == j.target.revision {
      var e := Entry(RevisionRow(REVERT, Some(j.revision), j.row.snapshot), writer);
      RestoreEntrySound(s, id, j, e);
      AdvanceKeeps(s, id, e);
    }
  }

  /** What the ledger holds of a live trip is not beyond its current revision. */
  lemma TargetIsEarlier(s: System, id: TripId, revision: int)
    requires StoreSound(s) && id in s.store.trips && (id, revision) in s.ledger
    ensures revision <= s.store.trips[id].revision
  {
    assert TripSound(s, id);
    assert (id, revision) in s.store.revisions;
  }

  lemma RestoreWriteKeeps(s: System, job: nat)
    requires Inv(s) && job in s.jobs && s.jobs[job].RestoreReady?
    ensures Inv(StepRestoreWrite(s, job)) && Extends(s, StepRestoreWrite(s, job))
  {
    hide StoreSound, LedgerSound, JobsSound, ScopesSound, BindingsSound, RestoreTx, Commit, JobSound;
    var j := s.jobs[job];
    JobIsSound(s, job);
    RestoreCommitKeeps(s, j);
    EndKeeps(Commit(s, RestoreTx(s.store, j.target.id, j.revision, j.row, j.target.revision).0, j.target.id,
                    RestoreWriter(j.arming)), job);
  }

  // ---------------------------------------------------------------------------------------
  // Creating and deleting trips
  // ---------------------------------------------------------------------------------------

  lemma UnbornHasNothing(s: System, id: TripId)
    requires StoreSound(s) && LedgerSound(s) && id !in s.births
    ensures id !in s.store.trips
    ensures forall r :: (id, r) !in s.store.revisions && (id, r) !in s.ledger
  {
    assert id in s.store.trips ==> TripSound(s, id);
    assert forall r :: (id, r) in s.store.revisions ==> RowSound(s, (id, r));
  }

  function Born(s: System, id: TripId, revision: int, source: Source, snapshot: Snapshot): System {
    var first := RevisionRow(source, None, snapshot);
    s.(store := Store(s.store.trips[id := TripRow(snapshot.Plan(), revision, snapshot)],
                      s.store.revisions[(id, revision) := first]),
       ledger := s.ledger[(id, revision) := Entry(first, Creator)],
       births := s.births[id := Birth(revision, snapshot.Plan())])
  }

  lemma SoundTables(s: System)
    requires forall id :: id in s.store.trips ==> TripSound(s, id)
    requires forall k :: k in s.store.revisions ==> RowSound(s, k)
    ensures StoreSound(s)
  {
  }

  lemma BornTripSound(s: System, id: TripId, revision: int, source: Source, snapshot: Snapshot, x: TripId)
    requires StoreSound(s) && id !in s.births && forall r :: (id, r) !in s.store.revisions && (id, r) !in s.ledger
    requires x in Born(s, id, revision, source, snapshot).store.trips
    ensures TripSound(Born(s, id, revision, source, snapshot), x)
  {
    if x != id {
      assert TripSound(s, x);
    }
    hide StoreSound;
  }

  lemma BornRowSound(s: System, id: TripId, revision: int, source: Source, snapshot: Snapshot, k: RevisionKey)
    requires StoreSound(s) && k in Born(s, id, revision, source, snapshot).store.revisions
    requires (id, revision) !in s.ledger
    ensures RowSound(Born(s, id, revision, source, snapshot), k)
  {
    if k in s.store.revisions {
      assert RowSound(s, k);
    }
    hide StoreSound;
  }

  lemma BornStoreSound(s: System, id: TripId, revision: int, source: Source, snapshot: Snapshot)
    requires StoreSound(s) && LedgerSound(s) && id !in s.births
    ensures StoreSound(Born(s, id, revision, source, snapshot))
  {
    var t := Born(s, id, revision, source, snapshot);
    UnbornHasNothing(s, id);
    hide StoreSound, LedgerSound;
    forall x | x in t.store.trips ensures TripSound(t, x) {
      BornTripSound(s, id, revision, source, snapshot, x);
    }
    forall k | k in t.store.revisions ensures RowSound(t, k) {
      BornRowSound(s, id, revision, source, snapshot, k);
    }
    assert StoreSound(t) by {
      SoundTables(t);
    }
  }

  lemma FirstEntrySound(t: System, id: TripId, revision: int, snapshot: Snapshot)
    requires id in t.births && t.births[id] == Birth(revision, snapshot.Plan()) && (id, revision) in t.ledger
    requires t.ledger[(id, revision)] == Entry(RevisionRow(CREATED, None, snapshot), Creator)
          || t.ledger[(id, revision)] == Entry(RevisionRow(MIGRATION, None, snapshot), Creator)
    ensures EntrySound(t, id, revision, t.ledger[(id, revision)])
  {
  }

  lemma CreateKeeps(s: System, id: TripId, revision: int, source: Source, snapshot: Snapshot)
    requires Inv(s) && (source == CREATED || source == MIGRATION)
    ensures Inv(Create(s, id, revision, source, snapshot)) && Extends(s, Create(s, id, revision, source, snapshot))
  {
    hide StoreSound, LedgerSound, JobsSound, ScopesSound, BindingsSound, EntrySound;
    if id !in s.births {
      var t := Born(s, id, revision, source, snapshot);
      UnbornHasNothing(s, id);
      BornStoreSound(s, id, revision, source, snapshot);
      assert Create(s, id, revision, source, snapshot) == t;
      hide Create, Commit, Write;
      assert EntrySound(t, id, revision, t.ledger[(id, revision)]) by {
        FirstEntrySound(t, id, revision, snapshot);
      }
      StoreStepKeeps(s, t);
    }
  }

  lemma DeletedStoreSound(s: System, id: TripId)
    requires StoreSound(s)
    ensures StoreSound(s.(store := DeleteTx(s.store, id).0))
  {
    var t := s.(store := DeleteTx(s.store, id).0);
    forall x | x in t.store.trips ensures TripSound(t, x) {
      assert TripSound(s, x);
    }
    forall k | k in t.store.revisions ensures RowSound(t, k) {
      assert RowSound(s, k);
    }
  }

  lemma DeleteKeeps(s: System, id: TripId)
    requires Inv(s)
    ensures Inv(Step(s, Deleted(id))) && Extends(s, Step(s, Deleted(id)))
  {
    hide StoreSound, LedgerSound, JobsSound, ScopesSound, BindingsSound, EntrySound;
    DeletedStoreSound(s, id);
    StoreStepKeeps(s, Step(s, Deleted(id)));
  }

  // ---------------------------------------------------------------------------------------
  // Jobs that begin and read
  // ---------------------------------------------------------------------------------------

  /** A sound job is added or replaces another; nothing else changes. */
  lemma JobStepKeeps(s: System, t: System)
    requires Inv(s) && t == s.(jobs := t.jobs, nextJob := t.nextJob) && s.nextJob <= t.nextJob
    requires forall j :: j in t.jobs ==> (j in s.jobs && t.jobs[j] == s.jobs[j]) || (j < t.nextJob && JobSound(s, t.jobs[j]))
    ensures Inv(t) && Extends(s, t)
  {
    SameTablesSound(s, t);
    LedgerStays(s, t);
    ScopesStay(s, t);
    BindingsStay(s, t);
    hide StoreSound, EntrySound, JobSound, PendingSound, BindingSound;
    forall j | j in t.jobs ensures j < t.nextJob && JobSound(t, t.jobs[j]) {
      JobStays(s, t, t.jobs[j]);
    }
  }

  lemma BeginKeeps(s: System, job: Job)
    requires Inv(s) && JobSound(s, job)
    ensures Inv(Begin(s, job)) && Extends(s, Begin(s, job))
  {
    hide StoreSound, LedgerSound, JobsSound, ScopesSound, BindingsSound, JobSound;
    JobStepKeeps(s, Begin(s, job));
  }

  lemma ReplaceKeeps(s: System, job: nat, next: Job)
    requires Inv(s) && job in s.jobs && JobSound(s, next)
    ensures Inv(s.(jobs := s.jobs[job := next])) && Extends(s, s.(jobs := s.jobs[job := next]))
  {
    hide StoreSound, LedgerSound, JobsSound, ScopesSound, BindingsSound, JobSound;
    JobIsSound(s, job);
    JobStepKeeps(s, s.(jobs := s.jobs[job := next]));
  }

  lemma EditReadKeeps(s: System, job: nat)
    requires Inv(s) && job in s.jobs && s.jobs[job].EditStarted?
    ensures Inv(StepEditRead(s, job)) && Extends(s, StepEditRead(s, job))
  {
    hide StoreSound, LedgerSound, JobsSound, ScopesSound, BindingsSound;
    var j := s.jobs[job];
    JobIsSound(s, job);
    EndKeeps(s, job);
    var readable := Readable(Details(s.store, j.target.id), j.target.revision);
    if readable.Ok? {
      CurrentIsHeld(s, j.target.id);
      ReplaceKeeps(s, job, EditRead(j.arm, j.target, j.ops, readable.value.snapshot));
    }
  }

  lemma RestoreReadKeeps(s: System, job: nat)
    requires Inv(s) && job in s.jobs && s.jobs[job].RestoreStarted?
    ensures Inv(StepRestoreRead(s, job)) && Extends(s, StepRestoreRead(s, job))
  {
    hide StoreSound, LedgerSound, JobsSound, ScopesSound, BindingsSound;
    var j := s.jobs[job];
    JobIsSound(s, job);
    EndKeeps(s, job);
    if RestoreRefused(Details(s.store, j.target.id), j.revision, j.target.revision).None? {
      ReplaceKeeps(s, job, RestoreRead(j.arming, j.target, j.revision));
    }
  }

  lemma RowIsHeld(s: System, id: TripId, revision: int)
    requires StoreSound(s) && (id, revision) in s.store.revisions
    ensures Holds(s, id, revision, s.store.revisions[(id, revision)].snapshot)
  {
    assert RowSound(s, (id, revision));
  }

  lemma RestoreReadTargetKeeps(s: System, job: nat)
    requires Inv(s) && job in s.jobs && s.jobs[job].RestoreRead?
    ensures Inv(StepRestoreReadTarget(s, job)) && Extends(s, StepRestoreReadTarget(s, job))
  {
    hide StoreSound, LedgerSound, JobsSound, ScopesSound, BindingsSound;
    var j := s.jobs[job];
    JobIsSound(s, job);
    EndKeeps(s, job);
    var row := RevisionAt(s.store, j.target.id, j.revision);
    if row.Some? {
      RowIsHeld(s, j.target.id, j.revision);
      ReplaceKeeps(s, job, RestoreReady(j.arming, j.target, j.revision, row.value));
    }
  }

  lemma ReadForBindingKeeps(s: System, thread: ThreadId, id: TripId)
    requires Inv(s)
    ensures Inv(Step(s, TripReadForBinding(thread, id))) && Extends(s, Step(s, TripReadForBinding(thread, id)))
  {
    hide StoreSound, LedgerSound, JobsSound, ScopesSound, BindingsSound;
    if id in s.store.trips {
      CurrentIsHeld(s, id);
    }
    BeginKeeps(s, BindingRead(thread, Details(s.store, id)));
  }

  // ---------------------------------------------------------------------------------------
  // Scopes
  // ---------------------------------------------------------------------------------------

  /** Steps on documents and armings leave the tables, the ledger and the jobs alone. */
  lemma ScopeStepKeeps(s: System, t: System)
    requires Inv(s) && t == s.(docs := t.docs, arms := t.arms, lastArm := t.lastArm, consumed := t.consumed)
    requires |s.arms| <= |t.arms| && t.arms[..|s.arms|] == s.arms
    requires forall a :: a in s.consumed ==> a in t.consumed
    requires ScopesSound(t)
    requires forall thread :: thread in t.docs ==>
               (thread in s.docs && t.docs[thread].scope == s.docs[thread].scope) || BindingSound(s, t.docs[thread].scope)
    ensures Inv(t) && Extends(s, t)
  {
    SameTablesSound(s, t);
    LedgerStays(s, t);
    JobsStay(s, t);
    hide StoreSound, EntrySound, JobSound, ScopesSound;
    forall thread | thread in t.docs ensures BindingSound(t, t.docs[thread].scope) {
      if thread in s.docs {
        assert BindingSound(s, s.docs[thread].scope);
      }
    }
  }

  /** Documents without a pending scope may change freely. */
  lemma DocStepKeeps(s: System, t: System, thread: ThreadId)
    requires Inv(s) && t == s.(docs := t.docs)
    requires forall x :: x in t.docs && x != thread ==> x in s.docs && t.docs[x] == s.docs[x]
    requires thread in t.docs ==> t.docs[thread].pending.None?
    requires thread in t.docs ==>
               (thread in s.docs && t.docs[thread].scope == s.docs[thread].scope) || BindingSound(s, t.docs[thread].scope)
    ensures Inv(t) && Extends(s, t)
  {
    hide StoreSound, LedgerSound, JobsSound, BindingsSound, BindingSound;
    forall x | x in t.docs ensures PendingSound(t, x) {
      if x != thread {
        assert PendingSound(s, x);
      }
    }
    assert ScopesSound(t);
    ScopeStepKeeps(s, t);
  }

  lemma BindKeeps(s: System, job: nat)
    requires Inv(s) && job in s.jobs && s.jobs[job].BindingRead?
    ensures Inv(StepBind(s, job)) && Extends(s, StepBind(s, job))
  {
    hide StoreSound, LedgerSound, JobsSound, ScopesSound, BindingsSound;
    var j := s.jobs[job];
    JobIsSound(s, job);
    var docs := if j.trip.None? then s.docs - {j.thread} else Bound(s.docs, j.thread, ScopeOf(j.trip.value));
    DocStepKeeps(s, s.(docs := docs), j.thread);
    EndKeeps(s.(docs := docs), job);
  }

  lemma ArmKeeps(s: System, thread: ThreadId, toolCallId: string)
    requires Inv(s)
    ensures Inv(ArmScope(s, thread, toolCallId)) && Extends(s, ArmScope(s, thread, toolCallId))
  {
    hide StoreSound, LedgerSound, JobsSound, BindingsSound, BindingSound;
    var t := ArmScope(s, thread, toolCallId);
    if thread in s.docs {
      forall x | x in t.docs ensures PendingSound(t, x) {
        assert PendingSound(s, x);
      }
      assert ScopesSound(t);
      ScopeStepKeeps(s, t);
    }
  }

  lemma ConsumedScopesSound(s: System, thread: ThreadId)
    requires ScopesSound(s)
    ensures ScopesSound(Consume(s, thread))
    ensures PendingOf(s.docs, thread).Some? ==>
              && ArmOf(s, thread) !in s.consumed && ArmOf(s, thread) < |s.arms|
              && s.arms[ArmOf(s, thread)] == Arm(thread, PendingOf(s.docs, thread).value)
              && Consume(s, thread).consumed == s.consumed + [ArmOf(s, thread)]
  {
    var t := Consume(s, thread);
    if thread in s.docs {
      assert PendingSound(s, thread);
    }
    forall x | x in t.docs ensures PendingSound(t, x) {
      assert PendingSound(s, x);
      if x != thread && t.docs[x].pending.Some? && t.consumed != s.consumed {
        assert s.arms[s.lastArm[x]].thread != s.arms[s.lastArm[thread]].thread;
      }
    }
    if t.consumed != s.consumed {
      ConcatDistinct(s.consumed, [s.lastArm[thread]]);
    }
  }

  /** Consuming takes an arming that was never consumed before. */
  lemma ConsumeKeeps(s: System, thread: ThreadId)
    requires Inv(s)
    ensures Inv(Consume(s, thread)) && Extends(s, Consume(s, thread))
    ensures PendingOf(s.docs, thread).Some? ==>
              && ArmOf(s, thread) !in s.consumed && ArmOf(s, thread) < |s.arms|
              && s.arms[ArmOf(s, thread)] == Arm(thread, PendingOf(s.docs, thread).value)
              && Consume(s, thread).consumed == s.consumed + [ArmOf(s, thread)]
    ensures PendingOf(Consume(s, thread).docs, thread).None?
  {
    hide StoreSound, LedgerSound, JobsSound, BindingsSound, BindingSound;
    ConsumedScopesSound(s, thread);
    ScopeStepKeeps(s, Consume(s, thread));
  }

  /** A usable consumed scope is an arming for its trip and revision. */
  lemma UsableIsArmed(s: System, thread: ThreadId, toolCallId: string)
    requires Inv(s) && UsableScope(PendingOf(s.docs, thread), toolCallId).Some?
    ensures var target := UsableScope(PendingOf(s.docs, thread), toolCallId).value;
            ArmedFor(Consume(s, thread), ArmOf(s, thread), target.id, target.revision)
  {
    hide StoreSound, LedgerSound, JobsSound, ScopesSound, BindingsSound;
    ConsumeKeeps(s, thread);
  }

  lemma EditToolKeeps(s: System, thread: ThreadId, toolCallId: string, ops: seq<Operation>)
    requires Inv(s)
    ensures Inv(CallEditTool(s, thread, toolCallId, ops)) && Extends(s, CallEditTool(s, thread, toolCallId, ops))
  {
    hide StoreSound, LedgerSound, JobsSound, ScopesSound, BindingsSound;
    var target := UsableScope(PendingOf(s.docs, thread), toolCallId);
    ConsumeKeeps(s, thread);
    if target.Some? && ValidBatch(ops) {
      UsableIsArmed(s, thread, toolCallId);
      hide Consume, UsableScope;
      BeginKeeps(Consume(s, thread), EditStarted(ArmOf(s, thread), target.value, ops));
    }
  }

  lemma RevertToolKeeps(s: System, thread: ThreadId, toolCallId: string, revision: int)
    requires Inv(s)
    ensures Inv(CallRevertTool(s, thread, toolCallId, revision))
    ensures Extends(s, CallRevertTool(s, thread, toolCallId, revision))
  {
    hide StoreSound, LedgerSound, JobsSound, ScopesSound, BindingsSound;
    var target := UsableScope(PendingOf(s.docs, thread), toolCallId);
    ConsumeKeeps(s, thread);
    if target.Some? {
      UsableIsArmed(s, thread, toolCallId);
      hide Consume, UsableScope;
      BeginKeeps(Consume(s, thread), RestoreStarted(Some(ArmOf(s, thread)), target.value, revision));
    }
  }

  // ---------------------------------------------------------------------------------------
  // Every step, every run
  // ---------------------------------------------------------------------------------------

  lemma ScopeEventKeeps(s: System, e: Event)
    requires Inv(s)
    requires e.SelectionBound? || e.ScopeArmed? || e.ScopeDropped? || e.DocumentDeleted? || e.OtherToolCalled?
    ensures Inv(Step(s, e)) && Extends(s, Step(s, e))
  {
    hide Inv;
    match e {
      case SelectionBound(thread, _) => DocStepKeeps(s, Step(s, e), thread);
      case ScopeArmed(thread, toolCallId) => ArmKeeps(s, thread, toolCallId);
      case ScopeDropped(thread) => DocStepKeeps(s, Step(s, e), thread);
      case DocumentDeleted(thread) => DocStepKeeps(s, Step(s, e), thread);
      case OtherToolCalled(thread) => ConsumeKeeps(s, thread);
    }
  }

  /** Every step keeps the invariant and only adds to the history. */
  lemma StepKeeps(s: System, e: Event)
    requires Inv(s)
    ensures Inv(Step(s, e)) && Extends(s, Step(s, e))
  {
    hide Inv, Create, Commit, Consume, StepBind, CallEditTool, CallRevertTool, StepEditRead, StepEditWrite,
         StepRestoreRead, StepRestoreReadTarget, StepRestoreWrite, ArmScope, Begin;
    match e {
      case Saved(id, snapshot) => CreateKeeps(s, id, 0, CREATED, snapshot);
      case Imported(id, revision, snapshot) => CreateKeeps(s, id, revision, MIGRATION, snapshot);
      case Updated(id, request) => ManualUpdateKeeps(s, id, request);
      case Deleted(id) => DeleteKeeps(s, id);
      case RestoreRequested(target, revision) => BeginKeeps(s, RestoreStarted(None, target, revision));
      case TripReadForBinding(thread, id) => ReadForBindingKeeps(s, thread, id);
      case TripBound(job) => if job in s.jobs && s.jobs[job].BindingRead? { BindKeeps(s, job); }
      case EditToolCalled(thread, toolCallId, ops) => EditToolKeeps(s, thread, toolCallId, ops);
      case RevertToolCalled(thread, toolCallId, revision) => RevertToolKeeps(s, thread, toolCallId, revision);
      case EditReads(job) => if job in s.jobs && s.jobs[job].EditStarted? { EditReadKeeps(s, job); }
      case EditWrites(job, plan) => if job in s.jobs && s.jobs[job].EditRead? { EditWriteKeeps(s, job, plan); }
      case RestoreReads(job) => if job in s.jobs && s.jobs[job].RestoreStarted? { RestoreReadKeeps(s, job); }
      case RestoreReadsTarget(job) => if job in s.jobs && s.jobs[job].RestoreRead? { RestoreReadTargetKeeps(s, job); }
      case RestoreWrites(job) => if job in s.jobs && s.jobs[job].RestoreReady? { RestoreWriteKeeps(s, job); }
      case SelectionBound(_, _) => ScopeEventKeeps(s, e);
      case ScopeArmed(_, _) => ScopeEventKeeps(s, e);
      case ScopeDropped(_) => ScopeEventKeeps(s, e);
      case DocumentDeleted(_) => ScopeEventKeeps(s, e);
      case OtherToolCalled(_) => ScopeEventKeeps(s, e);
    }
  }

  /** The invariant holds after any sequence of events. */
  lemma {:induction false} RunKeeps(events: seq<Event>)
    ensures Inv(Run(events))
  {
    if events != [] {
      RunKeeps(events[..|events| - 1]);
      hide Inv;
      StepKeeps(Run(events[..|events| - 1]), events[|events| - 1]);
    }
  }
}
