/** The promises of the revision history and of the write scope, for every run of the protocol. */
module ProtocolGuarantees {
  import opened Wrappers
  import opened Sequences
  import opened Reconcile
  import opened TripStore
  import opened TripEditor
  import opened WriteScope
  import opened ChatTurns
  import opened Protocol
  import opened ProtocolSafety

  // ---------------------------------------------------------------------------------------
  // The revision history
  // ---------------------------------------------------------------------------------------

  /** A live trip's rows are a contiguous range of revisions ending at its current one, whose row holds its snapshot. */
  ghost predicate Contiguous(store: Store, id: TripId, first: int)
    requires id in store.trips
  {
    var current := store.trips[id].revision;
    && first <= current
    && (forall r :: (id, r) in store.revisions <==> first <= r <= current)
    && store.revisions[(id, current)].snapshot == store.trips[id].snapshot
    && store.trips[id].planType == store.trips[id].snapshot.Plan()
  }

  /**
   * In every reachable state every trip has a contiguous history up to its current revision, no row
   * outlives its trip, all rows of a trip have one plan type, and the next revision number is free.
   */
  lemma {:induction false} HistoryInvariant(events: seq<Event>)
    ensures var s := Run(events);
            && (forall id :: id in s.store.trips ==> id in s.births && Contiguous(s.store, id, s.births[id].revision))
            && (forall k :: k in s.store.revisions ==>
                  k.0 in s.store.trips && s.store.revisions[k].snapshot.Plan() == s.store.trips[k.0].planType)
            && (forall id :: id in s.store.trips ==> (id, s.store.trips[id].revision + 1) !in s.store.revisions)
  {
    RunKeeps(events);
    var s := Run(events);
    hide Run, StoreSound, LedgerSound, JobsSound, ScopesSound, BindingsSound, Contiguous;
    forall k | k in s.store.revisions
      ensures k.0 in s.store.trips && s.store.revisions[k].snapshot.Plan() == s.store.trips[k.0].planType
    {
      RowPlan(s, k);
    }
    forall id | id in s.store.trips
      ensures id in s.births && Contiguous(s.store, id, s.births[id].revision)
      ensures (id, s.store.trips[id].revision + 1) !in s.store.revisions
    {
      TripIsContiguous(s, id);
      NextRevisionIsFree(s, id);
    }
  }

  lemma TripIsContiguous(s: System, id: TripId)
    requires StoreSound(s) && LedgerSound(s) && id in s.store.trips
    ensures id in s.births && Contiguous(s.store, id, s.births[id].revision)
  {
    assert TripSound(s, id);
    RowPlan(s, (id, s.store.trips[id].revision));
    hide LedgerSound;
  }

  lemma RowPlan(s: System, k: RevisionKey)
    requires StoreSound(s) && LedgerSound(s) && k in s.store.revisions
    ensures k.0 in s.store.trips && s.store.revisions[k].snapshot.Plan() == s.store.trips[k.0].planType
  {
    assert RowSound(s, k) && TripSound(s, k.0);
    assert EntrySound(s, k.0, k.1, s.ledger[k]);
  }

  /** No write of any kind ever meets a taken primary key. */
  lemma PrimaryKeyIsNeverHit(events: seq<Event>, id: TripId)
    ensures var s := Run(events);
            && (forall request, source :: UpdateTx(s.store, id, request, source).1 != Err(PrimaryKeyViolated))
            && (forall target, row, expected :: RestoreTx(s.store, id, target, row, expected).1 != Err(PrimaryKeyViolated))
            && (forall snapshot :: id !in s.births ==> SaveTx(s.store, id, snapshot).1.Ok?)
  {
    RunKeeps(events);
    var s := Run(events);
    hide Run, JobsSound, ScopesSound, BindingsSound, StoreSound, LedgerSound, UpdateTx, RestoreTx;
    forall request, source ensures UpdateTx(s.store, id, request, source).1 != Err(PrimaryKeyViolated) {
      UpdateCommits(s, id, request, source, ManualWriter);
    }
    forall target, row, expected ensures RestoreTx(s.store, id, target, row, expected).1 != Err(PrimaryKeyViolated) {
      RestoreCommits(s, id, target, row, expected, ManualWriter);
    }
    if id !in s.births {
      UnbornHasNothing(s, id);
    }
  }

  lemma ExtendsTransitive(r: System, s: System, t: System)
    requires Extends(r, s) && Extends(s, t)
    ensures Extends(r, t)
  {
    assert t.arms[..|r.arms|] == t.arms[..|s.arms|][..|r.arms|];
  }

  /** Over a whole run the history only grows. */
  lemma {:induction false} RunExtends(events: seq<Event>, i: nat)
    requires i <= |events|
    ensures Extends(Run(events[..i]), Run(events))
  {
    if i < |events| {
      var before := events[..|events| - 1];
      assert before[..i] == events[..i];
      RunExtends(before, i);
      RunKeeps(before);
      hide Inv, Extends, Step;
      StepKeeps(Run(before), events[|events| - 1]);
      ExtendsTransitive(Run(events[..i]), Run(before), Run(events));
    } else {
      assert events[..i] == events;
    }
  }

  /** A revision row, once written, is the same in every later state that still has it; a trip never changes its plan type. */
  lemma RowsNeverChange(events: seq<Event>, i: nat, k: RevisionKey)
    requires i <= |events|
    ensures var s, t := Run(events[..i]), Run(events);
            && (k in s.store.revisions && k in t.store.revisions ==> t.store.revisions[k] == s.store.revisions[k])
            && (k.0 in s.store.trips && k.0 in t.store.trips ==> t.store.trips[k.0].planType == s.store.trips[k.0].planType)
  {
    var s, t := Run(events[..i]), Run(events);
    RunExtends(events, i);
    RunKeeps(events[..i]);
    RunKeeps(events);
    hide Run, LedgerSound, JobsSound, ScopesSound, BindingsSound;
    if k in s.store.revisions && k in t.store.revisions {
      assert RowSound(s, k) && RowSound(t, k);
    }
    if k.0 in s.store.trips && k.0 in t.store.trips {
      assert TripSound(s, k.0) && TripSound(t, k.0);
    }
  }

  /** Transactions other than a creation never add a trip. */
  lemma WritesAddNoTrip(s: System, id: TripId, x: TripId, writer: Writer)
    requires id !in s.store.trips
    ensures forall request, source :: id !in Commit(s, UpdateTx(s.store, x, request, source).0, x, writer).store.trips
    ensures forall target, row, expected :: id !in Commit(s, RestoreTx(s.store, x, target, row, expected).0, x, writer).store.trips
  {
  }

  predicate Writes(e: Event) {
    e.Saved? || e.Imported? || e.Updated? || e.Deleted? || e.EditWrites? || e.RestoreWrites?
  }

  /** Reads, bindings, armings and consumptions touch no table. */
  lemma OthersTouchNoTable(s: System, e: Event)
    requires !Writes(e)
    ensures Step(s, e).store == s.store && Step(s, e).ledger == s.ledger
  {
    hide Begin, Consume, CallEditTool, CallRevertTool, ArmScope, StepEditRead, StepRestoreRead, StepRestoreReadTarget,
         StepBind, Cleared, Bound;
  }

  lemma StepNeverRevives(s: System, e: Event, id: TripId)
    requires id in s.births && id !in s.store.trips
    ensures id !in Step(s, e).store.trips
  {
    if !Writes(e) {
      OthersTouchNoTable(s, e);
    } else {
      WritesNeverRevive(s, e, id);
    }
  }

  lemma WritesNeverRevive(s: System, e: Event, id: TripId)
    requires id in s.births && id !in s.store.trips && Writes(e)
    ensures id !in Step(s, e).store.trips
  {
    hide EditedSnapshot, Commit, UpdateTx, RestoreTx, Create;
    match e {
      case Saved(x, snapshot) => CreateAddsOwn(s, x, 0, CREATED, snapshot);
      case Imported(x, revision, snapshot) => CreateAddsOwn(s, x, revision, MIGRATION, snapshot);
      case Updated(x, _) => WritesAddNoTrip(s, id, x, ManualWriter);
      case Deleted(_) =>
      case EditWrites(job, _) =>
        if job in s.jobs && s.jobs[job].EditRead? {
          WritesAddNoTrip(s, id, s.jobs[job].target.id, EditWriter(s.jobs[job].arm, s.jobs[job].ops));
        }
      case RestoreWrites(job) =>
        if job in s.jobs && s.jobs[job].RestoreReady? {
          WritesAddNoTrip(s, id, s.jobs[job].target.id, RestoreWriter(s.jobs[job].arming));
        }
    }
  }

  lemma CreateAddsOwn(s: System, x: TripId, revision: int, source: Source, snapshot: Snapshot)
    ensures forall id :: id in s.births && id !in s.store.trips ==> id !in Create(s, x, revision, source, snapshot).store.trips
  {
  }

  /** A deleted trip stays deleted: its id is never used again. */
  lemma {:induction false} DeletedStaysDeleted(events: seq<Event>, i: nat, id: TripId)
    requires i <= |events| && id in Run(events[..i]).births && id !in Run(events[..i]).store.trips
    ensures id !in Run(events).store.trips
  {
    if i < |events| {
      var before := events[..|events| - 1];
      assert before[..i] == events[..i];
      DeletedStaysDeleted(before, i, id);
      RunKeeps(before);
      RunExtends(before, i);
      hide Inv, Step, Extends;
      assert id in Run(before).births by {
        BirthGrew(Run(events[..i]), Run(before), id);
      }
      StepNeverRevives(Run(before), events[|events| - 1], id);
    } else {
      assert events[..i] == events;
    }
  }

  // ---------------------------------------------------------------------------------------
  // No lost updates
  // ---------------------------------------------------------------------------------------

  /**
   * Every revision written by an editor holds exactly the request obtained by applying that editor's
   * operations to the request of the revision just before it, whatever else was going on.
   */
  lemma NoLostUpdates(events: seq<Event>, id: TripId, r: int) returns (arm: nat, ops: seq<Operation>)
    requires var s := Run(events);
             (id, r) in s.store.revisions && s.store.revisions[(id, r)].source == ORCHESTRATOR
    ensures var s := Run(events);
            && (id, r) in s.ledger && s.ledger[(id, r)].writer == EditWriter(arm, ops)
            && (id, r - 1) in s.store.revisions
            && EditOf(s.store.revisions[(id, r - 1)].snapshot, ops, s.store.revisions[(id, r)].snapshot)
            && ArmedFor(s, arm, id, r - 1)
  {
    RunKeeps(events);
    var s := Run(events);
    hide Run, StoreSound, LedgerSound, JobsSound, ScopesSound, BindingsSound, EditOf;
    RowHasEntry(s, id, r);
    arm, ops := s.ledger[(id, r)].writer.arm, s.ledger[(id, r)].writer.ops;
    EntryIsStored(s, id, r - 1);
  }

  /** The trip and revision that a writing step expects to find. */
  function ExpectedBy(s: System, e: Event): Option<Target> {
    match e
    case Updated(id, request) =>
      if request.expectedRevision.Some? then Some(Target(id, request.expectedRevision.value)) else None
    case EditWrites(job, _) => if job in s.jobs && s.jobs[job].EditRead? then Some(s.jobs[job].target) else None
    case RestoreWrites(job) => if job in s.jobs && s.jobs[job].RestoreReady? then Some(s.jobs[job].target) else None
    case _ => None
  }

  /** A step that writes revision `k`. */
  ghost predicate Mints(s: System, e: Event, k: RevisionKey) {
    k in Step(s, e).ledger && k !in s.ledger
  }

  lemma UpdateMintsNext(s: System, id: TripId, request: SaveRequest, source: Source, writer: Writer, k: RevisionKey)
    requires StoreSound(s) && k !in s.ledger
    requires k in Commit(s, UpdateTx(s.store, id, request, source).0, id, writer).ledger
    ensures request.expectedRevision.Some? && k == (id, request.expectedRevision.value + 1)
  {
    UpdateCommits(s, id, request, source, writer);
    hide StoreSound, UpdateTx, Commit;
  }

  lemma RestoreMintsNext(s: System, id: TripId, target: int, row: RevisionRow, expected: int, writer: Writer, k: RevisionKey)
    requires StoreSound(s) && k !in s.ledger
    requires k in Commit(s, RestoreTx(s.store, id, target, row, expected).0, id, writer).ledger
    ensures k == (id, expected + 1)
  {
    RestoreCommits(s, id, target, row, expected, writer);
    hide StoreSound, RestoreTx, Commit;
  }

  /** Only the three compare-and-set writers move an existing trip on, and only to the revision after the expected one. */
  lemma WritersMintNext(s: System, e: Event, k: RevisionKey)
    requires Inv(s) && Mints(s, e, k) && k.0 in s.births
    ensures ExpectedBy(s, e).Some?
    ensures k == (ExpectedBy(s, e).value.id, ExpectedBy(s, e).value.revision + 1)
  {
    hide StoreSound, LedgerSound, JobsSound, ScopesSound, BindingsSound, UpdateTx, RestoreTx, EditedSnapshot, Create, Commit;
    if !Writes(e) {
      hide Step;
      OthersTouchNoTable(s, e);
      assert false;
    }
    match e {
      case Saved(id, snapshot) => CreateMintsOwn(s, id, 0, CREATED, snapshot, k);
      case Imported(id, revision, snapshot) => CreateMintsOwn(s, id, revision, MIGRATION, snapshot, k);
      case Updated(id, request) => UpdateMintsNext(s, id, request, MANUAL, ManualWriter, k);
      case Deleted(_) =>
      case EditWrites(job, plan) =>
        var j := s.jobs[job];
        var snapshot := EditedSnapshot(j.base, j.ops, plan).value;
        var request := SaveRequest(snapshot, Some(j.target.revision));
        UpdateMintsNext(s, j.target.id, request, ORCHESTRATOR, EditWriter(j.arm, j.ops), k);
      case RestoreWrites(job) =>
        var j := s.jobs[job];
        RestoreMintsNext(s, j.target.id, j.revision, j.row, j.target.revision, RestoreWriter(j.arming), k);
    }
  }

  lemma CreateMintsOwn(s: System, id: TripId, revision: int, source: Source, snapshot: Snapshot, k: RevisionKey)
    requires k in Create(s, id, revision, source, snapshot).ledger && k !in s.ledger
    ensures k.0 == id && id !in s.births
  {
  }

  /** Of all steps in a run that expect the same revision of the same trip, at most one writes a new revision. */
  lemma AtMostOneWriterWins(events: seq<Event>, i: nat, j: nat, k: RevisionKey, l: RevisionKey)
    requires i < j < |events|
    requires Mints(Run(events[..i]), events[i], k) && Mints(Run(events[..j]), events[j], l)
    requires k.0 in Run(events[..i]).births && l.0 in Run(events[..j]).births
    ensures ExpectedBy(Run(events[..i]), events[i]) != ExpectedBy(Run(events[..j]), events[j])
  {
    hide Inv, Step, Run, Extends, ExpectedBy;
    var s, t := Run(events[..i]), Run(events[..j]);
    RunKeeps(events[..i]);
    RunKeeps(events[..j]);
    WritersMintNext(s, events[i], k);
    WritersMintNext(t, events[j], l);
    RunNext(events, i);
    assert events[..j][..i + 1] == events[..i + 1];
    RunExtends(events[..j], i + 1);
    LedgerGrew(Run(events[..i + 1]), t, k);
  }

  lemma RunNext(events: seq<Event>, i: nat)
    requires i < |events|
    ensures Run(events[..i + 1]) == Step(Run(events[..i]), events[i])
  {
    assert events[..i + 1][..i] == events[..i];
    hide Step;
  }

  lemma BirthGrew(s: System, t: System, id: TripId)
    requires Extends(s, t) && id in s.births
    ensures id in t.births
  {
  }

  lemma LedgerGrew(s: System, t: System, k: RevisionKey)
    requires Extends(s, t) && k in s.ledger
    ensures k in t.ledger
  {
  }

  // ---------------------------------------------------------------------------------------
  // Restore provenance
  // ---------------------------------------------------------------------------------------

  /** A restored row names a strictly earlier row of the trip with the same snapshot; no other row names one. */
  ghost predicate TraceableRow(store: Store, id: TripId, r: int)
    requires (id, r) in store.revisions
  {
    var row := store.revisions[(id, r)];
    && (row.source == REVERT <==> row.restoredFrom.Some?)
    && (row.source == REVERT ==>
          && row.restoredFrom.value < r && (id, row.restoredFrom.value) in store.revisions
          && store.revisions[(id, row.restoredFrom.value)].snapshot == row.snapshot)
  }

  ghost predicate Traceable(store: Store, id: TripId, first: int) {
    forall r :: (id, r) in store.revisions ==> first <= r && TraceableRow(store, id, r)
  }

  /** Where a chain of restores started. */
  ghost function Origin(store: Store, id: TripId, first: int, r: int): (origin: int)
    requires Traceable(store, id, first) && (id, r) in store.revisions
    ensures origin <= r && (id, origin) in store.revisions
    ensures store.revisions[(id, origin)].source != REVERT
    ensures store.revisions[(id, origin)].snapshot == store.revisions[(id, r)].snapshot
    decreases r - first
  {
    var row := store.revisions[(id, r)];
    if row.source != REVERT then r else Origin(store, id, first, row.restoredFrom.value)
  }

  /** A stored row is the ledger's, and the ledger's entry is sound. */
  lemma RowHasEntry(s: System, id: TripId, r: int)
    requires StoreSound(s) && LedgerSound(s) && (id, r) in s.store.revisions
    ensures id in s.store.trips && id in s.births
    ensures (id, r) in s.ledger && s.ledger[(id, r)].row == s.store.revisions[(id, r)]
    ensures EntrySound(s, id, r, s.ledger[(id, r)])
  {
    assert RowSound(s, (id, r));
    hide StoreSound, EntrySound;
  }

  /** What the ledger holds of a live trip is stored. */
  lemma EntryIsStored(s: System, id: TripId, r: int)
    requires StoreSound(s) && id in s.store.trips && (id, r) in s.ledger
    ensures (id, r) in s.store.revisions && s.store.revisions[(id, r)] == s.ledger[(id, r)].row
  {
    assert TripSound(s, id);
    assert RowSound(s, (id, r));
    hide StoreSound;
  }

  /** What a sound entry says of the row it restored. */
  lemma EntryIsTraceable(s: System, id: TripId, r: int, e: Entry)
    requires id in s.births && EntrySound(s, id, r, e)
    ensures s.births[id].revision <= r && (e.row.source == REVERT <==> e.row.restoredFrom.Some?)
    ensures e.row.restoredFrom.Some? ==> e.row.restoredFrom.value < r && Holds(s, id, e.row.restoredFrom.value, e.row.snapshot)
  {
    hide EditOf, ArmedFor, Holds;
  }

  lemma RowIsTraceable(s: System, id: TripId, r: int)
    requires StoreSound(s) && LedgerSound(s) && (id, r) in s.store.revisions
    ensures id in s.births && s.births[id].revision <= r && TraceableRow(s.store, id, r)
  {
    hide StoreSound, LedgerSound, EntrySound;
    RowHasEntry(s, id, r);
    EntryIsTraceable(s, id, r, s.ledger[(id, r)]);
    var row := s.store.revisions[(id, r)];
    if row.restoredFrom.Some? {
      EntryIsStored(s, id, row.restoredFrom.value);
    }
  }

  /**
   * Restores copy a strictly earlier revision of the same trip, although they read it before they write:
   * following them back ends at a revision that is not a restore and has the same snapshot.
   */
  lemma {:induction false} RestoreProvenance(events: seq<Event>, id: TripId, r: int)
    requires (id, r) in Run(events).store.revisions
    ensures var s := Run(events);
            && id in s.births && Traceable(s.store, id, s.births[id].revision)
            && var origin := Origin(s.store, id, s.births[id].revision, r);
               && origin <= r && (origin < r <==> s.store.revisions[(id, r)].source == REVERT)
               && s.store.revisions[(id, origin)].source != REVERT
               && s.store.revisions[(id, origin)].snapshot == s.store.revisions[(id, r)].snapshot
  {
    RunKeeps(events);
    var s := Run(events);
    hide Run, StoreSound, LedgerSound, JobsSound, ScopesSound, BindingsSound;
    RowIsTraceable(s, id, r);
    forall q | (id, q) in s.store.revisions
      ensures s.births[id].revision <= q && TraceableRow(s.store, id, q)
    {
      RowIsTraceable(s, id, q);
    }
    assert Traceable(s.store, id, s.births[id].revision);
  }

  // ---------------------------------------------------------------------------------------
  // Write-scope safety
  // ---------------------------------------------------------------------------------------

  /** The arming a revision was written under, if it was written through the chat. */
  function ArmingOf(writer: Writer): Option<nat> {
    match writer
    case EditWriter(arm, _) => Some(arm)
    case RestoreWriter(arming) => arming
    case _ => None
  }

  predicate SameArming(a: Writer, b: Writer) {
    ArmingOf(a).Some? && ArmingOf(a) == ArmingOf(b)
  }

  /**
   * In every reachable state an armed scope is the scope of the thread's current binding, every
   * consumption has an arming of its own, and a revision written under an arming is the one after the
   * armed revision of the armed trip; so each arming yields one new revision at most.
   */
  lemma {:induction false} WriteScopeSafety(events: seq<Event>)
    ensures var s := Run(events);
            && PendingIsBinding(s.docs)
            && Distinct(s.consumed) && (forall a :: a in s.consumed ==> a < |s.arms|)
            && (forall thread :: thread in s.docs ==> BindingSound(s, s.docs[thread].scope))
            && (forall k :: k in s.ledger && ArmingOf(s.ledger[k].writer).Some? ==>
                  ArmedFor(s, ArmingOf(s.ledger[k].writer).value, k.0, k.1 - 1))
            && (forall k, l :: k in s.ledger && l in s.ledger && SameArming(s.ledger[k].writer, s.ledger[l].writer) ==> k == l)
  {
    RunKeeps(events);
    var s := Run(events);
    hide Run, StoreSound, JobsSound, BindingSound, EditOf;
    forall thread | thread in s.docs && s.docs[thread].pending.Some?
      ensures s.docs[thread].pending.value.scope == s.docs[thread].scope
    {
      assert PendingSound(s, thread);
    }
    forall k | k in s.ledger && ArmingOf(s.ledger[k].writer).Some?
      ensures ArmedFor(s, ArmingOf(s.ledger[k].writer).value, k.0, k.1 - 1)
    {
      assert EntrySound(s, k.0, k.1, s.ledger[k]);
    }
    hide ScopesSound, LedgerSound;
    forall k, l | k in s.ledger && l in s.ledger && SameArming(s.ledger[k].writer, s.ledger[l].writer)
      ensures k == l
    {
      assert ArmedFor(s, ArmingOf(s.ledger[k].writer).value, k.0, k.1 - 1);
      assert ArmedFor(s, ArmingOf(s.ledger[l].writer).value, l.0, l.1 - 1);
    }
  }
}
