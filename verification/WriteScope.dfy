/** Server-side write scope of chat threads: bound by a turn, armed at an interrupt, consumed once by a tool. */
module WriteScope {
  import opened Wrappers
  import opened Scheduling
  import opened TripStore

  type ThreadId = string

  datatype BindingKind = TripBinding | PlaceSelection

  /** What a thread may write to. */
  datatype Scope = Scope(
    kind: BindingKind, tripId: Option<TripId>, planType: Option<PlanType>, name: Option<string>,
    revision: Option<int>, allowedPlaceIds: seq<Id>)

  /** A scope snapshotted for one tool call. */
  datatype PendingScope = PendingScope(toolCallId: string, scope: Scope)

  /** The stored document of a thread. */
  datatype ThreadDoc = ThreadDoc(scope: Scope, pending: Option<PendingScope>)

  type Threads = map<ThreadId, ThreadDoc>

  function TripScope(id: TripId, planType: PlanType, name: string, revision: int, allowed: seq<Id>): Scope {
    Scope(TripBinding, Some(id), Some(planType), Some(name), Some(revision), allowed)
  }

  function SelectionScope(allowed: seq<Id>): Scope {
    Scope(PlaceSelection, None, None, None, None, allowed)
  }

  /** Binding a thread replaces its document and abandons any armed scope. */
  function Bound(docs: Threads, thread: ThreadId, scope: Scope): Threads {
    docs[thread := ThreadDoc(scope, None)]
  }

  function Armed(docs: Threads, thread: ThreadId, toolCallId: string): Threads {
    if thread !in docs then docs
    else docs[thread := docs[thread].(pending := Some(PendingScope(toolCallId, docs[thread].scope)))]
  }

  function Cleared(docs: Threads, thread: ThreadId): Threads {
    if thread !in docs then docs else docs[thread := docs[thread].(pending := None)]
  }

  function PendingOf(docs: Threads, thread: ThreadId): Option<PendingScope> {
    if thread in docs then docs[thread].pending else None
  }

  /** An armed scope is always the scope of the current binding. */
  ghost predicate PendingIsBinding(docs: Threads) {
    forall thread :: thread in docs && docs[thread].pending.Some? ==> docs[thread].pending.value.scope == docs[thread].scope
  }

  class TripSessionStateStore {
    var docs: Threads

    constructor ()
      ensures docs == map[] && PendingIsBinding(docs)
    {
      docs := map[];
    }

    method BindTrip(thread: ThreadId, id: TripId, planType: PlanType, name: string, revision: int, allowed: seq<Id>)
      modifies this
      ensures docs == Bound(old(docs), thread, TripScope(id, planType, name, revision, allowed))
      ensures PendingIsBinding(old(docs)) ==> PendingIsBinding(docs)
    {
      docs := docs[thread := ThreadDoc(TripScope(id, planType, name, revision, allowed), None)];
    }

    method BindPlaceSelection(thread: ThreadId, allowed: seq<Id>)
      modifies this
      ensures docs == Bound(old(docs), thread, SelectionScope(allowed))
      ensures PendingIsBinding(old(docs)) ==> PendingIsBinding(docs)
    {
      docs := docs[thread := ThreadDoc(SelectionScope(allowed), None)];
    }

    method ClearBinding(thread: ThreadId)
      modifies this
      ensures docs == old(docs) - {thread}
      ensures PendingIsBinding(old(docs)) ==> PendingIsBinding(docs)
    {
      docs := docs - {thread};
    }

    method ArmPending(thread: ThreadId, toolCallId: string) returns (armed: bool)
      modifies this
      ensures docs == Armed(old(docs), thread, toolCallId) && armed == (thread in old(docs))
      ensures armed ==> PendingOf(docs, thread) == Some(PendingScope(toolCallId, docs[thread].scope))
      ensures PendingIsBinding(old(docs)) ==> PendingIsBinding(docs)
    {
      if thread !in docs {
        return false;
      }
      var doc := docs[thread];
      docs := docs[thread := doc.(pending := Some(PendingScope(toolCallId, doc.scope)))];
      armed := true;
    }

    /** Single use: whatever was armed is returned once and is gone. */
    method ConsumePending(thread: ThreadId) returns (scope: Option<PendingScope>)
      modifies this
      ensures docs == Cleared(old(docs), thread) && scope == PendingOf(old(docs), thread)
      ensures PendingOf(docs, thread).None?
      ensures PendingIsBinding(old(docs)) ==> PendingIsBinding(docs)
    {
      if thread !in docs || docs[thread].pending.None? {
        assert thread in docs ==> docs[thread := docs[thread].(pending := None)] == docs;
        return None;
      }
      scope := docs[thread].pending;
      docs := docs[thread := docs[thread].(pending := None)];
    }

    method ClearPending(thread: ThreadId)
      modifies this
      ensures docs == Cleared(old(docs), thread)
      ensures PendingOf(docs, thread).None?
      ensures PendingIsBinding(old(docs)) ==> PendingIsBinding(docs)
    {
      if thread in docs {
        docs := docs[thread := docs[thread].(pending := None)];
      }
    }
  }
}
