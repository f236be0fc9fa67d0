/**
 * The operator's recovery actions (src/api/routes.rs). Each handler loads a record, edits it and saves
 * it; the model takes one handler as one atomic step beside the worker.
 */
module Operator {
  import opened Wrappers
  import opened Model
  import opened Protocol
  import opened Store

  datatype HandlerError = StoreUnavailable | Refused(reason: OperatorError)

  /** What a handler call did to the store: nothing, or exactly its action on the named record. */
  ghost predicate Acted(before: map<RunId, Record>, after: map<RunId, Record>, id: RunId, action: OperatorAction,
                        wrote: bool, r: Result<(), HandlerError>) {
    && (wrote ==>
          && id in before
          && OperatorStep(before[id], action).Ok?
          && after == before[id := OperatorStep(before[id], action).value])
    && (!wrote ==> after == before)
    && (r.Ok? ==> wrote)
    && (r.Err? && r.error.Refused? ==>
          if id in before then OperatorStep(before[id], action) == Err(r.error.reason) else r.error.reason == NotFound)
  }

  method RecordManualCleanup(record: RunRecord)
    modifies record`cleanup
    ensures record.cleanup == CleanupResult(CleanupPassed, [])
  {
    record.cleanup := CleanupResult(CleanupPassed, []);
  }

  method Load(store: RunStore, id: RunId) returns (record: RunRecord?, error: HandlerError)
    requires StoresPersisted(store.records)
    modifies store`faults
    ensures store.faults == old(store.faults) + if record == null && error == StoreUnavailable then 1 else 0
    ensures record != null ==> fresh(record) && id in store.records && record.Snapshot() == store.records[id]
    ensures record != null ==> record.worker == store.records[id].worker && record.cleanup == store.records[id].cleanup
    ensures record == null && error.Refused? ==> id !in store.records && error.reason == NotFound
  {
    var loaded := store.Get(id);
    if loaded.Err? {
      return null, StoreUnavailable;
    }
    if loaded.value.None? {
      return null, Refused(NotFound);
    }
    record := new RunRecord.Loaded(loaded.value.value);
    error := StoreUnavailable;
  }

  ghost predicate StoresPersisted(records: map<RunId, Record>) {
    forall id :: id in records ==> records[id].request.runId == id
                                   && records[id].evidence == PersistedEvidence(records[id].evidence)
  }

  method AcknowledgeCleanupRecovery(store: RunStore, id: RunId) returns (r: Result<(), HandlerError>, ghost wrote: bool)
    requires StoresPersisted(store.records)
    modifies store
    ensures r == Err(StoreUnavailable) <==> store.faults > old(store.faults)
    ensures Acted(old(store.records), store.records, id, ContinueAfterCleanup, wrote, r)
  {
    wrote := false;
    var record, error := Load(store, id);
    if record == null {
      return Err(error), false;
    }
    if record.worker.manualRecovery.None? {
      return Err(Refused(NotWaiting)), false;
    }
    if !record.worker.cleanupRequired || record.worker.manualRecovery != Some(CleanupHold) {
      return Err(Refused(NotCleanup)), false;
    }
    RecordManualCleanup(record);
    record.ClearManualRecovery();
    var saved := store.Save(record.Snapshot());
    wrote := !saved.NotWritten?;
    r := if saved.Written? then Ok(()) else Err(StoreUnavailable);
  }

  method ConfirmManualCleanup(store: RunStore, id: RunId) returns (r: Result<(), HandlerError>, ghost wrote: bool)
    requires StoresPersisted(store.records)
    modifies store
    ensures r == Err(StoreUnavailable) <==> store.faults > old(store.faults)
    ensures Acted(old(store.records), store.records, id, ConfirmCleanup, wrote, r)
  {
    wrote := false;
    var record, error := Load(store, id);
    if record == null {
      return Err(error), false;
    }
    if record.worker.manualRecovery.None? {
      return Err(Refused(NotWaiting)), false;
    }
    if !record.worker.cleanupRequired {
      return Err(Refused(NotCleanup)), false;
    }
    RecordManualCleanup(record);
    var saved := store.Save(record.Snapshot());
    wrote := !saved.NotWritten?;
    r := if saved.Written? then Ok(()) else Err(StoreUnavailable);
  }

  method ResolveCompletionConflict(store: RunStore, id: RunId, acceptCoordinatorResult: bool)
    returns (r: Result<(), HandlerError>, ghost wrote: bool)
    requires StoresPersisted(store.records)
    modifies store
    ensures r == Err(StoreUnavailable) <==> store.faults > old(store.faults)
    ensures Acted(old(store.records), store.records, id, if acceptCoordinatorResult then AcceptCoordinatorResult else RetryCompletion, wrote, r)
  {
    wrote := false;
    var record, error := Load(store, id);
    if record == null {
      return Err(error), false;
    }
    if record.worker.manualRecovery.None? {
      return Err(Refused(NotWaiting)), false;
    }
    if record.worker.manualRecovery != Some(CompletionConflictHold) {
      return Err(Refused(NotCompletionConflict)), false;
    }
    if !(record.cleanup.status.CleanupPassed? || record.cleanup.status.CleanupSkipped?) {
      return Err(Refused(CleanupNotConfirmed)), false;
    }
    if record.worker.pendingCompletionBody.None? {
      return Err(Refused(MissingCompletion)), false;
    }
    record.ClearManualRecovery();
    if acceptCoordinatorResult {
      record.worker := record.worker.(
      pendingCompletionBody := None,
      claimToken := None,
      completionAcknowledged := true,
      completionDisposition := Some(OperatorAcceptedCoordinator));
    }
    var saved := store.Save(record.Snapshot());
    wrote := !saved.NotWritten?;
    r := if saved.Written? then Ok(()) else Err(StoreUnavailable);
  }
}
