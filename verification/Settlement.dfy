/** What the worker may make of a record while it settles the claim (src/worker/mod.rs). */
module Settlement {
  import opened Wrappers
  import opened Model
  import opened Protocol
  import opened Interference
  import opened Runtime
  import opened Reconciliation
  import opened Live
  import Comparisons

  // ---------------------------------------------------------------- the completion a record is owed

  datatype PrepareError = LacksToken | RunIdMismatch | NoOutcome | BothOutcomes

  /** The completion body of a record, or why there is none. */
  function CompletionOf(r: Record): Result<CompletionBody, PrepareError> {
    if r.worker.claimToken.None? then Err(LacksToken)
    else match (r.result, r.worker.workerError)
      case (Some(result), None) =>
        if result.runId == r.request.runId then Ok(CompletionBody(r.worker.claimToken.value, ResultOutcome(result))) else Err(RunIdMismatch)
      case (None, Some(error)) => Ok(CompletionBody(r.worker.claimToken.value, WorkerErrorOutcome(error)))
      case (None, None) => Err(NoOutcome)
      case (Some(_), Some(_)) => Err(BothOutcomes)
  }

  lemma CompletionIsOwed(r: Record)
    ensures CompletionOf(r).Ok? ==> IsCompletionOf(CompletionOf(r).value, r)
    ensures forall body :: IsCompletionOf(body, r) ==> CompletionOf(r) == Ok(body)
  {
  }

  /** The outcome to be delivered states a cleanup that neither failed nor is pending, but for the result of a recovered run. */
  predicate StatesCleanup(h: History, r: Record) {
    && (r.worker.workerError.Some? && r.result.None? ==>
          && r.worker.workerError.value.cleanupStatus == r.cleanup.status
          && (r.cleanup.status.CleanupPassed? || r.cleanup.status.CleanupSkipped?))
    && (r.result.Some? && r.worker.workerError.None? ==>
          h.control.recovered || !Comparisons.CleanupOutcomeFailed(r.result.value.cleanup.status))
  }

  /** There is something to deliver, and it states the cleanup of the record. */
  predicate Decided(h: History, r: Record) {
    && (r.result.Some? || r.worker.workerError.Some?)
    && (r.worker.workerError.Some? && r.result.None? ==>
          r.worker.workerError.value.cleanupStatus == r.cleanup.status && !r.cleanup.status.CleanupPending?)
    && (r.result.Some? && r.worker.workerError.None? ==> h.control.recovered || r.result.value.cleanup == r.cleanup)
  }

  lemma DecidedStatesCleanup(h: History, r: Record)
    requires Decided(h, r) && !r.CleanupFailed()
    ensures StatesCleanup(h, r) && (r.result.Some? || r.worker.workerError.Some?)
  {
  }

  /** What never turns back while a run is settled. */
  predicate Later(h: History, k: History) {
    && (h.torn ==> k.torn)
    && (h.failed ==> k.failed)
    && (h.control.recovered <==> k.control.recovered)
    && (h.control.signals.lost ==> k.control.signals.lost)
  }

  // ---------------------------------------------------------------- owned records

  predicate Unresolved(w: WorkerState) {
    w.claimToken.Some? && w.pendingCompletionBody.None? && !w.completionAcknowledged && w.manualRecovery.None?
  }

  /** The worker owns the claim, nothing was prepared for delivery, and its memory may be saved. */
  predicate Owned(h: History, stored: Record, r: Record) {
    && Unresolved(stored.worker) && Unresolved(r.worker)
    && h.delivery.body.None? && !h.delivery.stopped
    && r.worker.cleanupRequired == stored.worker.cleanupRequired
    && r.worker.targetRecovery == stored.worker.targetRecovery
    && r.evidence.initialPackages == stored.evidence.initialPackages
    && SaveAllowed(h, stored, r)
  }

  lemma InvariantAllowsResave(h: History, r: Record)
    requires RunInvariant(r, h) && (r.worker.manualRecovery.None? || r.worker.pendingCompletionBody.Some?)
    ensures SaveAllowed(h, r, r)
  {
    hide SafePlan, PersistedEvidence, PassedIsJustified, Honest, IsCompletionOf, Verified;
  }

  lemma LoadedIsOwned(h: History, r: Record)
    requires RunInvariant(r, h) && Unresolved(r.worker) && !h.delivery.stopped
    ensures Owned(h, r, r)
  {
    hide SaveAllowed;
    InvariantAllowsResave(h, r);
    assert DeliveryIsConsistent(r, h);
  }

  lemma UndeliveredIsOwned(h: History, r: Record)
    requires RunInvariant(r, h) && Undelivered(h, r)
    ensures Owned(h, r, r)
  {
    LoadedIsOwned(h, r);
  }

  lemma OwnedKeepsToken(h: History, stored: Record, r: Record)
    requires Owned(h, stored, r)
    ensures stored.worker.manualRecovery.None? && r.worker.pendingCompletionBody.None? && SaveAllowed(h, stored, r)
    ensures stored.request == r.request && stored.RequiresWorkerAttention()
  {
  }

  /** Inventories may have been read and a signal raised, and nothing else. */
  predicate OnlyRead(h: History, k: History) {
    k == h.(control := h.control.(signals := k.control.signals), observed := h.observed.(listings := k.observed.listings))
    && SignalsRise(h.control.signals, k.control.signals)
  }

  lemma ReadKeepsStartable(h: History, k: History, stored: Record)
    requires Startable(h, stored) && OnlyRead(h, k)
    ensures Startable(k, stored) && Undelivered(k, stored)
  {
  }

  lemma StartableIsFresh(h: History, stored: Record)
    requires Startable(h, stored)
    ensures stored.cleanup.status.CleanupPending? && stored.result.None? && !stored.worker.cleanupRequired && Undelivered(h, stored)
    ensures Unfinished(h, stored)
  {
  }

  lemma SignalKeepsOwned(before: State, after: State, id: RunId, r: Record)
    requires id in before.store && Owned(HistoryOf(before, id), before.store[id], r) && Untouched(before, after, id)
    ensures after.mode == before.mode && id in after.store && after.store[id] == before.store[id]
    ensures Owned(HistoryOf(after, id), after.store[id], r)
    ensures OnlyRead(HistoryOf(before, id), HistoryOf(after, id))
  {
    hide SafePlan, PersistedEvidence, Honest, IsCompletionOf, Verified;
  }

  lemma FailureKeepsOwned(before: State, after: State, id: RunId, r: Record)
    requires id in before.store && Owned(HistoryOf(before, id), before.store[id], r) && Stepped(before, after, id, StoreFailed)
    requires CleanupIsEarned(before.store[id], HistoryOf(before, id))
    ensures after.mode == before.mode && id in after.store && after.store[id] == before.store[id]
    ensures Owned(HistoryOf(after, id), after.store[id], r)
    ensures Later(HistoryOf(before, id), HistoryOf(after, id))
    ensures HistoryOf(after, id).execution == HistoryOf(before, id).execution
  {
    hide SafePlan, PersistedEvidence, Honest, IsCompletionOf, Verified;
  }

  lemma ListingKeepsOwned(before: State, after: State, id: RunId, r: Record, packages: seq<PackageSummary>)
    requires id in before.store && Owned(HistoryOf(before, id), before.store[id], r)
    requires Stepped(before, after, id, Listed(packages)) && !r.cleanup.status.CleanupPassed?
    requires r.worker.workerError == before.store[id].worker.workerError
    requires CleanupIsEarned(before.store[id], HistoryOf(before, id))
    ensures after.mode == before.mode && id in after.store && after.store[id] == before.store[id]
    ensures Owned(HistoryOf(after, id), after.store[id], r)
    ensures HistoryOf(after, id).observed.listings == HistoryOf(before, id).observed.listings + [packages]
    ensures OnlyRead(HistoryOf(before, id), HistoryOf(after, id))
  {
    hide SafePlan, PersistedEvidence, Honest, IsCompletionOf, Verified;
  }

  /** Whatever became of a save, the claim is still owned; a reported success is a success. */
  lemma SaveKeepsOwned(before: State, after: State, id: RunId, r: Record, ok: bool)
    requires id in before.store && Owned(HistoryOf(before, id), before.store[id], r)
    requires SaveResult(before, after, id, r, ok) && Invariant(before) && Invariant(after)
    ensures after.mode == before.mode && id in after.store
    ensures Owned(HistoryOf(after, id), after.store[id], r)
    ensures !ok ==> HistoryOf(after, id).failed
    ensures ok ==> after.store[id] == r
    ensures Later(HistoryOf(before, id), HistoryOf(after, id))
    ensures HistoryOf(after, id).execution == HistoryOf(before, id).execution
  {
    hide SaveAllowed, Invariant, RunInvariant, TaskHolds;
    if Stepped(before, after, id, StoreFailed) {
      CleanupIsEarnedIn(before, id);
      FailureKeepsOwned(before, after, id, r);
    } else {
      SavedIsOwned(before, after, id, r, !ok);
    }
  }

  lemma SavedIsOwned(before: State, after: State, id: RunId, r: Record, torn: bool)
    requires id in before.store && Owned(HistoryOf(before, id), before.store[id], r)
    requires Stepped(before, after, id, Saved(r, torn)) && Invariant(after)
    ensures id in after.store && after.store[id] == r && Owned(HistoryOf(after, id), r, r)
    ensures Later(HistoryOf(before, id), HistoryOf(after, id))
    ensures HistoryOf(after, id).execution == HistoryOf(before, id).execution
  {
    hide SaveAllowed, CommitmentsHold, CleanupIsEarned, OutcomeIsConsistent, TaskHolds;
    assert RunInvariant(after.store[id], HistoryOf(after, id));
    LoadedIsOwned(HistoryOf(after, id), r);
  }

  // ---------------------------------------------------------------- edits of an owned record

  lemma InterruptKeepsOwned(h: History, stored: Record, r: Record, interrupted: Record)
    requires Owned(h, stored, r) && r.result.None?
    requires interrupted == r.(status := Interrupted, errors := interrupted.errors)
    ensures Owned(h, stored, interrupted)
  {
    hide SafePlan, PersistedEvidence, PassedIsJustified, Honest, IsCompletionOf, Verified;
  }

  lemma WorkerErrorKeepsOwned(h: History, stored: Record, r: Record, code: WorkerErrorCode)
    requires Owned(h, stored, r) && Unfinished(h, r) && IsTruthful(code, h, r.request.dnpName)
    ensures Owned(h, stored, FailedWith(r, code))
  {
    hide SafePlan, PersistedEvidence, PassedIsJustified, Honest, IsCompletionOf, Verified;
  }

  lemma HoldMaySave(h: History, stored: Record, r: Record, held: Record)
    requires Owned(h, stored, r) && MayHold(h, r)
    requires held == r.(worker := r.worker.(manualRecovery := Some(CleanupHold)))
    ensures SaveAllowed(h, stored, held)
  {
    hide SafePlan, PersistedEvidence, PassedIsJustified, Honest, IsCompletionOf, Verified;
  }

  lemma ReleaseMaySave(h: History, stored: Record, r: Record, released: Record)
    requires Owned(h, stored, r) && MayRelease(h, r)
    requires released == r.(worker := r.worker.(claimToken := None, pendingCompletionBody := None, manualRecovery := None))
    ensures SaveAllowed(h, stored, released) && !released.RequiresWorkerAttention()
  {
    hide SafePlan, PersistedEvidence, PassedIsJustified, Honest, IsCompletionOf, Verified;
  }

  // ---------------------------------------------------------------- recovering the target

  lemma OwnedIsRecoverable(h: History, stored: Record, r: Record)
    requires Owned(h, stored, r) && CleanupIsEarned(stored, h)
    requires r.worker.cleanupRequired && !r.cleanup.status.CleanupPassed?
    ensures Recoverable(stored) && !h.everPassed && r.request == stored.request
    ensures r.worker.targetRecovery == stored.worker.targetRecovery && r.evidence.initialPackages == stored.evidence.initialPackages
  {
    hide SafePlan, PersistedEvidence, PassedIsJustified, Honest, IsCompletionOf, Verified;
  }

  lemma CleaningKeepsOwned(start: State, s: State, id: RunId, r: Record, cleaned: Record)
    requires id in start.store && Owned(HistoryOf(start, id), start.store[id], r) && Recoverable(start.store[id])
    requires r.worker.workerError == start.store[id].worker.workerError
    requires Cleaning(start, s, id) && !HistoryOf(s, id).execution.lastForward && !HistoryOf(start, id).everPassed
    requires r.worker.cleanupRequired && !r.cleanup.status.CleanupPassed?
    requires cleaned == r.(cleanup := cleaned.cleanup, evidence := r.evidence.(finalPackages := cleaned.evidence.finalPackages))
    requires cleaned.evidence == PersistedEvidence(cleaned.evidence)
    requires Reconciled(Listings(s, id), r.request.dnpName, r.worker.targetRecovery, r.evidence.initialPackages, cleaned.cleanup, cleaned.evidence.finalPackages)
    ensures s.mode == start.mode && id in s.store
    ensures Owned(HistoryOf(s, id), s.store[id], cleaned) && Later(HistoryOf(start, id), HistoryOf(s, id))
  {
    hide SafePlan, PersistedEvidence, Honest, IsCompletionOf, Verified;
  }

  // ---------------------------------------------------------------- delivering

  /** The prepared body is in memory, and the record in memory may be saved. */
  predicate Deliverable(h: History, stored: Record, r: Record) {
    && r.worker.pendingCompletionBody.Some?
    && h.delivery.body == r.worker.pendingCompletionBody
    && SaveAllowed(h, stored, r)
  }

  function Acknowledge(r: Record, disposition: Disposition): Record {
    r.(worker := r.worker.(completionAcknowledged := true, completionDisposition := Some(disposition),
    pendingCompletionBody := None, manualRecovery := None, claimToken := None))
  }

  lemma AcknowledgementMaySave(h: History, stored: Record, r: Record, disposition: Disposition)
    requires Deliverable(h, stored, r) && h.delivery.Gave(disposition) && DeliveryIsConsistent(stored, h)
    ensures SaveAllowed(h, stored, Acknowledge(r, disposition)) && !Acknowledge(r, disposition).RequiresWorkerAttention()
  {
    hide SafePlan, PersistedEvidence, PassedIsJustified, Honest, IsCompletionOf, Verified;
  }

  lemma ConflictMaySave(h: History, stored: Record, r: Record, held: Record)
    requires Deliverable(h, stored, r) && h.delivery.conflicted && DeliveryIsConsistent(stored, h)
    requires held == r.(worker := r.worker.(manualRecovery := Some(CompletionConflictHold)))
    ensures SaveAllowed(h, stored, held)
  {
    hide SafePlan, PersistedEvidence, PassedIsJustified, Honest, IsCompletionOf, Verified;
  }

  /** The body is prepared from the record it is stored with, and reports cleanup honestly. */
  lemma PreparedMaySave(h: History, r: Record, prepared: Record, body: CompletionBody)
    requires Owned(h, r, r) && RunInvariant(r, h) && StatesCleanup(h, r)
    requires CompletionOf(r) == Ok(body) && prepared == r.(worker := r.worker.(pendingCompletionBody := Some(body)))
    ensures SaveAllowed(h, r, prepared)
  {
    hide SafePlan, PersistedEvidence, PassedIsJustified, Verified;
    PreparedIsHonest(h, r, body);
    hide Honest, DeliversCleanup;
  }

  lemma PreparedIsHonest(h: History, r: Record, body: CompletionBody)
    requires RunInvariant(r, h) && StatesCleanup(h, r) && CompletionOf(r) == Ok(body)
    ensures IsCompletionOf(body, r.(worker := r.worker.(pendingCompletionBody := Some(body))))
    ensures Honest(body, h) && DeliversCleanup(body, h)
  {
    hide SafePlan, PersistedEvidence, DeliveryIsConsistent;
  }

  lemma SavedBodyIsDeliverable(before: State, after: State, id: RunId, r: Record)
    requires id in before.store && before.store[id].worker.manualRecovery.None? && r.worker.manualRecovery.None?
    requires SaveResult(before, after, id, r, true) && Invariant(after) && r.worker.pendingCompletionBody.Some?
    ensures after.mode == before.mode && id in after.store && Deliverable(HistoryOf(after, id), after.store[id], r)
    ensures HistoryOf(after, id).delivery.stopped == HistoryOf(before, id).delivery.stopped
  {
    hide SaveAllowed, CommitmentsHold, CleanupIsEarned, OutcomeIsConsistent, TaskHolds;
    assert RunInvariant(after.store[id], HistoryOf(after, id));
    InvariantAllowsResave(HistoryOf(after, id), r);
  }

  lemma LoadedIsDeliverable(h: History, r: Record)
    requires RunInvariant(r, h) && r.worker.pendingCompletionBody.Some?
    ensures Deliverable(h, r, r)
  {
    hide SaveAllowed;
    InvariantAllowsResave(h, r);
  }

  /** Once the driven record is resolved, nothing needs attention. */
  lemma ResolvedIsQuiet(s: State, id: RunId)
    requires Invariant(s) && s.mode == Driving(id) && !s.store[id].RequiresWorkerAttention()
    ensures Quiet(s)
  {
    hide RunsHold;
  }
}
