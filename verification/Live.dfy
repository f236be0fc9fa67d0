/** A run the controller is executing: how its stored record, its record in memory and its history relate. */
module Live {
  import opened Wrappers
  import opened Model
  import opened Protocol
  import opened Interference

  /** The claim is owned and nothing is owed or held yet. */
  predicate Idle(w: WorkerState) {
    && w.claimToken.Some?
    && w.pendingCompletionBody.None?
    && !w.completionAcknowledged && w.completionDisposition.None?
    && w.manualRecovery.None?
    && w.workerError.None?
  }

  /** What is stored never claims more than what is in memory, whichever saves failed. */
  predicate Executing(h: History, stored: Record, r: Record) {
    && r.request == stored.request
    && stored.status.Running? && r.status.Running?
    && stored.result.None? && r.result.None?
    && Idle(stored.worker) && Idle(r.worker) && r.worker.claimToken == stored.worker.claimToken
    && r.evidence == PersistedEvidence(r.evidence)
    && h.execution.entered == 1 && !h.control.recovered && h.delivery.body.None? && !h.delivery.stopped
    && (h.execution.lastForward ==> r.worker.cleanupRequired)
    && (r.worker.cleanupRequired ==> SafePlan(r.worker.targetRecovery, r.evidence.initialPackages, r.request.dnpName))
    && (stored.worker.cleanupRequired ==>
          && r.worker.cleanupRequired
          && r.worker.targetRecovery == stored.worker.targetRecovery
          && r.evidence.initialPackages == stored.evidence.initialPackages)
  }

  /** Cleanup has not been recorded yet. */
  predicate Uncleaned(h: History, stored: Record, r: Record) {
    stored.cleanup.status.CleanupPending? && r.cleanup.status.CleanupPending? && !h.everPassed
  }

  predicate Testing(h: History, stored: Record, r: Record) {
    Executing(h, stored, r) && Uncleaned(h, stored, r)
  }

  /** Two histories agree on what was done to the package and seen of it, but for the inventories read. */
  predicate SameWork(h: History, k: History) {
    && k.execution == h.execution
    && k.observed == h.observed.(listings := k.observed.listings)
  }

  lemma ExecutingMaySave(h: History, stored: Record, r: Record)
    requires Executing(h, stored, r) && SaveEarnsCleanup(h, r)
    ensures SaveAllowed(h, stored, r)
  {
    hide PersistedEvidence, SafePlan, SaveEarnsCleanup;
  }

  lemma TestingMaySave(h: History, stored: Record, r: Record)
    requires Testing(h, stored, r)
    ensures SaveAllowed(h, stored, r)
  {
    ExecutingMaySave(h, stored, r);
    hide Executing;
  }

  /** Whatever became of a save, the run goes on, and a reported success is a success. */
  lemma SaveKeepsTesting(before: State, after: State, id: RunId, r: Record, ok: bool)
    requires id in before.store && Testing(HistoryOf(before, id), before.store[id], r) && SaveResult(before, after, id, r, ok)
    ensures after.mode == before.mode && id in after.store
    ensures Testing(HistoryOf(after, id), after.store[id], r)
    ensures SameWork(HistoryOf(before, id), HistoryOf(after, id))
    ensures ok ==> after.store[id] == r
    ensures !ok ==> HistoryOf(after, id).failed
    ensures ok && r.phase == before.store[id].phase ==> HistoryOf(after, id).control.cleared == HistoryOf(before, id).control.cleared
  {
    hide PersistedEvidence, SafePlan;
  }

  /** Reading the package manager or the control signal changes neither record. */
  lemma ReadKeepsTesting(before: State, after: State, id: RunId, r: Record, step: RunStep)
    requires Stepped(before, after, id, step) && (step.Listed? || step.Checked?)
    requires id in before.store && Testing(HistoryOf(before, id), before.store[id], r)
    ensures after.mode == before.mode && id in after.store && after.store[id] == before.store[id]
    ensures Testing(HistoryOf(after, id), after.store[id], r)
    ensures SameWork(HistoryOf(before, id), HistoryOf(after, id))
    ensures step == Checked(true) ==> HistoryOf(after, id).control.cleared == Some(after.store[id].phase)
  {
    hide PersistedEvidence, SafePlan;
  }

  /** So does letting others act. */
  lemma WaitKeepsTesting(before: State, after: State, id: RunId, r: Record)
    requires Untouched(before, after, id)
    requires id in before.store && Testing(HistoryOf(before, id), before.store[id], r)
    ensures after.mode == before.mode && id in after.store && after.store[id] == before.store[id]
    ensures Testing(HistoryOf(after, id), after.store[id], r)
    ensures SameWork(HistoryOf(before, id), HistoryOf(after, id))
  {
    hide PersistedEvidence, SafePlan;
  }

  lemma MutationKeepsTesting(before: State, after: State, id: RunId, r: Record, m: Mutation)
    requires Stepped(before, after, id, Mutated(m, true))
    requires id in before.store && Testing(HistoryOf(before, id), before.store[id], r)
    requires MutationAllowed(HistoryOf(before, id), before.store[id], m, true)
    ensures after.mode == before.mode && id in after.store && after.store[id] == before.store[id]
    ensures Testing(HistoryOf(after, id), after.store[id], r)
    ensures HistoryOf(after, id).control.cleared == HistoryOf(before, id).control.cleared
    ensures var h, k := HistoryOf(before, id), HistoryOf(after, id);
            && k.observed == h.observed.(listings := [])
            && k.execution.bypassed == (h.execution.bypassed || m.InstallBypassingSignature?)
            && k.execution.updates == h.execution.updates + (if m.UpdatePackage? then 1 else 0)
            && k.execution.updated == h.execution.updated
  {
    hide PersistedEvidence, SafePlan, AppliesRequest;
  }

  lemma CaptureKeepsTesting(before: State, after: State, id: RunId, r: Record, side: Side, capture: CaptureEvidence)
    requires Stepped(before, after, id, Captured(side, capture))
    requires id in before.store && Testing(HistoryOf(before, id), before.store[id], r)
    ensures after.mode == before.mode && id in after.store && after.store[id] == before.store[id]
    ensures Testing(HistoryOf(after, id), after.store[id], r)
    ensures HistoryOf(after, id).execution == HistoryOf(before, id).execution
    ensures var o, p := HistoryOf(before, id).observed, HistoryOf(after, id).observed;
            p == if side.Baseline? then o.(baseline := Some(capture)) else o.(candidate := Some(capture))
  {
    hide PersistedEvidence, SafePlan;
  }

  lemma UpdateKeepsTesting(before: State, after: State, id: RunId, r: Record)
    requires Stepped(before, after, id, UpdateSucceeded)
    requires id in before.store && Testing(HistoryOf(before, id), before.store[id], r)
    ensures after.mode == before.mode && id in after.store && after.store[id] == before.store[id]
    ensures Testing(HistoryOf(after, id), after.store[id], r)
    ensures HistoryOf(after, id).execution == HistoryOf(before, id).execution.(updated := true)
    ensures HistoryOf(after, id).observed == HistoryOf(before, id).observed
  {
    hide PersistedEvidence, SafePlan;
  }

  /** A forward mutation may be issued once its phase is stored and a Continue was read in it. */
  lemma TestingMayMutate(h: History, stored: Record, r: Record, m: Mutation)
    requires Testing(h, stored, r) && stored.worker.cleanupRequired
    requires stored.phase == MutationPhase(m) && h.control.cleared == Some(stored.phase)
    requires (m.UpdatePackage? ==> h.execution.updates == 0) && AppliesRequest(m, stored.request)
    ensures MutationAllowed(h, stored, m, true)
  {
    hide PersistedEvidence, SafePlan, AppliesRequest;
  }

  // ---------------------------------------------------------------- before and after the algorithm

  /** A claim that was persisted and not touched since. */
  predicate Startable(h: History, stored: Record) {
    && Idle(stored.worker) && !stored.worker.cleanupRequired
    && stored.result.None? && stored.cleanup.status.CleanupPending?
    && h.execution == NO_HISTORY.execution && h.delivery.body.None? && !h.delivery.stopped && !h.control.recovered && !h.everPassed
  }

  /** Nothing is delivered or held, and recovery did not take the run up. */
  predicate Undelivered(h: History, stored: Record) {
    Idle(stored.worker) && h.delivery.body.None? && !h.delivery.stopped && !h.control.recovered
  }

  /** No result is stored, unless a save that was reported as failed stored it. */
  predicate Unfinished(h: History, stored: Record) {
    stored.result.None? || h.torn
  }

  /** The run ended without a reported result, and the store is why. */
  predicate Aborted(h: History, stored: Record) {
    Unfinished(h, stored) && h.failed
  }

  lemma StartMaySave(h: History, stored: Record)
    requires Startable(h, stored) && stored.status.Queued? && stored.evidence == PersistedEvidence(stored.evidence)
    ensures SaveAllowed(h, stored, stored.(status := Running))
  {
  }

  lemma StartedIsTesting(before: State, saved: State, entered: State, id: RunId, r: Record)
    requires id in before.store && Startable(HistoryOf(before, id), before.store[id]) && r == before.store[id].(status := Running)
    requires r.evidence == PersistedEvidence(r.evidence)
    requires SaveResult(before, saved, id, r, true) && Stepped(saved, entered, id, AlgorithmEntered)
    ensures id in entered.store && Testing(HistoryOf(entered, id), entered.store[id], r)
    ensures HistoryOf(entered, id).execution == NO_HISTORY.execution.(entered := 1)
  {
    hide PersistedEvidence, SafePlan;
  }

  lemma SaveKeepsUndelivered(before: State, after: State, id: RunId, r: Record, ok: bool)
    requires id in before.store && Undelivered(HistoryOf(before, id), before.store[id]) && Idle(r.worker)
    requires SaveResult(before, after, id, r, ok)
    ensures after.mode == before.mode && id in after.store
    ensures Undelivered(HistoryOf(after, id), after.store[id])
    ensures ok ==> after.store[id] == r
    ensures ok ==> HistoryOf(after, id).everPassed == (HistoryOf(before, id).everPassed || r.cleanup.status.CleanupPassed?)
    ensures SameWork(HistoryOf(before, id), HistoryOf(after, id))
    ensures HistoryOf(after, id).control.recovered == HistoryOf(before, id).control.recovered
    ensures !ok ==> Unfinished(HistoryOf(before, id), before.store[id]) ==> Aborted(HistoryOf(after, id), after.store[id])
    ensures r.result.None? && ok ==> Unfinished(HistoryOf(after, id), after.store[id])
  {
  }

  lemma ExecutingIsUndelivered(h: History, stored: Record, r: Record)
    requires Executing(h, stored, r)
    ensures Undelivered(h, stored) && Idle(r.worker) && Unfinished(h, stored)
  {
  }

  /** A saved record is its own memory. */
  lemma SavedIsExecuting(before: History, stored: Record, h: History, r: Record)
    requires Executing(before, stored, r) && SameWork(before, h) && Undelivered(h, r) && h.control.recovered == before.control.recovered
    ensures Executing(h, r, r)
  {
    hide PersistedEvidence, SafePlan;
  }
}
