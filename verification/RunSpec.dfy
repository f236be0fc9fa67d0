/** What the controller relies on between its calls (src/runner/controller.rs). */
module RunSpec {
  import opened Wrappers
  import opened Model
  import opened Protocol
  import opened Interference
  import opened Adapter
  import opened Live
  import opened RunScript
  import opened Reconciliation
  import Comparisons
  import Stabilization

  // ---------------------------------------------------------------- failures

  /** A reason that blames neither the store nor the control signal. */
  predicate Operational(reason: ReasonCode) {
    !reason.PersistenceFailed? && !reason.CancellationRequested? && !reason.ClaimLost?
  }

  /** A failure never passes, and what it blames on the store or on a signal is true. */
  predicate Explains(f: Failure, h: History) {
    && !f.verdict.Passed?
    && (f.reason.PersistenceFailed? ==> h.failed)
    && (f.reason.CancellationRequested? ==> h.control.signals.flagged)
    && (f.reason.ClaimLost? ==> h.control.signals.lost)
  }

  lemma OperationIsNotControl()
    ensures Operational(BaselineUnavailable) && Operational(CandidateInstallFailed)
  {
  }

  lemma OperationalExplains(f: Failure, h: History)
    requires !f.verdict.Passed? && Operational(f.reason)
    ensures Explains(f, h)
  {
  }

  lemma PackageFailureIsOperational(error: PackageError, reason: ReasonCode)
    requires Operational(reason)
    ensures !PackageFailure(error, reason).verdict.Passed? && Operational(PackageFailure(error, reason).reason)
  {
  }

  lemma CandidateFailureExplains(error: PackageError, h: History)
    ensures Explains(CandidateFailure(error), h)
  {
  }

  // ---------------------------------------------------------------- progress of the algorithm

  /** A side that was captured, applied as previewed, and kept in the evidence. */
  predicate SideIn(kept: Option<CaptureEvidence>, observed: Option<CaptureEvidence>) {
    && observed.Some?
    && kept == observed
    && PassMeansStable(observed.value)
    && observed.value.preview.Some? && observed.value.details.Some? && Comparisons.AppliedAsPreviewed(observed.value)
  }

  /** What holds once the baseline has been tested. */
  predicate BaselineTested(h: History, evidence: RunEvidence, errors: seq<RunError>) {
    && SideIn(evidence.baseline, h.observed.baseline)
    && (h.execution.bypassed ==> BypassRecorded(errors))
    && h.execution.updates == 0
  }

  /** What holds once both sides have been tested. */
  predicate BothTested(h: History, evidence: RunEvidence, errors: seq<RunError>) {
    && SideIn(evidence.baseline, h.observed.baseline)
    && SideIn(evidence.candidate, h.observed.candidate)
    && (h.execution.bypassed ==> BypassRecorded(errors))
    && h.execution.updated
  }

  /** A baseline installation: no update, and a bypass only if it is recorded. */
  predicate BaselineApplied(h: History, k: History, errors: seq<RunError>) {
    && k.execution.updates == h.execution.updates
    && (k.execution.bypassed ==> h.execution.bypassed || BypassRecorded(errors))
  }

  lemma PersistedTwice(evidence: RunEvidence)
    ensures PersistedEvidence(PersistedEvidence(evidence)) == PersistedEvidence(evidence)
    ensures PersistedEvidence(evidence).initialPackages == evidence.initialPackages
  {
  }

  lemma PersistedKeepsInventory(evidence: RunEvidence, final: seq<PackageSummary>)
    ensures PersistedEvidence(evidence.(finalPackages := final)) == PersistedEvidence(evidence).(finalPackages := final)
  {
  }

  /** Both sides were compared. */
  predicate IsCompared(evidence: RunEvidence) {
    && evidence.baseline.Some? && evidence.candidate.Some?
    && evidence.comparison == Some(Comparisons.Compare(evidence.baseline.value, evidence.candidate.value))
  }

  lemma EditKeepsTesting(h: History, stored: Record, m: Record, edited: Record)
    requires Testing(h, stored, Persisted(m))
    requires edited == m.(phase := edited.phase, phaseHistory := edited.phaseHistory, errors := edited.errors, evidence := edited.evidence)
    requires edited.evidence.initialPackages == m.evidence.initialPackages
    ensures Testing(h, stored, Persisted(edited))
  {
    PersistedTwice(edited.evidence);
    PersistedTwice(m.evidence);
    hide PersistedEvidence, SafePlan;
  }

  lemma OwingKeepsTesting(h: History, stored: Record, m: Record)
    requires Testing(h, stored, Persisted(m))
    requires SafePlan(m.worker.targetRecovery, m.evidence.initialPackages, m.request.dnpName)
    ensures Testing(h, stored, Persisted(Owing(m)))
  {
    PersistedTwice(m.evidence);
    hide PersistedEvidence, SafePlan;
  }

  /** Before anything was authorized the inventory and the plan may still be written. */
  lemma PlanningKeepsTesting(h: History, stored: Record, m: Record, planned: Record)
    requires Testing(h, stored, Persisted(m)) && !m.worker.cleanupRequired
    requires planned == m.(worker := m.worker.(targetRecovery := planned.worker.targetRecovery),
                           evidence := m.evidence.(initialPackages := planned.evidence.initialPackages))
    ensures Testing(h, stored, Persisted(planned))
  {
    PersistedTwice(planned.evidence);
    hide PersistedEvidence, SafePlan;
  }

  function Seen(h: History, side: Side): Option<CaptureEvidence> {
    if side.Baseline? then h.observed.baseline else h.observed.candidate
  }

  function Other(side: Side): Side {
    if side.Baseline? then Candidate else Baseline
  }

  /** One side was tested, and nothing was done to the package meanwhile. */
  predicate SideTested(h: History, k: History, before: RunEvidence, after: RunEvidence, side: Side) {
    && SideIn(Kept(after, side), Seen(k, side))
    && Seen(k, Other(side)) == Seen(h, Other(side)) && Kept(after, Other(side)) == Kept(before, Other(side))
    && k.execution == h.execution
  }

  /** What the hard check leaves behind backs up a pass. */
  lemma MeasuredIsEvidence(result: Stabilization.StabilizationResult, seen: seq<Stabilization.Observation>)
    requires Stabilization.Reports(result, seen) && (result.passed <==> Stabilization.PassesAt(seen, REQUIRED_SAMPLES))
    ensures result == Measured(seen)
    ensures result.passed ==> Stabilization.StableWindow(result, REQUIRED_SAMPLES)
  {
    hide Stabilization.PassesAt, Stabilization.StableWindow;
    if result.passed {
      Stabilization.ReportsKeepRecent(result, seen);
      Stabilization.PassedShowsStableWindow(seen, REQUIRED_SAMPLES, result);
    }
  }

  lemma CaptureIsTested(h: History, k: History, before: RunEvidence, after: RunEvidence, side: Side, capture: CaptureEvidence)
    requires capture.preview.Some? && capture.details.Some? && Comparisons.AppliedAsPreviewed(capture) && PassMeansStable(capture) && after == WithCapture(before, side, capture)
    requires Seen(k, side) == Some(capture) && Seen(k, Other(side)) == Seen(h, Other(side))
    requires k.execution == h.execution
    ensures SideTested(h, k, before, after, side)
  {
  }

  /** The candidate update succeeded; nothing else was applied or captured. */
  predicate CandidateApplied(h: History, k: History) {
    k.observed.baseline == h.observed.baseline && k.execution.updated && k.execution.bypassed == h.execution.bypassed
  }

  lemma NoUpdateYet(h: History, evidence: RunEvidence, errors: seq<RunError>)
    requires BaselineTested(h, evidence, errors)
    ensures h.execution.updates == 0
  {
  }

  lemma SameWorkTwice(h: History, k: History, l: History)
    requires SameWork(h, k) && SameWork(k, l)
    ensures SameWork(h, l) && l.execution == h.execution
  {
  }

  lemma SameWorkKeepsExecution(h: History, k: History)
    requires SameWork(h, k)
    ensures k.execution == h.execution
  {
  }

  lemma AppliedAfterSameWork(h: History, k: History, l: History)
    requires SameWork(h, k) && CandidateApplied(k, l)
    ensures CandidateApplied(h, l)
  {
  }

  lemma BaselineAppliedAfterSameWork(h: History, k: History, l: History, errors: seq<RunError>)
    requires SameWork(h, k) && BaselineApplied(k, l, errors)
    ensures BaselineApplied(h, l, errors)
  {
  }

  lemma SameWorkAppliesNothing(h: History, k: History, errors: seq<RunError>)
    requires SameWork(h, k)
    ensures BaselineApplied(h, k, errors)
  {
  }

  lemma SideTestedAfterSameWork(h: History, k: History, l: History, before: RunEvidence, after: RunEvidence, side: Side)
    requires SameWork(h, k) && SideTested(k, l, before, after, side)
    ensures SideTested(h, l, before, after, side)
  {
  }

  lemma BothSidesTested(h: History, updated: History, k: History, before: RunEvidence, after: RunEvidence, errors: seq<RunError>)
    requires BaselineTested(h, before, errors) && CandidateApplied(h, updated) && SideTested(updated, k, before, after, Candidate)
    ensures BothTested(k, after, errors)
  {
    hide PassMeansStable, Comparisons.AppliedAsPreviewed, BypassRecorded;
  }

  lemma UpdateAppliesRequest(candidate: string, request: RunRequest)
    requires candidate == request.candidateRef
    ensures AppliesRequest(UpdatePackage(candidate), request)
  {
  }

  lemma UpdateStepsKeepTesting(before: State, after: State, id: RunId, r: Record, candidate: string, ok: bool)
    requires id in before.store && Testing(HistoryOf(before, id), before.store[id], r)
    requires MutationAllowed(HistoryOf(before, id), before.store[id], UpdatePackage(candidate), true)
    requires if ok then exists updated: State :: Stepped(before, updated, id, Mutated(UpdatePackage(candidate), true)) && Stepped(updated, after, id, UpdateSucceeded)
             else Stepped(before, after, id, Mutated(UpdatePackage(candidate), true))
    ensures after.mode == before.mode && id in after.store && after.store[id] == before.store[id]
    ensures Testing(HistoryOf(after, id), after.store[id], r)
    ensures ok ==> CandidateApplied(HistoryOf(before, id), HistoryOf(after, id))
  {
    hide Testing, MutationAllowed, Stepped;
    if ok {
      var updated :| Stepped(before, updated, id, Mutated(UpdatePackage(candidate), true)) && Stepped(updated, after, id, UpdateSucceeded);
      MutationKeepsTesting(before, updated, id, r, UpdatePackage(candidate));
      UpdateKeepsTesting(updated, after, id, r);
    } else {
      MutationKeepsTesting(before, after, id, r, UpdatePackage(candidate));
    }
  }

  // ---------------------------------------------------------------- after the algorithm

  /** What both sides showed and what was applied is the same. */
  predicate SameTests(h: History, k: History) {
    && k.observed.baseline == h.observed.baseline && k.observed.candidate == h.observed.candidate
    && k.execution.updated == h.execution.updated && k.execution.bypassed == h.execution.bypassed
  }

  /** Cleanup is settled: skipped when nothing was owed, else verified or known to have failed. */
  predicate CleanupSettled(h: History, r: Record) {
    && !h.execution.lastForward
    && (if r.worker.cleanupRequired then r.cleanup.status.CleanupPassed? || Comparisons.CleanupOutcomeFailed(r.cleanup.status)
        else r.cleanup == CleanupResult(CleanupSkipped, []))
    && (r.cleanup.status.CleanupPassed? <==> h.everPassed)
    && (r.cleanup.status.CleanupPassed? ==> r.cleanup.leftoverPackages == [])
  }

  lemma StoredIsRecoverable(h: History, stored: Record)
    requires Testing(h, stored, stored) && stored.worker.cleanupRequired
    ensures Recoverable(stored)
  {
  }

  /** Cleanup leaves the run executing, and its outcome may be saved. */
  lemma CleanedMaySave(start: State, s: State, id: RunId, r: Record, cleaned: Record)
    requires id in start.store && start.store[id] == r && Testing(HistoryOf(start, id), r, r) && r.worker.cleanupRequired
    requires Cleaning(start, s, id) && !HistoryOf(s, id).execution.lastForward
    requires cleaned == r.(cleanup := cleaned.cleanup, evidence := r.evidence.(finalPackages := cleaned.evidence.finalPackages))
    requires cleaned.evidence == PersistedEvidence(cleaned.evidence)
    requires Reconciled(Listings(s, id), r.request.dnpName, r.worker.targetRecovery, r.evidence.initialPackages, cleaned.cleanup, cleaned.evidence.finalPackages)
    ensures id in s.store && Executing(HistoryOf(s, id), s.store[id], cleaned)
    ensures SaveAllowed(HistoryOf(s, id), s.store[id], cleaned)
    ensures SameTests(HistoryOf(start, id), HistoryOf(s, id)) && !HistoryOf(s, id).everPassed
  {
    hide PersistedEvidence, SafePlan, Verified, SaveAllowed;
    ExecutingMaySave(HistoryOf(s, id), s.store[id], cleaned);
  }

  lemma CleanedIsSettled(before: History, stored: Record, h: History, r: Record)
    requires Executing(before, stored, r) && SameWork(before, h) && Undelivered(h, r) && h.control.recovered == before.control.recovered
    requires r.worker.cleanupRequired && !before.execution.lastForward && !before.everPassed
    requires h.everPassed == (before.everPassed || r.cleanup.status.CleanupPassed?)
    requires r.cleanup.status.CleanupPassed? || Comparisons.CleanupOutcomeFailed(r.cleanup.status)
    requires r.cleanup.status.CleanupPassed? ==> r.cleanup.leftoverPackages == []
    ensures Executing(h, r, r) && CleanupSettled(h, r)
  {
    hide PersistedEvidence, SafePlan;
    SavedIsExecuting(before, stored, h, r);
  }

  lemma SettledInMemory(h: History, m: Record)
    requires CleanupSettled(h, Persisted(m))
    ensures CleanupSettled(h, m)
  {
  }

  lemma SkippedIsSettled(h: History, stored: Record, r: Record)
    requires Testing(h, stored, r) && !r.worker.cleanupRequired
    ensures var skipped := r.(cleanup := CleanupResult(CleanupSkipped, []));
            Executing(h, stored, skipped) && CleanupSettled(h, skipped)
  {
    hide PersistedEvidence, SafePlan;
  }

  lemma TestingIsUndelivered(h: History, stored: Record, r: Record)
    requires Testing(h, stored, r)
    ensures Undelivered(h, stored) && Unfinished(h, stored)
    ensures h.failed ==> Aborted(h, stored)
  {
  }

  /** The run has its result, and cleanup is no longer pending. */
  predicate Concluded(r: Record) {
    r.status.Completed? && r.phase.Finished? && r.result.Some? && r.result.value.cleanup == r.cleanup && !r.cleanup.status.CleanupPending?
  }

  lemma ComparedChecks(evidence: RunEvidence)
    requires IsCompared(evidence)
    ensures evidence.baseline.Some? && evidence.candidate.Some?
    ensures ComparisonOf(evidence).baselineHardCheck == evidence.baseline.value.stabilization.passed
    ensures ComparisonOf(evidence).candidateHardCheck == evidence.candidate.value.stabilization.passed
  {
  }

  /** A settled run may be saved with its verdict: a passing one is justified. */
  lemma ConcludedMaySave(h: History, stored: Record, m: Record, failure: Option<Failure>)
    requires Executing(h, stored, Persisted(m)) && CleanupSettled(h, m)
    requires failure.Some? ==> !failure.value.verdict.Passed?
    requires failure.None? ==> m.worker.cleanupRequired && BothTested(h, m.evidence, m.errors) && IsCompared(m.evidence)
    ensures var finished := Persisted(Concluding(m, failure));
            SaveAllowed(h, stored, finished) && Idle(finished.worker) && Concluded(finished)
    ensures Undelivered(h, stored) && Unfinished(h, stored)
  {
    hide PersistedEvidence, SafePlan, PassedIsJustified, Comparisons.Compare, Comparisons.FinalVerdict, BothTested;
    hide BypassRecorded, ComparisonOf, AnalysisOf, Comparisons.SideOf, CleanupErrors;
    PersistedTwice(m.evidence);
    if VerdictOn(m, failure).0.Passed? {
      PassIsJustified(h, m, failure);
    }
  }

  lemma BypassStaysRecorded(errors: seq<RunError>, later: seq<RunError>)
    requires errors <= later && BypassRecorded(errors)
    ensures BypassRecorded(later)
  {
    var e :| e in errors && e.code == BaselineSignatureInvalid;
    assert e in later;
  }

  lemma PassIsJustified(h: History, m: Record, failure: Option<Failure>)
    requires CleanupSettled(h, m) && VerdictOn(m, failure).0.Passed?
    requires failure.Some? ==> !failure.value.verdict.Passed?
    requires failure.None? ==> m.worker.cleanupRequired && BothTested(h, m.evidence, m.errors) && IsCompared(m.evidence)
    ensures PassedIsJustified(PersistedEvidence(m.evidence), Concluding(m, failure).result.value, h)
  {
    hide PassMeansStable, Comparisons.AppliedAsPreviewed;
    Comparisons.PassedExactlyWhen(failure, ComparisonOf(m.evidence), AnalysisOf(m.evidence), m.cleanup.status, BypassRecorded(CleanupErrors(m)));
    assert !BypassRecorded(m.errors) by {
      if BypassRecorded(m.errors) {
        BypassStaysRecorded(m.errors, CleanupErrors(m));
      }
    }
  }

  lemma StoredIsPersisted(s: State, id: RunId)
    requires Invariant(s) && id in s.store
    ensures s.store[id].evidence == PersistedEvidence(s.store[id].evidence) && s.store[id].request.runId == id
  {
    hide CleanupIsEarned, DeliveryIsConsistent, OutcomeIsConsistent;
    assert RunInvariant(s.store[id], HistoryOf(s, id));
  }

  lemma EnterIsGuarded(before: State, saved: State, id: RunId, r: Record)
    requires id in before.store && Startable(HistoryOf(before, id), before.store[id]) && r.status.Running?
    requires SaveResult(before, saved, id, r, true)
    requires r.worker.manualRecovery.None?
    requires r.request.dnpName == before.store[id].request.dnpName && Admitted(HistoryOf(before, id).observed.listings, r.request.dnpName)
    ensures id in saved.store && RunGuard(HistoryOf(saved, id), saved.store[id], AlgorithmEntered)
  {
  }

  lemma TestsSurviveCleanup(h: History, k: History, before: RunEvidence, after: RunEvidence, errors: seq<RunError>)
    requires BothTested(h, before, errors) && SameTests(h, k) && after == before.(finalPackages := after.finalPackages)
    requires IsCompared(before)
    ensures BothTested(k, after, errors) && IsCompared(after)
  {
  }

  lemma StartableSurvives(before: State, after: State, id: RunId)
    requires Untouched(before, after, id) && id in before.store && Startable(HistoryOf(before, id), before.store[id])
    ensures after.mode == before.mode && after.store == before.store
    ensures Startable(HistoryOf(after, id), after.store[id])
    ensures Undelivered(HistoryOf(after, id), after.store[id]) && Unfinished(HistoryOf(after, id), after.store[id])
    ensures HistoryOf(after, id).observed == HistoryOf(before, id).observed
  {
  }

  lemma UnreadableIsAborted(before: State, after: State, id: RunId)
    requires Stepped(before, after, id, StoreFailed) && Startable(HistoryOf(before, id), before.store[id])
    ensures after.mode == before.mode && id in after.store
    ensures Undelivered(HistoryOf(after, id), after.store[id]) && Aborted(HistoryOf(after, id), after.store[id])
  {
  }

  lemma StartableOwesNothing(h: History, stored: Record)
    requires Startable(h, stored)
    ensures !stored.worker.cleanupRequired && stored.worker.manualRecovery.None?
  {
  }

  lemma StartableIsUndelivered(h: History, stored: Record)
    requires Startable(h, stored)
    ensures Undelivered(h, stored) && Unfinished(h, stored) && Idle(stored.worker) && stored.worker.manualRecovery.None?
  {
  }
}
