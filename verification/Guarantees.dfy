/**
 * What holds over every run of the worker, with crashes, operator actions and signals anywhere. The
 * worker only produces legal traces (Worker.Life); every lemma here is about all legal traces.
 */
module Guarantees {
  import opened Wrappers
  import opened Model
  import opened Protocol
  import opened Evolution
  import Invariants
  import Comparisons
  import Stabilization

  /** The state before event n. */
  function At(trace: seq<Event>, n: nat): State
    requires n <= |trace|
  {
    After(trace[..n])
  }

  // ---------------------------------------------------------------- single flight

  /** At most one run is unresolved at any time, and none when a claim is sent. */
  lemma SingleFlight(trace: seq<Event>, n: nat)
    requires Legal(trace) && n <= |trace|
    ensures AtMostOneUnresolved(At(trace, n))
    ensures n < |trace| && trace[n] == Task(ClaimSent) ==> Quiet(At(trace, n))
  {
    hide RunsHold, RunGuard, Legal, Apply;
    LegalPrefix(trace, n);
    Invariants.LegalKeepsInvariant(trace[..n]);
    if n < |trace| {
      StepAt(trace, n);
    }
  }

  // ---------------------------------------------------------------- write-ahead recovery

  /**
   * Every mutation, forward or cleanup, happens after its recovery was made durable: cleanup is owed,
   * for good, under a plan that restores the target exactly if the stored inventory had it. Volumes
   * are only deleted of targets that were not installed before.
   */
  lemma WriteAhead(trace: seq<Event>, n: nat, later: nat, id: RunId, m: Mutation, forward: bool)
    requires Legal(trace) && n < |trace| && n <= later <= |trace| && trace[n] == Run(id, Mutated(m, forward))
    ensures id in At(trace, n).store && id in At(trace, later).store
    ensures var r, q := At(trace, n).store[id], At(trace, later).store[id];
            && r.worker.cleanupRequired
            && (r.worker.targetRecovery.RestoreLatest? <==> Installed(r.evidence.initialPackages, r.request.dnpName))
            && !InstalledAsCore(r.evidence.initialPackages, r.request.dnpName) && r.request.dnpName != HARNESS_DNP_NAME
            && q.worker.cleanupRequired
            && q.worker.targetRecovery == r.worker.targetRecovery && q.evidence.initialPackages == r.evidence.initialPackages
            && (m.RemovePackage? && m.deleteVolumes ==> !Installed(r.evidence.initialPackages, r.request.dnpName))
            && (if forward then AppliesRequest(m, r.request) else AppliesPlan(m, r.worker.targetRecovery))
  {
    hide Legal, After, TaskHolds, HistoryEvolves, CleanupIsEarned, DeliveryIsConsistent, OutcomeIsConsistent;
    hide SaveAllowed, PersistedEvidence;
    StepAt(trace, n);
    EvolvesAlong(trace, n, later, id);
    assert CommitmentsHold(At(trace, n).store[id], HistoryOf(At(trace, n), id));
  }

  // ---------------------------------------------------------------- at most once

  lemma EnteredForever(trace: seq<Event>, i: nat, j: nat, id: RunId)
    requires Legal(trace) && i < j <= |trace| && trace[i] == Run(id, AlgorithmEntered)
    ensures id in At(trace, j).store && HistoryOf(At(trace, j), id).execution.entered > 0
  {
    hide Legal, After, Invariant, RecordEvolves, SaveAllowed;
    StepAt(trace, i);
    EvolvesAlong(trace, i + 1, j, id);
  }

  lemma UpdatedForever(trace: seq<Event>, i: nat, j: nat, id: RunId, candidate: string, forward: bool)
    requires Legal(trace) && i < j <= |trace| && trace[i] == Run(id, Mutated(UpdatePackage(candidate), forward))
    ensures id in At(trace, j).store && HistoryOf(At(trace, j), id).execution.updates > 0
  {
    hide Legal, After, Invariant, RecordEvolves, SaveAllowed, MutationAllowed;
    StepAt(trace, i);
    EvolvesAlong(trace, i + 1, j, id);
  }

  /** However often the process restarts or the job is offered again, a run enters the algorithm once. */
  lemma AlgorithmRunsAtMostOnce(trace: seq<Event>, i: nat, j: nat, id: RunId)
    requires Legal(trace) && i < j < |trace| && trace[i] == Run(id, AlgorithmEntered)
    ensures trace[j] != Run(id, AlgorithmEntered)
  {
    hide Legal, After, Invariant, SaveAllowed;
    EnteredForever(trace, i, j, id);
    StepAt(trace, j);
  }

  /** And the candidate is applied once. */
  lemma CandidateIsAppliedAtMostOnce(trace: seq<Event>, i: nat, j: nat, id: RunId, candidate: string, forward: bool)
    requires Legal(trace) && i < j < |trace| && trace[i] == Run(id, Mutated(UpdatePackage(candidate), forward))
    ensures forall other, again :: trace[j] != Run(id, Mutated(UpdatePackage(other), again))
  {
    hide Legal, After, Invariant, SaveAllowed;
    UpdatedForever(trace, i, j, id, candidate, forward);
    StepAt(trace, j);
  }

  lemma RecoveredForever(trace: seq<Event>, i: nat, j: nat, id: RunId)
    requires Legal(trace) && i < j <= |trace| && trace[i] == Run(id, RecoveryStarted)
    ensures id in At(trace, j).store && HistoryOf(At(trace, j), id).control.recovered
  {
    hide Legal, After, Invariant, SaveAllowed, RecordEvolves, MutationAllowed;
    StepAt(trace, i);
    EvolvesAlong(trace, i + 1, j, id);
  }

  /** After recovery took a run up, only cleanup touches the package, and the algorithm is not entered. */
  lemma RecoveryNeverReruns(trace: seq<Event>, i: nat, j: nat, id: RunId)
    requires Legal(trace) && i < j < |trace| && trace[i] == Run(id, RecoveryStarted)
    ensures trace[j] != Run(id, AlgorithmEntered)
    ensures forall m :: trace[j] != Run(id, Mutated(m, true))
  {
    hide Legal, After, Invariant, SaveAllowed, Apply;
    RecoveredForever(trace, i, j, id);
    StepAt(trace, j);
  }

  // ---------------------------------------------------------------- delivery

  /** Every completion body ever sent for a run is the same, and was stored before it was first sent. */
  lemma ExactRedelivery(trace: seq<Event>, i: nat, j: nat, id: RunId, first: CompletionBody, again: CompletionBody)
    requires Legal(trace) && i <= j < |trace| && trace[i] == Run(id, Sent(first)) && trace[j] == Run(id, Sent(again))
    ensures first == again
    ensures exists r, torn :: Run(id, Saved(r, torn)) in trace[..i] && r.worker.pendingCompletionBody == Some(first)
  {
    hide Legal, After, Invariant, SaveAllowed, RecordEvolves, Apply;
    StepAt(trace, i);
    StepAt(trace, j);
    EvolvesAlong(trace, i, j, id);
    HistoryIsWitnessed(trace[..i], id);
  }

  /** A stored acknowledgement was given by the coordinator in so many words, or accepted by an operator. */
  lemma AcknowledgementIsAnswered(trace: seq<Event>, id: RunId)
    requires Legal(trace) && id in After(trace).store && After(trace).store[id].worker.completionAcknowledged
    ensures var disposition := After(trace).store[id].worker.completionDisposition;
            && (disposition == Some(Recorded) ==> Run(id, Answered(false)) in trace)
            && (disposition == Some(Duplicate) ==> Run(id, Answered(true)) in trace)
            && (disposition == Some(OperatorAcceptedCoordinator) ==> Run(id, OperatorActed(AcceptCoordinatorResult)) in trace)
            && disposition.Some?
  {
    hide Legal, After, TaskHolds, CommitmentsHold, CleanupIsEarned, OutcomeIsConsistent;
    Invariants.LegalKeepsInvariant(trace);
    assert DeliveryIsConsistent(After(trace).store[id], HistoryOf(After(trace), id));
    HistoryIsWitnessed(trace, id);
  }

  /** No claim is forgotten: a run stays unresolved until it is acknowledged or its claim was lost since recovery last took it up. */
  lemma ResolutionIsEarned(trace: seq<Event>, id: RunId)
    requires Legal(trace) && id in After(trace).store && !After(trace).store[id].RequiresWorkerAttention()
    ensures || Run(id, Answered(false)) in trace || Run(id, Answered(true)) in trace
            || Run(id, OperatorActed(AcceptCoordinatorResult)) in trace
            || LostSinceRecovery(trace, id)
  {
    hide Legal, After, TaskHolds, CommitmentsHold, CleanupIsEarned, OutcomeIsConsistent;
    Invariants.LegalKeepsInvariant(trace);
    assert DeliveryIsConsistent(After(trace).store[id], HistoryOf(After(trace), id));
    HistoryIsWitnessed(trace, id);
  }

  lemma RebuffStep(s: State, e: Event, id: RunId)
    requires id in s.store && HistoryOf(s, id).delivery.stopped && Guard(s, e) && e != Run(id, RecoveryStarted)
    ensures id in Apply(s, e).store && HistoryOf(Apply(s, e), id).delivery.stopped
  {
    hide RunGuard, NextRecord;
  }

  lemma {:induction false} RebuffLasts(trace: seq<Event>, i: nat, j: nat, id: RunId, conflict: bool)
    requires Legal(trace) && i < j <= |trace| && trace[i] == Run(id, Rebuffed(conflict))
    requires forall k :: i < k < j ==> trace[k] != Run(id, RecoveryStarted)
    ensures id in At(trace, j).store && HistoryOf(At(trace, j), id).delivery.stopped
    decreases j
  {
    hide Legal, After, Invariant;
    StepAt(trace, j - 1);
    if i < j - 1 {
      RebuffLasts(trace, i, j - 1, id, conflict);
      RebuffStep(At(trace, j - 1), trace[j - 1], id);
    }
  }

  /** After a conflict or a rejected credential the body is not sent again before recovery starts over. */
  lemma NothingIsSentAfterRebuff(trace: seq<Event>, i: nat, j: nat, id: RunId, conflict: bool)
    requires Legal(trace) && i < j < |trace| && trace[i] == Run(id, Rebuffed(conflict))
    requires forall k :: i < k < j ==> trace[k] != Run(id, RecoveryStarted)
    ensures forall body :: trace[j] != Run(id, Sent(body))
  {
    hide Legal, After, Apply, Invariant;
    RebuffLasts(trace, i, j, id, conflict);
    StepAt(trace, j);
  }

  /** A record is held for a conflict only after the coordinator rejected its completion as conflicting. */
  lemma ConflictHoldIsAnswered(trace: seq<Event>, id: RunId)
    requires Legal(trace) && id in After(trace).store && After(trace).store[id].worker.manualRecovery == Some(CompletionConflictHold)
    ensures Run(id, Rebuffed(true)) in trace && After(trace).store[id].worker.pendingCompletionBody.Some?
  {
    hide Legal, After, TaskHolds, CommitmentsHold, CleanupIsEarned, OutcomeIsConsistent;
    Invariants.LegalKeepsInvariant(trace);
    assert DeliveryIsConsistent(After(trace).store[id], HistoryOf(After(trace), id));
    HistoryIsWitnessed(trace, id);
  }

  /** The worker pauses for cleanup only when cleanup failed or is still owed, or after the store reported a failure. */
  lemma CleanupHoldIsJustified(trace: seq<Event>, n: nat, id: RunId, r: Record, torn: bool)
    requires Legal(trace) && n < |trace| && trace[n] == Run(id, Saved(r, torn)) && r.worker.manualRecovery == Some(CleanupHold)
    ensures StoreWasAtFault(trace[..n], id) || r.CleanupFailed() || (r.worker.cleanupRequired && !r.cleanup.status.CleanupPassed?)
  {
    hide Legal, After, Apply, Invariant, SaveKeepsCommitments, SaveEarnsCleanup, SaveKeepsOutcome;
    StepAt(trace, n);
    HistoryIsWitnessed(trace[..n], id);
  }

  /**
   * The worker error decided by a save is what happened: an interrupted run was taken up by recovery, a
   * persistence failure follows a failure the store reported, and a job is refused or given up as
   * unexpected only before its algorithm, because of the inventory read last or because none could be read.
   */
  lemma WorkerErrorsAreTruthful(trace: seq<Event>, n: nat, id: RunId, r: Record, torn: bool)
    requires Legal(trace) && n < |trace| && trace[n] == Run(id, Saved(r, torn)) && id in At(trace, n).store
    requires r.worker.workerError.Some? && r.worker.workerError != At(trace, n).store[id].worker.workerError
    ensures IsTruthful(r.worker.workerError.value.code, HistoryOf(At(trace, n), id), r.request.dnpName)
    ensures r.worker.workerError.value.code.InterruptedRun? ==> Run(id, RecoveryStarted) in trace[..n]
    ensures r.worker.workerError.value.code.LocalPersistenceFailed? ==> StoreWasAtFault(trace[..n], id)
    ensures r.worker.workerError.value.code.UnsupportedJob? || r.worker.workerError.value.code.UnexpectedWorkerError? ==>
              Run(id, AlgorithmEntered) !in trace[..n]
  {
    hide Legal, After, Apply, Invariant, SaveKeepsCommitments, SaveEarnsCleanup, SaveKeepsDelivery;
    StepAt(trace, n);
    HistoryIsWitnessed(trace[..n], id);
    if Run(id, AlgorithmEntered) in trace[..n] {
      var k :| 0 <= k < n && trace[..n][k] == Run(id, AlgorithmEntered);
      EnteredForever(trace, k, n, id);
    }
  }

  /**
   * The algorithm is never entered for the harness, and for any other target only after an inventory was
   * read for the run that does not show it as a core package; no other was read since, and the package
   * was not touched.
   */
  lemma OnlyAdmittedTargetsAreTested(trace: seq<Event>, n: nat, id: RunId)
    requires Legal(trace) && n < |trace| && trace[n] == Run(id, AlgorithmEntered)
    ensures id in At(trace, n).store && At(trace, n).store[id].request.dnpName != HARNESS_DNP_NAME
    ensures exists l, packages ::
              LastListedAt(trace[..n], l, id, packages) && !InstalledAsCore(packages, At(trace, n).store[id].request.dnpName)
  {
    hide Legal, After, Apply, Invariant, InstalledAsCore, LastListedAt;
    StepAt(trace, n);
    var listings := HistoryOf(At(trace, n), id).observed.listings;
    var l := LastListingIsRead(trace[..n], id);
    assert LastListedAt(trace[..n], l, id, listings[|listings| - 1]);
  }

  // ---------------------------------------------------------------- honest completions

  /**
   * At event p cleanup of the run became passed: an operator confirmed it, or a save recorded it while
   * the inventories read since the last mutation showed the target as planned and nothing new.
   */
  ghost predicate CleanupPassedAt(trace: seq<Event>, p: nat, id: RunId) {
    && p < |trace| && trace[p].Run? && trace[p].id == id && id in At(trace, p).store
    && var s := At(trace, p);
    match trace[p].run
    case OperatorActed(action) => action.ContinueAfterCleanup? || action.ConfirmCleanup?
    case Saved(r, _) =>
      && r.cleanup.status.CleanupPassed?
      && Verified(HistoryOf(s, id).observed.listings, r.worker.targetRecovery, r.evidence.initialPackages, r.request.dnpName)
    case _ => false
  }

  lemma FirstPassIsEarned(h: History, stored: Record, e: RunStep)
    requires RunInvariant(stored, h) && RunGuard(h, stored, e)
    requires !h.everPassed && NextHistory(h, stored, e).everPassed
    ensures match e
            case OperatorActed(action) => action.ContinueAfterCleanup? || action.ConfirmCleanup?
            case Saved(r, _) =>
              && r.cleanup.status.CleanupPassed?
              && Verified(h.observed.listings, r.worker.targetRecovery, r.evidence.initialPackages, r.request.dnpName)
            case _ => false
  {
    hide CommitmentsHold, DeliveryIsConsistent, OutcomeIsConsistent, SaveKeepsCommitments, SaveKeepsDelivery;
    hide SaveKeepsOutcome;
    hide Verified, MutationAllowed;
  }

  lemma CleanupPassedLater(trace: seq<Event>, e: Event, p: nat, id: RunId)
    requires CleanupPassedAt(trace, p, id)
    ensures CleanupPassedAt(trace + [e], p, id)
  {
    assert (trace + [e])[..p] == trace[..p];
  }

  lemma {:induction false} PassIsEarned(trace: seq<Event>, id: RunId) returns (p: nat)
    requires Legal(trace) && HistoryOf(After(trace), id).everPassed
    ensures p < |trace| && CleanupPassedAt(trace, p, id) && HistoryOf(At(trace, p + 1), id).everPassed
  {
    hide RunGuard, Apply, NextHistory, RunInvariant, CleanupPassedAt;
    assert trace != [];
    var n := |trace| - 1;
    var s, e := After(trace[..n]), trace[n];
    StepAt(trace, n);
    HistoryAfter(s, e, id);
    assert trace[..n + 1] == trace;
    if HistoryOf(s, id).everPassed {
      p := PassIsEarned(trace[..n], id);
      assert trace[..n][..p + 1] == trace[..p + 1];
      assert trace == trace[..n] + [e];
      CleanupPassedLater(trace[..n], e, p, id);
    } else {
      PassedNow(trace, id);
      p := n;
    }
  }

  lemma PassedNow(trace: seq<Event>, id: RunId)
    requires Legal(trace) && trace != []
    requires HistoryOf(After(trace), id).everPassed && !HistoryOf(After(trace[..|trace| - 1]), id).everPassed
    ensures CleanupPassedAt(trace, |trace| - 1, id)
  {
    hide RunGuard, NextHistory, RunInvariant, Verified, TaskHolds, Apply;
    var n := |trace| - 1;
    var s, e := After(trace[..n]), trace[n];
    StepAt(trace, n);
    HistoryAfter(s, e, id);
    assert RunInvariant(s.store[id], HistoryOf(s, id));
    FirstPassIsEarned(HistoryOf(s, id), s.store[id], e.run);
  }

  lemma OnlyStoredRunsHaveHistory(s: State, id: RunId)
    requires Invariant(s) && Untouchable(HistoryOf(s, id))
    ensures id in s.store
  {
    hide RunInvariant, TaskHolds;
  }

  /** Once cleanup passed or a completion was prepared, no mutation follows. */
  lemma UntouchableForever(trace: seq<Event>, i: nat, j: nat, id: RunId)
    requires Legal(trace) && i <= j < |trace| && Untouchable(HistoryOf(At(trace, i), id))
    ensures forall m, forward :: trace[j] != Run(id, Mutated(m, forward))
  {
    hide Legal, After, Invariant, RecordEvolves, Untouchable, RunGuard;
    StepAt(trace, i);
    OnlyStoredRunsHaveHistory(At(trace, i), id);
    EvolvesAlong(trace, i, j + 1, id);
    EvolvesAlong(trace, i, j, id);
    StepAt(trace, j);
    HistoryAfter(At(trace, j), trace[j], id);
  }

  /** Cleanup that passed, automatically or by an operator, is never repeated. */
  lemma CleanupIsNeverRepeated(trace: seq<Event>, i: nat, j: nat, id: RunId)
    requires Legal(trace) && i <= j < |trace|
    requires id in At(trace, i).store && At(trace, i).store[id].cleanup.status.CleanupPassed?
    ensures forall m, forward :: trace[j] != Run(id, Mutated(m, forward))
  {
    hide Legal, After, TaskHolds, CommitmentsHold, DeliveryIsConsistent, OutcomeIsConsistent;
    LegalPrefix(trace, i);
    Invariants.LegalKeepsInvariant(trace[..i]);
    assert CleanupIsEarned(At(trace, i).store[id], HistoryOf(At(trace, i), id));
    UntouchableForever(trace, i, j, id);
  }

  /**
   * Every worker error ever sent reports cleanup that was not needed, and then the package was never
   * touched, before or after; or cleanup that passed, and then it was verified or confirmed after
   * the last mutation.
   */
  lemma WorkerErrorsAreHonest(trace: seq<Event>, n: nat, id: RunId, body: CompletionBody)
    requires Legal(trace) && n < |trace| && trace[n] == Run(id, Sent(body)) && body.outcome.WorkerErrorOutcome?
    ensures body.outcome.error.cleanupStatus.CleanupPassed? || body.outcome.error.cleanupStatus.CleanupSkipped?
    ensures body.outcome.error.cleanupStatus.CleanupSkipped? ==> forall m, forward :: Run(id, Mutated(m, forward)) !in trace
    ensures body.outcome.error.cleanupStatus.CleanupPassed? ==>
              exists p: nat ::
                && p < n && CleanupPassedAt(trace[..n], p, id)
                && forall k, m, forward :: p < k < |trace| ==> trace[k] != Run(id, Mutated(m, forward))
  {
    hide Legal, After, Apply, CleanupPassedAt, SaveAllowed, RunGuard, Invariant;
    SentBodyIsHonest(trace, n, id, body);
    if body.outcome.error.cleanupStatus.CleanupPassed? {
      var p := PassIsEarned(trace[..n], id);
      assert trace[..n][..p + 1] == trace[..p + 1];
      forall k, m, forward | p < k < |trace|
        ensures trace[k] != Run(id, Mutated(m, forward))
      {
        UntouchableForever(trace, p + 1, k, id);
      }
    } else {
      forall m, forward | Run(id, Mutated(m, forward)) in trace
        ensures false
      {
        var k :| 0 <= k < |trace| && trace[k] == Run(id, Mutated(m, forward));
        if k < n {
          MutationLeavesMark(trace[..n], k, id, m, forward);
        } else {
          UntouchableForever(trace, n, k, id);
        }
      }
    }
  }

  lemma SentBodyIsHonest(trace: seq<Event>, n: nat, id: RunId, body: CompletionBody)
    requires Legal(trace) && n < |trace| && trace[n] == Run(id, Sent(body))
    ensures Legal(trace[..n]) && id in At(trace, n).store && Untouchable(HistoryOf(At(trace, n), id))
    ensures Honest(body, HistoryOf(At(trace, n), id)) && DeliversCleanup(body, HistoryOf(At(trace, n), id))
    ensures !HistoryOf(At(trace, n), id).everPassed ==> HistoryOf(At(trace, n), id).delivery.body.Some?
  {
    hide Legal, After, Apply, TaskHolds, CommitmentsHold, CleanupIsEarned, OutcomeIsConsistent, Honest, DeliversCleanup;
    StepAt(trace, n);
    assert DeliveryIsConsistent(At(trace, n).store[id], HistoryOf(At(trace, n), id));
  }

  /**
   * An operator accepts the coordinator's result only for a held conflict, and only when the cleanup of
   * the run was verified or confirmed after its last mutation, or the package was never touched at all.
   */
  lemma AcceptanceNeedsCleanup(trace: seq<Event>, n: nat, id: RunId)
    requires Legal(trace) && n < |trace| && trace[n] == Run(id, OperatorActed(AcceptCoordinatorResult))
    ensures Run(id, Rebuffed(true)) in trace[..n]
    ensures || (forall m, forward :: Run(id, Mutated(m, forward)) !in trace)
            || exists p: nat ::
                 && p < n && CleanupPassedAt(trace[..n], p, id)
                 && forall k, m, forward :: p < k < |trace| ==> trace[k] != Run(id, Mutated(m, forward))
  {
    hide Legal, After, Apply, CleanupPassedAt, SaveAllowed, RunGuard, Invariant;
    AcceptedIsPrepared(trace, n, id);
    HistoryIsWitnessed(trace[..n], id);
    if HistoryOf(At(trace, n), id).everPassed {
      var p := PassIsEarned(trace[..n], id);
      assert trace[..n][..p + 1] == trace[..p + 1];
      forall k, m, forward | p < k < |trace|
        ensures trace[k] != Run(id, Mutated(m, forward))
      {
        UntouchableForever(trace, p + 1, k, id);
      }
    } else {
      forall m, forward | Run(id, Mutated(m, forward)) in trace
        ensures false
      {
        var k :| 0 <= k < |trace| && trace[k] == Run(id, Mutated(m, forward));
        if k < n {
          MutationLeavesMark(trace[..n], k, id, m, forward);
        } else {
          UntouchableForever(trace, n, k, id);
        }
      }
    }
  }

  lemma AcceptedIsPrepared(trace: seq<Event>, n: nat, id: RunId)
    requires Legal(trace) && n < |trace| && trace[n] == Run(id, OperatorActed(AcceptCoordinatorResult))
    ensures Legal(trace[..n]) && HistoryOf(At(trace, n), id).delivery.body.Some? && HistoryOf(At(trace, n), id).delivery.conflicted
    ensures !HistoryOf(At(trace, n), id).everPassed ==> HistoryOf(At(trace, n), id).execution.mutations == 0
  {
    hide Legal, After, Apply, TaskHolds, OutcomeIsConsistent;
    StepAt(trace, n);
    assert RunInvariant(At(trace, n).store[id], HistoryOf(At(trace, n), id));
  }

  // ---------------------------------------------------------------- no wedged delivery

  /**
   * A stored record never has both outcomes, unless some save was published though it was reported as
   * failed; its result belongs to its run; and while it is owed a completion it has its claim token.
   */
  lemma OutcomesAreExclusive(trace: seq<Event>, id: RunId)
    requires Legal(trace) && id in After(trace).store
    ensures var r := After(trace).store[id];
            && (r.result.Some? && r.worker.workerError.Some? ==> exists q :: Run(id, Saved(q, true)) in trace)
            && (r.result.Some? ==> r.status.Completed? && r.result.value.runId == id)
            && (r.RequiresWorkerAttention() ==> r.worker.claimToken.Some? && !r.worker.completionAcknowledged)
  {
    hide Legal, After, TaskHolds, CommitmentsHold, CleanupIsEarned;
    Invariants.LegalKeepsInvariant(trace);
    assert RunInvariant(After(trace).store[id], HistoryOf(After(trace), id));
    HistoryIsWitnessed(trace, id);
  }

  // ---------------------------------------------------------------- what a pass means

  /** The stored evidence is the capture; only the reference its preview resolved lives in memory alone. */
  predicate StoredAs(stored: Option<CaptureEvidence>, c: CaptureEvidence) {
    && stored.Some? && stored.value.details == c.details && stored.value.stabilization == c.stabilization
    && stored.value.logsCollected == c.logsCollected
    && stored.value.preview == if c.preview.Some? then Some(Preview(c.preview.value.version, None)) else None
  }

  /**
   * At event n the side was captured with its whole required run of identical all-running samples, as its
   * preview promised, and it is the stored evidence.
   */
  ghost predicate EarnedAt(trace: seq<Event>, n: nat, id: RunId, side: Side, stored: Option<CaptureEvidence>) {
    && n < |trace| && trace[n].Run? && trace[n].id == id && trace[n].run.Captured? && trace[n].run.side == side
    && var c := trace[n].run.capture;
    && StoredAs(stored, c)
    && c.stabilization.passed && Stabilization.StableWindow(c.stabilization, REQUIRED_SAMPLES)
    && c.preview.Some? && c.details.Some? && Comparisons.IsPreviewedBuild(c.preview.value, c.details.value)
  }

  /** First the baseline was captured, then the requested candidate was applied, successfully, then the candidate was captured. */
  ghost predicate TestedInOrder(trace: seq<Event>, id: RunId, r: Record) {
    exists b, u, s, c ::
      && EarnedAt(trace, b, id, Baseline, r.evidence.baseline) && EarnedAt(trace, c, id, Candidate, r.evidence.candidate)
      && b < u < s < c
      && trace[u] == Run(id, Mutated(UpdatePackage(r.request.candidateRef), true)) && trace[s] == Run(id, UpdateSucceeded)
  }

  /** The candidate is captured only after an update succeeded. */
  lemma UpdatePrecedes(trace: seq<Event>, c: nat, id: RunId, after: CaptureEvidence) returns (s: nat)
    requires Legal(trace) && c < |trace| && trace[c] == Run(id, Captured(Candidate, after))
    ensures s < c && trace[s] == Run(id, UpdateSucceeded)
  {
    hide Legal, After, Apply, Invariant;
    StepAt(trace, c);
    HistoryIsWitnessed(trace[..c], id);
    s :| 0 <= s < |trace[..c]| && trace[..c][s] == Run(id, UpdateSucceeded);
  }

  /** An update succeeds only after it was issued, for what the request names. */
  lemma UpdateIsIssued(trace: seq<Event>, s: nat, id: RunId) returns (u: nat)
    requires Legal(trace) && s < |trace| && trace[s] == Run(id, UpdateSucceeded)
    ensures u < s && id in At(trace, u).store
    ensures trace[u] == Run(id, Mutated(UpdatePackage(At(trace, u).store[id].request.candidateRef), true))
  {
    hide Legal, After, Apply, Invariant;
    StepAt(trace, s);
    HistoryIsWitnessed(trace[..s], id);
    var candidate, forward :| Run(id, Mutated(UpdatePackage(candidate), forward)) in trace[..s];
    u :| 0 <= u < |trace[..s]| && trace[..s][u] == Run(id, Mutated(UpdatePackage(candidate), forward));
    StepAt(trace, u);
  }

  /** Between the captures of the two sides lies the successful update to the requested candidate, wherever a legal trace has both. */
  lemma UpdateLiesBetween(trace: seq<Event>, b: nat, c: nat, id: RunId, before: CaptureEvidence, after: CaptureEvidence) returns (u: nat, s: nat)
    requires Legal(trace) && b < |trace| && c < |trace|
    requires trace[b] == Run(id, Captured(Baseline, before)) && trace[c] == Run(id, Captured(Candidate, after))
    ensures b < u < s < c && trace[s] == Run(id, UpdateSucceeded) && id in At(trace, u).store
    ensures trace[u] == Run(id, Mutated(UpdatePackage(At(trace, u).store[id].request.candidateRef), true))
  {
    hide Legal, After, Apply, Invariant;
    s := UpdatePrecedes(trace, c, id, after);
    u := UpdateIsIssued(trace, s, id);
    StepAt(trace, b);
    if u < b {
      UpdatedForever(trace, u, b, id, At(trace, u).store[id].request.candidateRef, true);
    }
  }

  /**
   * A stored verdict of Passed means: both sides showed their whole required run of identical all-running
   * samples and were what their previews promised, the baseline before the one successful update to the
   * candidate and the candidate after it; no signature was ever bypassed; and cleanup was verified or
   * confirmed with nothing left over.
   */
  lemma PassedIsSound(trace: seq<Event>, id: RunId)
    requires Legal(trace) && id in After(trace).store
    requires After(trace).store[id].result.Some? && After(trace).store[id].result.value.verdict.Passed?
    ensures TestedInOrder(trace, id, After(trace).store[id])
    ensures After(trace).store[id].result.value.cleanup == CleanupResult(CleanupPassed, [])
    ensures forall baseline, forward :: Run(id, Mutated(InstallBypassingSignature(baseline), forward)) !in trace
    ensures exists p: nat ::
              && CleanupPassedAt(trace, p, id)
              && forall k, m, forward :: p < k < |trace| ==> trace[k] != Run(id, Mutated(m, forward))
  {
    hide Legal, After, Apply, CleanupPassedAt, RunGuard, Comparisons.AppliedAsPreviewed, Comparisons.IsPreviewedBuild, Stabilization.StableWindow, Invariant, TestedInOrder;
    PassedIsJustifiedIn(trace, id);
    PassIsTested(trace, id);
    forall baseline, forward | Run(id, Mutated(InstallBypassingSignature(baseline), forward)) in trace
      ensures false
    {
      var k :| 0 <= k < |trace| && trace[k] == Run(id, Mutated(InstallBypassingSignature(baseline), forward));
      MutationLeavesMark(trace, k, id, InstallBypassingSignature(baseline), forward);
    }
    var p := PassIsEarned(trace, id);
    forall k, m, forward | p < k < |trace|
      ensures trace[k] != Run(id, Mutated(m, forward))
    {
      UntouchableForever(trace, p + 1, k, id);
    }
  }

  lemma PassIsTested(trace: seq<Event>, id: RunId)
    requires Legal(trace) && id in After(trace).store && After(trace).store[id].result.Some?
    requires PassedIsJustified(After(trace).store[id].evidence, After(trace).store[id].result.value, HistoryOf(After(trace), id))
    ensures TestedInOrder(trace, id, After(trace).store[id])
  {
    hide Legal, After, Apply, Invariant, Comparisons.AppliedAsPreviewed, Comparisons.IsPreviewedBuild, Stabilization.StableWindow;
    var r, o := After(trace).store[id], HistoryOf(After(trace), id).observed;
    HistoryIsWitnessed(trace, id);
    var b :| 0 <= b < |trace| && trace[b] == Run(id, Captured(Baseline, o.baseline.value));
    var c :| 0 <= c < |trace| && trace[c] == Run(id, Captured(Candidate, o.candidate.value));
    var u, s := UpdateLiesBetween(trace, b, c, id, o.baseline.value, o.candidate.value);
    EvolvesAlong(trace, u, |trace|, id);
    assert trace[..|trace|] == trace;
    Comparisons.AppliedIsPreviewedBuild(o.baseline.value);
    Comparisons.AppliedIsPreviewedBuild(o.candidate.value);
    assert EarnedAt(trace, b, id, Baseline, r.evidence.baseline) && EarnedAt(trace, c, id, Candidate, r.evidence.candidate);
  }

  lemma PassedIsJustifiedIn(trace: seq<Event>, id: RunId)
    requires Legal(trace) && id in After(trace).store
    requires After(trace).store[id].result.Some? && After(trace).store[id].result.value.verdict.Passed?
    ensures PassedIsJustified(After(trace).store[id].evidence, After(trace).store[id].result.value, HistoryOf(After(trace), id))
  {
    hide Legal, After, TaskHolds, CommitmentsHold, CleanupIsEarned, DeliveryIsConsistent, PassedIsJustified;
    Invariants.LegalKeepsInvariant(trace);
    assert OutcomeIsConsistent(After(trace).store[id], HistoryOf(After(trace), id));
  }

  // ---------------------------------------------------------------- safe boundaries

  /** Since event c the stored phase of the run has not changed, and event c read a Continue in it. */
  ghost predicate ClearedAt(trace: seq<Event>, c: nat, id: RunId, phase: ExecutionPhase) {
    && c < |trace| && trace[c] == Run(id, Checked(true))
    && forall k :: c <= k <= |trace| ==> id in At(trace, k).store && At(trace, k).store[id].phase == phase
  }

  lemma ClearanceStep(h: History, stored: Record, e: RunStep, phase: ExecutionPhase)
    requires NextHistory(h, stored, e).control.cleared == Some(phase)
    ensures NextRecord(stored, e).phase == stored.phase
    ensures if e == Checked(true) then stored.phase == phase else h.control.cleared == Some(phase)
  {
  }

  lemma ClearedLonger(trace: seq<Event>, e: Event, c: nat, id: RunId, phase: ExecutionPhase)
    requires ClearedAt(trace, c, id, phase)
    requires id in After(trace + [e]).store && After(trace + [e]).store[id].phase == phase
    ensures ClearedAt(trace + [e], c, id, phase)
  {
    hide After;
    forall k | c <= k <= |trace| + 1
      ensures id in At(trace + [e], k).store && At(trace + [e], k).store[id].phase == phase
    {
      if k <= |trace| {
        assert (trace + [e])[..k] == trace[..k];
        assert id in At(trace, k).store && At(trace, k).store[id].phase == phase;
      } else {
        assert (trace + [e])[..k] == trace + [e];
      }
    }
  }

  lemma ClearedNow(trace: seq<Event>, id: RunId, phase: ExecutionPhase)
    requires trace != [] && trace[|trace| - 1] == Run(id, Checked(true))
    requires id in At(trace, |trace| - 1).store && At(trace, |trace| - 1).store[id].phase == phase
    requires id in After(trace).store && After(trace).store[id].phase == phase
    ensures ClearedAt(trace, |trace| - 1, id, phase)
  {
    hide After;
    assert trace[..|trace|] == trace;
  }

  lemma {:induction false} ClearanceIsRead(trace: seq<Event>, id: RunId, phase: ExecutionPhase) returns (c: nat)
    requires Legal(trace) && HistoryOf(After(trace), id).control.cleared == Some(phase)
    ensures ClearedAt(trace, c, id, phase)
    ensures id in After(trace).store && After(trace).store[id].phase == phase
  {
    hide RunGuard, NextHistory, NextRecord, ClearedAt, NextMode, NextDrain, RunInvariant, TaskHolds, DrivingGuard;
    assert trace != [];
    var n := |trace| - 1;
    var s, e := After(trace[..n]), trace[n];
    StepAt(trace, n);
    HistoryAfter(s, e, id);
    assert trace == trace[..n] + [e];
    if e.Run? && e.id == id {
      ClearanceStep(HistoryOf(s, id), s.store[id], e.run, phase);
    }
    if e == Run(id, Checked(true)) {
      c := n;
      ClearedNow(trace, id, phase);
    } else {
      c := ClearanceIsRead(trace[..n], id, phase);
      ClearedLonger(trace[..n], e, c, id, phase);
    }
  }

  /** Every forward mutation follows a Continue that was read after its own phase was stored, and the phase is still stored. */
  lemma ForwardMutationIsCleared(trace: seq<Event>, n: nat, id: RunId, m: Mutation) returns (c: nat)
    requires Legal(trace) && n < |trace| && trace[n] == Run(id, Mutated(m, true))
    ensures c < n && ClearedAt(trace[..n], c, id, MutationPhase(m))
  {
    hide Legal, After, Apply, ClearedAt, Invariant;
    StepAt(trace, n);
    c := ClearanceIsRead(trace[..n], id, MutationPhase(m));
    assert c < n by {
      ClearedBefore(trace[..n], c, id, MutationPhase(m));
    }
  }

  lemma ClearedBefore(trace: seq<Event>, c: nat, id: RunId, phase: ExecutionPhase)
    requires ClearedAt(trace, c, id, phase)
    ensures c < |trace|
  {
  }

  /** Once the heartbeat raised a signal, no later phase mutates the package for the run. */
  lemma NoMutationPastSignal(trace: seq<Event>, i: nat, j: nat, id: RunId, lost: bool, m: Mutation)
    requires Legal(trace) && i < j < |trace| && trace[i] == Run(id, Signalled(lost)) && trace[j] == Run(id, Mutated(m, true))
    ensures forall k :: i <= k <= j ==> id in At(trace, k).store && At(trace, k).store[id].phase == MutationPhase(m)
  {
    hide Legal, After, Apply, Invariant, RecordEvolves, SaveAllowed;
    var c := ForwardMutationIsCleared(trace, j, id, m);
    assert c < i by {
      SignalIsSeen(trace, i, j, c, id, lost, m);
    }
    forall k | i <= k <= j
      ensures id in At(trace, k).store && At(trace, k).store[id].phase == MutationPhase(m)
    {
      assert trace[..j][..k] == trace[..k];
      assert id in At(trace[..j], k).store && At(trace[..j], k).store[id].phase == MutationPhase(m);
    }
  }

  lemma SignalRaises(trace: seq<Event>, i: nat, c: nat, id: RunId, lost: bool)
    requires Legal(trace) && i < c < |trace| && trace[i] == Run(id, Signalled(lost))
    ensures HistoryOf(At(trace, c), id).control.signals.flagged || HistoryOf(At(trace, c), id).control.recovered
    ensures id in At(trace, c).store
  {
    hide Legal, After, Invariant, RecordEvolves, SaveAllowed, MutationAllowed;
    StepAt(trace, i);
    EvolvesAlong(trace, i + 1, c, id);
  }

  lemma SignalIsSeen(trace: seq<Event>, i: nat, j: nat, c: nat, id: RunId, lost: bool, m: Mutation)
    requires Legal(trace) && i < j < |trace| && trace[i] == Run(id, Signalled(lost)) && trace[j] == Run(id, Mutated(m, true))
    requires c < j && trace[c] == Run(id, Checked(true))
    ensures c < i
  {
    hide Legal, After, Apply, Invariant, RecordEvolves, SaveAllowed;
    if i < c {
      SignalRaises(trace, i, c, id, lost);
      StepAt(trace, c);
      EvolvesAlong(trace, c, j, id);
      StepAt(trace, j);
      assert false;
    }
  }

  // ---------------------------------------------------------------- reconciliation and release

  /** After a forward mutation, either it is still the last one or a cleanup mutation followed it. */
  lemma {:induction false} ForwardOrReconciled(trace: seq<Event>, n: nat, id: RunId, m: Mutation)
    requires Legal(trace) && n < |trace| && trace[n] == Run(id, Mutated(m, true))
    ensures HistoryOf(After(trace), id).execution.lastForward || exists q, c :: n < q < |trace| && trace[q] == Run(id, Mutated(c, false))
  {
    hide RunGuard, NextHistory, Apply, Invariant;
    var last := |trace| - 1;
    var s, e := After(trace[..last]), trace[last];
    StepAt(trace, last);
    HistoryAfter(s, e, id);
    assert trace[..last + 1] == trace;
    if n < last {
      ForwardOrReconciled(trace[..last], n, id, m);
      StepAt(trace, n);
      EvolvesAlong(trace, n, last, id);
      if e.Run? && e.id == id {
        LastForwardStep(HistoryOf(s, id), s.store[id], e.run);
      }
    } else {
      LastForwardStep(HistoryOf(s, id), s.store[id], e.run);
    }
  }

  lemma LastForwardStep(h: History, stored: Record, e: RunStep)
    ensures NextHistory(h, stored, e).execution.lastForward == if e.Mutated? then e.forward else h.execution.lastForward
  {
  }

  /** Once a result is stored, every forward mutation of the run was followed by a cleanup mutation. */
  lemma ResultFollowsReconciliation(trace: seq<Event>, n: nat, id: RunId, m: Mutation)
    requires Legal(trace) && n < |trace| && trace[n] == Run(id, Mutated(m, true))
    requires id in After(trace).store && After(trace).store[id].result.Some?
    ensures exists q, c :: n < q < |trace| && trace[q] == Run(id, Mutated(c, false))
  {
    hide Legal, After, TaskHolds, CommitmentsHold, CleanupIsEarned, DeliveryIsConsistent;
    Invariants.LegalKeepsInvariant(trace);
    assert OutcomeIsConsistent(After(trace).store[id], HistoryOf(After(trace), id));
    ForwardOrReconciled(trace, n, id, m);
  }

  /** Cleanup of the run passed, at the end of the trace at the latest, and no mutation followed. */
  ghost predicate EndsClean(trace: seq<Event>, id: RunId) {
    exists p: nat ::
      && CleanupPassedAt(trace, p, id)
      && forall k, m, forward :: p < k < |trace| ==> trace[k] != Run(id, Mutated(m, forward))
  }

  ghost predicate NeverMutated(trace: seq<Event>, id: RunId) {
    forall m, forward :: Run(id, Mutated(m, forward)) !in trace
  }

  /** Every forward mutation of the run was followed by a cleanup mutation. */
  ghost predicate AlwaysReconciled(trace: seq<Event>, id: RunId) {
    forall k, m :: 0 <= k < |trace| && trace[k] == Run(id, Mutated(m, true)) ==> CleanedUpAfter(trace, k, id)
  }

  ghost predicate CleanedUpAfter(trace: seq<Event>, k: nat, id: RunId) {
    exists q, c :: k < q < |trace| && trace[q] == Run(id, Mutated(c, false))
  }

  /**
   * A save lets go of an unresolved claim only when it was acknowledged, or reported as lost since recovery
   * last took the run up. Then the target is settled: it was never touched, or cleanup passed after the last
   * mutation; only a run that recovery never took up may be let go with a cleanup that was made and failed.
   */
  lemma ReleaseIsJustified(trace: seq<Event>, n: nat, id: RunId, r: Record, torn: bool)
    requires Legal(trace) && n < |trace| && trace[n] == Run(id, Saved(r, torn)) && id in At(trace, n).store
    requires At(trace, n).store[id].RequiresWorkerAttention() && !r.RequiresWorkerAttention() && !r.worker.completionAcknowledged
    ensures LostSinceRecovery(trace[..n], id)
    ensures || NeverMutated(trace[..n], id)
            || EndsClean(trace[..n + 1], id)
            || (Run(id, RecoveryStarted) !in trace[..n] && r.CleanupFailed() && AlwaysReconciled(trace[..n], id))
    ensures r.worker.cleanupRequired ==> !r.cleanup.status.CleanupPending?
  {
    hide Legal, After, Apply, Invariant, SaveKeepsCommitments, SaveEarnsCleanup, SaveKeepsOutcome, LostSinceRecovery;
    hide NeverMutated, EndsClean, AlwaysReconciled;
    StepAt(trace, n);
    HistoryIsWitnessed(trace[..n], id);
    if Run(id, RecoveryStarted) in trace[..n] {
      var k :| 0 <= k < n && trace[..n][k] == Run(id, RecoveryStarted);
      RecoveredForever(trace, k, n, id);
    }
    if !r.worker.cleanupRequired {
      UnowedIsUntouched(trace, n, id, r, torn);
    } else if r.cleanup.status.CleanupPassed? {
      StoredPassEndsClean(trace, n, id, r, torn);
    } else {
      AllReconciled(trace[..n], id);
    }
  }

  lemma UnowedIsUntouched(trace: seq<Event>, n: nat, id: RunId, r: Record, torn: bool)
    requires Legal(trace) && n < |trace| && trace[n] == Run(id, Saved(r, torn)) && !r.worker.cleanupRequired
    ensures NeverMutated(trace[..n], id)
  {
    hide Legal, After, Apply, TaskHolds, CleanupIsEarned, DeliveryIsConsistent, OutcomeIsConsistent;
    hide SaveEarnsCleanup, SaveKeepsDelivery, SaveKeepsOutcome;
    StepAt(trace, n);
    assert CommitmentsHold(At(trace, n).store[id], HistoryOf(At(trace, n), id));
    forall m, forward | Run(id, Mutated(m, forward)) in trace[..n]
      ensures false
    {
      var k :| 0 <= k < n && trace[..n][k] == Run(id, Mutated(m, forward));
      MutationLeavesMark(trace[..n], k, id, m, forward);
    }
  }

  lemma StoredPassEndsClean(trace: seq<Event>, n: nat, id: RunId, r: Record, torn: bool)
    requires Legal(trace) && n < |trace| && trace[n] == Run(id, Saved(r, torn)) && r.cleanup.status.CleanupPassed?
    ensures EndsClean(trace[..n + 1], id)
  {
    hide Legal, After, Invariant, CleanupPassedAt, SaveAllowed;
    StepAt(trace, n);
    var whole := trace[..n + 1];
    var p := PassIsEarned(whole, id);
    assert whole[..p + 1] == trace[..p + 1];
    forall k, m, forward | p < k < |whole|
      ensures whole[k] != Run(id, Mutated(m, forward))
    {
      UntouchableForever(trace, p + 1, k, id);
    }
  }

  lemma AllReconciled(trace: seq<Event>, id: RunId)
    requires Legal(trace) && !HistoryOf(After(trace), id).execution.lastForward
    ensures AlwaysReconciled(trace, id)
  {
    hide Legal, After;
    forall k, m | 0 <= k < |trace| && trace[k] == Run(id, Mutated(m, true))
      ensures CleanedUpAfter(trace, k, id)
    {
      ForwardOrReconciled(trace, k, id, m);
    }
  }

  // ---------------------------------------------------------------- draining

  /** A drained worker is blocked at its gate, or has stopped, and nothing needs attention. */
  lemma DrainedIsSafe(trace: seq<Event>)
    requires Legal(trace) && After(trace).drain.Drained?
    ensures Quiet(After(trace)) && (After(trace).mode.AtGate? || After(trace).mode.Halted?)
  {
    hide Legal, After, RunsHold, AtMostOneUnresolved;
    Invariants.LegalKeepsInvariant(trace);
  }

  /** The drain was neither resumed nor ended by a restart since event i. */
  ghost predicate StillDraining(trace: seq<Event>, i: nat, j: nat) {
    forall k :: i < k < j && k < |trace| ==> trace[k] != Task(DrainResumed) && trace[k] != Task(Crashed)
  }

  lemma DrainStep(s: State, e: Event)
    requires !s.drain.Accepting? && Guard(s, e) && e != Task(DrainResumed) && e != Task(Crashed)
    ensures !Apply(s, e).drain.Accepting?
    ensures Apply(s, e).mode.Polling? ==> s.mode.Polling?
  {
    hide RunGuard, NextRecord, NextHistory;
  }

  lemma {:induction false} DrainLasts(trace: seq<Event>, i: nat, j: nat)
    requires Legal(trace) && i < j <= |trace| && trace[i] == Task(DrainRequested) && StillDraining(trace, i, j)
    ensures !At(trace, j).drain.Accepting?
    decreases j
  {
    hide Legal, After, Invariant;
    StepAt(trace, j - 1);
    if i < j - 1 {
      DrainLasts(trace, i, j - 1);
      DrainStep(At(trace, j - 1), trace[j - 1]);
    }
  }

  /** After the claim in flight no other is sent: the gate stays closed. */
  lemma {:induction false} GateStaysClosed(trace: seq<Event>, i: nat, a: nat, j: nat)
    requires Legal(trace) && i < a < j <= |trace| && trace[i] == Task(DrainRequested)
    requires StillDraining(trace, i, j) && trace[a] == Task(ClaimSent)
    ensures !At(trace, j).mode.Polling?
    decreases j
  {
    hide Legal, After, Invariant;
    StepAt(trace, j - 1);
    DrainLasts(trace, i, j - 1);
    DrainStep(At(trace, j - 1), trace[j - 1]);
    if a < j - 1 {
      GateStaysClosed(trace, i, a, j - 1);
    }
  }

  /** Between a drain request and the next resume or restart, at most one claim is sent. */
  lemma AtMostOneClaimWhileDraining(trace: seq<Event>, i: nat, a: nat, b: nat)
    requires Legal(trace) && i < a < b < |trace| && trace[i] == Task(DrainRequested)
    requires StillDraining(trace, i, b) && trace[a] == Task(ClaimSent)
    ensures trace[b] != Task(ClaimSent)
  {
    hide Legal, After, Invariant, Apply;
    GateStaysClosed(trace, i, a, b);
    StepAt(trace, b);
  }

  // ---------------------------------------------------------------- no job is dropped

  /** The worker has neither persisted a job nor died since event i. */
  ghost predicate NothingPersisted(trace: seq<Event>, i: nat, j: nat) {
    forall k :: i < k < j && k < |trace| ==> trace[k] != Task(Crashed) && !(trace[k].Run? && trace[k].run.Created?)
  }

  lemma HoldingStep(s: State, e: Event)
    requires (s.mode.Holding? || s.mode.Halted?) && TaskHolds(s) && Guard(s, e)
    requires e != Task(Crashed) && !(e.Run? && e.run.Created?)
    ensures var t := Apply(s, e); t.mode.Holding? || t.mode.Halted?
  {
    hide RunGuard, NextRecord, NextHistory;
  }

  lemma {:induction false} JobIsHeld(trace: seq<Event>, i: nat, j: nat)
    requires Legal(trace) && i < j <= |trace| && trace[i] == Task(JobOffered) && NothingPersisted(trace, i, j)
    ensures At(trace, j).mode.Holding? || At(trace, j).mode.Halted?
    decreases j
  {
    hide Legal, After, RunsHold, TaskHolds;
    StepAt(trace, j - 1);
    if i < j - 1 {
      JobIsHeld(trace, i, j - 1);
      HoldingStep(At(trace, j - 1), trace[j - 1]);
    }
  }

  /** A claimed job is never dropped silently: before another claim is sent it is persisted, or the process died. */
  lemma OfferedJobIsPersisted(trace: seq<Event>, i: nat, j: nat)
    requires Legal(trace) && i < j < |trace| && trace[i] == Task(JobOffered) && trace[j] == Task(ClaimSent)
    ensures !NothingPersisted(trace, i, j)
  {
    hide Legal, After, Invariant, Apply;
    StepAt(trace, j);
    if NothingPersisted(trace, i, j) {
      JobIsHeld(trace, i, j);
    }
  }

  // ---------------------------------------------------------------- what operators can resolve

  /** Some single action, or a confirmation of cleanup followed by one, lets go of the hold. */
  ghost predicate Releasable(r: Record) {
    || (exists action :: Releases(r, action))
    || (OperatorStep(r, ConfirmCleanup).Ok? && exists action :: Releases(OperatorStep(r, ConfirmCleanup).value, action))
  }

  predicate Releases(r: Record, action: OperatorAction) {
    OperatorStep(r, action).Ok? && OperatorStep(r, action).value.worker.manualRecovery.None?
  }

  predicate ConflictIsClean(r: Record) {
    && r.worker.manualRecovery == Some(CompletionConflictHold)
    && (r.cleanup.status.CleanupPassed? || r.cleanup.status.CleanupSkipped?)
  }

  /**
   * A hold can be resolved exactly when cleanup was owed, or when a completion conflicts whose cleanup
   * passed or was skipped. A cleanup hold on a run that never owed cleanup can not be resolved at all.
   */
  lemma HeldIsReleasableExactlyWhen(trace: seq<Event>, id: RunId)
    requires Legal(trace) && id in After(trace).store && After(trace).store[id].worker.manualRecovery.Some?
    ensures var r := After(trace).store[id];
            Releasable(r) <==>
            || r.worker.cleanupRequired
            || ConflictIsClean(r)
  {
    hide Legal, After, TaskHolds, CommitmentsHold, CleanupIsEarned, OutcomeIsConsistent;
    Invariants.LegalKeepsInvariant(trace);
    var r := After(trace).store[id];
    assert DeliveryIsConsistent(r, HistoryOf(After(trace), id));
    ReleaseConditions(r);
  }

  lemma ReleaseConditions(r: Record)
    requires r.worker.manualRecovery == Some(CompletionConflictHold) ==> r.worker.pendingCompletionBody.Some?
    requires r.worker.manualRecovery.Some?
    ensures Releasable(r) <==>
            || r.worker.cleanupRequired
            || ConflictIsClean(r)
  {
    var confirmed := ManualCleanup(r);
    if r.worker.cleanupRequired {
      if r.worker.manualRecovery == Some(CleanupHold) {
        assert Releases(r, ContinueAfterCleanup);
      } else {
        assert r.worker.manualRecovery.value.CompletionConflictHold?;
        assert Releases(confirmed, RetryCompletion);
      }
    } else if ConflictIsClean(r) {
      assert Releases(r, RetryCompletion);
    }
  }
}
