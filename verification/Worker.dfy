/** The polling worker: claim, execute, settle, deliver, and recover after a crash (src/worker/mod.rs). */
module Worker {
  import opened Wrappers
  import opened Model
  import opened Protocol
  import opened Interference
  import opened Adapter
  import opened Calls
  import opened Runtime
  import opened Reconciliation
  import opened Live
  import opened Settlement
  import opened RunSpec
  import opened Controller
  import CleanupScript
  import RunScript

  /** Why the worker stopped working on a claim; it must not claim again before recovery. */
  datatype WorkerFault =
    | CannotLoad
    | CannotPersist
    | CannotPrepare(error: PrepareError)
    | OperatorRequired
    | AuthenticationRejected

  type Outcome = Attempt<Result<(), WorkerFault>>

  /** A fault is what happened to the run. */
  predicate Happened(fault: WorkerFault, h: History, stored: Record) {
    match fault
    case CannotLoad => h.failed
    case CannotPersist => h.failed
    case CannotPrepare(error) => error.BothOutcomes? && h.torn
    case OperatorRequired => stored.worker.manualRecovery.Some?
    case AuthenticationRejected => h.delivery.stopped
  }

  /** The claim is let go without an acknowledgement. */
  predicate Released(w: WorkerState) {
    w.claimToken.None? && !w.completionAcknowledged
  }

  /** A claim that was seen lost is released with its target settled, and any other is delivered and acknowledged. */
  predicate ResolvedAs(lost: bool, h: History, r: Record) {
    if lost then Released(r.worker) && MayRelease(h, r) else r.worker.completionAcknowledged
  }

  /** The worker task may go back to its gate. */
  predicate Free(s: State) {
    Quiet(s) && !s.mode.Holding? && !s.mode.Waiting? && !s.mode.Halted?
  }

  /** One inventory was read, and it shows the target as a core package or not. */
  ghost predicate InspectedSince(before: seq<Call>, after: seq<Call>, target: DnpName, core: bool) {
    exists packages :: after == before + [Reading(None, Inventory(packages), 0)] && core == InstalledAsCore(packages, target)
  }

  /** The inventory was read and shows no core package in the way, then one whole cleanup was made, and its outcome saved. */
  ghost predicate RecoveredSince(before: seq<Call>, after: seq<Call>, job: CleanupScript.Job, initial: seq<PackageSummary>, r: Record) {
    exists inspected, cleaned ::
      && InspectedSince(before, inspected, job.target, false)
      && inspected <= cleaned && ReconciledByScript(cleaned, |inspected|, job, initial, r.cleanup, r.evidence.finalPackages)
      && after == cleaned + [Saving(r, true)]
  }

  /** The target was settled: cleanup was not owed or had passed and the record was saved, or one whole cleanup was made and saved. */
  ghost predicate SettledSince(before: seq<Call>, after: seq<Call>, job: CleanupScript.Job, initial: seq<PackageSummary>, r: Record) {
    || ((r.worker.cleanupRequired ==> r.cleanup.status.CleanupPassed?) && after == before + [Saving(r, true)])
    || RecoveredSince(before, after, job, initial, r)
  }

  /** It was asked whether the claim is lost, and this was the answer. */
  ghost predicate LossReadSince(before: seq<Call>, after: seq<Call>, lost: bool) {
    before <= after && exists k :: |before| <= k < |after| && after[k] == ReadingLoss(lost)
  }

  /** Right before the release was stored, the target was settled; only the loss may have been read in between. */
  ghost predicate LetGoSince(before: seq<Call>, after: seq<Call>, timeout: nat, released: Record) {
    exists start: seq<Call>, settled: seq<Call>, asked: seq<Call>, r: Record ::
      && before <= start && after == settled + asked + [Saving(released, true)] && (asked == [] || asked == [ReadingLoss(true)])
      && SettledSince(start, settled, CleanupScript.Job(r.request.dnpName, r.worker.targetRecovery, timeout), r.evidence.initialPackages, r)
      && released == r.(worker := r.worker.(claimToken := None, pendingCompletionBody := None, manualRecovery := None))
  }

  class PackageHarnessWorker {
    const node: Node
    const config: RunScript.RunnerConfig

    constructor (node: Node, config: RunScript.RunnerConfig)
      ensures this.node == node && this.config == config
    {
      this.node, this.config := node, config;
    }

    ghost function Past(record: RunRecord): History
      reads this, node, node.Objects(), record
    {
      node.Past(record.request.runId)
    }

    ghost function Stored(record: RunRecord): Record
      requires record.request.runId in node.now.store
      reads this, node, node.Objects(), record
    {
      node.now.store[record.request.runId]
    }

    ghost predicate Drives(record: RunRecord)
      reads this, node, node.Objects(), record
    {
      node.Valid() && node.Drives(record.request.runId) && record.request.runId in node.now.store
    }

    /** The worker drives this run, owns its claim and has prepared nothing for delivery. */
    ghost predicate Owns(record: RunRecord)
      reads this, node, node.Objects(), record
    {
      Drives(record) && Owned(Past(record), Stored(record), record.Snapshot())
    }

    /** How every way of settling a claim ends: nothing needs attention, or the worker stays on the run. */
    ghost predicate Ends(id: RunId, r: Result<(), WorkerFault>)
      reads this, node, node.Objects()
    {
      && node.Valid() && node.now.mode == Driving(id) && id in node.now.store
      && (r.Ok? ==> Quiet(node.now))
      && (r.Err? ==> Happened(r.error, node.Past(id), node.now.store[id]))
    }

    // -------------------------------------------------------------- steps on an owned record

    method Save(record: RunRecord) returns (o: Attempt<bool>)
      requires Owns(record)
      modifies node.Objects()
      ensures node.Valid()
      ensures o.Done? ==> node.calls == old(node.calls) + [Saving(record.Snapshot(), o.value)]
      ensures o.Done? ==> Owns(record) && Later(old(Past(record)), Past(record))
      ensures o.Done? ==> Past(record).execution == old(Past(record)).execution
      ensures o == Done(false) ==> Past(record).failed
      ensures o == Done(true) ==> Stored(record) == record.Snapshot()
    {
      hide Invariant, Legal, After, Owned, SaveAllowed, SaveResult;
      OwnedKeepsToken(Past(record), Stored(record), record.Snapshot());
      o := node.Save(record);
      if o.Done? {
        SaveKeepsOwned(old(node.now), node.now, record.request.runId, record.Snapshot(), o.value);
      }
    }

    method ReadClaimLost(record: RunRecord) returns (o: Attempt<bool>)
      requires Owns(record)
      modifies node.Objects()
      ensures node.Valid()
      ensures o.Done? ==> Owns(record) && Stored(record) == old(Stored(record)) && OnlyRead(old(Past(record)), Past(record))
      ensures o == Done(true) ==> Past(record).control.signals.lost
      ensures o.Done? ==> node.calls == old(node.calls) + [ReadingLoss(o.value)]
    {
      hide Invariant, Legal, After, Owned, Untouched;
      OwnedKeepsToken(Past(record), Stored(record), record.Snapshot());
      o := node.ReadClaimLost(record.request.runId);
      if o.Done? {
        SignalKeepsOwned(old(node.now), node.now, record.request.runId, record.Snapshot());
      }
    }

    method ListPackages(record: RunRecord) returns (o: Attempt<Result<seq<PackageSummary>, PackageError>>)
      requires Owns(record) && !record.cleanup.status.CleanupPassed?
      requires record.worker.workerError == Stored(record).worker.workerError
      modifies node.Objects()
      ensures node.Valid()
      ensures o.Done? ==> node.calls == old(node.calls) + [Reading(None, if o.value.Ok? then Inventory(o.value.value) else ListFailed(o.value.error), 0)]
      ensures o.Done? ==> Past(record).observed.listings == old(Past(record)).observed.listings + (if o.value.Ok? then [o.value.value] else [])
      ensures o.Done? ==> Owns(record) && Stored(record) == old(Stored(record)) && OnlyRead(old(Past(record)), Past(record))
    {
      hide Invariant, Legal, After, Owned, Stepped, CleanupIsEarned;
      OwnedKeepsToken(Past(record), Stored(record), record.Snapshot());
      CleanupIsEarnedIn(node.now, record.request.runId);
      o := node.ListPackages(record.request.runId);
      if o.Done? && o.value.Ok? {
        ListingKeepsOwned(old(node.now), node.now, record.request.runId, record.Snapshot(), o.value.value);
      }
    }

    /** Decides the run by a worker error. */
    method SetWorkerError(record: RunRecord, code: WorkerErrorCode) returns (o: Attempt<bool>)
      requires Owns(record) && Unfinished(Past(record), record.Snapshot()) && IsTruthful(code, Past(record), record.request.dnpName)
      modifies node.Objects(), record`status, record`phase, record`phaseHistory, record`cleanup, record`worker
      ensures node.Valid()
      ensures o.Done? ==> Owns(record) && Later(old(Past(record)), Past(record))
      ensures o == Done(false) ==> Past(record).failed
      ensures o == Done(true) ==> Stored(record) == record.Snapshot()
      ensures o.Done? ==> record.Snapshot() == FailedWith(old(record.Snapshot()), code)
      ensures o.Done? ==> old(node.calls) <= node.calls
    {
      hide Node.Valid, Node.Drives, Owned, PersistedEvidence, Unfinished, IsTruthful, FailedWith;
      WorkerErrorKeepsOwned(Past(record), Stored(record), record.Snapshot(), code);
      RecordWorkerError(record, code);
      o := Save(record);
    }

    method RecordWorkerError(record: RunRecord, code: WorkerErrorCode)
      modifies record`status, record`phase, record`phaseHistory, record`cleanup, record`worker
      ensures record.Snapshot() == FailedWith(old(record.Snapshot()), code)
    {
      if !record.status.Completed? {
        record.status := Completed;
      }
      if !record.phase.Finished? {
        record.Transition(Finished);
      }
      if record.cleanup.status.CleanupPending? {
        record.cleanup := record.cleanup.(status := WorkerErrorCleanupStatus(record.Snapshot()));
      }
      record.worker := record.worker.(workerError := Some(WorkerError(code, WorkerErrorCleanupStatus(record.Snapshot()))));
    }

    /** Pauses the worker on this record until an operator acts. */
    method MarkCleanupHold(record: RunRecord) returns (o: Attempt<WorkerFault>)
      requires Owns(record) && MayHold(Past(record), record.Snapshot())
      modifies node.Objects(), record`worker
      ensures node.Valid()
      ensures o.Done? ==> Ends(record.request.runId, Err(o.value))
      ensures o == Done(OperatorRequired) ==> Stored(record).worker.manualRecovery == Some(CleanupHold)
    {
      hide Invariant, Legal, After, Owned, SaveAllowed, PersistedEvidence, SaveResult;
      ghost var before := record.Snapshot();
      record.SetManualRecovery(CleanupHold);
      HoldMaySave(Past(record), Stored(record), before, record.Snapshot());
      var saved :- node.Save(record);
      SaveMoves(old(node.now), node.now, record.request.runId, record.Snapshot(), saved);
      o := Done(if saved then OperatorRequired else CannotPersist);
    }

    /** Lets go of a lost claim once its target is reconciled. */
    method ReleaseReconciledClaim(record: RunRecord) returns (o: Outcome)
      requires Owns(record) && MayRelease(Past(record), record.Snapshot())
      modifies node.Objects(), record`worker
      ensures node.Valid()
      ensures o.Done? ==> Ends(record.request.runId, o.value)
      ensures o.Done? && o.value.Ok? ==> Stored(record) == record.Snapshot() && ResolvedAs(true, Past(record), Stored(record))
      ensures o.Done? && o.value.Ok? ==> node.calls == old(node.calls) + [Saving(record.Snapshot(), true)]
      ensures record.Snapshot() == old(record.Snapshot()).(worker := record.worker)
      ensures record.worker == old(record.worker).(claimToken := None, pendingCompletionBody := None, manualRecovery := None)
    {
      hide Node.Valid, Owned, SaveAllowed, PersistedEvidence, SaveResult;
      OwnedIsUndelivered(Past(record), Stored(record), record.Snapshot());
      OwnedKeepsToken(Past(record), Stored(record), record.Snapshot());
      ghost var before := record.Snapshot();
      record.worker := record.worker.(claimToken := None, pendingCompletionBody := None);
      record.ClearManualRecovery();
      ReleaseMaySave(Past(record), Stored(record), before, record.Snapshot());
      o := Resolve(record);
    }

    /** Saves a record that needs no attention any more. */
    method Resolve(record: RunRecord) returns (o: Outcome)
      requires Drives(record) && SaveAllowed(Past(record), Stored(record), record.Snapshot())
      requires !record.Snapshot().RequiresWorkerAttention()
      modifies node.Objects()
      ensures node.Valid()
      ensures o.Done? ==> Ends(record.request.runId, o.value)
      ensures o.Done? && o.value.Ok? ==> Stored(record) == record.Snapshot()
      ensures o.Done? && o.value.Ok? ==> node.calls == old(node.calls) + [Saving(record.Snapshot(), true)]
      ensures o.Done? && old(Past(record)).control.signals.lost ==> Past(record).control.signals.lost
      ensures o.Done? && old(Stored(record)).worker.manualRecovery.None? ==>
                && Past(record).execution == old(Past(record)).execution
                && Past(record).control.recovered == old(Past(record)).control.recovered
    {
      hide Invariant, Legal, After, SaveAllowed, PersistedEvidence, SaveResult, Quiet;
      var saved :- node.Save(record);
      SaveMoves(old(node.now), node.now, record.request.runId, record.Snapshot(), saved);
      if !saved {
        return Done(Err(CannotPersist));
      }
      ResolvedIsQuiet(node.now, record.request.runId);
      o := Done(Ok(()));
    }

    /** Whether the job must be refused; None when the inventory cannot be read. */
    method UnsupportedJobReason(record: RunRecord) returns (o: Attempt<Option<bool>>)
      requires Owns(record) && !record.cleanup.status.CleanupPassed?
      requires record.worker.workerError == Stored(record).worker.workerError
      modifies node.Objects()
      ensures node.Valid()
      ensures o.Done? && record.request.dnpName == HARNESS_DNP_NAME ==> o.value == Some(true)
      ensures o.Done? && o.value.Some? && record.request.dnpName != HARNESS_DNP_NAME ==>
                InspectedSince(old(node.calls), node.calls, record.request.dnpName, o.value.value)
      ensures o == Done(None) ==> Past(record).observed.listings == old(Past(record)).observed.listings
      ensures o == Done(Some(true)) ==> Refused(Past(record).observed.listings, record.request.dnpName)
      ensures o == Done(Some(false)) ==> Admitted(Past(record).observed.listings, record.request.dnpName)
      ensures o.Done? ==> Owns(record) && Stored(record) == old(Stored(record)) && OnlyRead(old(Past(record)), Past(record))
    {
      hide Node.Valid, Node.Drives, Owned;
      if record.request.dnpName == HARNESS_DNP_NAME {
        return Done(Some(true));
      }
      var listed :- ListPackages(record);
      o := Done(if listed.Err? then None else Some(InstalledAsCore(listed.value, record.request.dnpName)));
    }

    // -------------------------------------------------------------- target recovery

    /**
     * Reconciles the target unless it never changed or its cleanup already passed. False is the
     * source's error: the recovery was refused, or its outcome could not be persisted.
     */
    method RecoverTargetIfRequired(record: RunRecord) returns (o: Attempt<bool>)
      requires Owns(record)
      requires record.worker.workerError == Stored(record).worker.workerError
      modifies node.Objects(), record`cleanup, record`evidence
      ensures node.Valid()
      ensures o == Done(true) && (!record.worker.cleanupRequired || old(record.cleanup).status.CleanupPassed?) ==>
                node.calls == old(node.calls) + [Saving(record.Snapshot(), true)] && record.cleanup == old(record.cleanup)
      ensures o == Done(true) && record.worker.cleanupRequired && !old(record.cleanup).status.CleanupPassed? ==>
                && record.request.dnpName != HARNESS_DNP_NAME
                && RecoveredSince(old(node.calls), node.calls, CleanupScript.Job(record.request.dnpName, record.worker.targetRecovery, config.cleanupTimeout),
                                  record.evidence.initialPackages, record.Snapshot())
      ensures o == Done(false) ==> MayHold(Past(record), record.Snapshot())
      ensures o.Done? ==> Owns(record) && Later(old(Past(record)), Past(record))
      ensures o == Done(true) ==> Stored(record) == record.Snapshot()
      ensures o == Done(true) && record.worker.cleanupRequired ==>
                record.cleanup.status.CleanupPassed? || record.Snapshot().CleanupFailed()
      ensures o.Done? && !record.worker.cleanupRequired ==> record.cleanup == old(record.cleanup)
      ensures o == Done(true) ==>
                SettledSince(old(node.calls), node.calls, CleanupScript.Job(record.request.dnpName, record.worker.targetRecovery, config.cleanupTimeout),
                             record.evidence.initialPackages, record.Snapshot())
      ensures o == Done(true) && record.worker.cleanupRequired && record.Snapshot().CleanupFailed() ==> !Past(record).execution.lastForward
    {
      hide Node.Valid, Node.Drives, Owned, ReconciledByScript;
      if !record.worker.cleanupRequired || record.cleanup.status.CleanupPassed? {
        o := Save(record);
        return;
      }
      if record.request.dnpName == HARNESS_DNP_NAME {
        return Done(false);
      }
      var listed :- ListPackages(record);
      if listed.Err? || InstalledAsCore(listed.value, record.request.dnpName) {
        return Done(false);
      }
      ghost var inspected := node.calls;
      assert InspectedSince(old(node.calls), inspected, record.request.dnpName, false);
      o := ReconcileOwned(record);
    }

    method ReconcileOwned(record: RunRecord) returns (o: Attempt<bool>)
      requires Owns(record) && record.worker.cleanupRequired && !record.cleanup.status.CleanupPassed?
      requires record.worker.workerError == Stored(record).worker.workerError
      modifies node.Objects(), record`cleanup, record`evidence
      ensures node.Valid()
      ensures o == Done(true) ==>
                exists cleaned ::
                  && old(node.calls) <= cleaned && node.calls == cleaned + [Saving(record.Snapshot(), true)]
                  && ReconciledByScript(cleaned, |old(node.calls)|,
                                        CleanupScript.Job(record.request.dnpName, record.worker.targetRecovery, config.cleanupTimeout),
                                        record.evidence.initialPackages, record.cleanup, record.evidence.finalPackages)
      ensures o == Done(false) ==> MayHold(Past(record), record.Snapshot())
      ensures o.Done? ==> Owns(record) && Later(old(Past(record)), Past(record))
      ensures o == Done(true) ==> Stored(record) == record.Snapshot()
      ensures o.Done? ==> record.cleanup.status.CleanupPassed? || record.Snapshot().CleanupFailed()
      ensures o.Done? ==> !Past(record).execution.lastForward
    {
      hide Invariant, Legal, After, Owned, Recoverable, Cleaning, Listings, CleanupIsEarned, PersistedEvidence;
      hide CleanupScript.GaveUp, Node.Publishes, CleanupScript.OnScript;
      ghost var before := record.Snapshot();
      CleanupIsEarnedIn(node.now, record.request.runId);
      OwnedIsRecoverable(Past(record), Stored(record), before);
      ghost var start := node.now;
      node.Publish(record.request.runId, Cleanup, true);
      var reconciled :- ReconcileTarget(node, record.request.runId, record.request.dnpName, record.worker.targetRecovery,
                                        record.evidence.initialPackages, config.cleanupTimeout);
      record.cleanup := reconciled.0;
      PersistedTwice(record.evidence);
      PersistedKeepsInventory(record.evidence, reconciled.1);
      record.evidence := record.evidence.(finalPackages := reconciled.1);
      PersistedTwice(record.evidence);
      CleaningKeepsOwned(start, node.now, record.request.runId, before, record.Snapshot());
      o := Save(record);
    }

    // -------------------------------------------------------------- delivery

    /** Prepares the one completion body of the run, durable before it is first sent. */
    method PrepareCompletion(record: RunRecord) returns (o: Outcome)
      requires Drives(record) && !Past(record).delivery.stopped
      requires record.worker.pendingCompletionBody.Some? ==> Deliverable(Past(record), Stored(record), record.Snapshot())
      requires record.worker.pendingCompletionBody.None? ==>
                 Owns(record) && Stored(record) == record.Snapshot() && StatesCleanup(Past(record), record.Snapshot())
      modifies node.Objects(), record`worker
      ensures node.Valid()
      ensures o.Done? && o.value.Ok? ==> Drives(record) && Deliverable(Past(record), Stored(record), record.Snapshot())
      ensures o.Done? && o.value.Ok? ==> !Past(record).delivery.stopped
      ensures o.Done? && o.value.Err? && !o.value.error.CannotPrepare? ==> o.value.error.CannotPersist? && Past(record).failed
      ensures o.Done? && o.value.Err? ==> Drives(record)
      ensures o.Done? && o.value.Err? && o.value.error.CannotPrepare? ==>
                && CompletionOf(record.Snapshot()) == Err(o.value.error.error)
                && Stored(record) == record.Snapshot() && Owns(record)
                && record.worker == old(record.worker) && record.worker.pendingCompletionBody.None?
      ensures o.Done? && o.value.Ok? ==> old(node.calls) <= node.calls
    {
      hide Invariant, Legal, After, Owned, SaveAllowed, Deliverable, SaveResult, PersistedEvidence, RunInvariant;
      hide CompletionOf, StatesCleanup;
      if record.worker.pendingCompletionBody.Some? {
        return Done(Ok(()));
      }
      var completion := CompletionOf(record.Snapshot());
      if completion.Err? {
        return Done(Err(CannotPrepare(completion.error)));
      }
      ghost var before := record.Snapshot();
      InvariantHoldsFor(node.now, record.request.runId);
      OwnedKeepsToken(Past(record), Stored(record), before);
      record.worker := record.worker.(pendingCompletionBody := Some(completion.value));
      PreparedMaySave(Past(record), before, record.Snapshot(), completion.value);
      var saved :- node.Save(record);
      SaveMoves(old(node.now), node.now, record.request.runId, record.Snapshot(), saved);
      if !saved {
        return Done(Err(CannotPersist));
      }
      SavedBodyIsDeliverable(old(node.now), node.now, record.request.runId, record.Snapshot());
      o := Done(Ok(()));
    }

    /** The completion is ready to be sent, or can be prepared from what is stored. */
    ghost predicate CanDeliver(record: RunRecord)
      reads this, node, node.Objects(), record
    {
      && Drives(record) && !Past(record).delivery.stopped
      && (record.worker.completionAcknowledged ==> Quiet(node.now) && Stored(record).worker.completionAcknowledged)
      && (!record.worker.completionAcknowledged && record.worker.pendingCompletionBody.Some? ==>
            Deliverable(Past(record), Stored(record), record.Snapshot()))
      && (!record.worker.completionAcknowledged && record.worker.pendingCompletionBody.None? ==>
            && Owns(record) && Stored(record) == record.Snapshot() && StatesCleanup(Past(record), record.Snapshot())
            && (record.result.Some? || record.worker.workerError.Some?))
    }

    /**
     * Sends the identical body until the coordinator acknowledges it, or conflicts, or rejects the
     * credentials. `patience` bounds the retries; when it runs out the process dies instead.
     */
    method DeliverUntilTerminal(record: RunRecord, patience: nat) returns (o: Outcome)
      requires CanDeliver(record)
      modifies node.Objects(), record`worker
      ensures node.Valid()
      ensures o.Done? ==> Ends(record.request.runId, o.value)
      ensures o.Done? && o.value.Ok? ==> Stored(record).worker.completionAcknowledged
      ensures o.Done? && o.value.Ok? ==> old(node.calls) <= node.calls
    {
      hide Invariant, Legal, After, Owned, SaveAllowed, Deliverable, PersistedEvidence, RunInvariant, CompletionOf;
      hide StatesCleanup, Quiet;
      if record.worker.completionAcknowledged {
        return Done(Ok(()));
      }
      var prepared :- PrepareCompletion(record);
      if prepared.Err? {
        if prepared.error.CannotPrepare? {
          InvariantHoldsFor(node.now, record.request.runId);
          OnlyTornWedges(Past(record), record.Snapshot());
        }
        return Done(prepared);
      }
      o := SendUntilTerminal(record, patience);
    }

    /** The retry loop around the prepared body. */
    method SendUntilTerminal(record: RunRecord, patience: nat) returns (o: Outcome)
      requires Drives(record) && Deliverable(Past(record), Stored(record), record.Snapshot()) && !Past(record).delivery.stopped
      modifies node.Objects(), record`worker
      ensures node.Valid()
      ensures o.Done? ==> Ends(record.request.runId, o.value)
      ensures o.Done? && o.value.Ok? ==> Stored(record).worker.completionAcknowledged
      ensures o.Done? && o.value.Ok? ==> old(node.calls) <= node.calls
    {
      hide Invariant, Legal, After, Owned, SaveAllowed, Deliverable, PersistedEvidence, RunInvariant, CompletionOf, Quiet;
      var attempt := 0;
      while attempt < patience
        invariant node.Valid() && Drives(record) && !Past(record).delivery.stopped
        invariant Deliverable(Past(record), Stored(record), record.Snapshot())
        invariant old(node.calls) <= node.calls
      {
        var answer :- SendOnce(record);
        match answer {
          case Acknowledged(duplicate) =>
            o := Acknowledge(record, if duplicate then Duplicate else Recorded);
            return;
          case CompletionAuthentication =>
            return Done(Err(AuthenticationRejected));
          case Conflict =>
            o := MarkConflictHold(record);
            return;
          case CompletionTransient =>
          case CompletionRejected =>
        }
        attempt := attempt + 1;
      }
      node.Kill();
      o := Killed;
    }

    method SendOnce(record: RunRecord) returns (o: Attempt<CompletionAnswer>)
      requires Drives(record) && Deliverable(Past(record), Stored(record), record.Snapshot())
      requires !Past(record).delivery.stopped
      modifies node.Objects()
      ensures node.Valid()
      ensures o.Done? ==> Drives(record) && Deliverable(Past(record), Stored(record), record.Snapshot())
      ensures o.Done? ==> (Past(record).delivery.stopped <==> o.value.Conflict? || o.value.CompletionAuthentication?)
      ensures o.Done? && o.value.Conflict? ==> Past(record).delivery.conflicted
      ensures o.Done? && o.value.Acknowledged? ==> Past(record).delivery.Gave(if o.value.duplicate then Duplicate else Recorded)
      ensures node.calls == old(node.calls)
    {
      hide Invariant, Legal, After, SaveAllowed, PersistedEvidence;
      o := node.Send(record.request.runId, record.worker.pendingCompletionBody.value, record.Snapshot());
    }

    method Acknowledge(record: RunRecord, disposition: Disposition) returns (o: Outcome)
      requires Drives(record) && Deliverable(Past(record), Stored(record), record.Snapshot()) && Past(record).delivery.Gave(disposition)
      modifies node.Objects(), record`worker
      ensures node.Valid()
      ensures o.Done? ==> Ends(record.request.runId, o.value)
      ensures o.Done? && o.value.Ok? ==> Stored(record).worker.completionAcknowledged
      ensures o.Done? && o.value.Ok? ==> old(node.calls) <= node.calls
    {
      hide Invariant, Legal, After, SaveAllowed, PersistedEvidence, Deliverable;
      InvariantHoldsFor(node.now, record.request.runId);
      AcknowledgementMaySave(Past(record), Stored(record), record.Snapshot(), disposition);
      record.worker := record.worker.(
      completionAcknowledged := true,
      completionDisposition := Some(disposition),
      pendingCompletionBody := None);
      record.ClearManualRecovery();
      record.worker := record.worker.(claimToken := None);
      o := Resolve(record);
    }

    method MarkConflictHold(record: RunRecord) returns (o: Outcome)
      requires Drives(record) && Deliverable(Past(record), Stored(record), record.Snapshot()) && Past(record).delivery.conflicted
      modifies node.Objects(), record`worker
      ensures node.Valid()
      ensures o.Done? ==> Ends(record.request.runId, o.value) && o.value.Err?
    {
      hide Invariant, Legal, After, SaveAllowed, PersistedEvidence, Deliverable, SaveResult;
      ghost var before := record.Snapshot();
      record.SetManualRecovery(CompletionConflictHold);
      InvariantHoldsFor(node.now, record.request.runId);
      ConflictMaySave(Past(record), Stored(record), before, record.Snapshot());
      var saved :- node.Save(record);
      SaveMoves(old(node.now), node.now, record.request.runId, record.Snapshot(), saved);
      o := Done(Err(if saved then OperatorRequired else CannotPersist));
    }

    // -------------------------------------------------------------- settling a claim

    method FailAndDeliver(record: RunRecord, code: WorkerErrorCode, patience: nat) returns (o: Outcome)
      requires Owns(record) && Unfinished(Past(record), record.Snapshot()) && IsTruthful(code, Past(record), record.request.dnpName)
      requires record.worker.cleanupRequired ==> record.cleanup.status.CleanupPassed?
      requires !record.Snapshot().CleanupFailed()
      modifies node.Objects(), record`status, record`phase, record`phaseHistory, record`cleanup, record`worker
      ensures node.Valid()
      ensures o.Done? ==> Ends(record.request.runId, o.value)
      ensures o.Done? && o.value.Ok? ==> ResolvedAs(false, Past(record), Stored(record))
      ensures o.Done? && o.value.Ok? ==> old(node.calls) <= node.calls
    {
      hide Node.Valid, Owned, Unfinished, Deliverable;
      var saved :- SetWorkerError(record, code);
      if !saved {
        return Done(Err(CannotPersist));
      }
      OwnedIsUndelivered(Past(record), Stored(record), record.Snapshot());
      o := DeliverUntilTerminal(record, patience);
    }

    /** Recovers the target, or holds the worker when that is impossible. */
    method RecoverOrHold(record: RunRecord) returns (o: Attempt<Option<WorkerFault>>)
      requires Owns(record)
      requires record.worker.workerError == Stored(record).worker.workerError
      modifies node.Objects(), record`cleanup, record`evidence, record`worker
      ensures node.Valid()
      ensures o == Done(None) ==> Owns(record) && Stored(record) == record.Snapshot() && record.worker == old(record.worker)
      ensures o == Done(None) ==> Later(old(Past(record)), Past(record))
      ensures o == Done(None) && record.worker.cleanupRequired ==> record.cleanup.status.CleanupPassed? || record.Snapshot().CleanupFailed()
      ensures o == Done(None) && !record.worker.cleanupRequired ==> record.cleanup == old(record.cleanup)
      ensures o.Done? && o.value.Some? ==> Ends(record.request.runId, Err(o.value.value))
      ensures o == Done(None) ==>
                SettledSince(old(node.calls), node.calls, CleanupScript.Job(record.request.dnpName, record.worker.targetRecovery, config.cleanupTimeout),
                             record.evidence.initialPackages, record.Snapshot())
      ensures o == Done(None) && record.worker.cleanupRequired && record.Snapshot().CleanupFailed() ==> !Past(record).execution.lastForward
    {
      hide Node.Valid, Owned, PersistedEvidence;
      var recovered :- RecoverTargetIfRequired(record);
      if recovered {
        return Done(None);
      }
      var fault :- MarkCleanupHold(record);
      o := Done(Some(fault));
    }

    /** Runs the controller, then reads back what it stored; None when that fails. */
    method ExecuteAndReload(record: RunRecord) returns (o: Attempt<Option<bool>>)
      requires Drives(record) && Stored(record) == record.Snapshot() && Startable(Past(record), Stored(record)) && record.status.Queued?
      requires Admitted(Past(record).observed.listings, record.request.dnpName)
      requires RunScript.Configured(config)
      modifies node.Objects(), record
      ensures node.Valid()
      ensures o.Done? ==> record.request.runId == old(record.request.runId) && Drives(record)
      ensures o == Done(None) ==> Past(record).failed
      ensures o.Done? && o.value.Some? ==> Owns(record) && Stored(record) == record.Snapshot() && record.worker.workerError.None?
      ensures o.Done? && o.value.Some? ==> !Past(record).control.recovered
      ensures o == Done(Some(true)) ==> Concluded(record.Snapshot())
      ensures o == Done(Some(false)) ==> Aborted(Past(record), record.Snapshot())
      ensures o.Done? && o.value.Some? ==>
                && |old(node.calls)| < |node.calls| && node.calls[|node.calls| - 1] == Loading(Some(record.Snapshot()))
                && RunScript.Executes(node.calls[|old(node.calls)|..|node.calls| - 1], config, o.value.value, record.Snapshot())
    {
      hide Invariant, Legal, After, Owned, Unfinished, Aborted, Startable, Undelivered, PersistedEvidence, RunInvariant;
      hide RunScript.Configured, RunScript.Executes, RunScript.OnScript, Concluded, Untouched;
      var id := record.request.runId;
      var controller := new RunController(node, config);
      var executed :- controller.Execute(id);
      UndeliveredIsUnheld(node.Past(id), node.Stored(id));
      ghost var after, calls := node.now, node.calls;
      StoredIsPersisted(after, id);
      var loaded :- node.Get(id);
      if loaded.Err? {
        return Done(None);
      }
      UndeliveredSurvives(after, node.now, id);
      record.Reload(loaded.value.value);
      assert node.calls[|old(node.calls)|..|node.calls| - 1] == calls[|old(node.calls)|..];
      InvariantHoldsFor(node.now, id);
      UndeliveredIsOwned(node.Past(id), node.Stored(id));
      o := Done(Some(executed));
    }

    /**
     * Settles a fresh claim. A lost claim is released after reconciliation whether or not cleanup
     * succeeded; otherwise failed cleanup holds the worker.
     */
    method SettleClaim(record: RunRecord, patience: nat) returns (o: Outcome)
      requires Drives(record) && Stored(record) == record.Snapshot() && Startable(Past(record), Stored(record)) && record.status.Queued?
      requires Past(record).observed.listings == []
      requires RunScript.Configured(config)
      modifies node.Objects(), record
      ensures node.Valid()
      ensures o.Done? ==> record.request.runId == old(record.request.runId) && Ends(record.request.runId, o.value)
      ensures o.Done? && o.value.Ok? ==> ResolvedAs(false, Past(record), Stored(record)) || ResolvedAs(true, Past(record), Stored(record))
    {
      hide Invariant, Legal, After, Owned, Unfinished, Aborted, Startable, Undelivered, PersistedEvidence, RunInvariant;
      hide OnlyRead, RunScript.Configured, Concluded;
      StartableIsFresh(Past(record), Stored(record));
      InvariantHoldsFor(node.now, record.request.runId);
      UndeliveredIsOwned(Past(record), Stored(record));
      var unsupported :- UnsupportedJobReason(record);
      ReadKeepsStartable(old(Past(record)), Past(record), Stored(record));
      StartableIsFresh(Past(record), Stored(record));
      if unsupported != Some(false) {
        o := FailAndDeliver(record, if unsupported.None? then UnexpectedWorkerError else UnsupportedJob, patience);
        return;
      }
      o := ExecuteAndSettle(record, patience);
    }

    method ExecuteAndSettle(record: RunRecord, patience: nat) returns (o: Outcome)
      requires Drives(record) && Stored(record) == record.Snapshot() && Startable(Past(record), Stored(record)) && record.status.Queued?
      requires Admitted(Past(record).observed.listings, record.request.dnpName)
      requires RunScript.Configured(config)
      modifies node.Objects(), record
      ensures node.Valid()
      ensures o.Done? ==> record.request.runId == old(record.request.runId) && Ends(record.request.runId, o.value)
      ensures o.Done? && o.value.Ok? ==> ResolvedAs(false, Past(record), Stored(record)) || ResolvedAs(true, Past(record), Stored(record))
    {
      hide Node.Valid, Owned, Aborted, Startable, PersistedEvidence, RunScript.Configured, RunScript.Executes, Concluded, ResolvedAs;
      var executed :- ExecuteAndReload(record);
      if executed.None? {
        return Done(Err(CannotLoad));
      }
      ghost var seenLost;
      o, seenLost := SettleExecuted(record, executed.value, patience);
    }

    /** What follows the controller: reconcile what it left, release a claim that is seen lost, or deliver. */
    method SettleExecuted(record: RunRecord, executed: bool, patience: nat) returns (o: Outcome, ghost seenLost: bool)
      requires Owns(record) && Stored(record) == record.Snapshot() && record.worker.workerError.None? && !Past(record).control.recovered
      requires if executed then Concluded(record.Snapshot()) else Aborted(Past(record), record.Snapshot())
      modifies node.Objects(), record`status, record`phase, record`phaseHistory, record`cleanup, record`worker, record`evidence
      ensures node.Valid()
      ensures o.Done? ==> Ends(record.request.runId, o.value)
      ensures o.Done? && o.value.Ok? ==> ResolvedAs(seenLost, Past(record), Stored(record))
      ensures o.Done? && o.value.Ok? && seenLost ==> LetGoSince(old(node.calls), node.calls, config.cleanupTimeout, Stored(record))
      ensures o.Done? && o.value.Ok? ==> LossReadSince(old(node.calls), node.calls, seenLost)
    {
      hide Node.Valid, Owned, Aborted, PersistedEvidence, LetGoSince, LossReadSince, ResolvedAs;
      seenLost := false;
      if !executed {
        var failed :- ReplaceByWorkerError(record);
        if failed.Some? {
          return Done(Err(failed.value)), seenLost;
        }
      }
      var lost :- ReadClaimLost(record);
      seenLost := lost;
      if lost {
        ghost var asked := node.calls;
        o := RecoverAndRelease(record);
        if o.Done? && o.value.Ok? {
          LossWasRead(old(node.calls), asked, node.calls, true);
          LetGoLater(old(node.calls), asked, node.calls, config.cleanupTimeout, Stored(record));
        }
        return;
      }
      ghost var asked := node.calls;
      o := DeliverOrHold(record, patience);
      if o.Done? && o.value.Ok? {
        LossWasRead(old(node.calls), asked, node.calls, false);
      }
    }

    /** A claim that is seen lost is let go once the target is reconciled, whether or not that succeeds. */
    method RecoverAndRelease(record: RunRecord) returns (o: Outcome)
      requires Owns(record) && !Past(record).control.recovered && Past(record).control.signals.lost
      requires record.worker.workerError == Stored(record).worker.workerError
      modifies node.Objects(), record`cleanup, record`worker, record`evidence
      ensures node.Valid()
      ensures o.Done? ==> Ends(record.request.runId, o.value)
      ensures o.Done? && o.value.Ok? ==> ResolvedAs(true, Past(record), Stored(record))
      ensures o.Done? && o.value.Ok? ==> LetGoSince(old(node.calls), node.calls, config.cleanupTimeout, Stored(record))
      ensures o.Done? && o.value.Ok? ==> old(node.calls) <= node.calls
    {
      hide Node.Valid, Owned, PersistedEvidence, SettledSince, LetGoSince, ResolvedAs;
      var stopped :- RecoverOrHold(record);
      if stopped.Some? {
        return Done(Err(stopped.value));
      }
      ghost var settled, r := node.calls, record.Snapshot();
      PersistedTwice(record.evidence);
      o := ReleaseReconciledClaim(record);
      if o.Done? && o.value.Ok? {
        SettledIsLater(old(node.calls), settled, config.cleanupTimeout, r);
        LetGo(old(node.calls), settled, [], node.calls, config.cleanupTimeout, r, Stored(record));
      }
    }

    /** The run stopped before a persisted result: recover the target and decide the run by an error. */
    method ReplaceByWorkerError(record: RunRecord) returns (o: Attempt<Option<WorkerFault>>)
      requires Owns(record) && Aborted(Past(record), record.Snapshot())
      requires !Past(record).control.recovered
      requires record.worker.workerError == Stored(record).worker.workerError
      modifies node.Objects(), record`status, record`phase, record`phaseHistory, record`cleanup, record`worker, record`evidence
      ensures node.Valid()
      ensures o == Done(None) ==> Owns(record) && Stored(record) == record.Snapshot() && Decided(Past(record), record.Snapshot())
      ensures o == Done(None) ==> Later(old(Past(record)), Past(record))
      ensures o.Done? && o.value.Some? ==> Ends(record.request.runId, Err(o.value.value))
      ensures o == Done(None) ==> old(node.calls) <= node.calls
    {
      hide Node.Valid, Owned, PersistedEvidence;
      var stopped :- RecoverOrHold(record);
      if stopped.Some? {
        return Done(stopped);
      }
      var saved :- SetWorkerError(record, LocalPersistenceFailed);
      o := Done(if saved then None else Some(CannotPersist));
    }

    /** Failed cleanup holds the worker; everything else is delivered. */
    method DeliverOrHold(record: RunRecord, patience: nat) returns (o: Outcome)
      requires Owns(record) && Stored(record) == record.Snapshot() && Decided(Past(record), record.Snapshot())
      modifies node.Objects(), record`worker
      ensures node.Valid()
      ensures o.Done? ==> Ends(record.request.runId, o.value)
      ensures o.Done? && o.value.Ok? ==> ResolvedAs(false, Past(record), Stored(record))
      ensures o.Done? && o.value.Ok? ==> old(node.calls) <= node.calls
    {
      hide Node.Valid, Owned, PersistedEvidence, Decided, StatesCleanup, Deliverable;
      if record.Snapshot().CleanupFailed() {
        var fault :- MarkCleanupHold(record);
        return Done(Err(fault));
      }
      DecidedStatesCleanup(Past(record), record.Snapshot());
      OwnedIsUndelivered(Past(record), Stored(record), record.Snapshot());
      o := DeliverUntilTerminal(record, patience);
    }

    // -------------------------------------------------------------- recovery

    /**
     * Settles the run that recovery found unresolved, without ever rerunning it. A lost claim is only
     * released here once its cleanup did not fail.
     */
    method SettleRecovered(record: RunRecord, patience: nat) returns (o: Outcome)
      requires Drives(record) && Stored(record) == record.Snapshot()
      requires record.worker.manualRecovery.None? || record.worker.pendingCompletionBody.Some?
      requires Past(record).control.recovered && !Past(record).delivery.stopped
      requires record.Snapshot().RequiresWorkerAttention()
      modifies node.Objects(), record`status, record`phase, record`phaseHistory, record`errors, record`cleanup, record`worker, record`evidence
      ensures node.Valid()
      ensures o.Done? ==> Ends(record.request.runId, o.value)
      ensures o.Done? && o.value.Ok? ==> ResolvedAs(false, Past(record), Stored(record)) || ResolvedAs(true, Past(record), Stored(record))
    {
      hide Invariant, Legal, After, Owned, Unfinished, PersistedEvidence, RunInvariant, Deliverable, StatesCleanup;
      InvariantHoldsFor(node.now, record.request.runId);
      if record.worker.pendingCompletionBody.Some? {
        LoadedIsDeliverable(Past(record), Stored(record));
        PendingIsUnacknowledged(Past(record), Stored(record));
        o := DeliverUntilTerminal(record, patience);
        return;
      }
      AttentionIsOwned(Past(record), Stored(record));
      if record.status.Completed? && record.result.Some? {
        ResultStatesCleanup(Past(record), record.Snapshot());
        o := DeliverUntilTerminal(record, patience);
        return;
      }
      ghost var seenLost;
      o, seenLost := SettleInterrupted(record, patience);
    }

    method SettleInterrupted(record: RunRecord, patience: nat) returns (o: Outcome, ghost seenLost: bool)
      requires Owns(record) && Stored(record) == record.Snapshot() && record.result.None? && Past(record).control.recovered
      modifies node.Objects(), record`status, record`phase, record`phaseHistory, record`errors, record`cleanup, record`worker, record`evidence
      ensures node.Valid()
      ensures o.Done? ==> Ends(record.request.runId, o.value)
      ensures o.Done? && o.value.Ok? ==> ResolvedAs(seenLost, Past(record), Stored(record))
      ensures o.Done? && o.value.Ok? && seenLost ==> LetGoSince(old(node.calls), node.calls, config.cleanupTimeout, Stored(record))
      ensures o.Done? && o.value.Ok? ==> LossReadSince(old(node.calls), node.calls, seenLost)
    {
      hide Node.Valid, Owned, PersistedEvidence, SettledSince, LetGoSince, LossReadSince, ResolvedAs;
      seenLost := false;
      ghost var before := record.Snapshot();
      record.Interrupt();
      InterruptKeepsOwned(Past(record), Stored(record), before, record.Snapshot());
      var stopped :- RecoverOrHold(record);
      if stopped.Some? {
        return Done(Err(stopped.value)), seenLost;
      }
      if record.Snapshot().CleanupFailed() {
        var fault :- MarkCleanupHold(record);
        return Done(Err(fault)), seenLost;
      }
      ghost var settled := node.calls;
      var lost :- ReadClaimLost(record);
      seenLost := lost;
      ghost var asked, r := node.calls, record.Snapshot();
      PersistedTwice(record.evidence);
      if lost {
        o := ReleaseReconciledClaim(record);
        if o.Done? && o.value.Ok? {
          SettledIsLater(old(node.calls), settled, config.cleanupTimeout, r);
          LossWasRead(old(node.calls), asked, node.calls, true);
          LetGo(old(node.calls), settled, [ReadingLoss(true)], node.calls, config.cleanupTimeout, r, Stored(record));
        }
        return;
      }
      o := FailAndDeliver(record, InterruptedRun, patience);
      if o.Done? && o.value.Ok? {
        SettledIsLater(old(node.calls), settled, config.cleanupTimeout, r);
        LossWasRead(old(node.calls), asked, node.calls, false);
      }
    }

    // -------------------------------------------------------------- claiming and recovering

    /** Where the worker is after a claim or a recovery: free to poll, or stopped on a run. */
    ghost predicate Arrives(r: Result<(), WorkerFault>)
      reads this, node, node.Objects()
    {
      && node.Valid() && !node.now.mode.AtGate? && !node.now.mode.Waiting? && !node.now.mode.Halted?
      && (r.Ok? ==> Quiet(node.now) && !node.now.mode.Holding?)
    }

    /** Persists a claimed job before anything else, then settles it. */
    method ProcessClaim(request: RunRequest, claimToken: ClaimToken, patience: nat) returns (o: Outcome)
      requires node.Valid() && Quiet(node.now) && node.now.mode.Holding?
      requires RunScript.Configured(config)
      modifies node.Objects()
      ensures node.Valid()
      ensures o.Done? ==> Arrives(o.value)
    {
      hide Invariant, Legal, After, Quiet, Startable, RunScript.Configured;
      var record := new RunRecord.Claimed(request, claimToken);
      var created :- node.Create(record);
      if !created {
        return Done(Err(CannotPersist));
      }
      ClaimIsStartable(request, claimToken);
      o := SettleClaim(record, patience);
    }

    /** Reconciles the run that was left unresolved, if there is one. */
    method Recover(patience: nat) returns (o: Outcome)
      requires node.Valid() && node.now.mode.Recovering?
      modifies node.Objects()
      ensures node.Valid()
      ensures o.Done? ==> Arrives(o.value)
    {
      hide Invariant, Legal, After;
      var loaded :- node.LoadAll();
      if loaded.Err? {
        return Done(Err(CannotLoad));
      }
      var records := loaded.value;
      var unresolved := set id | id in records && records[id].RequiresWorkerAttention();
      if unresolved == {} {
        NoneUnresolved(node.now, unresolved);
        return Done(Ok(()));
      }
      var id :| id in unresolved;
      OnlyOneUnresolved(node.now, unresolved, id);
      var found := records[id];
      if found.worker.pendingCompletionBody.None? && found.worker.manualRecovery.Some? {
        return Done(Err(OperatorRequired));
      }
      o := RecoverRun(id, found, patience);
    }

    method RecoverRun(id: RunId, found: Record, patience: nat) returns (o: Outcome)
      requires node.Valid() && node.now.mode.Recovering? && id in node.now.store && node.now.store[id] == found
      requires found.RequiresWorkerAttention() && OthersQuiet(node.now, id)
      requires found.worker.manualRecovery.None? || found.worker.pendingCompletionBody.Some?
      modifies node.Objects()
      ensures node.Valid()
      ensures o.Done? ==> Arrives(o.value)
    {
      hide Invariant, Legal, After, Quiet, PersistedEvidence;
      node.StartRecovery(id);
      StoredIsPersisted(node.now, id);
      var record := new RunRecord.Loaded(found);
      node.Publish(id, record.phase, record.worker.cleanupRequired);
      o := SettleRecovered(record, patience);
    }

    // -------------------------------------------------------------- the worker task

    /** Shutdown was requested, or not: the flag may fall at any time. */
    method StillAccepting() returns (accepting: bool) {
      accepting := *;
    }

    /** Blocks at the gate while a drain is wanted. False means shutdown. */
    method WaitUntilAccepting(patience: nat) returns (o: Attempt<bool>)
      requires node.Valid() && Free(node.now)
      modifies node.Objects()
      ensures node.Valid()
      ensures o.Done? ==> Quiet(node.now)
      ensures o == Done(true) ==> node.now.mode.Polling?
      ensures o == Done(false) ==> node.now.mode.AtGate?
    {
      hide Invariant, Legal, After;
      node.NoteTask(GateReached);
      var waits := 0;
      while waits < patience
        invariant node.Valid() && Quiet(node.now) && node.now.mode.AtGate?
      {
        var _ :- node.InterfereQuietly();
        var accepting := StillAccepting();
        if !accepting {
          return Done(false);
        }
        var observed := node.drain.state;
        if observed.Accepting? {
          node.NoteTask(GatePassed);
          return Done(true);
        }
        if observed.Draining? {
          var _ :- node.InterfereQuietly();
          node.MarkDrained();
        }
        waits := waits + 1;
      }
      node.Kill();
      o := Killed;
    }

    /** Waits for an operator if a record is held. Anything but Woken ends the worker. */
    method WaitForOperatorRecovery() returns (o: Attempt<Wait>)
      requires node.Valid() && !node.now.mode.AtGate? && !node.now.mode.Waiting? && !node.now.mode.Halted?
      modifies node.Objects()
      ensures node.Valid()
      ensures o == Done(Woken) ==> node.now.mode.Recovering?
      ensures o == Done(NobodyHeld) ==> !SomeoneIsHeld(node.now)
      ensures o == Done(ShutDown) || o == Done(Unreadable) || o == Done(NobodyHeld) ==> node.now.mode == old(node.now.mode) || node.now.mode.Waiting?
    {
      hide Invariant, Legal, After;
      var accepting := StillAccepting();
      if !accepting {
        return Done(ShutDown);
      }
      var loaded :- node.LoadAll();
      if loaded.Err? {
        return Done(Unreadable);
      }
      if !exists id | id in loaded.value :: loaded.value[id].RequiresWorkerAttention() && loaded.value[id].worker.manualRecovery.Some? {
        return Done(NobodyHeld);
      }
      o := PauseForSignal();
    }

    /** Pauses until someone resumes the worker. */
    method PauseForSignal() returns (o: Attempt<Wait>)
      requires node.Valid() && !node.now.mode.AtGate? && !node.now.mode.Waiting? && !node.now.mode.Halted?
      requires node.now.mode.Claiming? || SomeoneIsHeld(node.now)
      modifies node.Objects()
      ensures node.Valid()
      ensures o.Done? ==> o.value.Woken? || o.value.ShutDown?
      ensures o == Done(Woken) ==> node.now.mode.Recovering?
      ensures o == Done(ShutDown) ==> node.now.mode.Waiting?
    {
      hide Invariant, Legal, After, Quiet, Rely, RunRely;
      node.NoteTask(Paused);
      ghost var paused := node.now;
      node.Interfere();
      if * {
        node.Kill();
        return Killed;
      }
      RelyKeepsMode(paused, node.now);
      var accepting := StillAccepting();
      if !accepting {
        return Done(ShutDown);
      }
      node.NoteTask(Resumed);
      o := Done(Woken);
    }

    /** One claim, and how polling goes on after its answer. */
    method PollOnce(patience: nat) returns (o: Attempt<Polling>, answer: ClaimAnswer)
      requires node.Valid() && Quiet(node.now) && node.now.mode.Polling? && RunScript.Configured(config)
      modifies node.Objects()
      ensures node.Valid()
      ensures o.Done? ==> GoesOn(answer, o.value)
      ensures o == Done(GoOn) ==> Free(node.now)
      ensures o == Done(GiveUp) || o == Done(AwaitCoordinator) ==> Quiet(node.now) && node.now.mode.Claiming?
      ensures o == Done(AwaitOperator) || o == Done(AwaitCoordinator) ==>
                !node.now.mode.AtGate? && !node.now.mode.Waiting? && !node.now.mode.Halted?
    {
      hide Invariant, Legal, After, Quiet, RunScript.Configured;
      answer := NoWork;
      answer :- node.Claim();
      match answer {
        case NoWork =>
          o := Done(GoOn);
        case Claimed(request, claimToken) =>
          var processed :- ProcessClaim(request, claimToken, patience);
          o := Done(if processed.Ok? then GoOn else AwaitOperator);
        case ClaimAuthentication =>
          o := Done(GiveUp);
        case UnresolvedJob =>
          o := Done(AwaitCoordinator);
        case ClaimTransient =>
          o := Done(GoOn);
        case ClaimRejected =>
          o := Done(GiveUp);
      }
    }

    /** Polls until an operator is needed, a claim is refused for good, or shutdown; it only gives up while nothing needs attention. */
    method Poll(rounds: nat, patience: nat) returns (o: Attempt<Polling>)
      requires node.Valid() && Quiet(node.now) && node.now.mode.Polling?
      requires RunScript.Configured(config)
      modifies node.Objects()
      ensures node.Valid()
      ensures o.Done? ==> !o.value.GoOn? && !node.now.mode.Waiting? && !node.now.mode.Halted?
      ensures o == Done(AwaitOperator) || o == Done(AwaitCoordinator) ==> !node.now.mode.AtGate?
      ensures o == Done(AwaitCoordinator) ==> node.now.mode.Claiming?
      ensures o == Done(GiveUp) || o == Done(AwaitCoordinator) ==> Quiet(node.now)
    {
      hide Invariant, Legal, After, Quiet, RunScript.Configured;
      var round := 0;
      while round < rounds
        invariant node.Valid() && Free(node.now)
      {
        var accepting := StillAccepting();
        if !accepting {
          return Done(GiveUp);
        }
        var open :- WaitUntilAccepting(patience);
        if !open {
          return Done(GiveUp);
        }
        var next, _ :- PollOnce(patience);
        if !next.GoOn? {
          return Done(next);
        }
        round := round + 1;
      }
      node.Kill();
      o := Killed;
    }

    /**
     * The worker task. It reconciles first, then polls; it only comes back to polling through recovery.
     * It stops at shutdown, on a permanent rejection, or when it can neither go on nor wait for anyone.
     * `rounds` and `patience` bound what the source leaves unbounded; when they run out the process dies.
     */
    method Run(rounds: nat, patience: nat) returns (o: Attempt<Stop>)
      requires node.Valid() && node.now.mode.Recovering? && RunScript.Configured(config)
      modifies node.Objects()
      ensures node.Valid()
      ensures o.Done? ==> node.now.mode.Halted?
      ensures o == Done(PollingEnded) ==> Quiet(node.now)
      ensures o == Done(WaitEnded(NobodyHeld)) ==> !SomeoneIsHeld(node.now)
    {
      hide Invariant, Legal, After, Quiet, RunScript.Configured;
      var resumes := 0;
      while resumes < rounds
        invariant node.Valid() && node.now.mode.Recovering?
      {
        var recovered :- Recover(patience);
        var next := AwaitOperator;
        if recovered.Ok? {
          var open :- WaitUntilAccepting(patience);
          next := GiveUp;
          if open {
            next :- Poll(rounds, patience);
          }
        }
        var wait := ShutDown;
        if next.AwaitOperator? {
          wait :- WaitForOperatorRecovery();
        } else if next.AwaitCoordinator? {
          var accepting := StillAccepting();
          if accepting {
            wait :- PauseForSignal();
          }
        }
        if !wait.Woken? {
          QuietInAnyMode(node.now, Halted);
          node.NoteTask(Stopped);
          return Done(if next.GiveUp? then PollingEnded else WaitEnded(wait));
        }
        resumes := resumes + 1;
      }
      node.Kill();
      o := Killed;
    }
  }

  /** How waiting for an operator or the coordinator ended. */
  datatype Wait = Woken | ShutDown | Unreadable | NobodyHeld

  /** Why the worker task returned: polling ended, or waiting did. */
  datatype Stop = PollingEnded | WaitEnded(wait: Wait)

  /** What the polling loop does next. */
  datatype Polling = GoOn | AwaitOperator | AwaitCoordinator | GiveUp

  /** Only a permanent rejection ends polling, only a processed job may need an operator, only an unresolved one the coordinator. */
  predicate GoesOn(answer: ClaimAnswer, next: Polling) {
    && (next.GiveUp? <==> answer.ClaimAuthentication? || answer.ClaimRejected?)
    && (next.AwaitCoordinator? <==> answer.UnresolvedJob?)
    && (next.AwaitOperator? ==> answer.Claimed?)
  }

  /**
   * The whole system: the process is started, runs, and is killed and started again any number of
   * times, at any point. Whatever happened, the trace is legal and explains the store.
   */
  method Life(policy: MutationPolicy, config: RunScript.RunnerConfig, boots: nat) returns (node: Node)
    requires Usable(policy) && RunScript.Configured(config)
    ensures node.Valid() && Legal(node.trace) && node.store.records == After(node.trace).store
  {
    hide Invariant, Legal, After, RunScript.Configured;
    node := new Node(policy);
    var worker := new PackageHarnessWorker(node, config);
    var boot := 0;
    while boot < boots
      invariant node.Valid() && node.now.mode.Recovering?
      invariant fresh(node) && fresh(node.Objects())
    {
      var rounds: nat, patience: nat := *, *;
      var ended := worker.Run(rounds, patience);
      node.Interfere();
      node.Kill();
      boot := boot + 1;
    }
  }

  lemma LetGo(before: seq<Call>, settled: seq<Call>, asked: seq<Call>, after: seq<Call>, timeout: nat, r: Record, released: Record)
    requires SettledSince(before, settled, CleanupScript.Job(r.request.dnpName, r.worker.targetRecovery, timeout), r.evidence.initialPackages, r)
    requires after == settled + asked + [Saving(released, true)] && (asked == [] || asked == [ReadingLoss(true)])
    requires released == r.(worker := r.worker.(claimToken := None, pendingCompletionBody := None, manualRecovery := None))
    ensures LetGoSince(before, after, timeout, released)
  {
    hide SettledSince;
  }

  lemma LetGoLater(before: seq<Call>, start: seq<Call>, after: seq<Call>, timeout: nat, released: Record)
    requires before <= start && LetGoSince(start, after, timeout, released)
    ensures LetGoSince(before, after, timeout, released)
  {
    hide SettledSince;
  }

  lemma LossWasRead(before: seq<Call>, asked: seq<Call>, after: seq<Call>, lost: bool)
    requires |before| < |asked| && before <= asked && asked[|asked| - 1] == ReadingLoss(lost) && asked <= after
    ensures LossReadSince(before, after, lost)
  {
    assert after[|asked| - 1] == ReadingLoss(lost);
  }

  lemma SettledIsLater(before: seq<Call>, settled: seq<Call>, timeout: nat, r: Record)
    requires SettledSince(before, settled, CleanupScript.Job(r.request.dnpName, r.worker.targetRecovery, timeout), r.evidence.initialPackages, r)
    ensures before <= settled
  {
    hide ReconciledByScript;
  }

  lemma QuietInAnyMode(s: State, mode: Mode)
    ensures Quiet(s) <==> Quiet(s.(mode := mode))
  {
  }

  lemma RelyKeepsMode(before: State, after: State)
    requires Rely(before, after)
    ensures after.mode == before.mode
  {
  }

  lemma ClaimIsStartable(request: RunRequest, claimToken: ClaimToken)
    ensures Startable(NO_HISTORY, ClaimedRecord(request, claimToken)) && ClaimedRecord(request, claimToken).status.Queued?
  {
  }

  lemma NoneUnresolved(s: State, unresolved: set<RunId>)
    requires unresolved == (set id | id in s.store && s.store[id].RequiresWorkerAttention()) && unresolved == {}
    ensures Quiet(s)
  {
    forall id | id in s.store
      ensures !s.store[id].RequiresWorkerAttention()
    {
      assert id !in unresolved;
    }
  }

  /** The error for several unresolved jobs cannot occur: there is exactly one. */
  lemma OnlyOneUnresolved(s: State, unresolved: set<RunId>, id: RunId)
    requires Invariant(s) && id in unresolved
    requires unresolved == set other | other in s.store && s.store[other].RequiresWorkerAttention()
    ensures unresolved == {id} && OthersQuiet(s, id)
  {
    hide RunsHold;
    forall other | other in s.store && other != id
      ensures !s.store[other].RequiresWorkerAttention()
    {
    }
  }

  lemma PendingIsUnacknowledged(h: History, r: Record)
    requires RunInvariant(r, h) && r.worker.pendingCompletionBody.Some?
    ensures !r.worker.completionAcknowledged
  {
    hide CommitmentsHold, CleanupIsEarned, OutcomeIsConsistent;
  }

  /** A loaded record that needs attention is owned, and has a result only if it completed. */
  lemma AttentionIsOwned(h: History, r: Record)
    requires RunInvariant(r, h) && r.RequiresWorkerAttention() && r.worker.pendingCompletionBody.None? && r.worker.manualRecovery.None?
    requires !h.delivery.stopped
    ensures Owned(h, r, r) && !r.worker.completionAcknowledged && (r.result.Some? ==> r.status.Completed?)
  {
    hide SaveAllowed, CommitmentsHold, CleanupIsEarned;
    assert Unresolved(r.worker);
    LoadedIsOwned(h, r);
  }

  lemma ResultStatesCleanup(h: History, r: Record)
    requires r.result.Some? && h.control.recovered
    ensures StatesCleanup(h, r)
  {
  }

  lemma UndeliveredIsUnheld(h: History, stored: Record)
    requires Undelivered(h, stored)
    ensures stored.worker.manualRecovery.None?
  {
  }

  lemma UndeliveredSurvives(before: State, after: State, id: RunId)
    requires Untouched(before, after, id) && id in before.store && Undelivered(HistoryOf(before, id), before.store[id])
    ensures after.mode == before.mode && after.store == before.store
    ensures Undelivered(HistoryOf(after, id), after.store[id]) && after.store[id].worker.workerError.None? && !HistoryOf(after, id).control.recovered
    ensures Aborted(HistoryOf(before, id), before.store[id]) ==> Aborted(HistoryOf(after, id), after.store[id])
  {
  }

  lemma OwnedIsUndelivered(h: History, stored: Record, r: Record)
    requires Owned(h, stored, r)
    ensures r.worker.pendingCompletionBody.None? && !r.worker.completionAcknowledged && !h.delivery.stopped
  {
  }

  /** Preparing a completion can only fail on a record whose save was published though it failed. */
  lemma OnlyTornWedges(h: History, r: Record)
    requires RunInvariant(r, h) && Owned(h, r, r) && (r.result.Some? || r.worker.workerError.Some?)
    requires CompletionOf(r).Err?
    ensures CompletionOf(r).error.BothOutcomes? && h.torn
  {
    hide CommitmentsHold, CleanupIsEarned, DeliveryIsConsistent, SaveAllowed;
  }

  lemma InvariantHoldsFor(s: State, id: RunId)
    requires Invariant(s) && id in s.store
    ensures RunInvariant(s.store[id], HistoryOf(s, id))
  {
  }

  lemma SaveMoves(before: State, after: State, id: RunId, r: Record, ok: bool)
    requires id in before.store && SaveResult(before, after, id, r, ok) && Invariant(after) && before.mode == Driving(id)
    ensures after.mode == before.mode && id in after.store && (ok ==> after.store[id] == r)
    ensures !ok ==> HistoryOf(after, id).failed
    ensures HistoryOf(before, id).control.signals.lost ==> HistoryOf(after, id).control.signals.lost
    ensures before.store[id].worker.manualRecovery.None? ==>
              && HistoryOf(after, id).execution == HistoryOf(before, id).execution
              && HistoryOf(after, id).control.recovered == HistoryOf(before, id).control.recovered
  {
    hide RunsHold, AtMostOneUnresolved;
  }
}
