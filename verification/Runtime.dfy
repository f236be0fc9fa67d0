/**
 * The world the worker runs in: durable store, package manager, coordinator, operators, heartbeat and
 * crashes.
 *
 * Every effect of the worker is a method of Node. Before each one, operators, the heartbeat and the
 * drain endpoints may act any number of times; before and after each one the process may be killed.
 * Answers of the package manager and the coordinator are arbitrary. A Node records what happens as a
 * trace, and its methods can only be called where the trace stays legal.
 */
module Runtime {
  import opened Wrappers
  import opened Model
  import opened Protocol
  import opened Progress
  import opened Store
  import opened Interference
  import opened Adapter
  import opened Calls
  import opened Stabilization
  import Invariants
  import Operator

  // ---------------------------------------------------------------- answers of the outside world

  datatype ClaimAnswer =
    | NoWork
    | Claimed(request: RunRequest, claimToken: ClaimToken)
    | ClaimAuthentication
    | UnresolvedJob
    | ClaimTransient
    | ClaimRejected

  datatype CompletionAnswer = Acknowledged(duplicate: bool) | CompletionTransient | CompletionAuthentication | Conflict | CompletionRejected

  // ---------------------------------------------------------------- the node

  predicate SignalsMatch(signals: Signals, cancelRequested: bool, claimLost: bool) {
    (signals.flagged <==> cancelRequested || claimLost) && (claimLost ==> signals.lost)
  }

  class Node {
    const store: RunStore
    const progress: WorkerProgress
    const drain: WorkerDrainControl
    const policy: MutationPolicy

    ghost var trace: seq<Event>
    ghost var now: State
    ghost var calls: seq<Call>

    ghost function Objects(): set<object> {
      {this, store, progress, drain}
    }

    ghost predicate Traced()
      reads this
    {
      Legal(trace) && now == After(trace)
    }

    /** The trace explains the store, the drain control and the control signals, and is legal. */
    ghost predicate Valid()
      reads this, store, progress, drain
    {
      && Usable(policy)
      && Traced()
      && Invariant(now)
      && store.records == now.store
      && drain.state == now.drain
      && (now.mode.Driving? ==>
            SignalsMatch(HistoryOf(now, now.mode.id).control.signals, progress.cancelRequested, progress.claimLost))
    }

    /** The worker task drives run id, whose stored record is r and whose history is h. */
    ghost predicate Drives(id: RunId)
      reads this, store, progress, drain
    {
      Valid() && now.mode == Driving(id)
    }

    ghost function Stored(id: RunId): Record
      requires id in now.store
      reads this
    {
      now.store[id]
    }

    ghost function Past(id: RunId): History
      reads this
    {
      HistoryOf(now, id)
    }

    constructor (policy: MutationPolicy)
      requires Usable(policy)
      ensures Valid() && trace == [] && now == INITIAL_STATE
      ensures fresh(store) && fresh(progress) && fresh(drain)
    {
      store := new RunStore();
      progress := new WorkerProgress();
      drain := new WorkerDrainControl();
      this.policy := policy;
      trace, now, calls := [], INITIAL_STATE, [];
    }

    /** What heartbeats report of the run. */
    predicate Publishes(phase: ExecutionPhase, cleanupRequired: bool)
      reads this, progress
    {
      progress.phase == phase && progress.cleanupRequired == cleanupRequired
    }

    /** Appends one event to the trace. */
    ghost method Note(e: Event)
      requires Traced() && Invariant(now) && Guard(now, e)
      modifies this`trace, this`now
      ensures Traced() && Invariant(now)
      ensures now == Apply(old(now), e) && trace == old(trace) + [e]
    {
      Invariants.StepKeepsInvariant(now, e);
      trace, now := trace + [e], Apply(now, e);
      assert trace[..|trace| - 1] == old(trace);
      hide Guard, Apply, Invariant;
    }

    /** The process dies: only the store survives, and recovery starts over. */
    method Kill()
      requires Valid()
      modifies Objects()
      ensures Valid() && now.mode == Recovering
      ensures calls == old(calls)
    {
      Note(Task(Crashed));
      drain.Resume();
    }

    /** Tells the heartbeat where the run is. */
    method Publish(id: RunId, phase: ExecutionPhase, cleanupRequired: bool)
      requires Drives(id)
      modifies progress
      ensures Valid() && Drives(id)
      ensures Publishes(phase, cleanupRequired)
      ensures progress.cancelRequested == old(progress.cancelRequested) && progress.claimLost == old(progress.claimLost)
    {
      hide Invariant, Legal, After;
      progress.Publish(phase, cleanupRequired);
    }

    // -------------------------------------------------------------- everyone else

    /** One operator request, on any run. */
    method OperatorRequest()
      requires Valid()
      modifies Objects()
      ensures Valid() && Rely(old(now), now)
      ensures calls == old(calls)
      ensures unchanged(progress) && unchanged(drain)
    {
      hide Guard, Apply, Invariant, OperatorStep, Rely, Legal, After;
      StoreIsPersisted(now);
      var id: RunId, choice: nat := *, *;
      var r; ghost var wrote;
      ghost var action := if choice == 0 then ContinueAfterCleanup else if choice == 1 then ConfirmCleanup
                          else if choice == 2 then AcceptCoordinatorResult else RetryCompletion;
      if choice == 0 {
        r, wrote := Operator.AcknowledgeCleanupRecovery(store, id);
      } else if choice == 1 {
        r, wrote := Operator.ConfirmManualCleanup(store, id);
      } else {
        r, wrote := Operator.ResolveCompletionConflict(store, id, choice == 2);
      }
      if wrote {
        OperatorMayAct(now, id, action);
        OperatorEventRely(now, id, action);
        Note(Run(id, OperatorActed(action)));
      } else {
        RelyIsReflexive(now);
      }
    }

    /** One heartbeat answer: it may ask for cancellation or report the claim as lost, or do nothing. */
    method HeartbeatTick()
      requires Valid()
      modifies Objects()
      ensures Valid() && Rely(old(now), now)
      ensures calls == old(calls)
      ensures old(progress.cancelRequested) ==> progress.cancelRequested
      ensures old(progress.claimLost) ==> progress.claimLost
    {
      hide Guard, Apply, Invariant, Rely, Legal, After;
      RelyIsReflexive(now);
      ghost var driven := now.mode;
      var cancel: bool, lost: bool := *, *;
      if cancel {
        progress.RequestCancellation();
      }
      if lost {
        progress.MarkClaimLost();
      }
      if driven.Driving? && (cancel || lost) {
        DrivenIsStored(now);
        SignalMayRise(now, driven.id, lost);
        SignalRely(now, driven.id, lost);
        Note(Run(driven.id, Signalled(lost)));
      }
    }

    method DrainEndpoint()
      requires Valid()
      modifies Objects()
      ensures Valid() && Rely(old(now), now)
      ensures calls == old(calls)
      ensures unchanged(progress)
    {
      hide Guard, Invariant, Rely, Legal, After;
      if * {
        drain.RequestDrain();
        DrainRely(now, DrainRequested);
        Note(Task(DrainRequested));
      } else {
        drain.Resume();
        DrainRely(now, DrainResumed);
        Note(Task(DrainResumed));
      }
    }

    /** Any number of steps of everyone but the worker task. */
    method Interfere()
      requires Valid()
      modifies Objects()
      ensures Valid() && Rely(old(now), now)
      ensures calls == old(calls)
      ensures old(progress.cancelRequested) ==> progress.cancelRequested
      ensures old(progress.claimLost) ==> progress.claimLost
    {
      hide Valid, Rely;
      RelyIsReflexive(now);
      var steps: nat := *;
      while steps > 0
        invariant Valid() && Rely(old(now), now)
        invariant calls == old(calls)
        invariant old(progress.cancelRequested) ==> progress.cancelRequested
        invariant old(progress.claimLost) ==> progress.claimLost
      {
        ghost var before := now;
        if * {
          OperatorRequest();
        } else if * {
          HeartbeatTick();
        } else {
          DrainEndpoint();
        }
        RelyIsTransitive(old(now), before, now);
        steps := steps - 1;
      }
    }

    // -------------------------------------------------------------- effects on the driven run

    /** Records a step of the driven run that has no effect outside the trace. */
    ghost method NoteStep(id: RunId, step: RunStep)
      requires Drives(id) && id in now.store && RunGuard(Past(id), Stored(id), step)
      requires !step.RecoveryStarted? && !step.Created? && !step.OperatorActed? && !step.Signalled? && !step.Saved?
      modifies this`trace, this`now
      ensures Drives(id)
      ensures Stepped(old(now), now, id, step) && Past(id).control.signals == old(Past(id)).control.signals
    {
      hide Invariant, Legal, After, RunGuard;
      StepMayHappen(now, id, step);
      Note(Run(id, step));
    }

    /** One effect on the driven run whose record nobody holds. */
    method Perform(id: RunId, step: RunStep) returns (o: Attempt<()>)
      requires Drives(id) && id in now.store && Stored(id).worker.manualRecovery.None?
      requires IsEffect(step) && RunGuard(Past(id), Stored(id), step)
      modifies Objects()
      ensures Valid()
      ensures o.Done? ==> Stepped(old(now), now, id, step)
      ensures calls == old(calls)
    {
      hide RunGuard, Invariant, Legal, After, Rely, Stepped, TaskHolds, Untouched;
      DrivenIsStored(now);
      Interfere();
      if * {
        Kill();
        return Killed;
      }
      ghost var middle := now;
      DrivenAfterRely(old(now), middle, id);
      SignalsForbidNoEffect(HistoryOf(old(now), id), Past(id).control.signals, Stored(id), step);
      NoteStep(id, step);
      StepAfterRely(old(now), middle, now, id, step);
      if * {
        Kill();
        return Killed;
      }
      o := Done(());
    }

    /** Reads the control signal at a safe boundary. */
    method CheckControl(id: RunId) returns (o: Attempt<RunControl>)
      requires Drives(id) && id in now.store && Stored(id).worker.manualRecovery.None?
      modifies Objects()
      ensures Valid()
      ensures o.Killed? ==> calls == old(calls)
      ensures o.Done? ==> calls == old(calls) + [Signalling(o.value)]
      ensures o.Done? ==> Stepped(old(now), now, id, Checked(o.value.Continue?))
      ensures o.Done? && o.value.Continue? ==> old(progress.Control().Continue?)
      ensures o.Done? && o.value.CancelRequested? ==> Past(id).control.signals.flagged
      ensures o.Done? && o.value.ClaimLostControl? ==> Past(id).control.signals.lost
    {
      hide Invariant, Legal, After, Rely, Stepped, TaskHolds, Untouched;
      DrivenIsStored(now);
      Interfere();
      if * {
        Kill();
        return Killed;
      }
      ghost var middle := now;
      DrivenAfterRely(old(now), middle, id);
      var control := progress.Control();
      NoteStep(id, Checked(control.Continue?));
      StepAfterRely(old(now), middle, now, id, Checked(control.Continue?));
      calls := calls + [Signalling(control)];
      o := Done(control);
    }

    method ReadClaimLost(id: RunId) returns (o: Attempt<bool>)
      requires Drives(id) && id in now.store && Stored(id).worker.manualRecovery.None?
      modifies Objects()
      ensures Valid()
      ensures o.Done? ==> Untouched(old(now), now, id) && (o.value ==> Past(id).control.signals.lost)
      ensures o.Killed? ==> calls == old(calls)
      ensures o.Done? ==> calls == old(calls) + [ReadingLoss(o.value)]
    {
      hide Invariant, Legal, After, Rely, TaskHolds, Untouched;
      DrivenIsStored(now);
      Interfere();
      if * {
        Kill();
        return Killed;
      }
      DrivenAfterRely(old(now), now, id);
      calls := calls + [ReadingLoss(progress.claimLost)];
      o := Done(progress.claimLost);
    }

    /** The package inventory, or an error. */
    method ListPackages(id: RunId) returns (o: Attempt<Result<seq<PackageSummary>, PackageError>>)
      requires Drives(id) && id in now.store && Stored(id).worker.manualRecovery.None?
      modifies Objects()
      ensures Valid()
      ensures o.Done? && o.value.Ok? ==> Stepped(old(now), now, id, Listed(o.value.value))
      ensures o.Done? && o.value.Err? ==> now == old(now)
      ensures o.Killed? ==> calls == old(calls)
      ensures o.Done? ==> calls == old(calls) + [Reading(None, if o.value.Ok? then Inventory(o.value.value) else ListFailed(o.value.error), 0)]
    {
      hide Invariant, Legal, After, Rely, Stepped, TaskHolds, Untouched;
      if * {
        var error: PackageError := *;
        calls := calls + [Reading(None, ListFailed(error), 0)];
        return Done(Err(error));
      }
      var packages: seq<PackageSummary> := *;
      var _ :- Perform(id, Listed(packages));
      calls := calls + [Reading(None, Inventory(packages), 0)];
      o := Done(Ok(packages));
    }

    /** A read with a deadline: it takes at most `remaining` milliseconds. */
    method ListWithin(id: RunId, remaining: nat) returns (o: Attempt<Listing>, elapsed: nat)
      requires Drives(id) && id in now.store && Stored(id).worker.manualRecovery.None?
      modifies Objects()
      ensures Valid() && elapsed <= remaining
      ensures o.Done? && o.value.Inventory? ==> Stepped(old(now), now, id, Listed(o.value.packages))
      ensures o.Done? && !o.value.Inventory? ==> now == old(now)
      ensures o.Done? && o.value.ListTimedOut? ==> elapsed == remaining
      ensures o.Killed? ==> calls == old(calls)
      ensures o.Done? ==> calls == old(calls) + [Reading(Some(remaining), o.value, elapsed)]
    {
      hide Invariant, Legal, After, Rely, Stepped, TaskHolds, Untouched;
      elapsed := *;
      if elapsed > remaining {
        elapsed := remaining;
      }
      var listing: Listing := *;
      if listing.Inventory? {
        var done := Perform(id, Listed(listing.packages));
        if done.Killed? {
          return Killed, elapsed;
        }
      } else if listing.ListTimedOut? {
        elapsed := remaining;
      }
      calls := calls + [Reading(Some(remaining), listing, elapsed)];
      o := Done(listing);
    }

    method Sleep(duration: nat)
      modifies this`calls
      ensures calls == old(calls) + [Sleeping(duration)]
    {
      calls := calls + [Sleeping(duration)];
    }

    /** Reads of the package manager that leave no trace: their answers are arbitrary. */
    method VerifyTools() returns (r: Result<bool, PackageError>)
      modifies this`calls
      ensures calls == old(calls) + [Verifying(r)]
    {
      r := *;
      calls := calls + [Verifying(r)];
    }

    method PreviewInstall(reference: Option<string>) returns (r: Result<Preview, PackageError>)
      modifies this`calls
      ensures calls == old(calls) + [Previewing(reference, r)]
    {
      r := *;
      calls := calls + [Previewing(reference, r)];
    }

    method GetPackageDetails() returns (r: Result<PackageDetails, PackageError>)
      modifies this`calls
      ensures calls == old(calls) + [Detailing(r)]
    {
      r := *;
      calls := calls + [Detailing(r)];
    }

    method GetPackageLogs() returns (r: Result<(), PackageError>)
      modifies this`calls
      ensures calls == old(calls) + [Logging(r)]
    {
      r := *;
      calls := calls + [Logging(r)];
    }

    /** What the analyzer says about the logs of a run. */
    method AnalyzeLogs() returns (r: Result<LogAnalysis, string>)
      modifies this`calls
      ensures calls == old(calls) + [Analyzing(r)]
    {
      r := *;
      calls := calls + [Analyzing(r)];
    }

    /**
     * The hard check (src/runner/stabilization.rs), whatever the package manager answers to its detail calls.
     * Others act meanwhile: a signal is first seen at any of the looks the check takes at it, and stays.
     */
    method StabilizeTarget(id: RunId, config: StabilizationConfig)
      returns (result: StabilizationResult, seen: seq<Observation>, stopped: bool)
      requires Drives(id) && id in now.store && Stored(id).worker.manualRecovery.None?
      modifies Objects()
      ensures Valid() && Untouched(old(now), now, id)
      ensures calls == old(calls) + [Measuring(seen, stopped)]
      ensures Reports(result, seen) && (result.passed <==> PassesAt(seen, config.requiredSamples))
      ensures |seen| <= 10_000 && NoEarlierPass(seen, config.requiredSamples)
      ensures stopped ==> !result.passed && !progress.Control().Continue?
      ensures !result.passed && !stopped ==> WindowIsOver(config, |seen|)
    {
      hide Invariant, Legal, After, Rely, TaskHolds, Untouched;
      hide PassesAt, Reports, NoEarlierPass, WindowIsOver, KeepsLast, Heard;
      DrivenIsStored(now);
      Interfere();
      DrivenAfterRely(old(now), now, id);
      var answers: seq<Observation>, signals: seq<bool> := *, *;
      answers, signals := answers + seq(10_000, _ => Unreadable), signals + seq(20_000, _ => false);
      if progress.Control().Continue? {
        signals := seq(20_000, _ => true);
      }
      var looks, slept;
      result, seen, looks, stopped, slept := Stabilize(answers, signals, config);
      if progress.Control().Continue? {
        NeverStopped(signals, looks, stopped);
      }
      calls := calls + [Measuring(seen, stopped)];
    }

    /** One mutating call to the package manager. */
    method Mutate(id: RunId, m: Mutation, forward: bool) returns (o: Attempt<Result<(), PackageError>>)
      requires Drives(id) && id in now.store && Stored(id).worker.manualRecovery.None?
      requires MutationAllowed(Past(id), Stored(id), m, forward)
      modifies Objects()
      ensures Valid()
      ensures o.Done? ==> Stepped(old(now), now, id, Mutated(m, forward))
      ensures o.Killed? ==> calls == old(calls)
      ensures o.Done? ==> calls == old(calls) + [Mutating(m, o.value)]
    {
      hide Stepped, Invariant, Legal, After;
      var target := store.records[id].request.dnpName;
      var _ :- Perform(id, Mutated(m, forward));
      var answer, log, seen, text := CallMutation(m, target, policy);
      calls := calls + [Mutating(m, answer)];
      o := Done(answer);
    }

    /** The candidate update; a success answer is recorded. */
    method Update(id: RunId, candidate: string) returns (o: Attempt<Result<(), PackageError>>)
      requires Drives(id) && id in now.store && Stored(id).worker.manualRecovery.None?
      requires MutationAllowed(Past(id), Stored(id), UpdatePackage(candidate), true)
      modifies Objects()
      ensures Valid()
      ensures o.Killed? ==> calls == old(calls)
      ensures o.Done? ==> calls == old(calls) + [Mutating(UpdatePackage(candidate), o.value)]
      ensures o.Done? && o.value.Err? ==> Stepped(old(now), now, id, Mutated(UpdatePackage(candidate), true))
      ensures o.Done? && o.value.Ok? ==>
                exists updated: State :: Stepped(old(now), updated, id, Mutated(UpdatePackage(candidate), true))
                                         && Stepped(updated, now, id, UpdateSucceeded)
    {
      hide Invariant, Legal, After, Rely, TaskHolds, MutationAllowed;
      o := Mutate(id, UpdatePackage(candidate), true);
      if o.Done? && o.value.Ok? {
        DrivenIsStored(now);
        NoteStep(id, UpdateSucceeded);
      }
    }

    /** Sends a completion body. Every save that was allowed before stays allowed. */
    method Send(id: RunId, body: CompletionBody, ghost r: Record) returns (o: Attempt<CompletionAnswer>)
      requires Drives(id) && id in now.store
      requires Past(id).delivery.body == Some(body) && !Past(id).delivery.stopped && SaveAllowed(Past(id), Stored(id), r)
      modifies Objects()
      ensures Valid() && calls == old(calls)
      ensures o.Done? ==>
                && Drives(id) && id in now.store
                && Past(id).delivery.body == Some(body) && SaveAllowed(Past(id), Stored(id), r)
      ensures o.Done? && o.value.Acknowledged? ==> Past(id).delivery.Gave(if o.value.duplicate then Duplicate else Recorded)
      ensures o.Done? && o.value.Conflict? ==> Past(id).delivery.conflicted
      ensures o.Done? ==> (Past(id).delivery.stopped <==> o.value.Conflict? || o.value.CompletionAuthentication?)
    {
      hide RunGuard, Stepped;
      hide SaveAllowed, Invariant, Legal, After, Rely, RunRely, TaskHolds, NextHistory;
      DrivenIsStored(now);
      Interfere();
      if * {
        Kill();
        return Killed;
      }
      RelyMoves(old(now), now, id);
      RelyKeepsBody(old(now), now, id);
      RelyKeepsSaveAllowed(old(now), now, id, r);
      NoteDelivery(id, Sent(body), r);
      var answer: CompletionAnswer := *;
      if * {
        Kill();
        return Killed;
      }
      if answer.Acknowledged? {
        NoteDelivery(id, Answered(answer.duplicate), r);
      } else if answer.Conflict? {
        NoteDelivery(id, Rebuffed(true), r);
      } else if answer.CompletionAuthentication? {
        NoteDelivery(id, Rebuffed(false), r);
      }
      o := Done(answer);
    }

    ghost method NoteDelivery(id: RunId, step: RunStep, r: Record)
      requires Drives(id) && id in now.store && SaveAllowed(Past(id), Stored(id), r)
      requires step.Sent? || step.Answered? || step.Rebuffed?
      requires if step.Sent? then Past(id).delivery.body == Some(step.body) && !Past(id).delivery.stopped else Past(id).delivery.sent
      modifies this`trace, this`now
      ensures Drives(id) && id in now.store && SaveAllowed(Past(id), Stored(id), r)
      ensures Past(id).delivery.body == old(Past(id)).delivery.body
      ensures step.Sent? ==> Past(id).delivery.sent
      ensures step.Answered? ==> Past(id).delivery.Gave(if step.duplicate then Duplicate else Recorded)
      ensures step.Rebuffed? && step.conflict ==> Past(id).delivery.conflicted
      ensures Past(id).delivery.stopped == (old(Past(id)).delivery.stopped || step.Rebuffed?)
    {
      hide SaveAllowed, Invariant, Legal, After, Rely, TaskHolds, NextHistory, RunGuard;
      CleanupIsEarnedIn(now, id);
      DeliveryKeepsSaveAllowed(Past(id), Stored(id), step, r);
      DeliveryIsGuarded(Past(id), Stored(id), step);
      DeliveryIsNoted(Past(id), Stored(id), step);
      NoteStep(id, step);
      assert Past(id) == NextHistory(old(Past(id)), old(Stored(id)), step);
    }

    // -------------------------------------------------------------- the store

    /** Reads the driven record back. */
    method Get(id: RunId) returns (o: Attempt<Result<Option<Record>, ()>>)
      requires Drives(id) && id in now.store && Stored(id).worker.manualRecovery.None?
      modifies Objects()
      ensures Valid()
      ensures o.Done? && o.value.Ok? ==> Untouched(old(now), now, id) && o.value.value == Some(old(now).store[id])
      ensures o.Done? && o.value.Err? ==> Stepped(old(now), now, id, StoreFailed)
      ensures o.Done? ==> calls == old(calls) + [Loading(if o.value.Ok? then o.value.value else None)]
      ensures o.Killed? ==> calls == old(calls)
    {
      hide Invariant, Legal, After, Rely, TaskHolds;
      DrivenIsStored(now);
      Interfere();
      if * {
        Kill();
        return Killed;
      }
      DrivenAfterRely(old(now), now, id);
      ghost var middle := now;
      var r := store.Get(id);
      if r.Err? {
        NoteStep(id, StoreFailed);
        StepAfterRely(old(now), middle, now, id, StoreFailed);
      }
      calls := calls + [Loading(if r.Ok? then r.value else None)];
      o := Done(r);
    }

    /** Saves the in-memory record. The result is whether the store reported success. */
    method Save(record: RunRecord) returns (o: Attempt<bool>)
      requires Drives(record.request.runId) && record.request.runId in now.store
      requires SaveAllowed(Past(record.request.runId), Stored(record.request.runId), record.Snapshot())
      modifies Objects()
      ensures Valid()
      ensures o.Done? ==> calls == old(calls) + [Saving(record.Snapshot(), o.value)]
      ensures o.Killed? ==> calls == old(calls)
      ensures o.Done? ==> SaveResult(old(now), now, record.request.runId, record.Snapshot(), o.value)
    {
      hide SaveAllowed, Invariant, Legal, After, Rely, SaveResult, TaskHolds, Stepped, RunRely, SignalsMatch;
      var id, r := record.request.runId, record.Snapshot();
      DrivenIsStored(now);
      Interfere();
      if * {
        Kill();
        return Killed;
      }
      ghost var middle := now;
      RelyMoves(old(now), middle, id);
      RelyKeepsSaveAllowed(old(now), middle, id, r);
      var written := store.Save(r);
      if !written.NotWritten? {
        NoteSave(id, r, written.PublishedButFailed?);
        SaveAfterRely(old(now), middle, now, id, r, written.PublishedButFailed?);
      } else {
        NoteStep(id, StoreFailed);
        FailureAfterRely(old(now), middle, now, id, r);
      }
      if * {
        Kill();
        return Killed;
      }
      calls := calls + [Saving(r, written.Written?)];
      o := Done(written.Written?);
    }

    ghost method NoteSave(id: RunId, r: Record, torn: bool)
      requires Traced() && Invariant(now) && now.mode == Driving(id) && id in now.store && r.request.runId == id
      requires drain.state == now.drain && Usable(policy)
      requires SignalsMatch(HistoryOf(now, id).control.signals, progress.cancelRequested, progress.claimLost)
      requires SaveAllowed(Past(id), Stored(id), r)
      requires store.records == now.store[id := r]
      modifies this`trace, this`now
      ensures Drives(id)
      ensures Stepped(old(now), now, id, Saved(r, torn))
      ensures Past(id).control.signals == old(Past(id)).control.signals
    {
      hide Invariant, Legal, After, SaveAllowed;
      StepMayHappen(now, id, Saved(r, torn));
      Note(Run(id, Saved(r, torn)));
    }

    // -------------------------------------------------------------- the worker task

    /** A step of the worker task that leaves the store alone. */
    ghost method NoteTask(step: TaskStep)
      requires Valid() && TaskGuard(now, step)
      requires !step.Crashed? && !step.DrainRequested? && !step.DrainResumed? && !step.DrainMarked?
      modifies this`trace, this`now
      ensures Valid() && now == old(now).(mode := NextMode(old(now).mode, Task(step)))
    {
      hide Invariant, Legal, After;
      Note(Task(step));
    }

    /** Others act while nothing needs attention. */
    method InterfereQuietly() returns (o: Attempt<()>)
      requires Valid() && Quiet(now)
      modifies Objects()
      ensures Valid()
      ensures o.Done? ==> Quiet(now) && now.mode == old(now.mode)
    {
      hide Invariant, Legal, After, Rely;
      Interfere();
      if * {
        Kill();
        return Killed;
      }
      RelyKeepsAllQuiet(old(now), now);
      o := Done(());
    }

    /** Marks the worker as drained if a drain is still wanted. */
    method MarkDrained()
      requires Valid() && now.mode.AtGate?
      modifies Objects()
      ensures Valid() && now.store == old(now.store) && now.mode == old(now.mode)
    {
      hide Invariant, Legal, After;
      if drain.state == Draining {
        drain.MarkDrained();
        Note(Task(DrainMarked));
      }
    }

    /** Asks the coordinator for work. */
    method Claim() returns (o: Attempt<ClaimAnswer>)
      requires Valid() && Quiet(now) && now.mode.Polling?
      modifies Objects()
      ensures Valid()
      ensures o.Done? ==> Quiet(now) && (if o.value.Claimed? then now.mode.Holding? else now.mode.Claiming?)
    {
      var _ :- InterfereQuietly();
      NoteTask(ClaimSent);
      var answer: ClaimAnswer := *;
      var _ :- InterfereQuietly();
      if answer.Claimed? {
        NoteTask(JobOffered);
      }
      o := Done(answer);
    }

    /** Persists a claimed record, unless its run id is taken. */
    method Create(record: RunRecord) returns (o: Attempt<bool>)
      requires Valid() && Quiet(now) && now.mode.Holding? && record.worker.claimToken.Some?
      requires record.Snapshot() == ClaimedRecord(record.request, record.worker.claimToken.value)
      modifies Objects()
      ensures Valid()
      ensures o.Done? ==> now.mode.Holding? || now.mode.Driving?
      ensures o == Done(true) ==>
                && Drives(record.request.runId) && record.request.runId in now.store
                && Stored(record.request.runId) == record.Snapshot() && Past(record.request.runId) == NO_HISTORY
    {
      hide Invariant, Legal, After;
      var _ :- InterfereQuietly();
      var created := store.Create(record.Snapshot());
      if created.Written? || created.PublishedButFailed? {
        Note(Run(record.request.runId, Created(record.Snapshot())));
        progress.Reset();
      }
      if * {
        Kill();
        return Killed;
      }
      o := Done(created.Written?);
    }

    /** Reads every record. */
    method LoadAll() returns (o: Attempt<Result<map<RunId, Record>, ()>>)
      requires Valid()
      modifies Objects()
      ensures Valid()
      ensures o.Done? ==> now.mode == old(now.mode)
      ensures o.Done? && o.value.Ok? ==> o.value.value == now.store
    {
      hide Invariant, Legal, After;
      Interfere();
      if * {
        Kill();
        return Killed;
      }
      var loaded := store.LoadAll();
      o := Done(loaded);
    }

    /** Recovery takes up an unresolved run, with fresh control signals. */
    method StartRecovery(id: RunId)
      requires Valid() && now.mode.Recovering? && id in now.store
      requires Stored(id).RequiresWorkerAttention() && OthersQuiet(now, id)
      requires Stored(id).worker.manualRecovery.None? || Stored(id).worker.pendingCompletionBody.Some?
      modifies Objects()
      ensures Drives(id) && now.store == old(now.store)
      ensures Past(id).control.recovered && !Past(id).delivery.stopped
    {
      hide Invariant, Legal, After, RunInvariant;
      Note(Run(id, RecoveryStarted));
      progress.Reset();
    }
  }

  lemma DrivenAfterRely(before: State, after: State, id: RunId)
    requires Rely(before, after) && TaskHolds(before) && before.mode == Driving(id)
    requires before.store[id].worker.manualRecovery.None?
    ensures Untouched(before, after, id) && after.mode == before.mode && after.store == before.store
    ensures HistoryOf(after, id) == Flagged(HistoryOf(before, id), HistoryOf(after, id).control.signals)
  {
    RelyLeavesDrivenRun(before, after, id);
  }

  lemma RelyKeepsBody(before: State, after: State, id: RunId)
    requires Rely(before, after) && id in before.store
    ensures HistoryOf(after, id).delivery.body == HistoryOf(before, id).delivery.body
    ensures HistoryOf(after, id).delivery.stopped == HistoryOf(before, id).delivery.stopped
  {
    assert RunRely(before, after, id);
  }

  lemma CleanupIsEarnedIn(s: State, id: RunId)
    requires Invariant(s) && id in s.store
    ensures CleanupIsEarned(s.store[id], HistoryOf(s, id))
  {
    assert RunInvariant(s.store[id], HistoryOf(s, id));
  }

  lemma DeliveryIsGuarded(h: History, stored: Record, step: RunStep)
    requires step.Sent? || step.Answered? || step.Rebuffed?
    requires if step.Sent? then h.delivery.body == Some(step.body) && !h.delivery.stopped else h.delivery.sent
    ensures RunGuard(h, stored, step)
  {
    hide SaveAllowed;
  }

  lemma DeliveryIsNoted(h: History, stored: Record, step: RunStep)
    requires step.Sent? || step.Answered? || step.Rebuffed?
    ensures step.Sent? ==> NextHistory(h, stored, step).delivery.sent
    ensures NextHistory(h, stored, step).control.signals == h.control.signals
  {
  }

  lemma DrivenIsStored(s: State)
    requires Invariant(s) && s.mode.Driving?
    ensures s.mode.id in s.store && TaskHolds(s)
  {
  }

  lemma RelyMoves(before: State, after: State, id: RunId)
    requires Rely(before, after) && id in before.store
    ensures after.mode == before.mode && id in after.store && RunRely(before, after, id)
  {
  }

  lemma SignalMayRise(s: State, id: RunId, lost: bool)
    requires s.mode == Driving(id) && id in s.store
    ensures Guard(s, Run(id, Signalled(lost)))
    ensures var after := Apply(s, Run(id, Signalled(lost))); after.mode == s.mode && after.drain == s.drain
  {
  }

  lemma StepMayHappen(s: State, id: RunId, step: RunStep)
    requires s.mode == Driving(id) && id in s.store && RunGuard(HistoryOf(s, id), s.store[id], step)
    requires !step.RecoveryStarted? && !step.Created? && !step.OperatorActed? && !step.Signalled?
    ensures Guard(s, Run(id, step))
    ensures var after := Apply(s, Run(id, step));
            && Stepped(s, after, id, step) && after.drain == s.drain
            && HistoryOf(after, id).control.signals == HistoryOf(s, id).control.signals
    ensures !step.Saved? ==> Apply(s, Run(id, step)).store == s.store
  {
    hide RunGuard, OperatorStep;
  }

  lemma StoreIsPersisted(s: State)
    requires Invariant(s)
    ensures Operator.StoresPersisted(s.store)
  {
    hide CleanupIsEarned, DeliveryIsConsistent, OutcomeIsConsistent;
  }

  lemma OperatorMayAct(s: State, id: RunId, action: OperatorAction)
    requires id in s.store && OperatorStep(s.store[id], action).Ok?
    ensures Guard(s, Run(id, OperatorActed(action)))
    ensures var after := Apply(s, Run(id, OperatorActed(action)));
            && after.mode == s.mode && after.drain == s.drain
            && forall other :: HistoryOf(after, other).control == HistoryOf(s, other).control
  {
    hide OperatorStep;
  }
}
