/**
 * Where the guarantees end. Each lemma plays one run event for event, with the records the worker and the
 * controller write, in which a stronger claim would be false. What the controller does in between is a
 * scripted execution, and its events are those of its calls.
 */
module Limits {
  import opened Wrappers
  import opened Model
  import opened Protocol
  import opened Guarantees
  import opened Progress
  import opened Adapter
  import opened Calls
  import opened RunScript
  import CleanupScript
  import Comparisons

  const ID: RunId := "run"
  const TARGET: DnpName := HARNESS_DNP_NAME + "-tested"
  const CLAIMED := ClaimedRecord(RunRequest(ID, TARGET, "candidate", None), "token")

  /** The only run is driven. */
  function Driven(r: Record, h: History): State {
    State(map[ID := r], map[ID := h], Driving(ID), Accepting)
  }

  /** A history without captures, updates, deliveries, signals or failures. */
  function Past(listings: seq<seq<PackageSummary>>, entered: nat, cleared: Option<ExecutionPhase>, mutations: nat, lastForward: bool): History {
    NO_HISTORY.(
    execution := NO_HISTORY.execution.(entered := entered, mutations := mutations, lastForward := lastForward),
    control := NO_HISTORY.control.(cleared := cleared),
    observed := NO_HISTORY.observed.(listings := listings))
  }

  // ---------------------------------------------------------------- building traces

  lemma Extend(trace: seq<Event>, e: Event) returns (longer: seq<Event>)
    requires Legal(trace) && Guard(After(trace), e)
    ensures longer == trace + [e] && Legal(longer) && After(longer) == Apply(After(trace), e)
  {
    longer := trace + [e];
    assert longer[..|longer| - 1] == trace;
    hide Guard, Apply;
  }

  /** One step of the driven run. */
  lemma Step(trace: seq<Event>, r: Record, h: History, step: RunStep, k: History) returns (longer: seq<Event>)
    requires Legal(trace) && After(trace) == Driven(r, h) && RunGuard(h, r, step) && !step.RecoveryStarted? && !step.Created?
    requires k == NextHistory(h, r, step)
    ensures longer == trace + [Run(ID, step)] && Legal(longer)
    ensures After(longer) == Driven(NextRecord(r, step), k)
  {
    hide Legal, After, RunGuard, NextRecord, NextHistory;
    longer := Extend(trace, Run(ID, step));
    assert After(longer) == Driven(NextRecord(r, step), k);
  }

  /** What recovery leaves of a history. */
  function TakenUp(h: History): History {
    h.(control := h.control.(recovered := true, signals := Signals(false, false)), delivery := h.delivery.(stopped := false))
  }

  /** The process dies and recovery takes the run up again. */
  lemma Restart(trace: seq<Event>, r: Record, h: History) returns (longer: seq<Event>)
    requires Legal(trace) && After(trace) == Driven(r, h) && r.RequiresWorkerAttention()
    requires r.worker.manualRecovery.None? || r.worker.pendingCompletionBody.Some?
    requires r.cleanup.status.CleanupPassed? ==> h.everPassed
    ensures longer == trace + [Task(Crashed), Run(ID, RecoveryStarted)] && Legal(longer)
    ensures After(longer) == Driven(r, TakenUp(h))
  {
    hide Legal, After;
    longer := Extend(trace, Task(Crashed));
    longer := Extend(longer, Run(ID, RecoveryStarted));
    assert After(longer) == Driven(r, TakenUp(h));
  }

  lemma Tell(trace: seq<Event>, step: TaskStep) returns (longer: seq<Event>)
    requires Legal(trace) && TaskGuard(After(trace), step)
    ensures longer == trace + [Task(step)] && Legal(longer) && After(longer) == Apply(After(trace), Task(step))
  {
    longer := Extend(trace, Task(step));
  }

  lemma EmptyIsLegal()
    ensures Legal([]) && After([]) == INITIAL_STATE
  {
  }

  /** The first boot: nothing to recover, the gate before polling and the gate of the first round, one claim, and the record of the job. */
  const ARRIVAL: seq<Event> := [
    Task(GateReached), Task(GatePassed), Task(GateReached), Task(GatePassed), Task(ClaimSent), Task(JobOffered), Run(ID, Created(CLAIMED))]

  lemma Arrive() returns (trace: seq<Event>)
    ensures trace == ARRIVAL && Legal(trace) && After(trace) == Driven(CLAIMED, NO_HISTORY)
  {
    hide Legal, After;
    trace := [];
    EmptyIsLegal();
    trace := Tell(trace, GateReached);
    trace := Tell(trace, GatePassed);
    trace := Tell(trace, GateReached);
    trace := Tell(trace, GatePassed);
    trace := Tell(trace, ClaimSent);
    trace := Tell(trace, JobOffered);
    trace := Extend(trace, Run(ID, Created(CLAIMED)));
    assert After(trace) == Driven(CLAIMED, NO_HISTORY);
  }

  // ---------------------------------------------------------------- holds nobody can resolve

  const STOPPED := HeldFor(InterruptedBy(CLAIMED), CleanupHold)

  /** A run that never owed cleanup is held when its interruption cannot be saved at once; no operator action resolves that. */
  lemma UnneededHoldIsStuck() returns (trace: seq<Event>)
    ensures trace == ARRIVAL + [
                       Task(Crashed), Run(ID, RecoveryStarted), Run(ID, StoreFailed), Run(ID, Saved(STOPPED, false)), Task(Paused)]
    ensures Legal(trace) && ID in After(trace).store
    ensures After(trace).store[ID].RequiresWorkerAttention() && !Releasable(After(trace).store[ID])
  {
    hide Legal, After;
    trace := Arrive();
    trace := Restart(trace, CLAIMED, NO_HISTORY);
    var h := TakenUp(NO_HISTORY);
    trace := Step(trace, CLAIMED, h, StoreFailed, h.(failed := true));
    h := h.(failed := true);
    trace := Step(trace, CLAIMED, h, Saved(STOPPED, false), h);
    trace := Pause(trace, STOPPED, h);
    ReleaseConditions(STOPPED);
  }

  lemma Pause(trace: seq<Event>, r: Record, h: History) returns (longer: seq<Event>)
    requires Legal(trace) && After(trace) == Driven(r, h) && r.worker.manualRecovery.Some?
    ensures longer == trace + [Task(Paused)] && Legal(longer) && After(longer) == Driven(r, h).(mode := Waiting)
  {
    hide Legal, After;
    assert ID in After(trace).store && After(trace).store[ID].worker.manualRecovery.Some?;
    longer := Tell(trace, Paused);
  }

  const BLOCKED := HeldFor(CLAIMED, CleanupHold)

  /** So is one whose start could not be stored, and its recovery not either, without any crash. */
  lemma AbortedHoldIsStuck() returns (trace: seq<Event>)
    ensures trace == ARRIVAL + [
                       Run(ID, Listed([])), Run(ID, StoreFailed), Run(ID, StoreFailed), Run(ID, Saved(BLOCKED, false)), Task(Paused)]
    ensures Legal(trace) && ID in After(trace).store
    ensures After(trace).store[ID].RequiresWorkerAttention() && !Releasable(After(trace).store[ID])
  {
    hide Legal, After;
    var h := Past([[]], 0, None, 0, false);
    trace := Arrive();
    trace := Step(trace, CLAIMED, NO_HISTORY, Listed([]), h);
    trace := Step(trace, CLAIMED, h, StoreFailed, h.(failed := true));
    h := h.(failed := true);
    trace := Step(trace, CLAIMED, h, StoreFailed, h);
    trace := Step(trace, CLAIMED, h, Saved(BLOCKED, false), h);
    trace := Pause(trace, BLOCKED, h);
    ReleaseConditions(BLOCKED);
  }

  // ---------------------------------------------------------------- scripted executions

  /** The events of a call of the execution: entering the algorithm belongs to the save that marks the start. */
  function EventsOf(call: Call): seq<Event> {
    match call
    case Saving(r, stored) =>
      if !stored then [Run(ID, StoreFailed)]
      else if r.phase.QueuedPhase? then [Run(ID, Saved(r, false)), Run(ID, AlgorithmEntered)]
      else [Run(ID, Saved(r, false))]
    case Signalling(control) => [Run(ID, Checked(control.Continue?))]
    case Reading(_, listing, _) => if listing.Inventory? then [Run(ID, Listed(listing.packages))] else []
    case Mutating(m, _) => [Run(ID, Mutated(m, m != RemovePackage(true)))]
    case _ => []
  }

  function AllEvents(calls: seq<Call>): seq<Event> {
    if calls == [] then [] else AllEvents(calls[..|calls| - 1]) + EventsOf(calls[|calls| - 1])
  }

  lemma MoreEvents(calls: seq<Call>, call: Call)
    ensures AllEvents(calls + [call]) == AllEvents(calls) + EventsOf(call)
  {
    assert (calls + [call])[..|calls|] == calls;
  }

  /** An admitted job: the inventory shows nothing. */
  const ADMISSION: seq<Event> := ARRIVAL + [Run(ID, Listed([]))]

  /** No crash, and no hold is stored. */
  predicate Undisturbed(trace: seq<Event>) {
    forall e :: e in trace ==> e != Task(Crashed) && (e.Run? && e.run.Saved? ==> e.run.record.worker.manualRecovery.None?)
  }

  lemma StaysUndisturbed(trace: seq<Event>, e: Event)
    requires Undisturbed(trace) && e != Task(Crashed) && (e.Run? && e.run.Saved? ==> e.run.record.worker.manualRecovery.None?)
    ensures Undisturbed(trace + [e])
  {
  }

  /** The calls follow the script to this stage, and with their events after the admission the trace is legal and leads here. */
  ghost predicate Plays(config: RunnerConfig, calls: seq<Call>, stage: Stage, trace: seq<Event>, r: Record, h: History) {
    && StageOf(config, calls) == stage
    && trace == ADMISSION + AllEvents(calls) && Legal(trace) && After(trace) == Driven(r, h)
    && Undisturbed(trace)
  }

  /** A call without events. */
  lemma Ask(config: RunnerConfig, calls: seq<Call>, stage: Stage, trace: seq<Event>, r: Record, h: History, call: Call, next: Stage)
    returns (longer: seq<Call>)
    requires Plays(config, calls, stage, trace, r, h) && EventsOf(call) == [] && Next(config, stage, call) == next
    ensures longer == calls + [call] && Plays(config, longer, next, trace, r, h)
  {
    hide Legal, After, Next;
    longer := calls + [call];
    NextStage(config, calls, call);
    MoreEvents(calls, call);
  }

  /** A call with one event. */
  lemma Act(config: RunnerConfig, calls: seq<Call>, stage: Stage, trace: seq<Event>, r: Record, h: History,
            call: Call, next: Stage, step: RunStep, k: History)
    returns (more: seq<Call>, longer: seq<Event>)
    requires Plays(config, calls, stage, trace, r, h) && EventsOf(call) == [Run(ID, step)] && Next(config, stage, call) == next
    requires RunGuard(h, r, step) && !step.RecoveryStarted? && !step.Created? && k == NextHistory(h, r, step)
    requires step.Saved? ==> step.record.worker.manualRecovery.None?
    ensures more == calls + [call] && longer == trace + [Run(ID, step)]
    ensures Plays(config, more, next, longer, NextRecord(r, step), k)
  {
    hide Legal, After, Next, RunGuard, NextHistory, NextRecord;
    more := calls + [call];
    NextStage(config, calls, call);
    MoreEvents(calls, call);
    longer := Step(trace, r, h, step, k);
    StaysUndisturbed(trace, Run(ID, step));
    hide Undisturbed;
  }

  // ---------------------------------------------------------------- the first steps of an execution

  const STARTED := CLAIMED.(status := Running)
  const PREFLIGHT := Phased(STARTED, Preflight)

  lemma Admit(config: RunnerConfig) returns (calls: seq<Call>, trace: seq<Event>)
    ensures calls == [Loading(Some(CLAIMED))]
    ensures Plays(config, calls, At(SaveStart, STARTED), trace, CLAIMED, Past([[]], 0, None, 0, false))
  {
    hide Legal, After;
    var h := Past([[]], 0, None, 0, false);
    trace := Arrive();
    trace := Step(trace, CLAIMED, NO_HISTORY, Listed([]), h);
    calls := Ask(config, [], Unloaded, trace, CLAIMED, h, Loading(Some(CLAIMED)), At(SaveStart, STARTED));
  }

  /** The run is marked as started and enters its algorithm. */
  lemma Enter(config: RunnerConfig) returns (calls: seq<Call>, trace: seq<Event>)
    ensures calls == [Loading(Some(CLAIMED)), Saving(STARTED, true)]
    ensures Plays(config, calls, At(SavePhase(ToPreflight), PREFLIGHT), trace, STARTED, Past([[]], 1, None, 0, false))
  {
    hide Legal, After, StageOf, AllEvents;
    var h := Past([[]], 0, None, 0, false);
    calls, trace := Admit(config);
    assert |TARGET| != |HARNESS_DNP_NAME|;
    trace := Step(trace, CLAIMED, h, Saved(STARTED, false), h);
    trace := Step(trace, STARTED, h, AlgorithmEntered, Past([[]], 1, None, 0, false));
    var call := Saving(STARTED, true);
    NextStage(config, calls, call);
    MoreEvents(calls, call);
    calls := calls + [call];
  }

  /** The first phase is stored and found clear. */
  lemma EnterPreflight(config: RunnerConfig) returns (calls: seq<Call>, trace: seq<Event>)
    ensures calls == [Loading(Some(CLAIMED)), Saving(STARTED, true), Saving(PREFLIGHT, true), Signalling(Continue)]
    ensures Plays(config, calls, At(VerifyTools, PREFLIGHT), trace, PREFLIGHT, Past([[]], 1, Some(Preflight), 0, false))
  {
    hide Plays;
    calls, trace := Enter(config);
    calls, trace := Act(config, calls, At(SavePhase(ToPreflight), PREFLIGHT), trace, STARTED, Past([[]], 1, None, 0, false),
                        Saving(PREFLIGHT, true), At(ReadSignal(ToPreflight), PREFLIGHT), Saved(PREFLIGHT, false), Past([[]], 1, None, 0, false));
    calls, trace := Act(config, calls, At(ReadSignal(ToPreflight), PREFLIGHT), trace, PREFLIGHT, Past([[]], 1, None, 0, false),
                        Signalling(Continue), At(VerifyTools, PREFLIGHT), Checked(true), Past([[]], 1, Some(Preflight), 0, false));
  }

  // ---------------------------------------------------------------- a torn save

  const UNREACHABLE := PackageError(Transport, false, false)
  const NO_TOOLS: Failure := Comparisons.Failure(InfrastructureError, McpUnavailable)
  const UNTESTED := Concluding(Unowed(Failing(PREFLIGHT, NO_TOOLS)), Some(NO_TOOLS))
  const BOTH := FailedWith(UNTESTED, LocalPersistenceFailed)

  lemma ToolsFail(config: RunnerConfig) returns (calls: seq<Call>, trace: seq<Event>)
    ensures Plays(config, calls, At(SaveVerdict, UNTESTED), trace, PREFLIGHT, Past([[]], 1, Some(Preflight), 0, false))
  {
    hide Plays, Concluding;
    calls, trace := EnterPreflight(config);
    calls := Ask(config, calls, At(VerifyTools, PREFLIGHT), trace, PREFLIGHT, Past([[]], 1, Some(Preflight), 0, false),
                 Verifying(Err(UNREACHABLE)), At(SaveVerdict, UNTESTED));
  }

  /**
   * A result that was published although its save failed is joined by a worker error, and can no longer
   * be delivered: the worker stops, and no operator can do anything, for nothing is held.
   */
  lemma TornSaveWedges(config: RunnerConfig) returns (calls: seq<Call>, trace: seq<Event>)
    ensures StageOf(config, calls) == At(SaveVerdict, UNTESTED)
    ensures trace == ADMISSION + AllEvents(calls) + [
                       Run(ID, Saved(UNTESTED, true)), Run(ID, Saved(UNTESTED, false)), Run(ID, Saved(BOTH, false)), Task(Stopped)]
    ensures Legal(trace) && ID in After(trace).store && After(trace).store[ID] == BOTH
    ensures BOTH.result.Some? && BOTH.worker.workerError.Some? && BOTH.worker.manualRecovery.None?
    ensures forall body :: !IsCompletionOf(body, BOTH)
  {
    hide Legal, After, StageOf, AllEvents, Undisturbed, SaveAllowed, Concluding, FailedWith;
    calls, trace := ToolsFail(config);
    var h := Past([[]], 1, Some(Preflight), 0, false);
    var k := NextHistory(h, PREFLIGHT, Saved(UNTESTED, true));
    UntestedMaySave(h, k);
    trace := Step(trace, PREFLIGHT, h, Saved(UNTESTED, true), k);
    trace := Step(trace, UNTESTED, k, Saved(UNTESTED, false), k);
    trace := Step(trace, UNTESTED, k, Saved(BOTH, false), k);
    trace := Tell(trace, Stopped);
  }

  lemma UntestedMaySave(h: History, k: History)
    requires h == Past([[]], 1, Some(Preflight), 0, false) && k == NextHistory(h, PREFLIGHT, Saved(UNTESTED, true))
    ensures SaveAllowed(h, PREFLIGHT, UNTESTED) && SaveAllowed(k, UNTESTED, UNTESTED) && SaveAllowed(k, UNTESTED, BOTH)
    ensures k == NextHistory(k, UNTESTED, Saved(UNTESTED, false)) == NextHistory(k, UNTESTED, Saved(BOTH, false))
    ensures BOTH.result.Some? && BOTH.worker.workerError.Some? && BOTH.worker.manualRecovery.None?
  {
  }

  // ---------------------------------------------------------------- a run whose cleanup fails

  const REJECTED := PackageError(Tool, false, false)
  const LATEST := Preview(None, None)
  const NOT_INSTALLED: Failure := InfrastructureFailure(BaselineInstallFailed)
  const PREVIEWING := Phased(PREFLIGHT, BaselinePreview)
  const INSTALLING := Phased(PREVIEWING, BaselineInstall)
  const OWED := Owing(INSTALLING)
  const CLEANING := Phased(Failing(OWED, NOT_INSTALLED), Cleanup)
  const CLEANED := CleanedBy(CLEANING, CleanupStatus.CleanupFailed, Inventory([]))
  const UNCLEAN := Concluding(CLEANED, Some(NOT_INSTALLED))

  const INSPECTED := Past([[], []], 1, Some(Preflight), 0, false)
  const UNCLEARED := Past([[], []], 1, None, 0, false)
  const CLEARED := Past([[], []], 1, Some(BaselineInstall), 0, false)
  const INSTALLED := Past([], 1, Some(BaselineInstall), 1, true)
  const LEFT := Past([], 1, None, 1, true)
  const REMOVED := Past([], 1, None, 2, false)
  const RECONCILED := Past([[]], 1, None, 2, false)

  /** The inventory shows nothing, and the plan to remove the target is stored with it. */
  lemma PlanRemoval(config: RunnerConfig) returns (calls: seq<Call>, trace: seq<Event>)
    ensures Plays(config, calls, At(SavePhase(ToBaselinePreview), PREVIEWING), trace, PREFLIGHT, INSPECTED)
  {
    hide Plays;
    calls, trace := EnterPreflight(config);
    calls := Ask(config, calls, At(VerifyTools, PREFLIGHT), trace, PREFLIGHT, Past([[]], 1, Some(Preflight), 0, false),
                 Verifying(Ok(true)), At(ReadInventory, PREFLIGHT));
    calls, trace := Act(config, calls, At(ReadInventory, PREFLIGHT), trace, PREFLIGHT, Past([[]], 1, Some(Preflight), 0, false),
                        Reading(None, Inventory([]), 0), At(SaveInventory, PREFLIGHT), Listed([]), INSPECTED);
    calls, trace := Act(config, calls, At(SaveInventory, PREFLIGHT), trace, PREFLIGHT, INSPECTED,
                        Saving(PREFLIGHT, true), At(SavePlan, PREFLIGHT), Saved(PREFLIGHT, false), INSPECTED);
    calls, trace := Act(config, calls, At(SavePlan, PREFLIGHT), trace, PREFLIGHT, INSPECTED,
                        Saving(PREFLIGHT, true), At(SavePhase(ToBaselinePreview), PREVIEWING), Saved(PREFLIGHT, false), INSPECTED);
  }

  /** The latest release is previewed, and the installation may begin. */
  lemma PreviewLatest(config: RunnerConfig) returns (calls: seq<Call>, trace: seq<Event>)
    ensures Plays(config, calls, At(SaveObligation(ToBaselineInstall(LATEST, false)), OWED), trace, INSTALLING, CLEARED)
  {
    hide Plays;
    calls, trace := PlanRemoval(config);
    calls, trace := Act(config, calls, At(SavePhase(ToBaselinePreview), PREVIEWING), trace, PREFLIGHT, INSPECTED,
                        Saving(PREVIEWING, true), At(ReadSignal(ToBaselinePreview), PREVIEWING), Saved(PREVIEWING, false), UNCLEARED);
    calls, trace := Act(config, calls, At(ReadSignal(ToBaselinePreview), PREVIEWING), trace, PREVIEWING, UNCLEARED,
                        Signalling(Continue), At(PreviewBaseline, PREVIEWING), Checked(true),
                        Past([[], []], 1, Some(BaselinePreview), 0, false));
    calls := Ask(config, calls, At(PreviewBaseline, PREVIEWING), trace, PREVIEWING, Past([[], []], 1, Some(BaselinePreview), 0, false),
                 Previewing(None, Ok(LATEST)), At(SavePhase(ToBaselineInstall(LATEST, false)), INSTALLING));
    calls, trace := InstallPhase(config, calls, trace);
  }

  lemma InstallPhase(config: RunnerConfig, before: seq<Call>, start: seq<Event>) returns (calls: seq<Call>, trace: seq<Event>)
    requires Plays(config, before, At(SavePhase(ToBaselineInstall(LATEST, false)), INSTALLING), start, PREVIEWING,
                   Past([[], []], 1, Some(BaselinePreview), 0, false))
    ensures Plays(config, calls, At(SaveObligation(ToBaselineInstall(LATEST, false)), OWED), trace, INSTALLING, CLEARED)
  {
    hide Plays;
    var b := ToBaselineInstall(LATEST, false);
    calls, trace := Act(config, before, At(SavePhase(b), INSTALLING), start, PREVIEWING, Past([[], []], 1, Some(BaselinePreview), 0, false),
                        Saving(INSTALLING, true), At(ReadSignal(b), INSTALLING), Saved(INSTALLING, false), UNCLEARED);
    calls, trace := Act(config, calls, At(ReadSignal(b), INSTALLING), trace, INSTALLING, UNCLEARED,
                        Signalling(Continue), At(SaveObligation(b), OWED), Checked(true), CLEARED);
  }

  /** Cleanup becomes owed, and the installation is rejected. */
  lemma InstallRejected(config: RunnerConfig) returns (calls: seq<Call>, trace: seq<Event>)
    ensures Plays(config, calls, At(SaveCleanupPhase(Some(NOT_INSTALLED)), CLEANING), trace, OWED, INSTALLED)
  {
    hide Plays;
    calls, trace := PreviewLatest(config);
    assert |TARGET| != |HARNESS_DNP_NAME|;
    calls, trace := Act(config, calls, At(SaveObligation(ToBaselineInstall(LATEST, false)), OWED), trace, INSTALLING, CLEARED,
                        Saving(OWED, true), At(InstallBaseline(LATEST), OWED), Saved(OWED, false), CLEARED);
    calls, trace := Act(config, calls, At(InstallBaseline(LATEST), OWED), trace, OWED, CLEARED,
                        Mutating(InstallPackage(None), Err(REJECTED)), At(SaveCleanupPhase(Some(NOT_INSTALLED)), CLEANING),
                        Mutated(InstallPackage(None), true), INSTALLED);
  }

  /** The removal fails too, nothing is left over by the inventory, and the result with its failed cleanup is stored. */
  lemma FinishUnclean(config: RunnerConfig) returns (calls: seq<Call>, trace: seq<Event>)
    ensures Plays(config, calls, Ended(true, UNCLEAN), trace, UNCLEAN, RECONCILED)
  {
    hide Plays, Concluding, RunGuard, CleanedBy, SaveAllowed;
    calls, trace := StoreCleanup(config);
    UncleanMaySave();
    calls, trace := Act(config, calls, At(SaveVerdict, UNCLEAN), trace, CLEANED, RECONCILED,
                        Saving(UNCLEAN, true), Ended(true, UNCLEAN), Saved(UNCLEAN, false), RECONCILED);
  }

  lemma StoreCleanup(config: RunnerConfig) returns (calls: seq<Call>, trace: seq<Event>)
    ensures Plays(config, calls, At(SaveVerdict, UNCLEAN), trace, CLEANED, RECONCILED)
  {
    hide Plays, Concluding, RunGuard, CleanedBy, SaveAllowed;
    calls, trace := RemovalRejected(config);
    CleanedMaySave();
    calls, trace := Act(config, calls, At(SaveCleanup(Some(NOT_INSTALLED)), CLEANED), trace, CLEANING, RECONCILED,
                        Saving(CLEANED, true), At(SaveVerdict, UNCLEAN), Saved(CLEANED, false), RECONCILED);
  }

  lemma RemovalRejected(config: RunnerConfig) returns (calls: seq<Call>, trace: seq<Event>)
    ensures Plays(config, calls, At(SaveCleanup(Some(NOT_INSTALLED)), CLEANED), trace, CLEANING, RECONCILED)
  {
    hide Plays;
    var failure := Some(NOT_INSTALLED);
    calls, trace := InstallRejected(config);
    calls, trace := Act(config, calls, At(SaveCleanupPhase(failure), CLEANING), trace, OWED, INSTALLED,
                        Saving(CLEANING, true), At(CleanUp(CleanupScript.Begun, failure), CLEANING), Saved(CLEANING, false), LEFT);
    calls, trace := Act(config, calls, At(CleanUp(CleanupScript.Begun, failure), CLEANING), trace, CLEANING, LEFT,
                        Mutating(RemovePackage(true), Err(REJECTED)),
                        At(CleanUp(CleanupScript.Restored(CleanupStatus.CleanupFailed), failure), CLEANING),
                        Mutated(RemovePackage(true), false), REMOVED);
    calls, trace := Act(config, calls, At(CleanUp(CleanupScript.Restored(CleanupStatus.CleanupFailed), failure), CLEANING), trace, CLEANING, REMOVED,
                        Reading(None, Inventory([]), 0), At(SaveCleanup(failure), CLEANED), Listed([]), RECONCILED);
  }

  lemma CleanedMaySave()
    ensures RunGuard(RECONCILED, CLEANING, Saved(CLEANED, false)) && Persisted(CLEANED) == CLEANED
    ensures NextHistory(RECONCILED, CLEANING, Saved(CLEANED, false)) == RECONCILED
    ensures CLEANED.phase == Cleanup && CLEANED.worker.manualRecovery.None? && CLEANED.cleanup.status == CleanupStatus.CleanupFailed
  {
    assert |TARGET| != |HARNESS_DNP_NAME|;
  }

  lemma UncleanMaySave()
    ensures RunGuard(RECONCILED, CLEANED, Saved(UNCLEAN, false)) && UNCLEAN.CleanupFailed() && Persisted(UNCLEAN) == UNCLEAN
    ensures NextHistory(RECONCILED, CLEANED, Saved(UNCLEAN, false)) == RECONCILED
    ensures UNCLEAN.phase == Finished && UNCLEAN.worker == CLEANED.worker && UNCLEAN.worker.manualRecovery.None?
    ensures UNCLEAN.result.Some? && UNCLEAN.result.value.cleanup.status == CleanupStatus.CleanupFailed && UNCLEAN.result.value.runId == ID
  {
    assert |TARGET| != |HARNESS_DNP_NAME|;
  }

  // ---------------------------------------------------------------- failed cleanup after a crash

  const UNCLEAN_BODY := CompletionBody("token", ResultOutcome(UNCLEAN.result.value))
  const OFFERED := UNCLEAN.(worker := UNCLEAN.worker.(pendingCompletionBody := Some(UNCLEAN_BODY)))
  const OFFERING := TakenUp(RECONCILED).(delivery := NO_HISTORY.delivery.(body := Some(UNCLEAN_BODY)))

  lemma OfferMaySave()
    ensures UNCLEAN.result.Some? && UNCLEAN.RequiresWorkerAttention() && UNCLEAN.worker.manualRecovery.None? && OFFERED.worker.manualRecovery.None?
    ensures !UNCLEAN.cleanup.status.CleanupPassed? && Comparisons.CleanupOutcomeFailed(CleanupOf(UNCLEAN_BODY.outcome))
    ensures RunGuard(TakenUp(RECONCILED), UNCLEAN, Saved(OFFERED, false))
    ensures NextHistory(TakenUp(RECONCILED), UNCLEAN, Saved(OFFERED, false)) == OFFERING
  {
    hide Concluding;
    UncleanMaySave();
    assert |TARGET| != |HARNESS_DNP_NAME|;
  }

  /**
   * A crash between the final save of an execution and the hold delivers a result with failed cleanup, and
   * no record was ever held.
   */
  lemma CrashSkipsTheHold(config: RunnerConfig) returns (calls: seq<Call>, trace: seq<Event>)
    ensures StageOf(config, calls) == Ended(true, UNCLEAN)
    ensures trace == ADMISSION + AllEvents(calls) + [
                       Task(Crashed), Run(ID, RecoveryStarted), Run(ID, Saved(OFFERED, false)), Run(ID, Sent(UNCLEAN_BODY))]
    ensures Legal(trace) && Comparisons.CleanupOutcomeFailed(CleanupOf(UNCLEAN_BODY.outcome))
    ensures forall r, torn :: Run(ID, Saved(r, torn)) in trace ==> r.worker.manualRecovery.None?
  {
    hide Legal, After, StageOf, AllEvents, SaveAllowed, Concluding;
    calls, trace := FinishUnclean(config);
    OfferMaySave();
    trace := Restart(trace, UNCLEAN, RECONCILED);
    trace := Step(trace, UNCLEAN, TakenUp(RECONCILED), Saved(OFFERED, false), OFFERING);
    trace := Step(trace, OFFERED, OFFERING, Sent(UNCLEAN_BODY), OFFERING.(delivery := OFFERING.delivery.(sent := true)));
  }

  // ---------------------------------------------------------------- a lost claim

  const RELEASED := UNCLEAN.(worker := UNCLEAN.worker.(claimToken := None))
  const LOST := RECONCILED.(control := RECONCILED.control.(signals := Signals(true, true)))

  /**
   * A claim reported as lost during a run whose cleanup failed: the target is cleaned up once more, that
   * fails again, and the claim is let go all the same, unacknowledged and without a hold.
   */
  lemma LostClaimIsReleasedUnclean(config: RunnerConfig) returns (calls: seq<Call>, trace: seq<Event>)
    ensures StageOf(config, calls) == Ended(true, UNCLEAN)
    ensures trace == ADMISSION + AllEvents(calls) + [
                       Run(ID, Signalled(true)), Run(ID, Listed([])), Run(ID, Mutated(RemovePackage(true), false)), Run(ID, Listed([])),
                       Run(ID, Saved(UNCLEAN, false)), Run(ID, Saved(RELEASED, false))]
    ensures Legal(trace) && After(trace).store == map[ID := RELEASED]
    ensures RELEASED.CleanupFailed() && !RELEASED.RequiresWorkerAttention() && !RELEASED.worker.completionAcknowledged
  {
    hide Legal, After, StageOf, AllEvents, Concluding;
    calls, trace := FinishUnclean(config);
    ReleaseIsAllowed();
    trace := ReconcileLost(trace);
    trace := LetGo(trace);
  }

  lemma ReconcileLost(trace: seq<Event>) returns (longer: seq<Event>)
    requires Legal(trace) && After(trace) == Driven(UNCLEAN, RECONCILED)
    ensures longer == trace + [
                        Run(ID, Signalled(true)), Run(ID, Listed([])), Run(ID, Mutated(RemovePackage(true), false)), Run(ID, Listed([]))]
    ensures Legal(longer) && After(longer) == Driven(UNCLEAN, LOST.(execution := LOST.execution.(mutations := 3)))
  {
    hide Legal, After, Concluding, MutationAllowed;
    ReleaseIsAllowed();
    longer := Step(trace, UNCLEAN, RECONCILED, Signalled(true), LOST);
    var h := LOST.(observed := LOST.observed.(listings := [[], []]));
    longer := Step(longer, UNCLEAN, LOST, Listed([]), h);
    var k := LOST.(execution := LOST.execution.(mutations := 3), observed := LOST.observed.(listings := []));
    longer := Step(longer, UNCLEAN, h, Mutated(RemovePackage(true), false), k);
    longer := Step(longer, UNCLEAN, k, Listed([]), k.(observed := LOST.observed));
  }

  lemma LetGo(trace: seq<Event>) returns (longer: seq<Event>)
    requires Legal(trace) && After(trace) == Driven(UNCLEAN, LOST.(execution := LOST.execution.(mutations := 3)))
    ensures longer == trace + [Run(ID, Saved(UNCLEAN, false)), Run(ID, Saved(RELEASED, false))]
    ensures Legal(longer) && After(longer).store == map[ID := RELEASED]
  {
    hide Legal, After, SaveAllowed, Concluding;
    ReleaseIsAllowed();
    var h := LOST.(execution := LOST.execution.(mutations := 3));
    longer := Step(trace, UNCLEAN, h, Saved(UNCLEAN, false), h);
    longer := Step(longer, UNCLEAN, h, Saved(RELEASED, false), h);
  }

  lemma ReleaseIsAllowed()
    ensures var h := LOST.(execution := LOST.execution.(mutations := 3));
            && SaveAllowed(h, UNCLEAN, UNCLEAN) && SaveAllowed(h, UNCLEAN, RELEASED)
            && NextHistory(h, UNCLEAN, Saved(UNCLEAN, false)) == h == NextHistory(h, UNCLEAN, Saved(RELEASED, false))
    ensures MutationAllowed(LOST.(observed := LOST.observed.(listings := [[], []])), UNCLEAN, RemovePackage(true), false)
    ensures !UNCLEAN.cleanup.status.CleanupPassed? && UNCLEAN.CleanupFailed()
    ensures !RELEASED.RequiresWorkerAttention() && !RELEASED.worker.completionAcknowledged
  {
    hide Concluding;
    UncleanMaySave();
    assert |TARGET| != |HARNESS_DNP_NAME|;
  }

  // ---------------------------------------------------------------- an interruption without a restart

  const UNREADABLE_HOLD := HeldFor(OWED, CleanupHold)
  const CONTINUED := ManualCleanup(OWED)
  const INTERRUPTED := InterruptedBy(CONTINUED)
  const DECIDED := FailedWith(INTERRUPTED, InterruptedRun)
  const INTERRUPTION := CompletionBody("token", WorkerErrorOutcome(WorkerError(InterruptedRun, CleanupPassed)))
  const REPORTED := DECIDED.(worker := DECIDED.worker.(pendingCompletionBody := Some(INTERRUPTION)))
  const ABORTED := INSTALLED.(failed := true)
  const RESUMED := TakenUp(ABORTED.(everPassed := true))
  const REPORTING := RESUMED.(control := RESUMED.control.(cleared := None))

  /** The paused run is continued by an operator and taken up by the worker that was paused. */
  lemma OperatorContinues(trace: seq<Event>) returns (longer: seq<Event>)
    requires Legal(trace) && After(trace) == Driven(UNREADABLE_HOLD, ABORTED)
    ensures longer == trace + [Task(Paused), Run(ID, OperatorActed(ContinueAfterCleanup)), Task(Resumed), Run(ID, RecoveryStarted)]
    ensures Legal(longer) && After(longer) == Driven(CONTINUED, RESUMED)
  {
    hide Legal, After;
    longer := Pause(trace, UNREADABLE_HOLD, ABORTED);
    longer := Extend(longer, Run(ID, OperatorActed(ContinueAfterCleanup)));
    assert After(longer) == Driven(CONTINUED, ABORTED.(everPassed := true)).(mode := Waiting);
    longer := Extend(longer, Task(Resumed));
    longer := Extend(longer, Run(ID, RecoveryStarted));
    assert After(longer) == Driven(CONTINUED, RESUMED);
  }

  lemma InterruptionMaySave()
    ensures SaveAllowed(ABORTED, OWED, UNREADABLE_HOLD)
    ensures SaveAllowed(RESUMED, CONTINUED, INTERRUPTED) && SaveAllowed(RESUMED, INTERRUPTED, DECIDED) && SaveAllowed(REPORTING, DECIDED, REPORTED)
    ensures DECIDED.worker.workerError == Some(WorkerError(InterruptedRun, CleanupPassed))
  {
    assert |TARGET| != |HARNESS_DNP_NAME|;
  }

  /**
   * A save fails, the inventory cannot be read for its recovery, and the run is held; an operator continues
   * it, and the worker reports it as interrupted by a restart although the process never died.
   */
  lemma InterruptedWithoutCrash(config: RunnerConfig) returns (calls: seq<Call>, trace: seq<Event>)
    ensures StageOf(config, calls) == Ended(false, CLEANING)
    ensures trace == ADMISSION + AllEvents(calls) + [
                       Run(ID, Saved(UNREADABLE_HOLD, false)),
                       Task(Paused), Run(ID, OperatorActed(ContinueAfterCleanup)), Task(Resumed), Run(ID, RecoveryStarted),
                       Run(ID, Saved(INTERRUPTED, false)), Run(ID, Saved(DECIDED, false)), Run(ID, Saved(REPORTED, false)),
                       Run(ID, Sent(INTERRUPTION))]
    ensures Legal(trace) && DECIDED.worker.workerError == Some(WorkerError(InterruptedRun, CleanupPassed))
    ensures Task(Crashed) !in trace
  {
    hide Legal, After, StageOf, AllEvents, SaveAllowed, InterruptedBy, FailedWith;
    calls, trace := CleanupPhaseUnsaved(config);
    InterruptionMaySave();
    trace := Step(trace, OWED, ABORTED, Saved(UNREADABLE_HOLD, false), ABORTED);
    trace := OperatorContinues(trace);
    trace := ReportInterruption(trace);
  }

  lemma ReportInterruption(trace: seq<Event>) returns (longer: seq<Event>)
    requires Legal(trace) && After(trace) == Driven(CONTINUED, RESUMED)
    ensures longer == trace + [
                        Run(ID, Saved(INTERRUPTED, false)), Run(ID, Saved(DECIDED, false)), Run(ID, Saved(REPORTED, false)),
                        Run(ID, Sent(INTERRUPTION))]
    ensures Legal(longer)
  {
    hide Legal, After, SaveAllowed;
    InterruptionMaySave();
    longer := Step(trace, CONTINUED, RESUMED, Saved(INTERRUPTED, false), RESUMED);
    longer := Step(longer, INTERRUPTED, RESUMED, Saved(DECIDED, false), REPORTING);
    var h := REPORTING.(delivery := NO_HISTORY.delivery.(body := Some(INTERRUPTION)));
    longer := Step(longer, DECIDED, REPORTING, Saved(REPORTED, false), h);
    longer := Step(longer, REPORTED, h, Sent(INTERRUPTION), h.(delivery := h.delivery.(sent := true)));
  }

  lemma CleanupPhaseUnsaved(config: RunnerConfig) returns (calls: seq<Call>, trace: seq<Event>)
    ensures Plays(config, calls, Ended(false, CLEANING), trace, OWED, ABORTED)
  {
    hide Plays;
    calls, trace := InstallRejected(config);
    calls, trace := Act(config, calls, At(SaveCleanupPhase(Some(NOT_INSTALLED)), CLEANING), trace, OWED, INSTALLED,
                        Saving(CLEANING, false), Ended(false, CLEANING), StoreFailed, ABORTED);
  }

  // ---------------------------------------------------------------- a stale save

  const CORE := [PackageSummary(TARGET, None, true)]
  const UNSUPPORTED := FailedWith(CLAIMED, UnsupportedJob)
  const REFUSAL := CompletionBody("token", WorkerErrorOutcome(WorkerError(UnsupportedJob, CleanupSkipped)))
  const PREPARED := UNSUPPORTED.(worker := UNSUPPORTED.worker.(pendingCompletionBody := Some(REFUSAL)))
  const CONFLICTING := HeldFor(PREPARED, CompletionConflictHold)
  const REFUSED := Past([CORE], 0, None, 0, false)

  function Delivering(sent: bool, conflicted: bool, accepted: bool): History {
    REFUSED.(delivery := Delivery(Some(REFUSAL), sent, false, false, conflicted, conflicted, accepted))
  }

  lemma ConflictingMaySave()
    ensures SaveAllowed(REFUSED, CLAIMED, UNSUPPORTED) && SaveAllowed(REFUSED, UNSUPPORTED, PREPARED)
    ensures SaveAllowed(Delivering(true, true, false), PREPARED, CONFLICTING)
  {
    assert CORE[0] in CORE;
  }

  lemma Refuse() returns (trace: seq<Event>)
    ensures trace == ARRIVAL + [
                       Run(ID, Listed(CORE)), Run(ID, Saved(UNSUPPORTED, false)), Run(ID, Saved(PREPARED, false)), Run(ID, Sent(REFUSAL))]
    ensures Legal(trace) && After(trace) == Driven(PREPARED, Delivering(true, false, false))
  {
    hide Legal, After, SaveAllowed;
    ConflictingMaySave();
    trace := Arrive();
    trace := Step(trace, CLAIMED, NO_HISTORY, Listed(CORE), REFUSED);
    trace := Step(trace, CLAIMED, REFUSED, Saved(UNSUPPORTED, false), REFUSED);
    trace := Step(trace, UNSUPPORTED, REFUSED, Saved(PREPARED, false), Delivering(false, false, false));
    trace := Step(trace, PREPARED, Delivering(false, false, false), Sent(REFUSAL), Delivering(true, false, false));
  }

  lemma HoldConflict() returns (trace: seq<Event>)
    ensures trace == ARRIVAL + [
                       Run(ID, Listed(CORE)), Run(ID, Saved(UNSUPPORTED, false)), Run(ID, Saved(PREPARED, false)), Run(ID, Sent(REFUSAL)),
                       Run(ID, Rebuffed(true)), Run(ID, Saved(CONFLICTING, false)), Task(Paused)]
    ensures Legal(trace) && After(trace) == Driven(CONFLICTING, Delivering(true, true, false)).(mode := Waiting)
  {
    hide Legal, After, SaveAllowed;
    ConflictingMaySave();
    trace := Refuse();
    trace := Step(trace, PREPARED, Delivering(true, false, false), Rebuffed(true), Delivering(true, true, false));
    trace := Step(trace, PREPARED, Delivering(true, true, false), Saved(CONFLICTING, false), Delivering(true, true, false));
    trace := Pause(trace, CONFLICTING, Delivering(true, true, false));
  }

  /** The process dies while the run is held, and recovery takes up its delivery. */
  lemma TakeUpConflict() returns (trace: seq<Event>)
    ensures trace == ARRIVAL + [
                       Run(ID, Listed(CORE)), Run(ID, Saved(UNSUPPORTED, false)), Run(ID, Saved(PREPARED, false)), Run(ID, Sent(REFUSAL)),
                       Run(ID, Rebuffed(true)), Run(ID, Saved(CONFLICTING, false)), Task(Paused), Task(Crashed), Run(ID, RecoveryStarted)]
    ensures Legal(trace) && After(trace) == Driven(CONFLICTING, TakenUp(Delivering(true, true, false)))
  {
    hide Legal, After;
    trace := HoldConflict();
    trace := Extend(trace, Task(Crashed));
    trace := Extend(trace, Run(ID, RecoveryStarted));
    assert After(trace) == Driven(CONFLICTING, TakenUp(Delivering(true, true, false)));
  }

  const ACCEPTED := CONFLICTING.(worker := CONFLICTING.worker.(manualRecovery := None, pendingCompletionBody := None, claimToken := None,
  completionAcknowledged := true, completionDisposition := Some(OperatorAcceptedCoordinator)))

  /**
   * After a crash the worker sends the conflicting completion again. Meanwhile an operator accepts the
   * coordinator's result; the conflict is reported again, and the worker's save takes the acknowledgement back.
   */
  lemma StaleSaveUndoesAcceptance() returns (before: seq<Event>, trace: seq<Event>)
    ensures Legal(before) && trace == before + [
                                       Run(ID, Sent(REFUSAL)), Run(ID, OperatorActed(AcceptCoordinatorResult)),
                                       Run(ID, Rebuffed(true)), Run(ID, Saved(CONFLICTING, false))]
    ensures Legal(trace) && Guarantees.At(trace, |before| + 2).store == map[ID := ACCEPTED] && ACCEPTED.worker.completionAcknowledged
    ensures After(trace).store == map[ID := CONFLICTING] && !CONFLICTING.worker.completionAcknowledged
  {
    hide Legal, After, SaveAllowed;
    before := TakeUpConflict();
    var h := TakenUp(Delivering(true, true, false));
    trace := Step(before, CONFLICTING, h, Sent(REFUSAL), h);
    trace := Step(trace, CONFLICTING, h, OperatorActed(AcceptCoordinatorResult), TakenUp(Delivering(true, true, true)));
    var accepted := trace;
    h := TakenUp(Delivering(true, true, true));
    var k := h.(delivery := h.delivery.(stopped := true));
    trace := Step(trace, ACCEPTED, h, Rebuffed(true), k);
    StaleMaySave(k);
    trace := Step(trace, ACCEPTED, k, Saved(CONFLICTING, false), k);
    assert trace[..|before| + 2] == accepted;
  }

  lemma StaleMaySave(k: History)
    requires k == TakenUp(Delivering(true, true, true)).(delivery := Delivery(Some(REFUSAL), true, false, false, true, true, true))
    ensures SaveAllowed(k, ACCEPTED, CONFLICTING)
  {
  }
}
