/**
 * The worker protocol as a trace of effects.
 *
 * Everything the worker, an operator, the heartbeat or a crash does to durable state, to the package
 * manager or towards the coordinator is one Event. `Guard` is what an event must respect, `Apply` what
 * it changes, and a trace is `Legal` when every event respects its guard. The worker and operator code
 * (Runtime, Reconciliation, Controller, Worker, Operator) is proved to emit legal traces only; what legal traces
 * guarantee over whole runs is proved in Guarantees and Recoveries.
 */
module Protocol {
  import opened Wrappers
  import opened Model
  import Comparisons
  import Stabilization

  // ---------------------------------------------------------------- events

  /** A mutating call on the run's target. An install without a reference means the latest published release. */
  datatype Mutation =
    | RemovePackage(deleteVolumes: bool)
    | InstallPackage(baseline: Option<string>)
    | InstallBypassingSignature(baseline: Option<string>)
    | UpdatePackage(candidate: string)

  datatype Side = Baseline | Candidate

  datatype OperatorAction = ContinueAfterCleanup | ConfirmCleanup | RetryCompletion | AcceptCoordinatorResult

  /** Process lifecycle, the polling loop and the drain control. */
  datatype TaskStep =
    | Crashed
    | GateReached
    | GatePassed
    | ClaimSent
    | JobOffered
    | Paused
    | Resumed
    | Stopped
    | DrainRequested
    | DrainMarked
    | DrainResumed

  /** What happens to one run. A torn save was published but reported as failed. */
  datatype RunStep =
    | RecoveryStarted
    | Created(record: Record)
    | Saved(record: Record, torn: bool)
    | StoreFailed
    | AlgorithmEntered
    | Signalled(lost: bool)
    | Checked(proceed: bool)
    | Listed(packages: seq<PackageSummary>)
    | Mutated(mutation: Mutation, forward: bool)
    | UpdateSucceeded
    | Captured(side: Side, capture: CaptureEvidence)
    | Sent(body: CompletionBody)
    | Answered(duplicate: bool)
    | Rebuffed(conflict: bool)
    | OperatorActed(action: OperatorAction)

  datatype Event = Task(task: TaskStep) | Run(id: RunId, run: RunStep)

  // ---------------------------------------------------------------- state

  /** What the worker task is doing. Only the store survives a crash. */
  datatype Mode =
    | Recovering
    | AtGate          // inside wait_until_accepting
    | Polling         // past the gate, about to send a claim
    | Claiming        // a claim request is in flight
    | Holding         // a claimed job is in memory only
    | Driving(id: RunId)
    | Waiting         // paused for an operator
    | Halted

  datatype DrainState = Accepting | Draining | Drained

  datatype Execution = Execution(
    entered: nat,       // times the algorithm was entered
    mutations: nat,     // package mutations issued
    updates: nat,       // candidate updates issued
    lastForward: bool,  // the last mutation was not a cleanup mutation
    updated: bool,      // an update call returned success
    bypassed: bool)     // a signature bypass was issued

  datatype Signals = Signals(
    flagged: bool,  // the current control signal is not Continue
    lost: bool)     // the coordinator reported the claim as lost since recovery last took the run up

  datatype Control = Control(
    recovered: bool,                  // recovery took the run up, after a crash or an operator's resume
    signals: Signals,
    cleared: Option<ExecutionPhase>)  // phase in which Continue was last observed

  datatype Observed = Observed(
    listings: seq<seq<PackageSummary>>,  // inventories read since the last mutation
    baseline: Option<CaptureEvidence>,
    candidate: Option<CaptureEvidence>)

  datatype Delivery = Delivery(
    body: Option<CompletionBody>,  // the completion body ever stored
    sent: bool,
    recorded: bool,                // the coordinator recorded the completion
    repeated: bool,                // it had recorded it before
    conflicted: bool,              // the coordinator rejected the completion as conflicting
    stopped: bool,                 // it did, or it rejected the credentials, and recovery did not start over since
    accepted: bool)                // an operator accepted the coordinator's result
  {
    predicate Answered() {
      recorded || repeated
    }

    /** The coordinator gave this answer. */
    predicate Gave(disposition: Disposition) {
      (disposition.Recorded? && recorded) || (disposition.Duplicate? && repeated)
    }
  }

  /** What the trace says about one run, beside its stored record. */
  datatype History = History(
    execution: Execution,
    control: Control,
    observed: Observed,
    delivery: Delivery,
    everPassed: bool,  // a stored record showed cleanup passed
    failed: bool,      // the store reported a failure while the run was driven
    torn: bool)        // some write was published but reported as failed

  const NO_HISTORY := History(
    Execution(0, 0, 0, false, false, false), Control(false, Signals(false, false), None), Observed([], None, None),
    Delivery(None, false, false, false, false, false, false), false, false, false)

  datatype State = State(store: map<RunId, Record>, runs: map<RunId, History>, mode: Mode, drain: DrainState)

  const INITIAL_STATE := State(map[], map[], Recovering, Accepting)

  function HistoryOf(s: State, id: RunId): History {
    if id in s.runs then s.runs[id] else NO_HISTORY
  }

  predicate Quiet(s: State) {
    forall id :: id in s.store ==> !s.store[id].RequiresWorkerAttention()
  }

  predicate OthersQuiet(s: State, id: RunId) {
    forall other :: other in s.store && other != id ==> !s.store[other].RequiresWorkerAttention()
  }

  predicate SomeoneIsHeld(s: State) {
    exists id :: id in s.store && s.store[id].worker.manualRecovery.Some?
  }

  // ---------------------------------------------------------------- operator steps

  datatype OperatorError = NotFound | NotWaiting | NotCleanup | NotCompletionConflict | CleanupNotConfirmed | MissingCompletion

  function ManualCleanup(r: Record): Record {
    r.(cleanup := CleanupResult(CleanupPassed, []))
  }

  /** What an operator action makes of a stored record, or why it is refused. */
  function OperatorStep(r: Record, action: OperatorAction): Result<Record, OperatorError> {
    if r.worker.manualRecovery.None? then Err(NotWaiting)
    else match action
      case ContinueAfterCleanup =>
        if !r.worker.cleanupRequired || r.worker.manualRecovery != Some(CleanupHold) then Err(NotCleanup)
        else Ok(ManualCleanup(r).(worker := r.worker.(manualRecovery := None)))
      case ConfirmCleanup =>
        if !r.worker.cleanupRequired then Err(NotCleanup) else Ok(ManualCleanup(r))
      case RetryCompletion => Resolve(r, r.worker.(manualRecovery := None))
      case AcceptCoordinatorResult =>
        Resolve(r, r.worker.(manualRecovery := None, pendingCompletionBody := None, claimToken := None,
        completionAcknowledged := true, completionDisposition := Some(OperatorAcceptedCoordinator)))
  }

  function Resolve(r: Record, resolved: WorkerState): Result<Record, OperatorError> {
    if r.worker.manualRecovery != Some(CompletionConflictHold) then Err(NotCompletionConflict)
    else if !(r.cleanup.status.CleanupPassed? || r.cleanup.status.CleanupSkipped?) then Err(CleanupNotConfirmed)
    else if r.worker.pendingCompletionBody.None? then Err(MissingCompletion)
    else Ok(r.(worker := resolved))
  }

  // ---------------------------------------------------------------- facts about one run

  /** The recovery plan restores the target exactly when the recorded inventory had it. */
  predicate PlanMatchesInventory(plan: TargetRecoveryPlan, initial: seq<PackageSummary>, target: DnpName) {
    plan.RestoreLatest? <==> Installed(initial, target)
  }

  /** Neither a core package nor the harness itself is ever a target. */
  predicate SafePlan(plan: TargetRecoveryPlan, initial: seq<PackageSummary>, target: DnpName) {
    PlanMatchesInventory(plan, initial, target) && !InstalledAsCore(initial, target) && target != HARNESS_DNP_NAME
  }

  /** The inventory read last allows the target to be tested. */
  predicate Admitted(listings: seq<seq<PackageSummary>>, target: DnpName) {
    target != HARNESS_DNP_NAME && listings != [] && !InstalledAsCore(listings[|listings| - 1], target)
  }

  /** The target is the harness itself, or a core package by the inventory read last. */
  predicate Refused(listings: seq<seq<PackageSummary>>, target: DnpName) {
    target == HARNESS_DNP_NAME || (listings != [] && InstalledAsCore(listings[|listings| - 1], target))
  }

  /** A worker error is what happened to the run. */
  predicate IsTruthful(code: WorkerErrorCode, h: History, target: DnpName) {
    match code
    case InterruptedRun => h.control.recovered
    case UnsupportedJob => !h.control.recovered && h.execution.entered == 0 && Refused(h.observed.listings, target)
    case UnexpectedWorkerError => !h.control.recovered && h.execution.entered == 0 && h.observed.listings == []
    case LocalPersistenceFailed => !h.control.recovered && h.failed
    case CleanupFailedError => false
  }

  function PackageNames(packages: seq<PackageSummary>): set<DnpName> {
    set p | p in packages :: p.dnpName
  }

  /**
   * Cleanup was verified after the last mutation: the inventory read last holds nothing that was not
   * there before the run, and the one read before it shows the target present or absent as planned.
   */
  predicate Verified(listings: seq<seq<PackageSummary>>, plan: TargetRecoveryPlan, initial: seq<PackageSummary>, target: DnpName) {
    && |listings| >= 2
    && PackageNames(listings[|listings| - 1]) <= PackageNames(initial)
    && (plan.RestoreLatest? <==> Installed(listings[|listings| - 2], target))
  }

  /** A worker error reports cleanup that passed, or that no cleanup was ever needed. */
  predicate Honest(body: CompletionBody, h: History) {
    body.outcome.WorkerErrorOutcome? ==>
      || (body.outcome.error.cleanupStatus.CleanupPassed? && h.everPassed)
      || (body.outcome.error.cleanupStatus.CleanupSkipped? && h.execution.mutations == 0)
  }

  function CleanupOf(outcome: CompletionOutcome): CleanupStatus {
    match outcome
    case ResultOutcome(result) => result.cleanup.status
    case WorkerErrorOutcome(error) => error.cleanupStatus
  }

  /** Failed cleanup is only delivered for a run that recovery took up. */
  predicate DeliversCleanup(body: CompletionBody, h: History) {
    h.control.recovered || !Comparisons.CleanupOutcomeFailed(CleanupOf(body.outcome))
  }

  /**
   * A claim is let go without an acknowledgement only when it was lost, and only with its target settled: cleanup
   * was never owed, or passed. A run that was not recovered may also have been cleaned up in vain.
   */
  predicate MayRelease(h: History, r: Record) {
    && h.control.signals.lost
    && (r.worker.cleanupRequired ==>
          || r.cleanup.status.CleanupPassed?
          || (!h.control.recovered && r.CleanupFailed() && !h.execution.lastForward))
  }

  /** The coordinator's answer is stored: the run is resolved for good. */
  predicate CoordinatorAcknowledged(w: WorkerState) {
    w.completionDisposition == Some(Recorded) || w.completionDisposition == Some(Duplicate)
  }

  /** The worker pauses for cleanup when cleanup failed or is still owed, or the store failed. */
  predicate MayHold(h: History, r: Record) {
    h.failed || r.CleanupFailed() || (r.worker.cleanupRequired && !r.cleanup.status.CleanupPassed?)
  }

  /** The completion a record is owed: its normal result, or else its worker error. */
  predicate IsCompletionOf(body: CompletionBody, r: Record) {
    && r.worker.claimToken == Some(body.claimToken)
    && match body.outcome
       case ResultOutcome(result) => r.result == Some(result) && r.worker.workerError.None? && result.runId == r.request.runId
       case WorkerErrorOutcome(error) => r.result.None? && r.worker.workerError == Some(error)
  }

  /** A passed hard check left the whole required run of identical all-running samples in the evidence. */
  predicate PassMeansStable(c: CaptureEvidence) {
    c.stabilization.passed ==> Stabilization.StableWindow(c.stabilization, REQUIRED_SAMPLES)
  }

  /** The side was stable, was what its preview promised, and is what the record stores as evidence. */
  predicate SidePassed(stored: Option<CaptureEvidence>, observed: Option<CaptureEvidence>) {
    && observed.Some?
    && stored == Some(PersistedCapture(observed.value))
    && observed.value.stabilization.passed
    && PassMeansStable(observed.value)
    && observed.value.preview.Some? && observed.value.details.Some? && Comparisons.AppliedAsPreviewed(observed.value)
  }

  /** Everything a verdict of Passed stands for. */
  predicate PassedIsJustified(evidence: RunEvidence, result: HarnessResult, h: History) {
    && SidePassed(evidence.baseline, h.observed.baseline)
    && SidePassed(evidence.candidate, h.observed.candidate)
    && h.execution.updated && !h.execution.bypassed
    && h.everPassed
    && result.cleanup == CleanupResult(CleanupPassed, [])
  }

  // ---------------------------------------------------------------- guards

  /** A save keeps the request and what a destructive run has committed to. */
  predicate SaveKeepsCommitments(h: History, stored: Record, r: Record) {
    && r.request == stored.request
    && r.evidence == PersistedEvidence(r.evidence)
    && (!stored.status.Queued? ==> !r.status.Queued?)
    && (r.status.Queued? ==> !r.worker.cleanupRequired)
    && (r.worker.cleanupRequired ==>
          && SafePlan(r.worker.targetRecovery, r.evidence.initialPackages, r.request.dnpName)
          && h.execution.entered == 1)
    && (stored.worker.cleanupRequired ==>
          && r.worker.cleanupRequired
          && r.worker.targetRecovery == stored.worker.targetRecovery
          && r.evidence.initialPackages == stored.evidence.initialPackages)
  }

  /** A stored cleanup status is earned. */
  predicate SaveEarnsCleanup(h: History, r: Record) {
    && (r.cleanup.status.CleanupSkipped? ==> !r.worker.cleanupRequired)
    && (r.cleanup.status.CleanupPassed? ==>
          h.everPassed || Verified(h.observed.listings, r.worker.targetRecovery, r.evidence.initialPackages, r.request.dnpName))
    && (h.everPassed && !r.cleanup.status.CleanupPassed? ==>
          r.worker.pendingCompletionBody.Some? || !r.RequiresWorkerAttention())
  }

  /** There is one completion body, prepared once from the record it is stored with. */
  predicate SaveKeepsDelivery(h: History, stored: Record, r: Record) {
    var w := r.worker;
    && (w.pendingCompletionBody.Some? ==>
          || h.delivery.body == w.pendingCompletionBody
          || (h.delivery.body.None? && IsCompletionOf(w.pendingCompletionBody.value, r)
              && Honest(w.pendingCompletionBody.value, h) && DeliversCleanup(w.pendingCompletionBody.value, h)))
    && (h.delivery.body.Some? && r.RequiresWorkerAttention() ==> w.pendingCompletionBody.Some?)
    && (r.RequiresWorkerAttention() ==> w.claimToken.Some? && !w.completionAcknowledged)
    && (w.completionAcknowledged ==> w.completionDisposition.Some? && (stored.worker.completionAcknowledged || h.delivery.Answered()))
    && (w.completionDisposition == Some(OperatorAcceptedCoordinator) ==> stored.worker.completionDisposition == w.completionDisposition)
    && (CoordinatorAcknowledged(w) ==>
          w.completionAcknowledged && !r.RequiresWorkerAttention() && h.delivery.Gave(w.completionDisposition.value))
    && (CoordinatorAcknowledged(stored.worker) ==> w == stored.worker)
    && stored.worker.manualRecovery != Some(CleanupHold)
    && (stored.RequiresWorkerAttention() && !r.RequiresWorkerAttention() ==> w.completionAcknowledged || MayRelease(h, r))
    && (w.manualRecovery == Some(CleanupHold) ==> w.pendingCompletionBody.None? && MayHold(h, r))
    && (w.manualRecovery == Some(CompletionConflictHold) ==> w.pendingCompletionBody.Some? && h.delivery.conflicted)
    && (stored.worker.manualRecovery.Some? ==> w.pendingCompletionBody.Some? || !r.RequiresWorkerAttention())
  }

  /** The outcome of a run is decided once. */
  predicate SaveKeepsOutcome(h: History, stored: Record, r: Record) {
    && (r.result.Some? && r.worker.workerError.Some? ==> h.torn)
    && (r.worker.workerError.Some? && r.worker.workerError != stored.worker.workerError ==>
          IsTruthful(r.worker.workerError.value.code, h, r.request.dnpName))
    && (stored.result.Some? ==>
          && r.result == stored.result
          && r.evidence.baseline == stored.evidence.baseline
          && r.evidence.candidate == stored.evidence.candidate)
    && (r.result.Some? ==> r.status.Completed? && r.result.value.runId == r.request.runId)
    && (r.result.Some? && stored.result.None? ==> !h.execution.lastForward && !h.control.recovered)
    && (r.result.Some? && stored.result.None? && r.result.value.verdict.Passed? ==>
          PassedIsJustified(r.evidence, r.result.value, h))
  }

  /** What a worker save may make of the stored record. */
  predicate SaveAllowed(h: History, stored: Record, r: Record) {
    && SaveKeepsCommitments(h, stored, r)
    && SaveEarnsCleanup(h, r)
    && SaveKeepsDelivery(h, stored, r)
    && SaveKeepsOutcome(h, stored, r)
  }

  /** The phase in which each forward mutation belongs. */
  function MutationPhase(m: Mutation): ExecutionPhase {
    if m.UpdatePackage? then CandidateInstall else BaselineInstall
  }

  /** A forward mutation applies what the request names and never deletes volumes. */
  predicate AppliesRequest(m: Mutation, request: RunRequest) {
    match m
    case RemovePackage(deleteVolumes) => !deleteVolumes
    case InstallPackage(baseline) => baseline == request.baselineRef
    case InstallBypassingSignature(baseline) => baseline == request.baselineRef
    case UpdatePackage(candidate) => candidate == request.candidateRef
  }

  /** A cleanup mutation follows the stored plan: volumes go only when nothing is to be restored. */
  predicate AppliesPlan(m: Mutation, plan: TargetRecoveryPlan) {
    match m
    case RemovePackage(deleteVolumes) => deleteVolumes <==> plan.Remove?
    case InstallPackage(baseline) => plan.RestoreLatest? && baseline.None?
    case _ => false
  }

  predicate MutationAllowed(h: History, stored: Record, m: Mutation, forward: bool) {
    && stored.worker.cleanupRequired
    && stored.RequiresWorkerAttention()
    && stored.worker.pendingCompletionBody.None? && stored.worker.manualRecovery.None?
    && !stored.cleanup.status.CleanupPassed?
    && (if forward then
          && !h.control.recovered && h.execution.entered == 1
          && stored.status.Running? && stored.result.None?
          && stored.phase == MutationPhase(m) && h.control.cleared == Some(stored.phase)
          && (m.UpdatePackage? ==> h.execution.updates == 0)
          && AppliesRequest(m, stored.request)
        else AppliesPlan(m, stored.worker.targetRecovery))
  }

  /** What a step must respect towards the run it is about, given its stored record. */
  predicate RunGuard(h: History, stored: Record, e: RunStep) {
    match e
    case RecoveryStarted =>
      && stored.RequiresWorkerAttention()
      && (stored.worker.manualRecovery.None? || stored.worker.pendingCompletionBody.Some?)
    case Created(_) => false
    case Saved(r, _) => SaveAllowed(h, stored, r)
    case StoreFailed => true
    case AlgorithmEntered =>
      && stored.status.Running? && stored.worker.manualRecovery.None?
      && h.execution.entered == 0 && !h.control.recovered
      && Admitted(h.observed.listings, stored.request.dnpName)
    case Signalled(_) => true
    case Checked(proceed) => proceed ==> !h.control.signals.flagged
    case Listed(_) => true
    case Mutated(m, forward) => MutationAllowed(h, stored, m, forward)
    case UpdateSucceeded => h.execution.updates > 0
    case Captured(side, capture) =>
      && stored.result.None? && stored.worker.manualRecovery.None?
      && PassMeansStable(capture)
      && (if side.Baseline? then h.execution.updates == 0 else h.execution.updated)
    case Sent(body) => h.delivery.body == Some(body) && !h.delivery.stopped
    case Answered(_) => h.delivery.sent
    case Rebuffed(_) => h.delivery.sent
    case OperatorActed(action) => OperatorStep(stored, action).Ok?
  }

  /** What a run step must respect towards the worker task: only operators act beside it. */
  predicate DrivingGuard(s: State, id: RunId, e: RunStep) {
    match e
    case RecoveryStarted => s.mode.Recovering? && OthersQuiet(s, id)
    case OperatorActed(_) => true
    case _ => s.mode == Driving(id)
  }

  predicate CreateGuard(s: State, id: RunId, r: Record) {
    && s.mode.Holding?
    && id !in s.store
    && r.request.runId == id
    && r.worker.claimToken.Some?
    && r == ClaimedRecord(r.request, r.worker.claimToken.value)
  }

  predicate TaskGuard(s: State, e: TaskStep) {
    match e
    case GateReached => Quiet(s) && !s.mode.Holding? && !s.mode.Waiting? && !s.mode.Halted?
    case JobOffered => s.mode.Claiming?
    case GatePassed => s.mode.AtGate? && s.drain.Accepting?
    case ClaimSent => s.mode.Polling?
    case Paused =>
      && !s.mode.AtGate? && !s.mode.Halted?
      && (s.mode.Claiming? || SomeoneIsHeld(s))
    case Resumed => s.mode.Waiting?
    case DrainMarked => s.mode.AtGate? && s.drain.Draining?
    case _ => true
  }

  predicate Guard(s: State, e: Event) {
    match e
    case Task(step) => TaskGuard(s, step)
    case Run(id, step) =>
      if step.Created? then CreateGuard(s, id, step.record)
      else id in s.store && DrivingGuard(s, id, step) && RunGuard(HistoryOf(s, id), s.store[id], step)
  }

  // ---------------------------------------------------------------- effects

  function NextRecord(stored: Record, e: RunStep): Record {
    match e
    case Saved(r, _) => r
    case OperatorActed(action) => if OperatorStep(stored, action).Ok? then OperatorStep(stored, action).value else stored
    case _ => stored
  }

  function NextExecution(x: Execution, e: RunStep): Execution {
    match e
    case AlgorithmEntered => x.(entered := x.entered + 1)
    case Mutated(m, forward) =>
      x.(mutations := x.mutations + 1,
      updates := x.updates + (if m.UpdatePackage? then 1 else 0),
      bypassed := x.bypassed || m.InstallBypassingSignature?,
      lastForward := forward)
    case UpdateSucceeded => x.(updated := true)
    case _ => x
  }

  function NextControl(c: Control, stored: Record, e: RunStep): Control {
    match e
    case RecoveryStarted => c.(recovered := true, signals := Signals(false, false))
    case Signalled(lost) => c.(signals := Signals(true, c.signals.lost || lost))
    case Checked(proceed) => if proceed then c.(cleared := Some(stored.phase)) else c
    case Saved(r, _) => if r.phase == stored.phase then c else c.(cleared := None)
    case _ => c
  }

  function NextObserved(o: Observed, e: RunStep): Observed {
    match e
    case Listed(packages) => o.(listings := o.listings + [packages])
    case Mutated(_, _) => o.(listings := [])
    case Captured(side, capture) =>
      if side.Baseline? then o.(baseline := Some(capture)) else o.(candidate := Some(capture))
    case _ => o
  }

  function NextDelivery(d: Delivery, e: RunStep): Delivery {
    match e
    case Saved(r, _) => if r.worker.pendingCompletionBody.Some? then d.(body := r.worker.pendingCompletionBody) else d
    case Sent(_) => d.(sent := true)
    case Answered(duplicate) => if duplicate then d.(repeated := true) else d.(recorded := true)
    case Rebuffed(conflict) => d.(conflicted := d.conflicted || conflict, stopped := true)
    case RecoveryStarted => d.(stopped := false)
    case OperatorActed(action) => d.(accepted := d.accepted || action.AcceptCoordinatorResult?)
    case _ => d
  }

  function NextHistory(h: History, stored: Record, e: RunStep): History {
    History(NextExecution(h.execution, e), NextControl(h.control, stored, e), NextObserved(h.observed, e),
            NextDelivery(h.delivery, e),
            h.everPassed || NextRecord(stored, e).cleanup.status.CleanupPassed?,
            h.failed || e.StoreFailed? || (e.Saved? && e.torn),
            h.torn || (e.Saved? && e.torn))
  }

  function NextMode(mode: Mode, e: Event): Mode {
    match e
    case Run(id, step) => if step.RecoveryStarted? || step.Created? then Driving(id) else mode
    case Task(step) =>
      match step
      case Crashed => Recovering
      case GateReached => AtGate
      case GatePassed => Polling
      case ClaimSent => Claiming
      case JobOffered => Holding
      case Paused => Waiting
      case Resumed => Recovering
      case Stopped => Halted
      case _ => mode
  }

  function NextDrain(drain: DrainState, e: Event): DrainState {
    if e.Run? then drain
    else match e.task
      case Crashed => Accepting
      case DrainRequested => if drain.Accepting? then Draining else drain
      case DrainMarked => Drained
      case DrainResumed => Accepting
      case _ => drain
  }

  function Apply(s: State, e: Event): State {
    var mode, drain := NextMode(s.mode, e), NextDrain(s.drain, e);
    match e
    case Task(_) => State(s.store, s.runs, mode, drain)
    case Run(id, step) =>
      if step.Created? then State(s.store[id := step.record], s.runs[id := NO_HISTORY], mode, drain)
      else if id in s.store then
        State(s.store[id := NextRecord(s.store[id], step)],
              s.runs[id := NextHistory(HistoryOf(s, id), s.store[id], step)], mode, drain)
      else s
  }

  /** The state a trace leads to. */
  function After(trace: seq<Event>): State {
    if trace == [] then INITIAL_STATE else Apply(After(trace[..|trace| - 1]), trace[|trace| - 1])
  }

  /** Every event of the trace respected its guard when it happened. */
  predicate Legal(trace: seq<Event>) {
    trace == [] || (Legal(trace[..|trace| - 1]) && Guard(After(trace[..|trace| - 1]), trace[|trace| - 1]))
  }

  // ---------------------------------------------------------------- the invariant

  predicate CommitmentsHold(r: Record, h: History) {
    && r.evidence == PersistedEvidence(r.evidence)
    && h.execution.entered <= 1 && h.execution.updates <= h.execution.entered
    && (r.status.Queued? ==> h.execution.entered == 0 && !r.worker.cleanupRequired)
    && (h.execution.mutations > 0 ==> r.worker.cleanupRequired)
    && (h.execution.updates > 0 ==> h.execution.mutations > 0)
    && (r.worker.cleanupRequired ==>
          && SafePlan(r.worker.targetRecovery, r.evidence.initialPackages, r.request.dnpName)
          && h.execution.entered == 1)
  }

  predicate CleanupIsEarned(r: Record, h: History) {
    && (r.cleanup.status.CleanupSkipped? ==> !r.worker.cleanupRequired)
    && (r.cleanup.status.CleanupPassed? ==> h.everPassed)
    && (h.everPassed ==>
          r.cleanup.status.CleanupPassed? || r.worker.pendingCompletionBody.Some? || !r.RequiresWorkerAttention())
  }

  predicate DeliveryIsConsistent(r: Record, h: History) {
    var w := r.worker;
    && (w.pendingCompletionBody.Some? ==> h.delivery.body == w.pendingCompletionBody)
    && (h.delivery.body.Some? && r.RequiresWorkerAttention() ==> w.pendingCompletionBody.Some?)
    && (h.delivery.body.Some? ==> Honest(h.delivery.body.value, h) && DeliversCleanup(h.delivery.body.value, h))
    && (h.delivery.sent ==> h.delivery.body.Some?)
    && (r.RequiresWorkerAttention() ==> w.claimToken.Some? && !w.completionAcknowledged)
    && (w.completionAcknowledged ==> w.completionDisposition.Some? && (h.delivery.Answered() || h.delivery.accepted))
    && (w.completionDisposition == Some(OperatorAcceptedCoordinator) ==> h.delivery.accepted)
    && (CoordinatorAcknowledged(w) ==>
          w.completionAcknowledged && !r.RequiresWorkerAttention() && h.delivery.Gave(w.completionDisposition.value))
    && (!r.RequiresWorkerAttention() ==> h.delivery.Answered() || h.delivery.accepted || h.control.signals.lost)
    && (w.manualRecovery == Some(CleanupHold) ==> w.pendingCompletionBody.None?)
    && (w.manualRecovery == Some(CompletionConflictHold) ==> w.pendingCompletionBody.Some? && h.delivery.conflicted)
  }

  predicate OutcomeIsConsistent(r: Record, h: History) {
    && (r.result.Some? && r.worker.workerError.Some? ==> h.torn)
    && (r.result.Some? ==> r.status.Completed? && r.result.value.runId == r.request.runId && !h.execution.lastForward)
    && (r.result.Some? && r.result.value.verdict.Passed? ==> PassedIsJustified(r.evidence, r.result.value, h))
  }

  predicate RunInvariant(r: Record, h: History) {
    CommitmentsHold(r, h) && CleanupIsEarned(r, h) && DeliveryIsConsistent(r, h) && OutcomeIsConsistent(r, h)
  }

  ghost predicate RunsHold(s: State) {
    && (forall id :: id in s.store ==> s.store[id].request.runId == id && RunInvariant(s.store[id], HistoryOf(s, id)))
    && (forall id :: id !in s.store ==> HistoryOf(s, id) == NO_HISTORY)
  }

  ghost predicate AtMostOneUnresolved(s: State) {
    forall a, b :: (a in s.store && b in s.store && s.store[a].RequiresWorkerAttention()
                    && s.store[b].RequiresWorkerAttention()) ==> a == b
  }

  /** Who may need attention follows from what the worker task is doing. */
  ghost predicate TaskHolds(s: State) {
    && (s.mode.AtGate? || s.mode.Polling? || s.mode.Claiming? || s.mode.Holding? ==> Quiet(s))
    && (s.mode.Driving? ==> s.mode.id in s.store && OthersQuiet(s, s.mode.id))
    && AtMostOneUnresolved(s)
    && (s.drain.Drained? ==> Quiet(s) && (s.mode.AtGate? || s.mode.Halted?))
  }

  ghost predicate Invariant(s: State) {
    RunsHold(s) && TaskHolds(s)
  }
}
