/** The durable run record and what it is made of (src/model/run.rs, src/model/verdict.rs). */
module Model {
  import opened Wrappers
  import opened Stabilization

  type RunId = string
  type DnpName = string
  type ClaimToken = string

  /** The configured name of the harness's own package: any name, but the same one throughout. */
  const HARNESS_DNP_NAME: DnpName

  /** How many stable samples startup accepts to be asked for. */
  type SampleCount = n: nat | 1 <= n <= 20 witness 3

  /** The configured number of identical samples a hard check requires: any accepted one, but the same one throughout. */
  const REQUIRED_SAMPLES: SampleCount

  // ---------------------------------------------------------------- requests and observations

  datatype RunRequest = RunRequest(
    runId: RunId,
    dnpName: DnpName,
    candidateRef: string,
    baselineRef: Option<string>)

  datatype PackageSummary = PackageSummary(dnpName: DnpName, version: Option<string>, isCore: bool)

  datatype PackageDetails = PackageDetails(version: Option<string>, origin: Option<string>, containers: seq<Container>)

  datatype Preview = Preview(version: Option<string>, resolvedRef: Option<string>)

  datatype CaptureEvidence = CaptureEvidence(
    preview: Option<Preview>,
    details: Option<PackageDetails>,
    stabilization: StabilizationResult,
    logsCollected: bool)

  predicate Installed(packages: seq<PackageSummary>, name: DnpName) {
    exists p :: p in packages && p.dnpName == name
  }

  predicate InstalledAsCore(packages: seq<PackageSummary>, name: DnpName) {
    exists p :: p in packages && p.dnpName == name && p.isCore
  }

  // ---------------------------------------------------------------- results

  datatype Verdict = Passed | Failed | Warning | Inconclusive | InfrastructureError

  datatype ReasonCode =
    | CandidateContainersStable
    | CandidateContainersUnstable
    | CandidateInstallFailed
    | BaselineContainersUnstable
    | BaselineInstallFailed
    | BaselineSignatureInvalid
    | BaselineUnavailable
    | UnsupportedRequiredSetup
    | CorePackageRefused
    | HarnessPackageRefused
    | CleanupFailed
    | McpUnavailable
    | RequiredMcpToolsMissing
    | PersistenceFailed
    | InterruptedOnRestart
    | CancellationRequested
    | ClaimLost
    | UnexpectedError

  datatype AnalyzerStatus = Clean | Suspicious | Critical | InconclusiveAnalysis

  datatype LogAnalysis = LogAnalysis(status: AnalyzerStatus, newFindings: seq<string>, analyzerErrors: seq<string>)

  datatype Comparison = Comparison(
    baselineHardCheck: bool,
    candidateHardCheck: bool,
    baselineContainers: seq<string>,
    candidateContainers: seq<string>,
    containersAdded: set<string>,
    containersRemoved: set<string>,
    baselineVersion: Option<string>,
    candidateVersion: Option<string>,
    regressed: bool)

  datatype CleanupStatus = CleanupPending | CleanupPassed | CleanupFailed | CleanupTimedOut | CleanupSkipped

  datatype CleanupResult = CleanupResult(status: CleanupStatus, leftoverPackages: seq<DnpName>)

  datatype RunError = RunError(code: ReasonCode, phase: ExecutionPhase)

  datatype ResultSide = ResultSide(installed: bool, hardCheckPassed: bool, containerCount: nat, stableSamples: nat, logsCollected: bool)

  datatype HarnessResult = HarnessResult(
    runId: RunId,
    verdict: Verdict,
    reasonCode: ReasonCode,
    baseline: ResultSide,
    candidate: ResultSide,
    comparison: Comparison,
    logAnalysis: LogAnalysis,
    cleanup: CleanupResult,
    errors: seq<RunError>)

  // ---------------------------------------------------------------- the run record

  datatype ExecutionStatus = Queued | Running | Completed | Interrupted

  datatype ExecutionPhase =
    | QueuedPhase
    | Preflight
    | BaselinePreview
    | BaselineInstall
    | BaselineStabilization
    | BaselineCapture
    | CandidatePreview
    | CandidateInstall
    | CandidateStabilization
    | CandidateCapture
    | Analysis
    | Cleanup
    | Reporting
    | Finished

  datatype WorkerErrorCode = InterruptedRun | UnsupportedJob | CleanupFailedError | LocalPersistenceFailed | UnexpectedWorkerError

  datatype WorkerError = WorkerError(code: WorkerErrorCode, cleanupStatus: CleanupStatus)

  datatype ManualRecoveryKind = CleanupHold | CompletionConflictHold

  /** What cleanup must bring back: nothing, or the latest published release. */
  datatype TargetRecoveryPlan = Remove | RestoreLatest

  datatype CompletionOutcome = ResultOutcome(result: HarnessResult) | WorkerErrorOutcome(error: WorkerError)

  /** The serialized completion: an injective function of the claim token and the outcome. */
  datatype CompletionBody = CompletionBody(claimToken: ClaimToken, outcome: CompletionOutcome)

  datatype Disposition = Recorded | Duplicate | OperatorAcceptedCoordinator

  datatype WorkerState = WorkerState(
    claimToken: Option<ClaimToken>,
    cleanupRequired: bool,
    targetRecovery: TargetRecoveryPlan,
    workerError: Option<WorkerError>,
    pendingCompletionBody: Option<CompletionBody>,
    completionAcknowledged: bool,
    completionDisposition: Option<Disposition>,
    manualRecovery: Option<ManualRecoveryKind>)

  datatype RunEvidence = RunEvidence(
    initialPackages: seq<PackageSummary>,
    finalPackages: seq<PackageSummary>,
    baseline: Option<CaptureEvidence>,
    candidate: Option<CaptureEvidence>,
    comparison: Option<Comparison>,
    logAnalysis: Option<LogAnalysis>)

  datatype Record = Record(
    request: RunRequest,
    status: ExecutionStatus,
    phase: ExecutionPhase,
    phaseHistory: seq<ExecutionPhase>,
    evidence: RunEvidence,
    errors: seq<RunError>,
    cleanup: CleanupResult,
    result: Option<HarnessResult>,
    worker: WorkerState)
  {
    /** The record is unresolved: as long as it is, the worker claims nothing else. */
    predicate RequiresWorkerAttention() {
      || worker.manualRecovery.Some?
      || worker.pendingCompletionBody.Some?
      || (worker.claimToken.Some? && !worker.completionAcknowledged)
    }

    predicate CleanupFailed() {
      cleanup.status.CleanupFailed? || cleanup.status.CleanupTimedOut?
    }
  }

  function ClaimedRecord(request: RunRequest, claimToken: ClaimToken): Record {
    Record(request, Queued, QueuedPhase, [QueuedPhase],
           RunEvidence([], [], None, None, None, None), [], CleanupResult(CleanupPending, []), None,
           WorkerState(Some(claimToken), false, Remove, None, None, false, None, None))
  }

  /** A cleanup that was never needed counts as skipped. */
  function WorkerErrorCleanupStatus(r: Record): CleanupStatus {
    if r.cleanup.status.CleanupPending? && !r.worker.cleanupRequired then CleanupSkipped else r.cleanup.status
  }

  /** The record decided by a worker error. */
  function FailedWith(r: Record, code: WorkerErrorCode): Record {
    r.(status := Completed,
    phase := Finished,
    phaseHistory := if r.phase.Finished? then r.phaseHistory else r.phaseHistory + [Finished],
    cleanup := r.cleanup.(status := WorkerErrorCleanupStatus(r)),
    worker := r.worker.(workerError := Some(WorkerError(code, WorkerErrorCleanupStatus(r)))))
  }

  /** The record of a run that recovery found unfinished. */
  function InterruptedBy(r: Record): Record {
    r.(status := Interrupted, errors := r.errors + [RunError(InterruptedOnRestart, r.phase)])
  }

  function HeldFor(r: Record, kind: ManualRecoveryKind): Record {
    r.(worker := r.worker.(manualRecovery := Some(kind)))
  }

  /** `resolved_ref` is skipped by serialization: it only lives in memory. */
  function PersistedCapture(capture: CaptureEvidence): CaptureEvidence {
    if capture.preview.Some? then capture.(preview := Some(capture.preview.value.(resolvedRef := None))) else capture
  }

  function PersistedEvidence(evidence: RunEvidence): RunEvidence {
    evidence.(
    baseline := if evidence.baseline.Some? then Some(PersistedCapture(evidence.baseline.value)) else None,
    candidate := if evidence.candidate.Some? then Some(PersistedCapture(evidence.candidate.value)) else None)
  }

  /** The record as the running process holds and edits it. */
  class RunRecord {
    var request: RunRequest
    var status: ExecutionStatus
    var phase: ExecutionPhase
    var phaseHistory: seq<ExecutionPhase>
    var evidence: RunEvidence
    var errors: seq<RunError>
    var cleanup: CleanupResult
    var result: Option<HarnessResult>
    var worker: WorkerState

    /** The record as it is in memory. */
    function Memory(): Record
      reads this
    {
      Record(request, status, phase, phaseHistory, evidence, errors, cleanup, result, worker)
    }

    /** What a save of this record writes. */
    function Snapshot(): Record
      reads this
    {
      Memory().(evidence := PersistedEvidence(evidence))
    }

    constructor Claimed(request: RunRequest, claimToken: ClaimToken)
      ensures Snapshot() == ClaimedRecord(request, claimToken)
    {
      this.request, status, phase, phaseHistory := request, Queued, QueuedPhase, [QueuedPhase];
      evidence, errors := RunEvidence([], [], None, None, None, None), [];
      cleanup, result := CleanupResult(CleanupPending, []), None;
      worker := WorkerState(Some(claimToken), false, Remove, None, None, false, None, None);
    }

    /** A record read back from the store. */
    constructor Loaded(r: Record)
      requires r.evidence == PersistedEvidence(r.evidence)
      ensures Snapshot() == r && Memory() == r
      ensures request == r.request && status == r.status && evidence == r.evidence
      ensures cleanup == r.cleanup && result == r.result && worker == r.worker
    {
      new;
      Reload(r);
    }

    /** `*record = store.get(..)`. */
    method Reload(r: Record)
      requires r.evidence == PersistedEvidence(r.evidence)
      modifies this
      ensures Snapshot() == r && Memory() == r
      ensures request == r.request && status == r.status && evidence == r.evidence
      ensures cleanup == r.cleanup && result == r.result && worker == r.worker
    {
      request, status, phase, phaseHistory := r.request, r.status, r.phase, r.phaseHistory;
      evidence, errors, cleanup, result, worker := r.evidence, r.errors, r.cleanup, r.result, r.worker;
    }

    method Transition(next: ExecutionPhase)
      modifies this`phase, this`phaseHistory
      ensures Memory() == old(Memory()).(phase := next, phaseHistory := old(phaseHistory) + [next])
    {
      phase := next;
      phaseHistory := phaseHistory + [next];
    }

    method Start()
      modifies this`status
      ensures Memory() == old(Memory()).(status := Running)
    {
      status := Running;
    }

    method Interrupt()
      modifies this`status, this`errors
      ensures Snapshot() == InterruptedBy(old(Snapshot()))
    {
      status := Interrupted;
      errors := errors + [RunError(InterruptedOnRestart, phase)];
    }

    method SetManualRecovery(kind: ManualRecoveryKind)
      modifies this`worker
      ensures Snapshot() == HeldFor(old(Snapshot()), kind)
    {
      worker := worker.(manualRecovery := Some(kind));
    }

    method ClearManualRecovery()
      modifies this`worker
      ensures worker == old(worker).(manualRecovery := None)
    {
      worker := worker.(manualRecovery := None);
    }
  }
}
