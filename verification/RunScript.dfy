/**
 * Which calls the execution of a run makes, as an automaton over the calls made so far and their answers
 * (src/runner/controller.rs). Every save is a call too, with the record it writes, and its outcome an answer.
 */
module RunScript {
  import opened Wrappers
  import opened Model
  import opened Protocol
  import opened Progress
  import opened Adapter
  import opened Calls
  import CleanupScript
  import Comparisons
  import Evidence
  import Stabilization

  type Failure = Comparisons.Failure

  datatype RunnerConfig = RunnerConfig(stabilization: Stabilization.StabilizationConfig, cleanupTimeout: nat)

  /** What startup accepts, for the sample count that is configured. */
  predicate Configured(config: RunnerConfig) {
    Stabilization.Accepted(config.stabilization) && config.stabilization.requiredSamples == REQUIRED_SAMPLES
  }

  // ---------------------------------------------------------------- failures

  function PackageFailure(error: PackageError, operationReason: ReasonCode): Failure {
    Comparisons.Failure(
      InfrastructureError,
      match error.kind
      case Transport => McpUnavailable
      case Timeout => McpUnavailable
      case Configuration => UnexpectedError
      case InvalidResponse => UnexpectedError
      case _ => operationReason)
  }

  function ControlFailure(control: RunControl): Option<Failure> {
    match control
    case Continue => None
    case CancelRequested => Some(Comparisons.Failure(Inconclusive, CancellationRequested))
    case ClaimLostControl => Some(Comparisons.Failure(InfrastructureError, ClaimLost))
  }

  const PERSISTENCE_FAILURE := InfrastructureFailure(PersistenceFailed)

  function InfrastructureFailure(reason: ReasonCode): Failure {
    Comparisons.Failure(InfrastructureError, reason)
  }

  predicate IsTransientMutationFailure(error: PackageError) {
    error.kind.Timeout? || ((error.kind.Transport? || error.kind.Tool?) && error.transientText)
  }

  /** A baseline that needs setup values cannot be judged; any other failed baseline is not the candidate's fault. */
  function BaselineFailure(error: PackageError): Failure {
    if error.kind.RequiredSetup? then Comparisons.Failure(Inconclusive, UnsupportedRequiredSetup)
    else InfrastructureFailure(BaselineInstallFailed)
  }

  /** A candidate that cannot be applied fails, unless the error was transient. */
  function CandidateFailure(error: PackageError): Failure {
    Comparisons.Failure(if IsTransientMutationFailure(error) then InfrastructureError else Verdict.Failed, CandidateInstallFailed)
  }

  // ---------------------------------------------------------------- the record in memory

  /** What a save of the record in memory writes. */
  function Persisted(m: Record): Record {
    m.(evidence := PersistedEvidence(m.evidence))
  }

  function Phased(m: Record, phase: ExecutionPhase): Record {
    m.(phase := phase, phaseHistory := m.phaseHistory + [phase])
  }

  function Failing(m: Record, failure: Failure): Record {
    m.(errors := m.errors + [RunError(failure.reason, m.phase)])
  }

  function Owing(m: Record): Record {
    m.(worker := m.worker.(cleanupRequired := true))
  }

  function FindPackage(packages: seq<PackageSummary>, name: DnpName): (r: Option<PackageSummary>)
    ensures r.Some? <==> Installed(packages, name)
    ensures r.Some? ==> r.value in packages && r.value.dnpName == name
  {
    if packages == [] then None
    else if packages[0].dnpName == name then Some(packages[0])
    else
      var rest := FindPackage(packages[1..], name);
      assert packages == [packages[0]] + packages[1..];
      rest
  }

  function Planning(m: Record): Record {
    m.(worker := m.worker.(
    targetRecovery := if FindPackage(m.evidence.initialPackages, m.request.dnpName).Some? then RestoreLatest else Remove))
  }

  /** The installed target already is the requested baseline, as far as the inventory shows. */
  predicate InstalledVersionMatches(m: Record, preview: Preview) {
    var installed := FindPackage(m.evidence.initialPackages, m.request.dnpName);
    && installed.Some? && installed.value.version.Some?
    && (if preview.version.Some? then preview.version == installed.value.version
        else m.request.baselineRef == installed.value.version)
  }

  /** Unreadable details count as another origin. */
  predicate OriginMatches(preview: Preview, details: Result<PackageDetails, PackageError>) {
    details.Ok? && Evidence.SameInstallOrigin(preview.resolvedRef, details.value.origin)
  }

  /** The inventory lists the target at the baseline's version: the previewed one, else the one that was asked for. */
  ghost predicate ListsBaseline(packages: seq<PackageSummary>, request: RunRequest, preview: Preview) {
    exists i ::
      && 0 <= i < |packages| && packages[i].dnpName == request.dnpName
      && (forall j :: 0 <= j < i ==> packages[j].dnpName != request.dnpName)
      && packages[i].version.Some?
      && packages[i].version == if preview.version.Some? then preview.version else request.baselineRef
  }

  lemma {:induction false} FirstIsFound(packages: seq<PackageSummary>, name: DnpName, i: nat)
    requires i < |packages| && packages[i].dnpName == name && forall j :: 0 <= j < i ==> packages[j].dnpName != name
    ensures FindPackage(packages, name) == Some(packages[i])
  {
    if i > 0 {
      FirstIsFound(packages[1..], name, i - 1);
    }
  }

  lemma {:induction false} FoundIsFirst(packages: seq<PackageSummary>, name: DnpName) returns (i: nat)
    requires FindPackage(packages, name).Some?
    ensures i < |packages| && packages[i].dnpName == name && forall j :: 0 <= j < i ==> packages[j].dnpName != name
    ensures FindPackage(packages, name) == Some(packages[i])
  {
    i := 0;
    if packages[0].dnpName != name {
      var k := FoundIsFirst(packages[1..], name);
      i := k + 1;
    }
  }

  /** An installed baseline is reused exactly when the inventory lists its version and its details name the same build. */
  lemma ReusedExactlyWhen(m: Record, preview: Preview, details: Result<PackageDetails, PackageError>)
    ensures InstalledVersionMatches(m, preview) <==> ListsBaseline(m.evidence.initialPackages, m.request, preview)
    ensures OriginMatches(preview, details) <==> details.Ok? && Evidence.ReferAlike(preview.resolvedRef, details.value.origin)
  {
    hide FindPackage, Evidence.SameInstallOrigin, Evidence.ReferAlike;
    var packages, name := m.evidence.initialPackages, m.request.dnpName;
    if details.Ok? {
      Evidence.SameOriginIffReferAlike(preview.resolvedRef, details.value.origin);
    }
    if ListsBaseline(packages, m.request, preview) {
      var i :| 0 <= i < |packages| && packages[i].dnpName == name
               && (forall j :: 0 <= j < i ==> packages[j].dnpName != name)
               && packages[i].version.Some?
               && packages[i].version == if preview.version.Some? then preview.version else m.request.baselineRef;
      FirstIsFound(packages, name, i);
    }
    if FindPackage(packages, name).Some? {
      var i := FoundIsFirst(packages, name);
    }
  }

  function Bypassing(m: Record): Record {
    m.(errors := m.errors + [RunError(BaselineSignatureInvalid, ExecutionPhase.BaselineInstall)])
  }

  function WithCapture(evidence: RunEvidence, side: Side, capture: CaptureEvidence): RunEvidence {
    if side.Baseline? then evidence.(baseline := Some(capture)) else evidence.(candidate := Some(capture))
  }

  function Kept(evidence: RunEvidence, side: Side): Option<CaptureEvidence> {
    if side.Baseline? then evidence.baseline else evidence.candidate
  }

  function Capturing(m: Record, side: Side, preview: Preview, stabilization: Stabilization.StabilizationResult,
                     details: PackageDetails, logs: Result<(), PackageError>): Record {
    m.(evidence := WithCapture(m.evidence, side, CaptureEvidence(Some(preview), Some(details), stabilization, logs.Ok?)))
  }

  function Judging(m: Record, answer: Result<LogAnalysis, string>): Record {
    m.(evidence := m.evidence.(
    comparison := Some(Comparisons.ComparisonFromPartial(m.evidence)),
    logAnalysis := Some(if answer.Ok? then answer.value else Comparisons.AnalysisFailure(answer.error))))
  }

  function JobOf(config: RunnerConfig, m: Record): CleanupScript.Job {
    CleanupScript.Job(m.request.dnpName, m.worker.targetRecovery, config.cleanupTimeout)
  }

  function CleanedBy(m: Record, status: CleanupStatus, listing: Listing): Record {
    var outcome := CleanupScript.Outcome(m.evidence.initialPackages, status, listing);
    m.(cleanup := outcome.0, evidence := m.evidence.(finalPackages := outcome.1))
  }

  function Unowed(m: Record): Record {
    m.(cleanup := CleanupResult(CleanupSkipped, []))
  }

  predicate BypassRecorded(errors: seq<RunError>) {
    exists e :: e in errors && e.code == BaselineSignatureInvalid
  }

  function ComparisonOf(evidence: RunEvidence): Comparison {
    if evidence.comparison.Some? then evidence.comparison.value else Comparisons.ComparisonFromPartial(evidence)
  }

  function AnalysisOf(evidence: RunEvidence): LogAnalysis {
    if evidence.logAnalysis.Some? then evidence.logAnalysis.value else Comparisons.INCONCLUSIVE_ANALYSIS
  }

  function CleanupErrors(m: Record): seq<RunError> {
    m.errors + (if Comparisons.CleanupOutcomeFailed(m.cleanup.status) then [RunError(ReasonCode.CleanupFailed, Cleanup)] else [])
  }

  function VerdictOn(m: Record, failure: Option<Failure>): (Verdict, ReasonCode) {
    Comparisons.FinalVerdict(failure, ComparisonOf(m.evidence), AnalysisOf(m.evidence), m.cleanup.status,
                             BypassRecorded(CleanupErrors(m)))
  }

  /** The finished record with its result. */
  function Concluding(m: Record, failure: Option<Failure>): Record {
    var judged := m.(status := Completed, errors := CleanupErrors(m));
    var verdict := VerdictOn(m, failure);
    Phased(judged.(result := Some(Comparisons.BuildResult(Persisted(judged), ComparisonOf(m.evidence), AnalysisOf(m.evidence),
                                                          verdict.0, verdict.1))), Finished)
  }

  // ---------------------------------------------------------------- the automaton

  /** A phase to be entered, with what the algorithm carries into it. */
  datatype Boundary =
    | ToPreflight
    | ToBaselinePreview
    | ToBaselineInstall(preview: Preview, reuse: bool)
    | ToStabilization(side: Side, preview: Preview)
    | ToCapture(side: Side, preview: Preview, stabilization: Stabilization.StabilizationResult)
    | ToCandidatePreview
    | ToCandidateInstall(preview: Preview)
    | ToAnalysis

  function PhaseOf(b: Boundary): ExecutionPhase {
    match b
    case ToPreflight => Preflight
    case ToBaselinePreview => BaselinePreview
    case ToBaselineInstall(_, _) => BaselineInstall
    case ToStabilization(side, _) => if side.Baseline? then BaselineStabilization else CandidateStabilization
    case ToCapture(side, _, _) => if side.Baseline? then BaselineCapture else CandidateCapture
    case ToCandidatePreview => CandidatePreview
    case ToCandidateInstall(_) => CandidateInstall
    case ToAnalysis => Analysis
  }

  /** The question the run is about to ask. */
  datatype Point =
    | SaveStart
    | SavePhase(next: Boundary)
    | ReadSignal(next: Boundary)
    | VerifyTools
    | ReadInventory
    | SaveInventory
    | SavePlan
    | PreviewBaseline
    | InspectInstalled(preview: Preview)
    | SaveObligation(next: Boundary)
    | RemoveInstalled(preview: Preview)
    | InstallBaseline(preview: Preview)
    | BypassSignature(preview: Preview)
    | SaveBypass(preview: Preview)
    | Stabilize(side: Side, preview: Preview)
    | ReadSignalAfter(side: Side, preview: Preview, stabilization: Stabilization.StabilizationResult, stopped: bool)
    | ReadDetails(side: Side, preview: Preview, stabilization: Stabilization.StabilizationResult)
    | ReadLogs(side: Side, preview: Preview, stabilization: Stabilization.StabilizationResult, details: PackageDetails)
    | SaveCapture(side: Side)
    | PreviewCandidate
    | UpdateCandidate(preview: Preview)
    | Analyze
    | SaveAnalysis
    | SaveCleanupPhase(failure: Option<Failure>)
    | CleanUp(cleanup: CleanupScript.Stage, failure: Option<Failure>)
    | SaveCleanup(failure: Option<Failure>)
    | SaveVerdict

  /** Where a run is, with the record as it is in memory. */
  datatype Stage =
    | Unloaded
    | Unreadable
    | At(point: Point, m: Record)
    | Ended(ok: bool, m: Record)
    | Astray                        // a call the source would not make

  function Approach(m: Record, b: Boundary): Stage {
    At(SavePhase(b), Phased(m, PhaseOf(b)))
  }

  /** The algorithm is over: cleanup comes first if it is owed. */
  function WindUp(m: Record, failure: Option<Failure>): (s: Stage)
    ensures s.At?
  {
    if m.worker.cleanupRequired then At(SaveCleanupPhase(failure), Phased(m, Cleanup)) else ToVerdict(Unowed(m), failure)
  }

  function ToVerdict(m: Record, failure: Option<Failure>): (s: Stage)
    ensures s.At?
  {
    At(SaveVerdict, Concluding(m, failure))
  }

  function StopWith(m: Record, failure: Failure): (s: Stage)
    ensures s.At?
  {
    WindUp(Failing(m, failure), Some(failure))
  }

  function Refusing(m: Record, reason: ReasonCode): Stage {
    StopWith(m, InfrastructureFailure(reason))
  }

  /** A step of the algorithm either stopped it or goes on. */
  function Onward(m: Record, stopped: Option<Failure>, clear: Stage): Stage {
    if stopped.Some? then StopWith(m, stopped.value) else clear
  }

  /** Cleanup is authorized before the first mutation of a run, and only once. */
  function Authorize(m: Record, b: Boundary): Stage {
    if m.worker.cleanupRequired then ToMutation(m, b) else At(SaveObligation(b), Owing(m))
  }

  function ToMutation(m: Record, b: Boundary): Stage {
    match b
    case ToBaselineInstall(preview, _) =>
      if FindPackage(m.evidence.initialPackages, m.request.dnpName).Some? then At(RemoveInstalled(preview), m)
      else At(InstallBaseline(preview), m)
    case ToCandidateInstall(preview) => At(UpdateCandidate(preview), m)
    case _ => Astray
  }

  /** What follows a boundary that was stored and found clear. */
  function Cross(m: Record, b: Boundary): Stage {
    match b
    case ToPreflight => At(VerifyTools, m)
    case ToBaselinePreview => At(PreviewBaseline, m)
    case ToBaselineInstall(preview, reuse) => if reuse then Approach(m, ToStabilization(Baseline, preview)) else Authorize(m, b)
    case ToStabilization(side, preview) => At(Stabilize(side, preview), m)
    case ToCapture(side, preview, stabilization) => At(ReadDetails(side, preview, stabilization), m)
    case ToCandidatePreview => At(PreviewCandidate, m)
    case ToCandidateInstall(_) => Authorize(m, b)
    case ToAnalysis => At(Analyze, m)
  }

  function AfterTools(m: Record, tools: Result<bool, PackageError>): Stage {
    if tools.Err? then StopWith(m, PackageFailure(tools.error, McpUnavailable))
    else if !tools.value then Refusing(m, RequiredMcpToolsMissing)
    else if m.request.dnpName == HARNESS_DNP_NAME then Refusing(m, HarnessPackageRefused)
    else At(ReadInventory, m)
  }

  function AfterInventory(m: Record, listing: Listing): Stage {
    match listing
    case Inventory(packages) =>
      if InstalledAsCore(packages, m.request.dnpName) then Refusing(m, CorePackageRefused)
      else At(SaveInventory, m.(evidence := m.evidence.(initialPackages := packages)))
    case ListFailed(error) => StopWith(m, PackageFailure(error, McpUnavailable))
    case ListTimedOut => Astray
  }

  function AfterBaselinePreview(m: Record, preview: Result<Preview, PackageError>): Stage {
    if preview.Err? then StopWith(m, PackageFailure(preview.error, BaselineUnavailable))
    else if InstalledVersionMatches(m, preview.value) then At(InspectInstalled(preview.value), m)
    else Approach(m, ToBaselineInstall(preview.value, false))
  }

  function AfterInstall(m: Record, preview: Preview, answer: Result<(), PackageError>): Stage {
    if answer.Ok? then Approach(m, ToStabilization(Baseline, preview))
    else if answer.error.signatureText then At(BypassSignature(preview), m)
    else StopWith(m, BaselineFailure(answer.error))
  }

  function AfterUpdate(m: Record, preview: Preview, answer: Result<(), PackageError>): Stage {
    if answer.Ok? then Approach(m, ToStabilization(Candidate, preview)) else StopWith(m, CandidateFailure(answer.error))
  }

  function UnavailableReason(side: Side): ReasonCode {
    if side.Baseline? then BaselineUnavailable else CandidateInstallFailed
  }

  function MismatchReason(side: Side): ReasonCode {
    if side.Baseline? then BaselineInstallFailed else CandidateInstallFailed
  }

  function AfterCapture(m: Record, side: Side): Stage {
    if Kept(m.evidence, side).Some? && !Comparisons.AppliedAsPreviewed(Kept(m.evidence, side).value) then
      Refusing(m, MismatchReason(side))
    else Approach(m, if side.Baseline? then ToCandidatePreview else ToAnalysis)
  }

  /** Everything a hard check may have observed, and what it makes of that. */
  ghost predicate IsCheck(config: RunnerConfig, seen: seq<Stabilization.Observation>, stopped: bool) {
    && |seen| <= 10_000
    && Stabilization.NoEarlierPass(seen, REQUIRED_SAMPLES)
    && (if Stabilization.PassesAt(seen, REQUIRED_SAMPLES) then !stopped
        else stopped || Stabilization.WindowIsOver(config.stabilization, |seen|))
  }

  ghost function Measured(seen: seq<Stabilization.Observation>): Stabilization.StabilizationResult {
    Stabilization.StabilizationResult(
      Stabilization.PassesAt(seen, REQUIRED_SAMPLES), Stabilization.Streak(Stabilization.Vitals(seen)),
      Stabilization.Recent(Stabilization.SamplesOf(seen)), Stabilization.LastNonRunning(seen))
  }

  predicate IsSave(p: Point) {
    || p.SaveStart? || p.SavePhase? || p.SaveInventory? || p.SavePlan? || p.SaveObligation? || p.SaveBypass?
    || p.SaveCapture? || p.SaveAnalysis? || p.SaveCleanupPhase? || p.SaveCleanup? || p.SaveVerdict?
  }

  /** What follows a save that succeeded. */
  function OnceSaved(p: Point, m: Record): Stage
    requires IsSave(p)
  {
    match p
    case SaveStart => Approach(m, ToPreflight)
    case SavePhase(b) => At(ReadSignal(b), m)
    case SaveInventory => At(SavePlan, Planning(m))
    case SavePlan => Approach(m, ToBaselinePreview)
    case SaveObligation(b) => ToMutation(m, b)
    case SaveBypass(preview) => Approach(m, ToStabilization(Baseline, preview))
    case SaveCapture(side) => AfterCapture(m, side)
    case SaveAnalysis => WindUp(m, None)
    case SaveCleanupPhase(failure) => At(CleanUp(CleanupScript.Begun, failure), m)
    case SaveCleanup(failure) => ToVerdict(m, failure)
    case SaveVerdict => Ended(true, m)
  }

  /** What follows one that failed: during the algorithm cleanup and a result, else nothing. */
  function OnceUnsaved(p: Point, m: Record): Stage {
    if p.SaveStart? || p.SaveCleanupPhase? || p.SaveCleanup? || p.SaveVerdict? then Ended(false, m)
    else StopWith(m, PERSISTENCE_FAILURE)
  }

  ghost function NextAt(config: RunnerConfig, point: Point, m: Record, call: Call): Stage {
    if IsSave(point) then
      (if call.Saving? && call.record == Persisted(m) then (if call.stored then OnceSaved(point, m) else OnceUnsaved(point, m)) else Astray)
    else if MutationAt(point, m).Some? then
      (if call.Mutating? && Some(call.mutation) == MutationAt(point, m) then AfterMutation(point, m, call.answer) else Astray)
    else Asked(config, point, m, call)
  }

  /** The mutation a point asks for. */
  function MutationAt(p: Point, m: Record): Option<Mutation> {
    match p
    case RemoveInstalled(_) => Some(RemovePackage(false))
    case InstallBaseline(_) => Some(InstallPackage(m.request.baselineRef))
    case BypassSignature(_) => Some(InstallBypassingSignature(m.request.baselineRef))
    case UpdateCandidate(_) => Some(UpdatePackage(m.request.candidateRef))
    case _ => None
  }

  /** What follows its answer. */
  function AfterMutation(p: Point, m: Record, answer: Result<(), PackageError>): Stage {
    match p
    case RemoveInstalled(preview) =>
      if CleanupScript.RemovalFailed(answer) then Refusing(m, BaselineInstallFailed) else At(InstallBaseline(preview), m)
    case InstallBaseline(preview) => AfterInstall(m, preview, answer)
    case BypassSignature(preview) =>
      if answer.Ok? then At(SaveBypass(preview), Bypassing(m)) else StopWith(m, BaselineFailure(answer.error))
    case UpdateCandidate(preview) => AfterUpdate(m, preview, answer)
    case _ => Astray
  }

  function AfterCandidatePreview(m: Record, preview: Result<Preview, PackageError>): Stage {
    if preview.Ok? then Approach(m, ToCandidateInstall(preview.value))
    else StopWith(m, PackageFailure(preview.error, CandidateInstallFailed))
  }

  function AfterDetails(m: Record, side: Side, preview: Preview, stabilization: Stabilization.StabilizationResult,
                        details: Result<PackageDetails, PackageError>): Stage {
    if details.Ok? then At(ReadLogs(side, preview, stabilization, details.value), m)
    else StopWith(m, PackageFailure(details.error, UnavailableReason(side)))
  }

  /** What follows an answered question that changes nothing. */
  ghost function Asked(config: RunnerConfig, point: Point, m: Record, call: Call): Stage {
    match point
    case ReadSignal(b) => if call.Signalling? then AfterSignal(m, call.control, Cross(m, b)) else Astray
    case VerifyTools => if call.Verifying? then AfterTools(m, call.tools) else Astray
    case ReadInventory => if call.Reading? && call.deadline.None? && call.elapsed == 0 then AfterInventory(m, call.listing) else Astray
    case PreviewBaseline =>
      if call.Previewing? && call.reference == m.request.baselineRef then AfterBaselinePreview(m, call.preview) else Astray
    case InspectInstalled(preview) =>
      if call.Detailing? then Approach(m, ToBaselineInstall(preview, OriginMatches(preview, call.details))) else Astray
    case Stabilize(side, preview) =>
      if call.Measuring? && IsCheck(config, call.seen, call.stopped) then
        At(ReadSignalAfter(side, preview, Measured(call.seen), call.stopped), m)
      else Astray
    case ReadSignalAfter(side, preview, stabilization, stopped) =>
      if call.Signalling? && (stopped ==> !call.control.Continue?) then AfterSignal(m, call.control, Approach(m, ToCapture(side, preview, stabilization))) else Astray
    case ReadDetails(side, preview, stabilization) =>
      if call.Detailing? then AfterDetails(m, side, preview, stabilization, call.details) else Astray
    case ReadLogs(side, preview, stabilization, details) =>
      if call.Logging? then At(SaveCapture(side), Capturing(m, side, preview, stabilization, details, call.logs)) else Astray
    case PreviewCandidate =>
      if call.Previewing? && call.reference == Some(m.request.candidateRef) then AfterCandidatePreview(m, call.preview) else Astray
    case Analyze => if call.Analyzing? then At(SaveAnalysis, Judging(m, call.analysis)) else Astray
    case CleanUp(cleanup, failure) => AfterCleanupCall(m, failure, CleanupScript.Next(JobOf(config, m), cleanup, call))
    case _ => Astray
  }

  function AfterSignal(m: Record, control: RunControl, clear: Stage): Stage {
    if control.Continue? then clear else StopWith(m, ControlFailure(control).value)
  }

  function AfterCleanupCall(m: Record, failure: Option<Failure>, next: CleanupScript.Stage): Stage {
    match next
    case Astray => Astray
    case Over(status, listing) => At(SaveCleanup(failure), CleanedBy(m, status, listing))
    case _ => At(CleanUp(next, failure), m)
  }

  ghost function Next(config: RunnerConfig, stage: Stage, call: Call): Stage {
    match stage
    case Unloaded =>
      if !call.Loading? then Astray
      else if call.loaded.None? then Unreadable
      else if call.loaded.value.status.Queued? then At(SaveStart, call.loaded.value.(status := Running))
      else Ended(true, call.loaded.value)
    case At(point, m) => NextAt(config, point, m, call)
    case _ => Astray
  }

  ghost function StageOf(config: RunnerConfig, calls: seq<Call>): Stage {
    if calls == [] then Unloaded else Next(config, StageOf(config, calls[..|calls| - 1]), calls[|calls| - 1])
  }

  lemma NextStage(config: RunnerConfig, calls: seq<Call>, call: Call)
    ensures StageOf(config, calls + [call]) == Next(config, StageOf(config, calls), call)
  {
    assert (calls + [call])[..|calls|] == calls;
  }

  lemma LastStage(config: RunnerConfig, calls: seq<Call>)
    requires calls != [] && StageOf(config, calls) != Astray
    ensures var n := |calls| - 1;
            && StageOf(config, calls[..n]) != Astray
            && Next(config, StageOf(config, calls[..n]), calls[n]) == StageOf(config, calls)
  {
  }

  lemma NextCleanupCall(config: RunnerConfig, m: Record, failure: Option<Failure>, cleanup: CleanupScript.Stage, call: Call)
    ensures Next(config, At(CleanUp(cleanup, failure), m), call)
            == AfterCleanupCall(m, failure, CleanupScript.Next(JobOf(config, m), cleanup, call))
  {
  }

  /** The calls of a cleanup are calls of the run that makes it. */
  lemma {:induction false} CleanupWithinRun(config: RunnerConfig, before: seq<Call>, cleanup: seq<Call>, m: Record, failure: Option<Failure>)
    requires StageOf(config, before) == At(CleanUp(CleanupScript.Begun, failure), m)
    requires CleanupScript.StageOf(JobOf(config, m), cleanup) != CleanupScript.Astray
    ensures var stage := CleanupScript.StageOf(JobOf(config, m), cleanup);
            StageOf(config, before + cleanup) ==
            if stage.Over? then At(SaveCleanup(failure), CleanedBy(m, stage.status, stage.listing)) else At(CleanUp(stage, failure), m)
  {
    hide StageOf, Next, CleanupScript.StageOf, CleanupScript.Next, CleanedBy;
    if cleanup == [] {
      CleanupScript.NothingCalled(JobOf(config, m));
      assert before + cleanup == before;
    } else {
      var n := |cleanup| - 1;
      CleanupScript.LastStage(JobOf(config, m), cleanup);
      CleanupScript.OverIsFinal(JobOf(config, m), cleanup, n);
      CleanupWithinRun(config, before, cleanup[..n], m, failure);
      NextCleanupCall(config, m, failure, CleanupScript.StageOf(JobOf(config, m), cleanup[..n]), cleanup[n]);
      NextStage(config, before + cleanup[..n], cleanup[n]);
      assert before + cleanup == before + cleanup[..n] + [cleanup[n]];
    }
  }

  // ---------------------------------------------------------------- following the script

  /** These are the calls of one whole execution, and `stored` is the record it left if every save succeeded. */
  ghost predicate Executes(calls: seq<Call>, config: RunnerConfig, ok: bool, stored: Record) {
    || (StageOf(config, calls) == Unreadable && !ok)
    || (exists m :: StageOf(config, calls) == Ended(ok, m) && (ok ==> stored == Persisted(m)))
  }

  /** The calls from `mark` on follow the script and have reached `stage`. */
  ghost predicate Reaches(calls: seq<Call>, mark: nat, config: RunnerConfig, stage: Stage) {
    mark <= |calls| && StageOf(config, calls[mark..]) == stage
  }

  ghost predicate OnScript(calls: seq<Call>, mark: nat, config: RunnerConfig) {
    mark <= |calls| && StageOf(config, calls[mark..]) != Astray
  }

  lemma ReachesFrom(calls: seq<Call>, config: RunnerConfig)
    ensures Reaches(calls, |calls|, config, Unloaded)
  {
  }

  lemma ReachesOn(calls: seq<Call>, mark: nat, config: RunnerConfig, stage: Stage, call: Call)
    requires Reaches(calls, mark, config, stage)
    ensures Reaches(calls + [call], mark, config, Next(config, stage, call))
  {
    assert (calls + [call])[mark..] == calls[mark..] + [call];
    NextStage(config, calls[mark..], call);
  }

  lemma ReachedIsOnScript(calls: seq<Call>, mark: nat, config: RunnerConfig, stage: Stage)
    requires Reaches(calls, mark, config, stage) && stage != Astray
    ensures OnScript(calls, mark, config)
  {
  }

  lemma EndedIsExecuted(calls: seq<Call>, mark: nat, config: RunnerConfig, stage: Stage, stored: Record)
    requires Reaches(calls, mark, config, stage)
    requires stage.Unreadable? || (stage.Ended? && (stage.ok ==> stored == Persisted(stage.m)))
    ensures mark <= |calls| && Executes(calls[mark..], config, stage.Ended? && stage.ok, stored)
  {
    hide StageOf;
  }

  // ---------------------------------------------------------------- one call at each kind of point

  lemma SaveReaches(calls: seq<Call>, mark: nat, config: RunnerConfig, p: Point, m: Record, ok: bool)
    requires IsSave(p) && Reaches(calls, mark, config, At(p, m)) && OnceSaved(p, m) != Astray
    ensures Reaches(calls + [Saving(Persisted(m), ok)], mark, config, if ok then OnceSaved(p, m) else OnceUnsaved(p, m))
    ensures OnScript(calls + [Saving(Persisted(m), ok)], mark, config)
  {
    hide OnceSaved, StopWith;
    ReachesOn(calls, mark, config, At(p, m), Saving(Persisted(m), ok));
  }

  lemma CrossesSomewhere(m: Record, b: Boundary)
    ensures Cross(m, b) != Astray
  {
  }

  /** The points at which the control signal is read, and where a Continue leads. */
  predicate ClearTo(p: Point, m: Record, clear: Stage) {
    match p
    case ReadSignal(b) => clear == Cross(m, b)
    case ReadSignalAfter(side, preview, stabilization, _) => clear == Approach(m, ToCapture(side, preview, stabilization))
    case _ => false
  }

  lemma SignalReaches(calls: seq<Call>, mark: nat, config: RunnerConfig, p: Point, m: Record, control: RunControl, clear: Stage)
    requires Reaches(calls, mark, config, At(p, m)) && ClearTo(p, m, clear)
    requires p.ReadSignalAfter? && p.stopped ==> !control.Continue?
    ensures Reaches(calls + [Signalling(control)], mark, config, AfterSignal(m, control, clear))
    ensures OnScript(calls + [Signalling(control)], mark, config)
  {
    if p.ReadSignal? {
      CrossesSomewhere(m, p.next);
    }
    hide Cross, StopWith;
    ReachesOn(calls, mark, config, At(p, m), Signalling(control));
  }

  /** A question that changes nothing. */
  lemma AskedReaches(calls: seq<Call>, mark: nat, config: RunnerConfig, p: Point, m: Record, call: Call)
    requires !IsSave(p) && MutationAt(p, m).None? && Reaches(calls, mark, config, At(p, m))
    ensures Reaches(calls + [call], mark, config, Asked(config, p, m, call))
    ensures Asked(config, p, m, call) != Astray ==> OnScript(calls + [call], mark, config)
  {
    hide Asked;
    ReachesOn(calls, mark, config, At(p, m), call);
  }

  lemma MutationReaches(calls: seq<Call>, mark: nat, config: RunnerConfig, p: Point, m: Record, answer: Result<(), PackageError>)
    requires MutationAt(p, m).Some? && Reaches(calls, mark, config, At(p, m))
    ensures Reaches(calls + [Mutating(MutationAt(p, m).value, answer)], mark, config, AfterMutation(p, m, answer))
    ensures OnScript(calls + [Mutating(MutationAt(p, m).value, answer)], mark, config)
  {
    hide StopWith;
    ReachesOn(calls, mark, config, At(p, m), Mutating(MutationAt(p, m).value, answer));
  }
}
