/**
 * What the verdict of a finished execution says about the answers it got (src/runner/controller.rs, src/runner/result.rs).
 * The table of stopping answers below stands on its own: it names verdicts and reasons, and none of the functions of the script.
 */
module Verdicts {
  import opened Wrappers
  import opened Model
  import opened Protocol
  import opened Progress
  import opened Adapter
  import opened Calls
  import opened RunScript
  import opened RunOrder
  import CleanupScript
  import Comparisons
  import Stabilization

  // ---------------------------------------------------------------- what was asked and answered so far

  /** The phase of the record saved last. */
  function LastPhase(calls: seq<Call>): ExecutionPhase {
    if calls == [] then QueuedPhase
    else
      var n := |calls| - 1;
      if calls[n].Saving? then calls[n].record.phase else LastPhase(calls[..n])
  }

  function LastPreview(calls: seq<Call>): Option<Preview> {
    if calls == [] then None
    else
      var n := |calls| - 1;
      if calls[n].Previewing? && calls[n].preview.Ok? then Some(calls[n].preview.value) else LastPreview(calls[..n])
  }

  function LastDetails(calls: seq<Call>): Option<PackageDetails> {
    if calls == [] then None
    else
      var n := |calls| - 1;
      if calls[n].Detailing? && calls[n].details.Ok? then Some(calls[n].details.value) else LastDetails(calls[..n])
  }

  /** The analyzer reported a critical finding. */
  function Critical(calls: seq<Call>): bool {
    if calls == [] then false
    else
      var n := |calls| - 1;
      if calls[n].Analyzing? then calls[n].analysis.Ok? && calls[n].analysis.value.status == AnalyzerStatus.Critical else Critical(calls[..n])
  }

  /** A signature was bypassed: an installation without the check succeeded, or the loaded record already says so. */
  predicate Bypassed(calls: seq<Call>) {
    && calls != []
    && (|| (calls[0].Loading? && calls[0].loaded.Some? && exists e :: e in calls[0].loaded.value.errors && e.code == BaselineSignatureInvalid)
        || exists call :: call in calls && call.Mutating? && call.mutation.InstallBypassingSignature? && call.answer.Ok?)
  }

  // ---------------------------------------------------------------- the stopping answers

  datatype Ruling = Ruling(verdict: Verdict, reason: ReasonCode)

  /** An operation that failed; an unreachable or malformed server is told apart. */
  function Unavailable(kind: PackageErrorKind, reason: ReasonCode): Ruling {
    if kind == Transport || kind == Timeout then Ruling(InfrastructureError, McpUnavailable)
    else if kind == Configuration || kind == InvalidResponse then Ruling(InfrastructureError, UnexpectedError)
    else Ruling(InfrastructureError, reason)
  }

  /** The baseline could not be installed. */
  function NotInstalled(error: PackageError): Ruling {
    if error.kind == RequiredSetup then Ruling(Inconclusive, UnsupportedRequiredSetup)
    else Ruling(InfrastructureError, BaselineInstallFailed)
  }

  /** How the answer to a mutation stops a run in the given phase. */
  function StopByMutation(phase: ExecutionPhase, m: Mutation, error: PackageError): Option<Ruling> {
    if m.UpdatePackage? then
      Some(Ruling(
             if error.kind == Timeout || (error.transientText && (error.kind == Transport || error.kind == Tool)) then InfrastructureError
             else Verdict.Failed,
             CandidateInstallFailed))
    else if phase != BaselineInstall then None
    else match m
      case RemovePackage(_) => if error.kind == PackageNotFound then None else Some(Ruling(InfrastructureError, BaselineInstallFailed))
      case InstallPackage(_) => if error.signatureText then None else Some(NotInstalled(error))
      case _ => Some(NotInstalled(error))
  }

  /** The details last read are not those of the build last previewed. */
  ghost predicate Mismatched(calls: seq<Call>) {
    LastPreview(calls).Some? && LastDetails(calls).Some? && !Comparisons.IsPreviewedBuild(LastPreview(calls).value, LastDetails(calls).value)
  }

  /** How a call stops the test of the package, given the calls before it. None: it does not. */
  ghost function StopBy(name: DnpName, before: seq<Call>, call: Call): Option<Ruling> {
    var phase := LastPhase(before);
    match call
    case Signalling(control) =>
      if control == CancelRequested then Some(Ruling(Inconclusive, CancellationRequested))
      else if control == ClaimLostControl then Some(Ruling(InfrastructureError, ClaimLost))
      else None
    case Saving(record, stored) =>
      if !stored then Some(Ruling(InfrastructureError, PersistenceFailed))
      else if record.phase != phase || !Mismatched(before) then None
      else if phase == BaselineCapture then Some(Ruling(InfrastructureError, BaselineInstallFailed))
      else if phase == CandidateCapture then Some(Ruling(InfrastructureError, CandidateInstallFailed))
      else None
    case Verifying(tools) =>
      if tools.Err? then Some(Unavailable(tools.error.kind, McpUnavailable))
      else if !tools.value then Some(Ruling(InfrastructureError, RequiredMcpToolsMissing))
      else if name == HARNESS_DNP_NAME then Some(Ruling(InfrastructureError, HarnessPackageRefused))
      else None
    case Reading(_, listing, _) =>
      if phase != Preflight then None
      else if listing.ListFailed? then Some(Unavailable(listing.error.kind, McpUnavailable))
      else if listing.Inventory? && exists p :: p in listing.packages && p.dnpName == name && p.isCore then
        Some(Ruling(InfrastructureError, CorePackageRefused))
      else None
    case Previewing(_, preview) =>
      if preview.Ok? then None
      else Some(Unavailable(preview.error.kind, if phase == BaselinePreview then BaselineUnavailable else CandidateInstallFailed))
    case Detailing(details) =>
      if details.Ok? then None
      else if phase == BaselineCapture then Some(Unavailable(details.error.kind, BaselineUnavailable))
      else if phase == CandidateCapture then Some(Unavailable(details.error.kind, CandidateInstallFailed))
      else None
    case Mutating(m, answer) => if answer.Ok? then None else StopByMutation(phase, m, answer.error)
    case _ => None
  }

  /** Every stop among the calls, in order. */
  ghost function Stops(name: DnpName, calls: seq<Call>): seq<Ruling> {
    if calls == [] then []
    else
      var n := |calls| - 1;
      var stop := StopBy(name, calls[..n], calls[n]);
      Stops(name, calls[..n]) + (if stop.Some? then [stop.value] else [])
  }

  // ---------------------------------------------------------------- the verdict on the evidence

  /** The result comes from one whole check: it passed, or its window was over. No signal cut it short. */
  ghost predicate MeasuredIn(config: RunnerConfig, calls: seq<Call>, stabilization: Stabilization.StabilizationResult) {
    exists call :: call in calls && IsMeasurement(config, call, stabilization) && !call.stopped
  }

  ghost predicate IsMeasurement(config: RunnerConfig, call: Call, stabilization: Stabilization.StabilizationResult) {
    && call.Measuring?
    && (stabilization.passed <==> Stabilization.PassesAt(call.seen, REQUIRED_SAMPLES))
    && (stabilization.passed || call.stopped || Stabilization.WindowIsOver(config.stabilization, |call.seen|))
  }

  /** What a run that was not stopped concludes from its evidence. */
  function RulingOn(baselinePassed: bool, candidatePassed: bool, critical: bool, cleanup: CleanupStatus, bypassed: bool): Ruling {
    if !candidatePassed then
      (if baselinePassed then Ruling(Verdict.Failed, CandidateContainersUnstable) else Ruling(Inconclusive, BaselineContainersUnstable))
    else if !baselinePassed then Ruling(Warning, BaselineContainersUnstable)
    else if critical then Ruling(Warning, CandidateContainersStable)
    else if cleanup == CleanupStatus.CleanupFailed || cleanup == CleanupTimedOut then Ruling(Warning, ReasonCode.CleanupFailed)
    else if bypassed then Ruling(Warning, BaselineSignatureInvalid)
    else Ruling(Verdict.Passed, CandidateContainersStable)
  }

  /** Both sides were measured by whole checks, and nothing is missing from the evidence. */
  ghost predicate Tested(config: RunnerConfig, calls: seq<Call>, m: Record) {
    && SideMeasured(config, calls, m.evidence.baseline) && SideMeasured(config, calls, m.evidence.candidate)
    && m.evidence.comparison.Some? && m.evidence.logAnalysis.Some?
  }

  ghost predicate SideMeasured(config: RunnerConfig, calls: seq<Call>, side: Option<CaptureEvidence>) {
    side.Some? && MeasuredIn(config, calls, side.value.stabilization)
  }

  /** The verdict is that of the one answer that stopped the run or, if none did, that of the evidence. */
  ghost predicate Judged(config: RunnerConfig, name: DnpName, calls: seq<Call>, m: Record) {
    && m.result.Some?
    && var ruling := Ruling(m.result.value.verdict, m.result.value.reasonCode);
    || Stops(name, calls) == [ruling]
    || (&& Stops(name, calls) == [] && Tested(config, calls, m)
        && ruling == RulingOn(m.evidence.baseline.value.stabilization.passed, m.evidence.candidate.value.stabilization.passed,
                              Critical(calls), m.cleanup.status, Bypassed(calls)))
  }

  // ---------------------------------------------------------------- while the algorithm runs

  function PreviewAt(p: Point): Option<Preview> {
    match p
    case SavePhase(b) => PreviewFor(b)
    case ReadSignal(b) => PreviewFor(b)
    case SaveObligation(b) => PreviewFor(b)
    case InspectInstalled(preview) => Some(preview)
    case RemoveInstalled(preview) => Some(preview)
    case InstallBaseline(preview) => Some(preview)
    case BypassSignature(preview) => Some(preview)
    case SaveBypass(preview) => Some(preview)
    case Stabilize(_, preview) => Some(preview)
    case ReadSignalAfter(_, preview, _, _) => Some(preview)
    case ReadDetails(_, preview, _) => Some(preview)
    case ReadLogs(_, preview, _, _) => Some(preview)
    case UpdateCandidate(preview) => Some(preview)
    case _ => None
  }

  function PreviewFor(b: Boundary): Option<Preview> {
    match b
    case ToBaselineInstall(preview, _) => Some(preview)
    case ToStabilization(_, preview) => Some(preview)
    case ToCapture(_, preview, _) => Some(preview)
    case ToCandidateInstall(preview) => Some(preview)
    case _ => None
  }

  /** The whole check whose result the point carries. */
  function MeasurementAt(p: Point): Option<Stabilization.StabilizationResult> {
    match p
    case SavePhase(ToCapture(_, _, stabilization)) => Some(stabilization)
    case ReadSignal(ToCapture(_, _, stabilization)) => Some(stabilization)
    case ReadDetails(_, _, stabilization) => Some(stabilization)
    case ReadLogs(_, _, stabilization, _) => Some(stabilization)
    case _ => None
  }

  /** How many phases the algorithm had entered when the record was last saved. */
  function SavedPhases(p: Point): nat
    requires Entered(p).Some? && !p.SaveStart?
  {
    if p.SavePhase? then Rank(p.next) - 1 else Entered(p).value
  }

  ghost predicate PhasesKnown(calls: seq<Call>, p: Point, m: Record)
    requires Entered(p).Some?
  {
    if p.SaveStart? then LastPhase(calls) == QueuedPhase
    else
      && m.phase == ALGORITHM_PHASES[Entered(p).value - 1]
      && (p.SaveObligation? ==> p.next.ToBaselineInstall? || p.next.ToCandidateInstall?)
      && (SavedPhases(p) > 0 ==> LastPhase(calls) == ALGORITHM_PHASES[SavedPhases(p) - 1])
  }

  ghost predicate CaptureKnown(calls: seq<Call>, p: Point, m: Record) {
    && (PreviewAt(p).Some? ==> LastPreview(calls) == PreviewAt(p))
    && (p.ReadLogs? ==> LastDetails(calls) == Some(p.details))
    && (p.SaveCapture? ==>
          var kept := Kept(m.evidence, p.side);
          && kept.Some? && kept.value.preview.Some? && kept.value.details.Some?
          && kept.value.preview == LastPreview(calls) && kept.value.details == LastDetails(calls))
  }

  ghost predicate MeasurementsKnown(config: RunnerConfig, calls: seq<Call>, p: Point, m: Record)
    requires Entered(p).Some?
  {
    && (MeasurementAt(p).Some? ==> MeasuredIn(config, calls, MeasurementAt(p).value))
    && (p.ReadSignalAfter? ==>
          exists call :: call in calls && IsMeasurement(config, call, p.stabilization) && call.stopped == p.stopped)
    && (Entered(p).value > 5 || p == SaveCapture(Baseline) ==> SideMeasured(config, calls, m.evidence.baseline))
    && (Entered(p).value > 9 || p == SaveCapture(Candidate) ==> SideMeasured(config, calls, m.evidence.candidate))
  }

  /** Comparison and analysis are what they should be of the evidence. */
  ghost predicate Analyzed(calls: seq<Call>, m: Record) {
    && m.evidence.comparison == Some(Comparisons.ComparisonFromPartial(m.evidence))
    && m.evidence.logAnalysis.Some?
    && (m.evidence.logAnalysis.value.status.Critical? <==> Critical(calls))
  }

  ghost predicate InAlgorithm(config: RunnerConfig, name: DnpName, calls: seq<Call>, p: Point, m: Record)
    requires Entered(p).Some?
  {
    && Stops(name, calls) == []
    && PhasesKnown(calls, p, m)
    && CaptureKnown(calls, p, m)
    && MeasurementsKnown(config, calls, p, m)
    && (BypassRecorded(m.errors) <==> Bypassed(calls))
    && (p.SaveAnalysis? ==> Analyzed(calls, m))
  }

  /** The algorithm is over, stopped by the one answer that made it fail or with all its evidence. */
  ghost predicate Decided(config: RunnerConfig, name: DnpName, calls: seq<Call>, m: Record, failure: Option<Failure>) {
    if failure.Some? then Stops(name, calls) == [Ruling(failure.value.verdict, failure.value.reason)] && failure.value.verdict != Verdict.Passed
    else
      && Stops(name, calls) == [] && Tested(config, calls, m) && Analyzed(calls, m)
      && (BypassRecorded(m.errors) <==> Bypassed(calls))
  }

  ghost predicate Explained(config: RunnerConfig, name: DnpName, calls: seq<Call>, stage: Stage) {
    match stage
    case Unloaded => false
    case At(SaveCleanupPhase(failure), m) => Decided(config, name, calls, m, failure) && m.phase == Cleanup && m.request.dnpName == name
    case At(CleanUp(_, failure), m) => Decided(config, name, calls, m, failure) && LastPhase(calls) == Cleanup == m.phase && m.request.dnpName == name
    case At(SaveCleanup(failure), m) => Decided(config, name, calls, m, failure) && LastPhase(calls) == Cleanup == m.phase && m.request.dnpName == name
    case At(SaveVerdict, m) => Judged(config, name, calls, m) && m.phase == Finished && m.request.dnpName == name
    case At(p, m) => Entered(p).Some? && InAlgorithm(config, name, calls, p, m) && m.request.dnpName == name
    case Ended(ok, m) => ok ==> Judged(config, name, calls, m) && m.request.dnpName == name
    case _ => true
  }

  // ---------------------------------------------------------------- one more call

  lemma CallAdds(name: DnpName, calls: seq<Call>, call: Call)
    requires calls != []
    ensures var longer := calls + [call];
            && LastPhase(longer) == (if call.Saving? then call.record.phase else LastPhase(calls))
            && LastPreview(longer) == (if call.Previewing? && call.preview.Ok? then Some(call.preview.value) else LastPreview(calls))
            && LastDetails(longer) == (if call.Detailing? && call.details.Ok? then Some(call.details.value) else LastDetails(calls))
            && Critical(longer) ==
               (if call.Analyzing? then call.analysis.Ok? && call.analysis.value.status == AnalyzerStatus.Critical else Critical(calls))
            && (Bypassed(longer) <==>
                  Bypassed(calls) || (call.Mutating? && call.mutation.InstallBypassingSignature? && call.answer.Ok?))
            && Stops(name, longer) == Stops(name, calls) +
                                      var stop := StopBy(name, calls, call);
                                      if stop.Some? then [stop.value] else []
  {
    hide StopBy;
    var longer := calls + [call];
    assert longer[..|calls|] == calls && longer[|calls|] == call;
    assert longer[0] == calls[0];
  }

  lemma MeasurementsLast(config: RunnerConfig, calls: seq<Call>, call: Call)
    ensures forall s :: MeasuredIn(config, calls, s) ==> MeasuredIn(config, calls + [call], s)
    ensures forall s :: SideMeasured(config, calls, s) ==> SideMeasured(config, calls + [call], s)
  {
    hide IsMeasurement;
  }

  // ---------------------------------------------------------------- the end

  lemma VerdictExplained(config: RunnerConfig, name: DnpName, calls: seq<Call>, m: Record, failure: Option<Failure>)
    requires Decided(config, name, calls, m, failure) && m.request.dnpName == name
    ensures Explained(config, name, calls, ToVerdict(m, failure))
  {
    hide Stops, MeasuredIn, Critical, Bypassed;
    assert BypassRecorded(CleanupErrors(m)) == BypassRecorded(m.errors) by {
      hide Decided;
      CleanupIsNoBypass(m);
    }
    hide BypassRecorded, CleanupErrors, Comparisons.SideOf, Persisted;
  }

  lemma CleanupIsNoBypass(m: Record)
    ensures BypassRecorded(CleanupErrors(m)) == BypassRecorded(m.errors)
  {
    var added := if Comparisons.CleanupOutcomeFailed(m.cleanup.status) then [RunError(ReasonCode.CleanupFailed, Cleanup)] else [];
    assert CleanupErrors(m) == m.errors + added;
    assert forall e :: e in CleanupErrors(m) <==> e in m.errors || e in added;
  }

  lemma WindUpExplained(config: RunnerConfig, name: DnpName, calls: seq<Call>, m: Record, failure: Option<Failure>)
    requires Decided(config, name, calls, m, failure) && m.request.dnpName == name
    ensures Explained(config, name, calls, WindUp(m, failure))
  {
    hide ToVerdict, Stops, SideMeasured, Critical, Bypassed, BypassRecorded;
    if !m.worker.cleanupRequired {
      VerdictExplained(config, name, calls, Unowed(m), failure);
    }
  }

  /** The answer stops the algorithm, and it is the first that does. */
  lemma StopExplained(config: RunnerConfig, name: DnpName, calls: seq<Call>, call: Call, m: Record, failure: Failure)
    requires calls != [] && Stops(name, calls) == [] && m.request.dnpName == name
    requires StopBy(name, calls, call) == Some(Ruling(failure.verdict, failure.reason)) && failure.verdict != Verdict.Passed
    ensures Explained(config, name, calls + [call], StopWith(m, failure))
  {
    hide WindUp, StopBy, Stops, Explained;
    CallAdds(name, calls, call);
    WindUpExplained(config, name, calls + [call], Failing(m, failure), Some(failure));
  }

  // ---------------------------------------------------------------- while the algorithm runs, step by step

  /** The next phase may be entered with what the boundary carries. */
  ghost predicate MayEnter(config: RunnerConfig, name: DnpName, calls: seq<Call>, m: Record, b: Boundary) {
    && Stops(name, calls) == [] && m.request.dnpName == name && (BypassRecorded(m.errors) <==> Bypassed(calls))
    && (Rank(b) > 1 ==> LastPhase(calls) == ALGORITHM_PHASES[Rank(b) - 2])
    && (PreviewFor(b).Some? ==> LastPreview(calls) == PreviewFor(b))
    && (b.ToCapture? ==> MeasuredIn(config, calls, b.stabilization))
    && (Rank(b) > 5 ==> SideMeasured(config, calls, m.evidence.baseline))
    && (Rank(b) > 9 ==> SideMeasured(config, calls, m.evidence.candidate))
  }

  lemma EnterExplained(config: RunnerConfig, name: DnpName, calls: seq<Call>, m: Record, b: Boundary)
    requires MayEnter(config, name, calls, m, b)
    ensures Explained(config, name, calls, Approach(m, b))
  {
    hide Stops, SideMeasured, MeasuredIn, BypassRecorded, Bypassed;
  }

  /** A call that does not stop the algorithm and neither previews, inspects, analyzes nor bypasses leaves what is known. */
  lemma StillKnown(config: RunnerConfig, name: DnpName, calls: seq<Call>, call: Call, p: Point, m: Record)
    requires calls != [] && Entered(p).Some? && InAlgorithm(config, name, calls, p, m) && StopBy(name, calls, call) == None
    requires !call.Previewing? && !call.Detailing? && !call.Analyzing? && !(call.Mutating? && call.mutation.InstallBypassingSignature?)
    requires call.Saving? ==> call.record.phase == LastPhase(calls) && !p.SaveStart?
    ensures InAlgorithm(config, name, calls + [call], p, m)
  {
    hide StopBy, Stops, SideMeasured, MeasuredIn, BypassRecorded, Bypassed, Critical, IsMeasurement;
    hide Comparisons.ComparisonFromPartial, Entered, PreviewAt, MeasurementAt, MeasurementsKnown;
    CallAdds(name, calls, call);
    MeasurementsStillKnown(config, calls, call, p, m);
  }

  lemma MeasurementsStillKnown(config: RunnerConfig, calls: seq<Call>, call: Call, p: Point, m: Record)
    requires Entered(p).Some? && MeasurementsKnown(config, calls, p, m)
    ensures MeasurementsKnown(config, calls + [call], p, m)
  {
    hide SideMeasured, MeasuredIn, IsMeasurement, Entered, MeasurementAt;
    MeasurementsLast(config, calls, call);
  }

  /** Both points come after the same save of the same phase, and the second carries nothing the first does not. */
  predicate SamePhase(p: Point, q: Point) {
    && Entered(p).Some? && Entered(q) == Entered(p)
    && !p.SaveStart? && !p.SavePhase? && !q.SaveStart? && !q.SavePhase?
    && (PreviewAt(q).Some? ==> PreviewAt(q) == PreviewAt(p))
    && (MeasurementAt(q).Some? ==> MeasurementAt(q) == MeasurementAt(p))
    && !q.ReadLogs? && !q.SaveCapture? && !q.ReadSignalAfter? && !q.SaveAnalysis?
    && (q.SaveObligation? ==> q.next.ToBaselineInstall? || q.next.ToCandidateInstall?)
  }

  lemma SameKnown(config: RunnerConfig, name: DnpName, calls: seq<Call>, p: Point, m: Record, q: Point, n: Record)
    requires SamePhase(p, q) && InAlgorithm(config, name, calls, p, m)
    requires n.phase == m.phase && n.errors == m.errors
    requires n.evidence.baseline == m.evidence.baseline && n.evidence.candidate == m.evidence.candidate
    ensures InAlgorithm(config, name, calls, q, n)
  {
    hide PhasesKnown, CaptureKnown, MeasurementsKnown, Entered, PreviewAt, MeasurementAt, Stops, BypassRecorded, Bypassed;
    SamePhases(calls, p, m, q, n);
    SameMeasurements(config, calls, p, m, q, n);
    assert Entered(p).Some? && !q.SaveAnalysis?;
  }

  lemma SamePhases(calls: seq<Call>, p: Point, m: Record, q: Point, n: Record)
    requires SamePhase(p, q) && PhasesKnown(calls, p, m) && CaptureKnown(calls, p, m) && n.phase == m.phase
    ensures PhasesKnown(calls, q, n) && CaptureKnown(calls, q, n)
  {
    hide Entered, PreviewAt, LastPhase, LastPreview, LastDetails, MeasurementAt;
  }

  lemma SameMeasurements(config: RunnerConfig, calls: seq<Call>, p: Point, m: Record, q: Point, n: Record)
    requires SamePhase(p, q) && MeasurementsKnown(config, calls, p, m)
    requires n.evidence.baseline == m.evidence.baseline && n.evidence.candidate == m.evidence.candidate
    ensures MeasurementsKnown(config, calls, q, n)
  {
    hide Entered, PreviewAt, MeasurementAt, SideMeasured, MeasuredIn, IsMeasurement;
  }

  lemma MutationExplained(config: RunnerConfig, name: DnpName, calls: seq<Call>, p: Point, m: Record, b: Boundary)
    requires p == ReadSignal(b) || p == SaveObligation(b)
    requires InAlgorithm(config, name, calls, p, m) && m.request.dnpName == name
    requires b.ToBaselineInstall? || b.ToCandidateInstall?
    ensures Explained(config, name, calls, ToMutation(m, b))
  {
    hide InAlgorithm, FindPackage;
    match b
    case ToBaselineInstall(preview, _) =>
      SameKnown(config, name, calls, p, m, RemoveInstalled(preview), m);
      SameKnown(config, name, calls, p, m, InstallBaseline(preview), m);
    case ToCandidateInstall(preview) =>
      SameKnown(config, name, calls, p, m, UpdateCandidate(preview), m);
  }

  lemma AuthorizeExplained(config: RunnerConfig, name: DnpName, calls: seq<Call>, m: Record, b: Boundary)
    requires InAlgorithm(config, name, calls, ReadSignal(b), m) && m.request.dnpName == name
    requires b.ToBaselineInstall? || b.ToCandidateInstall?
    ensures Explained(config, name, calls, Authorize(m, b))
  {
    hide InAlgorithm, ToMutation;
    if m.worker.cleanupRequired {
      MutationExplained(config, name, calls, ReadSignal(b), m, b);
    } else {
      SameKnown(config, name, calls, ReadSignal(b), m, SaveObligation(b), Owing(m));
    }
  }

  lemma CrossExplained(config: RunnerConfig, name: DnpName, calls: seq<Call>, m: Record, b: Boundary)
    requires InAlgorithm(config, name, calls, ReadSignal(b), m) && m.request.dnpName == name
    ensures Explained(config, name, calls, Cross(m, b))
  {
    hide InAlgorithm, Authorize, Approach;
    match b
    case ToPreflight => SameKnown(config, name, calls, ReadSignal(b), m, VerifyTools, m);
    case ToBaselinePreview => SameKnown(config, name, calls, ReadSignal(b), m, PreviewBaseline, m);
    case ToBaselineInstall(preview, reuse) =>
      if reuse {
        ReuseExplained(config, name, calls, m, preview);
      } else {
        AuthorizeExplained(config, name, calls, m, b);
      }
    case ToStabilization(side, preview) => SameKnown(config, name, calls, ReadSignal(b), m, Stabilize(side, preview), m);
    case ToCapture(side, preview, stabilization) =>
      SameKnown(config, name, calls, ReadSignal(b), m, ReadDetails(side, preview, stabilization), m);
    case ToCandidatePreview => SameKnown(config, name, calls, ReadSignal(b), m, PreviewCandidate, m);
    case ToCandidateInstall(_) => AuthorizeExplained(config, name, calls, m, b);
    case ToAnalysis => SameKnown(config, name, calls, ReadSignal(b), m, Analyze, m);
  }

  lemma ReuseExplained(config: RunnerConfig, name: DnpName, calls: seq<Call>, m: Record, preview: Preview)
    requires InAlgorithm(config, name, calls, ReadSignal(ToBaselineInstall(preview, true)), m) && m.request.dnpName == name
    ensures Explained(config, name, calls, Approach(m, ToStabilization(Baseline, preview)))
  {
    hide Approach, Stops, BypassRecorded, Bypassed;
    EnterExplained(config, name, calls, m, ToStabilization(Baseline, preview));
  }

  lemma CaptureExplained(config: RunnerConfig, name: DnpName, calls: seq<Call>, p: Point, m: Record)
    requires p.ReadSignalAfter? && !p.stopped && Explained(config, name, calls, At(p, m))
    ensures Explained(config, name, calls, Approach(m, ToCapture(p.side, p.preview, p.stabilization)))
  {
    hide Stops, BypassRecorded, Bypassed, Approach, IsMeasurement;
    assert MeasuredIn(config, calls, p.stabilization);
    EnterExplained(config, name, calls, m, ToCapture(p.side, p.preview, p.stabilization));
  }

  lemma SignalExplained(config: RunnerConfig, name: DnpName, calls: seq<Call>, call: Call, p: Point, m: Record)
    requires calls != [] && (p.ReadSignal? || p.ReadSignalAfter?) && Explained(config, name, calls, At(p, m))
    ensures Explained(config, name, calls + [call], Asked(config, p, m, call))
  {
    hide PhasesKnown, CaptureKnown, MeasurementsKnown, Stops, BypassRecorded, Bypassed, Approach, StopWith, Cross;
    if call.Signalling? {
      if !call.control.Continue? {
        StopExplained(config, name, calls, call, m, ControlFailure(call.control).value);
      } else {
        StillKnown(config, name, calls, call, p, m);
        if p.ReadSignal? {
          CrossExplained(config, name, calls + [call], m, p.next);
        } else if !p.stopped {
          CaptureExplained(config, name, calls + [call], p, m);
        }
      }
    }
  }

  // ---------------------------------------------------------------- saves

  lemma UnsavedExplained(config: RunnerConfig, name: DnpName, calls: seq<Call>, p: Point, m: Record)
    requires calls != [] && IsSave(p) && Explained(config, name, calls, At(p, m))
    ensures Explained(config, name, calls + [Saving(Persisted(m), false)], OnceUnsaved(p, m))
  {
    hide StopWith, Stops, Decided, Judged;
    if Entered(p).Some? && !p.SaveStart? {
      StopExplained(config, name, calls, Saving(Persisted(m), false), m, PERSISTENCE_FAILURE);
    }
  }

  lemma LateSaveExplained(config: RunnerConfig, name: DnpName, calls: seq<Call>, p: Point, m: Record)
    requires calls != [] && IsSave(p) && Entered(p).None? && Explained(config, name, calls, At(p, m))
    ensures Explained(config, name, calls + [Saving(Persisted(m), true)], OnceSaved(p, m))
  {
    hide Stops, SideMeasured, MeasuredIn, BypassRecorded, Bypassed, Critical, ToVerdict, Comparisons.ComparisonFromPartial, Mismatched;
    var call := Saving(Persisted(m), true);
    CallAdds(name, calls, call);
    MeasurementsLast(config, calls, call);
    if p.SaveCleanup? {
      VerdictExplained(config, name, calls + [call], m, p.failure);
    }
  }

  lemma PhaseSaveExplained(config: RunnerConfig, name: DnpName, calls: seq<Call>, p: Point, m: Record)
    requires calls != [] && (p.SaveStart? || p.SavePhase?) && Explained(config, name, calls, At(p, m))
    ensures Explained(config, name, calls + [Saving(Persisted(m), true)], OnceSaved(p, m))
  {
    hide Stops, SideMeasured, MeasuredIn, BypassRecorded, Bypassed, Critical, Approach, Mismatched;
    var call := Saving(Persisted(m), true);
    CallAdds(name, calls, call);
    MeasurementsLast(config, calls, call);
    if p.SaveStart? {
      EnterExplained(config, name, calls + [call], m, ToPreflight);
    }
  }

  /** Saving a capture stops the run exactly if it is not what was previewed. */
  lemma CaptureSaveStops(config: RunnerConfig, name: DnpName, calls: seq<Call>, side: Side, m: Record)
    requires Explained(config, name, calls, At(SaveCapture(side), m))
    ensures Kept(m.evidence, side).Some?
    ensures StopBy(name, calls, Saving(Persisted(m), true)) ==
            if Comparisons.AppliedAsPreviewed(Kept(m.evidence, side).value) then None
            else Some(Ruling(InfrastructureError, if side.Baseline? then BaselineInstallFailed else CandidateInstallFailed))
  {
    hide Stops, MeasurementsKnown, BypassRecorded, Bypassed, Comparisons.AppliedAsPreviewed, Comparisons.IsPreviewedBuild, PreviewAt;
    Comparisons.AppliedIsPreviewedBuild(Kept(m.evidence, side).value);
  }

  lemma CaptureSaveExplained(config: RunnerConfig, name: DnpName, calls: seq<Call>, side: Side, m: Record)
    requires calls != [] && Explained(config, name, calls, At(SaveCapture(side), m))
    ensures Explained(config, name, calls + [Saving(Persisted(m), true)], AfterCapture(m, side))
  {
    hide Stops, StopBy, SideMeasured, MeasuredIn, BypassRecorded, Bypassed, Approach, StopWith, Comparisons.AppliedAsPreviewed, CaptureKnown;
    var call := Saving(Persisted(m), true);
    CaptureSaveStops(config, name, calls, side, m);
    if Comparisons.AppliedAsPreviewed(Kept(m.evidence, side).value) {
      CallAdds(name, calls, call);
      MeasurementsLast(config, calls, call);
      EnterExplained(config, name, calls + [call], m, if side.Baseline? then ToCandidatePreview else ToAnalysis);
    } else {
      StopExplained(config, name, calls, call, m, InfrastructureFailure(MismatchReason(side)));
    }
  }

  lemma PlainSaveExplained(config: RunnerConfig, name: DnpName, calls: seq<Call>, p: Point, m: Record)
    requires calls != [] && (p.SaveInventory? || p.SavePlan? || p.SaveObligation? || p.SaveBypass? || p.SaveAnalysis?)
    requires Explained(config, name, calls, At(p, m))
    ensures Explained(config, name, calls + [Saving(Persisted(m), true)], OnceSaved(p, m))
  {
    hide InAlgorithm, Approach, WindUp, ToMutation, FindPackage, StopBy;
    var call := Saving(Persisted(m), true);
    assert call.record.phase == LastPhase(calls) && StopBy(name, calls, call) == None by {
      PlainSaveGoesOn(config, name, calls, p, m);
    }
    StillKnown(config, name, calls, call, p, m);
    match p
    case SaveInventory => SameKnown(config, name, calls + [call], p, m, SavePlan, Planning(m));
    case SaveObligation(b) => ObligationExplained(config, name, calls + [call], m, b);
    case SavePlan => LeaveExplained(config, name, calls + [call], p, m, ToBaselinePreview);
    case SaveBypass(preview) => LeaveExplained(config, name, calls + [call], p, m, ToStabilization(Baseline, preview));
    case SaveAnalysis => AnalysisExplained(config, name, calls + [call], m);
  }

  lemma PlainSaveGoesOn(config: RunnerConfig, name: DnpName, calls: seq<Call>, p: Point, m: Record)
    requires p.SaveInventory? || p.SavePlan? || p.SaveObligation? || p.SaveBypass? || p.SaveAnalysis?
    requires Explained(config, name, calls, At(p, m))
    ensures m.phase == LastPhase(calls) && StopBy(name, calls, Saving(Persisted(m), true)) == None
  {
    hide Stops, Mismatched, CaptureKnown, MeasurementsKnown, BypassRecorded, Bypassed, Analyzed;
  }

  lemma ObligationExplained(config: RunnerConfig, name: DnpName, calls: seq<Call>, m: Record, b: Boundary)
    requires InAlgorithm(config, name, calls, SaveObligation(b), m) && m.request.dnpName == name
    ensures Explained(config, name, calls, ToMutation(m, b))
  {
    hide InAlgorithm;
    if b.ToBaselineInstall? || b.ToCandidateInstall? {
      MutationExplained(config, name, calls, SaveObligation(b), m, b);
    }
  }

  lemma LeaveExplained(config: RunnerConfig, name: DnpName, calls: seq<Call>, p: Point, m: Record, b: Boundary)
    requires Entered(p).Some? && !p.SaveStart? && !p.SavePhase? && InAlgorithm(config, name, calls, p, m) && m.request.dnpName == name
    requires (p.SavePlan? && b == ToBaselinePreview) || (PreviewAt(p).Some? && b == ToStabilization(if p.UpdateCandidate? then Candidate else Baseline, PreviewAt(p).value))
    requires Entered(p).value == Rank(b) - 1
    ensures Explained(config, name, calls, Approach(m, b))
  {
    hide Approach, Stops, BypassRecorded, Bypassed;
    EnterExplained(config, name, calls, m, b);
  }

  lemma AnalysisExplained(config: RunnerConfig, name: DnpName, calls: seq<Call>, m: Record)
    requires InAlgorithm(config, name, calls, SaveAnalysis, m) && m.request.dnpName == name
    ensures Explained(config, name, calls, WindUp(m, None))
  {
    hide WindUp, Stops, BypassRecorded, Bypassed;
    WindUpExplained(config, name, calls, m, None);
  }

  lemma SavedExplained(config: RunnerConfig, name: DnpName, calls: seq<Call>, p: Point, m: Record, stored: bool)
    requires calls != [] && IsSave(p) && Explained(config, name, calls, At(p, m))
    ensures Explained(config, name, calls + [Saving(Persisted(m), stored)], if stored then OnceSaved(p, m) else OnceUnsaved(p, m))
  {
    hide Explained, OnceUnsaved, Approach, WindUp, ToMutation, ToVerdict, AfterCapture;
    if !stored {
      UnsavedExplained(config, name, calls, p, m);
    } else if p.SaveStart? || p.SavePhase? {
      PhaseSaveExplained(config, name, calls, p, m);
    } else if p.SaveCapture? {
      CaptureSaveExplained(config, name, calls, p.side, m);
      assert OnceSaved(p, m) == AfterCapture(m, p.side);
    } else if Entered(p).None? {
      LateSaveExplained(config, name, calls, p, m);
    } else {
      PlainSaveExplained(config, name, calls, p, m);
    }
  }

  // ---------------------------------------------------------------- mutations

  lemma RemovalExplained(config: RunnerConfig, name: DnpName, calls: seq<Call>, preview: Preview, m: Record, answer: Result<(), PackageError>)
    requires calls != [] && Explained(config, name, calls, At(RemoveInstalled(preview), m))
    ensures Explained(config, name, calls + [Mutating(RemovePackage(false), answer)], AfterMutation(RemoveInstalled(preview), m, answer))
  {
    hide Stops, CaptureKnown, MeasurementsKnown, BypassRecorded, Bypassed, StopWith;
    var call := Mutating(RemovePackage(false), answer);
    if CleanupScript.RemovalFailed(answer) {
      StopExplained(config, name, calls, call, m, InfrastructureFailure(BaselineInstallFailed));
    } else {
      StillKnown(config, name, calls, call, RemoveInstalled(preview), m);
      SameKnown(config, name, calls + [call], RemoveInstalled(preview), m, InstallBaseline(preview), m);
    }
  }

  lemma InstallExplained(config: RunnerConfig, name: DnpName, calls: seq<Call>, preview: Preview, m: Record, answer: Result<(), PackageError>)
    requires calls != [] && Explained(config, name, calls, At(InstallBaseline(preview), m))
    ensures Explained(config, name, calls + [Mutating(InstallPackage(m.request.baselineRef), answer)], AfterInstall(m, preview, answer))
  {
    hide Stops, CaptureKnown, MeasurementsKnown, BypassRecorded, Bypassed, StopWith, Approach;
    var call := Mutating(InstallPackage(m.request.baselineRef), answer);
    if answer.Err? && !answer.error.signatureText {
      StopExplained(config, name, calls, call, m, BaselineFailure(answer.error));
    } else {
      StillKnown(config, name, calls, call, InstallBaseline(preview), m);
      if answer.Ok? {
        LeaveExplained(config, name, calls + [call], InstallBaseline(preview), m, ToStabilization(Baseline, preview));
      } else {
        SameKnown(config, name, calls + [call], InstallBaseline(preview), m, BypassSignature(preview), m);
      }
    }
  }

  lemma BypassExplained(config: RunnerConfig, name: DnpName, calls: seq<Call>, preview: Preview, m: Record, answer: Result<(), PackageError>)
    requires calls != [] && Explained(config, name, calls, At(BypassSignature(preview), m))
    ensures Explained(config, name, calls + [Mutating(InstallBypassingSignature(m.request.baselineRef), answer)],
                      AfterMutation(BypassSignature(preview), m, answer))
  {
    hide Stops, SideMeasured, Bypassed, StopWith;
    var call := Mutating(InstallBypassingSignature(m.request.baselineRef), answer);
    if answer.Err? {
      StopExplained(config, name, calls, call, m, BaselineFailure(answer.error));
    } else {
      CallAdds(name, calls, call);
      assert Bypassing(m).errors[|m.errors|] in Bypassing(m).errors;
    }
  }

  lemma UpdateExplained(config: RunnerConfig, name: DnpName, calls: seq<Call>, preview: Preview, m: Record, answer: Result<(), PackageError>)
    requires calls != [] && Explained(config, name, calls, At(UpdateCandidate(preview), m))
    ensures Explained(config, name, calls + [Mutating(UpdatePackage(m.request.candidateRef), answer)], AfterUpdate(m, preview, answer))
  {
    hide Stops, CaptureKnown, MeasurementsKnown, BypassRecorded, Bypassed, StopWith, Approach;
    var call := Mutating(UpdatePackage(m.request.candidateRef), answer);
    if answer.Err? {
      StopExplained(config, name, calls, call, m, CandidateFailure(answer.error));
    } else {
      StillKnown(config, name, calls, call, UpdateCandidate(preview), m);
      LeaveExplained(config, name, calls + [call], UpdateCandidate(preview), m, ToStabilization(Candidate, preview));
    }
  }

  lemma MutatedExplained(config: RunnerConfig, name: DnpName, calls: seq<Call>, p: Point, m: Record, answer: Result<(), PackageError>)
    requires calls != [] && MutationAt(p, m).Some? && Explained(config, name, calls, At(p, m))
    ensures Explained(config, name, calls + [Mutating(MutationAt(p, m).value, answer)], AfterMutation(p, m, answer))
  {
    hide Explained, StopWith, Approach, AfterInstall, AfterUpdate;
    match p
    case RemoveInstalled(preview) => RemovalExplained(config, name, calls, preview, m, answer);
    case InstallBaseline(preview) => InstallExplained(config, name, calls, preview, m, answer);
    case BypassSignature(preview) => BypassExplained(config, name, calls, preview, m, answer);
    case UpdateCandidate(preview) => UpdateExplained(config, name, calls, preview, m, answer);
    case _ =>
  }

  // ---------------------------------------------------------------- questions

  lemma ToolsExplained(config: RunnerConfig, name: DnpName, calls: seq<Call>, m: Record, tools: Result<bool, PackageError>)
    requires calls != [] && Explained(config, name, calls, At(VerifyTools, m))
    ensures Explained(config, name, calls + [Verifying(tools)], AfterTools(m, tools))
  {
    hide Stops, PhasesKnown, CaptureKnown, MeasurementsKnown, BypassRecorded, Bypassed, StopWith;
    var call := Verifying(tools);
    if tools.Err? {
      StopExplained(config, name, calls, call, m, PackageFailure(tools.error, McpUnavailable));
    } else if !tools.value {
      StopExplained(config, name, calls, call, m, InfrastructureFailure(RequiredMcpToolsMissing));
    } else if name == HARNESS_DNP_NAME {
      StopExplained(config, name, calls, call, m, InfrastructureFailure(HarnessPackageRefused));
    } else {
      StillKnown(config, name, calls, call, VerifyTools, m);
      SameKnown(config, name, calls + [call], VerifyTools, m, ReadInventory, m);
    }
  }

  lemma InventoryExplained(config: RunnerConfig, name: DnpName, calls: seq<Call>, m: Record, listing: Listing)
    requires calls != [] && Explained(config, name, calls, At(ReadInventory, m))
    ensures Explained(config, name, calls + [Reading(None, listing, 0)], AfterInventory(m, listing))
  {
    hide Stops, CaptureKnown, MeasurementsKnown, BypassRecorded, Bypassed, StopWith;
    var call := Reading(None, listing, 0);
    match listing
    case Inventory(packages) =>
      if InstalledAsCore(packages, m.request.dnpName) {
        StopExplained(config, name, calls, call, m, InfrastructureFailure(CorePackageRefused));
      } else {
        StillKnown(config, name, calls, call, ReadInventory, m);
        SameKnown(config, name, calls + [call], ReadInventory, m, SaveInventory, m.(evidence := m.evidence.(initialPackages := packages)));
      }
    case ListFailed(error) => StopExplained(config, name, calls, call, m, PackageFailure(error, McpUnavailable));
    case ListTimedOut =>
  }

  lemma BaselinePreviewExplained(config: RunnerConfig, name: DnpName, calls: seq<Call>, m: Record, call: Call)
    requires calls != [] && call.Previewing? && Explained(config, name, calls, At(PreviewBaseline, m))
    ensures Explained(config, name, calls + [call], AfterBaselinePreview(m, call.preview))
  {
    hide Stops, SideMeasured, MeasuredIn, BypassRecorded, Bypassed, StopWith, Approach, InstalledVersionMatches;
    if call.preview.Err? {
      StopExplained(config, name, calls, call, m, PackageFailure(call.preview.error, BaselineUnavailable));
    } else {
      CallAdds(name, calls, call);
      EnterExplained(config, name, calls + [call], m, ToBaselineInstall(call.preview.value, false));
    }
  }

  lemma CandidatePreviewExplained(config: RunnerConfig, name: DnpName, calls: seq<Call>, m: Record, call: Call)
    requires calls != [] && call.Previewing? && Explained(config, name, calls, At(PreviewCandidate, m))
    ensures Explained(config, name, calls + [call], AfterCandidatePreview(m, call.preview))
  {
    hide Stops, SideMeasured, MeasuredIn, BypassRecorded, Bypassed, StopWith, Approach;
    if call.preview.Err? {
      StopExplained(config, name, calls, call, m, PackageFailure(call.preview.error, CandidateInstallFailed));
    } else {
      CallAdds(name, calls, call);
      MeasurementsLast(config, calls, call);
      EnterExplained(config, name, calls + [call], m, ToCandidateInstall(call.preview.value));
    }
  }

  lemma InspectionExplained(config: RunnerConfig, name: DnpName, calls: seq<Call>, preview: Preview, m: Record, call: Call, reuse: bool)
    requires calls != [] && call.Detailing? && Explained(config, name, calls, At(InspectInstalled(preview), m))
    ensures Explained(config, name, calls + [call], Approach(m, ToBaselineInstall(preview, reuse)))
  {
    hide Stops, SideMeasured, MeasuredIn, BypassRecorded, Bypassed, Approach;
    CallAdds(name, calls, call);
    EnterExplained(config, name, calls + [call], m, ToBaselineInstall(preview, reuse));
  }

  lemma CheckExplained(config: RunnerConfig, name: DnpName, calls: seq<Call>, side: Side, preview: Preview, m: Record, call: Call)
    requires calls != [] && call.Measuring? && IsCheck(config, call.seen, call.stopped)
    requires Explained(config, name, calls, At(Stabilize(side, preview), m))
    ensures Explained(config, name, calls + [call], At(ReadSignalAfter(side, preview, Measured(call.seen), call.stopped), m))
  {
    hide Stops, SideMeasured, MeasuredIn, IsMeasurement, BypassRecorded, Bypassed, Measured, IsCheck;
    CheckMeasures(config, call);
    CallAdds(name, calls, call);
    MeasurementsLast(config, calls, call);
    assert call in calls + [call];
  }

  lemma CheckMeasures(config: RunnerConfig, call: Call)
    requires call.Measuring? && IsCheck(config, call.seen, call.stopped)
    ensures IsMeasurement(config, call, Measured(call.seen))
  {
    hide Stabilization.PassesAt, Stabilization.WindowIsOver, Stabilization.NoEarlierPass;
  }

  lemma DetailsExplained(config: RunnerConfig, name: DnpName, calls: seq<Call>, side: Side, preview: Preview,
                         stabilization: Stabilization.StabilizationResult, m: Record, details: Result<PackageDetails, PackageError>)
    requires calls != [] && Explained(config, name, calls, At(ReadDetails(side, preview, stabilization), m))
    ensures Explained(config, name, calls + [Detailing(details)], AfterDetails(m, side, preview, stabilization, details))
  {
    hide Stops, SideMeasured, MeasuredIn, BypassRecorded, Bypassed, StopWith;
    if details.Err? {
      StopExplained(config, name, calls, Detailing(details), m, PackageFailure(details.error, UnavailableReason(side)));
    } else {
      CallAdds(name, calls, Detailing(details));
      MeasurementsLast(config, calls, Detailing(details));
    }
  }

  lemma LogsExplained(config: RunnerConfig, name: DnpName, calls: seq<Call>, side: Side, preview: Preview,
                      stabilization: Stabilization.StabilizationResult, details: PackageDetails, m: Record, logs: Result<(), PackageError>)
    requires calls != [] && Explained(config, name, calls, At(ReadLogs(side, preview, stabilization, details), m))
    ensures Explained(config, name, calls + [Logging(logs)],
                      At(SaveCapture(side), Capturing(m, side, preview, stabilization, details, logs)))
  {
    hide Stops, MeasuredIn, BypassRecorded, Bypassed;
    StillKnown(config, name, calls, Logging(logs), ReadLogs(side, preview, stabilization, details), m);
  }

  lemma JudgingExplained(config: RunnerConfig, name: DnpName, calls: seq<Call>, m: Record, analysis: Result<LogAnalysis, string>)
    requires calls != [] && Explained(config, name, calls, At(Analyze, m))
    ensures Explained(config, name, calls + [Analyzing(analysis)], At(SaveAnalysis, Judging(m, analysis)))
  {
    hide Stops, SideMeasured, BypassRecorded, Bypassed, Comparisons.Compare, Mismatched;
    var longer := calls + [Analyzing(analysis)];
    CallAdds(name, calls, Analyzing(analysis));
    MeasurementsLast(config, calls, Analyzing(analysis));
    assert Analyzed(longer, Judging(m, analysis));
  }

  lemma CleaningExplained(config: RunnerConfig, name: DnpName, calls: seq<Call>, p: Point, m: Record, call: Call)
    requires calls != [] && p.CleanUp? && Explained(config, name, calls, At(p, m))
    ensures Explained(config, name, calls + [call], Asked(config, p, m, call))
  {
    hide CleanupScript.Outcome, Stops, MeasuredIn, BypassRecorded, Bypassed, Comparisons.Compare, Critical;
    CallAdds(name, calls, call);
    MeasurementsLast(config, calls, call);
  }

  lemma AstrayIsExplained(config: RunnerConfig, name: DnpName, calls: seq<Call>)
    ensures Explained(config, name, calls, Astray)
  {
  }

  lemma AskedExplained(config: RunnerConfig, name: DnpName, calls: seq<Call>, p: Point, m: Record, call: Call)
    requires calls != [] && !IsSave(p) && MutationAt(p, m).None? && Explained(config, name, calls, At(p, m))
    ensures Explained(config, name, calls + [call], Asked(config, p, m, call))
  {
    hide Explained, StopWith, Approach, AfterTools, AfterInventory, AfterBaselinePreview, AfterCandidatePreview, AfterDetails, Capturing, Judging;
    hide IsCheck, Measured, OriginMatches;
    AstrayIsExplained(config, name, calls + [call]);
    match p
    case ReadSignal(_) => SignalExplained(config, name, calls, call, p, m);
    case ReadSignalAfter(_, _, _, _) => SignalExplained(config, name, calls, call, p, m);
    case VerifyTools => if call.Verifying? { ToolsExplained(config, name, calls, m, call.tools); }
    case ReadInventory =>
      if call.Reading? && call.deadline.None? && call.elapsed == 0 { InventoryExplained(config, name, calls, m, call.listing); }
    case PreviewBaseline => if call.Previewing? { BaselinePreviewExplained(config, name, calls, m, call); }
    case PreviewCandidate => if call.Previewing? { CandidatePreviewExplained(config, name, calls, m, call); }
    case InspectInstalled(preview) =>
      if call.Detailing? { InspectionExplained(config, name, calls, preview, m, call, OriginMatches(preview, call.details)); }
    case Stabilize(side, preview) =>
      if call.Measuring? && IsCheck(config, call.seen, call.stopped) { CheckExplained(config, name, calls, side, preview, m, call); }
    case ReadDetails(side, preview, stabilization) =>
      if call.Detailing? { DetailsExplained(config, name, calls, side, preview, stabilization, m, call.details); }
    case ReadLogs(side, preview, stabilization, details) =>
      if call.Logging? { LogsExplained(config, name, calls, side, preview, stabilization, details, m, call.logs); }
    case Analyze => if call.Analyzing? { JudgingExplained(config, name, calls, m, call.analysis); }
    case CleanUp(_, _) => CleaningExplained(config, name, calls, p, m, call);
  }

  /** The finished record reports the failure that stopped the run or, if none did, the ruling on its evidence. */
  lemma ConclusionRules(m: Record, failure: Option<Failure>)
    requires failure.Some? ==> failure.value.verdict != Verdict.Passed
    ensures var result := Concluding(m, failure).result;
            && result.Some?
            && Ruling(result.value.verdict, result.value.reasonCode)
               == if failure.Some? then Ruling(failure.value.verdict, failure.value.reason)
                  else RulingOn(ComparisonOf(m.evidence).baselineHardCheck, ComparisonOf(m.evidence).candidateHardCheck,
                                AnalysisOf(m.evidence).status.Critical?, m.cleanup.status, BypassRecorded(m.errors))
  {
    CleanupIsNoBypass(m);
    hide ComparisonOf, AnalysisOf, BypassRecorded, CleanupErrors, Comparisons.SideOf, Persisted;
  }

  // ---------------------------------------------------------------- whole executions

  lemma NextExplained(config: RunnerConfig, name: DnpName, calls: seq<Call>, stage: Stage, call: Call)
    requires calls != [] && Explained(config, name, calls, stage)
    ensures Explained(config, name, calls + [call], Next(config, stage, call))
  {
    hide Explained, Asked, AfterMutation, OnceSaved, OnceUnsaved, MutationAt, Persisted;
    AstrayIsExplained(config, name, calls + [call]);
    if stage.At? {
      if IsSave(stage.point) {
        if call.Saving? && call.record == Persisted(stage.m) {
          SavedExplained(config, name, calls, stage.point, stage.m, call.stored);
        }
      } else if MutationAt(stage.point, stage.m).Some? {
        if call.Mutating? && Some(call.mutation) == MutationAt(stage.point, stage.m) {
          MutatedExplained(config, name, calls, stage.point, stage.m, call.answer);
        }
      } else {
        AskedExplained(config, name, calls, stage.point, stage.m, call);
      }
    } else {
      NeverUnloaded(config, name, calls);
    }
  }

  lemma NeverUnloaded(config: RunnerConfig, name: DnpName, calls: seq<Call>)
    ensures !Explained(config, name, calls, Unloaded)
  {
  }

  lemma LoadingStopsNothing(name: DnpName, calls: seq<Call>)
    requires |calls| == 1 && calls[0].Loading?
    ensures Stops(name, calls) == [] && LastPhase(calls) == QueuedPhase
  {
    assert calls[..0] == [];
  }

  lemma StartExplained(config: RunnerConfig, calls: seq<Call>)
    requires LoadsQueued(calls) && |calls| == 1
    ensures Explained(config, calls[0].loaded.value.request.dnpName, calls, Next(config, Unloaded, calls[0]))
  {
    hide Stops, LastPhase;
    LoadingStopsNothing(calls[0].loaded.value.request.dnpName, calls);
    assert forall call :: call in calls ==> call == calls[0];
  }

  /** However far an execution has got: what stopped it, if anything did, is among its calls. */
  lemma {:induction false} EveryStepIsExplained(config: RunnerConfig, calls: seq<Call>)
    requires LoadsQueued(calls)
    ensures Explained(config, calls[0].loaded.value.request.dnpName, calls, StageOf(config, calls))
  {
    hide Explained, Next;
    var n := |calls| - 1;
    if n == 0 {
      assert calls[..0] == [];
      StartExplained(config, calls);
    } else {
      EveryStepIsExplained(config, calls[..n]);
      assert calls == calls[..n] + [calls[n]];
      NextExplained(config, calls[0].loaded.value.request.dnpName, calls[..n], StageOf(config, calls[..n]), calls[n]);
    }
  }

  /**
   * The verdict of every finished execution: that of the one answer that stopped it, by the table, or if there is
   * none that of two whole checks, the analysis, the cleanup and the signatures.
   */
  lemma VerdictIsExplained(config: RunnerConfig, calls: seq<Call>, stored: Record)
    requires LoadsQueued(calls) && Executes(calls, config, true, stored)
    ensures Judged(config, calls[0].loaded.value.request.dnpName, calls, stored)
  {
    hide StageOf, Stops, MeasuredIn, Critical, Bypassed;
    EveryStepIsExplained(config, calls);
  }

  lemma {:induction false} StopIsListed(name: DnpName, calls: seq<Call>, k: nat)
    requires k < |calls| && StopBy(name, calls[..k], calls[k]).Some?
    ensures StopBy(name, calls[..k], calls[k]).value in Stops(name, calls)
  {
    hide StopBy;
    var n := |calls| - 1;
    if k < n {
      assert calls[..n][..k] == calls[..k];
      StopIsListed(name, calls[..n], k);
    }
  }

  lemma {:induction false} ListedStopWasMade(name: DnpName, calls: seq<Call>, ruling: Ruling) returns (k: nat)
    requires ruling in Stops(name, calls)
    ensures k < |calls| && StopBy(name, calls[..k], calls[k]) == Some(ruling)
  {
    hide StopBy;
    var n := |calls| - 1;
    if ruling in Stops(name, calls[..n]) {
      k := ListedStopWasMade(name, calls[..n], ruling);
      assert calls[..n][..k] == calls[..k];
    } else {
      k := n;
    }
  }

  /** Any answer that stops a run, wherever it came, is the one the run reports. */
  lemma StopIsReported(config: RunnerConfig, calls: seq<Call>, stored: Record, k: nat)
    requires LoadsQueued(calls) && Executes(calls, config, true, stored) && k < |calls|
    requires StopBy(calls[0].loaded.value.request.dnpName, calls[..k], calls[k]).Some?
    ensures stored.result.Some?
    ensures StopBy(calls[0].loaded.value.request.dnpName, calls[..k], calls[k])
            == Some(Ruling(stored.result.value.verdict, stored.result.value.reasonCode))
  {
    hide StopBy, Stops, Tested, Executes;
    VerdictIsExplained(config, calls, stored);
    StopIsListed(calls[0].loaded.value.request.dnpName, calls, k);
  }

  /** A signal that was seen and a save that failed are what the run reports, whatever else happened. */
  lemma SignalsAndSavesDecide(config: RunnerConfig, calls: seq<Call>, stored: Record)
    requires LoadsQueued(calls) && Executes(calls, config, true, stored)
    ensures stored.result.Some?
    ensures Signalling(CancelRequested) in calls ==>
              stored.result.value.verdict == Inconclusive && stored.result.value.reasonCode == CancellationRequested
    ensures Signalling(ClaimLostControl) in calls ==>
              stored.result.value.verdict == InfrastructureError && stored.result.value.reasonCode == ClaimLost
    ensures (exists call :: call in calls && call.Saving? && !call.stored) ==>
              stored.result.value.verdict == InfrastructureError && stored.result.value.reasonCode == PersistenceFailed
  {
    hide Stops, Tested, Executes, Mismatched;
    VerdictIsExplained(config, calls, stored);
    forall k | 0 <= k < |calls| && (calls[k].Signalling? || calls[k].Saving?) && StopBy(calls[0].loaded.value.request.dnpName, calls[..k], calls[k]).Some?
      ensures StopBy(calls[0].loaded.value.request.dnpName, calls[..k], calls[k])
              == Some(Ruling(stored.result.value.verdict, stored.result.value.reasonCode))
    {
      StopIsReported(config, calls, stored, k);
    }
  }

  /** The update was rejected for good: not by a timeout, nor in a message that calls for another attempt. */
  predicate UpdateRejected(call: Call) {
    && call.Mutating? && call.mutation.UpdatePackage? && call.answer.Err?
    && call.answer.error.kind != Timeout
    && !(call.answer.error.transientText && (call.answer.error.kind == Transport || call.answer.error.kind == Tool))
  }

  /** The baseline passed its whole check and the candidate, in its whole window, did not. */
  ghost predicate Regressed(config: RunnerConfig, calls: seq<Call>, m: Record) {
    && SideMeasured(config, calls, m.evidence.baseline) && SideMeasured(config, calls, m.evidence.candidate)
    && m.evidence.baseline.value.stabilization.passed && !m.evidence.candidate.value.stabilization.passed
  }

  /** A candidate is failed for exactly two things: a rejected update, and a regression in a run that nothing stopped. */
  lemma FailedExactlyWhen(config: RunnerConfig, calls: seq<Call>, stored: Record)
    requires LoadsQueued(calls) && Executes(calls, config, true, stored)
    ensures stored.result.Some?
    ensures stored.result.value.verdict == Verdict.Failed <==>
            || (exists call :: call in calls && UpdateRejected(call))
            || (Stops(calls[0].loaded.value.request.dnpName, calls) == [] && Regressed(config, calls, stored))
    ensures stored.result.value.verdict == Verdict.Failed ==>
              stored.result.value.reasonCode
              == if exists call :: call in calls && UpdateRejected(call) then CandidateInstallFailed else CandidateContainersUnstable
  {
    var name := calls[0].loaded.value.request.dnpName;
    hide Stops, SideMeasured, Executes, StopBy;
    VerdictIsExplained(config, calls, stored);
    forall call | call in calls && UpdateRejected(call)
      ensures Ruling(Verdict.Failed, CandidateInstallFailed) in Stops(name, calls)
    {
      RejectionIsListed(name, calls, call);
    }
    if Stops(name, calls) != [] && stored.result.value.verdict == Verdict.Failed {
      FailedStopIsRejection(name, calls, Ruling(stored.result.value.verdict, stored.result.value.reasonCode));
    }
  }

  lemma RejectionIsListed(name: DnpName, calls: seq<Call>, call: Call)
    requires call in calls && UpdateRejected(call)
    ensures Ruling(Verdict.Failed, CandidateInstallFailed) in Stops(name, calls)
  {
    hide Stops;
    var k :| 0 <= k < |calls| && calls[k] == call;
    StopIsListed(name, calls, k);
  }

  lemma FailedStopIsRejection(name: DnpName, calls: seq<Call>, ruling: Ruling)
    requires ruling in Stops(name, calls) && ruling.verdict == Verdict.Failed
    ensures ruling.reason == CandidateInstallFailed && exists call :: call in calls && UpdateRejected(call)
  {
    hide Stops;
    var k := ListedStopWasMade(name, calls, ruling);
    assert calls[k] in calls && UpdateRejected(calls[k]);
  }
}
