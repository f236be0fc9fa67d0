/** Evidence comparison and the verdict (src/runner/comparison.rs, src/runner/result.rs). */
module Comparisons {
  import opened Wrappers
  import opened Model
  import Evidence
  import Names
  import Stabilization

  function ContainerNames(capture: CaptureEvidence): seq<string> {
    if capture.details.Some? then Names.Sorted(Stabilization.NamesOf(capture.details.value.containers)) else []
  }

  function NameSet(names: seq<string>): set<string> {
    set n | n in names
  }

  function VersionOf(capture: CaptureEvidence): Option<string> {
    if capture.details.Some? then capture.details.value.version else None
  }

  function Compare(baseline: CaptureEvidence, candidate: CaptureEvidence): Comparison {
    var before, after := ContainerNames(baseline), ContainerNames(candidate);
    Comparison(
      baseline.stabilization.passed, candidate.stabilization.passed, before, after,
      NameSet(after) - NameSet(before), NameSet(before) - NameSet(after),
      VersionOf(baseline), VersionOf(candidate),
      baseline.stabilization.passed && !candidate.stabilization.passed)
  }

  function DeterministicVerdict(comparison: Comparison, analysis: LogAnalysis): (Verdict, ReasonCode) {
    match (comparison.baselineHardCheck, comparison.candidateHardCheck)
    case (true, false) => (Verdict.Failed, CandidateContainersUnstable)
    case (true, true) =>
      if analysis.status.Critical? then (Warning, CandidateContainersStable) else (Passed, CandidateContainersStable)
    case (false, true) => (Warning, BaselineContainersUnstable)
    case (false, false) => (Inconclusive, BaselineContainersUnstable)
  }

  /**
   * `applied_version`: the package reports the version and the install origin its preview resolved.
   * An unreported version is not held against the mutation, a different origin always is.
   */
  predicate AppliedAsPreviewed(capture: CaptureEvidence) {
    var expected := if capture.preview.Some? then Evidence.SemanticVersion(capture.preview.value.version) else None;
    var reported := VersionOf(capture);
    && (expected.Some? && reported.Some? ==> expected == reported)
    && (capture.details.Some? ==>
          Evidence.SameInstallOrigin(
            if capture.preview.Some? then capture.preview.value.resolvedRef else None,
            capture.details.value.origin))
  }

  /**
   * The details are those of the previewed build: they report its version, as far as both tell a released one,
   * and name the same content identifier, or like the preview none.
   */
  ghost predicate IsPreviewedBuild(preview: Preview, details: PackageDetails) {
    && (Evidence.IsRelease(preview.version) && details.version.Some? ==> details.version == preview.version)
    && Evidence.ReferAlike(preview.resolvedRef, details.origin)
  }

  lemma AppliedIsPreviewedBuild(capture: CaptureEvidence)
    requires capture.preview.Some? && capture.details.Some?
    ensures AppliedAsPreviewed(capture) <==> IsPreviewedBuild(capture.preview.value, capture.details.value)
  {
    hide Evidence.ReferAlike, Evidence.SameInstallOrigin;
    Evidence.SameOriginIffReferAlike(capture.preview.value.resolvedRef, capture.details.value.origin);
  }

  // ---------------------------------------------------------------- the result

  const INCONCLUSIVE_ANALYSIS := AnalysisFailure("run ended before comparative log analysis")

  function AnalysisFailure(message: string): LogAnalysis {
    LogAnalysis(AnalyzerStatus.InconclusiveAnalysis, [], [message])
  }

  /** What can still be compared when the run stopped early. */
  function ComparisonFromPartial(evidence: RunEvidence): Comparison {
    if evidence.baseline.Some? && evidence.candidate.Some? then Compare(evidence.baseline.value, evidence.candidate.value)
    else Comparison(
           evidence.baseline.Some? && evidence.baseline.value.stabilization.passed, false, [], [], {}, {},
           if evidence.baseline.Some? then VersionOf(evidence.baseline.value) else None, None, false)
  }

  function SideOf(capture: Option<CaptureEvidence>): ResultSide {
    if capture.None? then ResultSide(false, false, 0, 0, false)
    else
      var c := capture.value;
      ResultSide(true, c.stabilization.passed, if c.details.Some? then |c.details.value.containers| else 0,
                 c.stabilization.stableSamples, c.logsCollected)
  }

  function BuildResult(r: Record, comparison: Comparison, analysis: LogAnalysis, verdict: Verdict, reason: ReasonCode): HarnessResult {
    HarnessResult(r.request.runId, verdict, reason, SideOf(r.evidence.baseline), SideOf(r.evidence.candidate),
                  comparison, analysis, r.cleanup, r.errors)
  }

  /** What the result says of a side: nothing was installed, or what its capture holds. */
  predicate TellsSide(side: ResultSide, capture: Option<CaptureEvidence>) {
    match capture
    case None => side == ResultSide(false, false, 0, 0, false)
    case Some(c) =>
      && side.installed
      && (side.hardCheckPassed <==> c.stabilization.passed)
      && side.stableSamples == c.stabilization.stableSamples
      && (side.logsCollected <==> c.logsCollected)
      && side.containerCount == if c.details.Some? then |c.details.value.containers| else 0
  }

  /** Which containers were listed, how often, and whether the candidate fell behind. */
  ghost predicate TellsComparison(comparison: Comparison, baseline: CaptureEvidence, candidate: CaptureEvidence) {
    && (comparison.baselineHardCheck <==> baseline.stabilization.passed)
    && (comparison.candidateHardCheck <==> candidate.stabilization.passed)
    && (comparison.regressed <==> baseline.stabilization.passed && !candidate.stabilization.passed)
    && comparison.baselineVersion == (if baseline.details.Some? then baseline.details.value.version else None)
    && comparison.candidateVersion == (if candidate.details.Some? then candidate.details.value.version else None)
    && multiset(comparison.baselineContainers) == multiset(Listed(baseline))
    && multiset(comparison.candidateContainers) == multiset(Listed(candidate))
    && comparison.containersAdded == (set n | n in Listed(candidate) && n !in Listed(baseline))
    && comparison.containersRemoved == (set n | n in Listed(baseline) && n !in Listed(candidate))
  }

  function Listed(capture: CaptureEvidence): seq<string> {
    if capture.details.Some? then Stabilization.NamesOf(capture.details.value.containers) else []
  }

  lemma ContainersAreListed(capture: CaptureEvidence)
    ensures multiset(ContainerNames(capture)) == multiset(Listed(capture))
    ensures forall n :: n in ContainerNames(capture) <==> n in Listed(capture)
  {
    Names.SortedKeepsNames(Listed(capture));
    hide Names.Sorted;
    assert forall n :: n in ContainerNames(capture) <==> n in multiset(ContainerNames(capture));
    assert forall n :: n in Listed(capture) <==> n in multiset(Listed(capture));
  }

  lemma ComparedAsCaptured(baseline: CaptureEvidence, candidate: CaptureEvidence)
    ensures TellsComparison(Compare(baseline, candidate), baseline, candidate)
  {
    hide Names.Sorted;
    ContainersAreListed(baseline);
    ContainersAreListed(candidate);
  }

  /** A run that stopped early compares what there is: a side that was not captured did not pass, and nothing regressed. */
  lemma PartialTellsWhatThereIs(evidence: RunEvidence)
    ensures var c := ComparisonFromPartial(evidence);
            if evidence.baseline.Some? && evidence.candidate.Some? then TellsComparison(c, evidence.baseline.value, evidence.candidate.value)
            else
              && (c.baselineHardCheck <==> evidence.baseline.Some? && evidence.baseline.value.stabilization.passed)
              && !c.candidateHardCheck && !c.regressed && c.candidateVersion.None?
              && (evidence.baseline.Some? && evidence.baseline.value.details.Some? ==>
                    c.baselineVersion == evidence.baseline.value.details.value.version)
              && c.baselineContainers == [] && c.candidateContainers == [] && c.containersAdded == {} && c.containersRemoved == {}
  {
    if evidence.baseline.Some? && evidence.candidate.Some? {
      ComparedAsCaptured(evidence.baseline.value, evidence.candidate.value);
    }
  }

  /** The result reports the run, its sides, its cleanup and its errors as the record has them. */
  lemma ResultTellsRecord(r: Record, comparison: Comparison, analysis: LogAnalysis, verdict: Verdict, reason: ReasonCode)
    ensures var result := BuildResult(r, comparison, analysis, verdict, reason);
            && result.runId == r.request.runId && result.verdict == verdict && result.reasonCode == reason
            && TellsSide(result.baseline, r.evidence.baseline) && TellsSide(result.candidate, r.evidence.candidate)
            && result.comparison == comparison && result.logAnalysis == analysis
            && result.cleanup == r.cleanup && result.errors == r.errors
  {
  }

  datatype Failure = Failure(verdict: Verdict, reason: ReasonCode)

  function CleanupOutcomeFailed(status: CleanupStatus): bool {
    status.CleanupFailed? || status.CleanupTimedOut?
  }

  /** The verdict the run reports: that of its failure or its evidence, lowered by cleanup and a signature bypass. */
  function FinalVerdict(failure: Option<Failure>, comparison: Comparison, analysis: LogAnalysis,
                        cleanup: CleanupStatus, bypassRecorded: bool): (Verdict, ReasonCode) {
    var (verdict, reason) :=
      if failure.Some? then (failure.value.verdict, failure.value.reason) else DeterministicVerdict(comparison, analysis);
    var (cleaned, cleanedReason) :=
      if CleanupOutcomeFailed(cleanup) && verdict.Passed? then (Warning, ReasonCode.CleanupFailed) else (verdict, reason);
    if bypassRecorded && cleaned.Passed? then (Warning, BaselineSignatureInvalid) else (cleaned, cleanedReason)
  }

  /** Exactly when a run passes. */
  lemma PassedExactlyWhen(failure: Option<Failure>, comparison: Comparison, analysis: LogAnalysis,
                          cleanup: CleanupStatus, bypassRecorded: bool)
    requires failure.Some? ==> !failure.value.verdict.Passed?
    ensures FinalVerdict(failure, comparison, analysis, cleanup, bypassRecorded).0.Passed? <==>
            && failure.None? && comparison.baselineHardCheck && comparison.candidateHardCheck
            && !analysis.status.Critical? && !CleanupOutcomeFailed(cleanup) && !bypassRecorded
  {
  }

  /**
   * What the other verdicts mean for a run whose algorithm succeeded: Failed is a regression, Inconclusive
   * says that neither side was healthy, and Warning that the candidate was healthy but something else was not.
   */
  lemma VerdictExplainsEvidence(baseline: CaptureEvidence, candidate: CaptureEvidence, analysis: LogAnalysis,
                                cleanup: CleanupStatus, bypassRecorded: bool)
    ensures var c := Compare(baseline, candidate);
            var verdict := FinalVerdict(None, c, analysis, cleanup, bypassRecorded).0;
            && (verdict.Failed? <==> c.regressed)
            && (verdict.Inconclusive? <==> !baseline.stabilization.passed && !candidate.stabilization.passed)
            && (verdict.Warning? <==>
                  && candidate.stabilization.passed
                  && (!baseline.stabilization.passed || analysis.status.Critical? || CleanupOutcomeFailed(cleanup) || bypassRecorded))
            && !verdict.InfrastructureError?
  {
  }

  /** Whatever the analyzer answers, it only moves the verdict between Passed and Warning. */
  lemma AnalysisIsAdvisory(failure: Option<Failure>, comparison: Comparison, one: LogAnalysis, other: LogAnalysis,
                           cleanup: CleanupStatus, bypassRecorded: bool)
    ensures var a, b := FinalVerdict(failure, comparison, one, cleanup, bypassRecorded).0, FinalVerdict(failure, comparison, other, cleanup, bypassRecorded).0;
            a == b || {a, b} == {Verdict.Passed, Warning}
  {
  }

  /** The added and removed containers are what turns one name set into the other. */
  lemma ComparisonExplainsChange(baseline: CaptureEvidence, candidate: CaptureEvidence)
    ensures var c := Compare(baseline, candidate);
            var before, after := NameSet(c.baselineContainers), NameSet(c.candidateContainers);
            && c.containersAdded !! before && c.containersRemoved <= before
            && (before - c.containersRemoved) + c.containersAdded == after
            && (before == after <==> c.containersAdded == {} && c.containersRemoved == {})
  {
  }
}
