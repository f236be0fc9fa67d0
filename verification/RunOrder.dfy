/** What the script of a run says about the order of its phases and of its mutations (src/runner/controller.rs). */
module RunOrder {
  import opened Wrappers
  import opened Model
  import opened Protocol
  import opened Adapter
  import opened Calls
  import opened RunScript
  import CleanupScript
  import Comparisons

  // ---------------------------------------------------------------- phases

  const ALGORITHM_PHASES := [
    Preflight, BaselinePreview, BaselineInstall, BaselineStabilization, BaselineCapture,
    CandidatePreview, CandidateInstall, CandidateStabilization, CandidateCapture, Analysis]

  function Rank(b: Boundary): nat {
    match b
    case ToPreflight => 1
    case ToBaselinePreview => 2
    case ToBaselineInstall(_, _) => 3
    case ToStabilization(side, _) => if side.Baseline? then 4 else 8
    case ToCapture(side, _, _) => if side.Baseline? then 5 else 9
    case ToCandidatePreview => 6
    case ToCandidateInstall(_) => 7
    case ToAnalysis => 10
  }

  /** How many phases of the algorithm a run at this point has entered; None once the algorithm is over. */
  function Entered(p: Point): Option<nat> {
    match p
    case SaveStart => Some(0)
    case SavePhase(b) => Some(Rank(b))
    case ReadSignal(b) => Some(Rank(b))
    case VerifyTools => Some(1)
    case ReadInventory => Some(1)
    case SaveInventory => Some(1)
    case SavePlan => Some(1)
    case PreviewBaseline => Some(2)
    case InspectInstalled(_) => Some(2)
    case SaveObligation(b) => Some(Rank(b))
    case RemoveInstalled(_) => Some(3)
    case InstallBaseline(_) => Some(3)
    case BypassSignature(_) => Some(3)
    case SaveBypass(_) => Some(3)
    case Stabilize(side, _) => Some(if side.Baseline? then 4 else 8)
    case ReadSignalAfter(side, _, _, _) => Some(if side.Baseline? then 4 else 8)
    case ReadDetails(side, _, _) => Some(if side.Baseline? then 5 else 9)
    case ReadLogs(side, _, _, _) => Some(if side.Baseline? then 5 else 9)
    case SaveCapture(side) => Some(if side.Baseline? then 5 else 9)
    case PreviewCandidate => Some(6)
    case UpdateCandidate(_) => Some(7)
    case Analyze => Some(10)
    case SaveAnalysis => Some(10)
    case _ => None
  }

  /** The algorithm went through its phases from the first one on, through all of them unless it failed. */
  ghost predicate WentThrough(history: seq<ExecutionPhase>, before: seq<ExecutionPhase>, failed: bool, tail: seq<ExecutionPhase>) {
    exists k: nat :: k <= |ALGORITHM_PHASES| && history == before + ALGORITHM_PHASES[..k] + tail && (failed || k == |ALGORITHM_PHASES|)
  }

  predicate NeverPasses(failure: Option<Failure>) {
    failure.Some? ==> !failure.value.verdict.Passed?
  }

  /** The run is in cleanup, after its algorithm. */
  ghost predicate CleansUp(m: Record, failure: Option<Failure>, before: seq<ExecutionPhase>) {
    m.worker.cleanupRequired && NeverPasses(failure) && WentThrough(m.phaseHistory, before, failure.Some?, [Cleanup])
  }

  /** A finished run went through Cleanup exactly if cleanup was owed; one that passed left out no phase. */
  ghost predicate FinishesInOrder(m: Record, before: seq<ExecutionPhase>) {
    && m.result.Some?
    && WentThrough(m.phaseHistory, before, !m.result.value.verdict.Passed?,
                   (if m.worker.cleanupRequired then [Cleanup] else []) + [Finished])
  }

  ghost predicate PhasesInOrder(stage: Stage, before: seq<ExecutionPhase>) {
    match stage
    case Unloaded => false
    case At(SaveCleanupPhase(failure), m) => CleansUp(m, failure, before)
    case At(CleanUp(_, failure), m) => CleansUp(m, failure, before)
    case At(SaveCleanup(failure), m) => CleansUp(m, failure, before)
    case At(SaveVerdict, m) => FinishesInOrder(m, before)
    case At(p, m) => Entered(p).Some? && m.phaseHistory == before + ALGORITHM_PHASES[..Entered(p).value]
    case Ended(ok, m) => ok ==> FinishesInOrder(m, before)
    case _ => true
  }

  lemma VerdictKeepsOrder(m: Record, failure: Option<Failure>, before: seq<ExecutionPhase>)
    requires NeverPasses(failure)
    requires WentThrough(m.phaseHistory, before, failure.Some?, if m.worker.cleanupRequired then [Cleanup] else [])
    ensures PhasesInOrder(ToVerdict(m, failure), before)
  {
    hide ComparisonOf, AnalysisOf, BypassRecorded, CleanupErrors, Comparisons.DeterministicVerdict, Persisted;
    var tail := if m.worker.cleanupRequired then [Cleanup] else [];
    var k: nat :| k <= |ALGORITHM_PHASES| && m.phaseHistory == before + ALGORITHM_PHASES[..k] + tail && (failure.Some? || k == |ALGORITHM_PHASES|);
    var finished := Concluding(m, failure);
    assert finished.phaseHistory == before + ALGORITHM_PHASES[..k] + (tail + [Finished]);
  }

  lemma WindUpKeepsOrder(m: Record, failure: Option<Failure>, before: seq<ExecutionPhase>, k: nat)
    requires NeverPasses(failure) && k <= |ALGORITHM_PHASES| && (failure.Some? || k == |ALGORITHM_PHASES|)
    requires m.phaseHistory == before + ALGORITHM_PHASES[..k]
    ensures PhasesInOrder(WindUp(m, failure), before)
  {
    hide ToVerdict;
    if m.worker.cleanupRequired {
      assert Phased(m, Cleanup).phaseHistory == before + ALGORITHM_PHASES[..k] + [Cleanup];
    } else {
      assert m.phaseHistory == before + ALGORITHM_PHASES[..k] + [];
      VerdictKeepsOrder(Unowed(m), failure, before);
    }
  }

  lemma StopKeepsOrder(m: Record, failure: Failure, before: seq<ExecutionPhase>, k: nat)
    requires !failure.verdict.Passed? && k <= |ALGORITHM_PHASES| && m.phaseHistory == before + ALGORITHM_PHASES[..k]
    ensures PhasesInOrder(StopWith(m, failure), before)
  {
    hide WindUp;
    WindUpKeepsOrder(Failing(m, failure), Some(failure), before, k);
  }

  lemma ApproachKeepsOrder(m: Record, b: Boundary, before: seq<ExecutionPhase>)
    requires m.phaseHistory == before + ALGORITHM_PHASES[..Rank(b) - 1]
    ensures PhasesInOrder(Approach(m, b), before)
  {
    assert ALGORITHM_PHASES[..Rank(b)] == ALGORITHM_PHASES[..Rank(b) - 1] + [PhaseOf(b)];
  }

  lemma CrossKeepsOrder(m: Record, b: Boundary, before: seq<ExecutionPhase>)
    requires m.phaseHistory == before + ALGORITHM_PHASES[..Rank(b)]
    ensures PhasesInOrder(Cross(m, b), before)
  {
    hide FindPackage;
    if b.ToBaselineInstall? && b.reuse {
      hide Approach;
      ApproachKeepsOrder(m, ToStabilization(Baseline, b.preview), before);
    }
  }

  lemma SaveKeepsOrder(p: Point, m: Record, before: seq<ExecutionPhase>, ok: bool)
    requires IsSave(p) && PhasesInOrder(At(p, m), before)
    ensures PhasesInOrder(if ok then OnceSaved(p, m) else OnceUnsaved(p, m), before)
  {
    hide Approach, StopWith, ToVerdict, WindUp, FindPackage, Comparisons.AppliedAsPreviewed;
    if !ok {
      if Entered(p).Some? {
        StopKeepsOrder(m, PERSISTENCE_FAILURE, before, Entered(p).value);
      }
      return;
    }
    match p
    case SaveStart => ApproachKeepsOrder(m, ToPreflight, before);
    case SavePlan => ApproachKeepsOrder(m, ToBaselinePreview, before);
    case SaveBypass(preview) => ApproachKeepsOrder(m, ToStabilization(Baseline, preview), before);
    case SaveCapture(side) =>
      StopKeepsOrder(m, InfrastructureFailure(MismatchReason(side)), before, Entered(p).value);
      ApproachKeepsOrder(m, if side.Baseline? then ToCandidatePreview else ToAnalysis, before);
    case SaveAnalysis => WindUpKeepsOrder(m, None, before, |ALGORITHM_PHASES|);
    case SaveCleanup(failure) => VerdictKeepsOrder(m, failure, before);
    case _ =>
  }

  lemma MutationKeepsOrder(p: Point, m: Record, before: seq<ExecutionPhase>, answer: Result<(), PackageError>)
    requires MutationAt(p, m).Some? && PhasesInOrder(At(p, m), before)
    ensures PhasesInOrder(AfterMutation(p, m, answer), before)
  {
    hide Approach, StopWith;
    var k := Entered(p).value;
    StopKeepsOrder(m, InfrastructureFailure(BaselineInstallFailed), before, k);
    if answer.Err? {
      StopKeepsOrder(m, BaselineFailure(answer.error), before, k);
      StopKeepsOrder(m, CandidateFailure(answer.error), before, k);
    }
    if p.InstallBaseline? {
      ApproachKeepsOrder(m, ToStabilization(Baseline, p.preview), before);
    } else if p.UpdateCandidate? {
      ApproachKeepsOrder(m, ToStabilization(Candidate, p.preview), before);
    }
  }

  lemma StopsKeepOrder(m: Record, before: seq<ExecutionPhase>, k: nat)
    requires k <= |ALGORITHM_PHASES| && m.phaseHistory == before + ALGORITHM_PHASES[..k]
    ensures forall failure: Failure :: !failure.verdict.Passed? ==> PhasesInOrder(StopWith(m, failure), before)
  {
    hide PhasesInOrder, StopWith;
    forall failure: Failure | !failure.verdict.Passed? ensures PhasesInOrder(StopWith(m, failure), before) {
      StopKeepsOrder(m, failure, before, k);
    }
  }

  /** An answer either stops the algorithm in the phase it is in, or leads on. */
  lemma AskedKeepsOrder(config: RunnerConfig, p: Point, m: Record, call: Call, before: seq<ExecutionPhase>)
    requires !IsSave(p) && MutationAt(p, m).None? && PhasesInOrder(At(p, m), before)
    ensures PhasesInOrder(Asked(config, p, m, call), before)
  {
    if p.CleanUp? {
      CleaningKeepsOrder(config, p.cleanup, p.failure, m, call, before);
    } else if p.ReadSignal? || p.ReadSignalAfter? {
      SignalKeepsOrder(config, p, m, call, before);
    } else if p.ReadInventory? || p.PreviewBaseline? || p.InspectInstalled? || p.PreviewCandidate? {
      InspectedKeepsOrder(config, p, m, call, before);
    } else if p.VerifyTools? || p.ReadDetails? {
      hide StopWith;
      StopsKeepOrder(m, before, Entered(p).value);
    } else {
      MeasuredKeepsOrder(config, p, m, call, before);
    }
  }

  lemma MeasuredKeepsOrder(config: RunnerConfig, p: Point, m: Record, call: Call, before: seq<ExecutionPhase>)
    requires p.Stabilize? || p.ReadLogs? || p.Analyze?
    requires PhasesInOrder(At(p, m), before)
    ensures PhasesInOrder(Asked(config, p, m, call), before)
  {
    hide IsCheck, Measured, Comparisons.ComparisonFromPartial;
  }

  lemma CleaningKeepsOrder(config: RunnerConfig, cleanup: CleanupScript.Stage, failure: Option<Failure>, m: Record, call: Call,
                           before: seq<ExecutionPhase>)
    requires CleansUp(m, failure, before)
    ensures PhasesInOrder(Asked(config, CleanUp(cleanup, failure), m, call), before)
  {
    hide CleanupScript.Next, CleanupScript.Outcome;
  }

  lemma SignalKeepsOrder(config: RunnerConfig, p: Point, m: Record, call: Call, before: seq<ExecutionPhase>)
    requires (p.ReadSignal? || p.ReadSignalAfter?) && PhasesInOrder(At(p, m), before)
    ensures PhasesInOrder(Asked(config, p, m, call), before)
  {
    hide Approach, StopWith, Cross;
    StopsKeepOrder(m, before, Entered(p).value);
    if p.ReadSignal? {
      CrossKeepsOrder(m, p.next, before);
    } else {
      ApproachKeepsOrder(m, ToCapture(p.side, p.preview, p.stabilization), before);
    }
  }

  lemma InspectedKeepsOrder(config: RunnerConfig, p: Point, m: Record, call: Call, before: seq<ExecutionPhase>)
    requires p.ReadInventory? || p.PreviewBaseline? || p.InspectInstalled? || p.PreviewCandidate?
    requires PhasesInOrder(At(p, m), before)
    ensures PhasesInOrder(Asked(config, p, m, call), before)
  {
    hide Approach, StopWith, InstalledVersionMatches, OriginMatches;
    StopsKeepOrder(m, before, Entered(p).value);
    if p.InspectInstalled? && call.Detailing? {
      ApproachKeepsOrder(m, ToBaselineInstall(p.preview, OriginMatches(p.preview, call.details)), before);
    } else if call.Previewing? && call.preview.Ok? {
      if p.PreviewBaseline? {
        ApproachKeepsOrder(m, ToBaselineInstall(call.preview.value, false), before);
      } else if p.PreviewCandidate? {
        ApproachKeepsOrder(m, ToCandidateInstall(call.preview.value), before);
      }
    }
  }

  /** Whatever is answered, the phases stay in order. */
  lemma NextKeepsOrder(config: RunnerConfig, stage: Stage, call: Call, before: seq<ExecutionPhase>)
    requires PhasesInOrder(stage, before)
    ensures PhasesInOrder(Next(config, stage, call), before)
  {
    hide Asked, AfterMutation, OnceSaved, OnceUnsaved, MutationAt, Entered;
    if stage.At? {
      if IsSave(stage.point) {
        SaveKeepsOrder(stage.point, stage.m, before, call.Saving? && call.stored);
      } else if MutationAt(stage.point, stage.m).Some? {
        if call.Mutating? {
          MutationKeepsOrder(stage.point, stage.m, before, call.answer);
        }
      } else {
        AskedKeepsOrder(config, stage.point, stage.m, call, before);
      }
    }
  }

  /** The execution begins with a queued record. */
  predicate LoadsQueued(calls: seq<Call>) {
    calls != [] && calls[0].Loading? && calls[0].loaded.Some? && calls[0].loaded.value.status.Queued?
  }

  /** However far an execution has got, and whatever it was answered, it went through its phases in order. */
  lemma {:induction false} PhasesFollowScript(config: RunnerConfig, calls: seq<Call>)
    requires LoadsQueued(calls)
    ensures PhasesInOrder(StageOf(config, calls), calls[0].loaded.value.phaseHistory)
  {
    hide PhasesInOrder, Next;
    var n := |calls| - 1;
    if n == 0 {
      QueuedStarts(config, calls[0]);
    } else {
      PhasesFollowScript(config, calls[..n]);
      NextKeepsOrder(config, StageOf(config, calls[..n]), calls[n], calls[0].loaded.value.phaseHistory);
    }
  }

  lemma QueuedStarts(config: RunnerConfig, call: Call)
    requires LoadsQueued([call])
    ensures PhasesInOrder(Next(config, Unloaded, call), call.loaded.value.phaseHistory)
    ensures MutationsInOrder(config, Next(config, Unloaded, call), MutationsIn([call]))
  {
    hide NextAt, FindPackage;
  }

  // ---------------------------------------------------------------- mutations

  /** What a run at some point of the algorithm has done to the package. */
  datatype Work = Untouched | BaselineRemoved | SignatureRejected | SignatureBypassed | BaselinePresent | CandidateApplied

  function WorkBefore(b: Boundary): Work {
    if Rank(b) <= 3 then Untouched else if Rank(b) <= 7 then BaselinePresent else CandidateApplied
  }

  function WorkAt(p: Point): Work {
    match p
    case SavePhase(b) => WorkBefore(b)
    case ReadSignal(b) => WorkBefore(b)
    case SaveObligation(b) => WorkBefore(b)
    case InstallBaseline(_) => BaselineRemoved
    case BypassSignature(_) => SignatureRejected
    case SaveBypass(_) => SignatureBypassed
    case Stabilize(side, _) => if side.Baseline? then BaselinePresent else CandidateApplied
    case ReadSignalAfter(side, _, _, _) => if side.Baseline? then BaselinePresent else CandidateApplied
    case ReadDetails(side, _, _) => if side.Baseline? then BaselinePresent else CandidateApplied
    case ReadLogs(side, _, _, _) => if side.Baseline? then BaselinePresent else CandidateApplied
    case SaveCapture(side) => if side.Baseline? then BaselinePresent else CandidateApplied
    case PreviewCandidate => BaselinePresent
    case UpdateCandidate(_) => BaselinePresent
    case Analyze => CandidateApplied
    case SaveAnalysis => CandidateApplied
    case _ => Untouched
  }

  /** An installed target is removed first, and its volumes are kept. */
  function Removal(m: Record): seq<Mutation> {
    if FindPackage(m.evidence.initialPackages, m.request.dnpName).Some? then [RemovePackage(false)] else []
  }

  function Installation(m: Record): seq<Mutation> {
    Removal(m) + [InstallPackage(m.request.baselineRef)]
  }

  function Bypass(m: Record): seq<Mutation> {
    Installation(m) + [InstallBypassingSignature(m.request.baselineRef)]
  }

  /** The installed build was reused, or the baseline was installed, if need be past its signature. */
  predicate BringsBaseline(m: Record, mutations: seq<Mutation>) {
    mutations == [] || mutations == Installation(m) || mutations == Bypass(m)
  }

  /** The candidate is an update of the tested baseline, and there is one update. */
  predicate AppliesCandidate(m: Record, mutations: seq<Mutation>) {
    && mutations != [] && mutations[|mutations| - 1] == UpdatePackage(m.request.candidateRef)
    && BringsBaseline(m, mutations[..|mutations| - 1])
  }

  predicate Did(m: Record, work: Work, mutations: seq<Mutation>) {
    && (mutations != [] ==> m.worker.cleanupRequired)
    && match work
       case Untouched => mutations == []
       case BaselineRemoved => m.worker.cleanupRequired && mutations == Removal(m)
       case SignatureRejected => mutations == Installation(m)
       case SignatureBypassed => mutations == Bypass(m)
       case BaselinePresent => BringsBaseline(m, mutations)
       case CandidateApplied => AppliesCandidate(m, mutations)
  }

  /** Every mutation comes after the obligation to clean up, and only an installed target is removed. */
  predicate Authorized(p: Point, m: Record) {
    && (p.SaveObligation? || MutationAt(p, m).Some? ==> m.worker.cleanupRequired)
    && (p.RemoveInstalled? ==> Removal(m) != [])
  }

  /** What is done once the mutation of this point was issued. */
  function WorkAfter(p: Point): Work {
    match p
    case RemoveInstalled(_) => BaselineRemoved
    case InstallBaseline(_) => SignatureRejected
    case BypassSignature(_) => SignatureBypassed
    case _ => CandidateApplied
  }

  /** What the algorithm did as a whole: all of it, or when it failed an initial part of that. */
  predicate Forward(m: Record, mutations: seq<Mutation>, failed: bool) {
    && (mutations != [] ==> m.worker.cleanupRequired)
    && (AppliesCandidate(m, mutations)
        || (failed && (mutations == Removal(m) || BringsBaseline(m, mutations))))
  }

  /** A whole run: the algorithm first, and then the cleanup it owes. */
  ghost predicate Mutates(m: Record, mutations: seq<Mutation>, failed: bool) {
    if m.worker.cleanupRequired then
      exists n :: 0 <= n <= |mutations| && Forward(m, mutations[..n], failed) && CleanupScript.IsCleanup(m.worker.targetRecovery, mutations[n..])
    else failed && mutations == []
  }

  ghost predicate MutationsInOrder(config: RunnerConfig, stage: Stage, mutations: seq<Mutation>) {
    match stage
    case Unloaded => false
    case At(SaveCleanupPhase(failure), m) => m.worker.cleanupRequired && NeverPasses(failure) && Forward(m, mutations, failure.Some?)
    case At(CleanUp(cleanup, failure), m) =>
      && m.worker.cleanupRequired && NeverPasses(failure)
      && exists n ::
        0 <= n <= |mutations| && Forward(m, mutations[..n], failure.Some?) && CleanupScript.MutatedAs(JobOf(config, m), cleanup, mutations[n..])
    case At(SaveCleanup(failure), m) => m.worker.cleanupRequired && NeverPasses(failure) && Mutates(m, mutations, failure.Some?)
    case At(SaveVerdict, m) => m.result.Some? && Mutates(m, mutations, !m.result.value.verdict.Passed?)
    case At(p, m) => Did(m, WorkAt(p), mutations) && Authorized(p, m)
    case Ended(ok, m) => ok ==> m.result.Some? && Mutates(m, mutations, !m.result.value.verdict.Passed?)
    case _ => true
  }

  lemma VerdictKeepsMutations(config: RunnerConfig, m: Record, failure: Option<Failure>, mutations: seq<Mutation>)
    requires NeverPasses(failure) && Mutates(m, mutations, failure.Some?)
    ensures MutationsInOrder(config, ToVerdict(m, failure), mutations)
  {
    hide ComparisonOf, AnalysisOf, BypassRecorded, CleanupErrors, Comparisons.DeterministicVerdict, Persisted, FindPackage;
    var finished := Concluding(m, failure);
    if m.worker.cleanupRequired {
      var n :| 0 <= n <= |mutations| && Forward(m, mutations[..n], failure.Some?) && CleanupScript.IsCleanup(m.worker.targetRecovery, mutations[n..]);
      assert Forward(finished, mutations[..n], !finished.result.value.verdict.Passed?);
    }
  }

  lemma WindUpKeepsMutations(config: RunnerConfig, m: Record, failure: Option<Failure>, mutations: seq<Mutation>)
    requires NeverPasses(failure) && Forward(m, mutations, failure.Some?)
    ensures MutationsInOrder(config, WindUp(m, failure), mutations)
  {
    hide ToVerdict, FindPackage;
    if !m.worker.cleanupRequired {
      VerdictKeepsMutations(config, Unowed(m), failure, mutations);
    }
  }

  /** Stopping after any part of the algorithm. */
  lemma StopsKeepMutations(config: RunnerConfig, m: Record, work: Work, mutations: seq<Mutation>)
    requires Did(m, work, mutations)
    ensures forall failure: Failure :: !failure.verdict.Passed? ==> MutationsInOrder(config, StopWith(m, failure), mutations)
  {
    hide MutationsInOrder, WindUp, FindPackage;
    forall failure: Failure | !failure.verdict.Passed? ensures MutationsInOrder(config, StopWith(m, failure), mutations) {
      assert Forward(Failing(m, failure), mutations, true);
      WindUpKeepsMutations(config, Failing(m, failure), Some(failure), mutations);
    }
  }

  lemma ApproachKeepsMutations(config: RunnerConfig, m: Record, b: Boundary, mutations: seq<Mutation>)
    requires Did(m, WorkBefore(b), mutations)
    ensures MutationsInOrder(config, Approach(m, b), mutations)
  {
    hide FindPackage;
  }

  lemma SaveKeepsMutations(config: RunnerConfig, p: Point, m: Record, mutations: seq<Mutation>, ok: bool)
    requires IsSave(p) && MutationsInOrder(config, At(p, m), mutations)
    ensures MutationsInOrder(config, if ok then OnceSaved(p, m) else OnceUnsaved(p, m), mutations)
  {
    if p.SaveCleanupPhase? || p.SaveCleanup? || p.SaveVerdict? {
      LateSaveKeepsMutations(config, p, m, mutations, ok);
    } else if !ok || p.SaveCapture? || p.SaveAnalysis? {
      hide StopWith, WindUp, FindPackage, Comparisons.AppliedAsPreviewed, Approach, Did;
      StopsKeepMutations(config, m, WorkAt(p), mutations);
      if p.SaveCapture? {
        ApproachKeepsMutations(config, m, if p.side.Baseline? then ToCandidatePreview else ToAnalysis, mutations);
      } else if p.SaveAnalysis? {
        AppliedMayWindUp(config, m, mutations);
      }
    } else {
      EarlySaveKeepsMutations(config, p, m, mutations);
    }
  }

  lemma AppliedMayWindUp(config: RunnerConfig, m: Record, mutations: seq<Mutation>)
    requires Did(m, CandidateApplied, mutations)
    ensures MutationsInOrder(config, WindUp(m, None), mutations)
  {
    hide WindUp, FindPackage;
    WindUpKeepsMutations(config, m, None, mutations);
  }

  lemma LateSaveKeepsMutations(config: RunnerConfig, p: Point, m: Record, mutations: seq<Mutation>, ok: bool)
    requires p.SaveCleanupPhase? || p.SaveCleanup? || p.SaveVerdict?
    requires MutationsInOrder(config, At(p, m), mutations)
    ensures MutationsInOrder(config, if ok then OnceSaved(p, m) else OnceUnsaved(p, m), mutations)
  {
    hide ToVerdict, Forward;
    if p.SaveCleanupPhase? {
      assert mutations[..|mutations|] == mutations;
    } else if p.SaveCleanup? {
      VerdictKeepsMutations(config, m, p.failure, mutations);
    }
  }

  lemma EarlySaveKeepsMutations(config: RunnerConfig, p: Point, m: Record, mutations: seq<Mutation>)
    requires p.SaveStart? || p.SavePhase? || p.SaveInventory? || p.SavePlan? || p.SaveObligation? || p.SaveBypass?
    requires MutationsInOrder(config, At(p, m), mutations)
    ensures MutationsInOrder(config, OnceSaved(p, m), mutations)
  {
    hide Approach, FindPackage;
    match p
    case SaveStart => ApproachKeepsMutations(config, m, ToPreflight, mutations);
    case SavePlan => ApproachKeepsMutations(config, m, ToBaselinePreview, mutations);
    case SaveBypass(preview) => ApproachKeepsMutations(config, m, ToStabilization(Baseline, preview), mutations);
    case _ =>
  }

  lemma MutationKeepsMutations(config: RunnerConfig, p: Point, m: Record, mutations: seq<Mutation>, answer: Result<(), PackageError>)
    requires MutationAt(p, m).Some? && MutationsInOrder(config, At(p, m), mutations)
    ensures MutationsInOrder(config, AfterMutation(p, m, answer), mutations + [MutationAt(p, m).value])
  {
    hide StopWith, FindPackage, Approach;
    var done := mutations + [MutationAt(p, m).value];
    MutationIsDone(config, p, m, mutations);
    hide Did, MutationAt;
    StopsKeepMutations(config, m, WorkAfter(p), done);
    if p.InstallBaseline? {
      RejectedIsPresent(m, done);
      ApproachKeepsMutations(config, m, ToStabilization(Baseline, p.preview), done);
    } else if p.UpdateCandidate? {
      ApproachKeepsMutations(config, m, ToStabilization(Candidate, p.preview), done);
    } else if p.BypassSignature? {
      BypassingKeepsWork(m, done);
    }
  }

  lemma MutationIsDone(config: RunnerConfig, p: Point, m: Record, mutations: seq<Mutation>)
    requires MutationAt(p, m).Some? && MutationsInOrder(config, At(p, m), mutations)
    ensures Did(m, WorkAfter(p), mutations + [MutationAt(p, m).value]) && m.worker.cleanupRequired
  {
    hide FindPackage;
    var done := mutations + [MutationAt(p, m).value];
    assert done[..|done| - 1] == mutations;
  }

  lemma RejectedIsPresent(m: Record, mutations: seq<Mutation>)
    requires Did(m, SignatureRejected, mutations)
    ensures Did(m, BaselinePresent, mutations)
  {
    hide FindPackage;
  }

  lemma BypassingKeepsWork(m: Record, mutations: seq<Mutation>)
    requires Did(m, SignatureBypassed, mutations)
    ensures Did(Bypassing(m), SignatureBypassed, mutations)
  {
    hide FindPackage;
  }

  lemma AskedKeepsMutations(config: RunnerConfig, p: Point, m: Record, call: Call, mutations: seq<Mutation>)
    requires !IsSave(p) && !p.CleanUp? && MutationAt(p, m).None? && MutationsInOrder(config, At(p, m), mutations)
    ensures MutationsInOrder(config, Asked(config, p, m, call), mutations)
    ensures call.Mutating? ==> Asked(config, p, m, call) == Astray
  {
    if p.ReadSignal? || p.ReadSignalAfter? {
      SignalKeepsMutations(config, p, m, call, mutations);
    } else if p.ReadInventory? || p.PreviewBaseline? || p.InspectInstalled? || p.PreviewCandidate? {
      InspectedKeepsMutations(config, p, m, call, mutations);
    } else if p.VerifyTools? || p.ReadDetails? {
      hide StopWith, FindPackage;
      StopsKeepMutations(config, m, WorkAt(p), mutations);
    } else {
      MeasuredKeepsMutations(config, p, m, call, mutations);
    }
  }

  lemma MeasuredKeepsMutations(config: RunnerConfig, p: Point, m: Record, call: Call, mutations: seq<Mutation>)
    requires p.Stabilize? || p.ReadLogs? || p.Analyze?
    requires MutationsInOrder(config, At(p, m), mutations)
    ensures MutationsInOrder(config, Asked(config, p, m, call), mutations)
    ensures call.Mutating? ==> Asked(config, p, m, call) == Astray
  {
    hide FindPackage, IsCheck, Measured, Comparisons.ComparisonFromPartial;
  }

  lemma SignalKeepsMutations(config: RunnerConfig, p: Point, m: Record, call: Call, mutations: seq<Mutation>)
    requires (p.ReadSignal? || p.ReadSignalAfter?) && MutationsInOrder(config, At(p, m), mutations)
    ensures MutationsInOrder(config, Asked(config, p, m, call), mutations)
    ensures call.Mutating? ==> Asked(config, p, m, call) == Astray
  {
    hide StopWith, FindPackage, Cross, Approach, Did;
    StopsKeepMutations(config, m, WorkAt(p), mutations);
    if p.ReadSignal? {
      CrossKeepsMutations(config, m, p.next, mutations);
    } else {
      ApproachKeepsMutations(config, m, ToCapture(p.side, p.preview, p.stabilization), mutations);
    }
  }

  lemma CrossKeepsMutations(config: RunnerConfig, m: Record, b: Boundary, mutations: seq<Mutation>)
    requires Did(m, WorkBefore(b), mutations)
    ensures MutationsInOrder(config, Cross(m, b), mutations)
  {
    hide FindPackage;
  }

  lemma InspectedKeepsMutations(config: RunnerConfig, p: Point, m: Record, call: Call, mutations: seq<Mutation>)
    requires p.ReadInventory? || p.PreviewBaseline? || p.InspectInstalled? || p.PreviewCandidate?
    requires MutationsInOrder(config, At(p, m), mutations)
    ensures MutationsInOrder(config, Asked(config, p, m, call), mutations)
    ensures call.Mutating? ==> Asked(config, p, m, call) == Astray
  {
    hide StopWith, FindPackage, InstalledVersionMatches, OriginMatches;
    StopsKeepMutations(config, m, WorkAt(p), mutations);
  }

  /** A call of the cleanup. */
  lemma CleaningKeepsMutations(config: RunnerConfig, cleanup: CleanupScript.Stage, failure: Option<Failure>, m: Record, call: Call,
                               mutations: seq<Mutation>)
    requires MutationsInOrder(config, At(CleanUp(cleanup, failure), m), mutations)
    ensures MutationsInOrder(config, AfterCleanupCall(m, failure, CleanupScript.Next(JobOf(config, m), cleanup, call)),
                             mutations + (if call.Mutating? then [call.mutation] else []))
  {
    hide CleanupScript.Next, CleanupScript.MutatedAs, CleanupScript.IsCleanup, Forward, CleanedBy;
    var job, next, done := JobOf(config, m), CleanupScript.Next(JobOf(config, m), cleanup, call),
        mutations + (if call.Mutating? then [call.mutation] else []);
    if next != CleanupScript.Astray {
      var n :| 0 <= n <= |mutations| && Forward(m, mutations[..n], failure.Some?)
               && CleanupScript.MutatedAs(job, cleanup, mutations[n..]);
      CleanupScript.NextMutates(job, cleanup, call, mutations[n..]);
      assert done[..n] == mutations[..n] && done[n..] == mutations[n..] + (if call.Mutating? then [call.mutation] else []);
      if next.Over? {
        CleanedKeepsMutations(m, next.status, next.listing, done[..n], failure.Some?);
        CleanupIsOver(job, next.status, next.listing, done[n..]);
      }
    }
  }

  lemma CleanedKeepsMutations(m: Record, status: CleanupStatus, listing: Listing, mutations: seq<Mutation>, failed: bool)
    requires Forward(m, mutations, failed)
    ensures Forward(CleanedBy(m, status, listing), mutations, failed) && CleanedBy(m, status, listing).worker == m.worker
  {
    hide FindPackage;
  }

  lemma CleanupIsOver(job: CleanupScript.Job, status: CleanupStatus, listing: Listing, mutations: seq<Mutation>)
    requires CleanupScript.MutatedAs(job, CleanupScript.Over(status, listing), mutations)
    ensures CleanupScript.IsCleanup(job.plan, mutations)
  {
  }

  /** Whatever is answered, the mutations stay in order. */
  lemma NextKeepsMutations(config: RunnerConfig, stage: Stage, call: Call, mutations: seq<Mutation>)
    requires MutationsInOrder(config, stage, mutations)
    ensures MutationsInOrder(config, Next(config, stage, call), mutations + (if call.Mutating? then [call.mutation] else []))
  {
    hide Asked, AfterMutation, OnceSaved, OnceUnsaved, MutationAt, CleanupScript.Next, AfterCleanupCall, WorkAt, Did, Authorized;
    hide Forward, Mutates, CleanupScript.MutatedAs;
    var done := mutations + (if call.Mutating? then [call.mutation] else []);
    assert !call.Mutating? ==> done == mutations;
    if stage.At? {
      if IsSave(stage.point) {
        SaveKeepsMutations(config, stage.point, stage.m, mutations, call.Saving? && call.stored);
      } else if MutationAt(stage.point, stage.m).Some? {
        if call.Mutating? {
          MutationKeepsMutations(config, stage.point, stage.m, mutations, call.answer);
        }
      } else if stage.point.CleanUp? {
        CleaningKeepsMutations(config, stage.point.cleanup, stage.point.failure, stage.m, call, mutations);
        NextCleanupCall(config, stage.m, stage.point.failure, stage.point.cleanup, call);
      } else {
        AskedKeepsMutations(config, stage.point, stage.m, call, mutations);
      }
    }
  }

  /** However far an execution has got, and whatever it was answered, it mutated the package in order. */
  lemma {:induction false} MutationsFollowScript(config: RunnerConfig, calls: seq<Call>)
    requires LoadsQueued(calls)
    ensures MutationsInOrder(config, StageOf(config, calls), MutationsIn(calls))
  {
    hide MutationsInOrder, Next;
    var n := |calls| - 1;
    if n == 0 {
      QueuedStarts(config, calls[0]);
      assert calls == [calls[0]];
    } else {
      MutationsFollowScript(config, calls[..n]);
      NextKeepsMutations(config, StageOf(config, calls[..n]), calls[n], MutationsIn(calls[..n]));
    }
  }

  /**
   * A whole execution that passes went through all ten phases, then Cleanup and Finished, and did to the
   * package what a test is: the baseline, one update to the candidate, and the cleanup of the plan.
   */
  lemma PassedRunIsComplete(config: RunnerConfig, calls: seq<Call>, m: Record)
    requires LoadsQueued(calls) && StageOf(config, calls) == Ended(true, m)
    requires m.result.Some? && m.result.value.verdict.Passed?
    ensures m.phaseHistory == calls[0].loaded.value.phaseHistory + ALGORITHM_PHASES + [Cleanup, Finished]
    ensures exists n :: 0 <= n <= |MutationsIn(calls)| && AppliesCandidate(m, MutationsIn(calls)[..n])
                        && CleanupScript.IsCleanup(m.worker.targetRecovery, MutationsIn(calls)[n..])
  {
    hide StageOf, AppliesCandidate, MutationsIn, CleanupScript.IsCleanup;
    PhasesFollowScript(config, calls);
    MutationsFollowScript(config, calls);
    assert ALGORITHM_PHASES[..|ALGORITHM_PHASES|] == ALGORITHM_PHASES;
  }
}
