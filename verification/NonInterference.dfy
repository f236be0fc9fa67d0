/** The log analysis is advisory: it reaches neither the package manager nor the store outcomes, and barely the verdict. */
module NonInterference {
  import opened Wrappers
  import opened Model
  import opened Protocol
  import opened Progress
  import opened Adapter
  import opened Calls
  import opened RunScript
  import CleanupScript
  import Comparisons

  /** Equal, or Passed against Warning. */
  predicate VerdictsAlike(a: Verdict, b: Verdict) {
    a == b || {a, b} == {Verdict.Passed, Warning}
  }

  /** Results that differ in the analysis, and in what a verdict may make of it. */
  predicate ResultsAlike(x: Option<HarnessResult>, y: Option<HarnessResult>) {
    match (x, y)
    case (None, None) => true
    case (Some(a), Some(b)) =>
      && b == a.(verdict := b.verdict, reasonCode := b.reasonCode, logAnalysis := b.logAnalysis)
      && VerdictsAlike(a.verdict, b.verdict)
    case _ => false
  }

  /** Records that differ in the analysis and in nothing but such a result. */
  predicate Alike(m: Record, n: Record) {
    && n == m.(evidence := m.evidence.(logAnalysis := n.evidence.logAnalysis), result := n.result)
    && ResultsAlike(m.result, n.result)
  }

  predicate StagesAlike(s: Stage, t: Stage) {
    match (s, t)
    case (Unloaded, Unloaded) => true
    case (Unreadable, Unreadable) => true
    case (At(p, m), At(q, n)) => p == q && Alike(m, n)
    case (Ended(x, m), Ended(y, n)) => x == y && Alike(m, n)
    case (Astray, Astray) => true
    case _ => false
  }

  /** The same call with the same answer; what a save writes may differ in the analysis. */
  predicate CallsAlike(a: Call, b: Call) {
    match (a, b)
    case (Saving(r, x), Saving(q, y)) => x == y && Alike(r, q)
    case (Analyzing(_), Analyzing(_)) => true
    case _ => a == b
  }

  // ---------------------------------------------------------------- edits keep records alike

  lemma PersistedAlike(m: Record, n: Record)
    requires Alike(m, n)
    ensures Alike(Persisted(m), Persisted(n))
  {
  }

  lemma EnterAlike(m: Record, n: Record, b: Boundary)
    requires Alike(m, n)
    ensures StagesAlike(Approach(m, b), Approach(n, b))
  {
    hide PhaseOf, ResultsAlike;
  }

  lemma VerdictAlike(m: Record, n: Record, failure: Option<Failure>)
    requires Alike(m, n)
    ensures VerdictsAlike(VerdictOn(m, failure).0, VerdictOn(n, failure).0)
    ensures CleanupErrors(m) == CleanupErrors(n) && ComparisonOf(m.evidence) == ComparisonOf(n.evidence)
  {
    hide ResultsAlike, BypassRecorded;
    Comparisons.AnalysisIsAdvisory(failure, ComparisonOf(m.evidence), AnalysisOf(m.evidence), AnalysisOf(n.evidence), m.cleanup.status,
                                   BypassRecorded(CleanupErrors(m)));
    hide Comparisons.FinalVerdict;
  }

  lemma JudgedAlike(m: Record, n: Record, failure: Option<Failure>)
    requires Alike(m, n)
    ensures StagesAlike(ToVerdict(m, failure), ToVerdict(n, failure))
  {
    VerdictAlike(m, n, failure);
    hide VerdictOn, CleanupErrors, ComparisonOf, AnalysisOf, Comparisons.SideOf;
  }

  lemma OverAlike(m: Record, n: Record, failure: Option<Failure>)
    requires Alike(m, n)
    ensures StagesAlike(WindUp(m, failure), WindUp(n, failure))
  {
    JudgedAlike(Unowed(m), Unowed(n), failure);
    hide ToVerdict, ResultsAlike;
  }

  lemma StoppedAlike(m: Record, n: Record, failure: Failure)
    requires Alike(m, n)
    ensures StagesAlike(StopWith(m, failure), StopWith(n, failure))
  {
    OverAlike(Failing(m, failure), Failing(n, failure), Some(failure));
    hide WindUp, ResultsAlike;
  }

  lemma CrossAlike(m: Record, n: Record, b: Boundary)
    requires Alike(m, n)
    ensures StagesAlike(Cross(m, b), Cross(n, b)) && StagesAlike(ToMutation(m, b), ToMutation(n, b))
  {
    hide ResultsAlike, FindPackage, Approach;
    if b.ToBaselineInstall? {
      EnterAlike(m, n, ToStabilization(Baseline, b.preview));
    }
  }

  // ---------------------------------------------------------------- one call

  lemma SavedAlike(p: Point, m: Record, n: Record)
    requires IsSave(p) && Alike(m, n)
    ensures StagesAlike(OnceSaved(p, m), OnceSaved(p, n))
  {
    hide StopWith, Approach, ToVerdict, WindUp, ResultsAlike, ToMutation, AfterCapture, FindPackage;
    match p {
      case SaveStart => EnterAlike(m, n, ToPreflight);
      case SavePlan => EnterAlike(m, n, ToBaselinePreview);
      case SaveObligation(next) => CrossAlike(m, n, next);
      case SaveBypass(preview) => EnterAlike(m, n, ToStabilization(Baseline, preview));
      case SaveCapture(side) => AfterCaptureAlike(m, n, side);
      case SaveAnalysis => OverAlike(m, n, None);
      case SaveCleanup(failure) => JudgedAlike(m, n, failure);
      case _ =>
    }
  }

  lemma UnsavedAlike(p: Point, m: Record, n: Record)
    requires Alike(m, n)
    ensures StagesAlike(OnceUnsaved(p, m), OnceUnsaved(p, n))
  {
    hide StopWith, ResultsAlike;
    StoppedAlike(m, n, PERSISTENCE_FAILURE);
  }

  lemma SavesAlike(config: RunnerConfig, p: Point, m: Record, n: Record, a: Call, b: Call)
    requires IsSave(p) && Alike(m, n) && SameAnswer(a, b)
    requires NextAt(config, p, m, a) != Astray && NextAt(config, p, n, b) != Astray
    ensures StagesAlike(NextAt(config, p, m, a), NextAt(config, p, n, b)) && CallsAlike(a, b)
  {
    hide OnceSaved, OnceUnsaved, StagesAlike, Alike, IsSave;
    SavedAlike(p, m, n);
    UnsavedAlike(p, m, n);
    PersistedAlike(m, n);
  }

  lemma AfterCaptureAlike(m: Record, n: Record, side: Side)
    requires Alike(m, n)
    ensures StagesAlike(AfterCapture(m, side), AfterCapture(n, side))
  {
    hide ResultsAlike, StopWith, Approach, Comparisons.AppliedAsPreviewed;
    StoppedAlike(m, n, InfrastructureFailure(MismatchReason(side)));
    EnterAlike(m, n, if side.Baseline? then ToCandidatePreview else ToAnalysis);
  }

  lemma AfterSignalAlike(m: Record, n: Record, control: RunControl, s: Stage, t: Stage)
    requires Alike(m, n) && StagesAlike(s, t)
    ensures StagesAlike(AfterSignal(m, control, s), AfterSignal(n, control, t))
  {
    hide ResultsAlike, StopWith;
    if !control.Continue? {
      StoppedAlike(m, n, ControlFailure(control).value);
    }
  }

  /** The questions of the preparation: signals, tools, inventory, previews. */
  predicate IsRead(p: Point) {
    || p.ReadSignal? || p.ReadSignalAfter? || p.VerifyTools? || p.ReadInventory? || p.PreviewBaseline? || p.InspectInstalled?
    || p.PreviewCandidate?
  }

  lemma ReadsAlike(config: RunnerConfig, p: Point, m: Record, n: Record, a: Call, b: Call)
    requires IsRead(p) && Alike(m, n) && SameAnswer(a, b)
    requires NextAt(config, p, m, a) != Astray && NextAt(config, p, n, b) != Astray
    ensures StagesAlike(NextAt(config, p, m, a), NextAt(config, p, n, b)) && CallsAlike(a, b)
  {
    hide ResultsAlike, StopWith, Approach, Cross, FindPackage, PackageFailure, InstalledVersionMatches, OriginMatches;
    hide AfterSignal, AfterTools, AfterInventory, AfterBaselinePreview, OnceSaved, OnceUnsaved;
    match p {
      case ReadSignal(next) =>
        CrossAlike(m, n, next);
        AfterSignalAlike(m, n, a.control, Cross(m, next), Cross(n, next));
      case ReadSignalAfter(side, preview, stabilization, _) =>
        EnterAlike(m, n, ToCapture(side, preview, stabilization));
        AfterSignalAlike(m, n, a.control, Approach(m, ToCapture(side, preview, stabilization)), Approach(n, ToCapture(side, preview, stabilization)));
      case VerifyTools =>
        ToolsAlike(m, n, a.tools);
      case ReadInventory =>
        InventoryAlike(m, n, a.listing);
      case PreviewBaseline =>
        BaselinePreviewAlike(m, n, a.preview);
      case InspectInstalled(preview) =>
        EnterAlike(m, n, ToBaselineInstall(preview, OriginMatches(preview, a.details)));
      case PreviewCandidate =>
        if a.preview.Ok? {
          EnterAlike(m, n, ToCandidateInstall(a.preview.value));
        } else {
          StoppedAlike(m, n, PackageFailure(a.preview.error, CandidateInstallFailed));
        }
    }
  }

  /** What is asked about each side, and the analysis. */
  lemma QuestionsAlike(config: RunnerConfig, p: Point, m: Record, n: Record, a: Call, b: Call)
    requires !IsSave(p) && !IsRead(p) && MutationAt(p, m).None? && !p.CleanUp? && Alike(m, n) && SameAnswer(a, b)
    requires NextAt(config, p, m, a) != Astray && NextAt(config, p, n, b) != Astray
    ensures StagesAlike(NextAt(config, p, m, a), NextAt(config, p, n, b)) && CallsAlike(a, b)
  {
    hide ResultsAlike, StopWith, Approach, IsCheck, Measured, PackageFailure, OnceSaved, OnceUnsaved, AfterMutation;
    if p.ReadDetails? && a.details.Err? {
      StoppedAlike(m, n, PackageFailure(a.details.error, UnavailableReason(p.side)));
    }
  }

  lemma MutationsAlike(config: RunnerConfig, p: Point, m: Record, n: Record, a: Call, b: Call)
    requires !IsSave(p) && MutationAt(p, m).Some? && Alike(m, n) && SameAnswer(a, b)
    requires NextAt(config, p, m, a) != Astray && NextAt(config, p, n, b) != Astray
    ensures StagesAlike(NextAt(config, p, m, a), NextAt(config, p, n, b)) && CallsAlike(a, b)
  {
    hide ResultsAlike, StopWith, Approach, AfterInstall, OnceSaved, OnceUnsaved, Asked;
    match p {
      case RemoveInstalled(preview) =>
        StoppedAlike(m, n, InfrastructureFailure(BaselineInstallFailed));
      case InstallBaseline(preview) =>
        InstallAlike(m, n, preview, a.answer);
      case BypassSignature(preview) =>
        if a.answer.Err? {
          StoppedAlike(m, n, BaselineFailure(a.answer.error));
        }
      case UpdateCandidate(preview) =>
        EnterAlike(m, n, ToStabilization(Candidate, preview));
        if a.answer.Err? {
          StoppedAlike(m, n, CandidateFailure(a.answer.error));
        }
    }
  }

  lemma ToolsAlike(m: Record, n: Record, tools: Result<bool, PackageError>)
    requires Alike(m, n)
    ensures StagesAlike(AfterTools(m, tools), AfterTools(n, tools))
  {
    hide ResultsAlike, StopWith, PackageFailure;
    StoppedAlike(m, n, InfrastructureFailure(RequiredMcpToolsMissing));
    StoppedAlike(m, n, InfrastructureFailure(HarnessPackageRefused));
    if tools.Err? {
      StoppedAlike(m, n, PackageFailure(tools.error, McpUnavailable));
    }
  }

  lemma InventoryAlike(m: Record, n: Record, listing: Listing)
    requires Alike(m, n)
    ensures StagesAlike(AfterInventory(m, listing), AfterInventory(n, listing))
  {
    hide ResultsAlike, StopWith, PackageFailure;
    StoppedAlike(m, n, InfrastructureFailure(CorePackageRefused));
    if listing.ListFailed? {
      StoppedAlike(m, n, PackageFailure(listing.error, McpUnavailable));
    }
  }

  lemma BaselinePreviewAlike(m: Record, n: Record, preview: Result<Preview, PackageError>)
    requires Alike(m, n)
    ensures StagesAlike(AfterBaselinePreview(m, preview), AfterBaselinePreview(n, preview))
  {
    hide ResultsAlike, StopWith, Approach, PackageFailure, FindPackage;
    if preview.Err? {
      StoppedAlike(m, n, PackageFailure(preview.error, BaselineUnavailable));
    } else {
      EnterAlike(m, n, ToBaselineInstall(preview.value, false));
    }
  }

  lemma InstallAlike(m: Record, n: Record, preview: Preview, answer: Result<(), PackageError>)
    requires Alike(m, n)
    ensures StagesAlike(AfterInstall(m, preview, answer), AfterInstall(n, preview, answer))
  {
    hide ResultsAlike, StopWith, Approach, BaselineFailure;
    EnterAlike(m, n, ToStabilization(Baseline, preview));
    if answer.Err? {
      StoppedAlike(m, n, BaselineFailure(answer.error));
    }
  }

  lemma CleanupAlike(config: RunnerConfig, p: Point, m: Record, n: Record, a: Call, b: Call)
    requires p.CleanUp? && Alike(m, n) && SameAnswer(a, b)
    requires NextAt(config, p, m, a) != Astray && NextAt(config, p, n, b) != Astray
    ensures StagesAlike(NextAt(config, p, m, a), NextAt(config, p, n, b)) && CallsAlike(a, b)
  {
    hide ResultsAlike, CleanupScript.Next, CleanupScript.Outcome, CallsAlike, SameAnswer;
    CleanupScript.OneCallPerStage(JobOf(config, m), p.cleanup, a, b);
    CleanupCallIsExact(JobOf(config, m), p.cleanup, a);
  }

  lemma CleanupCallIsExact(job: CleanupScript.Job, stage: CleanupScript.Stage, a: Call)
    requires CleanupScript.Next(job, stage, a) != CleanupScript.Astray
    ensures CallsAlike(a, a)
  {
  }

  lemma NextAlike(config: RunnerConfig, s: Stage, t: Stage, a: Call, b: Call)
    requires StagesAlike(s, t) && SameAnswer(a, b)
    requires Next(config, s, a) != Astray && Next(config, t, b) != Astray
    ensures StagesAlike(Next(config, s, a), Next(config, t, b)) && CallsAlike(a, b)
  {
    hide NextAt;
    if s.At? {
      if IsSave(s.point) {
        SavesAlike(config, s.point, s.m, t.m, a, b);
      } else if MutationAt(s.point, s.m).Some? {
        MutationsAlike(config, s.point, s.m, t.m, a, b);
      } else if IsRead(s.point) {
        ReadsAlike(config, s.point, s.m, t.m, a, b);
      } else if s.point.CleanUp? {
        CleanupAlike(config, s.point, s.m, t.m, a, b);
      } else {
        QuestionsAlike(config, s.point, s.m, t.m, a, b);
      }
      hide StagesAlike, CallsAlike, SameAnswer;
    } else {
      assert s.Unloaded? && a == b;
      NoDifference(Next(config, s, a));
    }
  }

  lemma NoDifference(s: Stage)
    ensures StagesAlike(s, s)
  {
  }

  lemma AlikeMutate(a: Call, b: Call)
    requires CallsAlike(a, b)
    ensures a.Mutating? == b.Mutating? && (a.Mutating? ==> a.mutation == b.mutation)
  {
  }

  // ---------------------------------------------------------------- two whole executions

  /** As far as two executions that are answered the same have got, they made the same calls. */
  lemma {:induction false} SameAnswersSameCalls(config: RunnerConfig, a: seq<Call>, b: seq<Call>)
    requires StageOf(config, a) != Astray && StageOf(config, b) != Astray && |a| == |b| && SameAnswers(a, b)
    ensures StagesAlike(StageOf(config, a), StageOf(config, b))
    ensures forall i :: 0 <= i < |a| ==> CallsAlike(a[i], b[i])
    ensures MutationsIn(a) == MutationsIn(b)
  {
    hide Next, StageOf, StagesAlike, SameAnswer, CallsAlike;
    if a == [] {
      assert b == [];
      NoDifference(StageOf(config, a));
    } else {
      var n := |a| - 1;
      LastStage(config, a);
      LastStage(config, b);
      SameAnswersSameCalls(config, a[..n], b[..n]);
      NextAlike(config, StageOf(config, a[..n]), StageOf(config, b[..n]), a[n], b[n]);
      AlikeMutate(a[n], b[n]);
    }
  }

  lemma {:induction false} AstrayIsFinal(config: RunnerConfig, calls: seq<Call>, n: nat)
    requires n <= |calls| && StageOf(config, calls) != Astray
    ensures StageOf(config, calls[..n]) != Astray
    ensures n < |calls| ==> !StageOf(config, calls[..n]).Ended? && !StageOf(config, calls[..n]).Unreadable?
  {
    hide NextAt;
    if n < |calls| {
      var shorter := calls[..|calls| - 1];
      LastStage(config, calls);
      AstrayIsFinal(config, shorter, n);
      assert shorter[..n] == calls[..n];
    } else {
      assert calls[..n] == calls;
    }
  }

  /** The execution came to its end, whether or not its last save succeeded. */
  predicate IsOver(s: Stage) {
    s.Ended? || s.Unreadable?
  }

  /**
   * Two whole executions whose package manager, store and control signals answer the same, whatever the
   * analyzer says to each: they make the same calls, saves included, with records that differ in the
   * analysis alone; they end the same way; and their verdicts are equal or Passed against Warning.
   */
  lemma AnalysisDoesNotInterfere(config: RunnerConfig, a: seq<Call>, b: seq<Call>)
    requires IsOver(StageOf(config, a)) && IsOver(StageOf(config, b)) && SameAnswers(a, b)
    ensures |a| == |b| && forall i :: 0 <= i < |a| ==> CallsAlike(a[i], b[i])
    ensures MutationsIn(a) == MutationsIn(b)
    ensures StagesAlike(StageOf(config, a), StageOf(config, b))
    ensures StageOf(config, a).Ended? ==>
              var m, n := StageOf(config, a).m, StageOf(config, b).m;
              m.result.Some? ==> n.result.Some? && VerdictsAlike(m.result.value.verdict, n.result.value.verdict)
  {
    hide Next, StageOf, SameAnswer, CallsAlike;
    var n := if |a| < |b| then |a| else |b|;
    AstrayIsFinal(config, a, n);
    AstrayIsFinal(config, b, n);
    SameAnswersSameCalls(config, a[..n], b[..n]);
    assert a[..|a|] == a && b[..|b|] == b;
  }
}
