/** The mutating calls of the Dappmanager adapter (src/package_manager/dappmanager.rs). */
module Adapter {
  import opened Wrappers
  import opened Model
  import opened Protocol
  import Evidence
  import RetryMutation

  datatype PackageErrorKind = Configuration | Transport | Timeout | Tool | InvalidResponse | RequiredSetup | PackageNotFound

  /** A package-manager error with what its message was classified as. */
  datatype PackageError = PackageError(kind: PackageErrorKind, signatureText: bool, transientText: bool)

  datatype MutationPolicy = MutationPolicy(attempts: nat, timeout: nat, retryDelay: nat)

  /** The adapter refuses to be built without an attempt. */
  predicate Usable(policy: MutationPolicy) {
    policy.attempts >= 1
  }

  /** What the final error message of a call was found to say. */
  datatype MessageText = MessageText(absent: bool, requiredSetup: bool, signature: bool)

  function PackageErrorOf(error: RetryMutation.McpError, text: MessageText): PackageError {
    PackageError(
      match error.kind
      case TimeoutError => Timeout
      case TransportError => Transport
      case ToolError => Tool
      case ConfigurationError => Configuration
      case ArgumentError => InvalidResponse
      case ResponseError => InvalidResponse,
      text.signature, error.transientText)
  }

  /** An absent package counts as removed; an installation that asks for setup values is told apart. */
  function AnswerTo(m: Mutation, outcome: RetryMutation.Answer, text: MessageText): Result<(), PackageError> {
    if outcome.Ok? then Ok(())
    else match m
      case RemovePackage(_) => if text.absent then Ok(()) else Err(PackageErrorOf(outcome.error, text))
      case UpdatePackage(_) => Err(PackageErrorOf(outcome.error, text))
      case _ =>
        if text.requiredSetup then Err(PackageError(RequiredSetup, text.signature, false))
        else Err(PackageErrorOf(outcome.error, text))
  }

  /**
   * What the error of a call tells of the last request's: its kind, with malformed arguments counted among the
   * malformed responses, and whether it is transient. Only an installation is ever told apart as asking for
   * setup values, and a removal never fails because the package is absent.
   */
  predicate Tells(m: Mutation, last: RetryMutation.McpError, text: MessageText, error: PackageError) {
    && error.signatureText == text.signature && !error.kind.PackageNotFound? && !(m.RemovePackage? && text.absent)
    && (error.kind.RequiredSetup? <==> (m.InstallPackage? || m.InstallBypassingSignature?) && text.requiredSetup)
    && (!error.kind.RequiredSetup? ==>
          && (error.transientText <==> last.transientText)
          && (error.kind.Timeout? <==> last.kind.TimeoutError?)
          && (error.kind.Transport? <==> last.kind.TransportError?)
          && (error.kind.Tool? <==> last.kind.ToolError?)
          && (error.kind.Configuration? <==> last.kind.ConfigurationError?)
          && (error.kind.InvalidResponse? <==> last.kind.ArgumentError? || last.kind.ResponseError?))
  }

  lemma AnswerTells(m: Mutation, outcome: RetryMutation.Answer, text: MessageText)
    ensures AnswerTo(m, outcome, text).Err? ==> outcome.Err? && Tells(m, outcome.error, text, AnswerTo(m, outcome, text).error)
  {
  }

  // ---------------------------------------------------------------- checks of the installed state

  /** What the reads of one check find: the details, the inventory, and the version a preview resolves to. None is a failed read. */
  datatype Look = Look(details: Option<PackageDetails>, packages: Option<seq<PackageSummary>>, preview: Option<Option<string>>)

  function RequestedRef(m: Mutation): Option<string> {
    match m
    case RemovePackage(_) => None
    case InstallPackage(baseline) => baseline
    case InstallBypassingSignature(baseline) => baseline
    case UpdatePackage(candidate) => Some(candidate)
  }

  /** The check that confirms a mutation without resending it. */
  predicate Confirms(m: Mutation, target: DnpName, look: Look) {
    if m.RemovePackage? then look.packages.Some? && !exists p :: p in look.packages.value && p.dnpName == target
    else look.details.Some? && Evidence.InstalledAsRequested(look.details.value.origin, look.details.value.version, RequestedRef(m), look.preview)
  }

  /** The state the mutation asks for: no such package, or the requested origin and for a registry request also the version it resolves to. */
  ghost predicate ShowsRequested(m: Mutation, target: DnpName, look: Look) {
    match m
    case RemovePackage(_) => look.packages.Some? && !Installed(look.packages.value, target)
    case InstallPackage(baseline) => look.details.Some? && ShowsBuild(baseline, look.details.value, look.preview)
    case InstallBypassingSignature(baseline) => look.details.Some? && ShowsBuild(baseline, look.details.value, look.preview)
    case UpdatePackage(candidate) => look.details.Some? && ShowsBuild(Some(candidate), look.details.value, look.preview)
  }

  /** The details show the build the reference stands for. */
  ghost predicate ShowsBuild(reference: Option<string>, details: PackageDetails, preview: Option<Option<string>>) {
    && Evidence.ReferAlike(reference, details.origin)
    && (!Evidence.RefersToCid(reference) ==> Evidence.IsRelease(details.version) && preview == Some(details.version))
  }

  lemma ConfirmsExactlyTheRequest(m: Mutation, target: DnpName, look: Look)
    ensures Confirms(m, target, look) <==> ShowsRequested(m, target, look)
  {
    if look.details.Some? {
      Evidence.ConfirmedMutationIsTheRequestedBuild(look.details.value.origin, look.details.value.version, RequestedRef(m), look.preview);
    }
  }

  function Results(m: Mutation, target: DnpName, looks: seq<Look>): (results: seq<bool>)
    ensures |results| == |looks| && forall i :: 0 <= i < |looks| ==> results[i] == Confirms(m, target, looks[i])
  {
    seq(|looks|, i requires 0 <= i < |looks| => Confirms(m, target, looks[i]))
  }

  // ---------------------------------------------------------------- one call

  /** Arbitrary answers of Dappmanager, and arbitrary times they take. */
  method Tapes(attempts: nat, probes: nat)
    returns (answers: seq<RetryMutation.Answer>, reconciles: seq<Look>, probed: seq<Look>, durations: seq<nat>)
    ensures |answers| >= attempts && |reconciles| >= attempts && |probed| == |durations| >= probes
  {
    answers, reconciles, probed, durations := *, *, *, *;
    answers, reconciles := answers + seq(attempts, _ => Ok(())), reconciles + seq(attempts, _ => Look(None, None, None));
    probed := probed + seq(probes, _ => Look(None, None, None));
    var times := durations;
    durations := seq(|probed|, i => if 0 <= i < |times| then times[i] else 0);
  }

  /**
   * One mutating call. The requests it sends keep the discipline of RetryMutation. It reports success only
   * when a request succeeded, the last check saw the very state that was asked for, or the package to be
   * removed was absent; and its error is that of the last request. `seen` is what the checks looked at.
   */
  method CallMutation(m: Mutation, target: DnpName, policy: MutationPolicy)
    returns (answer: Result<(), PackageError>, log: seq<RetryMutation.Action>, seen: seq<Look>, text: MessageText)
    requires Usable(policy)
    ensures log != [] && RetryMutation.StageOf(log) != RetryMutation.Broken && RetryMutation.Sends(log) <= policy.attempts
    ensures RetryMutation.ChecksIn(log) == Results(m, target, seen)
    ensures answer.Ok? ==>
              || (log[|log| - 1].Send? && log[|log| - 1].answer.Ok?)
              || (seen != [] && ShowsRequested(m, target, seen[|seen| - 1]))
              || (m.RemovePackage? && text.absent)
    ensures answer.Err? ==>
              var answers := RetryMutation.AnswersIn(log);
              answers != [] && answers[|answers| - 1].Err? && Tells(m, answers[|answers| - 1].error, text, answer.error)
    ensures exists outcome :: RetryMutation.Justifies(RetryMutation.StageOf(log), outcome) && answer == AnswerTo(m, outcome, text)
  {
    hide RetryMutation.StageOf, RetryMutation.ChecksIn, RetryMutation.Sends, RetryMutation.AnswersIn, RetryMutation.Paced, Confirms, ShowsRequested, Tells;
    var probes := policy.timeout / RetryMutation.IN_PROGRESS_POLL + 2;
    var answers, reconciles, probed, durations := Tapes(policy.attempts, probes);
    var outcome, reconciled, waited;
    outcome, log, reconciled, waited :=
      RetryMutation.RetryMutation(answers, Results(m, target, reconciles), Results(m, target, probed), durations,
                                  policy.attempts, policy.timeout, policy.retryDelay);
    seen := reconciles[..reconciled] + probed[..waited];
    assert RetryMutation.ChecksIn(log) == Results(m, target, seen);
    RetryMutation.LastAction(log);
    RetryMutation.LastAnswer(log);
    if RetryMutation.StageOf(log).Reached? {
      ConfirmsExactlyTheRequest(m, target, seen[|seen| - 1]);
    }
    text := *;
    answer := AnswerTo(m, outcome, text);
    AnswerTells(m, outcome, text);
  }
}
