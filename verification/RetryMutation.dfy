/**
 * The Dappmanager mutation adapter (src/package_manager/dappmanager.rs): retrying reported failures,
 * and never resending a mutation whose outcome is unknown. Durations are milliseconds.
 */
module RetryMutation {
  import opened Wrappers

  datatype ErrorKind = TimeoutError | TransportError | ToolError | ConfigurationError | ArgumentError | ResponseError

  /**
   * An MCP error with what its message was classified as: `inProgressText` is
   * `operation_in_progress_error` and `transientText` the retryable-message test of its kind.
   */
  datatype McpError = McpError(kind: ErrorKind, inProgressText: bool, transientText: bool)

  type Answer = Result<(), McpError>

  /** What the adapter did: a mutation request and its answer, a check of the installed state, a wait. */
  datatype Action = Send(answer: Answer) | Check(reached: bool) | Wait(duration: nat)

  const IN_PROGRESS_POLL: nat := 10_000
  const RETRY_DELAY_CAP: nat := 60_000

  predicate RetryableMutationError(e: McpError) {
    match e.kind
    case TimeoutError => false
    case TransportError => e.transientText
    case ToolError => e.transientText
    case _ => false
  }

  /** The request may still be running inside Dappmanager. */
  predicate OutcomeUnknown(a: Answer) {
    a.Err? && (a.error.inProgressText || a.error.kind.TimeoutError?)
  }

  function Pow2(n: nat): nat {
    if n == 0 then 1 else 2 * Pow2(n - 1)
  }

  /** Doubling delay, with the exponent and the delay both capped. */
  function RetryDelay(initial: nat, failedAttempt: nat): (delay: nat)
    ensures delay <= RETRY_DELAY_CAP
  {
    var exponent := if failedAttempt < 1 then 0 else if failedAttempt - 1 < 6 then failedAttempt - 1 else 6;
    var scaled := initial * Pow2(exponent);
    if scaled < RETRY_DELAY_CAP then scaled else RETRY_DELAY_CAP
  }

  /** A failure that was reported, in a message that calls for another attempt: the transport's or the tool's. */
  predicate ReportedAsTransient(e: McpError) {
    (e.kind == TransportError || e.kind == ToolError) && e.transientText && !e.inProgressText
  }

  /** The first delays double, all are bounded by a minute. */
  predicate IsDelayAfter(initial: nat, attempt: nat, delay: nat) {
    var factors := [1, 2, 4, 8, 16, 32, 64];
    && (attempt == 0 ==> delay == if initial < 60_000 then initial else 60_000)
    && (1 <= attempt <= 7 ==> delay == if initial * factors[attempt - 1] < 60_000 then initial * factors[attempt - 1] else 60_000)
    && (attempt > 7 ==> delay == if initial * 64 < 60_000 then initial * 64 else 60_000)
  }

  lemma DelaysDouble(initial: nat, attempt: nat)
    ensures IsDelayAfter(initial, attempt, RetryDelay(initial, attempt))
  {
    assert Pow2(0) == 1 && Pow2(1) == 2 && Pow2(2) == 4 && Pow2(3) == 8;
    assert Pow2(4) == 16 && Pow2(5) == 32 && Pow2(6) == 64;
  }

  /** Every request is three actions after the one before it, and the delay in between is the one that is due. */
  ghost predicate Paced(log: seq<Action>, requests: nat, initial: nat) {
    forall n :: 1 <= n < requests ==> 3 * n < |log| && log[3 * n].Send? && log[3 * n - 1].Wait? && IsDelayAfter(initial, n, log[3 * n - 1].duration)
  }

  lemma PacedOn(log: seq<Action>, requests: nat, initial: nat, longer: seq<Action>)
    requires Paced(log, requests, initial) && log <= longer
    ensures Paced(longer, requests, initial)
  {
  }

  lemma NothingPaced(initial: nat)
    ensures Paced([], 0, initial)
  {
  }

  /** The next request is sent after its delay. */
  lemma SendPaced(log: seq<Action>, requests: nat, initial: nat, answer: Answer)
    requires Paced(log, requests, initial) && |log| == 3 * requests
    requires requests > 0 ==> log[|log| - 1].Wait? && IsDelayAfter(initial, requests, log[|log| - 1].duration)
    ensures Paced(log + [Send(answer)], requests + 1, initial)
  {
    hide IsDelayAfter;
  }

  // ---------------------------------------------------------------- the request discipline

  /**
   * Where a request stands after a log of actions. `attempts` counts the requests sent so far.
   * Broken is every log outside the discipline.
   */
  datatype Stage =
    | Unsent
    | Answered(answer: Answer, attempts: nat)  // the last action was a request
    | Undone(attempts: nat)                    // its failure was reported and the check found it undone
    | Ready(attempts: nat)                     // ... and the delay has passed
    | Unseen(answer: Answer, attempts: nat)    // outcome unknown, the last check did not see it
    | Awaiting(answer: Answer, attempts: nat)  // ... and a poll interval has passed
    | Reached(attempts: nat)                   // a check saw the requested state
    | Broken

  function Next(stage: Stage, action: Action): Stage {
    match (stage, action)
    case (Unsent, Send(answer)) => Answered(answer, 1)
    case (Ready(n), Send(answer)) => Answered(answer, n + 1)
    case (Answered(answer, n), Check(reached)) =>
      if answer.Ok? then Broken
      else if reached then Reached(n)
      else if OutcomeUnknown(answer) then Unseen(answer, n)
      else if RetryableMutationError(answer.error) then Undone(n)
      else Broken
    case (Undone(n), Wait(_)) => Ready(n)
    case (Unseen(answer, n), Wait(_)) => Awaiting(answer, n)
    case (Awaiting(answer, n), Check(reached)) => if reached then Reached(n) else Unseen(answer, n)
    case _ => Broken
  }

  function StageOf(log: seq<Action>): Stage {
    if log == [] then Unsent else Next(StageOf(log[..|log| - 1]), log[|log| - 1])
  }

  lemma StageAfter(log: seq<Action>, action: Action)
    ensures StageOf(log + [action]) == Next(StageOf(log), action)
    ensures AnswersIn(log + [action]) == AnswersIn(log) + if action.Send? then [action.answer] else []
    ensures ChecksIn(log + [action]) == ChecksIn(log) + if action.Check? then [action.reached] else []
  {
    assert (log + [action])[..|log|] == log;
  }

  lemma EmptyLog()
    ensures StageOf([]) == Unsent && AnswersIn([]) == [] && ChecksIn([]) == []
  {
  }

  /** The adapter's return value is backed by its log. */
  ghost predicate Justifies(stage: Stage, outcome: Answer) {
    match outcome
    case Ok(_) => stage.Reached? || (stage.Answered? && stage.answer.Ok?)
    case Err(e) => (stage.Answered? && !OutcomeUnknown(outcome) && stage.answer == outcome)
                   || (stage.Unseen? && OutcomeUnknown(outcome) && stage.answer == outcome)
  }

  // ---------------------------------------------------------------- what the discipline means

  lemma {:induction false} BrokenStaysBroken(log: seq<Action>, k: nat)
    requires k <= |log| && StageOf(log) != Broken
    ensures StageOf(log[..k]) != Broken
  {
    if k < |log| {
      BrokenStaysBroken(log[..|log| - 1], k);
      assert log[..|log| - 1][..k] == log[..k];
    } else {
      assert log[..k] == log;
    }
  }

  ghost function Sends(log: seq<Action>): nat {
    if log == [] then 0 else Sends(log[..|log| - 1]) + if log[|log| - 1].Send? then 1 else 0
  }

  /** The answers the log records, in order. */
  ghost function AnswersIn(log: seq<Action>): seq<Answer> {
    if log == [] then []
    else AnswersIn(log[..|log| - 1]) + if log[|log| - 1].Send? then [log[|log| - 1].answer] else []
  }

  /** The results of the checks the log records, in order. */
  ghost function ChecksIn(log: seq<Action>): seq<bool> {
    if log == [] then []
    else ChecksIn(log[..|log| - 1]) + if log[|log| - 1].Check? then [log[|log| - 1].reached] else []
  }

  /** The stage counts the requests. */
  lemma {:induction false} StageCountsSends(log: seq<Action>)
    requires StageOf(log) != Broken
    ensures Sends(log) == if log == [] then 0 else StageOf(log).attempts
    ensures StageOf(log) == Unsent <==> log == []
  {
    if log != [] {
      StageCountsSends(log[..|log| - 1]);
    }
  }

  /** Once an outcome is unknown, or the mutation is done, the log only ever checks and waits. */
  ghost predicate Closed(stage: Stage) {
    || stage.Unseen? || stage.Awaiting? || stage.Reached?
    || (stage.Answered? && (stage.answer.Ok? || OutcomeUnknown(stage.answer)))
  }

  lemma {:induction false} ClosedStaysClosed(log: seq<Action>, k: nat)
    requires k <= |log| && StageOf(log) != Broken && Closed(StageOf(log[..k]))
    ensures Closed(StageOf(log))
    ensures forall j :: k <= j < |log| ==> !log[j].Send?
  {
    if k < |log| {
      var before := log[..|log| - 1];
      assert before[..k] == log[..k];
      BrokenStaysBroken(log, |log| - 1);
      ClosedStaysClosed(before, k);
      forall j | k <= j < |log|
        ensures !log[j].Send?
      {
        if j < |log| - 1 {
          assert before[j] == log[j];
        }
      }
    } else {
      assert log[..k] == log;
    }
  }

  /** A timed-out or still running mutation is never sent again. */
  lemma NeverResendsUnknownOutcome(log: seq<Action>, i: nat, j: nat)
    requires StageOf(log) != Broken
    requires i < j < |log| && log[i].Send? && OutcomeUnknown(log[i].answer)
    ensures !log[j].Send?
  {
    BrokenStaysBroken(log, i + 1);
    assert log[..i + 1][..i] == log[..i];
    ClosedStaysClosed(log, i + 1);
  }

  /** Every repeated request follows a transient failure that was reported and that a check found undone. */
  lemma ResendFollowsReportedFailure(log: seq<Action>, i: nat)
    requires StageOf(log) != Broken
    requires 0 < i < |log| && log[i].Send?
    ensures i >= 3 && log[i - 3].Send? && log[i - 3].answer.Err?
    ensures ReportedAsTransient(log[i - 3].answer.error)
    ensures log[i - 2] == Check(false) && log[i - 1].Wait?
  {
    BrokenStaysBroken(log, i + 1);
    BrokenStaysBroken(log, i);
    StageCountsSends(log[..i]);
    assert log[..i + 1][..i] == log[..i];
    assert StageOf(log[..i]).Ready?;
    assert log[..i][..i - 1] == log[..i - 1];
    assert StageOf(log[..i - 1]).Undone?;
    assert log[..i - 1][..i - 2] == log[..i - 2];
    assert StageOf(log[..i - 2]).Answered?;
    assert log[..i - 2][..i - 3] == log[..i - 3];
  }

  /** The answer a request is judged by is that of the last request sent. */
  lemma {:induction false} LastAnswer(log: seq<Action>)
    requires StageOf(log) != Broken
    ensures StageOf(log).Answered? || StageOf(log).Unseen? || StageOf(log).Awaiting? ==>
              AnswersIn(log) != [] && AnswersIn(log)[|AnswersIn(log)| - 1] == StageOf(log).answer
  {
    if log != [] {
      LastAnswer(log[..|log| - 1]);
    }
  }

  /** What the last action was, by where the request stands. */
  lemma LastAction(log: seq<Action>)
    requires StageOf(log) != Broken && log != []
    ensures StageOf(log).Answered? ==> log[|log| - 1] == Send(StageOf(log).answer)
    ensures StageOf(log).Reached? ==> ChecksIn(log) != [] && ChecksIn(log)[|ChecksIn(log)| - 1]
  {
  }

  // ---------------------------------------------------------------- await_in_progress

  function Total(durations: seq<nat>): nat {
    if durations == [] then 0 else Total(durations[..|durations| - 1]) + durations[|durations| - 1]
  }

  /**
   * Waits for the requested state to become observable. `probes` is what the checks would find,
   * `durations` how long they would take, and `probed` how many of them were made.
   * It gives up no earlier than the mutation timeout and at most one poll interval of sleep later.
   */
  method AwaitInProgress(probes: seq<bool>, durations: seq<nat>, error: McpError, mutationTimeout: nat, log: seq<Action>)
    returns (outcome: Answer, after: seq<Action>, probed: nat, slept: nat, elapsed: nat)
    requires |probes| == |durations| >= mutationTimeout / 10_000 + 2
    requires StageOf(log).Answered? && StageOf(log).answer == Err(error) && OutcomeUnknown(Err(error))
    ensures log <= after && StageOf(after) != Broken
    ensures StageOf(after).attempts == StageOf(log).attempts
    ensures outcome.Ok? ==> StageOf(after).Reached?
    ensures outcome.Err? ==> outcome == Err(error) && StageOf(after).Unseen? && StageOf(after).answer == Err(error)
    ensures outcome.Err? ==> elapsed >= mutationTimeout
    ensures 0 < probed <= |probes| && elapsed == 10_000 * (probed - 1) + Total(durations[..probed])
    ensures forall i :: |log| <= i < |after| && after[i].Wait? ==> after[i].duration == 10_000
    ensures AnswersIn(after) == AnswersIn(log)
    ensures ChecksIn(after) == ChecksIn(log) + probes[..probed]
    ensures slept < mutationTimeout + 10_000
  {
    hide StageOf, AnswersIn, ChecksIn;
    after, probed, slept, elapsed := log, 0, 0, 0;
    ghost var attempts := StageOf(log).attempts;
    while true
      invariant log <= after
      invariant AnswersIn(after) == AnswersIn(log)
      invariant probed < |probes| && ChecksIn(after) == ChecksIn(log) + probes[..probed]
      invariant StageOf(after) == if probed == 0 then Answered(Err(error), attempts) else Awaiting(Err(error), attempts)
      invariant slept == probed * 10_000 && elapsed == slept + Total(durations[..probed])
      invariant forall i :: |log| <= i < |after| && after[i].Wait? ==> after[i].duration == 10_000
      invariant slept < mutationTimeout + IN_PROGRESS_POLL
      decreases mutationTimeout + IN_PROGRESS_POLL - slept
    {
      var reached := probes[probed];
      elapsed := elapsed + durations[probed];
      StageAfter(after, Check(reached));
      assert probes[..probed + 1] == probes[..probed] + [reached];
      assert durations[..probed + 1][..probed] == durations[..probed];
      after, probed := after + [Check(reached)], probed + 1;
      if reached {
        return Ok(()), after, probed, slept, elapsed;
      }
      if elapsed >= mutationTimeout {
        return Err(error), after, probed, slept, elapsed;
      }
      StageAfter(after, Wait(IN_PROGRESS_POLL));
      after := after + [Wait(IN_PROGRESS_POLL)];
      slept, elapsed := slept + IN_PROGRESS_POLL, elapsed + IN_PROGRESS_POLL;
    }
  }

  // ---------------------------------------------------------------- retry_mutation

  /**
   * `answers` is what Dappmanager would answer to each request, `reconciles` what the check after a
   * reported failure would find, and `probes` what the checks while waiting would find. The log is
   * everything the adapter did, in order.
   */
  method RetryMutation(answers: seq<Answer>, reconciles: seq<bool>, probes: seq<bool>, durations: seq<nat>,
                       mutationAttempts: nat, mutationTimeout: nat, initialDelay: nat)
    returns (outcome: Answer, log: seq<Action>, reconciled: nat, probed: nat)
    requires 1 <= mutationAttempts
    requires |answers| >= mutationAttempts && |reconciles| >= mutationAttempts
    requires |probes| == |durations| >= mutationTimeout / 10_000 + 2
    ensures StageOf(log) != Broken && log != []
    ensures Justifies(StageOf(log), outcome)
    ensures Sends(log) <= mutationAttempts
    ensures AnswersIn(log) == answers[..Sends(log)]
    ensures reconciled <= |reconciles| && probed <= |probes|
    ensures ChecksIn(log) == reconciles[..reconciled] + probes[..probed]
    ensures StageOf(log).Answered? && outcome.Err? ==> Sends(log) == mutationAttempts || !ReportedAsTransient(outcome.error)
    ensures StageOf(log).Unseen? ==> probed > 0 && 10_000 * (probed - 1) + Total(durations[..probed]) >= mutationTimeout
    ensures Paced(log, Sends(log), initialDelay)
    ensures forall i :: 3 * Sends(log) <= i < |log| && log[i].Wait? ==> log[i].duration == 10_000
  {
    hide StageOf, AnswersIn, ChecksIn, Sends, IsDelayAfter, RetryDelay, Paced, Total;
    log, reconciled, probed := [], 0, 0;
    EmptyLog();
    NothingPaced(initialDelay);
    var attempt := 1;
    while attempt <= mutationAttempts
      invariant 1 <= attempt <= mutationAttempts
      invariant StageOf(log) == if attempt == 1 then Unsent else Ready(attempt - 1)
      invariant AnswersIn(log) == answers[..attempt - 1]
      invariant |log| == 3 * (attempt - 1) && Paced(log, attempt - 1, initialDelay)
      invariant attempt > 1 ==> log[|log| - 1].Wait? && IsDelayAfter(initialDelay, attempt - 1, log[|log| - 1].duration)
      invariant reconciled == attempt - 1 && probed == 0 && ChecksIn(log) == reconciles[..reconciled]
      decreases mutationAttempts - attempt
    {
      var answer := answers[attempt - 1];
      StageAfter(log, Send(answer));
      SendPaced(log, attempt - 1, initialDelay, answer);
      log := log + [Send(answer)];
      ghost var sent := log;
      if answer.Ok? {
        StageCountsSends(log);
        return Ok(()), log, reconciled, probed;
      }
      var error := answer.error;
      if error.inProgressText || error.kind.TimeoutError? {
        var slept, elapsed;
        outcome, log, probed, slept, elapsed := AwaitInProgress(probes, durations, error, mutationTimeout, log);
        StageCountsSends(log);
        PacedOn(sent, attempt, initialDelay, log);
        return;
      }
      if attempt < mutationAttempts && RetryableMutationError(error) {
        var reached := reconciles[attempt - 1];
        StageAfter(log, Check(reached));
        log, reconciled := log + [Check(reached)], reconciled + 1;
        PacedOn(sent, attempt, initialDelay, log);
        if reached {
          StageCountsSends(log);
          return Ok(()), log, reconciled, probed;
        }
        var delay := RetryDelay(initialDelay, attempt);
        DelaysDouble(initialDelay, attempt);
        StageAfter(log, Wait(delay));
        log := log + [Wait(delay)];
        PacedOn(sent, attempt, initialDelay, log);
      } else {
        StageCountsSends(log);
        return Err(error), log, reconciled, probed;
      }
      attempt := attempt + 1;
    }
    // The `unreachable!` of the source: the last attempt always returns.
    assert false;
  }
}
