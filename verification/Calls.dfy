/** What a run asks of the outside world, and what it is answered. */
module Calls {
  import opened Wrappers
  import opened Model
  import opened Protocol
  import opened Progress
  import opened Adapter
  import opened Stabilization

  /** An inventory read, with or without a deadline. */
  datatype Listing = Inventory(packages: seq<PackageSummary>) | ListFailed(error: PackageError) | ListTimedOut

  /** One question and its answer. */
  datatype Call =
    | Mutating(mutation: Mutation, answer: Result<(), PackageError>)
    | Reading(deadline: Option<nat>, listing: Listing, elapsed: nat)
    | Sleeping(duration: nat)
    | Verifying(tools: Result<bool, PackageError>)
    | Previewing(reference: Option<string>, preview: Result<Preview, PackageError>)
    | Detailing(details: Result<PackageDetails, PackageError>)
    | Logging(logs: Result<(), PackageError>)
    | Measuring(seen: seq<Observation>, stopped: bool)    // one hard check: everything it observed, and whether a signal ended it
    | Signalling(control: RunControl)           // the control signal at a boundary
    | ReadingLoss(lost: bool)                   // whether the claim was reported as lost
    | Loading(loaded: Option<Record>)           // None: the store reported a failure
    | Saving(record: Record, stored: bool)
    | Analyzing(analysis: Result<LogAnalysis, string>)

  /** The same answer, whatever was asked. What the analyzer says does not matter. */
  predicate SameAnswer(a: Call, b: Call) {
    match (a, b)
    case (Mutating(_, x), Mutating(_, y)) => x == y
    case (Reading(_, x, s), Reading(_, y, t)) => x == y && s == t
    case (Sleeping(_), Sleeping(_)) => true
    case (Verifying(x), Verifying(y)) => x == y
    case (Previewing(_, x), Previewing(_, y)) => x == y
    case (Detailing(x), Detailing(y)) => x == y
    case (Logging(x), Logging(y)) => x == y
    case (Measuring(x, s), Measuring(y, t)) => x == y && s == t
    case (Signalling(x), Signalling(y)) => x == y
    case (ReadingLoss(x), ReadingLoss(y)) => x == y
    case (Loading(x), Loading(y)) => x == y
    case (Saving(_, x), Saving(_, y)) => x == y
    case (Analyzing(_), Analyzing(_)) => true
    case _ => false
  }

  /** As far as two runs have got, they were answered the same. */
  ghost predicate SameAnswers(a: seq<Call>, b: seq<Call>) {
    forall i :: 0 <= i < |a| && i < |b| ==> SameAnswer(a[i], b[i])
  }

  /** The mutations among the calls, in order. */
  function MutationsIn(calls: seq<Call>): seq<Mutation> {
    if calls == [] then []
    else
      var last := calls[|calls| - 1];
      MutationsIn(calls[..|calls| - 1]) + (if last.Mutating? then [last.mutation] else [])
  }
}
