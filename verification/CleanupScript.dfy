/**
 * Which calls a cleanup makes, as an automaton over the calls made so far and their answers
 * (src/runner/cleanup.rs). Nothing but the job and the answers decides the next call.
 */
module CleanupScript {
  import opened Wrappers
  import opened Model
  import opened Protocol
  import opened Adapter
  import opened Calls

  const POLL_INTERVAL: nat := 500
  const MAX_ATTEMPTS: nat := 1_000

  datatype Job = Job(target: DnpName, plan: TargetRecoveryPlan, timeout: nat)

  function Attempts(timeout: nat): nat {
    if timeout / POLL_INTERVAL + 1 < MAX_ATTEMPTS then timeout / POLL_INTERVAL + 1 else MAX_ATTEMPTS
  }

  /** Where a cleanup is. `spent` is the time used since verification began. */
  datatype Stage =
    | Begun
    | Sampling(attempt: nat, spent: nat)
    | Resting(attempt: nat, spent: nat)
    | Reinstalling
    | Confirming
    | Restored(status: CleanupStatus)                    // the target is dealt with, the inventory is still to be read
    | Over(status: CleanupStatus, listing: Listing)
    | Astray                                             // a call the source would not make

  predicate RemovalFailed(answer: Result<(), PackageError>) {
    answer.Err? && !answer.error.kind.PackageNotFound?
  }

  /** The polling loop goes on while attempts and time are left. */
  function Poll(job: Job, attempt: nat, spent: nat): Stage {
    if attempt < Attempts(job.timeout) && spent < job.timeout then Sampling(attempt, spent) else Restored(CleanupTimedOut)
  }

  function Rest(job: Job, spent: nat): nat {
    if spent >= job.timeout then 0 else if POLL_INTERVAL < job.timeout - spent then POLL_INTERVAL else job.timeout - spent
  }

  function Sampled(job: Job, attempt: nat, spent: nat, listing: Listing): Stage {
    var last := attempt + 1 >= Attempts(job.timeout);
    if listing.Inventory? && !Installed(listing.packages, job.target) then Restored(CleanupPassed)
    else if listing.ListFailed? && last then Restored(CleanupStatus.CleanupFailed)
    else if listing.ListTimedOut? || last || spent >= job.timeout then Restored(CleanupTimedOut)
    else Resting(attempt, spent)
  }

  function Next(job: Job, stage: Stage, call: Call): Stage {
    match (stage, call)
    case (Begun, Mutating(RemovePackage(deleteVolumes), answer)) =>
      if deleteVolumes != job.plan.Remove? then Astray
      else if RemovalFailed(answer) then Restored(CleanupStatus.CleanupFailed)
      else if job.plan.Remove? then Poll(job, 0, 0)
      else Reinstalling
    case (Sampling(attempt, spent), Reading(Some(deadline), listing, elapsed)) =>
      if spent > job.timeout || deadline != job.timeout - spent then Astray else Sampled(job, attempt, spent + elapsed, listing)
    case (Resting(attempt, spent), Sleeping(duration)) =>
      if duration != Rest(job, spent) then Astray else Poll(job, attempt + 1, spent + duration)
    case (Reinstalling, Mutating(InstallPackage(None), answer)) =>
      if answer.Ok? then Confirming else Restored(CleanupStatus.CleanupFailed)
    case (Confirming, Reading(None, listing, _)) =>
      Restored(if listing.Inventory? && Installed(listing.packages, job.target) then CleanupPassed else CleanupStatus.CleanupFailed)
    case (Restored(status), Reading(None, listing, _)) => Over(status, listing)
    case _ => Astray
  }

  function StageOf(job: Job, calls: seq<Call>): Stage {
    if calls == [] then Begun else Next(job, StageOf(job, calls[..|calls| - 1]), calls[|calls| - 1])
  }

  lemma NothingCalled(job: Job)
    ensures StageOf(job, []) == Begun
  {
  }

  lemma NextStage(job: Job, calls: seq<Call>, call: Call)
    ensures StageOf(job, calls + [call]) == Next(job, StageOf(job, calls), call)
  {
    assert (calls + [call])[..|calls|] == calls;
  }

  // ---------------------------------------------------------------- what a finished cleanup amounts to

  /** The packages of the final inventory that were not there before, in the order listed. */
  function LeftoverPackages(initial: seq<PackageSummary>, final: seq<PackageSummary>): seq<DnpName> {
    if final == [] then []
    else (if final[0].dnpName in PackageNames(initial) then [] else [final[0].dnpName]) + LeftoverPackages(initial, final[1..])
  }

  /** The cleanup result, given how the target fared and what the final inventory shows. */
  function Outcome(initial: seq<PackageSummary>, status: CleanupStatus, listing: Listing): (CleanupResult, seq<PackageSummary>) {
    if !listing.Inventory? then (CleanupResult(if status.CleanupPassed? then CleanupStatus.CleanupFailed else status, []), [])
    else
      var leftovers := LeftoverPackages(initial, listing.packages);
      (CleanupResult(if status.CleanupPassed? && leftovers != [] then CleanupStatus.CleanupFailed else status, leftovers), listing.packages)
  }

  // ---------------------------------------------------------------- what the automaton says

  /** In every stage there is one call the source makes. */
  lemma OneCallPerStage(job: Job, stage: Stage, a: Call, b: Call)
    requires Next(job, stage, a) != Astray && Next(job, stage, b) != Astray
    requires SameAnswer(a, b)
    ensures a == b
  {
  }

  lemma {:induction false} AstrayIsFinal(job: Job, calls: seq<Call>, n: nat)
    requires n <= |calls| && StageOf(job, calls) != Astray
    ensures StageOf(job, calls[..n]) != Astray
  {
    if n < |calls| {
      var shorter := calls[..|calls| - 1];
      AstrayIsFinal(job, shorter, n);
      assert shorter[..n] == calls[..n];
    } else {
      assert calls[..n] == calls;
    }
  }

  lemma LastStage(job: Job, calls: seq<Call>)
    requires calls != [] && StageOf(job, calls) != Astray
    ensures var n := |calls| - 1;
            && StageOf(job, calls[..n]) != Astray
            && Next(job, StageOf(job, calls[..n]), calls[n]) == StageOf(job, calls)
  {
  }

  /** Two cleanups of the same job that get the same answers make the same calls, whatever else differs. */
  lemma {:induction false} SameAnswersSameCalls(job: Job, a: seq<Call>, b: seq<Call>)
    requires StageOf(job, a) != Astray && StageOf(job, b) != Astray
    requires |a| == |b| && SameAnswers(a, b)
    ensures a == b
  {
    hide StageOf, Next, SameAnswer;
    if a != [] {
      var n := |a| - 1;
      LastStage(job, a);
      LastStage(job, b);
      SameAnswersSameCalls(job, a[..n], b[..n]);
      assert a == a[..n] + [a[n]] && b == b[..n] + [b[n]];
      OneCallPerStage(job, StageOf(job, a[..n]), a[n], b[n]);
    }
  }

  /** A finished cleanup is never continued, so neither of two such cleanups can be the longer one. */
  lemma FinishedCallsAgree(job: Job, a: seq<Call>, b: seq<Call>)
    requires StageOf(job, a).Over? && StageOf(job, b).Over?
    requires SameAnswers(a, b)
    ensures a == b
  {
    hide Next, StageOf, SameAnswer;
    var n := if |a| < |b| then |a| else |b|;
    AstrayIsFinal(job, a, n);
    AstrayIsFinal(job, b, n);
    SameAnswersSameCalls(job, a[..n], b[..n]);
    assert a[..|a|] == a && b[..|b|] == b;
    if n < |a| {
      OverIsFinal(job, a, n);
    }
    if n < |b| {
      OverIsFinal(job, b, n);
    }
  }

  lemma OverIsFinal(job: Job, calls: seq<Call>, n: nat)
    requires n < |calls| && StageOf(job, calls) != Astray
    ensures !StageOf(job, calls[..n]).Over?
  {
    AstrayIsFinal(job, calls, n + 1);
    assert calls[..n + 1][..n] == calls[..n];
  }

  /** What a whole cleanup has done to the package. */
  predicate IsCleanup(plan: TargetRecoveryPlan, mutations: seq<Mutation>) {
    if plan.Remove? then mutations == [RemovePackage(true)]
    else mutations == [RemovePackage(false)] || mutations == [RemovePackage(false), InstallPackage(None)]
  }

  /** What a stage has done to the package. */
  predicate MutatedAs(job: Job, stage: Stage, mutations: seq<Mutation>) {
    match stage
    case Begun => mutations == []
    case Sampling(_, _) => job.plan.Remove? && mutations == [RemovePackage(true)]
    case Resting(_, _) => job.plan.Remove? && mutations == [RemovePackage(true)]
    case Reinstalling => job.plan.RestoreLatest? && mutations == [RemovePackage(false)]
    case Confirming => job.plan.RestoreLatest? && mutations == [RemovePackage(false), InstallPackage(None)]
    case _ => IsCleanup(job.plan, mutations)
  }

  lemma NextMutates(job: Job, stage: Stage, call: Call, mutations: seq<Mutation>)
    requires MutatedAs(job, stage, mutations) && Next(job, stage, call) != Astray
    ensures MutatedAs(job, Next(job, stage, call), mutations + (if call.Mutating? then [call.mutation] else []))
  {
  }

  /** One removal, with the volumes exactly if nothing is restored, and then at most one installation of the latest release. */
  lemma {:induction false} CleanupMutatesInOrder(job: Job, calls: seq<Call>)
    requires StageOf(job, calls) != Astray
    ensures MutatedAs(job, StageOf(job, calls), MutationsIn(calls))
  {
    if calls != [] {
      var n := |calls| - 1;
      AstrayIsFinal(job, calls, n);
      CleanupMutatesInOrder(job, calls[..n]);
      NextMutates(job, StageOf(job, calls[..n]), calls[n], MutationsIn(calls[..n]));
    }
  }

  /** The time the calls since the removal took. */
  function TimeSpent(calls: seq<Call>): nat {
    if calls == [] then 0
    else
      TimeSpent(calls[..|calls| - 1])
      + match calls[|calls| - 1]
        case Reading(Some(_), _, elapsed) => elapsed
        case Sleeping(duration) => duration
        case _ => 0
  }

  /** Every read kept its deadline. */
  predicate KeepsDeadlines(calls: seq<Call>) {
    forall call :: call in calls && call.Reading? && call.deadline.Some? ==> call.elapsed <= call.deadline.value
  }

  predicate TimedAs(job: Job, stage: Stage, spent: nat) {
    match stage
    case Begun => spent == 0
    case Sampling(_, s) => s == spent && spent <= job.timeout
    case Resting(_, s) => s == spent && spent <= job.timeout
    case _ => spent <= job.timeout
  }

  /** Verification stays within its time budget. */
  lemma {:induction false} VerificationKeepsBudget(job: Job, calls: seq<Call>)
    requires StageOf(job, calls) != Astray && KeepsDeadlines(calls)
    ensures TimedAs(job, StageOf(job, calls), TimeSpent(calls)) && TimeSpent(calls) <= job.timeout
  {
    if calls != [] {
      var n := |calls| - 1;
      AstrayIsFinal(job, calls, n);
      assert calls[n] in calls;
      VerificationKeepsBudget(job, calls[..n]);
    }
  }

  // ---------------------------------------------------------------- how long verification goes on

  /** The inventories read while polling. */
  function Polls(calls: seq<Call>): nat {
    if calls == [] then 0
    else
      var last := calls[|calls| - 1];
      Polls(calls[..|calls| - 1]) + if last.Reading? && last.deadline.Some? then 1 else 0
  }

  /** The time left is shorter than one pause of half a second, or a thousand inventories were read. */
  predicate Exhausted(timeout: nat, calls: seq<Call>) {
    TimeSpent(calls) + 500 > timeout || Polls(calls) == 1_000
  }

  predicate PollTimedOut(calls: seq<Call>) {
    exists call :: call in calls && call.Reading? && call.deadline.Some? && call.listing.ListTimedOut?
  }

  predicate PollFailed(calls: seq<Call>) {
    exists call :: call in calls && call.Reading? && call.deadline.Some? && call.listing.ListFailed?
  }

  /** The removal was answered with an error other than that there is nothing to remove. */
  predicate RemovalRefused(calls: seq<Call>) {
    && calls != [] && calls[0].Mutating? && calls[0].mutation.RemovePackage?
    && calls[0].answer.Err? && calls[0].answer.error.kind != PackageNotFound
  }

  /** The latest release could not be installed, or the inventory read after its installation did not show the target. */
  predicate RestoreRefused(target: DnpName, calls: seq<Call>) {
    || (exists call :: call in calls && call.Mutating? && call.mutation == InstallPackage(None) && call.answer.Err?)
    || (exists call :: call in calls && call.Reading? && call.deadline.None?
                       && !(call.listing.Inventory? && exists p :: p in call.listing.packages && p.dnpName == target))
  }

  /** Why a cleanup gives up on the target. */
  predicate GaveUp(job: Job, calls: seq<Call>, status: CleanupStatus) {
    && (status == CleanupTimedOut ==> job.plan.Remove? && (PollTimedOut(calls) || Exhausted(job.timeout, calls)))
    && (status == CleanupStatus.CleanupFailed ==>
          || RemovalRefused(calls)
          || (job.plan.Remove? && PollFailed(calls) && Exhausted(job.timeout, calls))
          || (job.plan.RestoreLatest? && RestoreRefused(job.target, calls)))
  }

  /** Every pause follows a read and is half a second long, or all that was left of the time. */
  predicate Paces(timeout: nat, calls: seq<Call>) {
    forall k :: 0 <= k < |calls| ==> PacesAt(timeout, calls, k)
  }

  predicate PacesAt(timeout: nat, calls: seq<Call>, k: nat)
    requires k < |calls|
  {
    calls[k].Sleeping? ==>
      && k > 0 && calls[k - 1].Reading?
      && (calls[k].duration == 500 || (calls[k].duration < 500 && TimeSpent(calls[..k + 1]) == timeout))
  }

  predicate PollsAs(job: Job, stage: Stage, calls: seq<Call>) {
    && Polls(calls) <= 1_000 && 500 * Polls(calls) <= job.timeout + 500
    && (job.plan.RestoreLatest? ==> Polls(calls) == 0)
    && match stage
       case Begun => calls == []
       case Sampling(attempt, spent) => spent < job.timeout && Polls(calls) == attempt && 500 * attempt <= spent && attempt < 1_000
       case Resting(attempt, spent) =>
         && spent < job.timeout && Polls(calls) == attempt + 1 && 500 * attempt <= spent && attempt + 1 < 1_000
         && calls != [] && calls[|calls| - 1].Reading?
       case Restored(status) => GaveUp(job, calls, status)
       case Over(status, _) => GaveUp(job, calls, status)
       case _ => true
  }

  /**
   * Polling goes on while there is time: the target is given up on only after a read that timed out,
   * when less than a pause is left, or after a thousand reads, and a failed read ends the cleanup only then.
   */
  lemma {:induction false} PollsUntilExhausted(job: Job, calls: seq<Call>)
    requires StageOf(job, calls) != Astray && KeepsDeadlines(calls)
    ensures PollsAs(job, StageOf(job, calls), calls) && Paces(job.timeout, calls)
  {
    hide Next, MutatedAs, TimedAs, GaveUp;
    if calls == [] {
      assert PollsAs(job, Begun, calls);
    } else {
      var n := |calls| - 1;
      var stage := StageOf(job, calls[..n]);
      LastStage(job, calls);
      PollsUntilExhausted(job, calls[..n]);
      VerificationKeepsBudget(job, calls[..n]);
      CleanupMutatesInOrder(job, calls[..n]);
      assert calls == calls[..n] + [calls[n]] && calls[n] in calls;
      NextPolls(job, stage, calls[..n], calls[n]);
      NextPaces(job, stage, calls[..n], calls[n]);
    }
  }

  /** What one more call adds to the counts. */
  lemma CallCounts(calls: seq<Call>, call: Call)
    ensures Polls(calls + [call]) == Polls(calls) + if call.Reading? && call.deadline.Some? then 1 else 0
    ensures TimeSpent(calls + [call]) == TimeSpent(calls) + TimeSpent([call])
    ensures PollTimedOut(calls) ==> PollTimedOut(calls + [call])
    ensures PollFailed(calls) ==> PollFailed(calls + [call])
    ensures forall target :: RestoreRefused(target, calls) ==> RestoreRefused(target, calls + [call])
    ensures calls != [] ==> (calls + [call])[0] == calls[0]
    ensures (calls + [call])[|calls|] == call && call in calls + [call]
  {
    assert (calls + [call])[..|calls|] == calls;
    assert [call][..0] == [];
  }

  /** A poll ends the cleanup only for one of the reasons, or leads to a pause. */
  lemma SampledPolls(job: Job, attempt: nat, spent: nat, calls: seq<Call>, call: Call)
    requires PollsAs(job, Sampling(attempt, spent), calls) && TimeSpent(calls) == spent && job.plan.Remove?
    requires Next(job, Sampling(attempt, spent), call) != Astray
    requires call.Reading? && call.deadline.Some? && call.elapsed <= call.deadline.value
    ensures PollsAs(job, Next(job, Sampling(attempt, spent), call), calls + [call])
  {
    hide StageOf, TimeSpent, Polls, PollTimedOut, PollFailed, RestoreRefused, RemovalRefused;
    CallCounts(calls, call);
    SingleCall(call);
    PollSeen(calls + [call], call);
  }

  /** The next round is polled unless the time or the polls are used up. */
  lemma RoundPolls(job: Job, attempt: nat, spent: nat, calls: seq<Call>)
    requires job.plan.Remove? && Polls(calls) == attempt && TimeSpent(calls) == spent
    requires attempt < 1_000 && 500 * attempt <= job.timeout + 500 && (spent < job.timeout ==> 500 * attempt <= spent)
    ensures PollsAs(job, Poll(job, attempt, spent), calls)
  {
    hide StageOf, TimeSpent, Polls, PollTimedOut, PollFailed, RestoreRefused, RemovalRefused;
  }

  lemma NextPolls(job: Job, stage: Stage, calls: seq<Call>, call: Call)
    requires PollsAs(job, stage, calls) && TimedAs(job, stage, TimeSpent(calls)) && MutatedAs(job, stage, MutationsIn(calls))
    requires Next(job, stage, call) != Astray
    requires call.Reading? && call.deadline.Some? ==> call.elapsed <= call.deadline.value
    ensures PollsAs(job, Next(job, stage, call), calls + [call])
  {
    hide StageOf, TimeSpent, PollTimedOut, PollFailed, RestoreRefused, Sampled, Poll;
    CallCounts(calls, call);
    SingleCall(call);
    match stage
    case Begun =>
      assert (calls + [call])[0] == call;
      assert RemovalRefused(calls + [call]) <== call.Mutating? && RemovalFailed(call.answer);
      if job.plan.Remove? {
        RoundPolls(job, 0, 0, calls + [call]);
      }
    case Sampling(attempt, spent) => SampledPolls(job, attempt, spent, calls, call);
    case Resting(attempt, spent) => RoundPolls(job, attempt + 1, spent + call.duration, calls + [call]);
    case Reinstalling => RestoreSeen(job.target, calls + [call], call);
    case Confirming => RestoreSeen(job.target, calls + [call], call);
    case Restored(_) =>
  }

  lemma SingleCall(call: Call)
    ensures TimeSpent([call]) == match call case Reading(Some(_), _, elapsed) => elapsed case Sleeping(duration) => duration case _ => 0
  {
    assert [call][..0] == [];
  }

  lemma PollSeen(calls: seq<Call>, call: Call)
    requires call in calls && call.Reading? && call.deadline.Some?
    ensures call.listing.ListTimedOut? ==> PollTimedOut(calls)
    ensures call.listing.ListFailed? ==> PollFailed(calls)
  {
  }

  lemma RestoreSeen(target: DnpName, calls: seq<Call>, call: Call)
    requires call in calls
    ensures call.Mutating? && call.mutation == InstallPackage(None) && call.answer.Err? ==> RestoreRefused(target, calls)
    ensures call.Reading? && call.deadline.None? && !(call.listing.Inventory? && Installed(call.listing.packages, target))
            ==> RestoreRefused(target, calls)
  {
  }

  /** A pause that the script makes is due, and follows a read. */
  lemma PauseIsDue(job: Job, stage: Stage, calls: seq<Call>, call: Call)
    requires PollsAs(job, stage, calls) && TimedAs(job, stage, TimeSpent(calls))
    requires call.Sleeping? && Next(job, stage, call) != Astray
    ensures calls != [] && calls[|calls| - 1].Reading?
    ensures call.duration == 500 || (call.duration < 500 && TimeSpent(calls) + call.duration == job.timeout)
  {
    hide StageOf, TimeSpent, Polls, GaveUp, Poll;
  }

  lemma EarlierPauses(timeout: nat, calls: seq<Call>, call: Call, k: nat)
    requires k < |calls|
    ensures PacesAt(timeout, calls + [call], k) == PacesAt(timeout, calls, k)
  {
    hide TimeSpent;
    assert (calls + [call])[..k + 1] == calls[..k + 1];
  }

  lemma NextPaces(job: Job, stage: Stage, calls: seq<Call>, call: Call)
    requires Paces(job.timeout, calls) && PollsAs(job, stage, calls) && TimedAs(job, stage, TimeSpent(calls))
    requires Next(job, stage, call) != Astray
    ensures Paces(job.timeout, calls + [call])
  {
    hide StageOf, TimeSpent, Polls, PollTimedOut, PollFailed, RestoreRefused, PollsAs, TimedAs, Next, PacesAt;
    var longer := calls + [call];
    forall k | 0 <= k < |longer|
      ensures PacesAt(job.timeout, longer, k)
    {
      if k < |calls| {
        EarlierPauses(job.timeout, calls, call, k);
      } else {
        LastPause(job, stage, calls, call);
      }
    }
  }

  lemma LastPause(job: Job, stage: Stage, calls: seq<Call>, call: Call)
    requires PollsAs(job, stage, calls) && TimedAs(job, stage, TimeSpent(calls)) && Next(job, stage, call) != Astray
    ensures PacesAt(job.timeout, calls + [call], |calls|)
  {
    hide StageOf, TimeSpent, Polls, PollsAs, TimedAs, Next;
    CallCounts(calls, call);
    SingleCall(call);
    assert (calls + [call])[..|calls| + 1] == calls + [call];
    if call.Sleeping? {
      PauseIsDue(job, stage, calls, call);
    }
  }

  // ---------------------------------------------------------------- following the script

  /** The calls from `mark` on follow the script of the job and have reached `stage`. */
  ghost predicate Follows(calls: seq<Call>, mark: nat, job: Job, stage: Stage) {
    && mark <= |calls|
    && StageOf(job, calls[mark..]) == stage
    && KeepsDeadlines(calls[mark..])
  }

  ghost predicate OnScript(calls: seq<Call>, mark: nat, job: Job) {
    mark <= |calls| && StageOf(job, calls[mark..]) != Astray
  }

  lemma FollowedIsOnScript(calls: seq<Call>, mark: nat, job: Job, stage: Stage)
    requires Follows(calls, mark, job, stage) && stage != Astray
    ensures OnScript(calls, mark, job)
  {
  }

  lemma FollowsFrom(calls: seq<Call>, job: Job)
    ensures Follows(calls, |calls|, job, Begun) && OnScript(calls, |calls|, job)
  {
  }

  lemma FollowsOn(calls: seq<Call>, mark: nat, job: Job, stage: Stage, call: Call)
    requires Follows(calls, mark, job, stage)
    requires call.Reading? && call.deadline.Some? ==> call.elapsed <= call.deadline.value
    ensures Follows(calls + [call], mark, job, Next(job, stage, call))
    ensures Next(job, stage, call) != Astray ==> OnScript(calls + [call], mark, job)
  {
    assert (calls + [call])[mark..] == calls[mark..] + [call];
    NextStage(job, calls[mark..], call);
  }

  lemma FollowedGaveUp(calls: seq<Call>, mark: nat, job: Job, stage: Stage)
    requires Follows(calls, mark, job, stage) && (stage.Restored? || stage.Over?)
    ensures GaveUp(job, calls[mark..], stage.status) && Paces(job.timeout, calls[mark..])
  {
    PollsUntilExhausted(job, calls[mark..]);
  }
}
