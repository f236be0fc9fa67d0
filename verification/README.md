# Package harness worker: a verified model

The package harness claims one package-test job at a time from a coordinator, persists it, drives a
baseline / candidate / cleanup algorithm against an outside package manager, and delivers exactly one
completion. The process may die at any effect and start again from its durable run records; operators,
the heartbeat and the drain endpoints change state beside it. This project models that protocol in Dafny
and proves what holds over every such run.

## How it is built

* **Protocol** describes the system as a trace of events (saves, package mutations, inventory reads,
  control checks, claims, completion bodies, answers, operator actions, crashes). `Guard` says what an
  event must respect, `Apply` what it changes, `Legal` that every event of a trace respected its guard.
* **Runtime** is the world: durable store, package manager, coordinator, operators, heartbeat, drain
  endpoints and crashes. Each effect of the worker is a method of `Node`: others may act before it any
  number of times, the process may be killed before and after it, and the answers are arbitrary. A `Node`
  method can only be called where the trace stays legal.
* **Reconciliation**, **Controller**, **Operator** and **Worker** are the code itself, method by method
  and branch by branch, over `Node`. `Worker.Life` starts, runs, kills and restarts the process any
  number of times; the trace it leaves is legal at every point.
* **Guarantees** and **Recoveries** state what legal traces promise over whole runs; **Limits** plays runs
  event for event, with the records the code writes, in which stronger claims would be false.
* **Invariants**, **Interference**, **Live**, **RunSpec**, **Settlement** and **Evolution** hold the
  inductive invariant, what others may change (a rely condition), and the lemmas the methods use.
* **Calls** is what a run asks of the outside world (package manager, store, control signal, analyzer) and
  what it is answered. **CleanupScript** and **RunScript** are the cleanup and the whole execution as automata
  over these calls: the answers so far decide the next call and the record in memory. The methods of
  **Reconciliation** and **Controller** are proved to follow them, whatever they are answered and wherever
  they are killed. **RunOrder** and **NonInterference** are proved about the automata. **Verdicts** holds a table of
  its own, which answers stop a run with which verdict and reason, and proves the reported verdict against it.
* **Redaction**, **Stabilization**, **RetryMutation**, **Evidence** and **Names** are the self-contained
  loops and string functions. **Adapter** runs `RetryMutation` inside one mutating call, with the checks of the
  installed state; a `Mutated` event of the trace is one such call.

## Findings

* A lost claim is released by `settle_claim` without looking at the cleanup status: it ends released,
  unacknowledged and with failed cleanup (`Limits.LostClaimIsReleasedUnclean`). Recovery releases none but runs
  that were never touched or whose cleanup passed after their last mutation, and nobody releases a run whose owed
  cleanup is still pending. `Guarantees.ReleaseIsJustified` states this over the trace.
* Failed cleanup is meant to be held before it is delivered. A crash between the final save and the hold
  leads to delivery without a hold (`Limits.CrashSkipsTheHold`). Nothing else does: a completion with failed
  cleanup is sent only after a cleanup hold of the run was stored and the worker resumed, or after a crash with
  that very result stored (`Recoveries.FailedCleanupIsHeldUnlessCrashed`).
* An interrupted run is reported as "worker restarted" although the process may never have died: a run that is
  held and continued by an operator is interrupted in the same way (`Limits.InterruptedWithoutCrash`). There is
  no third way (`Recoveries.InterruptionIsAccountedFor`).
* A save that is published but reported as failed lets a record get both a result and a worker error; its
  completion can then not be prepared, and the worker stops without a hold (`Limits.TornSaveWedges`). That is
  the only way (`Guarantees.OutcomesAreExclusive`, `Worker.OnlyTornWedges`).
* A cleanup hold on a run that never owed cleanup cannot be resolved by any operator action
  (`Guarantees.HeldIsReleasableExactlyWhen`). It arises when the recovery save of such a run fails and the save
  of the hold then succeeds, whether the run was interrupted (`Limits.UnneededHoldIsStuck`) or aborted because a
  save had failed before (`Limits.AbortedHoldIsStuck`). `Guarantees.CleanupHoldIsJustified` says what every such
  hold follows.
* An operator's acceptance can be undone by a save of the worker that was already retrying the completion
  (`Limits.StaleSaveUndoesAcceptance`). It is permanent when the worker is not on the run
  (`Recoveries.AcceptedForever`), an acknowledgement lasts exactly as long as the worker driving the run does
  not save over it (`Recoveries.AcknowledgementLastsExactlyWhen`), and the coordinator's own is never undone
  (`Recoveries.CoordinatorAcknowledgementIsPermanent`).
* The `unreachable!` of the retry loop, the multiple-unresolved-jobs error and, without torn saves, all
  four errors of the completion preparation are unreachable.

## Model

| member | source | states |
|---|---|---|
| Guarantees.SingleFlight | src/worker/mod.rs:173-175 | in every state of every run at most one stored record is unresolved, and none when a claim is sent |
| Guarantees.WriteAhead | src/runner/controller.rs:815-831 | every mutation ever issued follows the durable, permanent cleanup obligation; the stored plan restores the target exactly if the stored inventory had it; neither a core package nor the harness is touched; volumes are deleted only of targets not installed before |
| Guarantees.AlgorithmRunsAtMostOnce | src/runner/controller.rs:95-112 | a run id enters the algorithm at most once over any number of crashes and repeated claims |
| Guarantees.CandidateIsAppliedAtMostOnce | src/runner/controller.rs:553-559 | the candidate update is issued at most once per run id |
| Guarantees.RecoveryNeverReruns | src/worker/mod.rs:584-625 | after recovery took a run up, neither the algorithm nor a forward mutation follows |
| Guarantees.ExactRedelivery | src/worker/mod.rs:772-878 | all bodies ever sent for a run are equal, and the body was saved before it was first sent |
| Guarantees.AcknowledgementIsAnswered | src/worker/mod.rs:798-807 | a stored acknowledgement says how it came about: recorded and duplicate are the coordinator's own answers, the third an operator's acceptance |
| Guarantees.ConflictHoldIsAnswered | src/worker/mod.rs:845-859 | a conflict hold follows a conflict answer of the coordinator, with the body still stored |
| Guarantees.NothingIsSentAfterRebuff | src/worker/mod.rs:834-859 | after a conflict or rejected credentials the body is not sent again before recovery starts over |
| Guarantees.CleanupHoldIsJustified | src/worker/mod.rs:485-525 | the worker pauses for cleanup only when cleanup failed or is still owed, or the store failed |
| Guarantees.WorkerErrorsAreTruthful | src/worker/mod.rs:447-501 | a worker error is what happened: refused or unexpected only before the algorithm and because of the inventory, a persistence failure only after the store failed, interrupted only after recovery took the run up |
| Guarantees.OnlyAdmittedTargetsAreTested | src/worker/mod.rs:648-666 | the algorithm is never entered for the harness, and otherwise only after an inventory read for the run that does not show the target as core, with no other read and no mutation in between |
| Guarantees.OfferedJobIsPersisted | src/worker/mod.rs:419-424 | a claimed job is persisted before another claim is sent, unless the process dies |
| Guarantees.AcceptanceNeedsCleanup | src/api/routes.rs:682-704 | an operator accepts the coordinator's result only after a conflict answer, and only when cleanup passed after the last mutation or the package was never mutated at all |
| Guarantees.ResolutionIsEarned | src/model/run.rs:267-271 | a claimed run stays unresolved until it is answered, accepted, or reported as lost since recovery last took it up |
| Guarantees.ReleaseIsJustified | src/worker/mod.rs:503-515 | a claim is let go unacknowledged only after it was reported lost since recovery last took it up, never with owed cleanup pending; and then the package was never mutated, or cleanup passed after its last mutation, or recovery never took the run up and its cleanup was made after every forward mutation and failed |
| Guarantees.PassIsEarned | src/runner/cleanup.rs:192-215 | cleanup counts as passed only after verified inventories since the last mutation, or an operator's confirmation |
| Guarantees.CleanupIsNeverRepeated | src/worker/mod.rs:668-682 | once a stored record shows cleanup passed, no mutation of that run follows |
| Guarantees.UntouchableForever | src/worker/mod.rs:668-682 | nor once a completion body was prepared |
| Guarantees.WorkerErrorsAreHonest | src/worker/mod.rs:745-770 | a sent worker error says Skipped only if the package is never mutated in the whole run, Passed only if cleanup passed after the last mutation, and nothing else |
| Guarantees.OutcomesAreExclusive | src/worker/mod.rs:940-960 | result and worker error exclude each other unless a save was torn; a result belongs to its run; an unresolved record has its token |
| Guarantees.PassedIsSound | src/runner/controller.rs:206-273 | a stored Passed verdict means: the baseline was captured, then the one update to the candidate succeeded, then the candidate was captured; both captures show the whole configured number of identical all-running samples, report the released version their previews announced and name the same content identifier or like them none, and are the stored evidence; no signature bypass was ever issued; cleanup passed after the last mutation with nothing left over |
| Guarantees.UpdateLiesBetween | src/runner/controller.rs:510-606 | wherever both sides are captured, the update to the requested candidate lies between, issued and successful |
| Guarantees.ForwardMutationIsCleared | src/runner/controller.rs:785-795 | each forward mutation follows a Continue read after its own phase was stored |
| Guarantees.NoMutationPastSignal | src/runner/controller.rs:833-847 | after a cancel or claim-lost signal no later phase mutates the package |
| Guarantees.ResultFollowsReconciliation | src/runner/controller.rs:150-204 | once a result is stored, a cleanup mutation followed every forward one |
| Guarantees.DrainedIsSafe | src/worker/mod.rs:361-388 | Drained means blocked at the gate or stopped, with nothing needing attention |
| Guarantees.AtMostOneClaimWhileDraining | src/worker/mod.rs:235-248 | between a drain request and the next resume or restart at most one claim is sent |
| Guarantees.HeldIsReleasableExactlyWhen | src/api/routes.rs:601-718 | a hold can be resolved by operators exactly when cleanup was owed, or a completion conflicts whose cleanup passed or was skipped |
| Recoveries.FailedCleanupIsHeldUnlessCrashed | src/worker/mod.rs:517-525 | a completion with failed cleanup is a result, and before it is sent a cleanup hold was stored and the worker resumed, or the process died while that result was stored and the run unresolved; without a crash it was held |
| Recoveries.InterruptionIsAccountedFor | src/worker/mod.rs:595-624 | a run is reported as interrupted only if the process died during it, or it was held and the worker resumed |
| Recoveries.RecoveryIsAccountedFor | src/worker/mod.rs:553-582 | recovery takes a run up only after a crash during it, or a hold and a resume |
| Recoveries.CleanupHoldHolds | src/worker/mod.rs:567-573 | once a cleanup hold is stored nothing is mutated, captured, saved, sent, entered or recovered for the run before an operator continues it |
| Recoveries.AcceptedForever | src/api/routes.rs:671-718 | an acceptance while the worker is not on the run is permanent: the record never changes again |
| Recoveries.AcknowledgementLastsExactlyWhen | src/api/routes.rs:671-718 | a stored acknowledgement lasts exactly as long as the worker driving the run does not save its older record over it |
| Recoveries.CoordinatorAcknowledgementIsPermanent | src/worker/mod.rs:798-809 | what the coordinator acknowledged stays acknowledged, whatever worker and operators do |
| Limits.UnneededHoldIsStuck | src/worker/mod.rs:595-605 | a run that never owed cleanup, held after its interruption could not be saved; no operator action resolves it |
| Limits.AbortedHoldIsStuck | src/worker/mod.rs:478-494 | the same without a crash: neither the start of the run nor its recovery could be saved |
| Limits.TornSaveWedges | src/storage/file.rs:42-60 | a result published by a failed save is joined by a worker error; nothing can be delivered and nothing is held |
| Limits.CrashSkipsTheHold | src/worker/mod.rs:589-593 | a scripted run whose installation and cleanup fail, a crash after its last save, and its result sent though no record was ever held |
| Limits.LostClaimIsReleasedUnclean | src/worker/mod.rs:503-515 | the same run with its claim lost: cleaned up once more in vain, and released unacknowledged with failed cleanup |
| Limits.InterruptedWithoutCrash | src/worker/mod.rs:485-494 | a run whose save fails is held, continued by an operator, and reported as interrupted though the process never died |
| Limits.StaleSaveUndoesAcceptance | src/api/routes.rs:671-718 | an operator's acceptance taken back by the save of a worker that was sending the conflicting completion again |
| Invariants.StepKeepsInvariant | src/worker/mod.rs:188-975 | every event keeps the protocol invariant |
| Invariants.LegalKeepsInvariant | src/worker/mod.rs:188-975 | so every reachable state satisfies it |
| Evolution.EvolvesAlong | src/model/run.rs:77-97 | commitments, results, bodies and counters only ever grow along a run |
| Evolution.HistoryIsWitnessed | src/model/run.rs:196-212 | what the history of a run says happened did happen in its trace |
| Worker.Life | src/worker/mod.rs:212-359 | any number of starts and kills leave a legal trace that explains the store |
| Worker.PackageHarnessWorker.Run | src/worker/mod.rs:215-359 | the worker reconciles, then polls, and comes back only through recovery; it returns halted, with nothing needing attention if polling ended, and with nobody held if it had no one to wait for |
| Worker.PackageHarnessWorker.Poll | src/worker/mod.rs:243-357 | polling ends for an operator, for the coordinator, or gives up, the last two only while nothing needs attention |
| Worker.PackageHarnessWorker.PollOnce | src/worker/mod.rs:245-355 | only a permanent rejection gives up, only a claimed job awaits an operator, only an unresolved one the coordinator; it goes on only with nothing needing attention |
| Worker.PackageHarnessWorker.WaitUntilAccepting | src/worker/mod.rs:361-388 | true only at an open gate with nothing needing attention |
| Worker.PackageHarnessWorker.WaitForOperatorRecovery | src/worker/mod.rs:390-417 | woken only into recovery; otherwise the worker shuts down, could not read its records, or nobody is held |
| Worker.PackageHarnessWorker.ProcessClaim | src/worker/mod.rs:419-445 | Ok leaves nothing unresolved |
| Worker.PackageHarnessWorker.Recover | src/worker/mod.rs:530-582 | Ok leaves nothing unresolved |
| Worker.OnlyOneUnresolved | src/worker/mod.rs:545-549 | the multiple-unresolved error cannot occur |
| Worker.PackageHarnessWorker.SettleClaim | src/worker/mod.rs:447-528 | Ok leaves nothing unresolved: the run is acknowledged, or released after its claim was lost; each fault is what happened: a store failure, a hold, a rejection, or a torn record |
| Worker.PackageHarnessWorker.ExecuteAndReload | src/worker/mod.rs:466-476 | the calls are those of one whole scripted execution and a read, and what is read back is the record that execution stored, concluded, or an unfinished one |
| Worker.PackageHarnessWorker.SettleExecuted | src/worker/mod.rs:478-527 | a claim that was seen lost is released after its owed cleanup was made, any other delivered and acknowledged, or the worker stays on the run with a fault that happened |
| Worker.PackageHarnessWorker.ReplaceByWorkerError | src/worker/mod.rs:478-501 | an unfinished run is recovered and decided by an error that states its cleanup |
| Worker.PackageHarnessWorker.DeliverOrHold | src/worker/mod.rs:517-527 | failed cleanup holds, everything else is delivered; Ok means acknowledged |
| Worker.PackageHarnessWorker.SettleRecovered | src/worker/mod.rs:584-625 | the branches of recovery: acknowledged, or released after its claim was lost, or a fault that happened |
| Worker.PackageHarnessWorker.SettleInterrupted | src/worker/mod.rs:595-624 | an interrupted run is recovered, never rerun: its owed cleanup is made by its script and saved before the claim is looked at; a claim seen lost is released with nothing owed or cleanup passed, any other decided by its interruption and acknowledged |
| Worker.PackageHarnessWorker.UnsupportedJobReason | src/worker/mod.rs:648-666 | refuses the harness itself, and otherwise exactly the targets the one inventory read shows as core |
| Worker.PackageHarnessWorker.RecoverTargetIfRequired | src/worker/mod.rs:668-743 | only saves when nothing is owed or cleanup passed, else inspects the inventory, makes one whole cleanup and saves its outcome |
| Worker.PackageHarnessWorker.SetWorkerError | src/worker/mod.rs:745-770 | the stored error states the cleanup status of its record |
| Worker.PackageHarnessWorker.PrepareCompletion | src/worker/mod.rs:931-973 | the body is saved before it can be sent; an error says which outcome is missing |
| Worker.PackageHarnessWorker.DeliverUntilTerminal | src/worker/mod.rs:772-878 | Ok means the stored record is acknowledged |
| Worker.PackageHarnessWorker.MarkCleanupHold | src/worker/mod.rs:910-929 | the stored record is held |
| Worker.PackageHarnessWorker.ReleaseReconciledClaim | src/worker/mod.rs:892-908 | the claim is let go unacknowledged, was lost, and nothing needs attention |
| Settlement.CompletionIsOwed | src/worker/mod.rs:935-960 | the prepared body is the one completion the record is owed |
| Worker.OnlyTornWedges | src/worker/mod.rs:949-959 | of the four preparation errors only the both-outcomes one can occur, on a torn record |
| Settlement.WorkerErrorKeepsOwned | src/worker/mod.rs:745-770 | an unfinished record decided by a truthful error may be saved |
| Settlement.PreparedIsHonest | src/worker/mod.rs:983-989 | the prepared body reports cleanup honestly |
| Settlement.AcknowledgementMaySave | src/worker/mod.rs:798-809 | a record with the coordinator's acknowledgement is resolved and may be saved over whatever operators stored |
| Controller.RunController.Execute | src/runner/controller.rs:99-292 | its calls, also when it is killed, are those of the script; when it returns they are a whole execution, and the record that ended it is the stored one if every save succeeded: concluded if the run was queued; false leaves no result unless a save was torn |
| Controller.RunController.Enter | src/runner/controller.rs:113-127 | the run is durable as Running before the algorithm is entered |
| Controller.RunController.RunAlgorithm | src/runner/controller.rs:294-687 | its calls are those of the script up to the end of the algorithm; success means both sides tested as previewed and compared; a failure never passes and blames the store or a signal only truly |
| Controller.RunController.Preflight | src/runner/controller.rs:300-364 | success means a safe target and a stored plan that fits the stored inventory; a refusal is the one the script gives for the answers |
| Controller.RunController.PreviewBaseline | src/runner/controller.rs:366-418 | the installed target is reused only if the inventory shows the requested version and its origin, read only then, is the previewed one |
| RunScript.ReusedExactlyWhen | src/runner/controller.rs:376-404 | reuse exactly if the first inventory entry of the target has the previewed version, or else the requested one, and its readable details name the same content identifier as the preview or like it none |
| Controller.RunController.InstallBaseline | src/runner/controller.rs:366-490 | the baseline was reused without a mutation, or removed and installed by the script; no update, and a bypass only if recorded |
| Controller.RunController.InstallOrBypass | src/runner/controller.rs:435-489 | the signature is bypassed only after a rejected signature, and then recorded before the run goes on |
| Controller.RunController.TestSide | src/runner/controller.rs:500-530 | the captured side is stored, stable if it passed, and goes on to be judged only if its details are those of the previewed build (version and content identifier); a capture that differs stops the run as an infrastructure error of the installation; a failure carries the reason of the script |
| Controller.RunController.MeasureTarget | src/runner/controller.rs:500-509 | the check is asked for the configured number of samples; a pass leaves the whole stable window in its samples; it is cut short only by a signal that is still up when the signal is read next |
| Controller.RunController.InstallCandidate | src/runner/controller.rs:532-570 | success is exactly one successful update to the requested candidate, by the script |
| Controller.RunController.Analyze | src/runner/controller.rs:612-687 | compares both sides and changes only the comparison and the analysis in the evidence |
| Controller.RunController.AuthorizeCleanup | src/runner/controller.rs:815-831 | the obligation is stored before success is reported |
| Controller.RunController.PhaseFailure | src/runner/controller.rs:785-795 | success means the phase is stored and Continue was read in it |
| Controller.RunController.CleanUp | src/runner/controller.rs:150-204 | one whole cleanup by its script if authorized, else skipped; the outcome is in memory and stored |
| Controller.RunController.Settle | src/runner/controller.rs:128-273 | the stored record is the one the script ends with: the final verdict of the evidence, the failure and the cleanup that was made |
| Controller.RunController.Conclude | src/runner/controller.rs:206-271 | the result may be saved, a Passed verdict being justified; it reports the failure that stopped the run with its own verdict and reason, else the ruling on both hard checks, the analysis, the cleanup and the bypass |
| Verdicts.VerdictIsExplained | src/runner/controller.rs:128-273 | the verdict and reason of every finished execution: those of the one answer that stopped it, by a table over its calls (signals, failed saves, tools, refusals, previews, removal, installation, update, details, mismatch), or if none did the ruling on two whole checks, the analysis, the cleanup and the signatures |
| Verdicts.StopIsReported | src/runner/controller.rs:128-148 | any call that stops a run by the table, wherever it came, is what the run reports: there is never a second one |
| Verdicts.SignalsAndSavesDecide | src/runner/controller.rs:801-848 | a seen cancellation ends Inconclusive, a lost claim and a failed save end as infrastructure errors, each with its own reason and whatever else happened |
| Verdicts.FailedExactlyWhen | src/runner/controller.rs:532-570 | a candidate is failed exactly for an update rejected in no transient way, or for a whole check that did not pass in its whole window after the baseline passed its own, in a run nothing stopped |
| Verdicts.EveryStepIsExplained | src/runner/controller.rs:294-687 | however far an execution has got, at most one of its calls stopped it, and that one is its failure |
| Verdicts.ConclusionRules | src/runner/controller.rs:206-271 | the finished record reports the failure, or the ruling on the evidence |
| NonInterference.AnalysisDoesNotInterfere | src/runner/controller.rs:99-292 | two whole executions, failed saves included, that differ in what the analyzer answers make the same calls with records that differ in the analysis alone, end the same way, and their verdicts are equal or Passed versus Warning |
| NonInterference.SameAnswersSameCalls | src/runner/controller.rs:99-292 | as far as two executions with the same answers have got, they made the same calls and mutations |
| RunOrder.PhasesFollowScript | src/runner/controller.rs:294-687 | however far an execution has got, its phases are an initial part of the ten in order, then Cleanup exactly if it is owed, then Finished; only a failure leaves phases out |
| RunOrder.MutationsFollowScript | src/runner/controller.rs:420-570 | however far an execution has got, it removed an installed target keeping its volumes, installed the baseline, past its signature at most once and only then, updated once to the candidate, and then made one cleanup by the plan; or an initial part of that |
| RunOrder.PassedRunIsComplete | src/runner/controller.rs:95-292 | an execution that ends with a pass went through all phases and made all of these mutations |
| RunScript.CleanupWithinRun | src/runner/controller.rs:150-190 | the calls of a cleanup by its own script are those the script of the run prescribes, and end with its outcome in the record |
| RunSpec.PassIsJustified | src/runner/controller.rs:219-258 | a Passed verdict has everything it stands for |
| RunScript.FindPackage | src/runner/controller.rs:347-349 | finds a package of that name exactly if the inventory has one |
| Comparisons.PassedExactlyWhen | src/runner/comparison.rs:50-86 | a run passes exactly when no failure, both hard checks, no critical finding, no failed cleanup and no recorded bypass |
| Comparisons.VerdictExplainsEvidence | src/runner/comparison.rs:50-86 | Failed exactly for a regression, Inconclusive exactly when neither side was healthy, Warning exactly for a healthy candidate with another defect |
| Comparisons.AnalysisIsAdvisory | src/runner/comparison.rs:50-86 | the analyzer moves a verdict only between Passed and Warning |
| Comparisons.ComparisonExplainsChange | src/runner/comparison.rs:7-48 | added and removed containers are what turns one name set into the other |
| Comparisons.ComparedAsCaptured | src/runner/comparison.rs:7-48 | hard checks, versions, container lists, additions, removals and the regression are those of the two captures |
| Comparisons.PartialTellsWhatThereIs | src/runner/result.rs:38-76 | a run that stopped early reports no candidate check, no regression and only the baseline it has |
| Comparisons.ResultTellsRecord | src/runner/result.rs:78-172 | the result reports the run, both sides, the cleanup and the errors as the record has them |
| Comparisons.AppliedIsPreviewedBuild | src/runner/controller.rs:881-924 | a capture counts as applied exactly if it reports the released version its preview announced, as far as both tell one, and names the same content identifier or like it none |
| Reconciliation.ReconcileTarget | src/runner/cleanup.rs:176-216 | Passed exactly when the inventories read since the last mutation verify the plan; the calls follow the script; leftovers are the new packages; a timeout is reported only after a poll timed out, with less than half a second left, or after a thousand polls |
| Reconciliation.CleanupTarget | src/runner/cleanup.rs:16-119 | Passed exactly when the last inventory lacks the target; given up only after a refused removal, a poll that timed out, with less than half a second left, or after a thousand polls, and for a failed poll only in the last two cases; every pause is half a second or all the time left; verification stays within the timeout |
| Reconciliation.SampleRemoval | src/runner/cleanup.rs:51-107 | one round of the polling loop follows the script |
| Reconciliation.RestoreLatestTarget | src/runner/cleanup.rs:121-174 | Passed exactly when the inventory read after the reinstall has the target; given up only for a refused removal or installation, or for that inventory |
| Reconciliation.VerifiedRestoresTarget | src/runner/cleanup.rs:149-216 | verified cleanup never adds the target, and restores its presence when nobody else changes it |
| Reconciliation.LeftoversAreTheNewNames | src/runner/cleanup.rs:222-235 | the leftovers are exactly the final names that were not there initially |
| Reconciliation.LeftoversKeepOrder | src/runner/cleanup.rs:222-235 | the leftovers are listed package by package in the order of the final inventory |
| Reconciliation.NoLeftoversIffContained | src/runner/cleanup.rs:204-215 | no leftovers exactly if every final name was there initially |
| CleanupScript.FinishedCallsAgree | src/runner/cleanup.rs:177-216 | cleanups of the same job with the same answers make the same calls |
| CleanupScript.CleanupMutatesInOrder | src/runner/cleanup.rs:30-32 | one removal, with volumes exactly if nothing is restored, then at most one installation of the latest release |
| CleanupScript.VerificationKeepsBudget | src/runner/cleanup.rs:46-107 | reads and sleeps of the verification take at most the timeout |
| CleanupScript.PollsUntilExhausted | src/runner/cleanup.rs:46-119 | at most one poll per half second and a thousand in all, each pause after a poll; a cleanup gives up on its target only with its time or its polls used up, unless a call was refused or timed out |
| Operator.AcknowledgeCleanupRecovery | src/api/routes.rs:601-634 | changes the record exactly as the action says, or not at all with the right refusal; the store is unavailable exactly if it reported a failure |
| Operator.ConfirmManualCleanup | src/api/routes.rs:636-663 | the same for a confirmation |
| Operator.ResolveCompletionConflict | src/api/routes.rs:671-718 | the same for a retry or an acceptance |
| Operator.RecordManualCleanup | src/api/routes.rs:665-669 | cleanup passed with nothing left over |
| Progress.WorkerProgress.Control | src/worker/progress.rs:69-77 | Continue exactly without signals; a lost claim outranks a cancellation |
| Progress.WorkerProgress.Publish | src/worker/progress.rs:58-67 | overwrites the snapshot |
| Progress.WorkerDrainControl.RequestDrain | src/worker/mod.rs:138-147 | drains only an accepting worker |
| Progress.WorkerDrainControl.MarkDrained | src/worker/mod.rs:153-162 | marks only a draining worker |
| Store.RunStore.Create | src/storage/file.rs:70-72 | never replaces a record; a failed create leaves the store, or published the record |
| Store.RunStore.Save | src/storage/file.rs:74-76 | replaces one record; a failed save leaves the store, or published the record |
| Runtime.Node.HeartbeatTick | src/worker/heartbeat.rs:36-104 | a heartbeat answer only raises signals of the driven run |
| Runtime.Node.Interfere | src/api/routes.rs:601-718 | whatever the others do stays within the rely condition |
| Interference.RelyLeavesDrivenRun | src/worker/mod.rs:215-359 | nobody but the worker changes a driven record that is not held |
| Model.RunRecord.Transition | src/model/run.rs:243-249 | moves to the phase and appends it to the history |
| Model.RunRecord.Interrupt | src/model/run.rs:256-264 | marks the run interrupted and notes the phase it was in |
| Stabilization.Stabilize | src/runner/stabilization.rs:28-195 | passes exactly at the first answered sample that completes the required streak; not passing without a signal means the next sample would come after the timeout, or ten thousand were taken; the signal is read before each sample and after each pause, and only a raised one stops the check; keeps the last 100 samples; sleeps within the timeout |
| Stabilization.StreakIsLongest | src/runner/stabilization.rs:53-168 | the running count is the longest suffix of equal all-running samples |
| Stabilization.SameVitalIffSameContainers | src/runner/stabilization.rs:53-110 | samples agree exactly if they show the same container names equally often |
| Stabilization.BudgetCoversRequiredRun | src/config.rs:114-130 | an accepted configuration leaves room for the required samples |
| Stabilization.StabilizeSteadyPackage | src/config.rs:114-130 | without a signal a package that is steady and healthy from some sample on passes whenever the window has room for the required samples from there; if it always was, after exactly these |
| Stabilization.PassedShowsStableWindow | src/runner/stabilization.rs:197-204 | the whole passing window is in the evidence |
| Stabilization.NonRunningNamesTheStopped | src/runner/stabilization.rs:69-84 | the states listed are name and state, or unknown, of the containers that do not run, in order |
| RetryMutation.RetryMutation | src/package_manager/dappmanager.rs:62-175 | the calls follow the retry automaton, and Ok is an Ok answer or a true reconcile; a transport or tool failure reported as transient is given up only when the attempts are used up, and a request with unknown outcome only after the mutation timeout; delays double from the first, bounded by a minute, and waits take ten seconds |
| RetryMutation.AwaitInProgress | src/package_manager/dappmanager.rs:180-226 | only checks and waits of ten seconds; Ok means a check succeeded, and an error that the mutation timeout is over |
| RetryMutation.NeverResendsUnknownOutcome | src/package_manager/dappmanager.rs:62-175 | nothing is sent after a timeout or in-progress answer |
| RetryMutation.ResendFollowsReportedFailure | src/package_manager/dappmanager.rs:595-605 | each resend follows a transport or tool failure whose message was transient and not that of a running operation, a check that found it undone, and a wait |
| Evidence.DenotedCidIsRead | src/model/evidence.rs:40-58 | every reference form of a CID is read as that CID |
| Evidence.ReadCidIsDenoted | src/model/evidence.rs:40-58 | and nothing else is read as one |
| Evidence.SameOriginIffReferAlike | src/model/evidence.rs:60-62 | two references count as one origin exactly if the grammar reads the same content identifier in both, or none in either |
| Evidence.ConfirmedMutationIsTheRequestedBuild | src/package_manager/dappmanager.rs:285-340 | a confirmed installation is the requested build: both references name the same content identifier or none, and without one the installed version is the release the request resolves to |
| Adapter.CallMutation | src/package_manager/dappmanager.rs:228-317 | a mutating call keeps the retry discipline; success means a successful request, a last check that saw the requested build or no such package, or that the package to be removed was reported absent; an error tells the kind and the transience of the last request's, with setup told apart for installations only |
| Adapter.ConfirmsExactlyTheRequest | src/package_manager/dappmanager.rs:285-340 | a check confirms a mutation exactly if it sees the requested origin, for a registry request also the version it resolves to, and for a removal an inventory without the package |
| Names.SortedEqualIffSameNames | src/runner/stabilization.rs:62-67 | sorted name lists are equal exactly if the same names occur equally often |
| Redaction.TruncateUtf8 | src/analysis/redaction.rs:52-66 | output well formed (RFC 3629), within the limit, unchanged or a prefix and the suffix, at most three bytes short |
| Redaction.TruncateTwice | src/analysis/redaction.rs:52-66 | truncating again at the same or a larger limit changes nothing |

## Left out

- Messages, summaries, timestamps and logging: errors carry their code and phase, results their verdict, reason, sides, comparison, analysis and cleanup.
- Error classification by message text: an error carries what its text was classified as, as arbitrary flags.
- HTTP, TLS, MCP and JSON: the coordinator's answers are arbitrary values, and a completion body is an injective function of the claim token and the outcome; the worker id and schema version are constants of it.
- Operator handlers load, edit and save without a lock; the model takes one handler as one atomic step, so a handler's own stale save is not modelled. The worker's stale save is.
- Files: the store is a map whose entries are replaced whole; a failed write may have been published or not. A record that cannot be read makes the read fail.
- Infinite loops (polling, redelivery, waiting at the gate) are bounded by arbitrary budgets; when one runs out the process dies, which is one of the things that may happen anyway. Liveness and shutdown are not stated.
- A trace shows one mutating call where the adapter may send several requests, and the script shows one call for a hard check with all it observed; the answers are arbitrary.
- The number of samples a hard check requires is one configured constant; a restart with another configuration is not modelled.
- The adapter's own choice to bypass the signature restriction for IPFS references is not the bypass the verdict speaks of.
- Control signals are one object that is reset for each run instead of one object per run.
- The log analyzer is an arbitrary answer: heuristics, the Nexus request and redaction expressions are not modelled, nor are the logs themselves.
- `comparison` keeps added and removed containers as sets; durations are left out.
- What the controller publishes for heartbeats is stated where it publishes; that a heartbeat sends it to the coordinator is not modelled.
- The drain endpoints may resume or request at any time; their HTTP answers are not modelled.
