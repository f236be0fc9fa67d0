/**
 * What operators, the heartbeat and the drain endpoints can change beside the worker task: the rely
 * condition under which every worker step is verified.
 */
module Interference {
  import opened Wrappers
  import opened Model
  import opened Protocol

  // ---------------------------------------------------------------- what others may change

  /** An operator only touches held records, and of those only what its actions resolve. */
  ghost predicate RecordRely(before: Record, after: Record) {
    if before.worker.manualRecovery.None? then after == before
    else
      && after == before.(
                  cleanup := after.cleanup,
                  worker := before.worker.(
                  claimToken := after.worker.claimToken,
                  pendingCompletionBody := after.worker.pendingCompletionBody,
                  completionAcknowledged := after.worker.completionAcknowledged,
                  completionDisposition := after.worker.completionDisposition,
                  manualRecovery := after.worker.manualRecovery))
      && (before.worker.completionAcknowledged ==> after.worker.completionAcknowledged)
      && (CoordinatorAcknowledged(after.worker) ==> after.worker.completionDisposition == before.worker.completionDisposition)
      && (before.worker.completionDisposition.Some? ==> after.worker.completionDisposition.Some?)
      && (before.worker.completionDisposition == Some(OperatorAcceptedCoordinator) ==>
            after.worker.completionDisposition == before.worker.completionDisposition)
      && (after.worker.manualRecovery == Some(CleanupHold) ==> before.worker.manualRecovery == Some(CleanupHold))
  }

  predicate SignalsRise(before: Signals, after: Signals) {
    (before.flagged ==> after.flagged) && (before.lost ==> after.lost)
  }

  ghost predicate HistoryRely(stored: Record, before: History, after: History) {
    && after.execution == before.execution
    && after.observed == before.observed
    && after.torn == before.torn
    && after.failed == before.failed
    && after.control == before.control.(signals := after.control.signals)
    && SignalsRise(before.control.signals, after.control.signals)
    && (before.everPassed ==> after.everPassed)
    && after.delivery == before.delivery.(accepted := after.delivery.accepted)
    && (stored.worker.manualRecovery.None? ==>
          after.everPassed == before.everPassed && after.delivery == before.delivery)
  }

  ghost predicate RunRely(before: State, after: State, id: RunId)
    requires id in before.store && id in after.store
  {
    && RecordRely(before.store[id], after.store[id])
    && HistoryRely(before.store[id], HistoryOf(before, id), HistoryOf(after, id))
  }

  /** What everyone but the worker task can do to the state. */
  ghost predicate Rely(before: State, after: State) {
    && after.mode == before.mode
    && after.store.Keys == before.store.Keys
    && forall id :: id in before.store ==> RunRely(before, after, id)
  }

  lemma RelyIsReflexive(s: State)
    ensures Rely(s, s)
  {
  }

  lemma RelyIsTransitive(a: State, b: State, c: State)
    requires Rely(a, b) && Rely(b, c)
    ensures Rely(a, c)
  {
    forall id | id in a.store
      ensures RunRely(a, c, id)
    {
      assert RunRely(a, b, id) && RunRely(b, c, id);
    }
  }

  lemma OperatorRely(h: History, r: Record, action: OperatorAction)
    requires OperatorStep(r, action).Ok?
    ensures r.worker.manualRecovery.Some? && RecordRely(r, OperatorStep(r, action).value)
    ensures NextRecord(r, OperatorActed(action)) == OperatorStep(r, action).value
    ensures HistoryRely(r, h, NextHistory(h, r, OperatorActed(action)))
  {
  }

  lemma OperatorEventRely(s: State, id: RunId, action: OperatorAction)
    requires Guard(s, Run(id, OperatorActed(action)))
    ensures Rely(s, Apply(s, Run(id, OperatorActed(action))))
    ensures Apply(s, Run(id, OperatorActed(action))).store == s.store[id := OperatorStep(s.store[id], action).value]
  {
    OperatorRely(HistoryOf(s, id), s.store[id], action);
    hide OperatorStep, NextRecord, NextHistory;
  }

  lemma SignalHistoryRely(h: History, r: Record, lost: bool)
    requires CleanupIsEarned(r, h)
    ensures HistoryRely(r, h, NextHistory(h, r, Signalled(lost)))
    ensures NextHistory(h, r, Signalled(lost)).control.signals == Signals(true, h.control.signals.lost || lost)
    ensures NextRecord(r, Signalled(lost)) == r
  {
  }

  lemma SignalRely(s: State, id: RunId, lost: bool)
    requires Invariant(s) && id in s.store
    ensures Rely(s, Apply(s, Run(id, Signalled(lost))))
    ensures Apply(s, Run(id, Signalled(lost))).store == s.store
    ensures HistoryOf(Apply(s, Run(id, Signalled(lost))), id).control.signals == Signals(true, HistoryOf(s, id).control.signals.lost || lost)
  {
    hide TaskHolds, NextHistory, OperatorStep, HistoryRely, CommitmentsHold, DeliveryIsConsistent;
    hide OutcomeIsConsistent, CleanupIsEarned, NextRecord;
    SignalHistoryRely(HistoryOf(s, id), s.store[id], lost);
    RelyIsReflexive(s);
    assert Apply(s, Run(id, Signalled(lost))).store == s.store;
  }

  lemma DrainRely(s: State, step: TaskStep)
    requires step.DrainRequested? || step.DrainResumed?
    ensures Guard(s, Task(step)) && Rely(s, Apply(s, Task(step)))
    ensures Apply(s, Task(step)).store == s.store
  {
    hide RunGuard;
  }

  /** A save that was allowed stays allowed while others act. */
  lemma RelyKeepsSaveAllowed(before: State, after: State, id: RunId, r: Record)
    requires id in before.store && id in after.store && RunRely(before, after, id)
    requires SaveAllowed(HistoryOf(before, id), before.store[id], r)
    ensures SaveAllowed(HistoryOf(after, id), after.store[id], r)
  {
    hide SafePlan, PersistedEvidence, IsCompletionOf;
  }

  /** Records that need no attention are not held, so nobody else changes them. */
  lemma RelyKeepsQuiet(before: State, after: State, id: RunId)
    requires Rely(before, after) && id in before.store && !before.store[id].RequiresWorkerAttention()
    ensures after.store[id] == before.store[id]
  {
    assert RunRely(before, after, id);
  }

  // ---------------------------------------------------------------- worker steps under interference

  /** A history in which only the heartbeat may have raised a signal. */
  function Flagged(h: History, signals: Signals): History {
    h.(control := h.control.(signals := signals))
  }

  /** Nothing happened to the driven run but, possibly, a raised signal. */
  ghost predicate Untouched(before: State, after: State, id: RunId) {
    && after.mode == before.mode
    && after.store == before.store
    && HistoryOf(after, id) == Flagged(HistoryOf(before, id), HistoryOf(after, id).control.signals)
    && SignalsRise(HistoryOf(before, id).control.signals, HistoryOf(after, id).control.signals)
  }

  /** The driven run took one step, possibly after a signal was raised. */
  ghost predicate Stepped(before: State, after: State, id: RunId, e: RunStep) {
    && id in before.store
    && after.mode == before.mode
    && after.store == before.store[id := NextRecord(before.store[id], e)]
    && HistoryOf(after, id) ==
       NextHistory(Flagged(HistoryOf(before, id), HistoryOf(after, id).control.signals), before.store[id], e)
    && SignalsRise(HistoryOf(before, id).control.signals, HistoryOf(after, id).control.signals)
  }

  /** While an unheld record is driven, nobody else changes the store. */
  lemma RelyLeavesDrivenRun(before: State, after: State, id: RunId)
    requires Rely(before, after) && TaskHolds(before) && before.mode == Driving(id)
    requires before.store[id].worker.manualRecovery.None?
    ensures Untouched(before, after, id)
  {
    assert RunRely(before, after, id);
    forall other | other in before.store
      ensures after.store[other] == before.store[other]
    {
      if other != id {
        RelyKeepsQuiet(before, after, other);
      }
    }
    assert after.store == before.store;
  }

  /** Even while it is held, only the driven record can change. */
  lemma RelyLeavesOthers(before: State, after: State, id: RunId)
    requires Rely(before, after) && TaskHolds(before) && before.mode == Driving(id)
    ensures id in after.store && after.store == before.store[id := after.store[id]]
    ensures RunRely(before, after, id)
  {
    assert RunRely(before, after, id);
    forall other | other in before.store && other != id
      ensures after.store[other] == before.store[other]
    {
      RelyKeepsQuiet(before, after, other);
    }
  }

  /** What a save of r did: it is stored, or it failed and the old record or, torn, r itself remains. */
  ghost predicate SaveResult(before: State, after: State, id: RunId, r: Record, ok: bool)
    requires id in before.store
  {
    && after.mode == before.mode
    && (ok ==> after.store == before.store[id := r])
    && (!ok ==> HistoryOf(after, id).failed)
    && SignalsRise(HistoryOf(before, id).control.signals, HistoryOf(after, id).control.signals)
    && (before.store[id].worker.manualRecovery.None? ==>
          if ok then Stepped(before, after, id, Saved(r, false))
          else Stepped(before, after, id, StoreFailed) || Stepped(before, after, id, Saved(r, true)))
  }

  lemma FailureAfterRely(before: State, middle: State, after: State, id: RunId, r: Record)
    requires Rely(before, middle) && TaskHolds(before) && before.mode == Driving(id)
    requires Stepped(middle, after, id, StoreFailed)
    requires HistoryOf(after, id).control.signals == HistoryOf(middle, id).control.signals
    ensures SaveResult(before, after, id, r, false)
  {
    RelyLeavesOthers(before, middle, id);
    if before.store[id].worker.manualRecovery.None? {
      RelyLeavesDrivenRun(before, middle, id);
    }
    hide Rely, TaskHolds;
  }

  lemma SaveAfterRely(before: State, middle: State, after: State, id: RunId, r: Record, torn: bool)
    requires Rely(before, middle) && TaskHolds(before) && before.mode == Driving(id)
    requires Stepped(middle, after, id, Saved(r, torn))
    requires HistoryOf(after, id).control.signals == HistoryOf(middle, id).control.signals
    ensures SaveResult(before, after, id, r, !torn)
  {
    RelyLeavesOthers(before, middle, id);
    if before.store[id].worker.manualRecovery.None? {
      RelyLeavesDrivenRun(before, middle, id);
    }
    hide Rely, TaskHolds;
  }

  /** A step that only the worker takes and that no signal forbids. */
  predicate IsEffect(step: RunStep) {
    step.AlgorithmEntered? || step.Listed? || step.Mutated? || step.UpdateSucceeded? || step.Captured?
  }

  lemma SignalsForbidNoEffect(h: History, signals: Signals, stored: Record, step: RunStep)
    requires IsEffect(step) && RunGuard(h, stored, step)
    ensures RunGuard(Flagged(h, signals), stored, step)
  {
    hide SaveAllowed, OperatorStep;
  }

  lemma StepAfterRely(before: State, middle: State, after: State, id: RunId, step: RunStep)
    requires Untouched(before, middle, id) && id in before.store && Stepped(middle, after, id, step)
    requires HistoryOf(after, id).control.signals == HistoryOf(middle, id).control.signals
    ensures Stepped(before, after, id, step)
  {
    hide NextHistory, NextRecord;
  }

  lemma DeliveryKeepsDelivery(h: History, stored: Record, step: RunStep, r: Record)
    requires step.Sent? || step.Answered? || step.Rebuffed?
    requires SaveKeepsDelivery(h, stored, r)
    ensures SaveKeepsDelivery(NextHistory(h, stored, step), stored, r)
  {
    hide IsCompletionOf, PassedIsJustified, SafePlan, Verified;
  }

  /** Sending a completion and reading its answer leave room for every save that was allowed before. */
  lemma DeliveryKeepsSaveAllowed(h: History, stored: Record, step: RunStep, r: Record)
    requires step.Sent? || step.Answered? || step.Rebuffed?
    requires CleanupIsEarned(stored, h) && SaveAllowed(h, stored, r)
    ensures SaveAllowed(NextHistory(h, stored, step), stored, r)
    ensures NextHistory(h, stored, step).delivery.body == h.delivery.body
    ensures NextHistory(h, stored, step).delivery.recorded == (h.delivery.recorded || (step.Answered? && !step.duplicate))
    ensures NextHistory(h, stored, step).delivery.repeated == (h.delivery.repeated || (step.Answered? && step.duplicate))
    ensures NextHistory(h, stored, step).delivery.conflicted == (h.delivery.conflicted || (step.Rebuffed? && step.conflict))
    ensures NextHistory(h, stored, step).delivery.stopped == (h.delivery.stopped || step.Rebuffed?)
  {
    hide SafePlan, PersistedEvidence, Verified, SaveKeepsDelivery;
    DeliveryKeepsDelivery(h, stored, step, r);
  }

  /** When nothing needs attention, nobody but the worker changes the store. */
  lemma RelyKeepsAllQuiet(before: State, after: State)
    requires Rely(before, after) && Quiet(before)
    ensures Quiet(after) && after.store == before.store && after.mode == before.mode
  {
    forall id | id in before.store
      ensures after.store[id] == before.store[id]
    {
      RelyKeepsQuiet(before, after, id);
    }
  }
}
