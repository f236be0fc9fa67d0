/** Every legal trace keeps the protocol invariant, whatever the interleaving and wherever it stops. */
module Invariants {
  import opened Model
  import opened Protocol

  // ---------------------------------------------------------------- one run, one step

  lemma StepKeepsCommitments(h: History, stored: Record, e: RunStep)
    requires RunInvariant(stored, h) && RunGuard(h, stored, e)
    ensures CommitmentsHold(NextRecord(stored, e), NextHistory(h, stored, e))
    ensures NextRecord(stored, e).request == stored.request
  {
    hide SafePlan, PersistedEvidence, SaveEarnsCleanup, SaveKeepsDelivery, SaveKeepsOutcome;
    hide CleanupIsEarned, DeliveryIsConsistent, OutcomeIsConsistent, NextControl, NextObserved, NextDelivery;
  }

  lemma StepKeepsCleanup(h: History, stored: Record, e: RunStep)
    requires RunInvariant(stored, h) && RunGuard(h, stored, e)
    ensures CleanupIsEarned(NextRecord(stored, e), NextHistory(h, stored, e))
  {
    hide SaveKeepsCommitments, SaveKeepsDelivery, SaveKeepsOutcome, MutationAllowed;
    hide CommitmentsHold, OutcomeIsConsistent, NextControl, NextObserved, NextDelivery, NextExecution;
  }

  lemma StepKeepsDelivery(h: History, stored: Record, e: RunStep)
    requires RunInvariant(stored, h) && RunGuard(h, stored, e)
    ensures DeliveryIsConsistent(NextRecord(stored, e), NextHistory(h, stored, e))
  {
    hide IsCompletionOf, SaveKeepsCommitments, SaveEarnsCleanup, SaveKeepsOutcome;
    hide CommitmentsHold, OutcomeIsConsistent, NextObserved;
  }

  lemma StepKeepsOutcome(h: History, stored: Record, e: RunStep)
    requires RunInvariant(stored, h) && RunGuard(h, stored, e)
    ensures OutcomeIsConsistent(NextRecord(stored, e), NextHistory(h, stored, e))
  {
    hide SaveKeepsCommitments, SaveEarnsCleanup, SaveKeepsDelivery;
    hide CommitmentsHold, DeliveryIsConsistent, NextControl, NextDelivery;
  }

  /** One step of a run, by the worker, an operator or the heartbeat, keeps its invariant. */
  lemma StepKeepsRun(h: History, stored: Record, e: RunStep)
    requires RunInvariant(stored, h) && RunGuard(h, stored, e)
    ensures RunInvariant(NextRecord(stored, e), NextHistory(h, stored, e))
    ensures NextRecord(stored, e).request == stored.request
  {
    StepKeepsCommitments(h, stored, e);
    StepKeepsCleanup(h, stored, e);
    StepKeepsDelivery(h, stored, e);
    StepKeepsOutcome(h, stored, e);
    hide CommitmentsHold, CleanupIsEarned, DeliveryIsConsistent, OutcomeIsConsistent, NextRecord, NextHistory;
  }

  /** An operator never makes a resolved record need the worker again. */
  lemma OperatorActsOnHeldRecords(stored: Record, action: OperatorAction)
    requires OperatorStep(stored, action).Ok?
    ensures stored.RequiresWorkerAttention()
  {
  }

  // ---------------------------------------------------------------- the whole state

  lemma StepKeepsRuns(s: State, e: Event)
    requires RunsHold(s) && Guard(s, e)
    ensures RunsHold(Apply(s, e))
  {
    hide RunInvariant, RunGuard, NextRecord, NextHistory, ClaimedRecord, TaskGuard, DrivingGuard, NextMode, NextDrain;
    if e.Run? {
      if e.run.Created? {
        CreatedRunHolds(s, e.id, e.run.record);
      } else {
        StepKeepsRun(HistoryOf(s, e.id), s.store[e.id], e.run);
      }
    }
  }

  lemma CreatedRunHolds(s: State, id: RunId, r: Record)
    requires CreateGuard(s, id, r)
    ensures RunInvariant(r, NO_HISTORY)
  {
  }

  lemma TaskStepKeepsTask(s: State, step: TaskStep)
    requires TaskHolds(s) && TaskGuard(s, step)
    ensures TaskHolds(Apply(s, Task(step)))
  {
    hide SomeoneIsHeld;
  }

  lemma RunStepKeepsTask(s: State, id: RunId, step: RunStep)
    requires TaskHolds(s) && Guard(s, Run(id, step))
    ensures TaskHolds(Apply(s, Run(id, step)))
  {
    hide SaveAllowed, MutationAllowed, NextHistory, OperatorStep, Admitted;
    if step.OperatorActed? {
      OperatorActsOnHeldRecords(s.store[id], step.action);
    }
  }

  lemma StepKeepsTask(s: State, e: Event)
    requires TaskHolds(s) && Guard(s, e)
    ensures TaskHolds(Apply(s, e))
  {
    match e {
      case Task(step) => TaskStepKeepsTask(s, step);
      case Run(id, step) => RunStepKeepsTask(s, id, step);
    }
  }

  lemma StepKeepsInvariant(s: State, e: Event)
    requires Invariant(s) && Guard(s, e)
    ensures Invariant(Apply(s, e))
  {
    StepKeepsRuns(s, e);
    StepKeepsTask(s, e);
    hide RunsHold, TaskHolds, Apply;
  }

  /** The invariant holds in every state a legal trace can lead to. */
  lemma {:induction false} LegalKeepsInvariant(trace: seq<Event>)
    requires Legal(trace)
    ensures Invariant(After(trace))
  {
    if trace != [] {
      LegalKeepsInvariant(trace[..|trace| - 1]);
      StepKeepsInvariant(After(trace[..|trace| - 1]), trace[|trace| - 1]);
    }
  }
}
