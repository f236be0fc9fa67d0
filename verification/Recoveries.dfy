/**
 * What recovery, holds and operators can and cannot do, over every legal trace. Recovery takes a run up
 * after a crash, and also when the paused worker was resumed: RecoveryStarted is not a restart.
 */
module Recoveries {
  import opened Wrappers
  import opened Model
  import opened Protocol
  import opened Evolution
  import opened Guarantees
  import Invariants
  import Comparisons

  // ---------------------------------------------------------------- a cleanup hold holds

  predicate IsCleanupHeld(s: State, id: RunId) {
    id in s.store && s.store[id].worker.manualRecovery == Some(CleanupHold)
  }

  lemma HoldStep(s: State, e: Event, id: RunId)
    requires IsCleanupHeld(s, id) && Guard(s, e) && e != Run(id, OperatorActed(ContinueAfterCleanup))
    ensures IsCleanupHeld(Apply(s, e), id)
  {
    hide SaveKeepsCommitments, SaveEarnsCleanup, SaveKeepsOutcome, NextHistory;
  }

  lemma {:induction false} HoldLasts(trace: seq<Event>, i: nat, j: nat, id: RunId, r: Record, torn: bool)
    requires Legal(trace) && i < j <= |trace| && trace[i] == Run(id, Saved(r, torn)) && r.worker.manualRecovery == Some(CleanupHold)
    requires forall k :: i < k < j ==> trace[k] != Run(id, OperatorActed(ContinueAfterCleanup))
    ensures IsCleanupHeld(At(trace, j), id)
    decreases j
  {
    hide Legal, After, Invariant, RunGuard;
    StepAt(trace, j - 1);
    if i < j - 1 {
      HoldLasts(trace, i, j - 1, id, r, torn);
      HoldStep(At(trace, j - 1), trace[j - 1], id);
    }
  }

  /** What the worker does to a run, or for it, that a cleanup hold forbids. */
  predicate IsWork(e: RunStep) {
    e.Mutated? || e.Captured? || e.Sent? || e.Saved? || e.AlgorithmEntered? || e.RecoveryStarted?
  }

  /** Once a cleanup hold is stored the run rests: until an operator continues it, nothing is mutated, captured, saved, sent or recovered. */
  lemma CleanupHoldHolds(trace: seq<Event>, i: nat, j: nat, id: RunId, r: Record, torn: bool)
    requires Legal(trace) && i < j < |trace| && trace[i] == Run(id, Saved(r, torn)) && r.worker.manualRecovery == Some(CleanupHold)
    requires forall k :: i < k < j ==> trace[k] != Run(id, OperatorActed(ContinueAfterCleanup))
    ensures trace[j].Run? && trace[j].id == id ==> !IsWork(trace[j].run)
  {
    hide Legal, After, Apply, TaskHolds, CommitmentsHold, CleanupIsEarned, OutcomeIsConsistent;
    HoldLasts(trace, i, j, id, r, torn);
    StepAt(trace, j);
    assert RunInvariant(At(trace, j).store[id], HistoryOf(At(trace, j), id));
  }

  // ---------------------------------------------------------------- acceptance and acknowledgement

  /** The run is resolved by this acknowledgement, and the worker is not on it. */
  predicate Settled(s: State, id: RunId, r: Record) {
    && id in s.store && s.store[id] == r && s.mode != Driving(id)
    && r.worker.completionAcknowledged && !r.RequiresWorkerAttention()
  }

  lemma SettledStep(s: State, e: Event, id: RunId, r: Record)
    requires Settled(s, id, r) && Guard(s, e)
    ensures Settled(Apply(s, e), id, r)
  {
    hide SaveAllowed, NextHistory;
  }

  /** An acceptance while the worker is not on the run is permanent: the record never changes again. */
  lemma {:induction false} AcceptedForever(trace: seq<Event>, i: nat, j: nat, id: RunId)
    requires Legal(trace) && i < j <= |trace| && trace[i] == Run(id, OperatorActed(AcceptCoordinatorResult))
    requires At(trace, i).mode != Driving(id)
    ensures id in At(trace, i + 1).store && Settled(At(trace, j), id, At(trace, i + 1).store[id])
    decreases j
  {
    hide Legal, After, Invariant;
    StepAt(trace, j - 1);
    if i < j - 1 {
      AcceptedForever(trace, i, j - 1, id);
      SettledStep(At(trace, j - 1), trace[j - 1], id, At(trace, i + 1).store[id]);
    }
  }

  predicate IsAcknowledged(s: State, id: RunId) {
    id in s.store && s.store[id].worker.completionAcknowledged
  }

  /** The worker wrote its older memory of the run over an acknowledgement. */
  predicate Overwrites(s: State, e: Event, id: RunId) {
    e.Run? && e.id == id && e.run.Saved? && !e.run.record.worker.completionAcknowledged && s.mode == Driving(id)
  }

  lemma AcknowledgedStep(s: State, e: Event, id: RunId)
    requires IsAcknowledged(s, id) && Guard(s, e)
    ensures IsAcknowledged(Apply(s, e), id) || Overwrites(s, e, id)
    ensures Overwrites(s, e, id) ==> !IsAcknowledged(Apply(s, e), id)
    ensures Overwrites(s, e, id) ==> !CoordinatorAcknowledged(s.store[id].worker)
  {
    hide SaveKeepsCommitments, SaveEarnsCleanup, SaveKeepsOutcome, NextHistory;
  }

  ghost predicate StaysAcknowledged(trace: seq<Event>, i: nat, j: nat, id: RunId) {
    forall k :: i <= k <= j && k <= |trace| ==> IsAcknowledged(At(trace, k), id)
  }

  ghost predicate NeverOverwritten(trace: seq<Event>, i: nat, j: nat, id: RunId) {
    forall k :: i <= k < j && k < |trace| ==> !Overwrites(At(trace, k), trace[k], id)
  }

  /** An acknowledgement lasts exactly as long as the worker that drives the run does not overwrite it. */
  lemma {:induction false} AcknowledgementLastsExactlyWhen(trace: seq<Event>, i: nat, j: nat, id: RunId)
    requires Legal(trace) && i <= j <= |trace| && IsAcknowledged(At(trace, i), id)
    ensures StaysAcknowledged(trace, i, j, id) <==> NeverOverwritten(trace, i, j, id)
    decreases j
  {
    hide Legal, After, Invariant, Apply, Guard, Overwrites, IsAcknowledged;
    if i < j {
      AcknowledgementLastsExactlyWhen(trace, i, j - 1, id);
      StepAt(trace, j - 1);
      assert StaysAcknowledged(trace, i, j, id) <==> StaysAcknowledged(trace, i, j - 1, id) && IsAcknowledged(At(trace, j), id);
      assert NeverOverwritten(trace, i, j, id) <==> NeverOverwritten(trace, i, j - 1, id) && !Overwrites(At(trace, j - 1), trace[j - 1], id);
      if StaysAcknowledged(trace, i, j - 1, id) {
        assert IsAcknowledged(At(trace, j - 1), id);
        AcknowledgedStep(At(trace, j - 1), trace[j - 1], id);
      }
    }
  }

  /** What the coordinator acknowledged stays acknowledged: no worker, and no operator, takes it back. */
  lemma {:induction false} CoordinatorAcknowledgementIsPermanent(trace: seq<Event>, i: nat, j: nat, id: RunId)
    requires Legal(trace) && i <= j <= |trace| && id in At(trace, i).store && CoordinatorAcknowledged(At(trace, i).store[id].worker)
    ensures id in At(trace, j).store && At(trace, j).store[id].worker == At(trace, i).store[id].worker
    ensures At(trace, j).store[id].worker.completionAcknowledged && !At(trace, j).store[id].RequiresWorkerAttention()
    decreases j
  {
    hide Legal, After, TaskHolds, CommitmentsHold, CleanupIsEarned, OutcomeIsConsistent, Guard, Apply;
    if i < j {
      CoordinatorAcknowledgementIsPermanent(trace, i, j - 1, id);
      StepAt(trace, j - 1);
      AnsweredStep(At(trace, j - 1), trace[j - 1], id);
    } else {
      LegalPrefix(trace, i);
      Invariants.LegalKeepsInvariant(trace[..i]);
      assert DeliveryIsConsistent(At(trace, i).store[id], HistoryOf(At(trace, i), id));
    }
  }

  lemma AnsweredStep(s: State, e: Event, id: RunId)
    requires id in s.store && CoordinatorAcknowledged(s.store[id].worker) && !s.store[id].RequiresWorkerAttention() && Guard(s, e)
    ensures id in Apply(s, e).store && Apply(s, e).store[id].worker == s.store[id].worker
  {
    hide SaveKeepsCommitments, SaveEarnsCleanup, SaveKeepsOutcome, NextHistory;
  }

  // ---------------------------------------------------------------- why recovery takes a run up

  /** The process died at event k while the run was unresolved, with this result, or with none, in its stored record. */
  ghost predicate CrashedAt(trace: seq<Event>, k: nat, id: RunId, result: Option<HarnessResult>) {
    && k < |trace| && trace[k] == Task(Crashed)
    && id in At(trace, k).store && At(trace, k).store[id].RequiresWorkerAttention() && At(trace, k).store[id].result == result
  }

  ghost predicate CrashedWith(trace: seq<Event>, id: RunId, result: Option<HarnessResult>) {
    exists k :: CrashedAt(trace, k, id, result)
  }

  /** Event i stored a hold of the run; `cleanup` asks for a cleanup hold. */
  ghost predicate HeldAt(trace: seq<Event>, i: nat, id: RunId, cleanup: bool) {
    && i < |trace| && trace[i].Run? && trace[i].id == id && trace[i].run.Saved?
    && trace[i].run.record.worker.manualRecovery.Some?
    && (cleanup ==> trace[i].run.record.worker.manualRecovery == Some(CleanupHold))
  }

  ghost predicate ResumedAt(trace: seq<Event>, i: nat, j: nat, id: RunId, cleanup: bool) {
    HeldAt(trace, i, id, cleanup) && i < j < |trace| && trace[j] == Task(Resumed)
  }

  ghost predicate WasHeld(trace: seq<Event>, id: RunId, cleanup: bool) {
    exists i :: HeldAt(trace, i, id, cleanup)
  }

  /** A hold of the run was stored, and the paused worker was resumed afterwards. */
  ghost predicate WasResumed(trace: seq<Event>, id: RunId, cleanup: bool) {
    exists i, j :: ResumedAt(trace, i, j, id, cleanup)
  }

  /** The run can still have to deliver failed cleanup: nothing is prepared, or a completion that reports it. */
  predicate MayDeliverFailure(h: History) {
    h.delivery.body.Some? ==> Comparisons.CleanupOutcomeFailed(CleanupOf(h.delivery.body.value.outcome))
  }

  /** The process died while the run was unresolved, or the run was held and the worker resumed. */
  ghost predicate TakenUpAfter(trace: seq<Event>, id: RunId, result: Option<HarnessResult>, cleanup: bool) {
    CrashedWith(trace, id, result) || WasResumed(trace, id, cleanup)
  }

  /** Nobody but its driver leaves a run unresolved, except after a crash, a hold, or on the way out. */
  ghost predicate LeftFor(trace: seq<Event>, s: State, id: RunId) {
    && id in s.store
    && var r, h := s.store[id], HistoryOf(s, id);
    && (r.RequiresWorkerAttention() && s.mode != Driving(id) && !s.mode.Halted? ==>
          || TakenUpAfter(trace, id, r.result, MayDeliverFailure(h))
          || (s.mode.Waiting? && WasHeld(trace, id, MayDeliverFailure(h))))
    && (h.control.recovered ==> TakenUpAfter(trace, id, r.result, MayDeliverFailure(h)))
    && (r.worker.manualRecovery.Some? ==> WasHeld(trace, id, r.worker.manualRecovery == Some(CleanupHold)))
  }

  lemma LaterStill(trace: seq<Event>, e: Event, id: RunId, result: Option<HarnessResult>, cleanup: bool)
    ensures CrashedWith(trace, id, result) ==> CrashedWith(trace + [e], id, result)
    ensures WasHeld(trace, id, cleanup) ==> WasHeld(trace + [e], id, cleanup)
    ensures WasResumed(trace, id, cleanup) ==> WasResumed(trace + [e], id, cleanup)
    ensures e == Task(Resumed) && WasHeld(trace, id, cleanup) ==> WasResumed(trace + [e], id, cleanup)
  {
    hide After;
    var longer := trace + [e];
    forall k: nat | CrashedAt(trace, k, id, result) ensures CrashedAt(longer, k, id, result) {
      assert longer[..k] == trace[..k];
    }
    forall i: nat, j: nat | ResumedAt(trace, i, j, id, cleanup) ensures ResumedAt(longer, i, j, id, cleanup) {
    }
    forall i: nat | HeldAt(trace, i, id, cleanup) ensures HeldAt(longer, i, id, cleanup) {
    }
    forall i: nat | HeldAt(trace, i, id, cleanup) && e == Task(Resumed) ensures ResumedAt(longer, i, |trace|, id, cleanup) {
    }
  }

  lemma AnyHoldWillDo(trace: seq<Event>, id: RunId, cleanup: bool)
    ensures WasHeld(trace, id, true) ==> WasHeld(trace, id, cleanup)
    ensures WasResumed(trace, id, true) ==> WasResumed(trace, id, cleanup)
  {
    forall i: nat | HeldAt(trace, i, id, true) ensures HeldAt(trace, i, id, cleanup) {
    }
    forall i: nat, j: nat | ResumedAt(trace, i, j, id, true) ensures ResumedAt(trace, i, j, id, cleanup) {
    }
  }

  // ---------------------------------------------------------------- each event keeps that

  lemma CrashIsNoted(trace: seq<Event>, id: RunId)
    requires id in After(trace).store && After(trace).store[id].RequiresWorkerAttention()
    ensures CrashedWith(trace + [Task(Crashed)], id, After(trace).store[id].result)
  {
    hide After;
    var longer := trace + [Task(Crashed)];
    assert longer[..|trace|] == trace;
    assert CrashedAt(longer, |trace|, id, After(trace).store[id].result);
  }

  /** A paused worker left the only unresolved run, and that one is held. */
  lemma PausedIsHeld(trace: seq<Event>, s: State, id: RunId)
    requires Invariant(s) && TaskGuard(s, Paused) && LeftFor(trace, s, id) && s.store[id].RequiresWorkerAttention()
    ensures s.mode == Driving(id) ==>
              || TakenUpAfter(trace, id, s.store[id].result, MayDeliverFailure(HistoryOf(s, id)))
              || WasHeld(trace, id, MayDeliverFailure(HistoryOf(s, id)))
  {
    hide TakenUpAfter, WasHeld, CommitmentsHold, CleanupIsEarned, OutcomeIsConsistent;
    if s.mode == Driving(id) {
      var held :| held in s.store && s.store[held].worker.manualRecovery.Some?;
      assert s.store[held].RequiresWorkerAttention() && held == id;
      var h, cleanup := HistoryOf(s, id), s.store[id].worker.manualRecovery == Some(CleanupHold);
      assert DeliveryIsConsistent(s.store[id], h);
      assert WasHeld(trace, id, cleanup);
      AnyHoldWillDo(trace, id, MayDeliverFailure(h));
      if !cleanup && MayDeliverFailure(h) {
        assert s.store[id].worker.manualRecovery.value.CompletionConflictHold?;
      }
    }
  }

  lemma TaskStepKeepsLeft(trace: seq<Event>, id: RunId, step: TaskStep)
    requires Invariant(After(trace)) && TaskGuard(After(trace), step) && id in After(trace).store && LeftFor(trace, After(trace), id)
    ensures LeftFor(trace + [Task(step)], Apply(After(trace), Task(step)), id)
  {
    var s, e := After(trace), Task(step);
    var r, h := s.store[id], HistoryOf(s, id);
    hide After, RunsHold;
    LaterStill(trace, e, id, r.result, MayDeliverFailure(h));
    LaterStill(trace, e, id, r.result, r.worker.manualRecovery == Some(CleanupHold));
    if r.RequiresWorkerAttention() {
      if step.Crashed? {
        CrashIsNoted(trace, id);
      } else if step.Paused? {
        PausedIsHeld(trace, s, id);
      }
    }
    hide CrashedWith, WasHeld, WasResumed, MayDeliverFailure;
  }

  /** Operators only clear holds, and leave results, recoveries and the prepared body alone. */
  lemma OperatorKeepsRun(h: History, stored: Record, action: OperatorAction)
    ensures var r, k := NextRecord(stored, OperatorActed(action)), NextHistory(h, stored, OperatorActed(action));
            && r.result == stored.result && k.control == h.control && k.delivery.body == h.delivery.body
            && (r.worker.manualRecovery.None? || r.worker.manualRecovery == stored.worker.manualRecovery)
            && (OperatorStep(stored, action).Ok? && r.RequiresWorkerAttention() ==> stored.RequiresWorkerAttention())
  {
  }

  /** A recovered run keeps the result it has, or has none; a hold is stored by a save. */
  lemma SaveKeepsRun(h: History, stored: Record, r: Record, torn: bool)
    requires SaveAllowed(h, stored, r)
    ensures var k := NextHistory(h, stored, Saved(r, torn));
            && k.control.recovered == h.control.recovered
            && (h.control.recovered ==> r.result == stored.result)
            && (h.delivery.body.Some? ==> k.delivery.body == h.delivery.body)
  {
    hide SaveKeepsCommitments, SaveEarnsCleanup;
  }

  lemma SaveKeepsLeft(trace: seq<Event>, id: RunId, r: Record, torn: bool)
    requires id in After(trace).store && After(trace).mode == Driving(id) && LeftFor(trace, After(trace), id)
    requires SaveAllowed(HistoryOf(After(trace), id), After(trace).store[id], r)
    ensures LeftFor(trace + [Run(id, Saved(r, torn))], Apply(After(trace), Run(id, Saved(r, torn))), id)
  {
    var s, e := After(trace), Run(id, Saved(r, torn));
    var h := HistoryOf(s, id);
    hide After, SaveAllowed, SaveKeepsCommitments;
    SaveKeepsRun(h, s.store[id], r, torn);
    var k := NextHistory(h, s.store[id], Saved(r, torn));
    LaterStill(trace, e, id, r.result, MayDeliverFailure(k));
    AnyHoldWillDo(trace, id, MayDeliverFailure(k));
    if r.worker.manualRecovery.Some? {
      assert HeldAt(trace + [e], |trace|, id, r.worker.manualRecovery == Some(CleanupHold));
    }
    hide CrashedWith, WasHeld, WasResumed;
  }

  lemma OperatorKeepsLeft(trace: seq<Event>, id: RunId, action: OperatorAction)
    requires id in After(trace).store && LeftFor(trace, After(trace), id)
    ensures LeftFor(trace + [Run(id, OperatorActed(action))], Apply(After(trace), Run(id, OperatorActed(action))), id)
  {
    var s, e := After(trace), Run(id, OperatorActed(action));
    var h, stored := HistoryOf(s, id), s.store[id];
    hide After, OperatorStep;
    OperatorKeepsRun(h, stored, action);
    LaterStill(trace, e, id, stored.result, MayDeliverFailure(h));
    LaterStill(trace, e, id, stored.result, stored.worker.manualRecovery == Some(CleanupHold));
    hide CrashedWith, WasHeld, WasResumed;
  }

  /** Recovery takes up what was left. */
  lemma RecoveryKeepsLeft(trace: seq<Event>, id: RunId)
    requires id in After(trace).store && LeftFor(trace, After(trace), id) && Guard(After(trace), Run(id, RecoveryStarted))
    ensures LeftFor(trace + [Run(id, RecoveryStarted)], Apply(After(trace), Run(id, RecoveryStarted)), id)
  {
    var s, e := After(trace), Run(id, RecoveryStarted);
    var h, stored := HistoryOf(s, id), s.store[id];
    hide After;
    LaterStill(trace, e, id, stored.result, MayDeliverFailure(h));
    LaterStill(trace, e, id, stored.result, stored.worker.manualRecovery == Some(CleanupHold));
    hide CrashedWith, WasHeld, WasResumed;
  }

  /** Any other step of the run itself. */
  lemma OtherStepKeepsLeft(trace: seq<Event>, id: RunId, step: RunStep)
    requires id in After(trace).store && LeftFor(trace, After(trace), id)
    requires !step.Saved? && !step.OperatorActed? && !step.RecoveryStarted? && !step.Created?
    ensures LeftFor(trace + [Run(id, step)], Apply(After(trace), Run(id, step)), id)
  {
    var s, e := After(trace), Run(id, step);
    var h, stored := HistoryOf(s, id), s.store[id];
    hide After;
    LaterStill(trace, e, id, stored.result, MayDeliverFailure(h));
    LaterStill(trace, e, id, stored.result, stored.worker.manualRecovery == Some(CleanupHold));
    hide CrashedWith, WasHeld, WasResumed;
  }

  /** What happens to another run leaves this one as it is; and the worker only turns to another when this one is resolved. */
  lemma OtherRunIsApart(s: State, id: RunId, other: RunId, step: RunStep)
    requires TaskHolds(s) && id in s.store && other != id && Guard(s, Run(other, step))
    ensures var t := Apply(s, Run(other, step));
            && id in t.store && t.store[id] == s.store[id] && HistoryOf(t, id) == HistoryOf(s, id)
            && (t.mode == s.mode || !s.store[id].RequiresWorkerAttention())
  {
    hide RunGuard, NextHistory, NextRecord;
  }

  lemma OtherRunKeepsLeft(trace: seq<Event>, id: RunId, other: RunId, step: RunStep)
    requires Invariant(After(trace)) && id in After(trace).store && other != id && LeftFor(trace, After(trace), id)
    requires Guard(After(trace), Run(other, step))
    ensures LeftFor(trace + [Run(other, step)], Apply(After(trace), Run(other, step)), id)
  {
    var s, e := After(trace), Run(other, step);
    var h, stored := HistoryOf(s, id), s.store[id];
    hide After, RunsHold, TaskHolds, Guard, Apply;
    OtherRunIsApart(s, id, other, step);
    LaterStill(trace, e, id, stored.result, MayDeliverFailure(h));
    LaterStill(trace, e, id, stored.result, stored.worker.manualRecovery == Some(CleanupHold));
    hide CrashedWith, WasHeld, WasResumed;
  }

  lemma {:induction false} LeftIsAccountedFor(trace: seq<Event>, id: RunId)
    requires Legal(trace) && id in After(trace).store
    ensures LeftFor(trace, After(trace), id)
  {
    hide Guard, Apply, Invariant, LeftFor, NextMode, RunGuard;
    assert trace != [];
    var n := |trace| - 1;
    var s, e := After(trace[..n]), trace[n];
    StepAt(trace, n);
    assert trace == trace[..n] + [e] && trace[..n + 1] == trace;
    if e.Run? && e.run.Created? && e.id == id {
      CreatedIsDriven(trace[..n], e);
    } else {
      OnlyCreationAdds(s, e, id);
      LeftIsAccountedFor(trace[..n], id);
      StepKeepsLeft(trace[..n], e, id);
    }
  }

  lemma OnlyCreationAdds(s: State, e: Event, id: RunId)
    requires id in Apply(s, e).store && !(e.Run? && e.run.Created? && e.id == id)
    ensures id in s.store
  {
    hide NextHistory, NextRecord;
  }

  lemma CreatedIsDriven(trace: seq<Event>, e: Event)
    requires e.Run? && e.run.Created? && Guard(After(trace), e)
    ensures e.id in Apply(After(trace), e).store && LeftFor(trace + [e], Apply(After(trace), e), e.id)
  {
    hide After, TakenUpAfter;
  }

  lemma StepKeepsLeft(trace: seq<Event>, e: Event, id: RunId)
    requires Invariant(After(trace)) && Guard(After(trace), e) && id in After(trace).store && LeftFor(trace, After(trace), id)
    requires !(e.Run? && e.run.Created? && e.id == id)
    ensures LeftFor(trace + [e], Apply(After(trace), e), id)
  {
    hide After, Invariant, LeftFor, Apply, SaveAllowed;
    match e
    case Task(step) => TaskStepKeepsLeft(trace, id, step);
    case Run(other, step) =>
      if other != id {
        OtherRunKeepsLeft(trace, id, other, step);
      } else {
        match step
        case Saved(r, torn) => SaveKeepsLeft(trace, id, r, torn);
        case OperatorActed(action) => OperatorKeepsLeft(trace, id, action);
        case RecoveryStarted => RecoveryKeepsLeft(trace, id);
        case _ => OtherStepKeepsLeft(trace, id, step);
      }
  }

  // ---------------------------------------------------------------- interruptions and failed cleanup

  /** Recovery takes a run up only after a crash during it, or after it was held and the worker resumed. */
  lemma RecoveryIsAccountedFor(trace: seq<Event>, id: RunId)
    requires Legal(trace) && id in After(trace).store && HistoryOf(After(trace), id).control.recovered
    ensures TakenUpAfter(trace, id, After(trace).store[id].result, MayDeliverFailure(HistoryOf(After(trace), id)))
  {
    hide Legal, After, TakenUpAfter;
    LeftIsAccountedFor(trace, id);
  }

  /**
   * An interruption is reported only for a run during which the process died, or which was held before the
   * paused worker was resumed; without a crash it is the latter.
   */
  lemma InterruptionIsAccountedFor(trace: seq<Event>, n: nat, id: RunId, r: Record, torn: bool)
    requires Legal(trace) && n < |trace| && trace[n] == Run(id, Saved(r, torn)) && id in At(trace, n).store
    requires r.worker.workerError.Some? && r.worker.workerError != At(trace, n).store[id].worker.workerError
    requires r.worker.workerError.value.code.InterruptedRun?
    ensures CrashedWith(trace[..n], id, At(trace, n).store[id].result) || WasResumed(trace[..n], id, false)
    ensures Task(Crashed) !in trace[..n] ==> WasResumed(trace[..n], id, false)
  {
    hide Legal, After, Apply, Invariant, SaveKeepsCommitments, SaveEarnsCleanup, SaveKeepsDelivery;
    StepAt(trace, n);
    RecoveryIsAccountedFor(trace[..n], id);
    AnyHoldWillDo(trace[..n], id, false);
  }

  /** The prepared body carries the result that is stored. */
  predicate CarriesResult(h: History, r: Record) {
    h.delivery.body.Some? && h.delivery.body.value.outcome.ResultOutcome? ==> r.result == Some(h.delivery.body.value.outcome.result)
  }

  lemma CarryingStep(h: History, stored: Record, e: RunStep)
    requires RunGuard(h, stored, e) && CarriesResult(h, stored)
    ensures CarriesResult(NextHistory(h, stored, e), NextRecord(stored, e))
  {
    hide SaveKeepsCommitments, SaveEarnsCleanup, MutationAllowed;
  }

  lemma {:induction false} BodyCarriesResult(trace: seq<Event>, id: RunId)
    requires Legal(trace) && id in After(trace).store
    ensures CarriesResult(HistoryOf(After(trace), id), After(trace).store[id])
  {
    hide CarriesResult, RunGuard, NextHistory, NextRecord, TaskGuard, DrivingGuard;
    assert trace != [];
    var n := |trace| - 1;
    var s, e := After(trace[..n]), trace[n];
    if e.Run? && e.id == id && e.run.Created? {
      NothingCarried(e.run.record);
    } else {
      OnlyCreationAdds(s, e, id);
      BodyCarriesResult(trace[..n], id);
      if e.Run? && e.id == id {
        CarryingStep(HistoryOf(s, id), s.store[id], e.run);
      }
    }
  }

  lemma NothingCarried(r: Record)
    ensures CarriesResult(NO_HISTORY, r)
  {
  }

  /**
   * A completion that reports failed cleanup is a result. Before it is first sent, and so before every time,
   * a cleanup hold of the run was stored and the worker resumed, or the process died while that very result
   * was stored and the run still unresolved.
   */
  lemma FailedCleanupIsHeldUnlessCrashed(trace: seq<Event>, n: nat, id: RunId, body: CompletionBody)
    requires Legal(trace) && n < |trace| && trace[n] == Run(id, Sent(body))
    requires Comparisons.CleanupOutcomeFailed(CleanupOf(body.outcome))
    ensures body.outcome.ResultOutcome?
    ensures WasResumed(trace[..n], id, true) || CrashedWith(trace[..n], id, Some(body.outcome.result))
    ensures Task(Crashed) !in trace[..n] ==> WasHeld(trace[..n], id, true)
  {
    hide Legal, After, Apply, Invariant;
    SentBodyIsHonest(trace, n, id, body);
    StepAt(trace, n);
    BodyCarriesResult(trace[..n], id);
    RecoveryIsAccountedFor(trace[..n], id);
  }
}
