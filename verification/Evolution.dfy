/** How the store and the history of a run evolve along a legal trace. */
module Evolution {
  import opened Model
  import opened Protocol
  import Invariants

  // ---------------------------------------------------------------- prefixes

  lemma {:induction false} LegalPrefix(trace: seq<Event>, n: nat)
    requires Legal(trace) && n <= |trace|
    ensures Legal(trace[..n])
  {
    if n < |trace| {
      var shorter := trace[..|trace| - 1];
      LegalPrefix(shorter, n);
      assert shorter[..n] == trace[..n];
    } else {
      assert trace[..n] == trace;
    }
  }

  lemma LastStep(trace: seq<Event>)
    requires Legal(trace) && trace != []
    ensures var n := |trace| - 1;
            Guard(After(trace[..n]), trace[n]) && After(trace) == Apply(After(trace[..n]), trace[n])
  {
    hide Guard, Apply;
  }

  /** What is known at every event of a legal trace. */
  lemma StepAt(trace: seq<Event>, n: nat)
    requires Legal(trace) && n < |trace|
    ensures Legal(trace[..n]) && Legal(trace[..n + 1])
    ensures Invariant(After(trace[..n])) && Invariant(After(trace[..n + 1]))
    ensures Guard(After(trace[..n]), trace[n]) && After(trace[..n + 1]) == Apply(After(trace[..n]), trace[n])
  {
    hide Legal, After, Guard, Apply, Invariant;
    LegalPrefix(trace, n);
    LegalPrefix(trace, n + 1);
    Invariants.LegalKeepsInvariant(trace[..n]);
    Invariants.LegalKeepsInvariant(trace[..n + 1]);
    LastStep(trace[..n + 1]);
    assert trace[..n + 1][..n] == trace[..n];
  }

  // ---------------------------------------------------------------- evolution of one run

  /** Durable commitments never go back. */
  predicate RecordEvolves(r: Record, q: Record) {
    && q.request == r.request
    && (r.worker.cleanupRequired ==>
          && q.worker.cleanupRequired
          && q.worker.targetRecovery == r.worker.targetRecovery
          && q.evidence.initialPackages == r.evidence.initialPackages)
    && (r.result.Some? ==>
          q.result == r.result && q.evidence.baseline == r.evidence.baseline && q.evidence.candidate == r.evidence.candidate)
  }

  /** Nor does what happened. */
  predicate HistoryEvolves(h: History, k: History) {
    && h.execution.entered <= k.execution.entered
    && h.execution.updates <= k.execution.updates
    && h.execution.mutations <= k.execution.mutations
    && (h.execution.bypassed ==> k.execution.bypassed)
    && (h.control.recovered ==> k.control.recovered && k.execution.entered == h.execution.entered && k.execution.updates == h.execution.updates)
    && (h.control.signals.flagged ==> k.control.signals.flagged || k.control.recovered)
    && (h.delivery.body.Some? ==> k.delivery.body == h.delivery.body)
    && (h.everPassed ==> k.everPassed)
    && (h.torn ==> k.torn)
  }

  /** Once cleanup passed or a completion was prepared, the package is never touched again. */
  predicate Untouchable(h: History) {
    h.everPassed || h.delivery.body.Some?
  }

  ghost predicate Evolves(s: State, t: State, id: RunId) {
    id in s.store ==>
      && id in t.store
      && RecordEvolves(s.store[id], t.store[id])
      && HistoryEvolves(HistoryOf(s, id), HistoryOf(t, id))
      && (Untouchable(HistoryOf(s, id)) ==> HistoryOf(t, id).execution.mutations == HistoryOf(s, id).execution.mutations)
  }

  lemma RecordStepEvolves(h: History, stored: Record, e: RunStep)
    requires RunInvariant(stored, h) && RunGuard(h, stored, e)
    ensures RecordEvolves(stored, NextRecord(stored, e))
  {
    hide CommitmentsHold, CleanupIsEarned, DeliveryIsConsistent, OutcomeIsConsistent, SaveEarnsCleanup;
    hide SaveKeepsDelivery;
    hide SafePlan, PersistedEvidence, PassedIsJustified;
  }

  lemma HistoryStepEvolves(h: History, stored: Record, e: RunStep)
    requires RunInvariant(stored, h) && RunGuard(h, stored, e)
    ensures HistoryEvolves(h, NextHistory(h, stored, e))
    ensures Untouchable(h) ==> NextHistory(h, stored, e).execution.mutations == h.execution.mutations
  {
    hide CommitmentsHold, OutcomeIsConsistent, SaveEarnsCleanup, SaveKeepsOutcome, SaveKeepsCommitments;
    hide SafePlan, PersistedEvidence, PassedIsJustified, Honest, IsCompletionOf, OperatorStep;
  }

  lemma StepEvolves(s: State, e: Event, id: RunId)
    requires Invariant(s) && Guard(s, e)
    ensures Evolves(s, Apply(s, e), id)
  {
    hide RunGuard, NextRecord, NextHistory, RunInvariant, RecordEvolves, HistoryEvolves, Untouchable, TaskHolds;
    hide NextMode, NextDrain, DrivingGuard, TaskGuard;
    if id in s.store {
      assert RunInvariant(s.store[id], HistoryOf(s, id));
      NothingEvolves(s, id);
      if e.Run? && e.id == id && !e.run.Created? {
        RecordStepEvolves(HistoryOf(s, id), s.store[id], e.run);
        HistoryStepEvolves(HistoryOf(s, id), s.store[id], e.run);
      }
    }
  }

  lemma NothingEvolves(s: State, id: RunId)
    ensures Evolves(s, s, id)
    ensures id in s.store ==> RecordEvolves(s.store[id], s.store[id]) && HistoryEvolves(HistoryOf(s, id), HistoryOf(s, id))
  {
  }

  /** From any point of a legal trace to any later one. */
  lemma {:induction false} EvolvesAlong(trace: seq<Event>, i: nat, j: nat, id: RunId)
    requires Legal(trace) && i <= j <= |trace|
    ensures Evolves(After(trace[..i]), After(trace[..j]), id)
    decreases j - i
  {
    hide Legal, After, Invariant, Apply, Guard, RecordEvolves;
    if i == j {
      NothingEvolves(After(trace[..i]), id);
    } else {
      EvolvesAlong(trace, i, j - 1, id);
      StepAt(trace, j - 1);
      StepEvolves(After(trace[..j - 1]), trace[j - 1], id);
      EvolvesTransitively(After(trace[..i]), After(trace[..j - 1]), After(trace[..j]), id);
    }
  }

  lemma EvolvesTransitively(s: State, t: State, u: State, id: RunId)
    requires Evolves(s, t, id) && Evolves(t, u, id)
    ensures Evolves(s, u, id)
  {
  }

  // ---------------------------------------------------------------- the history tells what occurred

  /** The store reported a failure while the run was driven. */
  ghost predicate StoreWasAtFault(trace: seq<Event>, id: RunId) {
    Run(id, StoreFailed) in trace || exists r :: Run(id, Saved(r, true)) in trace
  }

  /** The candidate was applied, as the request names it. */
  ghost predicate UpdateIssued(trace: seq<Event>, id: RunId) {
    exists candidate, forward :: Run(id, Mutated(UpdatePackage(candidate), forward)) in trace
  }

  ghost predicate LossAt(trace: seq<Event>, n: nat, id: RunId) {
    n < |trace| && trace[n] == Run(id, Signalled(true)) && forall k :: n < k < |trace| ==> trace[k] != Run(id, RecoveryStarted)
  }

  /** The claim was reported as lost, and recovery did not take the run up since. */
  ghost predicate LostSinceRecovery(trace: seq<Event>, id: RunId) {
    exists n :: LossAt(trace, n, id)
  }

  ghost predicate WorkWitnessed(trace: seq<Event>, h: History, id: RunId) {
    && (h.observed.baseline.Some? ==> Run(id, Captured(Baseline, h.observed.baseline.value)) in trace)
    && (h.observed.candidate.Some? ==> Run(id, Captured(Candidate, h.observed.candidate.value)) in trace)
    && (h.execution.updates > 0 ==> UpdateIssued(trace, id))
    && (h.execution.updated ==> Run(id, UpdateSucceeded) in trace)
    && (h.torn ==> exists r :: Run(id, Saved(r, true)) in trace)
    && (h.failed ==> StoreWasAtFault(trace, id))
  }

  ghost predicate DeliveryWitnessed(trace: seq<Event>, h: History, id: RunId) {
    && (h.delivery.recorded ==> Run(id, Answered(false)) in trace)
    && (h.delivery.repeated ==> Run(id, Answered(true)) in trace)
    && (h.delivery.conflicted ==> Run(id, Rebuffed(true)) in trace)
    && (h.delivery.accepted ==> Run(id, OperatorActed(AcceptCoordinatorResult)) in trace)
    && (h.control.recovered ==> Run(id, RecoveryStarted) in trace)
    && (h.control.signals.lost ==> LostSinceRecovery(trace, id))
    && (h.delivery.body.Some? ==> exists r, torn :: Run(id, Saved(r, torn)) in trace && r.worker.pendingCompletionBody == h.delivery.body)
  }

  /** Whatever the history says happened is in the trace. */
  ghost predicate Witnessed(trace: seq<Event>, h: History, id: RunId) {
    WorkWitnessed(trace, h, id) && DeliveryWitnessed(trace, h, id)
  }

  lemma WorkWitnessedStep(trace: seq<Event>, h: History, stored: Record, id: RunId, e: RunStep)
    requires WorkWitnessed(trace, h, id)
    ensures WorkWitnessed(trace + [Run(id, e)], NextHistory(h, stored, e), id)
  {
    hide NextRecord, NextDelivery, NextControl;
    var longer := trace + [Run(id, e)];
    assert forall x :: x in trace ==> x in longer;
    assert Run(id, e) in longer;
  }

  lemma DeliveryWitnessedStep(trace: seq<Event>, h: History, stored: Record, id: RunId, e: RunStep)
    requires DeliveryWitnessed(trace, h, id)
    ensures DeliveryWitnessed(trace + [Run(id, e)], NextHistory(h, stored, e), id)
  {
    hide NextRecord, NextExecution, NextObserved, LostSinceRecovery;
    var longer := trace + [Run(id, e)];
    assert forall x :: x in trace ==> x in longer;
    assert Run(id, e) in longer;
    LossStep(trace, h.control.signals.lost, id, Run(id, e));
  }

  lemma WitnessedStep(trace: seq<Event>, h: History, stored: Record, id: RunId, e: RunStep)
    requires Witnessed(trace, h, id)
    ensures Witnessed(trace + [Run(id, e)], NextHistory(h, stored, e), id)
  {
    hide WorkWitnessed, DeliveryWitnessed, NextHistory;
    WorkWitnessedStep(trace, h, stored, id, e);
    DeliveryWitnessedStep(trace, h, stored, id, e);
  }

  lemma WitnessedLater(trace: seq<Event>, h: History, id: RunId, e: Event)
    requires Witnessed(trace, h, id) && e != Run(id, RecoveryStarted)
    ensures Witnessed(trace + [e], h, id)
  {
    assert forall x :: x in trace ==> x in trace + [e];
    LossStep(trace, h.control.signals.lost, id, e);
  }

  lemma LossStep(trace: seq<Event>, lost: bool, id: RunId, e: Event)
    requires lost ==> LostSinceRecovery(trace, id)
    ensures e == Run(id, Signalled(true)) || (lost && e != Run(id, RecoveryStarted)) ==> LostSinceRecovery(trace + [e], id)
  {
    if e == Run(id, Signalled(true)) {
      assert LossAt(trace + [e], |trace|, id);
    } else if lost && e != Run(id, RecoveryStarted) {
      var n :| LossAt(trace, n, id);
      assert LossAt(trace + [e], n, id);
    }
  }

  lemma NothingIsWitnessed(trace: seq<Event>, id: RunId)
    ensures Witnessed(trace, NO_HISTORY, id)
  {
  }

  /** A step changes the history of its own run only. */
  lemma HistoryAfter(s: State, e: Event, id: RunId)
    ensures HistoryOf(Apply(s, e), id) ==
            if e.Run? && e.id == id && e.run.Created? then NO_HISTORY
            else if e.Run? && e.id == id && id in s.store then NextHistory(HistoryOf(s, id), s.store[id], e.run)
            else HistoryOf(s, id)
  {
    hide NextHistory, NextRecord, NextMode, NextDrain;
  }

  lemma OwnRunIsStored(s: State, e: Event, id: RunId)
    requires Guard(s, e)
    ensures e.Run? && e.id == id && !e.run.Created? ==> id in s.store
  {
    hide RunGuard;
  }

  lemma {:induction false} HistoryIsWitnessed(trace: seq<Event>, id: RunId)
    requires Legal(trace)
    ensures Witnessed(trace, HistoryOf(After(trace), id), id)
  {
    hide Guard, Apply, NextHistory, Witnessed;
    if trace == [] {
      NothingIsWitnessed(trace, id);
    } else {
      var n := |trace| - 1;
      var s, e := After(trace[..n]), trace[n];
      HistoryIsWitnessed(trace[..n], id);
      assert trace == trace[..n] + [e];
      HistoryAfter(s, e, id);
      NothingIsWitnessed(trace, id);
      if e.Run? && e.id == id && id in s.store {
        WitnessedStep(trace[..n], HistoryOf(s, id), s.store[id], id, e.run);
      } else {
        LastStep(trace);
        OwnRunIsStored(s, e, id);
        WitnessedLater(trace[..n], HistoryOf(s, id), id, e);
      }
    }
  }

  /** What a mutation leaves in the history, for good. */
  lemma MutationLeavesMark(trace: seq<Event>, n: nat, id: RunId, m: Mutation, forward: bool)
    requires Legal(trace) && n < |trace| && trace[n] == Run(id, Mutated(m, forward))
    ensures var h := HistoryOf(After(trace), id);
            && h.execution.mutations > 0
            && (m.UpdatePackage? ==> h.execution.updates > 0)
            && (m.InstallBypassingSignature? ==> h.execution.bypassed)
  {
    hide Legal, After, Invariant, RecordEvolves, SaveAllowed, MutationAllowed;
    StepAt(trace, n);
    EvolvesAlong(trace, n + 1, |trace|, id);
    assert trace[..|trace|] == trace;
  }

  // ---------------------------------------------------------------- the inventory read last

  /** Event n read this inventory for the run; no other was read for it since, and the package was not touched. */
  ghost predicate LastListedAt(trace: seq<Event>, n: nat, id: RunId, packages: seq<PackageSummary>) {
    && n < |trace| && trace[n] == Run(id, Listed(packages))
    && forall k :: n < k < |trace| && trace[k].Run? && trace[k].id == id ==> !trace[k].run.Listed? && !trace[k].run.Mutated?
  }

  lemma ListingsStep(o: Observed, e: RunStep)
    ensures NextObserved(o, e).listings ==
            if e.Listed? then o.listings + [e.packages] else if e.Mutated? then [] else o.listings
  {
  }

  lemma {:induction false} LastListingIsRead(trace: seq<Event>, id: RunId) returns (l: nat)
    requires Legal(trace) && HistoryOf(After(trace), id).observed.listings != []
    ensures var listings := HistoryOf(After(trace), id).observed.listings;
            LastListedAt(trace, l, id, listings[|listings| - 1])
  {
    hide Guard, Apply, NextExecution, NextControl, NextDelivery, NextRecord, NextObserved;
    assert trace != [];
    var n := |trace| - 1;
    var s, e := After(trace[..n]), trace[n];
    HistoryAfter(s, e, id);
    LastStep(trace);
    if e.Run? && e.id == id {
      ListingsStep(HistoryOf(s, id).observed, e.run);
    }
    OwnRunIsStored(s, e, id);
    if e.Run? && e.id == id && e.run.Listed? {
      l := n;
    } else {
      l := LastListingIsRead(trace[..n], id);
      assert trace[..n][l] == trace[l];
    }
  }
}
