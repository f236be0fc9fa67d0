/** Cleanup of the target and verification of the whole inventory (src/runner/cleanup.rs). Times are milliseconds. */
module Reconciliation {
  import opened Wrappers
  import opened Model
  import opened Protocol
  import opened Interference
  import opened Adapter
  import opened Calls
  import opened Runtime
  import opened CleanupScript

  // ---------------------------------------------------------------- leftovers

  lemma {:induction false} LeftoversAreTheNewNames(initial: seq<PackageSummary>, final: seq<PackageSummary>)
    ensures forall name :: name in LeftoverPackages(initial, final) <==> name in PackageNames(final) && name !in PackageNames(initial)
  {
    if final != [] {
      LeftoversAreTheNewNames(initial, final[1..]);
      assert final == [final[0]] + final[1..];
      assert PackageNames(final) == {final[0].dnpName} + PackageNames(final[1..]);
    }
  }

  /** In the order of the final inventory, each listed package that is new. */
  lemma {:induction false} LeftoversKeepOrder(initial: seq<PackageSummary>, final: seq<PackageSummary>, p: PackageSummary)
    ensures LeftoverPackages(initial, []) == []
    ensures LeftoverPackages(initial, final + [p]) ==
            LeftoverPackages(initial, final) + if Installed(initial, p.dnpName) then [] else [p.dnpName]
  {
    if final == [] {
      assert [] + [p] == [p];
    } else {
      LeftoversKeepOrder(initial, final[1..], p);
      assert (final + [p])[1..] == final[1..] + [p];
    }
  }

  lemma NoLeftoversIffContained(initial: seq<PackageSummary>, final: seq<PackageSummary>)
    ensures LeftoverPackages(initial, final) == [] <==> PackageNames(final) <= PackageNames(initial)
  {
    LeftoversAreTheNewNames(initial, final);
    if LeftoverPackages(initial, final) != [] {
      assert LeftoverPackages(initial, final)[0] in LeftoverPackages(initial, final);
    }
  }

  /**
   * What verified cleanup means for the target. It is never added; and when nobody else changes it
   * between the two inventories read last, it is present at the end exactly when it was at the start.
   */
  lemma VerifiedRestoresTarget(listings: seq<seq<PackageSummary>>, plan: TargetRecoveryPlan,
                               initial: seq<PackageSummary>, target: DnpName)
    requires PlanMatchesInventory(plan, initial, target) && Verified(listings, plan, initial, target)
    ensures var final := listings[|listings| - 1];
            && (Installed(final, target) ==> Installed(initial, target))
            && ((Installed(listings[|listings| - 2], target) <==> Installed(final, target)) ==>
                  (Installed(final, target) <==> Installed(initial, target)))
  {
    var final := listings[|listings| - 1];
    if Installed(final, target) {
      assert target in PackageNames(final);
      assert target in PackageNames(initial);
    }
  }

  // ---------------------------------------------------------------- what cleanup does to the run

  /** Cleanup may mutate the target of this stored record. */
  predicate Recoverable(stored: Record) {
    && stored.worker.manualRecovery.None?
    && stored.worker.cleanupRequired
    && stored.RequiresWorkerAttention()
    && stored.worker.pendingCompletionBody.None?
    && !stored.cleanup.status.CleanupPassed?
  }

  function Cleaned(h: History, mutations: nat, lastForward: bool, signals: Signals, listings: seq<seq<PackageSummary>>): History {
    h.(execution := h.execution.(mutations := mutations, lastForward := lastForward),
    control := h.control.(signals := signals),
    observed := h.observed.(listings := listings))
  }

  /** Only cleanup mutations and inventory reads happened, and maybe a signal. */
  ghost predicate Cleaning(before: State, after: State, id: RunId) {
    && after.mode == before.mode
    && after.store == before.store
    && var h, k := HistoryOf(before, id), HistoryOf(after, id);
    k == Cleaned(h, k.execution.mutations, k.execution.lastForward, k.control.signals, k.observed.listings)
    && SignalsRise(h.control.signals, k.control.signals)
  }

  /** The inventories read since the last mutation. */
  ghost function Listings(s: State, id: RunId): seq<seq<PackageSummary>> {
    HistoryOf(s, id).observed.listings
  }

  lemma ListingCleans(start: State, before: State, after: State, id: RunId, packages: seq<PackageSummary>)
    requires Cleaning(start, before, id) && id in start.store && Recoverable(start.store[id])
    requires Stepped(before, after, id, Listed(packages))
    ensures Cleaning(start, after, id)
    ensures Listings(after, id) == Listings(before, id) + [packages]
    ensures HistoryOf(after, id).execution == HistoryOf(before, id).execution
  {
  }

  lemma MutationCleans(start: State, before: State, after: State, id: RunId, m: Mutation)
    requires Cleaning(start, before, id) && id in start.store && Recoverable(start.store[id])
    requires AppliesPlan(m, start.store[id].worker.targetRecovery)
    requires Stepped(before, after, id, Mutated(m, false))
    ensures Cleaning(start, after, id)
    ensures Listings(after, id) == [] && !HistoryOf(after, id).execution.lastForward
    ensures HistoryOf(after, id).execution.mutations > 0
  {
  }

  lemma CleanupMayMutate(h: History, stored: Record, m: Mutation)
    requires Recoverable(stored) && AppliesPlan(m, stored.worker.targetRecovery)
    ensures MutationAllowed(h, stored, m, false)
  {
  }

  lemma CleaningStarts(s: State, id: RunId)
    ensures Cleaning(s, s, id)
  {
  }

  /** Everything but the cleanup counters is as it was at the start. */
  lemma CleaningKeeps(start: State, s: State, id: RunId)
    requires Cleaning(start, s, id) && id in start.store && Recoverable(start.store[id])
    ensures s.mode == start.mode && s.store == start.store
    ensures id in s.store && s.store[id].worker.manualRecovery.None? && Recoverable(s.store[id])
  {
  }

  // ---------------------------------------------------------------- the calls

  /** The cleanup of the run that started in `start` has mutated the target and still drives the run. */
  ghost predicate Restoring(node: Node, id: RunId, start: State)
    reads node, node.Objects()
  {
    && node.Drives(id) && id in start.store && Recoverable(start.store[id])
    && Cleaning(start, node.now, id)
    && id in node.now.store && node.now.store == start.store
    && !node.Past(id).execution.lastForward && node.Past(id).execution.mutations > 0
  }

  /** A cleanup call: it restarts the reading of inventories. */
  method MutateForCleanup(node: Node, id: RunId, m: Mutation, ghost start: State) returns (o: Attempt<Result<(), PackageError>>)
    requires node.Drives(id) && Cleaning(start, node.now, id) && id in start.store && Recoverable(start.store[id])
    requires AppliesPlan(m, start.store[id].worker.targetRecovery)
    modifies node.Objects()
    ensures node.Valid()
    ensures o.Done? ==> Restoring(node, id, start) && Listings(node.now, id) == []
    ensures o.Done? ==> node.calls == old(node.calls) + [Mutating(m, o.value)]
    ensures o.Killed? ==> node.calls == old(node.calls)
  {
    hide Stepped, MutationAllowed, Cleaning, Recoverable, Listings, Invariant, Legal, After;
    CleaningKeeps(start, node.now, id);
    CleanupMayMutate(node.Past(id), node.Stored(id), m);
    o := node.Mutate(id, m, false);
    if o.Done? {
      MutationCleans(start, old(node.now), node.now, id, m);
      CleaningKeeps(start, node.now, id);
    }
  }

  /** An inventory read after a cleanup call, with an optional deadline. */
  method ListForCleanup(node: Node, id: RunId, deadline: Option<nat>, ghost start: State) returns (o: Attempt<Listing>, elapsed: nat)
    requires Restoring(node, id, start)
    modifies node.Objects()
    ensures node.Valid() && (deadline.Some? ==> elapsed <= deadline.value)
    ensures o.Done? ==> Restoring(node, id, start)
    ensures o.Done? ==> Listings(node.now, id) ==
                        old(Listings(node.now, id)) + (if o.value.Inventory? then [o.value.packages] else [])
    ensures o.Done? ==> node.calls == old(node.calls) + [Reading(deadline, o.value, elapsed)]
    ensures o.Killed? ==> node.calls == old(node.calls)
    ensures deadline.None? ==> elapsed == 0
  {
    hide Stepped, Cleaning, Recoverable, Invariant, Legal, After;
    elapsed := 0;
    CleaningKeeps(start, node.now, id);
    if deadline.Some? {
      o, elapsed := node.ListWithin(id, deadline.value);
    } else {
      var listed :- node.ListPackages(id);
      o, elapsed := Done(if listed.Ok? then Inventory(listed.value) else ListFailed(listed.error)), 0;
    }
    if o.Done? && o.value.Inventory? {
      ListingCleans(start, old(node.now), node.now, id, o.value.packages);
      CleaningKeeps(start, node.now, id);
    }
  }

  ghost predicate AlwaysInstalled(listings: seq<seq<PackageSummary>>, target: DnpName) {
    forall packages :: packages in listings ==> Installed(packages, target)
  }

  /** Every inventory showed the target, but for the last one when its removal was observed. */
  ghost predicate RemovalTracked(listings: seq<seq<PackageSummary>>, target: DnpName, removed: bool) {
    if removed then
      && listings != []
      && AlwaysInstalled(listings[..|listings| - 1], target)
      && !Installed(listings[|listings| - 1], target)
    else AlwaysInstalled(listings, target)
  }

  method CleanupTarget(node: Node, id: RunId, target: DnpName, timeout: nat) returns (o: Attempt<CleanupStatus>, spent: nat)
    requires node.Drives(id) && id in node.now.store && Recoverable(node.now.store[id])
    requires node.now.store[id].worker.targetRecovery.Remove?
    modifies node.Objects()
    ensures node.Valid() && spent <= timeout
    ensures o.Done? ==> Restoring(node, id, old(node.now))
    ensures o.Done? ==> o.value.CleanupPassed? || o.value.CleanupFailed? || o.value.CleanupTimedOut?
    ensures o.Done? ==> RemovalTracked(Listings(node.now, id), target, o.value.CleanupPassed?)
    ensures old(node.calls) <= node.calls && OnScript(node.calls, |old(node.calls)|, Job(target, Remove, timeout))
    ensures o.Done? ==> Follows(node.calls, |old(node.calls)|, Job(target, Remove, timeout), Restored(o.value))
    ensures o.Done? ==> GaveUp(Job(target, Remove, timeout), node.calls[|old(node.calls)|..], o.value)
    ensures o.Done? ==> Paces(timeout, node.calls[|old(node.calls)|..])
  {
    hide Restoring, Cleaning, Recoverable, Listings, Node.Valid, Follows, OnScript, GaveUp, Paces;
    ghost var start, job, mark := node.now, Job(target, Remove, timeout), |node.calls|;
    spent := 0;
    CleaningStarts(start, id);
    FollowsFrom(node.calls, job);
    var removed := MutateForCleanup(node, id, RemovePackage(true), start);
    if removed.Killed? {
      return Killed, spent;
    }
    FollowsOn(old(node.calls), mark, job, Begun, Mutating(RemovePackage(true), removed.value));
    if removed.value.Err? && !removed.value.error.kind.PackageNotFound? {
      FollowedGaveUp(node.calls, mark, job, Restored(CleanupStatus.CleanupFailed));
      return Done(CleanupStatus.CleanupFailed), spent;
    }
    var attempts := Attempts(timeout);
    var attempt := 0;
    while attempt < attempts
      invariant attempt <= attempts && spent <= timeout
      invariant node.Valid() && Restoring(node, id, start)
      invariant AlwaysInstalled(Listings(node.now, id), target)
      invariant Follows(node.calls, mark, job, Poll(job, attempt, spent)) && OnScript(node.calls, mark, job)
      invariant old(node.calls) <= node.calls
    {
      if timeout - spent == 0 {
        break;
      }
      var sample, done: bool;
      sample, spent, done := SampleRemoval(node, id, job, start, mark, target, timeout, attempt, attempts, spent);
      if done {
        if sample.Done? {
          FollowedGaveUp(node.calls, mark, job, Restored(sample.value));
        }
        return sample, spent;
      }
      attempt := attempt + 1;
    }
    FollowedGaveUp(node.calls, mark, job, Restored(CleanupTimedOut));
    o := Done(CleanupTimedOut);
  }

  /** One round of the polling loop: it ends the cleanup, or leads to the next round. */
  method SampleRemoval(node: Node, id: RunId, ghost job: Job, ghost start: State, ghost mark: nat,
                       target: DnpName, timeout: nat, attempt: nat, attempts: nat, before: nat)
    returns (o: Attempt<CleanupStatus>, spent: nat, done: bool)
    requires job == Job(target, Remove, timeout) && attempts == Attempts(timeout) && attempt < attempts && before < timeout
    requires Restoring(node, id, start) && AlwaysInstalled(Listings(node.now, id), target)
    requires Follows(node.calls, mark, job, Sampling(attempt, before))
    modifies node.Objects()
    ensures node.Valid() && spent <= timeout
    ensures old(node.calls) <= node.calls && OnScript(node.calls, mark, job)
    ensures o.Killed? ==> done
    ensures done && o.Done? ==>
              && Restoring(node, id, start)
              && (o.value.CleanupPassed? || o.value.CleanupFailed? || o.value.CleanupTimedOut?)
              && RemovalTracked(Listings(node.now, id), target, o.value.CleanupPassed?)
              && Follows(node.calls, mark, job, Restored(o.value))
    ensures !done ==>
              && Restoring(node, id, start)
              && AlwaysInstalled(Listings(node.now, id), target)
              && Follows(node.calls, mark, job, Poll(job, attempt + 1, spent))
  {
    hide Restoring, Cleaning, Recoverable, Listings, Node.Valid, Follows, OnScript;
    FollowedIsOnScript(node.calls, mark, job, Sampling(attempt, before));
    done := true;
    var listed, elapsed := ListForCleanup(node, id, Some(timeout - before), start);
    spent := before + elapsed;
    if listed.Killed? {
      return Killed, spent, true;
    }
    FollowsOn(old(node.calls), mark, job, Sampling(attempt, before), Reading(Some(timeout - before), listed.value, elapsed));
    if listed.value.Inventory? {
      if !exists p :: p in listed.value.packages && p.dnpName == target {
        return Done(CleanupPassed), spent, true;
      }
    } else if listed.value.ListFailed? {
      if attempt + 1 == attempts {
        return Done(CleanupStatus.CleanupFailed), spent, true;
      }
    } else {
      return Done(CleanupTimedOut), spent, true;
    }
    o := Done(CleanupTimedOut);
    if attempt + 1 < attempts {
      if timeout - spent == 0 {
        return Done(CleanupTimedOut), spent, true;
      }
      ghost var calls := node.calls;
      var pause := if POLL_INTERVAL < timeout - spent then POLL_INTERVAL else timeout - spent;
      SleepForCleanup(node, id, pause, start);
      FollowsOn(calls, mark, job, Resting(attempt, spent), Sleeping(pause));
      spent := spent + pause;
    }
    done := false;
  }

  method SleepForCleanup(node: Node, id: RunId, duration: nat, ghost start: State)
    requires Restoring(node, id, start)
    modifies node`calls
    ensures node.Valid() && Restoring(node, id, start) && Listings(node.now, id) == old(Listings(node.now, id))
    ensures node.calls == old(node.calls) + [Sleeping(duration)]
  {
    hide Cleaning, Recoverable, Invariant, Legal, After;
    node.Sleep(duration);
  }

  method RestoreLatestTarget(node: Node, id: RunId, target: DnpName, ghost timeout: nat) returns (o: Attempt<CleanupStatus>)
    requires node.Drives(id) && id in node.now.store && Recoverable(node.now.store[id])
    requires node.now.store[id].worker.targetRecovery.RestoreLatest?
    modifies node.Objects()
    ensures node.Valid()
    ensures o.Done? ==> Restoring(node, id, old(node.now))
    ensures o.Done? ==> o.value.CleanupPassed? || o.value.CleanupFailed?
    ensures o.Done? ==> |Listings(node.now, id)| <= 1
    ensures o.Done? ==> (o.value.CleanupPassed? <==> Listings(node.now, id) != [] && Installed(Listings(node.now, id)[0], target))
    ensures old(node.calls) <= node.calls && OnScript(node.calls, |old(node.calls)|, Job(target, RestoreLatest, timeout))
    ensures o.Done? ==> Follows(node.calls, |old(node.calls)|, Job(target, RestoreLatest, timeout), Restored(o.value))
    ensures o.Done? ==> GaveUp(Job(target, RestoreLatest, timeout), node.calls[|old(node.calls)|..], o.value)
  {
    hide Restoring, Cleaning, Recoverable, Listings, Invariant, Legal, After, Follows, OnScript, GaveUp;
    hide Node.Valid;
    ghost var start, job, mark := node.now, Job(target, RestoreLatest, timeout), |node.calls|;
    CleaningStarts(start, id);
    FollowsFrom(node.calls, job);
    var removed :- MutateForCleanup(node, id, RemovePackage(false), start);
    FollowsOn(old(node.calls), mark, job, Begun, Mutating(RemovePackage(false), removed));
    if removed.Err? && !removed.error.kind.PackageNotFound? {
      FollowedGaveUp(node.calls, mark, job, Restored(CleanupStatus.CleanupFailed));
      return Done(CleanupStatus.CleanupFailed);
    }
    RestoringKeeps(node, id, start);
    ghost var calls := node.calls;
    var installed :- MutateForCleanup(node, id, InstallPackage(None), start);
    FollowsOn(calls, mark, job, Reinstalling, Mutating(InstallPackage(None), installed));
    if installed.Err? {
      FollowedGaveUp(node.calls, mark, job, Restored(CleanupStatus.CleanupFailed));
      return Done(CleanupStatus.CleanupFailed);
    }
    calls := node.calls;
    var listed, elapsed := ListForCleanup(node, id, None, start);
    if listed.Killed? {
      return Killed;
    }
    FollowsOn(calls, mark, job, Confirming, Reading(None, listed.value, elapsed));
    o := Done(if listed.value.Inventory? && exists p :: p in listed.value.packages && p.dnpName == target then CleanupPassed
              else CleanupStatus.CleanupFailed);
    FollowedGaveUp(node.calls, mark, job, Restored(o.value));
  }

  lemma RestoringKeeps(node: Node, id: RunId, start: State)
    requires Restoring(node, id, start)
    ensures node.Drives(id) && Cleaning(start, node.now, id) && id in node.now.store && node.now.store == start.store
    ensures Recoverable(start.store[id])
  {
  }

  /** The cleanup result says what the inventories show. */
  ghost predicate Reconciled(listings: seq<seq<PackageSummary>>, target: DnpName, plan: TargetRecoveryPlan,
                             initial: seq<PackageSummary>,
                             result: CleanupResult, final: seq<PackageSummary>) {
    && (result.status.CleanupPassed? <==> Verified(listings, plan, initial, target))
    && (result.status.CleanupPassed? || result.status.CleanupFailed? || result.status.CleanupTimedOut?)
    && (result.status.CleanupPassed? ==> result.leftoverPackages == [])
    && ((final == [] && result.leftoverPackages == [])
        || (listings != [] && final == listings[|listings| - 1] && result.leftoverPackages == LeftoverPackages(initial, final)))
  }

  /** The calls made since `mark` are those of the whole cleanup, and the result is what their answers amount to. */
  ghost predicate ReconciledByScript(calls: seq<Call>, mark: nat, job: Job, initial: seq<PackageSummary>,
                                     result: CleanupResult, final: seq<PackageSummary>) {
    exists status, listing ::
      && Follows(calls, mark, job, Over(status, listing))
      && (result, final) == Outcome(initial, status, listing)
  }

  method ReconcileTarget(node: Node, id: RunId, target: DnpName, plan: TargetRecoveryPlan, initial: seq<PackageSummary>, timeout: nat)
    returns (o: Attempt<(CleanupResult, seq<PackageSummary>)>)
    requires node.Drives(id) && id in node.now.store && Recoverable(node.now.store[id])
    requires plan == node.now.store[id].worker.targetRecovery
    modifies node.Objects()
    ensures node.Valid()
    ensures o.Done? ==> Restoring(node, id, old(node.now))
    ensures o.Done? ==> Reconciled(Listings(node.now, id), target, plan, initial, o.value.0, o.value.1)
    ensures old(node.calls) <= node.calls && OnScript(node.calls, |old(node.calls)|, Job(target, plan, timeout))
    ensures o.Done? ==> ReconciledByScript(node.calls, |old(node.calls)|, Job(target, plan, timeout), initial, o.value.0, o.value.1)
    ensures o.Done? && o.value.0.status == CleanupTimedOut ==>
              GaveUp(Job(target, plan, timeout), node.calls[|old(node.calls)|..], CleanupTimedOut)
  {
    hide Restoring, Cleaning, Recoverable, Listings, Node.Valid, LeftoverPackages, Follows, OnScript, GaveUp;
    ghost var start, job, mark := node.now, Job(target, plan, timeout), |node.calls|;
    var status;
    if plan.RestoreLatest? {
      status :- RestoreLatestTarget(node, id, target, timeout);
    } else {
      var cleaned, spent := CleanupTarget(node, id, target, timeout);
      status :- cleaned;
    }
    ghost var calls := node.calls;
    var listed, elapsed := ListForCleanup(node, id, None, start);
    if listed.Killed? {
      return Killed;
    }
    FollowsOn(calls, mark, job, Restored(status), Reading(None, listed.value, elapsed));
    FollowedGaveUp(node.calls, mark, job, Over(status, listed.value));
    if !listed.value.Inventory? {
      return Done((CleanupResult(if status.CleanupPassed? then CleanupStatus.CleanupFailed else status, []), []));
    }
    var final := listed.value.packages;
    var leftovers := LeftoverPackages(initial, final);
    NoLeftoversIffContained(initial, final);
    if status.CleanupPassed? && leftovers != [] {
      o := Done((CleanupResult(CleanupStatus.CleanupFailed, leftovers), final));
    } else {
      o := Done((CleanupResult(status, leftovers), final));
    }
  }
}
