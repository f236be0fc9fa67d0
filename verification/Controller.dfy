/** One package test, from the queued record to the persisted result (src/runner/controller.rs). */
module Controller {
  import opened Wrappers
  import opened Model
  import opened Protocol
  import opened Interference
  import opened Adapter
  import opened Calls
  import opened Runtime
  import opened Live
  import opened Reconciliation
  import opened RunScript
  import opened RunSpec
  import CleanupScript
  import Comparisons
  import Evidence
  import Stabilization
  import Verdicts

  class RunController {
    const node: Node
    const config: RunnerConfig
    var cleanupAuthorized: bool
    ghost var mark: nat

    constructor (node: Node, config: RunnerConfig)
      ensures this.node == node && this.config == config && !cleanupAuthorized
    {
      this.node, this.config, cleanupAuthorized, mark := node, config, false, 0;
    }

    ghost predicate Controls(record: RunRecord)
      reads node, node.Objects(), record
    {
      && node.Valid() && node.Drives(record.request.runId)
      && record.request.runId in node.now.store
      && Testing(Past(record), Stored(record), record.Snapshot())
    }

    ghost function Past(record: RunRecord): History
      reads node, node.Objects(), record
    {
      node.Past(record.request.runId)
    }

    ghost function Stored(record: RunRecord): Record
      requires record.request.runId in node.now.store
      reads node, node.Objects(), record
    {
      node.now.store[record.request.runId]
    }

    /** The calls of this run so far follow the script, and have reached `stage`. */
    ghost predicate Follows(stage: Stage)
      reads this`mark, node`calls
    {
      Reaches(node.calls, mark, config, stage)
    }

    /** The calls of this run so far are those of the script. */
    ghost predicate Scripted()
      reads this`mark, node`calls
    {
      OnScript(node.calls, mark, config)
    }

    // -------------------------------------------------------------- saving

    /** Saves the record at a point of the script; the result is whether the store reported success. */
    method Save(record: RunRecord, ghost p: Point) returns (o: Attempt<bool>)
      requires Controls(record) && IsSave(p) && Follows(At(p, record.Memory())) && OnceSaved(p, record.Memory()) != Astray
      modifies node.Objects()
      ensures node.Valid() && Scripted()
      ensures o.Done? ==> Follows(if o.value then OnceSaved(p, record.Memory()) else OnceUnsaved(p, record.Memory()))
      ensures o.Done? ==> Controls(record) && SameWork(old(Past(record)), Past(record))
      ensures o == Done(false) ==> Past(record).failed
      ensures o == Done(true) ==> Stored(record) == record.Snapshot()
      ensures o == Done(true) && record.phase == old(Stored(record)).phase ==>
                Past(record).control.cleared == old(Past(record)).control.cleared
    {
      hide Testing, SaveAllowed, SaveResult, Invariant, Legal, After, SameWork, Reaches, OnScript;
      TestingMaySave(Past(record), Stored(record), record.Snapshot());
      ReachedIsOnScript(node.calls, mark, config, At(p, record.Memory()));
      o := node.Save(record);
      if o.Done? {
        SaveKeepsTesting(old(node.now), node.now, record.request.runId, record.Snapshot(), o.value);
        SaveReaches(old(node.calls), mark, config, p, record.Memory(), o.value);
      }
    }

    method Phase(record: RunRecord, ghost p: Point, phase: ExecutionPhase) returns (o: Attempt<bool>)
      requires Controls(record) && IsSave(p) && Follows(At(p, Phased(record.Memory(), phase)))
      requires OnceSaved(p, Phased(record.Memory(), phase)) != Astray
      modifies node.Objects(), record`phase, record`phaseHistory
      ensures node.Valid() && Scripted()
      ensures record.Memory() == Phased(old(record.Memory()), phase)
      ensures o.Done? ==> Follows(if o.value then OnceSaved(p, record.Memory()) else OnceUnsaved(p, record.Memory()))
      ensures o.Done? ==> Controls(record) && SameWork(old(Past(record)), Past(record))
      ensures o == Done(false) ==> Past(record).failed
      ensures o == Done(true) ==> Stored(record) == record.Snapshot() && record.phase == phase
      ensures o == Done(true) ==> node.Publishes(phase, record.worker.cleanupRequired)
    {
      hide Testing, Node.Drives, Node.Valid, SameWork, Reaches, OnScript, OnceSaved, OnceUnsaved;
      record.Transition(phase);
      EditKeepsTesting(Past(record), Stored(record), old(record.Memory()), record.Memory());
      o := Save(record, p);
      if o == Done(true) {
        node.Publish(record.request.runId, phase, record.worker.cleanupRequired);
      }
    }

    /** Stores the phase, then looks at the control signal. */
    method PhaseFailure(record: RunRecord, ghost b: Boundary, phase: ExecutionPhase) returns (o: Attempt<Option<Failure>>)
      requires Controls(record) && PhaseOf(b) == phase && Follows(Approach(record.Memory(), b))
      modifies node.Objects(), record`phase, record`phaseHistory
      ensures node.Valid() && Scripted()
      ensures record.Memory() == Phased(old(record.Memory()), phase)
      ensures o.Done? ==> Follows(Onward(record.Memory(), o.value, Cross(record.Memory(), b)))
      ensures o.Done? ==> Controls(record) && SameWork(old(Past(record)), Past(record))
      ensures o == Done(None) ==> Stored(record) == record.Snapshot() && record.phase == phase
      ensures o == Done(None) ==> Past(record).control.cleared == Some(phase)
      ensures o.Done? && o.value.Some? ==> Explains(o.value.value, Past(record))
    {
      hide Controls, Node.Valid, Reaches, OnScript, StopWith, Cross;
      var saved :- Phase(record, SavePhase(b), phase);
      if !saved {
        return Done(Some(PERSISTENCE_FAILURE));
      }
      o := CheckControl(record, ReadSignal(b), Cross(record.Memory(), b));
    }

    /** Reads the control signal at a point of the script; `clear` is what follows a Continue. */
    method CheckControl(record: RunRecord, ghost p: Point, ghost clear: Stage) returns (o: Attempt<Option<Failure>>)
      requires Controls(record) && Follows(At(p, record.Memory())) && ClearTo(p, record.Memory(), clear)
      requires p.ReadSignalAfter? && p.stopped ==> !node.progress.Control().Continue?
      modifies node.Objects()
      ensures node.Valid() && Scripted()
      ensures o.Done? ==> Follows(Onward(record.Memory(), o.value, clear))
      ensures o.Done? ==> Controls(record) && SameWork(old(Past(record)), Past(record)) && Stored(record) == old(Stored(record))
      ensures o == Done(None) ==> Past(record).control.cleared == Some(Stored(record).phase)
      ensures o.Done? && o.value.Some? ==> Explains(o.value.value, Past(record))
    {
      hide SaveAllowed, SaveResult, Invariant, Legal, After, Stepped, Reaches, OnScript, StopWith;
      ReachedIsOnScript(node.calls, mark, config, At(p, record.Memory()));
      var control :- node.CheckControl(record.request.runId);
      ReadKeepsTesting(old(node.now), node.now, record.request.runId, record.Snapshot(), Checked(control.Continue?));
      SignalReaches(old(node.calls), mark, config, p, record.Memory(), control, clear);
      o := Done(ControlFailure(control));
    }

    method ListPackages(record: RunRecord) returns (o: Attempt<Result<seq<PackageSummary>, PackageError>>)
      requires Controls(record) && Follows(At(ReadInventory, record.Memory()))
      modifies node.Objects()
      ensures node.Valid() && Scripted()
      ensures o.Done? ==>
                Follows(AfterInventory(record.Memory(), if o.value.Ok? then Inventory(o.value.value) else ListFailed(o.value.error)))
      ensures o.Done? ==> Controls(record) && SameWork(old(Past(record)), Past(record)) && Stored(record) == old(Stored(record))
    {
      hide SaveAllowed, SaveResult, Invariant, Legal, After, Stepped, Reaches, OnScript, StopWith, InstalledAsCore;
      ReachedIsOnScript(node.calls, mark, config, At(ReadInventory, record.Memory()));
      var listed :- node.ListPackages(record.request.runId);
      AskedReaches(old(node.calls), mark, config, ReadInventory, record.Memory(), node.calls[|node.calls| - 1]);
      if listed.Ok? {
        ReadKeepsTesting(old(node.now), node.now, record.request.runId, record.Snapshot(), Listed(listed.value));
      }
      o := Done(listed);
    }

    // -------------------------------------------------------------- authorization and mutation

    /** The plan in memory fits the inventory in memory, and cleanup was authorized as recorded. */
    ghost predicate Planned(record: RunRecord)
      reads this`cleanupAuthorized, record
    {
      && SafePlan(record.worker.targetRecovery, record.evidence.initialPackages, record.request.dnpName)
      && cleanupAuthorized == record.worker.cleanupRequired
    }

    /** Persists that cleanup is owed before the first destructive call. */
    method AuthorizeCleanup(record: RunRecord, ghost b: Boundary) returns (o: Attempt<Option<Failure>>)
      requires Controls(record) && Planned(record) && Stored(record) == record.Snapshot()
      requires b.ToBaselineInstall? || b.ToCandidateInstall?
      requires Follows(Authorize(record.Memory(), b))
      modifies node.Objects(), record`worker, this`cleanupAuthorized
      ensures node.Valid() && Scripted()
      ensures o.Done? ==> Follows(Onward(record.Memory(), o.value, ToMutation(record.Memory(), b)))
      ensures o.Done? ==> Controls(record) && SameWork(old(Past(record)), Past(record))
      ensures o.Done? ==> Planned(record) && cleanupAuthorized && record.worker == old(record.worker).(cleanupRequired := true)
      ensures o == Done(None) ==> Stored(record) == record.Snapshot() && Past(record).control.cleared == old(Past(record)).control.cleared
      ensures o.Done? && o.value.Some? ==> Explains(o.value.value, Past(record))
    {
      hide Controls, Node.Valid, SafePlan, Reaches, OnScript, StopWith, FindPackage, SameWork;
      if cleanupAuthorized {
        OnTheWay(record, ToMutation(record.Memory(), b));
        return Done(None);
      }
      cleanupAuthorized := true;
      var saved :- SaveOwed(record, b);
      o := Done(if saved then None else Some(PERSISTENCE_FAILURE));
    }

    lemma OnTheWay(record: RunRecord, stage: Stage)
      requires Controls(record) && Follows(stage) && stage != Astray
      ensures node.Valid() && Scripted() && SameWork(Past(record), Past(record))
    {
    }

    /** Marks cleanup as owed and persists it. */
    method SaveOwed(record: RunRecord, ghost b: Boundary) returns (o: Attempt<bool>)
      requires Controls(record) && Stored(record) == record.Snapshot()
      requires SafePlan(record.worker.targetRecovery, record.evidence.initialPackages, record.request.dnpName)
      requires b.ToBaselineInstall? || b.ToCandidateInstall?
      requires Follows(At(SaveObligation(b), Owing(record.Memory())))
      modifies node.Objects(), record`worker
      ensures node.Valid() && Scripted()
      ensures o.Done? ==> Follows(if o.value then ToMutation(record.Memory(), b) else StopWith(record.Memory(), PERSISTENCE_FAILURE))
      ensures o.Done? ==> Controls(record) && SameWork(old(Past(record)), Past(record))
      ensures record.worker == old(record.worker).(cleanupRequired := true)
      ensures o == Done(false) ==> Past(record).failed
      ensures o == Done(true) ==> Stored(record) == record.Snapshot() && Past(record).control.cleared == old(Past(record)).control.cleared
      ensures o == Done(true) ==> node.Publishes(record.phase, true)
    {
      hide Testing, Node.Drives, Node.Valid, SafePlan, Reaches, OnScript, StopWith, FindPackage, SameWork;
      OwingKeepsTesting(Past(record), Stored(record), record.Memory());
      record.worker := record.worker.(cleanupRequired := true);
      o := Save(record, SaveObligation(b));
      if o == Done(true) {
        node.Publish(record.request.runId, record.phase, record.worker.cleanupRequired);
      }
    }

    /** A forward mutation in the phase it belongs to, after a Continue was read in that phase. */
    method Mutate(record: RunRecord, ghost p: Point, m: Mutation) returns (o: Attempt<Result<(), PackageError>>)
      requires Controls(record) && Stored(record).worker.cleanupRequired && !m.UpdatePackage?
      requires Follows(At(p, record.Memory())) && MutationAt(p, record.Memory()) == Some(m)
      requires Stored(record).phase == MutationPhase(m) && Past(record).control.cleared == Some(MutationPhase(m))
      requires AppliesRequest(m, record.request)
      modifies node.Objects()
      ensures node.Valid() && Scripted()
      ensures o.Done? ==> Follows(AfterMutation(p, record.Memory(), o.value))
      ensures o.Done? ==> Controls(record) && Stored(record) == old(Stored(record))
      ensures o.Done? ==> Past(record).control.cleared == old(Past(record)).control.cleared
      ensures o.Done? ==>
                var h, k := old(Past(record)), Past(record);
                && k.observed == h.observed.(listings := [])
                && k.execution.updates == h.execution.updates && k.execution.updated == h.execution.updated
                && k.execution.bypassed == (h.execution.bypassed || m.InstallBypassingSignature?)
    {
      hide Invariant, Legal, After, Stepped, AppliesRequest, SafePlan, PersistedEvidence, Reaches, OnScript, MutationAt, AfterMutation;
      ReachedIsOnScript(node.calls, mark, config, At(p, record.Memory()));
      TestingMayMutate(Past(record), Stored(record), record.Snapshot(), m);
      o := node.Mutate(record.request.runId, m, true);
      if o.Done? {
        MutationKeepsTesting(old(node.now), node.now, record.request.runId, record.Snapshot(), m);
        MutationReaches(old(node.calls), mark, config, p, record.Memory(), o.value);
      }
    }

    // -------------------------------------------------------------- the algorithm

    /** Refuses unsafe targets, then stores the inventory and the recovery plan it implies. */
    method Preflight(record: RunRecord) returns (o: Attempt<Option<Failure>>)
      requires Controls(record) && !record.worker.cleanupRequired && !cleanupAuthorized
      requires Follows(Approach(record.Memory(), ToPreflight))
      modifies node.Objects(), record`phase, record`phaseHistory, record`evidence, record`worker
      ensures node.Valid() && Scripted()
      ensures o.Done? ==> Follows(Onward(record.Memory(), o.value, Approach(record.Memory(), ToBaselinePreview)))
      ensures o.Done? ==> Controls(record) && SameWork(old(Past(record)), Past(record))
      ensures o.Done? ==> !record.worker.cleanupRequired
      ensures o == Done(None) ==> Planned(record) && record.request.dnpName != HARNESS_DNP_NAME
                                  && !InstalledAsCore(record.evidence.initialPackages, record.request.dnpName)
      ensures o.Done? && o.value.Some? ==> Explains(o.value.value, Past(record))
    {
      hide Controls, Node.Valid, SafePlan, InstalledAsCore, Reaches, OnScript, StopWith;
      var stopped :- PhaseFailure(record, ToPreflight, ExecutionPhase.Preflight);
      if stopped.Some? {
        return Done(stopped);
      }
      var tools := CheckTools(record);
      if tools.Err? {
        return Done(Some(PackageFailure(tools.error, McpUnavailable)));
      }
      if !tools.value {
        return Done(Some(InfrastructureFailure(RequiredMcpToolsMissing)));
      }
      if record.request.dnpName == HARNESS_DNP_NAME {
        return Done(Some(InfrastructureFailure(HarnessPackageRefused)));
      }
      var listed :- ListPackages(record);
      if listed.Err? {
        return Done(Some(PackageFailure(listed.error, McpUnavailable)));
      }
      var packages := listed.value;
      if InstalledAsCore(packages, record.request.dnpName) {
        return Done(Some(InfrastructureFailure(CorePackageRefused)));
      }
      o := StorePlan(record, packages);
    }

    method CheckTools(record: RunRecord) returns (tools: Result<bool, PackageError>)
      requires Controls(record) && Follows(At(VerifyTools, record.Memory()))
      modifies node`calls
      ensures node.Valid() && Controls(record) && Scripted()
      ensures Follows(AfterTools(record.Memory(), tools))
      ensures Past(record) == old(Past(record))
    {
      hide Testing, Invariant, Legal, After, Reaches, OnScript, StopWith;
      tools := node.VerifyTools();
      AskedReaches(old(node.calls), mark, config, VerifyTools, record.Memory(), Verifying(tools));
    }

    method StorePlan(record: RunRecord, packages: seq<PackageSummary>) returns (o: Attempt<Option<Failure>>)
      requires Controls(record) && !record.worker.cleanupRequired && !cleanupAuthorized
      requires record.request.dnpName != HARNESS_DNP_NAME
      requires !InstalledAsCore(packages, record.request.dnpName)
      requires Follows(At(SaveInventory, record.Memory().(evidence := record.evidence.(initialPackages := packages))))
      modifies node.Objects(), record`evidence, record`worker
      ensures node.Valid() && Scripted()
      ensures o.Done? ==> Follows(Onward(record.Memory(), o.value, Approach(record.Memory(), ToBaselinePreview)))
      ensures o.Done? ==> Controls(record) && SameWork(old(Past(record)), Past(record))
      ensures o.Done? ==> !record.worker.cleanupRequired
      ensures o == Done(None) ==> Planned(record) && record.evidence.initialPackages == packages
      ensures o.Done? && o.value.Some? ==> Explains(o.value.value, Past(record))
    {
      hide Controls, Node.Valid, FindPackage, Reaches, OnScript, StopWith, SameWork, InstalledAsCore, Planning;
      var saved :- StoreInventory(record, packages);
      if !saved {
        return Done(Some(PERSISTENCE_FAILURE));
      }
      ghost var stored := Past(record);
      saved :- StoreRecoveryPlan(record);
      SameWorkTwice(old(Past(record)), stored, Past(record));
      o := Done(if saved then None else Some(PERSISTENCE_FAILURE));
    }

    method StoreInventory(record: RunRecord, packages: seq<PackageSummary>) returns (o: Attempt<bool>)
      requires Controls(record) && !record.worker.cleanupRequired
      requires Follows(At(SaveInventory, record.Memory().(evidence := record.evidence.(initialPackages := packages))))
      modifies node.Objects(), record`evidence
      ensures node.Valid() && Scripted()
      ensures o.Done? ==> Follows(if o.value then At(Point.SavePlan, Planning(record.Memory())) else StopWith(record.Memory(), PERSISTENCE_FAILURE))
      ensures o.Done? ==> Controls(record) && SameWork(old(Past(record)), Past(record))
      ensures o == Done(false) ==> Past(record).failed
      ensures record.evidence == old(record.evidence).(initialPackages := packages)
    {
      hide Testing, Node.Drives, Node.Valid, FindPackage, PersistedEvidence, Reaches, OnScript, StopWith, SameWork;
      ghost var before := record.Memory();
      record.evidence := record.evidence.(initialPackages := packages);
      PlanningKeepsTesting(Past(record), Stored(record), before, record.Memory());
      o := Save(record, SaveInventory);
    }

    method StoreRecoveryPlan(record: RunRecord) returns (o: Attempt<bool>)
      requires Controls(record) && !record.worker.cleanupRequired
      requires Follows(At(Point.SavePlan, Planning(record.Memory())))
      modifies node.Objects(), record`worker
      ensures node.Valid() && Scripted()
      ensures o.Done? ==> Follows(if o.value then Approach(record.Memory(), ToBaselinePreview) else StopWith(record.Memory(), PERSISTENCE_FAILURE))
      ensures o.Done? ==> Controls(record) && SameWork(old(Past(record)), Past(record))
      ensures o == Done(false) ==> Past(record).failed
      ensures !record.worker.cleanupRequired
      ensures PlanMatchesInventory(record.worker.targetRecovery, record.evidence.initialPackages, record.request.dnpName)
    {
      hide Testing, Node.Drives, Node.Valid, FindPackage, PersistedEvidence, Reaches, OnScript, StopWith, SameWork;
      ghost var before := record.Memory();
      var installed := FindPackage(record.evidence.initialPackages, record.request.dnpName).Some?;
      record.worker := record.worker.(targetRecovery := if installed then RestoreLatest else Remove);
      PlanningKeepsTesting(Past(record), Stored(record), before, record.Memory());
      o := Save(record, Point.SavePlan);
    }

    /** Brings the target to the baseline, unless the very build is installed already. */
    method InstallBaseline(record: RunRecord) returns (o: Attempt<Result<Preview, Failure>>)
      requires Controls(record) && Planned(record) && Follows(Approach(record.Memory(), ToBaselinePreview))
      modifies node.Objects(), record`phase, record`phaseHistory, record`worker, record`errors, this`cleanupAuthorized
      ensures node.Valid() && Scripted()
      ensures o.Done? && o.value.Ok? ==> Follows(Approach(record.Memory(), ToStabilization(Baseline, o.value.value)))
      ensures o.Done? && o.value.Err? ==> Follows(StopWith(record.Memory(), o.value.error))
      ensures o.Done? ==> Controls(record) && Planned(record)
      ensures o.Done? && o.value.Ok? ==> BaselineApplied(old(Past(record)), Past(record), record.errors)
      ensures o.Done? && o.value.Err? ==> Explains(o.value.error, Past(record))
    {
      hide Controls, Node.Valid, SafePlan, BypassRecorded, InstalledVersionMatches, FindPackage, Reaches, OnScript, StopWith;
      hide SameWork, BaselineApplied;
      var previewed :- PreviewBaseline(record);
      if previewed.Err? {
        return Done(Err(previewed.error));
      }
      var preview, reuse := previewed.value.0, previewed.value.1;
      ghost var boundary := Past(record);
      SameWorkAppliesNothing(old(Past(record)), boundary, record.errors);
      if reuse {
        return Done(Ok(preview));
      }
      var stopped :- ApplyBaseline(record, preview);
      if stopped.Some? {
        return Done(Err(stopped.value));
      }
      BaselineAppliedAfterSameWork(old(Past(record)), boundary, Past(record), record.errors);
      o := Done(Ok(preview));
    }

    /** The baseline preview, and whether the installed target is the previewed build. */
    method PreviewBaseline(record: RunRecord) returns (o: Attempt<Result<(Preview, bool), Failure>>)
      requires Controls(record) && Follows(Approach(record.Memory(), ToBaselinePreview))
      modifies node.Objects(), record`phase, record`phaseHistory
      ensures node.Valid() && Scripted()
      ensures o.Done? && o.value.Ok? ==>
                Follows(Cross(record.Memory(), ToBaselineInstall(o.value.value.0, o.value.value.1)))
      ensures o.Done? && o.value.Err? ==> Follows(StopWith(record.Memory(), o.value.error))
      ensures o.Done? ==> Controls(record) && SameWork(old(Past(record)), Past(record))
      ensures o.Done? && o.value.Ok? ==>
                && Stored(record) == record.Snapshot() && record.phase == ExecutionPhase.BaselineInstall
                && Past(record).control.cleared == Some(record.phase)
                && (o.value.value.1 ==> InstalledVersionMatches(record.Memory(), o.value.value.0))
      ensures o.Done? && o.value.Err? ==> Explains(o.value.error, Past(record))
    {
      hide Controls, Node.Valid, FindPackage, SameWork, Explains, Reaches, OnScript, StopWith, Cross;
      OperationIsNotControl();
      var preview :- PreviewIn(record, ToBaselinePreview, BaselinePreview, record.request.baselineRef, BaselineUnavailable);
      if preview.Err? {
        return Done(Err(preview.error));
      }
      ghost var previewed := Past(record);
      var reuse := false;
      if InstalledVersionMatches(record.Memory(), preview.value) {
        reuse := InstalledOriginMatches(record, preview.value);
      }
      var stopped :- PhaseFailure(record, ToBaselineInstall(preview.value, reuse), ExecutionPhase.BaselineInstall);
      SameWorkTwice(old(Past(record)), previewed, Past(record));
      o := Done(if stopped.Some? then Err(stopped.value) else Ok((preview.value, reuse)));
    }

    /** A preview in its own phase. */
    method PreviewIn(record: RunRecord, ghost b: Boundary, phase: ExecutionPhase, reference: Option<string>, reason: ReasonCode)
      returns (o: Attempt<Result<Preview, Failure>>)
      requires Controls(record) && Operational(reason) && PhaseOf(b) == phase && Follows(Approach(record.Memory(), b))
      requires || (b == ToBaselinePreview && reference == record.request.baselineRef && reason == BaselineUnavailable)
               || (b == ToCandidatePreview && reference == Some(record.request.candidateRef) && reason == CandidateInstallFailed)
      modifies node.Objects(), record`phase, record`phaseHistory
      ensures node.Valid() && Scripted()
      ensures record.Memory() == Phased(old(record.Memory()), phase)
      ensures o.Done? && o.value.Ok? ==>
                Follows(if b.ToBaselinePreview? then AfterBaselinePreview(record.Memory(), Ok(o.value.value))
                        else AfterCandidatePreview(record.Memory(), Ok(o.value.value)))
      ensures o.Done? && o.value.Err? ==> Follows(StopWith(record.Memory(), o.value.error))
      ensures o.Done? ==> Controls(record) && SameWork(old(Past(record)), Past(record))
      ensures o.Done? && o.value.Err? ==> Explains(o.value.error, Past(record))
    {
      hide Controls, Node.Valid, PackageFailure, SameWork, Explains, Operational, Reaches, OnScript, StopWith, InstalledVersionMatches;
      var stopped :- PhaseFailure(record, b, phase);
      if stopped.Some? {
        return Done(Err(stopped.value));
      }
      var preview := AskPreview(record, if b.ToBaselinePreview? then Point.PreviewBaseline else Point.PreviewCandidate, reference);
      if preview.Err? {
        PackageFailureIsOperational(preview.error, reason);
        OperationalExplains(PackageFailure(preview.error, reason), Past(record));
        return Done(Err(PackageFailure(preview.error, reason)));
      }
      o := Done(Ok(preview.value));
    }

    method AskPreview(record: RunRecord, ghost p: Point, reference: Option<string>) returns (preview: Result<Preview, PackageError>)
      requires Controls(record) && Follows(At(p, record.Memory()))
      requires || (p == Point.PreviewBaseline && reference == record.request.baselineRef)
               || (p == Point.PreviewCandidate && reference == Some(record.request.candidateRef))
      modifies node`calls
      ensures node.Valid() && Controls(record) && Scripted()
      ensures Follows(if p == Point.PreviewBaseline then AfterBaselinePreview(record.Memory(), preview)
                      else AfterCandidatePreview(record.Memory(), preview))
      ensures Past(record) == old(Past(record))
    {
      hide Testing, Invariant, Legal, After, Reaches, OnScript, StopWith, InstalledVersionMatches;
      preview := node.PreviewInstall(reference);
      AskedReaches(old(node.calls), mark, config, p, record.Memory(), Previewing(reference, preview));
    }

    /** Unreadable details count as no match. */
    method InstalledOriginMatches(record: RunRecord, preview: Preview) returns (matches: bool)
      requires Controls(record) && Follows(At(InspectInstalled(preview), record.Memory()))
      modifies node`calls
      ensures node.Valid() && Controls(record) && Scripted()
      ensures Follows(Approach(record.Memory(), ToBaselineInstall(preview, matches)))
      ensures Past(record) == old(Past(record)) && Stored(record) == old(Stored(record))
    {
      hide Testing, Invariant, Legal, After, Reaches, OnScript, Evidence.SameInstallOrigin;
      var details := node.GetPackageDetails();
      AskedReaches(old(node.calls), mark, config, InspectInstalled(preview), record.Memory(), Detailing(details));
      matches := details.Ok? && Evidence.SameInstallOrigin(preview.resolvedRef, details.value.origin);
    }

    method ApplyBaseline(record: RunRecord, preview: Preview) returns (o: Attempt<Option<Failure>>)
      requires Controls(record) && Planned(record) && Stored(record) == record.Snapshot()
      requires record.phase == ExecutionPhase.BaselineInstall && Past(record).control.cleared == Some(ExecutionPhase.BaselineInstall)
      requires Follows(Authorize(record.Memory(), ToBaselineInstall(preview, false)))
      modifies node.Objects(), record`worker, record`errors, this`cleanupAuthorized
      ensures node.Valid() && Scripted()
      ensures o.Done? ==> Follows(Onward(record.Memory(), o.value, Approach(record.Memory(), ToStabilization(Baseline, preview))))
      ensures o.Done? ==> Controls(record) && Planned(record)
      ensures o == Done(None) ==> BaselineApplied(old(Past(record)), Past(record), record.errors)
      ensures o.Done? && o.value.Some? ==> Explains(o.value.value, Past(record))
    {
      hide Controls, Node.Valid, SafePlan, BypassRecorded, Reaches, OnScript, StopWith, Authorize, FindPackage, Approach;
      var stopped :- AuthorizeCleanup(record, ToBaselineInstall(preview, false));
      if stopped.Some? {
        return Done(stopped);
      }
      o := ReplaceWithBaseline(record, preview);
    }

    method ReplaceWithBaseline(record: RunRecord, ghost preview: Preview) returns (o: Attempt<Option<Failure>>)
      requires Controls(record) && Stored(record).worker.cleanupRequired
      requires Stored(record).phase == ExecutionPhase.BaselineInstall
      requires Past(record).control.cleared == Some(ExecutionPhase.BaselineInstall)
      requires Follows(ToMutation(record.Memory(), ToBaselineInstall(preview, false)))
      modifies node.Objects(), record`errors
      ensures node.Valid() && Scripted()
      ensures o.Done? ==> Follows(Onward(record.Memory(), o.value, Approach(record.Memory(), ToStabilization(Baseline, preview))))
      ensures o.Done? ==> Controls(record)
      ensures o == Done(None) ==> BaselineApplied(old(Past(record)), Past(record), record.errors)
      ensures o.Done? && o.value.Some? ==> Explains(o.value.value, Past(record))
    {
      hide Controls, Node.Valid, SafePlan, BypassRecorded, Reaches, OnScript, StopWith, FindPackage, Approach;
      if FindPackage(record.evidence.initialPackages, record.request.dnpName).Some? {
        var removed :- Mutate(record, RemoveInstalled(preview), RemovePackage(false));
        if removed.Err? && !removed.error.kind.PackageNotFound? {
          return Done(Some(InfrastructureFailure(BaselineInstallFailed)));
        }
      }
      o := InstallOrBypass(record, preview);
    }

    method InstallOrBypass(record: RunRecord, ghost preview: Preview) returns (o: Attempt<Option<Failure>>)
      requires Controls(record) && Stored(record).worker.cleanupRequired
      requires Stored(record).phase == ExecutionPhase.BaselineInstall
      requires Past(record).control.cleared == Some(ExecutionPhase.BaselineInstall)
      requires Follows(At(Point.InstallBaseline(preview), record.Memory()))
      modifies node.Objects(), record`errors
      ensures node.Valid() && Scripted()
      ensures o.Done? ==> Follows(Onward(record.Memory(), o.value, Approach(record.Memory(), ToStabilization(Baseline, preview))))
      ensures o.Done? ==> Controls(record)
      ensures o == Done(None) ==> BaselineApplied(old(Past(record)), Past(record), record.errors)
      ensures o.Done? && o.value.Some? ==> Explains(o.value.value, Past(record))
    {
      hide Controls, Node.Valid, SafePlan, BypassRecorded, Reaches, OnScript, StopWith, Approach;
      var applied :- Mutate(record, Point.InstallBaseline(preview), InstallPackage(record.request.baselineRef));
      if applied.Err? && applied.error.signatureText {
        applied :- Mutate(record, BypassSignature(preview), InstallBypassingSignature(record.request.baselineRef));
        if applied.Ok? {
          var saved :- RecordBypass(record, preview);
          if !saved {
            return Done(Some(PERSISTENCE_FAILURE));
          }
        }
      }
      if applied.Ok? {
        return Done(None);
      }
      o := Done(Some(BaselineFailure(applied.error)));
    }

    method RecordBypass(record: RunRecord, ghost preview: Preview) returns (o: Attempt<bool>)
      requires Controls(record) && Follows(At(SaveBypass(preview), Bypassing(record.Memory())))
      modifies node.Objects(), record`errors
      ensures node.Valid() && Scripted()
      ensures o.Done? ==> Follows(if o.value then Approach(record.Memory(), ToStabilization(Baseline, preview))
                                  else StopWith(record.Memory(), PERSISTENCE_FAILURE))
      ensures o.Done? ==> Controls(record) && SameWork(old(Past(record)), Past(record)) && BypassRecorded(record.errors)
      ensures o == Done(false) ==> Past(record).failed
    {
      hide Testing, Node.Drives, Node.Valid, Reaches, OnScript, StopWith, SameWork;
      ghost var before := record.Memory();
      record.errors := record.errors + [RunError(BaselineSignatureInvalid, ExecutionPhase.BaselineInstall)];
      EditKeepsTesting(Past(record), Stored(record), before, record.Memory());
      assert record.errors[|record.errors| - 1].code == BaselineSignatureInvalid;
      o := Save(record, SaveBypass(preview));
    }

    // -------------------------------------------------------------- testing one side

    /**
     * A side is kept in the evidence as what was found of it, and it goes on to be judged exactly if that is the
     * build its preview announced; otherwise the run stops, blaming the installation and not the package.
     */
    static ghost predicate Inspected(before: RunEvidence, after: RunEvidence, side: Side, preview: Preview, stopped: Option<Failure>) {
      || (after == before && stopped.Some?)
      || (&& (if side.Baseline? then after == before.(baseline := after.baseline) else after == before.(candidate := after.candidate))
          && IsCaptureOf(Kept(after, side), preview)
          && (if stopped.None? then Comparisons.IsPreviewedBuild(preview, Kept(after, side).value.details.value)
              else
                || stopped.value == Comparisons.Failure(InfrastructureError, PersistenceFailed)
                || (&& !Comparisons.IsPreviewedBuild(preview, Kept(after, side).value.details.value)
                    && stopped.value == Comparisons.Failure(InfrastructureError, if side.Baseline? then BaselineInstallFailed else CandidateInstallFailed))))
    }

    static predicate IsCaptureOf(kept: Option<CaptureEvidence>, preview: Preview) {
      kept.Some? && kept.value.preview == Some(preview) && kept.value.details.Some?
    }

    static lemma NothingIsInspected(evidence: RunEvidence, side: Side, preview: Preview, failure: Failure)
      ensures Inspected(evidence, evidence, side, preview, Some(failure))
    {
    }

    static lemma CaptureIsInspected(before: RunEvidence, side: Side, capture: CaptureEvidence, preview: Preview)
      requires IsCaptureOf(Some(capture), preview)
      ensures Inspected(before, WithCapture(before, side, capture), side, preview, Some(PERSISTENCE_FAILURE))
      ensures Inspected(before, WithCapture(before, side, capture), side, preview,
                        if Comparisons.AppliedAsPreviewed(capture) then None else Some(InfrastructureFailure(MismatchReason(side))))
    {
      hide Comparisons.AppliedAsPreviewed, Comparisons.IsPreviewedBuild;
      Comparisons.AppliedIsPreviewedBuild(capture);
    }

    /** Lets one side settle, captures it, and checks that it is what its preview promised. */
    method TestSide(record: RunRecord, side: Side, preview: Preview) returns (o: Attempt<Option<Failure>>)
      requires Controls(record) && Configured(config) && Follows(Approach(record.Memory(), ToStabilization(side, preview)))
      requires if side.Baseline? then Past(record).execution.updates == 0 else Past(record).execution.updated
      modifies node.Objects(), record`phase, record`phaseHistory, record`evidence
      ensures node.Valid() && Scripted()
      ensures o.Done? ==>
                Follows(Onward(record.Memory(), o.value, Approach(record.Memory(), if side.Baseline? then ToCandidatePreview else ToAnalysis)))
      ensures o.Done? ==> Controls(record) && record.evidence.initialPackages == old(record.evidence.initialPackages)
      ensures o == Done(None) ==> SideTested(old(Past(record)), Past(record), old(record.evidence), record.evidence, side)
      ensures o.Done? ==> Inspected(old(record.evidence), record.evidence, side, preview, o.value)
      ensures o.Done? && o.value.Some? ==> Explains(o.value.value, Past(record))
    {
      hide Controls, Node.Valid, Configured, Stabilization.StableWindow, SameWork, SideTested, Reaches, OnScript, StopWith, Inspected;
      var stabilized :- StabilizeSide(record, side, preview);
      if stabilized.Err? {
        NothingIsInspected(record.evidence, side, preview, stabilized.error);
        return Done(Some(stabilized.error));
      }
      ghost var boundary := Past(record);
      SameWorkKeepsExecution(old(Past(record)), boundary);
      o := CaptureSide(record, side, preview, stabilized.value);
      if o == Done(None) {
        SideTestedAfterSameWork(old(Past(record)), boundary, Past(record), old(record.evidence), record.evidence, side);
      }
    }

    /** The hard check between its two phases; a signal raised meanwhile stops the run. */
    method StabilizeSide(record: RunRecord, side: Side, ghost preview: Preview)
      returns (o: Attempt<Result<Stabilization.StabilizationResult, Failure>>)
      requires Controls(record) && Configured(config) && Follows(Approach(record.Memory(), ToStabilization(side, preview)))
      modifies node.Objects(), record`phase, record`phaseHistory
      ensures node.Valid() && Scripted()
      ensures o.Done? && o.value.Ok? ==> Follows(At(ReadDetails(side, preview, o.value.value), record.Memory()))
      ensures o.Done? && o.value.Err? ==> Follows(StopWith(record.Memory(), o.value.error))
      ensures o.Done? ==> Controls(record) && SameWork(old(Past(record)), Past(record))
      ensures o.Done? && o.value.Ok? && o.value.value.passed ==> Stabilization.StableWindow(o.value.value, REQUIRED_SAMPLES)
      ensures o.Done? && o.value.Err? ==> Explains(o.value.error, Past(record))
    {
      hide Controls, Node.Valid, Configured, Stabilization.StableWindow, SameWork, Reaches, OnScript, StopWith, Explains;
      var stopped :- PhaseFailure(record, ToStabilization(side, preview), if side.Baseline? then BaselineStabilization else CandidateStabilization);
      if stopped.Some? {
        return Done(Err(stopped.value));
      }
      ghost var stabilizing := Past(record);
      ghost var ended;
      var stabilization;
      stabilization, ended := MeasureTarget(record, side, preview);
      SameWorkTwice(old(Past(record)), stabilizing, Past(record));
      ghost var measured := Past(record);
      stopped :- EnterCapture(record, side, preview, stabilization, ended);
      SameWorkTwice(old(Past(record)), measured, Past(record));
      o := Done(if stopped.Some? then Err(stopped.value) else Ok(stabilization));
    }

    /** The signal is read again before the capture phase begins. */
    method EnterCapture(record: RunRecord, side: Side, ghost preview: Preview, ghost stabilization: Stabilization.StabilizationResult,
                        ghost ended: bool)
      returns (o: Attempt<Option<Failure>>)
      requires Controls(record) && Follows(At(ReadSignalAfter(side, preview, stabilization, ended), record.Memory()))
      requires ended ==> !node.progress.Control().Continue?
      modifies node.Objects(), record`phase, record`phaseHistory
      ensures node.Valid() && Scripted()
      ensures o.Done? ==> Follows(Onward(record.Memory(), o.value, At(ReadDetails(side, preview, stabilization), record.Memory())))
      ensures o.Done? ==> Controls(record) && SameWork(old(Past(record)), Past(record))
      ensures o.Done? && o.value.Some? ==> Explains(o.value.value, Past(record))
    {
      hide Controls, Node.Valid, SameWork, Reaches, OnScript, StopWith, Explains;
      ghost var next := ToCapture(side, preview, stabilization);
      var stopped :- CheckControl(record, ReadSignalAfter(side, preview, stabilization, ended), Approach(record.Memory(), next));
      if stopped.Some? {
        return Done(stopped);
      }
      ghost var checked := Past(record);
      o := PhaseFailure(record, next, if side.Baseline? then BaselineCapture else CandidateCapture);
      if o.Done? {
        SameWorkTwice(old(Past(record)), checked, Past(record));
      }
    }

    method MeasureTarget(record: RunRecord, ghost side: Side, ghost preview: Preview)
      returns (result: Stabilization.StabilizationResult, ghost stopped: bool)
      requires Controls(record) && Configured(config) && Follows(At(Point.Stabilize(side, preview), record.Memory()))
      modifies node.Objects()
      ensures node.Valid() && Controls(record) && Scripted()
      ensures Follows(At(ReadSignalAfter(side, preview, result, stopped), record.Memory()))
      ensures stopped ==> !node.progress.Control().Continue?
      ensures result.passed ==> Stabilization.StableWindow(result, REQUIRED_SAMPLES)
      ensures SameWork(old(Past(record)), Past(record))
    {
      hide SaveAllowed, Invariant, Legal, After, Reaches, OnScript, Stabilization.Reports, Stabilization.PassesAt, Stabilization.StableWindow;
      hide Stabilization.NoEarlierPass, Stabilization.WindowIsOver, Measured, Untouched, SameWork;
      var seen, ended;
      result, seen, ended := node.StabilizeTarget(record.request.runId, config.stabilization);
      stopped := ended;
      WaitKeepsTesting(old(node.now), node.now, record.request.runId, record.Snapshot());
      MeasuredIsEvidence(result, seen);
      AskedReaches(old(node.calls), mark, config, Point.Stabilize(side, preview), record.Memory(), Measuring(seen, stopped));
    }

    method CaptureSide(record: RunRecord, side: Side, preview: Preview, stabilization: Stabilization.StabilizationResult)
      returns (o: Attempt<Option<Failure>>)
      requires Controls(record) && Follows(At(ReadDetails(side, preview, stabilization), record.Memory()))
      requires stabilization.passed ==> Stabilization.StableWindow(stabilization, REQUIRED_SAMPLES)
      requires if side.Baseline? then Past(record).execution.updates == 0 else Past(record).execution.updated
      modifies node.Objects(), record`evidence
      ensures node.Valid() && Scripted()
      ensures o.Done? ==>
                Follows(Onward(record.Memory(), o.value, Approach(record.Memory(), if side.Baseline? then ToCandidatePreview else ToAnalysis)))
      ensures o.Done? ==> Controls(record) && record.evidence.initialPackages == old(record.evidence.initialPackages)
      ensures o == Done(None) ==> SideTested(old(Past(record)), Past(record), old(record.evidence), record.evidence, side)
      ensures o.Done? ==> Inspected(old(record.evidence), record.evidence, side, preview, o.value)
      ensures o.Done? && o.value.Some? ==> Explains(o.value.value, Past(record))
    {
      hide Controls, Node.Valid, PackageFailure, Comparisons.AppliedAsPreviewed, SideTested, Stabilization.StableWindow, Inspected;
      hide Reaches, OnScript, StopWith;
      var details := AskDetails(record, side, preview, stabilization);
      if details.Err? {
        OperationIsNotControl();
        PackageFailureIsOperational(details.error, UnavailableReason(side));
        NothingIsInspected(record.evidence, side, preview, PackageFailure(details.error, UnavailableReason(side)));
        return Done(Some(PackageFailure(details.error, UnavailableReason(side))));
      }
      var logs := AskLogs(record, side, preview, stabilization, details.value);
      var capture := CaptureEvidence(Some(preview), Some(details.value), stabilization, logs.Ok?);
      var applied := Comparisons.AppliedAsPreviewed(capture);
      CaptureIsInspected(record.evidence, side, capture, preview);
      var saved :- KeepCapture(record, side, capture);
      if !saved {
        return Done(Some(PERSISTENCE_FAILURE));
      }
      if applied {
        CaptureIsTested(old(Past(record)), Past(record), old(record.evidence), record.evidence, side, capture);
      }
      o := Done(if applied then None else Some(InfrastructureFailure(MismatchReason(side))));
    }

    method AskDetails(record: RunRecord, side: Side, preview: Preview, stabilization: Stabilization.StabilizationResult)
      returns (details: Result<PackageDetails, PackageError>)
      requires Controls(record) && Follows(At(ReadDetails(side, preview, stabilization), record.Memory()))
      modifies node`calls
      ensures node.Valid() && Controls(record) && Scripted()
      ensures Follows(AfterDetails(record.Memory(), side, preview, stabilization, details))
      ensures Past(record) == old(Past(record))
    {
      hide Testing, Invariant, Legal, After, Reaches, OnScript, StopWith;
      details := node.GetPackageDetails();
      AskedReaches(old(node.calls), mark, config, ReadDetails(side, preview, stabilization), record.Memory(), Detailing(details));
    }

    method AskLogs(record: RunRecord, side: Side, preview: Preview, stabilization: Stabilization.StabilizationResult, details: PackageDetails)
      returns (logs: Result<(), PackageError>)
      requires Controls(record) && Follows(At(ReadLogs(side, preview, stabilization, details), record.Memory()))
      modifies node`calls
      ensures node.Valid() && Controls(record) && Scripted()
      ensures Follows(At(SaveCapture(side), Capturing(record.Memory(), side, preview, stabilization, details, logs)))
      ensures Past(record) == old(Past(record))
    {
      hide Testing, Invariant, Legal, After, Reaches, OnScript, Capturing;
      logs := node.GetPackageLogs();
      AskedReaches(old(node.calls), mark, config, ReadLogs(side, preview, stabilization, details), record.Memory(), Logging(logs));
    }

    /** Puts the capture into the evidence and persists it. */
    method KeepCapture(record: RunRecord, side: Side, capture: CaptureEvidence) returns (o: Attempt<bool>)
      requires Controls(record) && PassMeansStable(capture)
      requires if side.Baseline? then Past(record).execution.updates == 0 else Past(record).execution.updated
      requires Follows(At(SaveCapture(side), record.Memory().(evidence := WithCapture(record.evidence, side, capture))))
      modifies node.Objects(), record`evidence
      ensures node.Valid() && Scripted()
      ensures o.Done? ==> Follows(if o.value then AfterCapture(record.Memory(), side) else StopWith(record.Memory(), PERSISTENCE_FAILURE))
      ensures o.Done? ==> Controls(record) && record.evidence == WithCapture(old(record.evidence), side, capture)
      ensures o == Done(false) ==> Past(record).failed
      ensures o.Done? ==> Past(record).execution == old(Past(record)).execution
      ensures o.Done? ==> Seen(Past(record), side) == Some(capture) && Seen(Past(record), Other(side)) == Seen(old(Past(record)), Other(side))
    {
      hide Testing, Node.Drives, Node.Valid, PassMeansStable, PersistedEvidence, Reaches, OnScript, StopWith, Comparisons.AppliedAsPreviewed;
      NoteCapture(record, side, capture);
      EditKeepsTesting(Past(record), Stored(record), record.Memory(), record.Memory().(evidence := WithCapture(record.evidence, side, capture)));
      record.evidence := WithCapture(record.evidence, side, capture);
      o := Save(record, SaveCapture(side));
    }

    ghost method NoteCapture(record: RunRecord, side: Side, capture: CaptureEvidence)
      requires Controls(record) && PassMeansStable(capture)
      requires if side.Baseline? then Past(record).execution.updates == 0 else Past(record).execution.updated
      modifies node`trace, node`now
      ensures Controls(record)
      ensures Past(record).execution == old(Past(record)).execution
      ensures Seen(Past(record), side) == Some(capture) && Seen(Past(record), Other(side)) == Seen(old(Past(record)), Other(side))
    {
      hide Stepped, Invariant, Legal, After, PassMeansStable, PersistedEvidence;
      node.NoteStep(record.request.runId, Captured(side, capture));
      CaptureKeepsTesting(old(node.now), node.now, record.request.runId, record.Snapshot(), side, capture);
    }

    // -------------------------------------------------------------- the algorithm, end to end

    method TestBaseline(record: RunRecord) returns (o: Attempt<Option<Failure>>)
      requires Controls(record) && Planned(record) && Configured(config) && Follows(Approach(record.Memory(), ToBaselinePreview))
      requires !Past(record).execution.bypassed && Past(record).execution.updates == 0
      modifies node.Objects(), this`cleanupAuthorized
      modifies record`phase, record`phaseHistory, record`worker, record`errors, record`evidence
      ensures node.Valid() && Scripted()
      ensures o.Done? ==> Follows(Onward(record.Memory(), o.value, Approach(record.Memory(), ToCandidatePreview)))
      ensures o.Done? ==> Controls(record) && Planned(record)
      ensures o == Done(None) ==> BaselineTested(Past(record), record.evidence, record.errors)
      ensures o.Done? && o.value.Some? ==> Explains(o.value.value, Past(record))
    {
      hide Controls, Node.Valid, Configured, BypassRecorded, SideIn, SafePlan, Reaches, OnScript, StopWith;
      var preview :- InstallBaseline(record);
      if preview.Err? {
        return Done(Some(preview.error));
      }
      o := TestSide(record, Baseline, preview.value);
    }

    method TestCandidate(record: RunRecord) returns (o: Attempt<Option<Failure>>)
      requires Controls(record) && Planned(record) && Configured(config) && Follows(Approach(record.Memory(), ToCandidatePreview))
      requires BaselineTested(Past(record), record.evidence, record.errors)
      modifies node.Objects(), this`cleanupAuthorized
      modifies record`phase, record`phaseHistory, record`worker, record`evidence
      ensures node.Valid() && Scripted()
      ensures o.Done? ==> Follows(Onward(record.Memory(), o.value, Approach(record.Memory(), ToAnalysis)))
      ensures o.Done? ==> Controls(record) && Planned(record)
      ensures o == Done(None) ==> BothTested(Past(record), record.evidence, record.errors) && cleanupAuthorized
      ensures o.Done? && o.value.Some? ==> Explains(o.value.value, Past(record))
    {
      hide Controls, Node.Valid, Configured, SafePlan, BaselineTested, BothTested, SideTested, Reaches, OnScript, StopWith;
      NoUpdateYet(Past(record), record.evidence, record.errors);
      var preview :- InstallCandidate(record);
      if preview.Err? {
        return Done(Some(preview.error));
      }
      ghost var updated := Past(record);
      o := TestSide(record, Candidate, preview.value);
      if o == Done(None) {
        BothSidesTested(old(Past(record)), updated, Past(record), old(record.evidence), record.evidence, record.errors);
      }
    }

    /** The candidate is always applied as an update of the tested baseline. */
    method InstallCandidate(record: RunRecord) returns (o: Attempt<Result<Preview, Failure>>)
      requires Controls(record) && Planned(record) && Past(record).execution.updates == 0
      requires Follows(Approach(record.Memory(), ToCandidatePreview))
      modifies node.Objects(), record`phase, record`phaseHistory, record`worker, this`cleanupAuthorized
      ensures node.Valid() && Scripted()
      ensures o.Done? && o.value.Ok? ==> Follows(Approach(record.Memory(), ToStabilization(Candidate, o.value.value)))
      ensures o.Done? && o.value.Err? ==> Follows(StopWith(record.Memory(), o.value.error))
      ensures o.Done? ==> Controls(record) && Planned(record)
      ensures o.Done? && o.value.Ok? ==> CandidateApplied(old(Past(record)), Past(record)) && cleanupAuthorized
      ensures o.Done? && o.value.Err? ==> Explains(o.value.error, Past(record))
    {
      hide Controls, Node.Valid, SafePlan, CandidateApplied, SameWork, Reaches, OnScript, StopWith, Authorize;
      var preview :- PreviewCandidate(record);
      if preview.Err? {
        return Done(preview);
      }
      ghost var boundary := Past(record);
      SameWorkKeepsExecution(old(Past(record)), boundary);
      var stopped :- ApplyCandidate(record, preview.value);
      if stopped.Some? {
        return Done(Err(stopped.value));
      }
      AppliedAfterSameWork(old(Past(record)), boundary, Past(record));
      o := Done(preview);
    }

    method PreviewCandidate(record: RunRecord) returns (o: Attempt<Result<Preview, Failure>>)
      requires Controls(record) && Follows(Approach(record.Memory(), ToCandidatePreview))
      modifies node.Objects(), record`phase, record`phaseHistory
      ensures node.Valid() && Scripted()
      ensures o.Done? && o.value.Ok? ==> Follows(Authorize(record.Memory(), ToCandidateInstall(o.value.value)))
      ensures o.Done? && o.value.Err? ==> Follows(StopWith(record.Memory(), o.value.error))
      ensures o.Done? ==> Controls(record) && SameWork(old(Past(record)), Past(record))
      ensures o.Done? && o.value.Ok? ==>
                && Stored(record) == record.Snapshot() && record.phase == CandidateInstall
                && Past(record).control.cleared == Some(CandidateInstall)
      ensures o.Done? && o.value.Err? ==> Explains(o.value.error, Past(record))
    {
      hide Controls, Node.Valid, SameWork, Explains, Reaches, OnScript, StopWith, Authorize;
      OperationIsNotControl();
      var preview :- PreviewIn(record, ToCandidatePreview, CandidatePreview, Some(record.request.candidateRef), CandidateInstallFailed);
      if preview.Err? {
        return Done(preview);
      }
      ghost var previewed := Past(record);
      var stopped :- PhaseFailure(record, ToCandidateInstall(preview.value), CandidateInstall);
      SameWorkTwice(old(Past(record)), previewed, Past(record));
      o := Done(if stopped.Some? then Err(stopped.value) else preview);
    }

    method ApplyCandidate(record: RunRecord, ghost preview: Preview) returns (o: Attempt<Option<Failure>>)
      requires Controls(record) && Planned(record) && Past(record).execution.updates == 0 && Stored(record) == record.Snapshot()
      requires record.phase == CandidateInstall && Past(record).control.cleared == Some(CandidateInstall)
      requires Follows(Authorize(record.Memory(), ToCandidateInstall(preview)))
      modifies node.Objects(), record`worker, this`cleanupAuthorized
      ensures node.Valid() && Scripted()
      ensures o.Done? ==> Follows(Onward(record.Memory(), o.value, Approach(record.Memory(), ToStabilization(Candidate, preview))))
      ensures o.Done? ==> Controls(record) && Planned(record)
      ensures o == Done(None) ==> CandidateApplied(old(Past(record)), Past(record)) && cleanupAuthorized
      ensures o.Done? && o.value.Some? ==> Explains(o.value.value, Past(record))
    {
      hide Controls, Node.Valid, SafePlan, Reaches, OnScript, StopWith, Authorize, Approach, SameWork, CandidateApplied;
      hide CandidateFailure, Explains;
      var stopped :- AuthorizeCleanup(record, ToCandidateInstall(preview));
      if stopped.Some? {
        return Done(stopped);
      }
      ghost var authorized := Past(record);
      SameWorkKeepsExecution(old(Past(record)), authorized);
      var updated :- Update(record, record.request.candidateRef, preview);
      if updated.Ok? {
        AppliedAfterSameWork(old(Past(record)), authorized, Past(record));
      } else {
        CandidateFailureExplains(updated.error, Past(record));
      }
      o := Done(if updated.Ok? then None else Some(CandidateFailure(updated.error)));
    }

    method Update(record: RunRecord, candidate: string, ghost preview: Preview) returns (o: Attempt<Result<(), PackageError>>)
      requires Controls(record) && Stored(record).worker.cleanupRequired && Past(record).execution.updates == 0
      requires Stored(record).phase == CandidateInstall && Past(record).control.cleared == Some(CandidateInstall)
      requires candidate == record.request.candidateRef && Follows(At(UpdateCandidate(preview), record.Memory()))
      modifies node.Objects()
      ensures node.Valid() && Scripted()
      ensures o.Done? ==> Follows(AfterUpdate(record.Memory(), preview, o.value))
      ensures o.Done? ==> Controls(record) && Stored(record) == old(Stored(record))
      ensures o.Done? && o.value.Ok? ==>
                CandidateApplied(old(Past(record)), Past(record))
    {
      hide Invariant, Legal, After, Stepped, AppliesRequest, SafePlan, PersistedEvidence, Reaches, OnScript, AfterUpdate;
      ReachedIsOnScript(node.calls, mark, config, At(UpdateCandidate(preview), record.Memory()));
      assert AppliesRequest(UpdatePackage(candidate), Stored(record).request) by {
        UpdateAppliesRequest(candidate, Stored(record).request);
      }
      TestingMayMutate(Past(record), Stored(record), record.Snapshot(), UpdatePackage(candidate));
      o := node.Update(record.request.runId, candidate);
      if o.Done? {
        UpdateStepsKeepTesting(old(node.now), node.now, record.request.runId, record.Snapshot(), candidate, o.value.Ok?);
        MutationReaches(old(node.calls), mark, config, UpdateCandidate(preview), record.Memory(), o.value);
      }
    }

    /** The evidence is compared and the analyzer's answer becomes evidence, and nothing else. */
    method Analyze(record: RunRecord) returns (o: Attempt<Option<Failure>>)
      requires Controls(record) && record.evidence.baseline.Some? && record.evidence.candidate.Some?
      requires Follows(Approach(record.Memory(), ToAnalysis))
      modifies node.Objects(), record`phase, record`phaseHistory, record`evidence
      ensures node.Valid() && Scripted()
      ensures o.Done? ==> Follows(Onward(record.Memory(), o.value, WindUp(record.Memory(), None)))
      ensures o.Done? ==> Controls(record) && SameWork(old(Past(record)), Past(record))
      ensures o.Done? ==> record.evidence == old(record.evidence).(comparison := record.evidence.comparison, logAnalysis := record.evidence.logAnalysis)
      ensures o == Done(None) ==> IsCompared(record.evidence)
      ensures o.Done? && o.value.Some? ==> Explains(o.value.value, Past(record))
    {
      hide Controls, Node.Valid, Reaches, OnScript, StopWith, IsCompared, WindUp;
      var stopped :- PhaseFailure(record, ToAnalysis, Analysis);
      if stopped.Some? {
        return Done(stopped);
      }
      var answer := AskAnalyzer(record);
      var saved :- KeepAnalysis(record, answer);
      o := Done(if saved then None else Some(PERSISTENCE_FAILURE));
    }

    method AskAnalyzer(record: RunRecord) returns (answer: Result<LogAnalysis, string>)
      requires Controls(record) && Follows(At(Point.Analyze, record.Memory()))
      modifies node`calls
      ensures node.Valid() && Controls(record) && Scripted()
      ensures Follows(At(SaveAnalysis, Judging(record.Memory(), answer)))
      ensures Past(record) == old(Past(record))
    {
      hide Testing, Invariant, Legal, After, Reaches, OnScript, Judging;
      answer := node.AnalyzeLogs();
      AskedReaches(old(node.calls), mark, config, Point.Analyze, record.Memory(), Analyzing(answer));
    }

    method KeepAnalysis(record: RunRecord, answer: Result<LogAnalysis, string>) returns (o: Attempt<bool>)
      requires Controls(record) && record.evidence.baseline.Some? && record.evidence.candidate.Some?
      requires Follows(At(SaveAnalysis, Judging(record.Memory(), answer)))
      modifies node.Objects(), record`evidence
      ensures node.Valid() && Scripted()
      ensures o.Done? ==> Follows(if o.value then WindUp(record.Memory(), None) else StopWith(record.Memory(), PERSISTENCE_FAILURE))
      ensures o.Done? ==> Controls(record) && SameWork(old(Past(record)), Past(record))
      ensures record.evidence == old(record.evidence).(comparison := record.evidence.comparison, logAnalysis := record.evidence.logAnalysis)
      ensures IsCompared(record.evidence)
      ensures o == Done(false) ==> Past(record).failed
    {
      hide Testing, Node.Drives, Node.Valid, Comparisons.Compare, PersistedEvidence, Reaches, OnScript, StopWith, WindUp, SameWork;
      EditKeepsTesting(Past(record), Stored(record), record.Memory(), Judging(record.Memory(), answer));
      record.evidence := record.evidence.(
      comparison := Some(Comparisons.Compare(record.evidence.baseline.value, record.evidence.candidate.value)),
      logAnalysis := Some(if answer.Ok? then answer.value else Comparisons.AnalysisFailure(answer.error)));
      o := Save(record, SaveAnalysis);
    }

    method RunAlgorithm(record: RunRecord) returns (o: Attempt<Option<Failure>>)
      requires Controls(record) && !record.worker.cleanupRequired && !cleanupAuthorized
      requires Configured(config) && Follows(Approach(record.Memory(), ToPreflight))
      requires !Past(record).execution.bypassed && Past(record).execution.updates == 0
      modifies node.Objects(), this`cleanupAuthorized
      modifies record`phase, record`phaseHistory, record`worker, record`errors, record`evidence
      ensures node.Valid() && Scripted()
      ensures o.Done? ==> Follows(Onward(record.Memory(), o.value, WindUp(record.Memory(), None)))
      ensures o.Done? ==> Controls(record) && cleanupAuthorized == record.worker.cleanupRequired
      ensures o == Done(None) ==> BothTested(Past(record), record.evidence, record.errors) && cleanupAuthorized && IsCompared(record.evidence)
      ensures o.Done? && o.value.Some? ==> Explains(o.value.value, Past(record))
    {
      hide Controls, Node.Valid, Configured, SafePlan, IsCompared, BaselineTested, PassMeansStable, Reaches, OnScript, StopWith;
      hide Comparisons.AppliedAsPreviewed, WindUp, Approach, Explains;
      var stopped :- Preflight(record);
      if stopped.Some? {
        return Done(stopped);
      }
      stopped :- TestBaseline(record);
      if stopped.Some? {
        return Done(stopped);
      }
      stopped :- TestCandidate(record);
      if stopped.Some? {
        return Done(stopped);
      }
      o := Analyze(record);
    }

    // -------------------------------------------------------------- cleanup and result

    ghost predicate Stopped(record: RunRecord)
      reads node, node.Objects(), record
    {
      && node.Valid() && node.Drives(record.request.runId)
      && record.request.runId in node.now.store
      && Undelivered(Past(record), Stored(record))
    }

    ghost predicate Settled(record: RunRecord)
      reads node, node.Objects(), record
    {
      && node.Valid() && node.Drives(record.request.runId)
      && record.request.runId in node.now.store
      && Executing(Past(record), Stored(record), record.Snapshot()) && CleanupSettled(Past(record), record.Snapshot())
    }

    /** Applies the persisted plan and persists what came of it. */
    method ApplyPlan(record: RunRecord, ghost failure: Option<Failure>) returns (o: Attempt<bool>)
      requires Controls(record) && Stored(record) == record.Snapshot() && record.worker.cleanupRequired
      requires Follows(At(Point.CleanUp(CleanupScript.Begun, failure), record.Memory()))
      modifies node.Objects(), record`cleanup, record`evidence
      ensures node.Valid() && Scripted()
      ensures o.Done? ==> Follows(if o.value then ToVerdict(record.Memory(), failure) else Ended(false, record.Memory()))
      ensures o.Done? ==> Stopped(record)
      ensures o == Done(false) ==> Aborted(Past(record), Stored(record))
      ensures o == Done(true) ==> Settled(record) && SameTests(old(Past(record)), Past(record))
      ensures record.evidence == old(record.evidence).(finalPackages := record.evidence.finalPackages)
    {
      hide Testing, Executing, Recoverable, Cleaning, Undelivered, Unfinished, Aborted, CleanupSettled, Idle, Listings;
      hide SaveAllowed, SaveResult, PersistedEvidence, SafePlan, Node.Valid, Reaches, OnScript, ToVerdict, CleanedBy;
      hide CleanupScript.OnScript, Reconciled, ReconciledByScript;
      ghost var start, before := node.now, record.Snapshot();
      StoredIsRecoverable(Past(record), before);
      var reconciled := ReconcileTarget(node, record.request.runId, record.request.dnpName, record.worker.targetRecovery,
                                        record.evidence.initialPackages, config.cleanupTimeout);
      CleanupIsScripted(old(node.calls), record.Memory(), failure);
      if reconciled.Killed? {
        return Killed;
      }
      CleanupReaches(old(node.calls), record.Memory(), failure, reconciled.value.0, reconciled.value.1);
      PersistedKeepsInventory(record.evidence, reconciled.value.1);
      record.cleanup := reconciled.value.0;
      record.evidence := record.evidence.(finalPackages := reconciled.value.1);
      PersistedTwice(record.evidence);
      o := SaveOutcome(record, failure, start, before);
    }

    /** The calls of the cleanup that began after `before` belong to the script of the run. */
    lemma CleanupIsScripted(before: seq<Call>, m: Record, failure: Option<Failure>)
      requires before <= node.calls && Reaches(before, mark, config, At(Point.CleanUp(CleanupScript.Begun, failure), m))
      requires CleanupScript.OnScript(node.calls, |before|, JobOf(config, m))
      ensures Scripted()
    {
      hide CleanupScript.StageOf, StageOf, CleanedBy;
      assert node.calls[mark..] == before[mark..] + node.calls[|before|..];
      CleanupWithinRun(config, before[mark..], node.calls[|before|..], m, failure);
    }

    lemma CleanupReaches(before: seq<Call>, m: Record, failure: Option<Failure>, result: CleanupResult, final: seq<PackageSummary>)
      requires before <= node.calls && Reaches(before, mark, config, At(Point.CleanUp(CleanupScript.Begun, failure), m))
      requires ReconciledByScript(node.calls, |before|, JobOf(config, m), m.evidence.initialPackages, result, final)
      ensures Follows(At(Point.SaveCleanup(failure), m.(cleanup := result, evidence := m.evidence.(finalPackages := final))))
    {
      hide CleanupScript.StageOf, StageOf, CleanupScript.Outcome, CleanupScript.KeepsDeadlines;
      var status, listing :| CleanupScript.Follows(node.calls, |before|, JobOf(config, m), CleanupScript.Over(status, listing))
                             && (result, final) == CleanupScript.Outcome(m.evidence.initialPackages, status, listing);
      assert node.calls[mark..] == before[mark..] + node.calls[|before|..];
      CleanupWithinRun(config, before[mark..], node.calls[|before|..], m, failure);
    }

    /** Persists the outcome of the cleanup. */
    method SaveOutcome(record: RunRecord, ghost failure: Option<Failure>, ghost start: State, ghost before: Record) returns (o: Attempt<bool>)
      requires Restoring(node, record.request.runId, start) && Follows(At(Point.SaveCleanup(failure), record.Memory()))
      requires record.request.runId in start.store && start.store[record.request.runId] == before
      requires Testing(HistoryOf(start, record.request.runId), before, before) && before.worker.cleanupRequired
      requires record.Snapshot() == before.(cleanup := record.cleanup, evidence := before.evidence.(finalPackages := record.evidence.finalPackages))
      requires record.Snapshot().evidence == PersistedEvidence(record.Snapshot().evidence)
      requires Reconciled(Listings(node.now, record.request.runId), before.request.dnpName, before.worker.targetRecovery,
                          before.evidence.initialPackages, record.cleanup, record.evidence.finalPackages)
      modifies node.Objects()
      ensures node.Valid() && Scripted()
      ensures o.Done? ==> Follows(if o.value then ToVerdict(record.Memory(), failure) else Ended(false, record.Memory()))
      ensures o.Done? ==> Stopped(record)
      ensures o == Done(false) ==> Aborted(Past(record), Stored(record))
      ensures o == Done(true) ==> Settled(record) && SameTests(HistoryOf(start, record.request.runId), Past(record))
    {
      hide Testing, Executing, Recoverable, Cleaning, Undelivered, Unfinished, Aborted, CleanupSettled, Idle, Listings;
      hide SaveAllowed, SaveResult, PersistedEvidence, SafePlan, Invariant, Legal, After, Reaches, OnScript, ToVerdict;
      ghost var id, cleaned := record.request.runId, record.Snapshot();
      CleanedMaySave(start, node.now, id, before, cleaned);
      ExecutingIsUndelivered(Past(record), Stored(record), cleaned);
      ReachedIsOnScript(node.calls, mark, config, At(Point.SaveCleanup(failure), record.Memory()));
      o := node.Save(record);
      if o.Done? {
        SaveReaches(old(node.calls), mark, config, Point.SaveCleanup(failure), record.Memory(), o.value);
        SaveKeepsUndelivered(old(node.now), node.now, id, cleaned, o.value);
        if o.value {
          CleanedIsSettled(old(Past(record)), old(Stored(record)), Past(record), cleaned);
        }
      }
    }

    /** Runs cleanup when it was authorized, and knows it was not needed otherwise. */
    method CleanUp(record: RunRecord, ghost failure: Option<Failure>) returns (o: Attempt<bool>)
      requires Controls(record) && cleanupAuthorized == record.worker.cleanupRequired
      requires Follows(WindUp(record.Memory(), failure))
      modifies node.Objects(), record`phase, record`phaseHistory, record`cleanup, record`evidence
      ensures node.Valid() && Scripted()
      ensures o.Done? ==> Follows(if o.value then ToVerdict(record.Memory(), failure) else Ended(false, record.Memory()))
      ensures o.Done? ==> Stopped(record)
      ensures o == Done(false) ==> Aborted(Past(record), Stored(record))
      ensures o == Done(true) ==> Settled(record) && SameTests(old(Past(record)), Past(record))
      ensures record.evidence == old(record.evidence).(finalPackages := record.evidence.finalPackages)
    {
      hide Testing, Executing, Undelivered, Unfinished, Aborted, CleanupSettled, Node.Drives, Node.Valid, Reaches, OnScript, ToVerdict;
      if cleanupAuthorized {
        var saved :- Phase(record, SaveCleanupPhase(failure), Cleanup);
        TestingIsUndelivered(Past(record), Stored(record), record.Snapshot());
        if !saved {
          return Done(false);
        }
        o := ApplyPlan(record, failure);
      } else {
        TestingIsUndelivered(Past(record), Stored(record), record.Snapshot());
        SkippedIsSettled(Past(record), Stored(record), record.Snapshot());
        ReachedIsOnScript(node.calls, mark, config, ToVerdict(Unowed(record.Memory()), failure));
        record.cleanup := CleanupResult(CleanupSkipped, []);
        o := Done(true);
      }
    }

    /** Settles the verdict and puts the result into the record. */
    method Conclude(record: RunRecord, failure: Option<Failure>)
      requires Settled(record)
      requires failure.Some? ==> !failure.value.verdict.Passed?
      requires failure.None? ==>
                 record.worker.cleanupRequired && BothTested(Past(record), record.evidence, record.errors) && IsCompared(record.evidence)
      modifies record`errors, record`status, record`result, record`phase, record`phaseHistory
      ensures record.Memory() == Concluding(old(record.Memory()), failure)
      ensures SaveAllowed(Past(record), Stored(record), record.Snapshot())
      ensures Stopped(record) && Idle(record.worker) && Concluded(record.Snapshot())
      ensures Unfinished(Past(record), Stored(record))
      ensures record.result.Some?
      ensures failure.Some? ==>
                record.result.value.verdict == failure.value.verdict && record.result.value.reasonCode == failure.value.reason
      ensures failure.None? ==>
                Verdicts.Ruling(record.result.value.verdict, record.result.value.reasonCode)
                == Verdicts.RulingOn(old(record.evidence.baseline.value.stabilization.passed), old(record.evidence.candidate.value.stabilization.passed),
                                     old(AnalysisOf(record.evidence).status.Critical?), old(record.cleanup.status), old(BypassRecorded(record.errors)))
    {
      hide Executing, Undelivered, Unfinished, Aborted, CleanupSettled, BothTested, Node.Drives, Node.Valid, SaveAllowed;
      hide Concluded, Idle, IsCompared, Comparisons.FinalVerdict, Comparisons.BuildResult, PersistedEvidence, BypassRecorded;
      hide ComparisonOf, AnalysisOf, Verdicts.RulingOn;
      ghost var m := record.Memory();
      SettledInMemory(Past(record), m);
      ConcludedMaySave(Past(record), Stored(record), m, failure);
      Verdicts.ConclusionRules(m, failure);
      if failure.None? {
        ComparedChecks(m.evidence);
      }
      var comparison, analysis := ComparisonOf(record.evidence), AnalysisOf(record.evidence);
      if Comparisons.CleanupOutcomeFailed(record.cleanup.status) {
        record.errors := record.errors + [RunError(ReasonCode.CleanupFailed, Cleanup)];
      }
      assert record.errors == CleanupErrors(m);
      var verdict := Comparisons.FinalVerdict(failure, comparison, analysis, record.cleanup.status, BypassRecorded(record.errors));
      record.status := Completed;
      assert record.Snapshot() == Persisted(m.(status := Completed, errors := CleanupErrors(m)));
      record.result := Some(Comparisons.BuildResult(record.Snapshot(), comparison, analysis, verdict.0, verdict.1));
      record.Transition(Finished);
    }

    /** Persists the result. */
    method PersistResult(record: RunRecord) returns (o: Attempt<bool>)
      requires Stopped(record) && Idle(record.worker) && Unfinished(Past(record), Stored(record))
      requires SaveAllowed(Past(record), Stored(record), record.Snapshot())
      requires Follows(At(SaveVerdict, record.Memory()))
      modifies node.Objects()
      ensures node.Valid() && Scripted()
      ensures o.Done? ==> Stopped(record) && Follows(Ended(o.value, record.Memory()))
      ensures o == Done(false) ==> Aborted(Past(record), Stored(record))
      ensures o == Done(true) ==> Stored(record) == record.Snapshot() && node.Publishes(Finished, record.worker.cleanupRequired)
    {
      hide Undelivered, Unfinished, Aborted, Node.Valid, SaveAllowed, SaveResult, Idle, Reaches, OnScript;
      ReachedIsOnScript(node.calls, mark, config, At(SaveVerdict, record.Memory()));
      o := node.Save(record);
      if o.Done? {
        SaveReaches(old(node.calls), mark, config, SaveVerdict, record.Memory(), o.value);
        SaveKeepsUndelivered(old(node.now), node.now, record.request.runId, record.Snapshot(), o.value);
        if o.value {
          node.Publish(record.request.runId, Finished, record.worker.cleanupRequired);
        }
      }
    }

    // -------------------------------------------------------------- one run

    /** Marks the run as started and enters the algorithm: once, and never again for this run id. */
    method Enter(record: RunRecord) returns (o: Attempt<bool>)
      requires node.Drives(record.request.runId) && record.request.runId in node.now.store
      requires Admitted(Past(record).observed.listings, record.request.dnpName)
      requires Stored(record) == record.Snapshot() && record.status.Queued? && Startable(Past(record), Stored(record))
      requires Follows(At(SaveStart, record.Memory().(status := Running)))
      modifies node.Objects(), record`status
      ensures node.Valid() && Scripted() && record.status.Running?
      ensures o.Done? ==> Stopped(record)
      ensures o.Done? ==> Follows(if o.value then Approach(record.Memory(), ToPreflight) else Ended(false, record.Memory()))
      ensures o == Done(false) ==> Aborted(Past(record), Stored(record))
      ensures o == Done(true) ==> Controls(record) && Past(record).execution == NO_HISTORY.execution.(entered := 1)
    {
      hide Invariant, Legal, After, SaveAllowed, Testing, PersistedEvidence, SaveResult, Stepped, Reaches, OnScript;
      hide Startable, Undelivered, Unfinished, Aborted, Idle, Admitted, StopWith, Controls, SameWork;
      ghost var before := node.now;
      var id := record.request.runId;
      StoredIsPersisted(node.now, id);
      StartableIsUndelivered(Past(record), Stored(record));
      StartMaySave(Past(record), Stored(record));
      record.Start();
      ReachedIsOnScript(node.calls, mark, config, At(SaveStart, record.Memory()));
      o := node.Save(record);
      if o.Done? {
        SaveReaches(old(node.calls), mark, config, SaveStart, record.Memory(), o.value);
        SaveKeepsUndelivered(before, node.now, id, record.Snapshot(), o.value);
        if o.value {
          StartAlgorithm(record, before);
        }
      }
    }

    method StartAlgorithm(record: RunRecord, ghost before: State)
      requires node.Drives(record.request.runId) && record.request.runId in before.store && record.status.Running?
      requires Startable(HistoryOf(before, record.request.runId), before.store[record.request.runId])
      requires record.Snapshot() == before.store[record.request.runId].(status := Running)
      requires Admitted(HistoryOf(before, record.request.runId).observed.listings, record.request.dnpName)
      requires SaveResult(before, node.now, record.request.runId, record.Snapshot(), true)
      modifies node.Objects()
      ensures Controls(record) && Stopped(record) && Past(record).execution == NO_HISTORY.execution.(entered := 1)
      ensures node.calls == old(node.calls) && node.Publishes(record.phase, record.worker.cleanupRequired)
    {
      hide Invariant, Legal, After, Testing, PersistedEvidence, SaveResult, Stepped, Startable, Undelivered, RunGuard, Admitted;
      ghost var id, saved := record.request.runId, node.now;
      StartableOwesNothing(HistoryOf(before, id), before.store[id]);
      PersistedTwice(record.evidence);
      EnterIsGuarded(before, saved, id, record.Snapshot());
      node.NoteStep(id, AlgorithmEntered);
      StartedIsTesting(before, saved, node.now, id, record.Snapshot());
      TestingIsUndelivered(Past(record), Stored(record), record.Snapshot());
      node.Publish(record.request.runId, record.phase, record.worker.cleanupRequired);
    }

    /** Whatever stopped the algorithm, cleanup runs when it is owed, and then the verdict is settled. */
    method Settle(record: RunRecord, failure: Option<Failure>) returns (o: Attempt<bool>)
      requires Controls(record) && cleanupAuthorized == record.worker.cleanupRequired
      requires Follows(Onward(record.Memory(), failure, WindUp(record.Memory(), None)))
      requires failure.Some? ==> !failure.value.verdict.Passed?
      requires failure.None? ==>
                 cleanupAuthorized && BothTested(Past(record), record.evidence, record.errors) && IsCompared(record.evidence)
      modifies node.Objects(), record
      ensures node.Valid() && Scripted()
      ensures o.Done? ==> record.request == old(record.request) && Stopped(record) && Follows(Ended(o.value, record.Memory()))
      ensures o == Done(false) ==> Aborted(Past(record), Stored(record))
      ensures o == Done(true) ==> Stored(record) == record.Snapshot() && Concluded(Stored(record))
    {
      hide Node.Valid, Node.Drives, Testing, SameTests, BothTested, Undelivered, Unfinished, Aborted, IsCompared;
      hide Executing, CleanupSettled, SaveAllowed, Idle, Reaches, OnScript, ToVerdict, Concluding;
      if failure.Some? {
        NoteFailure(record, failure.value);
      }
      ghost var tested, evidence := Past(record), record.evidence;
      var cleaned :- CleanUp(record, failure);
      if !cleaned {
        return Done(false);
      }
      if failure.None? {
        TestsSurviveCleanup(tested, Past(record), evidence, record.evidence, record.errors);
      }
      o := Judge(record, failure);
    }

    /** Puts the verdict into the record and persists it. */
    method Judge(record: RunRecord, failure: Option<Failure>) returns (o: Attempt<bool>)
      requires Settled(record) && Follows(ToVerdict(record.Memory(), failure))
      requires failure.Some? ==> !failure.value.verdict.Passed?
      requires failure.None? ==>
                 record.worker.cleanupRequired && BothTested(Past(record), record.evidence, record.errors) && IsCompared(record.evidence)
      modifies node.Objects(), record`errors, record`status, record`result, record`phase, record`phaseHistory
      ensures node.Valid() && Scripted()
      ensures o.Done? ==> Stopped(record) && Follows(Ended(o.value, record.Memory()))
      ensures o == Done(true) ==> Stored(record) == record.Snapshot() && Concluded(Stored(record))
      ensures o == Done(false) ==> Aborted(Past(record), Stored(record))
    {
      hide Node.Valid, Node.Drives, BothTested, Undelivered, Unfinished, Aborted, IsCompared, Executing;
      hide CleanupSettled, SaveAllowed, Idle, PersistedEvidence, Concluding, Reaches, OnScript;
      Conclude(record, failure);
      o := PersistResult(record);
    }

    method NoteFailure(record: RunRecord, failure: Failure)
      requires Controls(record) && Follows(StopWith(record.Memory(), failure))
      modifies record`errors
      ensures Controls(record) && Follows(WindUp(record.Memory(), Some(failure)))
    {
      hide Node.Valid, Node.Drives, Testing, Reaches, OnScript, WindUp;
      ghost var before := record.Memory();
      record.errors := record.errors + [RunError(failure.reason, record.phase)];
      EditKeepsTesting(Past(record), Stored(record), before, record.Memory());
    }

    /** Executes a queued run. The result is false when a save failed; only the durable record says how far the run got. */
    method Execute(id: RunId) returns (o: Attempt<bool>)
      requires node.Drives(id) && id in node.now.store && Startable(node.Past(id), node.Stored(id))
      requires Admitted(node.Past(id).observed.listings, node.Stored(id).request.dnpName)
      requires Configured(config) && !cleanupAuthorized
      modifies node.Objects(), this
      ensures node.Valid()
      ensures |old(node.calls)| <= |node.calls| && OnScript(node.calls, |old(node.calls)|, config)
      ensures o.Done? ==> node.Drives(id) && id in node.now.store && Undelivered(node.Past(id), node.Stored(id))
      ensures o.Done? ==> Executes(node.calls[|old(node.calls)|..], config, o.value, node.Stored(id))
      ensures o == Done(true) && old(node.Stored(id)).status.Queued? ==> Concluded(node.Stored(id))
      ensures o == Done(false) ==> Aborted(node.Past(id), node.Stored(id))
    {
      hide Invariant, Legal, After, Startable, Testing, Configured, BothTested, Undelivered, Unfinished, Aborted;
      hide Concluded, Untouched, Idle, PersistedEvidence, Reaches, StageOf, Executes;
      mark := |node.calls|;
      ReachesFrom(node.calls, config);
      ReachedIsOnScript(node.calls, mark, config, Unloaded);
      StartableOwesNothing(node.Past(id), node.Stored(id));
      var loaded :- node.Get(id);
      ReachesOn(old(node.calls), mark, config, Unloaded, node.calls[|node.calls| - 1]);
      if loaded.Err? {
        UnreadableIsAborted(old(node.now), node.now, id);
        ReachedIsOnScript(node.calls, mark, config, Unreadable);
        EndedIsExecuted(node.calls, mark, config, Unreadable, node.Stored(id));
        return Done(false);
      }
      StartableSurvives(old(node.now), node.now, id);
      StoredIsPersisted(node.now, id);
      var record := new RunRecord.Loaded(loaded.value.value);
      if !record.status.Queued? {
        ReachedIsOnScript(node.calls, mark, config, Ended(true, record.Memory()));
        EndedIsExecuted(node.calls, mark, config, Ended(true, record.Memory()), node.Stored(id));
        return Done(true);
      }
      StartableOwesNothing(Past(record), Stored(record));
      o := RunQueued(record);
      if o.Done? {
        EndedIsExecuted(node.calls, mark, config, Ended(o.value, record.Memory()), node.Stored(id));
      }
    }

    method RunQueued(record: RunRecord) returns (o: Attempt<bool>)
      requires node.Drives(record.request.runId) && record.request.runId in node.now.store
      requires Admitted(Past(record).observed.listings, record.request.dnpName)
      requires Stored(record) == record.Snapshot() && record.status.Queued? && Startable(Past(record), Stored(record))
      requires Configured(config) && !cleanupAuthorized && !record.worker.cleanupRequired
      requires Follows(At(SaveStart, record.Memory().(status := Running)))
      modifies node.Objects(), record, this`cleanupAuthorized
      ensures node.Valid() && Scripted()
      ensures o.Done? ==> record.request == old(record.request) && Stopped(record) && Follows(Ended(o.value, record.Memory()))
      ensures o == Done(true) ==> Stored(record) == record.Snapshot() && Concluded(Stored(record))
      ensures o == Done(false) ==> Aborted(Past(record), Stored(record))
    {
      hide Node.Valid, Startable, Testing, Configured, BothTested, Undelivered, Unfinished, Aborted, Concluded;
      hide Idle, SafePlan, PersistedEvidence, Reaches, OnScript, StopWith, WindUp;
      var entered :- Enter(record);
      if !entered {
        return Done(false);
      }
      var failure :- RunAlgorithm(record);
      o := Settle(record, failure);
    }
  }
}
