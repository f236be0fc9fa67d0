/** The control signals of one run (src/worker/progress.rs) and the drain control (src/worker/mod.rs). */
module Progress {
  import opened Model
  import opened Protocol

  datatype RunControl = Continue | CancelRequested | ClaimLostControl

  /** In-memory bridge between the runner and the heartbeat: both flags only ever rise. */
  class WorkerProgress {
    var phase: ExecutionPhase
    var cleanupRequired: bool
    var cancelRequested: bool
    var claimLost: bool

    constructor ()
      ensures phase == QueuedPhase && !cleanupRequired && !cancelRequested && !claimLost
    {
      phase, cleanupRequired, cancelRequested, claimLost := QueuedPhase, false, false, false;
    }

    /** A new run starts with fresh progress; the model reuses one object for all runs. */
    method Reset()
      modifies this
      ensures phase == QueuedPhase && !cleanupRequired && !cancelRequested && !claimLost
    {
      phase, cleanupRequired, cancelRequested, claimLost := QueuedPhase, false, false, false;
    }

    method Publish(phase: ExecutionPhase, cleanupRequired: bool)
      modifies this`phase, this`cleanupRequired
      ensures this.phase == phase && this.cleanupRequired == cleanupRequired
    {
      this.phase, this.cleanupRequired := phase, cleanupRequired;
    }

    method RequestCancellation()
      modifies this`cancelRequested
      ensures cancelRequested
    {
      cancelRequested := true;
    }

    method MarkClaimLost()
      modifies this`claimLost
      ensures claimLost
    {
      claimLost := true;
    }

    /** A lost claim outranks a cancellation. */
    function Control(): (c: RunControl)
      reads this
      ensures c.Continue? <==> !cancelRequested && !claimLost
      ensures c.ClaimLostControl? <==> claimLost
    {
      if claimLost then ClaimLostControl else if cancelRequested then CancelRequested else Continue
    }
  }

  class WorkerDrainControl {
    var state: DrainState

    constructor ()
      ensures state == Accepting
    {
      state := Accepting;
    }

    method RequestDrain()
      modifies this
      ensures state == NextDrain(old(state), Task(DrainRequested))
    {
      if state == Accepting {
        state := Draining;
      }
    }

    method Resume()
      modifies this
      ensures state == Accepting
    {
      state := Accepting;
    }

    method MarkDrained()
      modifies this
      ensures state == if old(state) == Draining then Drained else old(state)
    {
      if state == Draining {
        state := Drained;
      }
    }
  }
}
