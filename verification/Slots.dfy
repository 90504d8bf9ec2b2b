/** The one execution slot of an agent and its health (src/agent/handlers/state.py). */
module Slots {
  import opened Wrappers
  import opened Claims

  datatype RunnerStatus = Idle | Queued | Running
  datatype Health = Healthy | Unhealthy | Unknown

  /** The value of the slot: the assigned claim set and the runner's status. */
  datatype Slot = Slot(claimSet: Option<ClaimSet>, status: RunnerStatus) {
    /** A claim set is present exactly when the runner is not idle. */
    predicate Consistent() {
      claimSet.Some? <==> status != Idle
    }
  }

  const EMPTY_SLOT := Slot(None, Idle)

  /** Queueing raises unless the slot is idle. */
  function EnqueueIn(slot: Slot, claimSet: ClaimSet): Result<Slot, string> {
    if slot.status == Idle then Success(Slot(Some(claimSet), Queued))
    else Failure("Scenario claim set execution slot is busy.")
  }

  function MarkRunningIn(slot: Slot): Result<Slot, string> {
    if slot.status == Queued then Success(slot.(status := Running))
    else Failure("Cannot start execution: no claim set queued.")
  }

  class RunnerStateHandler {
    var claimSet: Option<ClaimSet>
    var status: RunnerStatus

    function Value(): Slot
      reads this
    {
      Slot(claimSet, status)
    }

    constructor ()
      ensures Value() == EMPTY_SLOT
    {
      claimSet := None;
      status := Idle;
    }

    method Enqueue(newSet: ClaimSet) returns (r: Result<(), string>)
      modifies this
      ensures r.Success? <==> old(status) == Idle
      ensures r.Success? ==> Value() == Slot(Some(newSet), Queued)
      ensures EnqueueIn(old(Value()), newSet) == if r.Success? then Success(Value()) else Failure(r.error)
      ensures r.Failure? ==> Value() == old(Value())
    {
      if status != Idle {
        return Failure("Scenario claim set execution slot is busy.");
      }
      claimSet := Some(newSet);
      status := Queued;
      r := Success(());
    }

    method MarkRunning() returns (r: Result<(), string>)
      modifies this
      ensures r.Success? <==> old(status) == Queued
      ensures r.Success? ==> Value() == Slot(old(claimSet), Running)
      ensures MarkRunningIn(old(Value())) == if r.Success? then Success(Value()) else Failure(r.error)
      ensures r.Failure? ==> Value() == old(Value())
    {
      if status != Queued {
        return Failure("Cannot start execution: no claim set queued.");
      }
      status := Running;
      r := Success(());
    }

    /** Clears the slot whatever it holds. */
    method ResetToIdle()
      modifies this
      ensures Value() == EMPTY_SLOT
    {
      claimSet := None;
      status := Idle;
    }
  }

  class AgentStateView {
    var health: Health

    constructor ()
      ensures health == Unknown
    {
      health := Unknown;
    }

    method SetHealth(healthy: bool)
      modifies this
      ensures health == if healthy then Healthy else Unhealthy
    {
      health := if healthy then Healthy else Unhealthy;
    }
  }
}
