/**
 The scheduler, runner and heartbeat workers of one agent (src/agent/workers) as code on
 the objects they share. Whenever a worker is suspended the others run. Each worker takes
 exactly steps of the pipeline: `past` lists the steps of all of them since the start.
 */
module Workers {
  import opened Wrappers
  import opened Claims
  import opened Execution
  import opened Slots
  import opened Pipeline
  import Retry

  datatype Worker = TheScheduler | TheRunner | TheHeartbeat

  /** Whose step an action is; the control plane's answer concerns the scheduler. */
  function WorkerOf(action: Action): Option<Worker> {
    match action
    case Poll => Some(TheScheduler)
    case FetchReturns(_) => Some(TheScheduler)
    case FetchFails => Some(TheScheduler)
    case AckServed(_) => Some(TheScheduler)
    case AckReturns => Some(TheScheduler)
    case AckFails(_) => Some(TheScheduler)
    case Start => Some(TheRunner)
    case ClaimEnds(_) => Some(TheRunner)
    case Heartbeat(_) => Some(TheHeartbeat)
    case Cancel => None
  }

  /** What a worker can rely on while it is suspended. */
  ghost predicate Rely(me: Worker, before: Agent, after: Agent) {
    && after.alive == before.alive
    && (me == TheScheduler ==>
          after.scheduler == before.scheduler && (before.scheduler != Sleeping ==> after.slot == EMPTY_SLOT))
    && (me == TheRunner ==>
          && after.runner == before.runner
          && (before.runner.Executing? ==> after.slot == before.slot && after.log == before.log && after.finished == before.finished))
  }

  /** The other workers keep to what a suspended worker relies on. */
  lemma OthersKeepRely(me: Worker, a: Agent, action: Action, b: Agent)
    requires AgentInv(a) && Next(a, action) == Some(b)
    requires WorkerOf(action).Some? && WorkerOf(action) != Some(me)
    ensures Rely(me, a, b)
  {
  }

  /** From a queued set to that set finished: the log has grown by the events of its run. */
  lemma RunGrowsLog(a: Agent, b: Agent, claimSet: ClaimSet, outcomes: seq<bool>)
    requires AgentInv(a) && a.slot == Slot(Some(claimSet), Queued)
    requires AgentInv(b) && b.slot == EMPTY_SLOT && b.finished == a.finished + [Job(claimSet, outcomes)]
    ensures b.log == a.log + RunEvents(claimSet, outcomes)
  {
    assert RunEvents(claimSet, []) == [];
    assert a.log == LogOf(a.finished) + QueuedEvents(claimSet, |claimSet.claims|);
    assert b.finished[..|a.finished|] == a.finished;
    assert LogOf(b.finished) == LogOf(a.finished) + JobLog(Job(claimSet, outcomes));
    Associative(LogOf(a.finished), QueuedEvents(claimSet, |claimSet.claims|), RunEvents(claimSet, outcomes));
  }

  lemma NextStaysAlive(a: Agent, action: Action)
    requires a.alive && action != Cancel && Next(a, action).Some?
    ensures Next(a, action).value.alive
  {
  }

  /** Whatever steps were taken, the agent is in order. */
  lemma PastKeepsInv(past: seq<Action>, a: Agent)
    requires Steps(FRESH_AGENT, past) == Some(a)
    ensures AgentInv(a)
  {
    assert LogOf([]) == [] && Ids([]) == [];
    StepsKeepInv(FRESH_AGENT, past, a);
  }

  /** The step from the end of a claim to the runner's next suspension, spelled out. */
  lemma ClaimEndsStep(a: Agent, claimSet: ClaimSet, outcomes: seq<bool>, ok: bool)
    requires a.alive && a.runner == Executing(claimSet, outcomes) && |outcomes| < |claimSet.claims|
    ensures Next(a, ClaimEnds(ok)).Some? && Next(a, ClaimEnds(ok)).value.health == a.health
    ensures var b := Next(a, ClaimEnds(ok)).value;
            var closing := Event(Verdict(ok), claimSet.id, StableOrder(claimSet.claims)[|outcomes|]);
            if Stops(claimSet, ok) || |outcomes| + 1 == |claimSet.claims| then
              && b.slot == EMPTY_SLOT && b.runner == Resting && b.log == a.log + [closing]
              && b.finished == a.finished + [Job(claimSet, outcomes + [ok])]
            else
              && b.slot == a.slot && b.runner == Executing(claimSet, outcomes + [ok]) && b.finished == a.finished
              && b.log == a.log + [closing] + [Opening(claimSet, |outcomes| + 1)]
  {
  }

  class AgentProcess {
    const slot: RunnerStateHandler
    const view: AgentStateView
    const telemetry: AgentTelemetry

    /** Where all workers stand, and the steps taken so far. */
    var state: Agent
    ghost var past: seq<Action>

    ghost predicate Committed()
      reads this
    {
      state.alive && Steps(FRESH_AGENT, past) == Some(state)
    }

    /** The shared objects hold what the pipeline says they hold. */
    ghost predicate Valid()
      reads this, slot, view, telemetry
    {
      Committed() && slot.Value() == state.slot && view.health == state.health && telemetry.events == state.log
    }

    constructor ()
      ensures Valid() && fresh(slot) && fresh(view) && fresh(telemetry)
      ensures past == [] && state == FRESH_AGENT
    {
      slot := new RunnerStateHandler();
      view := new AgentStateView();
      telemetry := new AgentTelemetry();
      state := FRESH_AGENT;
      past := [];
    }

    /** A worker has come to its next suspension point: what it did since the last is one step. */
    method Commit(action: Action)
      requires Committed() && action != Cancel
      requires Next(state, action).Some?
      requires slot.Value() == Next(state, action).value.slot
      requires view.health == Next(state, action).value.health
      requires telemetry.events == Next(state, action).value.log
      modifies this
      ensures Valid() && Some(state) == Next(old(state), action)
      ensures past == old(past) + [action]
    {
      StepsSnoc(FRESH_AGENT, past, state, action);
      NextStaysAlive(state, action);
      state := Next(state, action).value;
      past := past + [action];
    }

    /** The worker is suspended; the others take any number of steps. */
    method Suspend(me: Worker)
      requires Valid()
      modifies this, slot, view, telemetry
      ensures Valid() && old(past) <= past && Rely(me, old(state), state)
    {
      PastKeepsInv(past, state);
      var turns: int := *;
      while 0 < turns
        invariant Valid() && old(past) <= past && Rely(me, old(state), state)
      {
        var action: Action := *;
        if WorkerOf(action).Some? && WorkerOf(action) != Some(me) && Next(state, action).Some? {
          PastKeepsInv(past, state);
          OthersKeepRely(me, state, action, Next(state, action).value);
          var next := Next(state, action).value;
          slot.claimSet, slot.status := next.slot.claimSet, next.slot.status;
          view.health := next.health;
          telemetry.events := next.log;
          Commit(action);
        }
        turns := turns - 1;
      }
    }

    /** One heartbeat: the health becomes what the request said. */
    method HeartbeatIteration(sent: Result<(), Retry.RequestError>)
      requires Valid()
      modifies this, slot, view, telemetry
      ensures Valid() && old(past) < past && past[|past| - 1] == Heartbeat(sent.Success?)
      ensures view.health == if sent.Success? then Healthy else Unhealthy
    {
      Suspend(TheHeartbeat);
      view.SetHealth(sent.Success?);
      Commit(Heartbeat(sent.Success?));
    }

    /**
     One round of the scheduler, with the result of the fetch and of every acknowledge
     attempt given. It polls only when healthy and idle; if a set is acknowledged it is
     queued and all its claims are announced, and queueing never finds the slot busy.
     */
    method SchedulerIteration(fetched: Result<Option<ClaimSet>, Retry.RequestError>, ack: nat -> Retry.Outcome<()>)
      returns (queued: Option<ClaimSet>)
      requires Valid() && state.scheduler == Sleeping
      modifies this, slot, view, telemetry
      ensures Valid() && old(past) <= past && state.scheduler == Sleeping
      ensures old(view.health) != Healthy || old(slot.status) != Idle ==> past == old(past) && queued.None?
      ensures queued.Some? ==> fetched == Success(queued)
      ensures queued.Some? <==>
                && old(view.health) == Healthy && old(slot.status) == Idle
                && fetched.Success? && fetched.value.Some? && fetched.value.value.status == Pending
                && exists n :: Retry.SucceedsAt(ack, n)
      ensures queued.Some? ==> slot.Value() == Slot(queued, Queued)
      ensures queued.Some? ==> past[|past| - 1] == AckReturns
      ensures queued.Some? ==>
                exists earlier, announced :: telemetry.events == earlier + announced && AnnouncesAll(announced, queued.value)
    {
      if view.health != Healthy || slot.status != Idle {
        return None;
      }
      Commit(Poll);
      Suspend(TheScheduler);
      if fetched.Failure? {
        Commit(FetchFails);
        return None;
      }
      Commit(FetchReturns(fetched.value));
      if fetched.value.None? || fetched.value.value.status != Pending {
        return None;
      }
      var acknowledged := Acknowledge(fetched.value.value, ack);
      if acknowledged {
        HandleIterationSuccess(fetched.value.value);
        queued := fetched.value;
      } else {
        queued := None;
      }
    }

    /**
     One acknowledge attempt. One that fails may have reached the control plane, which may
     even have granted the set before the response was lost.
     */
    method Attempt(claimSet: ClaimSet, attempt: nat, outcome: Retry.Outcome<()>) returns (granted: bool)
      requires Valid() && state.scheduler == Acking(claimSet, attempt, Sent)
      modifies this, slot, view, telemetry
      ensures Valid() && old(past) <= past && granted == outcome.Success?
      ensures granted ==> state.scheduler == Acking(claimSet, attempt, Granted) && slot.Value() == EMPTY_SLOT
      ensures !granted ==>
                state.scheduler == if Retry.GivesUp(attempt, Retry.RetryLimit(None), outcome.error) then Sleeping
                                   else Acking(claimSet, attempt + 1, Sent)
    {
      Suspend(TheScheduler);
      match outcome
      case Success(_) =>
        Commit(AckServed(Granted));
        Suspend(TheScheduler);
        granted := true;
      case Failure(error) =>
        var reply: AckReply := *;
        if reply != Sent {
          Commit(AckServed(reply));
          Suspend(TheScheduler);
        }
        Commit(AckFails(error));
        granted := false;
    }

    /**
     The acknowledge call with its retries, which are those of the retry loop: it ends with
     the first final attempt, and returns normally exactly when that one was granted and its
     response arrived. On return the slot is still idle.
     */
    method Acknowledge(claimSet: ClaimSet, ack: nat -> Retry.Outcome<()>) returns (granted: bool)
      requires Valid() && state.scheduler == Acking(claimSet, 1, Sent)
      modifies this, slot, view, telemetry
      ensures Valid() && old(past) <= past
      ensures granted ==> state.scheduler.Acking? && state.scheduler.claimSet == claimSet && state.scheduler.reply == Granted
                          && slot.Value() == EMPTY_SLOT
      ensures granted <==> exists n :: Retry.SucceedsAt(ack, n)
      ensures !granted ==> state.scheduler == Sleeping
    {
      var attempt := 1;
      granted := false;
      while attempt <= Retry.RetryLimit(None)
        invariant 1 <= attempt <= Retry.RetryLimit(None)
        invariant Valid() && old(past) <= past
        invariant state.scheduler == Acking(claimSet, attempt, Sent)
        invariant forall k :: 1 <= k < attempt ==> !Retry.Final(k, Retry.RetryLimit(None), ack(k))
        decreases Retry.RetryLimit(None) - attempt
      {
        granted := Attempt(claimSet, attempt, ack(attempt));
        if granted || state.scheduler == Sleeping {
          assert Retry.FirstFinal(ack, Retry.RetryLimit(None), attempt);
          Retry.SuccessIsFirstFinal(ack, attempt);
          forall n | Retry.SucceedsAt(ack, n)
            ensures n == attempt
          {
            Retry.SuccessIsFirstFinal(ack, n);
            Retry.FirstFinalUnique(ack, Retry.RetryLimit(None), attempt, n);
          }
          return;
        }
        attempt := attempt + 1;
      }
    }

    /** Emit QUEUED for every claim, in input order. */
    method AnnounceClaims(claimSet: ClaimSet)
      modifies telemetry
      ensures telemetry.events == old(telemetry.events) + QueuedEvents(claimSet, |claimSet.claims|)
    {
      var k := 0;
      while k < |claimSet.claims|
        invariant 0 <= k <= |claimSet.claims|
        invariant telemetry.events == old(telemetry.events) + QueuedEvents(claimSet, k)
      {
        telemetry.EmitEvent(Event(ScenarioQueued, claimSet.id, k));
        k := k + 1;
      }
    }

    /** Queue the set and announce its claims, without a suspension in between. */
    method HandleIterationSuccess(claimSet: ClaimSet)
      requires Valid() && state.scheduler.Acking? && state.scheduler.claimSet == claimSet && state.scheduler.reply == Granted
      modifies this, slot, telemetry
      ensures Valid() && past == old(past) + [AckReturns] && state.scheduler == Sleeping
      ensures slot.Value() == Slot(Some(claimSet), Queued)
      ensures exists announced ::
                telemetry.events == old(telemetry.events) + announced && AnnouncesAll(announced, claimSet)
    {
      PastKeepsInv(past, state);
      QueuedAnnouncesAll(claimSet);
      var enqueued := slot.Enqueue(claimSet);
      assert enqueued.Success?;
      AnnounceClaims(claimSet);
      Commit(AckReturns);
    }

    /**
     One round of the runner; `script` says which claims succeed. It executes only when
     healthy and queued; then it takes the set through its claims and leaves the slot idle
     with the set finished, whether the run completed or a failure stopped it. Its events are
     those the executor alone would emit.
     */
    method RunnerIteration(script: nat -> bool) returns (ran: Option<ClaimSet>, ghost outcomes: seq<bool>)
      requires Valid() && state.runner == Resting
      modifies this, slot, view, telemetry
      ensures Valid() && old(past) <= past && state.runner == Resting
      ensures ran == if old(view.health) == Healthy && old(slot.status) == Queued then old(slot.claimSet) else None
      ensures ran.None? ==> past == old(past)
      ensures ran.Some? ==>
                && Legal(ran.value, outcomes) && Ended(ran.value, outcomes)
                && (forall k :: 0 <= k < |outcomes| ==> outcomes[k] == script(StableOrder(ran.value.claims)[k]))
                && slot.Value() == Slot(None, Idle)
                && state.finished == old(state.finished) + [Job(ran.value, outcomes)]
                && |old(telemetry.events)| <= |telemetry.events|
                && telemetry.events[..|old(telemetry.events)|] == old(telemetry.events)
                && ShowsRun(telemetry.events[|old(telemetry.events)|..], ran.value, outcomes)
    {
      outcomes := [];
      if view.health != Healthy || slot.status != Queued {
        return None, outcomes;
      }
      ghost var start := state;
      PastKeepsInv(past, state);
      ran := slot.claimSet;
      outcomes := Execute(ran.value, script);
      PastKeepsInv(past, state);
      RunGrowsLog(start, state, ran.value, outcomes);
      RunEventsShowRun(ran.value, outcomes);
    }

    /** Mark the slot running and execute its set. */
    method Execute(claimSet: ClaimSet, script: nat -> bool) returns (ghost outcomes: seq<bool>)
      requires Valid() && slot.Value() == Slot(Some(claimSet), Queued) && view.health == Healthy && state.runner == Resting
      modifies this, slot, view, telemetry
      ensures Valid() && old(past) <= past && state.runner == Resting
      ensures Legal(claimSet, outcomes) && Ended(claimSet, outcomes) && Follows(claimSet, outcomes, script)
      ensures slot.Value() == EMPTY_SLOT
      ensures state.finished == old(state.finished) + [Job(claimSet, outcomes)]
    {
      var marked := slot.MarkRunning();
      assert marked.Success?;
      var order := StableOrder(claimSet.claims);
      if |order| == 0 {
        outcomes := [];
        slot.ResetToIdle();
        Commit(Start);
        return;
      }
      telemetry.EmitEvent(Opening(claimSet, 0));
      Commit(Start);
      outcomes := ExecuteClaims(claimSet, order, script);
    }

    /** The executor from inside its first claim to the reset of the slot. */
    method ExecuteClaims(claimSet: ClaimSet, order: seq<nat>, script: nat -> bool) returns (ghost outcomes: seq<bool>)
      requires Valid() && state.runner == Executing(claimSet, []) && order == StableOrder(claimSet.claims)
      requires claimSet.claims != []
      modifies this, slot, view, telemetry
      ensures Valid() && old(past) <= past && state.runner == Resting
      ensures Legal(claimSet, outcomes) && Ended(claimSet, outcomes) && Follows(claimSet, outcomes, script)
      ensures slot.Value() == EMPTY_SLOT
      ensures state.finished == old(state.finished) + [Job(claimSet, outcomes)]
    {
      outcomes := [];
      var k := 0;
      var running := true;
      while running
        invariant Valid() && old(past) <= past
        invariant Legal(claimSet, outcomes) && Follows(claimSet, outcomes, script)
        invariant running ==> k == |outcomes| && !Ended(claimSet, outcomes)
        invariant running ==> state.runner == Executing(claimSet, outcomes) && state.finished == old(state.finished)
        invariant !running ==> Ended(claimSet, outcomes) && state.runner == Resting && slot.Value() == EMPTY_SLOT
                               && state.finished == old(state.finished) + [Job(claimSet, outcomes)]
        decreases running, |order| - k
      {
        Suspend(TheRunner);
        OneMoreClaim(claimSet, outcomes, script(order[k]), script);
        running := EndClaim(claimSet, order, k, script(order[k]), outcomes);
        outcomes := outcomes + [script(order[k])];
        k := k + 1;
      }
    }

    /** From the end of one claim to the next suspension: the next claim begins or the slot is reset. */
    method EndClaim(claimSet: ClaimSet, order: seq<nat>, k: nat, ok: bool, ghost outcomes: seq<bool>) returns (more: bool)
      requires Valid() && state.runner == Executing(claimSet, outcomes) && order == StableOrder(claimSet.claims)
      requires k == |outcomes| < |order|
      modifies this, slot, telemetry
      ensures Valid() && past == old(past) + [ClaimEnds(ok)]
      ensures more <==> !Ended(claimSet, outcomes + [ok])
      ensures more ==> state.runner == Executing(claimSet, outcomes + [ok]) && state.finished == old(state.finished)
      ensures !more ==> state.runner == Resting && slot.Value() == EMPTY_SLOT
                        && state.finished == old(state.finished) + [Job(claimSet, outcomes + [ok])]
    {
      ClaimEndsStep(state, claimSet, outcomes, ok);
      telemetry.EmitEvent(Event(if ok then ScenarioSucceeded else ScenarioFailed, claimSet.id, order[k]));
      more := !(!ok && claimSet.mode == StopOnFailure) && k + 1 < |order|;
      if more {
        telemetry.EmitEvent(Opening(claimSet, k + 1));
      } else {
        slot.ResetToIdle();
      }
      Commit(ClaimEnds(ok));
    }
  }
}
