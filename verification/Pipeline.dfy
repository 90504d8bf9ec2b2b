/**
 The claim-set pipeline: any number of agents, each with a scheduler, a runner and a
 heartbeat on one event loop, and the control plane that hands out claim sets. Between
 two suspension points a worker runs undisturbed, so each action below is one atomic
 step; everything else may happen between two steps.
 */
module Pipeline {
  import opened Wrappers
  import opened Claims
  import opened Execution
  import opened Slots
  import Retry

  /** What has become of the acknowledge request the scheduler is waiting for. */
  datatype AckReply = Sent | Granted | Refused(status: int)

  datatype Scheduler = Sleeping | Fetching | Acking(claimSet: ClaimSet, attempt: nat, reply: AckReply)

  /** The runner rests, or is inside the claim after the ones with these outcomes. */
  datatype Runner = Resting | Executing(claimSet: ClaimSet, outcomes: seq<bool>)

  /** A claim set that has left the slot, with the outcomes of the claims that ran. */
  datatype Job = Job(claimSet: ClaimSet, outcomes: seq<bool>)

  /**
   `log` holds the agent's own scenario events. For the theorems the agent also remembers
   the sets whose acknowledge call returned normally, the jobs it has finished, and how
   often `enqueue` or `mark_running` raised.
   */
  datatype Agent = Agent(
    alive: bool,
    health: Health,
    slot: Slot,
    scheduler: Scheduler,
    runner: Runner,
    log: seq<Event>,
    acknowledged: seq<SetId>,
    finished: seq<Job>,
    raised: nat)

  const FRESH_AGENT := Agent(true, Unknown, EMPTY_SLOT, Sleeping, Resting, [], [], [], 0)

  datatype Action =
    | Poll
    | FetchReturns(found: Option<ClaimSet>)
    | FetchFails
    | AckServed(reply: AckReply)
    | AckReturns
    | AckFails(error: Retry.RequestError)
    | Start
    | ClaimEnds(ok: bool)
    | Heartbeat(ok: bool)
    | Cancel

  /** The EXECUTING event of the k-th claim in execution order. */
  function Opening(claimSet: ClaimSet, k: nat): Event
    requires k < |claimSet.claims|
  {
    Event(ScenarioExecuting, claimSet.id, StableOrder(claimSet.claims)[k])
  }

  /** The acknowledge call returned: queue the set and announce its claims. */
  function Queue(a: Agent, claimSet: ClaimSet): Agent {
    var b := a.(scheduler := Sleeping, acknowledged := a.acknowledged + [claimSet.id]);
    match EnqueueIn(a.slot, claimSet)
    case Success(slot) =>
      b.(slot := slot, log := a.log + QueuedEvents(claimSet, |claimSet.claims|))
    case Failure(_) => b.(raised := a.raised + 1)
  }

  /** The executor goes on: with the next claim, or it leaves and the slot is reset. */
  function GoOn(a: Agent, claimSet: ClaimSet, outcomes: seq<bool>): Agent {
    if Ended(claimSet, outcomes) || |claimSet.claims| <= |outcomes| then
      a.(slot := EMPTY_SLOT, runner := Resting, finished := a.finished + [Job(claimSet, outcomes)])
    else
      a.(runner := Executing(claimSet, outcomes), log := a.log + [Opening(claimSet, |outcomes|)])
  }

  /** One step of one agent; None when the action is not possible. */
  function Next(a: Agent, action: Action): Option<Agent> {
    if !a.alive then None else
    match action
    case Poll =>
      if a.scheduler == Sleeping && a.health == Healthy && a.slot.status == Idle
      then Some(a.(scheduler := Fetching)) else None
    case FetchReturns(found) =>
      if a.scheduler != Fetching then None
      else if found.Some? && found.value.status == Pending then Some(a.(scheduler := Acking(found.value, 1, Sent)))
      else Some(a.(scheduler := Sleeping))
    case FetchFails =>
      if a.scheduler == Fetching then Some(a.(scheduler := Sleeping)) else None
    case AckServed(reply) =>
      if a.scheduler.Acking? && a.scheduler.reply == Sent && reply != Sent
      then Some(a.(scheduler := a.scheduler.(reply := reply))) else None
    case AckReturns =>
      if a.scheduler.Acking? && a.scheduler.reply == Granted then Some(Queue(a, a.scheduler.claimSet)) else None
    case AckFails(error) =>
      if !a.scheduler.Acking? then None
      else if Retry.GivesUp(a.scheduler.attempt, Retry.RetryLimit(None), error)
      then Some(a.(scheduler := Sleeping))
      else Some(a.(scheduler := Acking(a.scheduler.claimSet, a.scheduler.attempt + 1, Sent)))
    case Start =>
      if a.runner != Resting || a.health != Healthy || a.slot.status != Queued then None
      else if a.slot.claimSet.None? then Some(a.(slot := EMPTY_SLOT, raised := a.raised + 1))
      else (match MarkRunningIn(a.slot)
        case Success(slot) => Some(GoOn(a.(slot := slot), a.slot.claimSet.value, []))
        case Failure(_) => Some(a.(slot := EMPTY_SLOT, raised := a.raised + 1)))
    case ClaimEnds(ok) =>
      if a.runner.Resting? then None
      else
        var claimSet, outcomes := a.runner.claimSet, a.runner.outcomes;
        if |claimSet.claims| <= |outcomes| then None
        else
          var event := Event(Verdict(ok), claimSet.id, StableOrder(claimSet.claims)[|outcomes|]);
          Some(GoOn(a.(log := a.log + [event]), claimSet, outcomes + [ok]))
    case Heartbeat(ok) => Some(a.(health := if ok then Healthy else Unhealthy))
    case Cancel => Some(a.(alive := false))
  }

  // ----- what every step of an agent keeps -----

  function JobLog(job: Job): seq<Event> {
    QueuedEvents(job.claimSet, |job.claimSet.claims|) + RunEvents(job.claimSet, job.outcomes)
  }

  /** The log of jobs handled strictly one after the other. */
  function LogOf(jobs: seq<Job>): seq<Event> {
    if jobs == [] then [] else LogOf(jobs[..|jobs| - 1]) + JobLog(jobs[|jobs| - 1])
  }

  /** The part of the log that belongs to the set in the slot. */
  function CurrentLog(slot: Slot, runner: Runner): seq<Event> {
    if slot.claimSet.None? then []
    else if runner.Resting? then JobLog(Job(slot.claimSet.value, []))
    else if |runner.outcomes| < |runner.claimSet.claims| then
      JobLog(Job(runner.claimSet, runner.outcomes)) + [Opening(runner.claimSet, |runner.outcomes|)]
    else []
  }

  function Ids(jobs: seq<Job>): seq<SetId> {
    if jobs == [] then [] else Ids(jobs[..|jobs| - 1]) + [jobs[|jobs| - 1].claimSet.id]
  }

  function CurrentIds(slot: Slot): seq<SetId> {
    if slot.claimSet.None? then [] else [slot.claimSet.value.id]
  }

  /** The slot, the runner and the scheduler agree with each other. */
  ghost predicate InStep(a: Agent) {
    match a.slot.status
    case Idle => a.slot.claimSet.None? && a.runner == Resting
    case Queued => a.slot.claimSet.Some? && a.runner == Resting && a.scheduler == Sleeping
    case Running =>
      && a.slot.claimSet.Some? && a.runner.Executing? && a.runner.claimSet == a.slot.claimSet.value
      && Legal(a.runner.claimSet, a.runner.outcomes) && !Ended(a.runner.claimSet, a.runner.outcomes)
      && a.scheduler == Sleeping
  }

  ghost predicate AgentInv(a: Agent) {
    && InStep(a)
    && (forall j :: j in a.finished ==> Legal(j.claimSet, j.outcomes) && Ended(j.claimSet, j.outcomes))
    && a.log == LogOf(a.finished) + CurrentLog(a.slot, a.runner)
    && a.acknowledged == Ids(a.finished) + CurrentIds(a.slot)
    && a.raised == 0
  }

  /** Going on keeps everything in step, whether a claim follows or the set is finished. */
  lemma GoOnKeepsInv(a: Agent, claimSet: ClaimSet, outcomes: seq<bool>)
    requires forall j :: j in a.finished ==> Legal(j.claimSet, j.outcomes) && Ended(j.claimSet, j.outcomes)
    requires a.acknowledged == Ids(a.finished) + [claimSet.id] && a.raised == 0
    requires a.slot == Slot(Some(claimSet), Running) && a.scheduler == Sleeping
    requires Legal(claimSet, outcomes)
    requires a.log == LogOf(a.finished) + JobLog(Job(claimSet, outcomes))
    ensures AgentInv(GoOn(a, claimSet, outcomes))
  {
    var b := GoOn(a, claimSet, outcomes);
    if Ended(claimSet, outcomes) {
      assert b.finished[..|b.finished| - 1] == a.finished;
    } else {
      Associative(LogOf(a.finished), JobLog(Job(claimSet, outcomes)), [Opening(claimSet, |outcomes|)]);
    }
  }

  lemma ClaimEndsKeepsInv(a: Agent, ok: bool, b: Agent)
    requires AgentInv(a) && Next(a, ClaimEnds(ok)) == Some(b)
    ensures AgentInv(b)
  {
    var claimSet, outcomes := a.runner.claimSet, a.runner.outcomes;
    var closing := Event(Verdict(ok), claimSet.id, StableOrder(claimSet.claims)[|outcomes|]);
    assert b == GoOn(a.(log := a.log + [closing]), claimSet, outcomes + [ok]);
    assert a.log + [closing] == LogOf(a.finished) + JobLog(Job(claimSet, outcomes + [ok])) by {
      ClosingLog(claimSet, outcomes, ok, LogOf(a.finished));
    }
    assert Legal(claimSet, outcomes + [ok]);
    GoOnKeepsInv(a.(log := a.log + [closing]), claimSet, outcomes + [ok]);
  }

  /** The verdict completes the part of the log the claim under way had opened. */
  lemma ClosingLog(claimSet: ClaimSet, outcomes: seq<bool>, ok: bool, before: seq<Event>)
    requires |outcomes| < |claimSet.claims|
    ensures before + (JobLog(Job(claimSet, outcomes)) + [Opening(claimSet, |outcomes|)])
            + [Event(Verdict(ok), claimSet.id, StableOrder(claimSet.claims)[|outcomes|])]
         == before + JobLog(Job(claimSet, outcomes + [ok]))
  {
    RunEventsSnoc(claimSet, outcomes, ok);
  }

  lemma QueueKeepsInv(a: Agent, claimSet: ClaimSet)
    requires AgentInv(a) && a.slot.status == Idle
    ensures AgentInv(Queue(a, claimSet))
  {
    var b := Queue(a, claimSet);
    assert CurrentLog(a.slot, a.runner) == [] && CurrentIds(a.slot) == [];
    assert CurrentLog(b.slot, b.runner) == QueuedEvents(claimSet, |claimSet.claims|) by {
      assert RunEvents(claimSet, []) == [];
    }
    assert b.log == LogOf(b.finished) + CurrentLog(b.slot, b.runner);
  }

  lemma StartKeepsInv(a: Agent, b: Agent)
    requires AgentInv(a) && Next(a, Start) == Some(b)
    ensures AgentInv(b)
  {
    GoOnKeepsInv(a.(slot := Slot(a.slot.claimSet, Running)), a.slot.claimSet.value, []);
  }

  /** The other steps leave the slot, the runner and the log alone. */
  lemma QuietStepKeepsInv(a: Agent, action: Action, b: Agent)
    requires AgentInv(a) && Next(a, action) == Some(b)
    requires action != AckReturns && action != Start && !action.ClaimEnds?
    ensures AgentInv(b)
  {
    assert b.slot == a.slot && b.runner == a.runner && b.log == a.log && b.finished == a.finished;
  }

  lemma NextKeepsInv(a: Agent, action: Action, b: Agent)
    requires AgentInv(a) && Next(a, action) == Some(b)
    ensures AgentInv(b)
  {
    if action == AckReturns {
      QueueKeepsInv(a, a.scheduler.claimSet);
    } else if action == Start {
      StartKeepsInv(a, b);
    } else if action.ClaimEnds? {
      ClaimEndsKeepsInv(a, action.ok, b);
    } else {
      QuietStepKeepsInv(a, action, b);
    }
  }

  // ----- runs of one agent -----

  function Steps(a: Agent, actions: seq<Action>): Option<Agent>
    decreases actions
  {
    if actions == [] then Some(a)
    else match Next(a, actions[0])
      case None => None
      case Some(b) => Steps(b, actions[1..])
  }

  lemma {:induction false} StepsSnoc(a: Agent, actions: seq<Action>, b: Agent, action: Action)
    requires Steps(a, actions) == Some(b)
    ensures Steps(a, actions + [action]) == Next(b, action)
    decreases actions
  {
    if actions == [] {
      assert [action][1..] == [];
    } else {
      StepsSnoc(Next(a, actions[0]).value, actions[1..], b, action);
      assert (actions + [action])[1..] == actions[1..] + [action];
    }
  }

  lemma {:induction false} StepsKeepInv(a: Agent, actions: seq<Action>, b: Agent)
    requires AgentInv(a) && Steps(a, actions) == Some(b)
    ensures AgentInv(b)
    decreases actions
  {
    if actions != [] {
      var next := Next(a, actions[0]).value;
      NextKeepsInv(a, actions[0], next);
      StepsKeepInv(next, actions[1..], b);
    }
  }
}
