/**
 All agents together with the control plane, whose acknowledge endpoint is a compare-and-
 set under a lock (mockserver/server/app.py). An acknowledge attempt that its sender has
 given up on may still arrive.
 */
module Fleet {
  import opened Wrappers
  import opened Claims
  import opened Execution
  import opened Slots
  import opened Pipeline

  type AgentId = nat

  /** `owners` remembers which agent was told that it acknowledged a set. */
  datatype State = State(
    server: map<SetId, Claims.Status>,
    agents: map<AgentId, Agent>,
    owners: map<SetId, AgentId>,
    orphans: set<SetId>)

  datatype FleetEvent = Offer(id: SetId) | LateAck(id: SetId) | Act(agent: AgentId, action: Action)

  /** How the control plane answers an acknowledge request that reaches it. */
  function Answer(server: map<SetId, Claims.Status>, id: SetId): AckReply {
    if id !in server then Refused(404)
    else if server[id] == Acknowledged then Refused(409)
    else Granted
  }

  /** Only what the control plane answers depends on the rest of the fleet; an attempt may fail in any way. */
  predicate Allowed(s: State, a: Agent, action: Action) {
    match action
    case AckServed(reply) => a.scheduler.Acking? && reply == Answer(s.server, a.scheduler.claimSet.id)
    case _ => true
  }

  function Effect(s: State, agent: AgentId, a: Agent, action: Action): State {
    match action
    case AckServed(reply) =>
      if a.scheduler.Acking? && reply == Granted then
        s.(server := s.server[a.scheduler.claimSet.id := Acknowledged], owners := s.owners[a.scheduler.claimSet.id := agent])
      else s
    case AckFails(_) => Abandon(s, a)
    case Cancel => Abandon(s, a)
    case _ => s
  }

  function Abandon(s: State, a: Agent): State {
    if a.scheduler.Acking? && a.scheduler.reply == Sent then s.(orphans := s.orphans + {a.scheduler.claimSet.id}) else s
  }

  function Apply(s: State, e: FleetEvent): Option<State> {
    match e
    case Offer(id) =>
      if id in s.server then None else Some(s.(server := s.server[id := Pending]))
    case LateAck(id) =>
      if id !in s.orphans then None
      else if Answer(s.server, id) == Granted
      then Some(s.(orphans := s.orphans - {id}, server := s.server[id := Acknowledged]))
      else Some(s.(orphans := s.orphans - {id}))
    case Act(agent, action) =>
      if agent !in s.agents || !Allowed(s, s.agents[agent], action) then None
      else match Next(s.agents[agent], action)
        case None => None
        case Some(a) => Some(Effect(s, agent, s.agents[agent], action).(agents := s.agents[agent := a]))
  }

  function Run(s: State, events: seq<FleetEvent>): Option<State>
    decreases events
  {
    if events == [] then Some(s)
    else match Apply(s, events[0])
      case None => None
      case Some(t) => Run(t, events[1..])
  }

  /** The actions of one agent in a run. */
  function ActionsOf(agent: AgentId, events: seq<FleetEvent>): seq<Action> {
    if events == [] then []
    else (if events[0].Act? && events[0].agent == agent then [events[0].action] else []) + ActionsOf(agent, events[1..])
  }

  /** Seen from one agent, every run of the fleet is a run of that agent alone. */
  lemma {:induction false} RunProjects(s: State, events: seq<FleetEvent>, t: State, agent: AgentId)
    requires agent in s.agents && Run(s, events) == Some(t)
    ensures agent in t.agents && Steps(s.agents[agent], ActionsOf(agent, events)) == Some(t.agents[agent])
    decreases events
  {
    if events != [] {
      RunProjects(Apply(s, events[0]).value, events[1..], t, agent);
      if events[0].Act? && events[0].agent == agent {
        assert ActionsOf(agent, events)[1..] == ActionsOf(agent, events[1..]);
      } else {
        assert ActionsOf(agent, events) == ActionsOf(agent, events[1..]);
      }
    }
  }

  function Initial(ids: set<AgentId>): State {
    State(map[], map id | id in ids :: FRESH_AGENT, map[], {})
  }

  ghost predicate Reached(ids: set<AgentId>, events: seq<FleetEvent>, s: State) {
    Run(Initial(ids), events) == Some(s)
  }

  // ----- the invariant -----

  ghost predicate Distinct(ids: seq<SetId>) {
    forall j, k :: 0 <= j < k < |ids| ==> ids[j] != ids[k]
  }

  /** Whatever an agent has queued, or been told to queue, it alone owns. */
  ghost predicate Owns(s: State, agent: AgentId, a: Agent) {
    && Distinct(a.acknowledged)
    && (forall id :: id in a.acknowledged ==> id in s.owners && s.owners[id] == agent)
    && (a.scheduler.Acking? && a.scheduler.reply == Granted ==>
          && a.scheduler.claimSet.id in s.owners && s.owners[a.scheduler.claimSet.id] == agent
          && a.scheduler.claimSet.id !in a.acknowledged)
  }

  ghost predicate Inv(s: State) {
    && (forall id :: id in s.owners ==> id in s.server && s.server[id] == Acknowledged)
    && (forall agent :: agent in s.agents ==> AgentInv(s.agents[agent]) && Owns(s, agent, s.agents[agent]))
  }

  /** What a step does to what the agent has been told by the control plane. */
  lemma NextAcknowledges(a: Agent, action: Action, b: Agent)
    requires Next(a, action) == Some(b)
    ensures action == AckReturns ==>
              && a.scheduler.Acking? && a.scheduler.reply == Granted && b.scheduler == Sleeping
              && b.acknowledged == a.acknowledged + [a.scheduler.claimSet.id]
    ensures action != AckReturns ==> b.acknowledged == a.acknowledged
    ensures b.scheduler.Acking? && b.scheduler.reply == Granted ==>
              action == AckServed(Granted) || b.scheduler == a.scheduler
    ensures action.AckServed? ==> a.scheduler.Acking? && b.scheduler == a.scheduler.(reply := action.reply)
  {
  }

  /** What a step does to the control plane and the owners. */
  lemma ActionGrants(s: State, agent: AgentId, action: Action, t: State)
    requires Apply(s, Act(agent, action)) == Some(t)
    ensures agent in s.agents && agent in t.agents && Next(s.agents[agent], action) == Some(t.agents[agent])
    ensures t.agents == s.agents[agent := t.agents[agent]]
    ensures action == AckServed(Granted) ==>
              && s.agents[agent].scheduler.Acking?
              && var id := s.agents[agent].scheduler.claimSet.id;
                 && id in s.server && s.server[id] != Acknowledged
                 && t.server == s.server[id := Acknowledged] && t.owners == s.owners[id := agent]
    ensures action != AckServed(Granted) ==> t.server == s.server && t.owners == s.owners
  {
    NextAcknowledges(s.agents[agent], action, Next(s.agents[agent], action).value);
  }

  lemma ActorOwns(s: State, agent: AgentId, action: Action, t: State)
    requires Inv(s) && Apply(s, Act(agent, action)) == Some(t)
    ensures Owns(t, agent, t.agents[agent])
  {
    var a := s.agents[agent];
    assert Owns(s, agent, a);
    ActionGrants(s, agent, action, t);
    NextAcknowledges(a, action, t.agents[agent]);
  }

  /** The others own what they owned: a set that is granted was nobody's. */
  lemma OthersOwn(s: State, t: State, agent: AgentId, a: Agent)
    requires Owns(s, agent, a)
    requires forall id :: id in s.owners ==> id in t.owners && t.owners[id] == s.owners[id]
    ensures Owns(t, agent, a)
  {
  }

  lemma ActionKeepsInv(s: State, agent: AgentId, action: Action, t: State)
    requires Inv(s) && Apply(s, Act(agent, action)) == Some(t)
    ensures Inv(t)
  {
    ActionGrants(s, agent, action, t);
    ActorOwns(s, agent, action, t);
    assert AgentInv(s.agents[agent]);
    NextKeepsInv(s.agents[agent], action, t.agents[agent]);
    forall other | other in t.agents && other != agent
      ensures AgentInv(t.agents[other]) && Owns(t, other, t.agents[other])
    {
      assert AgentInv(s.agents[other]) && Owns(s, other, s.agents[other]);
      OthersOwn(s, t, other, s.agents[other]);
    }
  }

  lemma StepKeepsInv(s: State, e: FleetEvent, t: State)
    requires Inv(s) && Apply(s, e) == Some(t)
    ensures Inv(t)
  {
    if e.Act? {
      ActionKeepsInv(s, e.agent, e.action, t);
    } else {
      forall other | other in t.agents
        ensures AgentInv(t.agents[other]) && Owns(t, other, t.agents[other])
      {
        assert AgentInv(s.agents[other]) && Owns(s, other, s.agents[other]);
        OthersOwn(s, t, other, s.agents[other]);
      }
    }
  }

  lemma {:induction false} RunKeepsInv(s: State, events: seq<FleetEvent>, t: State)
    requires Inv(s) && Run(s, events) == Some(t)
    ensures Inv(t)
    decreases events
  {
    if events != [] {
      var next := Apply(s, events[0]).value;
      StepKeepsInv(s, events[0], next);
      RunKeepsInv(next, events[1..], t);
    }
  }

  lemma ReachedInv(ids: set<AgentId>, events: seq<FleetEvent>, s: State)
    requires Reached(ids, events, s)
    ensures Inv(s)
  {
    assert Inv(Initial(ids)) by {
      assert LogOf([]) == [] && Ids([]) == [];
    }
    RunKeepsInv(Initial(ids), events, s);
  }
}
