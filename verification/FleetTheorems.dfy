/** What the pipeline guarantees in every reachable state of every run of every fleet. */
module FleetTheorems {
  import opened Wrappers
  import opened Claims
  import opened Execution
  import opened Slots
  import opened Pipeline
  import opened Fleet
  import Retry

  // ----- delivery -----

  /**
   At most once: of all acknowledge calls in the whole fleet that returned normally, and so
   of all claim sets ever queued, no two were for the same set.
   */
  lemma AtMostOnce(ids: set<AgentId>, events: seq<FleetEvent>, s: State, a: AgentId, j: nat, b: AgentId, k: nat)
    requires Reached(ids, events, s) && a in s.agents && b in s.agents
    requires j < |s.agents[a].acknowledged| && k < |s.agents[b].acknowledged|
    requires s.agents[a].acknowledged[j] == s.agents[b].acknowledged[k]
    ensures a == b && j == k
  {
    ReachedInv(ids, events, s);
    assert Owns(s, a, s.agents[a]) && Owns(s, b, s.agents[b]);
    assert s.agents[a].acknowledged[j] in s.agents[a].acknowledged;
    assert s.agents[b].acknowledged[k] in s.agents[b].acknowledged;
  }

  /**
   Conservation: every set whose acknowledge call returned normally is in exactly one
   place, finished or in the slot, in the order in which they came; nothing else is there,
   and neither `enqueue` nor `mark_running` has ever raised.
   */
  lemma Conserved(ids: set<AgentId>, events: seq<FleetEvent>, s: State, agent: AgentId)
    requires Reached(ids, events, s) && agent in s.agents
    ensures s.agents[agent].acknowledged == Ids(s.agents[agent].finished) + CurrentIds(s.agents[agent].slot)
    ensures Distinct(s.agents[agent].acknowledged)
    ensures s.agents[agent].raised == 0
  {
    ReachedInv(ids, events, s);
    assert Owns(s, agent, s.agents[agent]) && AgentInv(s.agents[agent]);
  }

  /** The set of `a` is still in the slot of `b`, or it is the one `b` has just finished. */
  ghost predicate KeepsOrFinishes(a: Agent, b: Agent) {
    || b.slot.claimSet == a.slot.claimSet
    || (&& b.slot == EMPTY_SLOT
        && |b.finished| == |a.finished| + 1
        && Some(b.finished[|a.finished|].claimSet) == a.slot.claimSet)
  }

  lemma NextKeepsOrFinishes(a: Agent, action: Action, b: Agent)
    requires AgentInv(a) && a.slot.claimSet.Some? && Next(a, action) == Some(b)
    ensures KeepsOrFinishes(a, b)
  {
    if action.ClaimEnds? {
      assert a.runner.claimSet == a.slot.claimSet.value;
    } else if action != Start {
      assert b.slot == a.slot;
    }
  }

  /** A set in the slot is never overwritten or dropped: it stays, or it has just been finished. */
  lemma SlotNeverDrops(ids: set<AgentId>, events: seq<FleetEvent>, s: State, e: FleetEvent, t: State, agent: AgentId)
    requires Reached(ids, events, s) && Apply(s, e) == Some(t)
    requires agent in s.agents && s.agents[agent].slot.claimSet.Some?
    ensures agent in t.agents && KeepsOrFinishes(s.agents[agent], t.agents[agent])
  {
    ReachedInv(ids, events, s);
    assert AgentInv(s.agents[agent]);
    if e.Act? && e.agent == agent {
      NextKeepsOrFinishes(s.agents[agent], e.action, t.agents[agent]);
    }
  }

  // ----- the slot -----

  /**
   A claim set is present exactly when the status is not idle, the status is running
   exactly when the runner is inside an execution, and a scheduler that passed its check
   finds the slot idle for as long as it is suspended.
   */
  lemma SlotInvariant(ids: set<AgentId>, events: seq<FleetEvent>, s: State, agent: AgentId)
    requires Reached(ids, events, s) && agent in s.agents
    ensures s.agents[agent].slot.Consistent()
    ensures s.agents[agent].slot.status == Running <==> s.agents[agent].runner.Executing?
    ensures s.agents[agent].runner.Executing? ==> s.agents[agent].slot.claimSet == Some(s.agents[agent].runner.claimSet)
    ensures s.agents[agent].scheduler != Sleeping ==> s.agents[agent].slot == EMPTY_SLOT
  {
    ReachedInv(ids, events, s);
    assert AgentInv(s.agents[agent]);
  }

  /** So queueing after both suspensions succeeds and announces every claim at once. */
  lemma QueueingSucceeds(ids: set<AgentId>, events: seq<FleetEvent>, s: State, agent: AgentId, t: State)
    requires Reached(ids, events, s) && Apply(s, Act(agent, AckReturns)) == Some(t)
    ensures var claimSet := s.agents[agent].scheduler.claimSet;
            && t.agents[agent].slot == Slot(Some(claimSet), Queued)
            && exists announced ::
                 t.agents[agent].log == s.agents[agent].log + announced && AnnouncesAll(announced, claimSet)
  {
    SlotInvariant(ids, events, s, agent);
    var claimSet := s.agents[agent].scheduler.claimSet;
    QueuedAnnouncesAll(claimSet);
    assert t.agents[agent].log == s.agents[agent].log + QueuedEvents(claimSet, |claimSet.claims|);
  }

  /**
   Nothing new is begun but by a healthy agent: a poll starts only on a healthy agent with an
   empty slot, an execution only on a healthy agent with a queued set, and it is that set.
   */
  lemma OnlyHealthyBegins(ids: set<AgentId>, events: seq<FleetEvent>, s: State, e: FleetEvent, t: State, agent: AgentId)
    requires Reached(ids, events, s) && Apply(s, e) == Some(t) && agent in s.agents
    ensures agent in t.agents
    ensures s.agents[agent].scheduler == Sleeping && t.agents[agent].scheduler != Sleeping ==>
              s.agents[agent].health == Healthy && s.agents[agent].slot == Slot(None, Idle)
    ensures s.agents[agent].runner.Resting? && t.agents[agent].runner.Executing? ==>
              && s.agents[agent].health == Healthy
              && s.agents[agent].slot == Slot(Some(t.agents[agent].runner.claimSet), Queued)
  {
    ReachedInv(ids, events, s);
    assert AgentInv(s.agents[agent]);
    if e.Act? && e.agent == agent {
      NextBegins(s.agents[agent], e.action, t.agents[agent]);
    }
  }

  lemma NextBegins(a: Agent, action: Action, b: Agent)
    requires AgentInv(a) && Next(a, action) == Some(b)
    ensures a.scheduler == Sleeping && b.scheduler != Sleeping ==> a.health == Healthy && a.slot == Slot(None, Idle)
    ensures a.runner.Resting? && b.runner.Executing? ==>
              a.health == Healthy && a.slot == Slot(Some(b.runner.claimSet), Queued)
  {
    if action == Start {
      assert a.slot.claimSet.Some?;
    }
  }

  // ----- lost sets -----

  /** The control plane counts the set as taken. */
  predicate Taken(s: State, id: SetId) {
    id in s.server && s.server[id] == Acknowledged
  }

  /** The acknowledge call of a live agent has been granted the set but has not returned. */
  predicate AboutToLearn(a: Agent, id: SetId) {
    a.alive && a.scheduler.Acking? && a.scheduler.reply == Granted && a.scheduler.claimSet.id == id
  }

  /**
   The acknowledge endpoint is a compare-and-set: it grants a set that is offered and not
   taken, and takes it in the same step; it answers 409 for a set that is taken and 404 for
   one it has never seen, and then changes nothing.
   */
  lemma ServerAnswers(ids: set<AgentId>, events: seq<FleetEvent>, s: State, agent: AgentId, reply: AckReply, t: State)
    requires Reached(ids, events, s) && Apply(s, Act(agent, AckServed(reply))) == Some(t)
    ensures var id := s.agents[agent].scheduler.claimSet.id;
            if id !in s.server then reply == Refused(404) && t.server == s.server
            else if s.server[id] == Acknowledged then reply == Refused(409) && t.server == s.server
            else reply == Granted && t.server == s.server[id := Acknowledged] && AboutToLearn(t.agents[agent], id)
  {
    ReachedInv(ids, events, s);
    ActionGrants(s, agent, AckServed(reply), t);
    if reply.Refused? {
      assert t.server == s.server;
    }
    NextAcknowledges(s.agents[agent], AckServed(reply), t.agents[agent]);
  }

  /** The set is taken, but no agent has ever queued it or is about to. */
  ghost predicate Lost(s: State, id: SetId) {
    && Taken(s, id)
    && forall agent :: agent in s.agents ==>
         id !in s.agents[agent].acknowledged && !AboutToLearn(s.agents[agent], id)
  }

  /**
   The events that lose a set: the grant has been made but the call fails or is cancelled
   before it returns, or a request its sender has given up on arrives and is granted.
   */
  predicate Loses(s: State, e: FleetEvent, id: SetId) {
    match e
    case Offer(_) => false
    case LateAck(late) => late == id && Answer(s.server, id) == Granted
    case Act(agent, action) =>
      agent in s.agents && AboutToLearn(s.agents[agent], id) && (action.AckFails? || action == Cancel)
  }

  /** One of the events of the run loses the set in the state in which it happens. */
  predicate LosesInRun(s: State, events: seq<FleetEvent>, id: SetId)
    decreases events
  {
    events != []
    && (|| Loses(s, events[0], id)
        || (Apply(s, events[0]).Some? && LosesInRun(Apply(s, events[0]).value, events[1..], id)))
  }

  lemma LostStep(s: State, e: FleetEvent, t: State, id: SetId)
    requires Lost(s, id) && Apply(s, e) == Some(t)
    ensures Lost(t, id)
  {
    if e.Act? {
      ActionGrants(s, e.agent, e.action, t);
      NextAcknowledges(s.agents[e.agent], e.action, t.agents[e.agent]);
    }
  }

  /** A lost set is never queued by anyone, however the run goes on. */
  lemma {:induction false} LostForever(s: State, events: seq<FleetEvent>, t: State, id: SetId)
    requires Lost(s, id) && Run(s, events) == Some(t)
    ensures Lost(t, id)
    decreases events
  {
    if events != [] {
      var next := Apply(s, events[0]).value;
      LostStep(s, events[0], next, id);
      LostForever(next, events[1..], t, id);
    }
  }

  /** Only the owner has the set or is about to, so if its call fails nobody is left. */
  lemma FailedCallLoses(s: State, agent: AgentId, action: Action, t: State, id: SetId)
    requires Inv(s) && Apply(s, Act(agent, action)) == Some(t) && Loses(s, Act(agent, action), id)
    ensures Lost(t, id)
  {
    assert Owns(s, agent, s.agents[agent]);
    ActionGrants(s, agent, action, t);
    NextAcknowledges(s.agents[agent], action, t.agents[agent]);
    forall other | other in t.agents
      ensures id !in t.agents[other].acknowledged && !AboutToLearn(t.agents[other], id)
    {
      assert Owns(s, other, s.agents[other]);
    }
  }

  /** A set nobody had been granted is lost when a late request takes it. */
  lemma LateAckLoses(s: State, id: SetId, t: State)
    requires Inv(s) && Apply(s, LateAck(id)) == Some(t) && Answer(s.server, id) == Granted
    ensures Lost(t, id)
  {
    forall agent | agent in t.agents
      ensures id !in t.agents[agent].acknowledged && !AboutToLearn(t.agents[agent], id)
    {
      assert Owns(s, agent, s.agents[agent]);
    }
  }

  /** No other step of an agent loses a set. */
  lemma ActionLosesNothing(s: State, agent: AgentId, action: Action, t: State, id: SetId)
    requires Apply(s, Act(agent, action)) == Some(t) && !Lost(s, id) && !Loses(s, Act(agent, action), id)
    ensures !Lost(t, id)
  {
    ActionGrants(s, agent, action, t);
    NextAcknowledges(s.agents[agent], action, t.agents[agent]);
    if Taken(s, id) {
      var other :| other in s.agents && (id in s.agents[other].acknowledged || AboutToLearn(s.agents[other], id));
      assert id in t.agents[other].acknowledged || AboutToLearn(t.agents[other], id);
    } else if Taken(t, id) {
      assert AboutToLearn(t.agents[agent], id);
    }
  }

  lemma StepLoses(s: State, e: FleetEvent, t: State, id: SetId)
    requires Inv(s) && Apply(s, e) == Some(t)
    ensures Lost(t, id) <==> Lost(s, id) || Loses(s, e, id)
  {
    if Lost(s, id) {
      LostStep(s, e, t, id);
    } else if e.Act? {
      if Loses(s, e, id) {
        FailedCallLoses(s, e.agent, e.action, t, id);
      } else {
        ActionLosesNothing(s, e.agent, e.action, t, id);
      }
    } else if Loses(s, e, id) {
      LateAckLoses(s, id, t);
    } else {
      assert t.agents == s.agents;
    }
  }

  /** These events lose a set and no others do: the exact condition for a single step. */
  lemma StepLosesExactly(ids: set<AgentId>, events: seq<FleetEvent>, s: State, e: FleetEvent, t: State, id: SetId)
    requires Reached(ids, events, s) && Apply(s, e) == Some(t)
    ensures Lost(t, id) <==> Lost(s, id) || Loses(s, e, id)
  {
    ReachedInv(ids, events, s);
    StepLoses(s, e, t, id);
  }

  lemma {:induction false} RunLosesExactly(s: State, events: seq<FleetEvent>, t: State, id: SetId)
    requires Inv(s) && Run(s, events) == Some(t) && !Lost(s, id)
    ensures Lost(t, id) <==> LosesInRun(s, events, id)
    decreases events
  {
    if events != [] {
      var next := Apply(s, events[0]).value;
      StepLoses(s, events[0], next, id);
      StepKeepsInv(s, events[0], next);
      if Lost(next, id) {
        LostForever(next, events[1..], t, id);
      } else {
        RunLosesExactly(next, events[1..], t, id);
      }
    }
  }

  lemma RunCons(s: State, e: FleetEvent, t: State, rest: seq<FleetEvent>, u: State)
    requires Apply(s, e) == Some(t) && Run(t, rest) == Some(u)
    ensures Run(s, [e] + rest) == Some(u)
  {
    assert ([e] + rest)[1..] == rest;
  }

  /**
   An acknowledge request its sender stops waiting for, because the attempt failed or the
   agent was cancelled, may still arrive; if the set was free until then, that loses it.
   */
  lemma GivenUpMayTake(ids: set<AgentId>, events: seq<FleetEvent>, s: State, agent: AgentId, action: Action)
    requires Reached(ids, events, s) && agent in s.agents && s.agents[agent].alive
    requires s.agents[agent].scheduler.Acking? && s.agents[agent].scheduler.reply == Sent
    requires action.AckFails? || action == Cancel
    ensures var id := s.agents[agent].scheduler.claimSet.id;
            exists late ::
              && Run(s, [Act(agent, action), LateAck(id)]) == Some(late)
              && (id in s.server && s.server[id] != Acknowledged ==> Lost(late, id))
              && (id !in s.server || s.server[id] == Acknowledged ==> late.server == s.server)
  {
    var id := s.agents[agent].scheduler.claimSet.id;
    var t := Apply(s, Act(agent, action)).value;
    var late := Apply(t, LateAck(id)).value;
    RunCons(t, LateAck(id), late, [], late);
    RunCons(s, Act(agent, action), t, [LateAck(id)], late);
    assert [LateAck(id)] == [LateAck(id)] + [];
    assert [Act(agent, action), LateAck(id)] == [Act(agent, action)] + [LateAck(id)];
    ReachedInv(ids, events, s);
    StepKeepsInv(s, Act(agent, action), t);
    if Answer(t.server, id) == Granted {
      LateAckLoses(t, id, late);
    }
  }

  /** Somebody has queued the set, at some time in the run. */
  ghost predicate Delivered(s: State, id: SetId) {
    exists agent :: agent in s.agents && id in s.agents[agent].acknowledged
  }

  ghost predicate OnItsWay(s: State, id: SetId) {
    exists agent :: agent in s.agents && AboutToLearn(s.agents[agent], id)
  }

  /** Some continuation of the run ends with the set queued. */
  ghost predicate Deliverable(s: State, id: SetId) {
    exists more, t :: Run(s, more) == Some(t) && Delivered(t, id)
  }

  /** The call that has been granted the set can return, and then the set is queued. */
  lemma CanReturn(s: State, agent: AgentId, id: SetId)
    requires agent in s.agents && AboutToLearn(s.agents[agent], id)
    ensures Deliverable(s, id)
  {
    var e := Act(agent, AckReturns);
    var t := Apply(s, e).value;
    RunCons(s, e, t, [], t);
    assert [e] == [e] + [];
    NextAcknowledges(s.agents[agent], AckReturns, t.agents[agent]);
    assert Run(s, [e]) == Some(t) && Delivered(t, id) by {
      assert id in t.agents[agent].acknowledged;
    }
  }

  /**
   Delivery, exactly: a set that counts as taken has been queued, is on its way to a live
   agent, or is lost, and only one of these. It is lost if and only if one of the losing
   events has happened, and it has been or can still be queued if and only if none has.
   */
  lemma DeliveredUnlessLost(ids: set<AgentId>, events: seq<FleetEvent>, s: State, id: SetId)
    requires Reached(ids, events, s) && Taken(s, id)
    ensures Lost(s, id) <==> !Delivered(s, id) && !OnItsWay(s, id)
    ensures !(Delivered(s, id) && OnItsWay(s, id))
    ensures Lost(s, id) <==> LosesInRun(Initial(ids), events, id)
    ensures Deliverable(s, id) <==> !LosesInRun(Initial(ids), events, id)
  {
    ReachedInv(ids, events, s);
    ReachedInv(ids, [], Initial(ids));
    RunLosesExactly(Initial(ids), events, s, id);
    NotDeliveredTwice(s, id);
    if Delivered(s, id) {
      assert Run(s, []) == Some(s);
    } else if OnItsWay(s, id) {
      var agent :| agent in s.agents && AboutToLearn(s.agents[agent], id);
      CanReturn(s, agent, id);
    } else {
      forall more, t | Run(s, more) == Some(t)
        ensures !Delivered(t, id)
      {
        LostForever(s, more, t, id);
      }
    }
  }

  /** A set is never granted to one agent while another has it, or the same has it already. */
  lemma NotDeliveredTwice(s: State, id: SetId)
    requires Inv(s)
    ensures !(Delivered(s, id) && OnItsWay(s, id))
  {
    forall a, b | a in s.agents && b in s.agents && id in s.agents[a].acknowledged
      ensures !AboutToLearn(s.agents[b], id)
    {
      assert Owns(s, a, s.agents[a]) && Owns(s, b, s.agents[b]);
    }
  }

  /** Agent 0 alone, with the control plane's view of one set. */
  function Alone(id: SetId, a: Agent, owners: map<SetId, AgentId>): State {
    State(map[id := if id in owners then Acknowledged else Pending], map[0 := a], owners, {})
  }

  function Asking(claimSet: ClaimSet, attempt: nat, reply: AckReply): Agent {
    FRESH_AGENT.(health := Healthy, scheduler := Acking(claimSet, attempt, reply))
  }

  function AskEvents(claimSet: ClaimSet): seq<FleetEvent> {
    [Offer(claimSet.id), Act(0, Heartbeat(true)), Act(0, Poll), Act(0, FetchReturns(Some(claimSet)))]
  }

  function LoseEvents(): seq<FleetEvent> {
    [Act(0, AckServed(Granted)), Act(0, AckFails(Retry.Transport)),
     Act(0, AckServed(Refused(409))), Act(0, AckFails(Retry.Http(409)))]
  }

  /** A step of agent 0 that the control plane does not notice. */
  lemma AloneStep(id: SetId, a: Agent, action: Action, b: Agent, owners: map<SetId, AgentId>)
    requires Next(a, action) == Some(b) && Allowed(Alone(id, a, owners), a, action)
    requires Effect(Alone(id, a, owners), 0, a, action) == Alone(id, a, owners)
    ensures Apply(Alone(id, a, owners), Act(0, action)) == Some(Alone(id, b, owners))
  {
    assert map[0 := a][0 := b] == map[0 := b];
  }

  /** From the start to the moment the control plane grants the set. */
  lemma AsksForSet(claimSet: ClaimSet)
    requires claimSet.status == Pending
    ensures Run(Initial({0}), AskEvents(claimSet)) == Some(Alone(claimSet.id, Asking(claimSet, 1, Sent), map[]))
  {
    var id := claimSet.id;
    var s1 := Alone(id, FRESH_AGENT, map[]);
    var s2 := Alone(id, FRESH_AGENT.(health := Healthy), map[]);
    var s3 := Alone(id, FRESH_AGENT.(health := Healthy, scheduler := Fetching), map[]);
    var s4 := Alone(id, Asking(claimSet, 1, Sent), map[]);
    AloneStep(id, s3.agents[0], FetchReturns(Some(claimSet)), s4.agents[0], map[]);
    AloneStep(id, s2.agents[0], Poll, s3.agents[0], map[]);
    AloneStep(id, s1.agents[0], Heartbeat(true), s2.agents[0], map[]);
    assert Apply(Initial({0}), Offer(id)) == Some(s1) by {
      assert Initial({0}).agents == map[0 := FRESH_AGENT];
    }
    RunCons(s3, Act(0, FetchReturns(Some(claimSet))), s4, [], s4);
    RunCons(s2, Act(0, Poll), s3, [Act(0, FetchReturns(Some(claimSet)))] + [], s4);
    RunCons(s1, Act(0, Heartbeat(true)), s2, [Act(0, Poll)] + ([Act(0, FetchReturns(Some(claimSet)))] + []), s4);
    RunCons(Initial({0}), Offer(id), s1,
            [Act(0, Heartbeat(true))] + ([Act(0, Poll)] + ([Act(0, FetchReturns(Some(claimSet)))] + [])), s4);
    assert AskEvents(claimSet)
        == [Offer(id)] + ([Act(0, Heartbeat(true))] + ([Act(0, Poll)] + ([Act(0, FetchReturns(Some(claimSet)))] + [])));
  }

  /** The grant is lost on its way back and the retry meets a conflict. */
  lemma LosesResponse(claimSet: ClaimSet)
    ensures Run(Alone(claimSet.id, Asking(claimSet, 1, Sent), map[]), LoseEvents())
         == Some(Alone(claimSet.id, FRESH_AGENT.(health := Healthy), map[claimSet.id := 0]))
  {
    var id := claimSet.id;
    var owners := map[id := 0];
    var s0 := Alone(id, Asking(claimSet, 1, Sent), map[]);
    var s1 := Alone(id, Asking(claimSet, 1, Granted), owners);
    var s2 := Alone(id, Asking(claimSet, 2, Sent), owners);
    var s3 := Alone(id, Asking(claimSet, 2, Refused(409)), owners);
    var s4 := Alone(id, FRESH_AGENT.(health := Healthy), owners);
    AloneStep(id, s3.agents[0], AckFails(Retry.Http(409)), s4.agents[0], owners);
    AloneStep(id, s2.agents[0], AckServed(Refused(409)), s3.agents[0], owners);
    AloneStep(id, s1.agents[0], AckFails(Retry.Transport), s2.agents[0], owners);
    assert Apply(s0, Act(0, AckServed(Granted))) == Some(s1) by {
      assert map[0 := s0.agents[0]][0 := s1.agents[0]] == map[0 := s1.agents[0]];
      assert map[id := Pending][id := Acknowledged] == map[id := Acknowledged];
    }
    RunCons(s3, Act(0, AckFails(Retry.Http(409))), s4, [], s4);
    RunCons(s2, Act(0, AckServed(Refused(409))), s3, [Act(0, AckFails(Retry.Http(409)))] + [], s4);
    RunCons(s1, Act(0, AckFails(Retry.Transport)), s2,
            [Act(0, AckServed(Refused(409)))] + ([Act(0, AckFails(Retry.Http(409)))] + []), s4);
    RunCons(s0, Act(0, AckServed(Granted)), s1,
            [Act(0, AckFails(Retry.Transport))] + ([Act(0, AckServed(Refused(409)))] + ([Act(0, AckFails(Retry.Http(409)))] + [])), s4);
    assert LoseEvents()
        == [Act(0, AckServed(Granted))]
           + ([Act(0, AckFails(Retry.Transport))] + ([Act(0, AckServed(Refused(409)))] + ([Act(0, AckFails(Retry.Http(409)))] + [])));
  }

  lemma {:induction false} RunConcat(s: State, first: seq<FleetEvent>, t: State, second: seq<FleetEvent>)
    requires Run(s, first) == Some(t)
    ensures Run(s, first + second) == Run(t, second)
    decreases first
  {
    if first == [] {
      assert first + second == second;
    } else {
      RunConcat(Apply(s, first[0]).value, first[1..], t, second);
      assert (first + second)[1..] == first[1..] + second;
    }
  }

  /**
   Delivery is not at least once: the response to a granted acknowledgement is lost, the
   retry meets a conflict, and the set is lost although the agent is well. This is one run
   of the kind that `DeliveredUnlessLost` describes.
   */
  lemma LostResponseLosesSet(claimSet: ClaimSet)
    requires claimSet.status == Pending
    ensures exists s ::
      && Reached({0}, AskEvents(claimSet) + LoseEvents(), s)
      && Lost(s, claimSet.id)
      && 0 in s.agents && s.agents[0].alive && s.agents[0].scheduler == Sleeping && s.agents[0].slot == EMPTY_SLOT
  {
    AsksForSet(claimSet);
    LosesResponse(claimSet);
    RunConcat(Initial({0}), AskEvents(claimSet), Alone(claimSet.id, Asking(claimSet, 1, Sent), map[]), LoseEvents());
    var s := Alone(claimSet.id, FRESH_AGENT.(health := Healthy), map[claimSet.id := 0]);
    assert Reached({0}, AskEvents(claimSet) + LoseEvents(), s) && Lost(s, claimSet.id);
  }

  // ----- the event log -----

  lemma {:induction false} JobsOfOthers(jobs: seq<Job>, id: SetId, claim: nat)
    requires id !in Ids(jobs)
    ensures Project(LogOf(jobs), id, claim) == []
    decreases |jobs|
  {
    if jobs != [] {
      var last := jobs[|jobs| - 1];
      JobsOfOthers(jobs[..|jobs| - 1], id, claim);
      ProjectConcat(LogOf(jobs[..|jobs| - 1]), JobLog(last), id, claim);
      JobOfOther(last, id, claim);
    }
  }

  lemma JobOfOther(job: Job, id: SetId, claim: nat)
    requires id != job.claimSet.id || |job.claimSet.claims| <= claim
    ensures Project(JobLog(job), id, claim) == []
  {
    ProjectConcat(QueuedEvents(job.claimSet, |job.claimSet.claims|), RunEvents(job.claimSet, job.outcomes), id, claim);
    ProjectQueued(job.claimSet, |job.claimSet.claims|, id, claim);
    StableOrderIsStable(job.claimSet.claims);
    if |job.outcomes| <= |job.claimSet.claims| {
      ProjectOthers(job.claimSet, job.outcomes, id, claim);
    }
  }

  /** The events of the claim that is k-th in execution order, after its set ran this far. */
  function Story(outcomes: seq<bool>, k: nat): seq<EventKind> {
    if k < |outcomes| then [ScenarioQueued, ScenarioExecuting, Verdict(outcomes[k])] else [ScenarioQueued]
  }

  lemma JobStory(job: Job, k: nat)
    requires |job.outcomes| <= |job.claimSet.claims| && k < |job.claimSet.claims|
    ensures Project(JobLog(job), job.claimSet.id, StableOrder(job.claimSet.claims)[k]) == Story(job.outcomes, k)
  {
    var id, claim := job.claimSet.id, StableOrder(job.claimSet.claims)[k];
    ProjectConcat(QueuedEvents(job.claimSet, |job.claimSet.claims|), RunEvents(job.claimSet, job.outcomes), id, claim);
    ProjectQueued(job.claimSet, |job.claimSet.claims|, id, claim);
    if k < |job.outcomes| {
      ProjectRun(job.claimSet, job.outcomes, k);
    } else {
      StableOrderDistinct(job.claimSet.claims, k);
      ProjectOthers(job.claimSet, job.outcomes, id, claim);
    }
  }

  lemma {:induction false} IdsAt(jobs: seq<Job>, k: nat)
    requires k < |jobs|
    ensures |Ids(jobs)| == |jobs| && Ids(jobs)[k] == jobs[k].claimSet.id
    decreases |jobs|
  {
    if k < |jobs| - 1 {
      IdsAt(jobs[..|jobs| - 1], k);
    } else {
      IdsLength(jobs[..|jobs| - 1]);
    }
  }

  lemma {:induction false} IdsLength(jobs: seq<Job>)
    ensures |Ids(jobs)| == |jobs|
    decreases |jobs|
  {
    if jobs != [] {
      IdsLength(jobs[..|jobs| - 1]);
    }
  }

  /** Among jobs with distinct ids, only the claim's own job contributes to its projection. */
  lemma {:induction false} OwnJob(jobs: seq<Job>, k: nat, claim: nat)
    requires k < |jobs| && Distinct(Ids(jobs))
    ensures Project(LogOf(jobs), jobs[k].claimSet.id, claim) == Project(JobLog(jobs[k]), jobs[k].claimSet.id, claim)
    decreases |jobs|
  {
    var init, last := jobs[..|jobs| - 1], jobs[|jobs| - 1];
    var id := jobs[k].claimSet.id;
    IdsAt(jobs, k);
    IdsAt(jobs, |jobs| - 1);
    ProjectConcat(LogOf(init), JobLog(last), id, claim);
    IdsLength(init);
    assert Ids(jobs)[..|init|] == Ids(init);
    assert Distinct(Ids(init)) by {
      assert forall m :: 0 <= m < |init| ==> Ids(init)[m] == Ids(jobs)[m];
    }
    if k < |jobs| - 1 {
      OwnJob(init, k, claim);
      JobOfOther(last, id, claim);
    } else {
      JobsOfOthers(init, id, claim);
    }
  }

  /** The events of one claim of the set in the slot: as for a job, plus the execution under way. */
  function SlotStory(runner: Runner, k: nat): seq<EventKind> {
    if runner.Resting? then [ScenarioQueued]
    else Story(runner.outcomes, k) + if k == |runner.outcomes| then [ScenarioExecuting] else []
  }

  lemma CurrentStory(a: Agent, k: nat)
    requires InStep(a) && a.slot.claimSet.Some? && k < |a.slot.claimSet.value.claims|
    ensures Project(CurrentLog(a.slot, a.runner), a.slot.claimSet.value.id, StableOrder(a.slot.claimSet.value.claims)[k])
         == SlotStory(a.runner, k)
  {
    var claimSet := a.slot.claimSet.value;
    var claim := StableOrder(claimSet.claims)[k];
    if a.runner.Resting? {
      JobStory(Job(claimSet, []), k);
    } else {
      var n := |a.runner.outcomes|;
      StableOrderDistinct(claimSet.claims, k);
      JobStory(Job(claimSet, a.runner.outcomes), k);
      ProjectConcat(JobLog(Job(claimSet, a.runner.outcomes)), [Opening(claimSet, n)], claimSet.id, claim);
      assert [Opening(claimSet, n)][1..] == [];
    }
  }

  lemma CurrentOfOthers(a: Agent, id: SetId, claim: nat)
    requires InStep(a)
    requires a.slot.claimSet.Some? ==> id != a.slot.claimSet.value.id || |a.slot.claimSet.value.claims| <= claim
    ensures Project(CurrentLog(a.slot, a.runner), id, claim) == []
  {
    if a.slot.claimSet.Some? {
      StableOrderIsStable(a.slot.claimSet.value.claims);
      JobOfOther(Job(a.slot.claimSet.value, []), id, claim);
      if a.runner.Executing? {
        var opening := Opening(a.runner.claimSet, |a.runner.outcomes|);
        JobOfOther(Job(a.runner.claimSet, a.runner.outcomes), id, claim);
        ProjectConcat(JobLog(Job(a.runner.claimSet, a.runner.outcomes)), [opening], id, claim);
        assert [opening][1..] == [];
      }
    }
  }

  /**
   The whole log of an agent, seen from one claim of one of its finished sets: QUEUED and,
   if the claim ran, EXECUTING and its verdict, exactly once each in the whole run.
   */
  lemma FinishedClaimStory(ids: set<AgentId>, events: seq<FleetEvent>, s: State, agent: AgentId, n: nat, k: nat)
    requires Reached(ids, events, s) && agent in s.agents && n < |s.agents[agent].finished|
    requires k < |s.agents[agent].finished[n].claimSet.claims|
    ensures var job := s.agents[agent].finished[n];
            Project(s.agents[agent].log, job.claimSet.id, StableOrder(job.claimSet.claims)[k])
            == if |job.outcomes| <= k then [ScenarioQueued]
               else if job.outcomes[k] then [ScenarioQueued, ScenarioExecuting, ScenarioSucceeded]
               else [ScenarioQueued, ScenarioExecuting, ScenarioFailed]
  {
    var a := s.agents[agent];
    var job := a.finished[n];
    var claim := StableOrder(job.claimSet.claims)[k];
    Conserved(ids, events, s, agent);
    ReachedInv(ids, events, s);
    assert AgentInv(a);
    DistinctParts(Ids(a.finished), CurrentIds(a.slot));
    IdsAt(a.finished, n);
    assert job.claimSet.id in Ids(a.finished);
    ProjectConcat(LogOf(a.finished), CurrentLog(a.slot, a.runner), job.claimSet.id, claim);
    OwnJob(a.finished, n, claim);
    JobStory(job, k);
    CurrentOfOthers(a, job.claimSet.id, claim);
  }

  /** The same for the set in the slot: the claim under way has EXECUTING but no verdict yet. */
  lemma SlotClaimStory(ids: set<AgentId>, events: seq<FleetEvent>, s: State, agent: AgentId, k: nat)
    requires Reached(ids, events, s) && agent in s.agents && s.agents[agent].slot.claimSet.Some?
    requires k < |s.agents[agent].slot.claimSet.value.claims|
    ensures var claimSet := s.agents[agent].slot.claimSet.value;
            Project(s.agents[agent].log, claimSet.id, StableOrder(claimSet.claims)[k])
            == if s.agents[agent].runner.Resting? || |s.agents[agent].runner.outcomes| < k then [ScenarioQueued]
               else if |s.agents[agent].runner.outcomes| == k then [ScenarioQueued, ScenarioExecuting]
               else if s.agents[agent].runner.outcomes[k] then [ScenarioQueued, ScenarioExecuting, ScenarioSucceeded]
               else [ScenarioQueued, ScenarioExecuting, ScenarioFailed]
  {
    var a := s.agents[agent];
    var claimSet := a.slot.claimSet.value;
    Conserved(ids, events, s, agent);
    ReachedInv(ids, events, s);
    assert AgentInv(a);
    DistinctParts(Ids(a.finished), CurrentIds(a.slot));
    assert claimSet.id in CurrentIds(a.slot);
    ProjectConcat(LogOf(a.finished), CurrentLog(a.slot, a.runner), claimSet.id, StableOrder(claimSet.claims)[k]);
    JobsOfOthers(a.finished, claimSet.id, StableOrder(claimSet.claims)[k]);
    CurrentStory(a, k);
  }

  lemma DistinctParts(first: seq<SetId>, second: seq<SetId>)
    requires Distinct(first + second)
    ensures Distinct(first) && forall x :: x in first ==> x !in second
  {
    forall j, k | 0 <= j < k < |first|
      ensures first[j] != first[k]
    {
      assert (first + second)[j] != (first + second)[k];
    }
    forall j, k | 0 <= j < |first| && 0 <= k < |second|
      ensures first[j] != second[k]
    {
      assert (first + second)[j] != (first + second)[|first| + k];
    }
  }

  /** The event sequences a claim can show. */
  predicate InLanguage(kinds: seq<EventKind>) {
    || kinds == []
    || kinds == [ScenarioQueued]
    || kinds == [ScenarioQueued, ScenarioExecuting]
    || kinds == [ScenarioQueued, ScenarioExecuting, ScenarioSucceeded]
    || kinds == [ScenarioQueued, ScenarioExecuting, ScenarioFailed]
  }

  /** The set with this id and a claim at this index is among the finished ones, or in the slot. */
  ghost predicate HasQueued(a: Agent, id: SetId, claim: nat) {
    || (exists job :: job in a.finished && job.claimSet.id == id && claim < |job.claimSet.claims|)
    || (a.slot.claimSet.Some? && a.slot.claimSet.value.id == id && claim < |a.slot.claimSet.value.claims|)
  }

  /**
   The language of the event log: for every claim of every set an agent's own events are
   QUEUED, then possibly EXECUTING, then possibly one verdict; and there are some exactly
   when the agent has queued such a claim.
   */
  lemma LogLanguage(ids: set<AgentId>, events: seq<FleetEvent>, s: State, agent: AgentId, id: SetId, claim: nat)
    requires Reached(ids, events, s) && agent in s.agents
    ensures InLanguage(Project(s.agents[agent].log, id, claim))
    ensures Project(s.agents[agent].log, id, claim) != [] <==> HasQueued(s.agents[agent], id, claim)
  {
    var a := s.agents[agent];
    Conserved(ids, events, s, agent);
    ReachedInv(ids, events, s);
    assert AgentInv(a);
    DistinctParts(Ids(a.finished), CurrentIds(a.slot));
    ProjectConcat(LogOf(a.finished), CurrentLog(a.slot, a.runner), id, claim);
    if id in Ids(a.finished) {
      FinishedLanguage(ids, events, s, agent, id, claim);
    } else {
      JobsOfOthers(a.finished, id, claim);
      NoJobWithId(a.finished, id);
      if a.slot.claimSet.Some? && a.slot.claimSet.value.id == id && claim < |a.slot.claimSet.value.claims| {
        StableOrderIsStable(a.slot.claimSet.value.claims);
        Onto(StableOrder(a.slot.claimSet.value.claims), |a.slot.claimSet.value.claims|, claim);
        var k :| 0 <= k < |a.slot.claimSet.value.claims| && StableOrder(a.slot.claimSet.value.claims)[k] == claim;
        CurrentStory(a, k);
      } else {
        CurrentOfOthers(a, id, claim);
      }
    }
  }

  lemma {:induction false} NoJobWithId(jobs: seq<Job>, id: SetId)
    requires id !in Ids(jobs)
    ensures forall job :: job in jobs ==> job.claimSet.id != id
    decreases |jobs|
  {
    if jobs != [] {
      NoJobWithId(jobs[..|jobs| - 1], id);
      assert forall job :: job in jobs ==> job in jobs[..|jobs| - 1] || job == jobs[|jobs| - 1];
    }
  }

  lemma FinishedLanguage(ids: set<AgentId>, events: seq<FleetEvent>, s: State, agent: AgentId, id: SetId, claim: nat)
    requires Reached(ids, events, s) && agent in s.agents && id in Ids(s.agents[agent].finished)
    ensures InLanguage(Project(s.agents[agent].log, id, claim))
    ensures Project(s.agents[agent].log, id, claim) != [] <==> HasQueued(s.agents[agent], id, claim)
  {
    var a := s.agents[agent];
    Conserved(ids, events, s, agent);
    ReachedInv(ids, events, s);
    assert AgentInv(a);
    DistinctParts(Ids(a.finished), CurrentIds(a.slot));
    var n := FindJob(a.finished, id);
    var job := a.finished[n];
    if claim < |job.claimSet.claims| {
      StableOrderIsStable(job.claimSet.claims);
      Onto(StableOrder(job.claimSet.claims), |job.claimSet.claims|, claim);
      var k :| 0 <= k < |job.claimSet.claims| && StableOrder(job.claimSet.claims)[k] == claim;
      FinishedClaimStory(ids, events, s, agent, n, k);
    } else {
      ProjectConcat(LogOf(a.finished), CurrentLog(a.slot, a.runner), id, claim);
      OwnJob(a.finished, n, claim);
      JobOfOther(job, id, claim);
      CurrentOfOthers(a, id, claim);
    }
  }

  /** Among jobs with distinct ids there is one and only one with a listed id. */
  lemma FindJob(jobs: seq<Job>, id: SetId) returns (n: nat)
    requires id in Ids(jobs) && Distinct(Ids(jobs))
    ensures n < |jobs| && jobs[n].claimSet.id == id
    ensures forall job :: job in jobs && job.claimSet.id == id ==> job == jobs[n]
  {
    IdsLength(jobs);
    n :| n < |Ids(jobs)| && Ids(jobs)[n] == id;
    IdsAt(jobs, n);
    forall m | 0 <= m < |jobs| && jobs[m].claimSet.id == id
      ensures m == n
    {
      IdsAt(jobs, m);
    }
  }

  lemma {:induction false} JobsKeepClosed(jobs: seq<Job>)
    ensures FeedAll(Closed, LogOf(jobs)) == Closed
    decreases |jobs|
  {
    if jobs != [] {
      JobsKeepClosed(jobs[..|jobs| - 1]);
      FeedConcat(Closed, LogOf(jobs[..|jobs| - 1]), JobLog(jobs[|jobs| - 1]));
      JobKeepsClosed(jobs[|jobs| - 1]);
    }
  }

  lemma JobKeepsClosed(job: Job)
    ensures FeedAll(Closed, JobLog(job)) == Closed
  {
    FeedConcat(Closed, QueuedEvents(job.claimSet, |job.claimSet.claims|), RunEvents(job.claimSet, job.outcomes));
    QueuedKeepsClosed(job.claimSet, |job.claimSet.claims|);
    if |job.outcomes| <= |job.claimSet.claims| {
      RunKeepsClosed(job.claimSet, job.outcomes);
    }
  }

  /**
   Never are two executions open at once: in every agent's log an execution opens only when
   none is open, closes with its own verdict, and is open at the end exactly when the
   runner is inside that claim.
   */
  lemma OneExecutionAtATime(ids: set<AgentId>, events: seq<FleetEvent>, s: State, agent: AgentId)
    requires Reached(ids, events, s) && agent in s.agents
    ensures var a := s.agents[agent];
            FeedAll(Closed, a.log)
            == if a.runner.Executing? && |a.runner.outcomes| < |a.runner.claimSet.claims|
               then Open(a.runner.claimSet.id, StableOrder(a.runner.claimSet.claims)[|a.runner.outcomes|])
               else Closed
  {
    ReachedInv(ids, events, s);
    var a := s.agents[agent];
    assert AgentInv(a);
    FeedConcat(Closed, LogOf(a.finished), CurrentLog(a.slot, a.runner));
    JobsKeepClosed(a.finished);
    if a.slot.claimSet.Some? {
      JobKeepsClosed(Job(a.slot.claimSet.value, []));
      if a.runner.Executing? {
        var job, opening := Job(a.runner.claimSet, a.runner.outcomes), Opening(a.runner.claimSet, |a.runner.outcomes|);
        JobKeepsClosed(job);
        FeedConcat(Closed, JobLog(job), [opening]);
        FeedPair(Closed, opening, opening);
      }
    }
  }
}
