/**
 What the election guarantees in every reachable state of every run, for any number of
 agents, any durations and any lease left behind on the server.
 */
module ElectionTheorems {
  import opened Wrappers
  import opened Leases
  import opened Election

  /**
   The agent's last confirmed write is still within its own lease duration, whatever the
   clocks show; without skew: by the one clock there is.
   */
  ghost predicate InWindow(s: State, id: Identity) {
    && id in s.agents && s.agents[id].confirmed.Some?
    && s.clock + s.skew <= s.agents[id].confirmed.value.Deadline()
  }

  /** The server's current lease is a write of `id` renewed no earlier than `since`. */
  ghost predicate HeldBy(s: State, id: Identity, since: Time) {
    && s.writes != []
    && Server(s) == Some(Lease(Versions(s) - 1, Some(s.writes[|s.writes| - 1].Spec())))
    && s.writes[|s.writes| - 1].holder == id
    && since <= s.writes[|s.writes| - 1].renewed
  }

  /** As long as a write's window is open, nobody else's write stands on the server. */
  lemma OpenWindowHolds(durations: map<Identity, nat>, s: State, st: Stamp)
    requires Inv(durations, s) && st in s.writes && s.clock + s.skew <= st.Deadline()
    ensures HeldBy(s, st.holder, st.renewed)
  {
    var k :| 0 <= k < |s.writes| && s.writes[k] == st;
    ChainOrders(s.writes, k, |s.writes| - 1);
    var last := s.writes[|s.writes| - 1];
    assert StampOk(durations, s, last);
    assert AgentOk(durations, s, last.holder, s.agents[last.holder]);
  }

  /** An agent inside its window is the holder stored on the server. */
  lemma InWindowIsHolder(durations: map<Identity, nat>, start: Time, skew: nat, foreign: seq<Option<LeaseSpec>>,
                         events: seq<Event>, s: State, id: Identity)
    requires Reached(durations, start, skew, foreign, events, s) && InWindow(s, id)
    ensures HeldBy(s, id, s.agents[id].confirmed.value.renewed)
  {
    ReachedInv(durations, start, skew, foreign, events, s);
    assert AgentOk(durations, s, id, s.agents[id]);
    OpenWindowHolds(durations, s, s.agents[id].confirmed.value);
  }

  /** Mutual exclusion: at no time are two agents inside their windows. */
  lemma Exclusivity(durations: map<Identity, nat>, start: Time, skew: nat, foreign: seq<Option<LeaseSpec>>,
                    events: seq<Event>, s: State, i: Identity, j: Identity)
    requires Reached(durations, start, skew, foreign, events, s)
    requires InWindow(s, i) && InWindow(s, j)
    ensures i == j
  {
    InWindowIsHolder(durations, start, skew, foreign, events, s, i);
    InWindowIsHolder(durations, start, skew, foreign, events, s, j);
  }

  /**
   The history of the lease: renew times never go back, a change of holder lies strictly
   past the old holder's deadline, and the acquire time is never rewritten; on a server
   that was empty it is the creation time, so it never exceeds a renew time.
   */
  lemma LeaseHistory(durations: map<Identity, nat>, start: Time, skew: nat, foreign: seq<Option<LeaseSpec>>,
                     events: seq<Event>, s: State, j: nat, k: nat)
    requires Reached(durations, start, skew, foreign, events, s)
    requires j <= k < |s.writes|
    ensures s.writes[j].renewed <= s.writes[k].renewed <= s.clock + skew
    ensures s.writes[j].holder != s.writes[k].holder ==> s.writes[j].Deadline() < s.writes[k].renewed
    ensures s.writes[j].acquired == s.writes[k].acquired
    ensures foreign == [] ==> s.writes[k].acquired == s.writes[0].renewed <= s.writes[k].renewed
  {
    ReachedInv(durations, start, skew, foreign, events, s);
    ChainOrders(s.writes, j, k);
    ChainOrders(s.writes, 0, k);
    assert StampOk(durations, s, s.writes[k]);
    assert AgentOk(durations, s, s.writes[k].holder, s.agents[s.writes[k].holder]);
  }

  /**
   Of all calls in a run that acted on the same version, or that all found no lease, at
   most one returned True, and what it wrote itself is what is stored on top of that version.
   */
  lemma OneWinnerPerVersion(durations: map<Identity, nat>, start: Time, skew: nat, foreign: seq<Option<LeaseSpec>>,
                            events: seq<Event>, s: State, j: nat, k: nat)
    requires Reached(durations, start, skew, foreign, events, s)
    requires j < |s.wins| && k < |s.wins| && s.wins[j].basis == s.wins[k].basis
    ensures j == k && s.wins[j].stamp.holder == s.wins[j].id
    ensures Stored(s, s.wins[j].basis, s.wins[j].stamp)
  {
    ReachedInv(durations, start, skew, foreign, events, s);
  }

  /** A publish attempt within the window of its check is made by the stored holder. */
  lemma TimelyPublisherHolds(durations: map<Identity, nat>, start: Time, skew: nat, foreign: seq<Option<LeaseSpec>>,
                             events: seq<Event>, s: State, id: Identity, t: State)
    requires Reached(durations, start, skew, foreign, events, s)
    requires Apply(durations, s, Act(id, Publish)) == Some(t)
    requires InWindow(s, id)
    ensures HeldBy(t, id, s.agents[id].confirmed.value.renewed)
    ensures t.publications == s.publications + [Publication(id, s.clock, s.agents[id].confirmed.value, Server(s))]
  {
    InWindowIsHolder(durations, start, skew, foreign, events, s, id);
  }

  /**
   Publish attempts of two agents have disjoint windows, and a timely attempt comes
   strictly before every attempt under a later window.
   */
  lemma PublicationsSeparated(durations: map<Identity, nat>, start: Time, skew: nat, foreign: seq<Option<LeaseSpec>>,
                              events: seq<Event>, s: State, p: Publication, q: Publication)
    requires Reached(durations, start, skew, foreign, events, s)
    requires p in s.publications && q in s.publications && p.id != q.id
    ensures p.cover.Deadline() < q.cover.renewed || q.cover.Deadline() < p.cover.renewed
    ensures p.at + skew <= p.cover.Deadline() && p.cover.renewed <= q.cover.renewed ==> p.at < q.at
  {
    ReachedInv(durations, start, skew, foreign, events, s);
    var j :| 0 <= j < |s.writes| && s.writes[j] == p.cover;
    var k :| 0 <= k < |s.writes| && s.writes[k] == q.cover;
    if j <= k {
      ChainOrders(s.writes, j, k);
    } else {
      ChainOrders(s.writes, k, j);
    }
  }

  // ----- the flag over a whole run -----

  /** The last call to return normally decides; a new process starts without the flag. */
  function LastSaid(actions: seq<Action>): bool {
    if actions == [] then false
    else
      var last := actions[|actions| - 1];
      if last == Confirmed then true
      else if last == Refuse || last == Conflicted || last == Restart then false
      else LastSaid(actions[..|actions| - 1])
  }

  lemma LastSaidSnoc(said: seq<Action>, action: Action)
    ensures LastSaid(said + [action])
         == (action == Confirmed || (action != Refuse && action != Conflicted && action != Restart && LastSaid(said)))
  {
    assert (said + [action])[..|said|] == said;
  }

  lemma StepFlag(id: Identity, own: nat, a: Agent, said: seq<Action>, action: Action, b: Agent)
    requires a.isLeader == LastSaid(said) && Next(id, own, a, action) == Some(b)
    ensures b.isLeader == LastSaid(said + [action])
  {
    LastSaidSnoc(said, action);
  }

  lemma {:induction false} LocalFlag(id: Identity, own: nat, a: Agent, said: seq<Action>, actions: seq<Action>, b: Agent)
    requires a.isLeader == LastSaid(said) && LocalRun(id, own, a, actions) == Some(b)
    ensures b.isLeader == LastSaid(said + actions)
    decreases actions
  {
    if actions == [] {
      assert said + actions == said;
    } else {
      var next := Next(id, own, a, actions[0]).value;
      StepFlag(id, own, a, said, actions[0], next);
      LocalFlag(id, own, next, said + [actions[0]], actions[1..], b);
      Associative(said, [actions[0]], actions[1..]);
      assert actions == [actions[0]] + actions[1..];
    }
  }

  /**
   In every reached state an agent's flag is what its last call that returned normally
   returned; calls that raised, and the one under way, have not touched it.
   */
  lemma FlagIsLastResult(durations: map<Identity, nat>, start: Time, skew: nat, foreign: seq<Option<LeaseSpec>>,
                         events: seq<Event>, s: State, id: Identity)
    requires Reached(durations, start, skew, foreign, events, s) && id in s.agents
    ensures s.agents[id].isLeader == LastSaid(ActionsOf(id, events))
  {
    ReachedInv(durations, start, skew, foreign, events, s);
    var initial := Initial(durations, start, skew, foreign);
    RunProjects(durations, initial, events, s, id);
    LocalFlag(id, durations[id], initial.agents[id], [], ActionsOf(id, events), s.agents[id]);
    assert [] + ActionsOf(id, events) == ActionsOf(id, events);
  }

  /** A process that has just started knows of no earlier call: it neither leads nor is covered by any write. */
  lemma RestartForgets(durations: map<Identity, nat>, s: State, id: Identity)
    requires id in s.agents && id in durations
    ensures Apply(durations, s, Act(id, Restart)).Some?
    ensures var t := Apply(durations, s, Act(id, Restart)).value;
            && id in t.agents && t.agents[id].phase.Idle?
            && !t.agents[id].isLeader && !t.agents[id].armed && t.agents[id].confirmed == None
            && !InWindow(t, id) && t.writes == s.writes
  {
  }

  // ----- requests that arrive late -----

  lemma RunCons(durations: map<Identity, nat>, s: State, e: Event, t: State, rest: seq<Event>, u: State)
    requires Apply(durations, s, e) == Some(t) && Run(durations, t, rest) == Some(u)
    ensures Run(durations, s, [e] + rest) == Some(u)
  {
    assert ([e] + rest)[1..] == rest;
  }

  /**
   An agent that stops waiting for its request, because the call failed or the process died,
   leaves it under way: it may still arrive at any time, and it is applied exactly when the
   version it was based on is still the last one.
   */
  lemma GivenUpMayArrive(durations: map<Identity, nat>, start: Time, skew: nat, foreign: seq<Option<LeaseSpec>>,
                         events: seq<Event>, s: State, id: Identity, request: Request, action: Action)
    requires Reached(durations, start, skew, foreign, events, s)
    requires id in s.agents && s.agents[id].phase == Writing(request, Pending)
    requires action == WriteFails || action == Restart
    ensures exists late ::
      && Run(durations, s, [Act(id, action), Late(request)]) == Some(late)
      && late.writes == if request.Basis() == Versions(s) - 1 then s.writes + [request.stamp] else s.writes
  {
    ReachedInv(durations, start, skew, foreign, events, s);
    var t := Apply(durations, s, Act(id, action)).value;
    var late := Apply(durations, t, Late(request)).value;
    RunCons(durations, t, Late(request), late, [], late);
    RunCons(durations, s, Act(id, action), t, [Late(request)], late);
    assert [Late(request)] == [Late(request)] + [];
    assert [Act(id, action), Late(request)] == [Act(id, action)] + [Late(request)];
  }

  // ----- publish attempts of a whole run -----

  /** At the moment of the attempt the stored lease was the publisher's, renewed no earlier than by its check. */
  predicate MadeByHolder(p: Publication) {
    && p.stored.Some? && p.stored.value.spec.Some?
    && p.stored.value.spec.value.holderIdentity == Some(p.id)
    && p.stored.value.spec.value.renewTime.Some?
    && p.cover.renewed <= p.stored.value.spec.value.renewTime.value
  }

  /** Every attempt that was made within the window of its check was made by the stored holder. */
  ghost predicate TimelyAreHolders(s: State) {
    forall p :: p in s.publications && p.at + s.skew <= p.cover.Deadline() ==> MadeByHolder(p)
  }

  lemma {:induction false} RunKeepsHolders(durations: map<Identity, nat>, s: State, events: seq<Event>, t: State)
    requires Inv(durations, s) && TimelyAreHolders(s) && Run(durations, s, events) == Some(t)
    ensures TimelyAreHolders(t)
    decreases events
  {
    if events != [] {
      var next := Apply(durations, s, events[0]).value;
      StepKeepsInv(durations, s, events[0], next);
      assert TimelyAreHolders(next) by {
        if events[0].Act? && events[0].action == Publish {
          PublishKeepsHolders(durations, s, events[0].id, next);
        } else {
          assert next.publications == s.publications && next.skew == s.skew;
        }
      }
      RunKeepsHolders(durations, next, events[1..], t);
    }
  }

  lemma PublishKeepsHolders(durations: map<Identity, nat>, s: State, id: Identity, t: State)
    requires Inv(durations, s) && TimelyAreHolders(s) && Apply(durations, s, Act(id, Publish)) == Some(t)
    ensures TimelyAreHolders(t)
  {
    assert AgentOk(durations, s, id, s.agents[id]);
    var cover := s.agents[id].confirmed.value;
    var p := Publication(id, s.clock, cover, Server(s));
    assert t.publications == s.publications + [p] && t.skew == s.skew;
    if s.clock + s.skew <= cover.Deadline() {
      OpenWindowHolds(durations, s, cover);
      assert MadeByHolder(p);
    }
  }

  /** The writes that cover the publish attempts of `id`, in order. */
  function CoversOf(id: Identity, publications: seq<Publication>): seq<Stamp> {
    if publications == [] then []
    else
      var last := publications[|publications| - 1];
      CoversOf(id, publications[..|publications| - 1]) + if last.id == id then [last.cover] else []
  }

  /** The write that covers a step: only a publish attempt has one. */
  function CoverOf(a: Agent, action: Action): seq<Stamp> {
    if action == Publish && a.confirmed.Some? then [a.confirmed.value] else []
  }

  /** The same, read off the agent's own steps. */
  function LocalCovers(id: Identity, own: nat, a: Agent, actions: seq<Action>): seq<Stamp>
    decreases actions
  {
    if actions == [] then []
    else match Next(id, own, a, actions[0])
      case None => []
      case Some(b) => CoverOf(a, actions[0]) + LocalCovers(id, own, b, actions[1..])
  }

  /** What a run adds to the publish attempts of an agent is what its own steps say. */
  lemma {:induction false} CoversProject(durations: map<Identity, nat>, s: State, events: seq<Event>, t: State, id: Identity)
    requires id in s.agents && id in durations && Run(durations, s, events) == Some(t)
    ensures CoversOf(id, t.publications)
         == CoversOf(id, s.publications) + LocalCovers(id, durations[id], s.agents[id], ActionsOf(id, events))
    decreases events
  {
    if events != [] {
      var next := Apply(durations, s, events[0]).value;
      CoversProject(durations, next, events[1..], t, id);
      StepCovers(durations, s, events[0], next, id);
      if events[0].Act? && events[0].id == id {
        assert ActionsOf(id, events)[1..] == ActionsOf(id, events[1..]);
        assert LocalCovers(id, durations[id], s.agents[id], ActionsOf(id, events))
            == CoverOf(s.agents[id], events[0].action)
               + LocalCovers(id, durations[id], next.agents[id], ActionsOf(id, events[1..]));
        Associative(CoversOf(id, s.publications), CoverOf(s.agents[id], events[0].action),
                    LocalCovers(id, durations[id], next.agents[id], ActionsOf(id, events[1..])));
      } else {
        assert ActionsOf(id, events) == ActionsOf(id, events[1..]);
      }
    }
  }

  lemma StepCovers(durations: map<Identity, nat>, s: State, e: Event, t: State, id: Identity)
    requires id in s.agents && id in durations && Apply(durations, s, e) == Some(t)
    ensures CoversOf(id, t.publications) == CoversOf(id, s.publications)
            + if e.Act? && e.id == id then CoverOf(s.agents[id], e.action) else []
  {
    if e.Act? && e.action == Publish && s.agents[e.id].confirmed.Some? {
      assert t.publications[..|t.publications| - 1] == s.publications;
    } else {
      assert t.publications == s.publications;
    }
  }

  // ----- calls that nothing disturbs, and what fails without the window -----

  /** The answer to the read, and the step it leads to when the agent's clock shows `now`. */
  function ReadAnswer(s: State): Action {
    if Server(s).None? then Got404 else GotLease(Server(s).value)
  }

  function Decision(s: State, id: Identity, own: nat, now: Time): Action {
    if Server(s).None? then SendCreate(now)
    else if CanAcquireOrRenew(id, own, SpecOrEmpty(Server(s).value.spec), now) then SendReplace
    else Refuse
  }

  /** The events of one call of `id` made while nothing else happens and no request fails. */
  function CallEvents(s: State, id: Identity, own: nat, now: Time): seq<Event> {
    [Act(id, Begin(now)), Act(id, ReadAnswer(s)), Act(id, Decision(s, id, own, now))]
    + if Decision(s, id, own, now) == Refuse then [] else [Act(id, Served(true)), Act(id, Confirmed)]
  }

  /** The same call as one big step. */
  function AfterCall(s: State, id: Identity, own: nat, now: Time): State
    requires id in s.agents
  {
    var a := s.agents[id].(lastNow := now);
    if Decision(s, id, own, now) == Refuse then
      s.(agents := s.agents[id := a.(isLeader := false, armed := false)])
    else
      var stamp := if Server(s).None? then NewStamp(id, own, now)
                   else UpdatedStamp(id, own, SpecOrEmpty(Server(s).value.spec), now);
      s.(writes := s.writes + [stamp], wins := s.wins + [Win(id, Versions(s) - 1, stamp)],
         agents := s.agents[id := a.(isLeader := true, confirmed := Some(stamp), armed := true)])
  }

  lemma {:induction false} RunConcat(durations: map<Identity, nat>, s: State, first: seq<Event>, t: State, second: seq<Event>)
    requires Run(durations, s, first) == Some(t)
    ensures Run(durations, s, first + second) == Run(durations, t, second)
    decreases first
  {
    if first == [] {
      assert first + second == second;
    } else {
      RunConcat(durations, Apply(durations, s, first[0]).value, first[1..], t, second);
      assert (first + second)[1..] == first[1..] + second;
    }
  }

  /** From the moment the request is out: it is served and confirmed. */
  lemma WriteGoesThrough(durations: map<Identity, nat>, s: State, id: Identity, r: Request, t: State)
    requires id in s.agents && id in durations
    requires s.agents[id].phase == Writing(r, Pending) && Accepts(s, r)
    requires t == s.(writes := s.writes + [r.stamp], wins := s.wins + [Win(id, r.Basis(), r.stamp)],
                     agents := s.agents[id := s.agents[id].(phase := Idle, isLeader := true,
                                                            confirmed := Some(r.stamp), armed := true)])
    ensures Run(durations, s, [Act(id, Served(true)), Act(id, Confirmed)]) == Some(t)
  {
    var u := Apply(durations, s, Act(id, Served(true))).value;
    assert Apply(durations, u, Act(id, Confirmed)) == Some(t) by {
      assert u.agents[id := t.agents[id]] == t.agents;
    }
    RunCons(durations, u, Act(id, Confirmed), t, [], t);
    RunCons(durations, s, Act(id, Served(true)), u, [Act(id, Confirmed)], t);
    assert [Act(id, Confirmed)] == [Act(id, Confirmed)] + [];
    assert [Act(id, Served(true)), Act(id, Confirmed)] == [Act(id, Served(true))] + [Act(id, Confirmed)];
  }

  /** The state in which agent `id` is `a` and everything else is as in `s`. */
  function With(s: State, id: Identity, a: Agent): State {
    s.(agents := s.agents[id := a])
  }

  /** Steps inside a call that touch nothing but the agent. */
  lemma PrivateStep(durations: map<Identity, nat>, s: State, id: Identity, a: Agent, action: Action, b: Agent)
    requires id in durations && Next(id, durations[id], a, action) == Some(b)
    requires Allowed(With(s, id, a), a, action)
    requires action.Begin? || action.GotLease? || action.Got404? || action.Refuse? || action.SendReplace? || action.SendCreate?
    ensures Apply(durations, With(s, id, a), Act(id, action)) == Some(With(s, id, b))
  {
    assert s.agents[id := a][id := b] == s.agents[id := b];
  }

  /** The agent once it has read and decided. */
  function Decided(s: State, id: Identity, own: nat, now: Time): Option<Agent>
    requires id in s.agents
  {
    var a := s.agents[id].(phase := Called(now), armed := false, lastNow := now);
    match Next(id, own, a, ReadAnswer(s))
    case None => None
    case Some(b) => Next(id, own, b, Decision(s, id, own, now))
  }

  /** A call up to its decision, followed by anything. */
  lemma CallDecides(durations: map<Identity, nat>, s: State, id: Identity, now: Time, rest: seq<Event>, t: State)
    requires id in s.agents && id in durations && s.agents[id].phase.Idle? && Reading(s, s.agents[id], now)
    requires Decided(s, id, durations[id], now).Some?
    requires Run(durations, With(s, id, Decided(s, id, durations[id], now).value), rest) == Some(t)
    ensures Run(durations, s, [Act(id, Begin(now)), Act(id, ReadAnswer(s)), Act(id, Decision(s, id, durations[id], now))] + rest)
         == Some(t)
  {
    var own := durations[id];
    var a := s.agents[id].(phase := Called(now), armed := false, lastNow := now);
    var b := Next(id, own, a, ReadAnswer(s)).value;
    var c := Decided(s, id, own, now).value;
    var decides := [Act(id, Decision(s, id, own, now))] + rest;
    PrivateStep(durations, s, id, s.agents[id], Begin(now), a);
    PrivateStep(durations, s, id, a, ReadAnswer(s), b);
    PrivateStep(durations, s, id, b, Decision(s, id, own, now), c);
    assert s == With(s, id, s.agents[id]) by { assert s.agents == s.agents[id := s.agents[id]]; }
    RunCons(durations, With(s, id, b), Act(id, Decision(s, id, own, now)), With(s, id, c), rest, t);
    RunCons(durations, With(s, id, a), Act(id, ReadAnswer(s)), With(s, id, b), decides, t);
    RunCons(durations, s, Act(id, Begin(now)), With(s, id, a), [Act(id, ReadAnswer(s))] + decides, t);
    assert [Act(id, Begin(now)), Act(id, ReadAnswer(s)), Act(id, Decision(s, id, own, now))] + rest
        == [Act(id, Begin(now))] + ([Act(id, ReadAnswer(s))] + decides);
  }

  /**
   A call that nothing disturbs returns True exactly when there is no lease, or the agent
   holds it, or it has no renew time, or it has expired, a missing or zero duration counting
   as the agent's own. Then it has written its identity, the time of the call and its own
   duration, with the acquire time it found if there was one. Otherwise it returns False and
   writes nothing.
   */
  lemma UndisturbedCall(durations: map<Identity, nat>, s: State, id: Identity, now: Time)
    requires id in s.agents && id in durations && s.agents[id].phase.Idle? && Reading(s, s.agents[id], now)
    ensures Run(durations, s, CallEvents(s, id, durations[id], now)) == Some(AfterCall(s, id, durations[id], now))
    ensures AfterCall(s, id, durations[id], now).agents[id].isLeader
            <==>
              || Server(s).None? || Server(s).value.spec.None?
              || var spec := Server(s).value.spec.value;
                 || spec.holderIdentity == Some(id)
                 || spec.renewTime.None?
                 || spec.renewTime.value
                    + 1_000_000 * (if spec.leaseDurationSeconds.None? || spec.leaseDurationSeconds == Some(0) then durations[id]
                                   else spec.leaseDurationSeconds.value) < now
    ensures AfterCall(s, id, durations[id], now).writes ==
            if !AfterCall(s, id, durations[id], now).agents[id].isLeader then s.writes
            else
              var acquired := if Server(s).Some? && Server(s).value.spec.Some? && Server(s).value.spec.value.acquireTime.Some?
                              then Server(s).value.spec.value.acquireTime.value else now;
              s.writes + [Stamp(id, acquired, now, durations[id])]
  {
    var own := durations[id];
    var t := AfterCall(s, id, own, now);
    var c := Decided(s, id, own, now).value;
    var rest := if Decision(s, id, own, now) == Refuse then [] else [Act(id, Served(true)), Act(id, Confirmed)];
    if Decision(s, id, own, now) != Refuse {
      assert With(s, id, c).agents[id := t.agents[id]] == t.agents;
      WriteGoesThrough(durations, With(s, id, c), id, c.phase.request, t);
    }
    CallDecides(durations, s, id, now, rest, t);
  }

  /**
   The run behind the counterexamples: `i` creates at 0 and is silent; at the time `at`,
   `j`, whose clock runs ahead by the skew, takes over.
   */
  lemma TakeOver(i: Identity, j: Identity, d: nat, skew: nat, at: Time) returns (events: seq<Event>, s: State)
    requires i != j && Seconds(d) < at + skew && 0 <= at
    ensures Reached(map[i := d, j := d], 0, skew, [], events, s) && s.clock == at && s.skew == skew
    ensures s.agents.Keys == {i, j} && s.agents[i].isLeader && s.agents[j].isLeader
    ensures s.agents[i].phase.Idle? && s.agents[i].armed && s.agents[i].confirmed == Some(NewStamp(i, d, 0))
    ensures s.agents[i].lastNow == 0 && !HeldBy(s, i, 0)
  {
    var durations := map[i := d, j := d];
    var first, s1 := Acquire(i, j, d, skew);
    var s2 := s1.(clock := at);
    var second := [Tick(at)] + CallEvents(s2, j, d, at + skew);
    UndisturbedCall(durations, s2, j, at + skew);
    s := AfterCall(s2, j, d, at + skew);
    RunCons(durations, s1, Tick(at), s2, CallEvents(s2, j, d, at + skew), s);
    RunConcat(durations, Initial(durations, 0, skew, []), first, s1, second);
    events := first + second;
  }

  /** The earliest reading of a clock at time 0. */
  function Before(skew: nat): Time {
    0 - skew as int
  }

  /** Its first half: `i` creates the lease while `j` has done nothing. */
  lemma Acquire(i: Identity, j: Identity, d: nat, skew: nat) returns (events: seq<Event>, s: State)
    requires i != j
    ensures Reached(map[i := d, j := d], 0, skew, [], events, s)
    ensures s.clock == 0 && s.skew == skew && s.foreign == [] && s.writes == [NewStamp(i, d, 0)]
    ensures s.agents == map[i := Agent(Idle, true, Some(NewStamp(i, d, 0)), true, 0),
                            j := Agent(Idle, false, None, false, Before(skew))]
  {
    var durations := map[i := d, j := d];
    var s0 := Initial(durations, 0, skew, []);
    UndisturbedCall(durations, s0, i, 0);
    events, s := CallEvents(s0, i, d, 0), AfterCall(s0, i, d, 0);
  }

  /**
   The flag alone does not exclude, even on one clock: one agent acquires, stays silent
   until its window has passed, and a second agent takes over while the first still
   believes it leads.
   */
  lemma FlagAloneIsNotExclusive(i: Identity, j: Identity)
    requires i != j
    ensures exists events, s ::
      && Reached(map[i := 30, j := 30], 0, 0, [], events, s)
      && i in s.agents && j in s.agents && s.agents[i].isLeader && s.agents[j].isLeader
  {
    var events, s := TakeOver(i, j, 30, 0, Seconds(31));
  }

  /** `id` may publish now, when its clock shows `x` more than in the check it relies on. */
  ghost predicate MayPublishAfter(durations: map<Identity, nat>, s: State, id: Identity, d: nat, x: Time) {
    && id in s.agents && id in durations && durations[id] == d
    && s.agents[id].phase.Idle? && s.agents[id].armed && s.agents[id].confirmed.Some?
    && Reading(s, s.agents[id], s.agents[id].confirmed.value.renewed + x)
  }

  /** The same for an agent that relies on its flag: the latest call may have raised meanwhile. */
  ghost predicate MayTrustFlagAfter(durations: map<Identity, nat>, s: State, id: Identity, d: nat, x: Time) {
    && id in s.agents && id in durations && durations[id] == d
    && s.agents[id].isLeader && s.agents[id].confirmed.Some?
    && Reading(s, s.agents[id], s.agents[id].confirmed.value.renewed + x)
  }

  /** In no run with that skew does an agent with lease duration `d` publish so late without holding the lease. */
  ghost predicate SafeAfter(d: nat, skew: nat, x: Time) {
    forall durations, start, foreign, events, s, id ::
      Reached(durations, start, skew, foreign, events, s) && MayPublishAfter(durations, s, id, d, x) ==>
        HeldBy(s, id, s.agents[id].confirmed.value.renewed)
  }

  /** In no run with that skew is such an agent's flag still set so late without it holding the lease. */
  ghost predicate FlagSafeAfter(d: nat, skew: nat, x: Time) {
    forall durations, start, foreign, events, s, id ::
      Reached(durations, start, skew, foreign, events, s) && MayTrustFlagAfter(durations, s, id, d, x) ==>
        HeldBy(s, id, s.agents[id].confirmed.value.renewed)
  }

  /** Until then the agent holds the lease, whatever its calls have done since. */
  lemma HeldLongEnough(durations: map<Identity, nat>, start: Time, skew: nat, foreign: seq<Option<LeaseSpec>>,
                       events: seq<Event>, s: State, id: Identity, d: nat, x: Time)
    requires Reached(durations, start, skew, foreign, events, s) && MayTrustFlagAfter(durations, s, id, d, x)
    requires x + 2 * skew <= Seconds(d)
    ensures HeldBy(s, id, s.agents[id].confirmed.value.renewed)
  {
    ReachedInv(durations, start, skew, foreign, events, s);
    assert AgentOk(durations, s, id, s.agents[id]);
    assert StampOk(durations, s, s.agents[id].confirmed.value);
    InWindowIsHolder(durations, start, skew, foreign, events, s, id);
  }

  /**
   Publishing is safe exactly for as long as the lease duration lasts, less twice the skew:
   the agent's own clock may be late and the challenger's early. Without skew this is the
   whole lease duration and not an instant more. Exactly as long may the flag be trusted,
   counted from the last call that returned True.
   */
  lemma PublishWindowIsTight(d: nat, skew: nat, x: Time)
    requires 0 <= x
    ensures SafeAfter(d, skew, x) <==> x + 2 * skew <= Seconds(d)
    ensures FlagSafeAfter(d, skew, x) <==> x + 2 * skew <= Seconds(d)
  {
    if x + 2 * skew <= Seconds(d) {
      forall durations, start, foreign, events, s, id
        | Reached(durations, start, skew, foreign, events, s) && MayTrustFlagAfter(durations, s, id, d, x)
        ensures HeldBy(s, id, s.agents[id].confirmed.value.renewed)
      {
        HeldLongEnough(durations, start, skew, foreign, events, s, id, d, x);
      }
      forall durations, start, foreign, events, s, id
        | Reached(durations, start, skew, foreign, events, s) && MayPublishAfter(durations, s, id, d, x)
        ensures HeldBy(s, id, s.agents[id].confirmed.value.renewed)
      {
        ReachedInv(durations, start, skew, foreign, events, s);
        assert AgentOk(durations, s, id, s.agents[id]);
        HeldLongEnough(durations, start, skew, foreign, events, s, id, d, x);
      }
    } else {
      var events, s := TakeOver("a", "b", d, skew, x + skew);
      assert MayPublishAfter(map["a" := d, "b" := d], s, "a", d, x);
      assert MayTrustFlagAfter(map["a" := d, "b" := d], s, "a", d, x);
    }
  }
}
