/**
 The leader election as a distributed protocol: any number of agents with distinct
 identities, each with a clock of its own that never goes back, and one API server with
 optimistic concurrency. Between any two steps of one agent any steps of the others may
 happen; a write may be applied although its response is lost, and it may reach the server
 after its sender has given up.
 */
module Election {
  import opened Wrappers
  import opened Leases

  /** A write request; a replace carries the resource version that was read. */
  datatype Request = Create(stamp: Stamp) | Replace(version: nat, stamp: Stamp) {
    /** The version the request is based on, -1 when it is based on finding no lease. */
    function Basis(): int {
      if Create? then -1 else version
    }
  }

  datatype Verdict = Pending | Applied | Rejected

  /** Where an agent is inside `acquire_or_renew_lease`. */
  datatype Phase =
    | Idle
    | Called(now: Time)
    | Missing
    | Found(now: Time, lease: Lease)
    | Writing(request: Request, verdict: Verdict)

  /**
   `confirmed` is the write behind the last call that returned True, `armed` says that the
   latest call was such a call, `lastNow` is the agent's latest clock reading.
   */
  datatype Agent = Agent(phase: Phase, isLeader: bool, confirmed: Option<Stamp>, armed: bool, lastNow: Time)

  datatype Action =
    | Begin(now: Time)
    | GotLease(lease: Lease)
    | Got404
    | ReadFails
    | Refuse
    | SendReplace
    | SendCreate(now: Time)
    | Served(accepted: bool)
    | Confirmed
    | Conflicted
    | WriteFails
    | Publish
    | Restart

  /** One step of one agent; None when the action is not possible in its phase. */
  function Next(id: Identity, own: nat, a: Agent, action: Action): Option<Agent> {
    match action
    case Begin(now) =>
      if a.phase.Idle? then Some(a.(phase := Called(now), armed := false, lastNow := now)) else None
    case GotLease(lease) =>
      if a.phase.Called? then Some(a.(phase := Found(a.phase.now, lease))) else None
    case Got404 =>
      if a.phase.Called? then Some(a.(phase := Missing)) else None
    case ReadFails =>
      if a.phase.Called? then Some(a.(phase := Idle)) else None
    case Refuse =>
      if a.phase.Found? && !CanAcquireOrRenew(id, own, SpecOrEmpty(a.phase.lease.spec), a.phase.now)
      then Some(a.(phase := Idle, isLeader := false)) else None
    case SendReplace =>
      if a.phase.Found? && CanAcquireOrRenew(id, own, SpecOrEmpty(a.phase.lease.spec), a.phase.now)
      then
        var stamp := UpdatedStamp(id, own, SpecOrEmpty(a.phase.lease.spec), a.phase.now);
        Some(a.(phase := Writing(Replace(a.phase.lease.resourceVersion, stamp), Pending)))
      else None
    case SendCreate(now) =>
      if a.phase.Missing?
      then Some(a.(phase := Writing(Create(NewStamp(id, own, now)), Pending), lastNow := now)) else None
    case Served(accepted) =>
      if a.phase.Writing? && a.phase.verdict == Pending
      then Some(a.(phase := Writing(a.phase.request, if accepted then Applied else Rejected))) else None
    case Confirmed =>
      if a.phase.Writing? && a.phase.verdict == Applied
      then Some(a.(phase := Idle, isLeader := true, confirmed := Some(a.phase.request.stamp), armed := true))
      else None
    case Conflicted =>
      if a.phase.Writing? && a.phase.verdict == Rejected
      then Some(a.(phase := Idle, isLeader := false)) else None
    case WriteFails =>
      if a.phase.Writing? then Some(a.(phase := Idle)) else None
    case Publish =>
      if a.phase.Idle? && a.armed then Some(a) else None
    case Restart =>
      Some(Agent(Idle, false, None, false, a.lastNow))
  }

  /** Several steps of one agent in a row. */
  function LocalRun(id: Identity, own: nat, a: Agent, actions: seq<Action>): Option<Agent>
    decreases actions
  {
    if actions == [] then Some(a)
    else match Next(id, own, a, actions[0])
      case None => None
      case Some(b) => LocalRun(id, own, b, actions[1..])
  }

  lemma {:induction false} LocalRunConcat(id: Identity, own: nat, a: Agent, first: seq<Action>, b: Agent, second: seq<Action>)
    requires LocalRun(id, own, a, first) == Some(b)
    ensures LocalRun(id, own, a, first + second) == LocalRun(id, own, b, second)
    decreases first
  {
    if first == [] {
      assert first + second == second;
    } else {
      LocalRunConcat(id, own, Next(id, own, a, first[0]).value, first[1..], b, second);
      assert (first + second)[1..] == first[1..] + second;
    }
  }

  /** A call that returned True: the version its write was based on, and what it wrote. */
  datatype Win = Win(id: Identity, basis: int, stamp: Stamp)

  /**
   An attempt to hand a batch to the control plane: when it was made, the write that had
   confirmed leadership for it, and the lease on the server at that moment. One publish
   call may make several attempts.
   */
  datatype Publication = Publication(id: Identity, at: Time, cover: Stamp, stored: Option<Lease>)

  /**
   The server keeps one entry per resource version: first whatever was there before any
   agent ran (`foreign`), then the writes of the agents. No entry means no lease. A request
   whose sender has given up stays in `orphans` and may still arrive. `clock` is the true
   time, from which the clock of no agent differs by more than `skew`.
   */
  datatype State = State(
    clock: Time,
    skew: nat,
    foreign: seq<Option<LeaseSpec>>,
    writes: seq<Stamp>,
    agents: map<Identity, Agent>,
    orphans: set<Request>,
    wins: seq<Win>,
    publications: seq<Publication>)

  function Versions(s: State): nat {
    |s.foreign| + |s.writes|
  }

  function SpecAt(s: State, version: nat): Option<LeaseSpec>
    requires version < Versions(s)
  {
    if version < |s.foreign| then s.foreign[version] else Some(s.writes[version - |s.foreign|].Spec())
  }

  function Server(s: State): Option<Lease> {
    if Versions(s) == 0 then None else Some(Lease(Versions(s) - 1, SpecAt(s, Versions(s) - 1)))
  }

  /** Create needs that there is no lease, replace that the version has not moved. */
  predicate Accepts(s: State, r: Request) {
    r.Basis() == Versions(s) - 1
  }

  datatype Event = Tick(to: Time) | Late(request: Request) | Act(id: Identity, action: Action)

  /** What the agent's clock can show. */
  predicate Reading(s: State, a: Agent, now: Time) {
    a.lastNow <= now && s.clock - s.skew <= now <= s.clock + s.skew
  }

  /** What the rest of the system must look like for an agent's action to happen. */
  predicate Allowed(s: State, a: Agent, action: Action) {
    match action
    case Begin(now) => Reading(s, a, now)
    case SendCreate(now) => Reading(s, a, now)
    case GotLease(lease) => Server(s) == Some(lease)
    case Got404 => Server(s) == None
    case Served(accepted) => a.phase.Writing? && accepted == Accepts(s, a.phase.request)
    case _ => true
  }

  /** What an agent's action does outside the agent. */
  function Effect(s: State, id: Identity, a: Agent, action: Action): State {
    match action
    case Served(accepted) =>
      if accepted && a.phase.Writing? then s.(writes := s.writes + [a.phase.request.stamp]) else s
    case Confirmed =>
      if a.phase.Writing? then s.(wins := s.wins + [Win(id, a.phase.request.Basis(), a.phase.request.stamp)]) else s
    case Publish =>
      if a.confirmed.Some?
      then s.(publications := s.publications + [Publication(id, s.clock, a.confirmed.value, Server(s))]) else s
    case WriteFails => Abandon(s, a)
    case Restart => Abandon(s, a)
    case _ => s
  }

  /** The sender stops waiting; a request not yet served may still reach the server. */
  function Abandon(s: State, a: Agent): State {
    if a.phase.Writing? && a.phase.verdict == Pending
    then s.(orphans := s.orphans + {a.phase.request})
    else s
  }

  function Apply(durations: map<Identity, nat>, s: State, e: Event): Option<State> {
    match e
    case Tick(to) =>
      if s.clock <= to then Some(s.(clock := to)) else None
    case Late(r) =>
      if r !in s.orphans then None
      else if Accepts(s, r) then Some(s.(orphans := s.orphans - {r}, writes := s.writes + [r.stamp]))
      else Some(s.(orphans := s.orphans - {r}))
    case Act(id, action) =>
      if id !in s.agents || id !in durations || !Allowed(s, s.agents[id], action) then None
      else match Next(id, durations[id], s.agents[id], action)
        case None => None
        case Some(a) => Some(Effect(s, id, s.agents[id], action).(agents := s.agents[id := a]))
  }

  /** A whole run: None as soon as an event is not possible. */
  function Run(durations: map<Identity, nat>, s: State, events: seq<Event>): Option<State>
    decreases events
  {
    if events == [] then Some(s)
    else match Apply(durations, s, events[0])
      case None => None
      case Some(t) => Run(durations, t, events[1..])
  }

  /** The actions of one agent in a run. */
  function ActionsOf(id: Identity, events: seq<Event>): seq<Action> {
    if events == [] then []
    else (if events[0].Act? && events[0].id == id then [events[0].action] else []) + ActionsOf(id, events[1..])
  }

  /** Seen from one agent, every run of the system is a run of that agent alone. */
  lemma {:induction false} RunProjects(durations: map<Identity, nat>, s: State, events: seq<Event>, t: State, id: Identity)
    requires id in s.agents && id in durations && Run(durations, s, events) == Some(t)
    ensures id in t.agents
    ensures LocalRun(id, durations[id], s.agents[id], ActionsOf(id, events)) == Some(t.agents[id])
    decreases events
  {
    if events != [] {
      var next := Apply(durations, s, events[0]).value;
      RunProjects(durations, next, events[1..], t, id);
      if events[0].Act? && events[0].id == id {
        assert ActionsOf(id, events)[1..] == ActionsOf(id, events[1..]);
      } else {
        assert ActionsOf(id, events) == ActionsOf(id, events[1..]);
      }
    }
  }

  /** No agent has run yet; the server is empty or holds leases of any shape. */
  function Initial(durations: map<Identity, nat>, start: Time, skew: nat, foreign: seq<Option<LeaseSpec>>): State {
    State(start, skew, foreign, [], map id | id in durations :: Agent(Idle, false, None, false, start - skew), {}, [], [])
  }

  // ----- the invariant -----

  ghost predicate StampOk(durations: map<Identity, nat>, s: State, st: Stamp) {
    && st.holder in durations && st.holder in s.agents
    && st.duration == durations[st.holder]
    && st.renewed <= s.agents[st.holder].lastNow
  }

  /** A stamp meant for the version after `version` really is a successor of what stands there. */
  ghost predicate Follows(s: State, version: int, st: Stamp) {
    && version < Versions(s)
    && (|s.foreign| <= version ==> Succeeds(s.writes[version - |s.foreign|], st))
  }

  ghost predicate RequestOk(durations: map<Identity, nat>, s: State, r: Request) {
    && StampOk(durations, s, r.stamp)
    && (r.Replace? ==> Follows(s, r.version, r.stamp))
    && (r.Create? ==> r.stamp.acquired == r.stamp.renewed)
  }

  /** The write made on top of version `basis` is there, and it is this one. */
  ghost predicate Stored(s: State, basis: int, stamp: Stamp) {
    && |s.foreign| <= basis + 1 < Versions(s)
    && s.writes[basis + 1 - |s.foreign|] == stamp
  }

  ghost predicate PhaseOk(durations: map<Identity, nat>, s: State, id: Identity, a: Agent) {
    match a.phase
    case Idle => true
    case Missing => true
    case Called(now) => now == a.lastNow
    case Found(now, lease) =>
      && now == a.lastNow
      && lease.resourceVersion < Versions(s)
      && lease.spec == SpecAt(s, lease.resourceVersion)
    case Writing(r, verdict) =>
      && r.stamp.holder == id && RequestOk(durations, s, r)
      && (verdict == Applied ==>
            && Stored(s, r.Basis(), r.stamp)
            && forall w :: w in s.wins ==> w.basis != r.Basis())
  }

  ghost predicate AgentOk(durations: map<Identity, nat>, s: State, id: Identity, a: Agent) {
    && a.lastNow <= s.clock + s.skew
    && (a.armed ==> a.phase.Idle? && a.isLeader)
    && (a.isLeader ==> a.confirmed.Some?)
    && (a.confirmed.Some? ==> a.confirmed.value in s.writes && a.confirmed.value.holder == id)
    && PhaseOk(durations, s, id, a)
  }

  ghost predicate HistoryOk(durations: map<Identity, nat>, s: State) {
    && Chain(s.writes)
    && (s.foreign == [] && s.writes != [] ==> s.writes[0].acquired == s.writes[0].renewed)
    && (forall st :: st in s.writes ==> StampOk(durations, s, st))
    && (forall r :: r in s.orphans ==> RequestOk(durations, s, r))
  }

  ghost predicate WinsOk(s: State) {
    && (forall w :: w in s.wins ==> Stored(s, w.basis, w.stamp) && w.stamp.holder == w.id)
    && (forall j, k :: 0 <= j < k < |s.wins| ==> s.wins[j].basis != s.wins[k].basis)
  }

  ghost predicate PublicationsOk(s: State) {
    forall p :: p in s.publications ==>
                  p.cover in s.writes && p.cover.holder == p.id && p.cover.renewed - s.skew <= p.at <= s.clock
  }

  ghost predicate Inv(durations: map<Identity, nat>, s: State) {
    && s.agents.Keys == durations.Keys
    && (forall id :: id in s.agents ==> AgentOk(durations, s, id, s.agents[id]))
    && HistoryOk(durations, s)
    && WinsOk(s)
    && PublicationsOk(s)
  }

  /** `t` comes after `s`: nothing is unwritten, no clock goes back. */
  ghost predicate Extends(s: State, t: State) {
    && s.clock <= t.clock && s.skew == t.skew && s.foreign == t.foreign && s.writes <= t.writes
    && s.agents.Keys == t.agents.Keys
    && forall id :: id in s.agents ==> s.agents[id].lastNow <= t.agents[id].lastNow
  }

  lemma RequestStaysOk(durations: map<Identity, nat>, s: State, t: State, r: Request)
    requires Extends(s, t) && RequestOk(durations, s, r)
    ensures RequestOk(durations, t, r)
  {
  }

  /** An agent that does not move stays fine; wins added meanwhile are other agents' wins. */
  lemma AgentStaysOk(durations: map<Identity, nat>, s: State, t: State, id: Identity, a: Agent)
    requires Extends(s, t) && AgentOk(durations, s, id, a)
    requires forall w :: w in t.wins && w !in s.wins ==> w.stamp.holder != id && Stored(s, w.basis, w.stamp)
    ensures AgentOk(durations, t, id, a)
  {
    if a.phase.Writing? {
      RequestStaysOk(durations, s, t, a.phase.request);
    }
  }

  /** Applying an accepted request keeps the history a chain. */
  lemma WriteKeepsHistory(durations: map<Identity, nat>, s: State, t: State, r: Request)
    requires HistoryOk(durations, s) && RequestOk(durations, s, r) && Accepts(s, r)
    requires Extends(s, t) && t.writes == s.writes + [r.stamp] && t.orphans <= s.orphans
    ensures HistoryOk(durations, t)
  {
    forall q | q in t.orphans
      ensures RequestOk(durations, t, q)
    {
      RequestStaysOk(durations, s, t, q);
    }
    forall st | st in t.writes
      ensures StampOk(durations, t, st)
    {
      assert st in s.writes || st == r.stamp;
    }
    forall k | 0 < k < |t.writes|
      ensures Succeeds(t.writes[k - 1], t.writes[k])
    {
      if k < |s.writes| {
        assert Succeeds(s.writes[k - 1], s.writes[k]);
      }
    }
    forall j, k | 0 <= j < |t.writes| && 0 <= k < |t.writes| && t.writes[j].holder == t.writes[k].holder
      ensures t.writes[j].duration == t.writes[k].duration
    {
      assert StampOk(durations, t, t.writes[j]) && StampOk(durations, t, t.writes[k]);
    }
  }

  lemma HistoryStaysOk(durations: map<Identity, nat>, s: State, t: State)
    requires HistoryOk(durations, s)
    requires Extends(s, t) && t.writes == s.writes
    requires forall r :: r in t.orphans ==> RequestOk(durations, s, r)
    ensures HistoryOk(durations, t)
  {
    forall r | r in t.orphans
      ensures RequestOk(durations, t, r)
    {
      RequestStaysOk(durations, s, t, r);
    }
  }

  lemma ActionExtends(durations: map<Identity, nat>, s: State, id: Identity, action: Action, t: State)
    requires Inv(durations, s) && Apply(durations, s, Act(id, action)) == Some(t)
    ensures Extends(s, t)
  {
    assert AgentOk(durations, s, id, s.agents[id]);
  }

  /** What an agent sends follows the version it has read. */
  lemma SenderOk(durations: map<Identity, nat>, s: State, id: Identity, t: State)
    requires Inv(durations, s) && Apply(durations, s, Act(id, SendReplace)) == Some(t)
    ensures AgentOk(durations, t, id, t.agents[id])
  {
    var a := s.agents[id];
    assert AgentOk(durations, s, id, a);
    var lease := a.phase.lease;
    if |s.foreign| <= lease.resourceVersion {
      var prev := s.writes[lease.resourceVersion - |s.foreign|];
      assert StampOk(durations, s, prev);
      UpdateSucceeds(id, durations[id], prev, a.phase.now);
    }
  }

  /** A request the server accepts becomes the write made on its basis. */
  lemma ServedOk(durations: map<Identity, nat>, s: State, id: Identity, accepted: bool, t: State)
    requires Inv(durations, s) && Apply(durations, s, Act(id, Served(accepted))) == Some(t)
    ensures AgentOk(durations, t, id, t.agents[id])
  {
    var a := s.agents[id];
    assert AgentOk(durations, s, id, a);
    ActionExtends(durations, s, id, Served(accepted), t);
    RequestStaysOk(durations, s, t, a.phase.request);
    if a.confirmed.Some? {
      assert a.confirmed.value in t.writes;
    }
  }

  /** What a call that returns True relies on from now on is its own stored write. */
  lemma ConfirmedOk(durations: map<Identity, nat>, s: State, id: Identity, t: State)
    requires Inv(durations, s) && Apply(durations, s, Act(id, Confirmed)) == Some(t)
    ensures AgentOk(durations, t, id, t.agents[id])
  {
    var a := s.agents[id];
    assert AgentOk(durations, s, id, a);
    assert a.phase.request.stamp == s.writes[a.phase.request.Basis() + 1 - |s.foreign|];
  }

  /** All other steps write nothing and send nothing. */
  lemma QuietOk(durations: map<Identity, nat>, s: State, id: Identity, action: Action, t: State)
    requires Inv(durations, s) && Apply(durations, s, Act(id, action)) == Some(t)
    requires action != SendReplace && !action.Served? && action != Confirmed
    ensures AgentOk(durations, t, id, t.agents[id])
  {
    assert AgentOk(durations, s, id, s.agents[id]);
    assert t.writes == s.writes && t.foreign == s.foreign && t.wins == s.wins;
  }

  /** The agent that moves ends in a phase that fits the new state. */
  lemma MoverOk(durations: map<Identity, nat>, s: State, id: Identity, action: Action, t: State)
    requires Inv(durations, s) && Apply(durations, s, Act(id, action)) == Some(t)
    ensures AgentOk(durations, t, id, t.agents[id])
  {
    var a := s.agents[id];
    assert AgentOk(durations, s, id, a);
    if action == SendReplace {
      SenderOk(durations, s, id, t);
    } else if action.Served? {
      ServedOk(durations, s, id, action.accepted, t);
    } else if action == Confirmed {
      ConfirmedOk(durations, s, id, t);
    } else {
      QuietOk(durations, s, id, action, t);
    }
  }

  lemma OthersOk(durations: map<Identity, nat>, s: State, id: Identity, action: Action, t: State)
    requires Inv(durations, s) && Apply(durations, s, Act(id, action)) == Some(t)
    ensures forall other :: other in t.agents ==> AgentOk(durations, t, other, t.agents[other])
  {
    ActionExtends(durations, s, id, action, t);
    MoverOk(durations, s, id, action, t);
    forall other | other in t.agents && other != id
      ensures AgentOk(durations, t, other, t.agents[other])
    {
      assert AgentOk(durations, s, id, s.agents[id]);
      AgentStaysOk(durations, s, t, other, s.agents[other]);
    }
  }

  lemma ActionKeepsHistory(durations: map<Identity, nat>, s: State, id: Identity, action: Action, t: State)
    requires Inv(durations, s) && Apply(durations, s, Act(id, action)) == Some(t)
    ensures HistoryOk(durations, t)
  {
    ActionExtends(durations, s, id, action, t);
    assert AgentOk(durations, s, id, s.agents[id]);
    if action == Served(true) {
      WriteKeepsHistory(durations, s, t, s.agents[id].phase.request);
    } else {
      HistoryStaysOk(durations, s, t);
    }
  }

  lemma ActionKeepsWins(durations: map<Identity, nat>, s: State, id: Identity, action: Action, t: State)
    requires Inv(durations, s) && Apply(durations, s, Act(id, action)) == Some(t)
    ensures WinsOk(t)
  {
    ActionExtends(durations, s, id, action, t);
    if action == Confirmed {
      ConfirmedKeepsWins(durations, s, id, t);
    } else {
      assert t.wins == s.wins;
      forall w | w in t.wins
        ensures Stored(t, w.basis, w.stamp)
      {
        assert Stored(s, w.basis, w.stamp);
      }
    }
  }

  /** A call that returns True is the first to do so on its basis. */
  lemma ConfirmedKeepsWins(durations: map<Identity, nat>, s: State, id: Identity, t: State)
    requires Inv(durations, s) && Apply(durations, s, Act(id, Confirmed)) == Some(t)
    ensures WinsOk(t)
  {
    var a := s.agents[id];
    assert AgentOk(durations, s, id, a);
    assert t.wins == s.wins + [Win(id, a.phase.request.Basis(), a.phase.request.stamp)] && t.writes == s.writes;
    forall w | w in t.wins
      ensures Stored(t, w.basis, w.stamp) && w.stamp.holder == w.id
    {
      assert w in s.wins || w == Win(id, a.phase.request.Basis(), a.phase.request.stamp);
      assert Stored(s, w.basis, w.stamp);
    }
    forall j, k | 0 <= j < k < |t.wins|
      ensures t.wins[j].basis != t.wins[k].basis
    {
      assert s.wins[j] in s.wins;
    }
  }

  lemma ActionKeepsPublications(durations: map<Identity, nat>, s: State, id: Identity, action: Action, t: State)
    requires Inv(durations, s) && Apply(durations, s, Act(id, action)) == Some(t)
    ensures PublicationsOk(t)
  {
    ActionExtends(durations, s, id, action, t);
    assert AgentOk(durations, s, id, s.agents[id]);
    forall p | p in t.publications
      ensures p.cover in t.writes && p.cover.holder == p.id && p.cover.renewed - t.skew <= p.at <= t.clock
    {
      if p !in s.publications {
        assert p == Publication(id, s.clock, s.agents[id].confirmed.value, Server(s));
        assert StampOk(durations, s, p.cover);
      }
    }
  }

  lemma StepKeepsInv(durations: map<Identity, nat>, s: State, e: Event, t: State)
    requires Inv(durations, s) && Apply(durations, s, e) == Some(t)
    ensures Inv(durations, t) && Extends(s, t)
  {
    match e
    case Act(id, action) =>
      ActionExtends(durations, s, id, action, t);
      OthersOk(durations, s, id, action, t);
      ActionKeepsHistory(durations, s, id, action, t);
      ActionKeepsWins(durations, s, id, action, t);
      ActionKeepsPublications(durations, s, id, action, t);
    case Late(r) =>
      if Accepts(s, r) {
        WriteKeepsHistory(durations, s, t, r);
      } else {
        HistoryStaysOk(durations, s, t);
      }
      BystandersOk(durations, s, t);
    case Tick(_) =>
      HistoryStaysOk(durations, s, t);
      BystandersOk(durations, s, t);
  }

  /** A step that is nobody's own leaves every agent fine. */
  lemma BystandersOk(durations: map<Identity, nat>, s: State, t: State)
    requires Inv(durations, s) && Extends(s, t) && t.agents == s.agents && t.wins == s.wins
    ensures forall id :: id in t.agents ==> AgentOk(durations, t, id, t.agents[id])
  {
    forall id | id in t.agents
      ensures AgentOk(durations, t, id, t.agents[id])
    {
      AgentStaysOk(durations, s, t, id, s.agents[id]);
    }
  }

  lemma {:induction false} RunKeepsInv(durations: map<Identity, nat>, s: State, events: seq<Event>, t: State)
    requires Inv(durations, s) && Run(durations, s, events) == Some(t)
    ensures Inv(durations, t) && t.skew == s.skew && t.foreign == s.foreign
    decreases events
  {
    if events != [] {
      var next := Apply(durations, s, events[0]).value;
      StepKeepsInv(durations, s, events[0], next);
      RunKeepsInv(durations, next, events[1..], t);
    }
  }

  /** `s` can be reached by some run from some initial state. */
  ghost predicate Reached(durations: map<Identity, nat>, start: Time, skew: nat, foreign: seq<Option<LeaseSpec>>,
                          events: seq<Event>, s: State) {
    Run(durations, Initial(durations, start, skew, foreign), events) == Some(s)
  }

  lemma ReachedInv(durations: map<Identity, nat>, start: Time, skew: nat, foreign: seq<Option<LeaseSpec>>,
                   events: seq<Event>, s: State)
    requires Reached(durations, start, skew, foreign, events, s)
    ensures Inv(durations, s) && s.skew == skew && s.foreign == foreign
  {
    RunKeepsInv(durations, Initial(durations, start, skew, foreign), events, s);
  }
}
