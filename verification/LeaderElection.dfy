/**
 `KubernetesLeaderElection` as the object it is. Its calls on the API server and the clock
 can go any way the environment likes: other agents write in between, requests are lost,
 responses are lost. The class keeps, as ghost state, the list of protocol steps it has
 taken since it was created, and `Valid` says that this list is a run of the protocol.
 */
module LeaderElection {
  import opened Wrappers
  import opened Leases
  import opened Election

  datatype ApiException = ApiException(status: int)

  /** The agent's clock, which never goes back. */
  class Clock {
    var now: Time

    constructor (start: Time)
      ensures now == start
    {
      now := start;
    }

    method Now() returns (t: Time)
      modifies this
      ensures old(now) <= now && t == now
    {
      var later: Time := *;
      now := if now < later then later else now;
      t := now;
    }
  }

  /** What a write request can come back with, and the protocol steps this stands for. */
  ghost predicate SubmitActions(r: Result<(), ApiException>, actions: seq<Action>) {
    match r
    case Success(_) => actions == [Served(true), Confirmed]
    case Failure(e) =>
      if e.status == 409 then actions == [Served(false), Conflicted]
      else actions == [WriteFails] || actions == [Served(true), WriteFails] || actions == [Served(false), WriteFails]
  }

  /** What a write comes to: a conflict is False, any other error is raised. */
  function Concluded(reply: Result<(), ApiException>): Result<bool, ApiException> {
    match reply
    case Success(_) => Success(true)
    case Failure(e) => if e.status == 409 then Success(false) else Failure(e)
  }

  /** The steps of a call from the moment its request is out. */
  ghost predicate WriteActions(r: Result<bool, ApiException>, actions: seq<Action>) {
    exists reply :: Concluded(reply) == r && SubmitActions(reply, actions)
  }

  /** The call has sent a request: a create after finding no lease, a replace of the lease it found. */
  predicate Asks(call: seq<Action>) {
    && 3 <= |call| && call[0].Begin?
    && ((call[1] == Got404 && call[2].SendCreate?) || (call[1].GotLease? && call[2] == SendReplace))
  }

  /** The steps of one whole call that comes to `r`. */
  ghost predicate CallActions(r: Result<bool, ApiException>, call: seq<Action>) {
    && 2 <= |call| && call[0].Begin?
    && (|| (call[1..] == [ReadFails] && r.Failure? && r.error.status != 404)
        || (call[1].GotLease? && call[2..] == [Refuse] && r == Success(false))
        || (Asks(call) && WriteActions(r, call[3..])))
  }

  /** A call that returned True: its request was served and the response arrived. */
  predicate ConfirmedCall(call: seq<Action>) {
    Asks(call) && call[3..] == [Served(true), Confirmed]
  }

  /** What such a call has written; its renew time is what the agent's clock showed during the call. */
  function CallStamp(id: Identity, own: nat, call: seq<Action>): Stamp
    requires Asks(call)
  {
    if call[2].SendCreate? then NewStamp(id, own, call[2].now)
    else UpdatedStamp(id, own, SpecOrEmpty(call[1].lease.spec), call[0].now)
  }

  /** Those are the calls that return True, and no others. */
  lemma TrueIsConfirmed(r: Result<bool, ApiException>, call: seq<Action>)
    requires CallActions(r, call)
    ensures r == Success(true) <==> ConfirmedCall(call)
  {
  }

  /** The steps of a call that found no lease, and what is written then. */
  lemma CreateCall(id: Identity, own: nat, before: seq<Action>, now: Time, later: Time,
                   reply: Result<(), ApiException>, steps: seq<Action>)
    returns (call: seq<Action>)
    requires SubmitActions(reply, steps)
    ensures before + [Begin(now), Got404] + ([SendCreate(later)] + steps) == before + call
    ensures CallActions(Concluded(reply), call)
    ensures Concluded(reply) == Success(true) ==> ConfirmedCall(call) && CallStamp(id, own, call) == NewStamp(id, own, later)
  {
    call := [Begin(now), Got404] + ([SendCreate(later)] + steps);
    assert call[3..] == steps;
    TrueIsConfirmed(Concluded(reply), call);
  }

  /** The steps of a call that found one. */
  lemma FoundCall(id: Identity, own: nat, before: seq<Action>, now: Time, lease: Lease,
                  r: Result<bool, ApiException>, steps: seq<Action>)
    returns (call: seq<Action>)
    requires (steps == [Refuse] && r == Success(false))
          || (steps != [] && steps[0] == SendReplace && WriteActions(r, steps[1..]))
    ensures before + [Begin(now), GotLease(lease)] + steps == before + call
    ensures CallActions(r, call)
    ensures r == Success(true) ==>
              ConfirmedCall(call) && CallStamp(id, own, call) == UpdatedStamp(id, own, SpecOrEmpty(lease.spec), now)
  {
    call := [Begin(now), GotLease(lease)] + steps;
    assert call[2..] == steps;
    if steps[0] == SendReplace {
      assert call[3..] == steps[1..];
    }
    TrueIsConfirmed(r, call);
  }

  /** The API server: every resource version of the lease, oldest first. */
  class LeaseApi {
    var versions: seq<Option<LeaseSpec>>

    constructor (versions: seq<Option<LeaseSpec>>)
      ensures this.versions == versions
    {
      this.versions := versions;
    }

    /** Any number of writes by other agents. */
    method Interfere()
      modifies this
      ensures old(versions) <= versions
    {
      var others: seq<Option<LeaseSpec>> := *;
      versions := versions + others;
    }

    method ReadNamespacedLease() returns (r: Result<Lease, ApiException>)
      modifies this
      ensures old(versions) <= versions
      ensures r.Success? ==> versions != [] && r.value == Lease(|versions| - 1, versions[|versions| - 1])
      ensures r.Failure? && r.error.status == 404 ==> versions == []
    {
      Interfere();
      var status: int := *;
      var fails: bool := *;
      if fails && status != 404 {
        r := Failure(ApiException(status));
      } else if versions == [] {
        r := Failure(ApiException(404));
      } else {
        r := Success(Lease(|versions| - 1, versions[|versions| - 1]));
      }
    }

    /** A create or a replace; either succeeds only if the version it is based on is still the last. */
    method Submit(request: Request) returns (r: Result<(), ApiException>, ghost actions: seq<Action>)
      requires request.Basis() < |versions|
      modifies this
      ensures old(versions) <= versions
      ensures SubmitActions(r, actions)
      ensures Served(true) in actions ==>
                && |old(versions)| == request.Basis() + 1 < |versions|
                && versions[request.Basis() + 1] == Some(request.stamp.Spec())
      ensures Served(false) in actions ==> request.Basis() + 1 < |versions|
    {
      Interfere();
      var lost: bool := *;
      var responseLost: bool := *;
      var status: int := *;
      if lost && status != 409 {
        r, actions := Failure(ApiException(status)), [WriteFails];
      } else if request.Basis() + 1 == |versions| {
        versions := versions + [Some(request.stamp.Spec())];
        if responseLost && status != 409 {
          r, actions := Failure(ApiException(status)), [Served(true), WriteFails];
        } else {
          r, actions := Success(()), [Served(true), Confirmed];
        }
      } else if responseLost && status != 409 {
        r, actions := Failure(ApiException(status)), [Served(false), WriteFails];
      } else {
        r, actions := Failure(ApiException(409)), [Served(false), Conflicted];
      }
    }
  }

  class KubernetesLeaderElection {
    const identity: Identity
    const leaseDurationSeconds: nat
    const api: LeaseApi
    const clock: Clock
    var isLeader: bool

    /** This agent in the protocol, when it was created and now, and its steps in between. */
    ghost const origin: Agent
    ghost var local: Agent
    ghost var actions: seq<Action>

    ghost predicate Tracks()
      reads this
    {
      && LocalRun(identity, leaseDurationSeconds, origin, actions) == Some(local)
      && local.isLeader == isLeader
    }

    ghost predicate Valid()
      reads this
    {
      Tracks() && local.phase.Idle?
    }

    constructor (identity: Identity, leaseDurationSeconds: nat, api: LeaseApi, clock: Clock)
      ensures Valid() && !isLeader && actions == []
      ensures this.identity == identity && this.leaseDurationSeconds == leaseDurationSeconds
      ensures this.api == api && this.clock == clock
    {
      this.identity := identity;
      this.leaseDurationSeconds := leaseDurationSeconds;
      this.api := api;
      this.clock := clock;
      isLeader := false;
      origin := Agent(Idle, false, None, false, clock.now);
      local := Agent(Idle, false, None, false, clock.now);
      actions := [];
    }

    /** The agent's latest call returned True on the strength of the confirmed write. */
    ghost predicate Armed()
      reads this
    {
      local.armed && local.confirmed.Some?
    }

    /** The confirmed write is, or was, a version of the lease on the server. */
    ghost predicate ConfirmedStored()
      reads this, api
    {
      && local.confirmed.Some?
      && local.confirmed.value.holder == identity
      && local.confirmed.value.duration == leaseDurationSeconds
      && Some(local.confirmed.value.Spec()) in api.versions
    }

    /** The confirmed write is a version that was not there `before`. */
    ghost predicate StoredSince(before: seq<Option<LeaseSpec>>)
      reads this, api
    {
      && ConfirmedStored()
      && exists k :: |before| <= k < |api.versions| && api.versions[k] == Some(local.confirmed.value.Spec())
    }

    /** Take one protocol step. */
    ghost method Step(action: Action)
      requires LocalRun(identity, leaseDurationSeconds, origin, actions) == Some(local)
      requires Next(identity, leaseDurationSeconds, local, action).Some?
      modifies `local, `actions
      ensures LocalRun(identity, leaseDurationSeconds, origin, actions) == Some(local)
      ensures Some(local) == Next(identity, leaseDurationSeconds, old(local), action)
      ensures actions == old(actions) + [action]
    {
      LocalRunConcat(identity, leaseDurationSeconds, origin, actions, local, [action]);
      local := Next(identity, leaseDurationSeconds, local, action).value;
      assert [action][1..] == [];
      actions := actions + [action];
    }

    /** A publish attempt under the latest check. */
    ghost method NotePublish()
      requires Valid() && local.armed
      modifies `local, `actions
      ensures Valid() && local == old(local)
      ensures actions == old(actions) + [Publish]
    {
      Step(Publish);
    }

    /**
     One call, `call` being its steps. Returns what the flag becomes, True exactly when this
     call's own write was stored and the response arrived; raises with the flag unchanged.
     */
    method AcquireOrRenewLease() returns (r: Result<bool, ApiException>, ghost call: seq<Action>)
      requires Valid()
      modifies this, api, clock
      ensures Valid()
      ensures actions == old(actions) + call && CallActions(r, call)
      ensures old(api.versions) <= api.versions && old(clock.now) <= clock.now
      ensures r.Success? ==> isLeader == r.value
      ensures r == Success(true) ==>
                && Armed() && ConfirmedCall(call)
                && local.confirmed == Some(CallStamp(identity, leaseDurationSeconds, call))
                && StoredSince(old(api.versions))
                && old(clock.now) <= local.confirmed.value.renewed <= clock.now
      ensures r.Failure? ==> isLeader == old(isLeader)
      ensures r != Success(true) ==> !local.armed && local.confirmed == old(local.confirmed)
      // If nobody else wrote meanwhile: True exactly when the lease is absent, ours or expired.
      ensures r.Success? && |api.versions| == |old(api.versions)| + (if r.value then 1 else 0) ==>
                (r.value <==>
                   || old(api.versions) == [] || old(api.versions)[|old(api.versions)| - 1].None?
                   || var spec := old(api.versions)[|old(api.versions)| - 1].value;
                      || spec.holderIdentity == Some(identity)
                      || spec.renewTime.None?
                      || spec.renewTime.value
                         + 1_000_000 * (if spec.leaseDurationSeconds.None? || spec.leaseDurationSeconds == Some(0)
                                        then leaseDurationSeconds else spec.leaseDurationSeconds.value) < local.lastNow)
    {
      ghost var steps, reply;
      var now := clock.Now();
      var lease := ReadLease(now);
      match lease
      case Failure(e) =>
        if e.status == 404 {
          r, reply, steps := TryCreateLease();
          call := CreateCall(identity, leaseDurationSeconds, old(actions), now, local.lastNow, reply, steps);
        } else {
          r := Failure(e);
          call := [Begin(now), ReadFails];
          assert call[1..] == [ReadFails];
        }
      case Success(found) =>
        r, steps := TryTakeOrRenewExistingLease(found, now);
        call := FoundCall(identity, leaseDurationSeconds, old(actions), now, found, r, steps);
    }

    /** The first half of a call: note the time, read the lease. */
    method ReadLease(now: Time) returns (lease: Result<Lease, ApiException>)
      requires Valid()
      modifies this, api
      ensures Tracks() && isLeader == old(isLeader) && !local.armed && local.confirmed == old(local.confirmed)
      ensures local.lastNow == now && old(api.versions) <= api.versions
      ensures lease.Success? ==>
                && local.phase == Found(now, lease.value)
                && api.versions != [] && lease.value == Lease(|api.versions| - 1, api.versions[|api.versions| - 1])
                && actions == old(actions) + [Begin(now), GotLease(lease.value)]
      ensures lease.Failure? && lease.error.status == 404 ==>
                local.phase == Missing && api.versions == [] && actions == old(actions) + [Begin(now), Got404]
      ensures lease.Failure? && lease.error.status != 404 ==>
                local.phase == Idle && actions == old(actions) + [Begin(now), ReadFails]
    {
      Step(Begin(now));
      lease := api.ReadNamespacedLease();
      match lease
      case Failure(e) => Step(if e.status == 404 then Got404 else ReadFails);
      case Success(found) => Step(GotLease(found));
    }

    /** A lease nobody has created yet; `reply` is what the API server answers to the create. */
    method TryCreateLease() returns (r: Result<bool, ApiException>, ghost reply: Result<(), ApiException>, ghost steps: seq<Action>)
      requires Tracks() && local.phase.Missing? && !local.armed
      modifies this, api, clock
      ensures reply.Success? ==> r == Success(true) && isLeader
      ensures reply.Failure? && reply.error.status == 409 ==> r == Success(false) && !isLeader
      ensures reply.Failure? && reply.error.status != 409 ==> r == Failure(reply.error) && isLeader == old(isLeader)
      ensures r == Concluded(reply) && SubmitActions(reply, steps)
      ensures actions == old(actions) + ([SendCreate(local.lastNow)] + steps)
      ensures Replied(old(local).(lastNow := local.lastNow), r)
      ensures old(api.versions) <= api.versions && old(clock.now) <= clock.now
      ensures Outcome(old(isLeader), old(api.versions), -1, NewStamp(identity, leaseDurationSeconds, local.lastNow), r)
      ensures old(clock.now) <= local.lastNow <= clock.now
    {
      var now := clock.Now();
      Step(SendCreate(now));
      r, reply, steps := Send(Create(NewStamp(identity, leaseDurationSeconds, now)));
    }

    method TryTakeOrRenewExistingLease(lease: Lease, now: Time) returns (r: Result<bool, ApiException>, ghost steps: seq<Action>)
      requires Tracks() && local.phase == Found(now, lease) && !local.armed
      requires lease.resourceVersion < |api.versions|
      modifies this, api
      ensures actions == old(actions) + steps
      ensures Replied(old(local), r)
      ensures old(api.versions) <= api.versions
      ensures (|| lease.spec.None?
               || lease.spec.value.holderIdentity == Some(identity)
               || lease.spec.value.renewTime.None?
               || lease.spec.value.renewTime.value
                  + 1_000_000 * (if lease.spec.value.leaseDurationSeconds.None? || lease.spec.value.leaseDurationSeconds == Some(0)
                                 then leaseDurationSeconds else lease.spec.value.leaseDurationSeconds.value) < now)
              <==> steps != [Refuse]
      ensures steps == [Refuse] ==> r == Success(false) && !isLeader && api.versions == old(api.versions)
      ensures steps != [Refuse] ==>
                && steps != [] && steps[0] == SendReplace && WriteActions(r, steps[1..])
                && Outcome(old(isLeader), old(api.versions), lease.resourceVersion,
                           Stamp(identity, if lease.spec.Some? && lease.spec.value.acquireTime.Some?
                                           then lease.spec.value.acquireTime.value else now,
                                 now, leaseDurationSeconds), r)
    {
      var spec := SpecOrEmpty(lease.spec);
      if !CanAcquireOrRenew(identity, leaseDurationSeconds, spec, now) {
        isLeader := false;
        Step(Refuse);
        return Success(false), [Refuse];
      }
      Step(SendReplace);
      ghost var reply;
      r, reply, steps := Send(Replace(lease.resourceVersion, UpdatedStamp(identity, leaseDurationSeconds, spec, now)));
      steps := [SendReplace] + steps;
      assert steps[1..] == actions[|old(actions)| + 1..];
    }

    /** The agent after a call that started as `before`: idle, and armed only on True. */
    ghost predicate Replied(before: Agent, r: Result<bool, ApiException>)
      reads this
    {
      && Valid()
      && local.armed == (r == Success(true))
      && local.lastNow == before.lastNow
      && (local.armed || local.confirmed == before.confirmed)
    }

    /** How a write based on version `basis` went, given the versions when it was sent. */
    ghost predicate Outcome(wasLeader: bool, before: seq<Option<LeaseSpec>>, basis: int, stamp: Stamp,
                            r: Result<bool, ApiException>)
      reads this, api
    {
      && (r.Success? ==> isLeader == r.value)
      && (r.Failure? ==> isLeader == wasLeader)
      && (r == Success(true) ==>
            && |before| == basis + 1 < |api.versions|
            && api.versions[basis + 1] == Some(stamp.Spec())
            && local.confirmed == Some(stamp))
      && (r == Success(false) ==> basis + 1 < |api.versions|)
    }

    /**
     Send a create or replace: what the API server answers decides, True on success, False
     on a conflict, any other error is raised.
     */
    method Send(request: Request) returns (r: Result<bool, ApiException>, ghost reply: Result<(), ApiException>, ghost steps: seq<Action>)
      requires Tracks() && local.phase == Writing(request, Pending) && !local.armed
      requires request.Basis() < |api.versions|
      modifies this, api
      ensures reply.Success? ==> r == Success(true) && isLeader
      ensures reply.Failure? && reply.error.status == 409 ==> r == Success(false) && !isLeader
      ensures reply.Failure? && reply.error.status != 409 ==> r == Failure(reply.error) && isLeader == old(isLeader)
      ensures r == Concluded(reply) && SubmitActions(reply, steps) && actions == old(actions) + steps
      ensures Replied(old(local), r)
      ensures old(api.versions) <= api.versions
      ensures Outcome(old(isLeader), old(api.versions), request.Basis(), request.stamp, r)
    {
      var answer;
      answer, steps := api.Submit(request);
      reply := answer;
      if |steps| == 2 {
        Step(steps[0]);
        Associative(old(actions), [steps[0]], [steps[1]]);
        assert steps == [steps[0]] + [steps[1]];
      }
      match answer
      case Success(_) =>
        isLeader := true;
        Step(Confirmed);
        r := Success(true);
      case Failure(e) =>
        if e.status == 409 {
          isLeader := false;
          Step(Conflicted);
          r := Success(false);
        } else {
          Step(WriteFails);
          r := Failure(e);
        }
    }
  }
}
