/**
 The lease record of the leader election and the decisions taken on it
 (src/agent/core/leader.py). Times are integers counting microseconds, the
 resolution of the timestamps in a Lease.
 */
module Leases {
  import opened Wrappers

  type Identity = string
  type Time = int

  /** `timedelta(seconds=n)`. */
  function Seconds(n: int): Time {
    n * 1_000_000
  }

  /** Every field of a stored spec may be missing. */
  datatype LeaseSpec = LeaseSpec(
    holderIdentity: Option<Identity>,
    acquireTime: Option<Time>,
    renewTime: Option<Time>,
    leaseDurationSeconds: Option<nat>)

  datatype Lease = Lease(resourceVersion: nat, spec: Option<LeaseSpec>)

  function SpecOrEmpty(spec: Option<LeaseSpec>): LeaseSpec {
    match spec
    case Some(known) => known
    case None => LeaseSpec(None, None, None, None)
  }

  /** A missing or zero stored duration falls back to the challenger's own. */
  function EffectiveDuration(spec: LeaseSpec, own: nat): nat {
    if spec.leaseDurationSeconds.Some? && spec.leaseDurationSeconds.value != 0
    then spec.leaseDurationSeconds.value
    else own
  }

  predicate IsLeaseExpired(spec: LeaseSpec, own: nat, now: Time) {
    spec.renewTime.None? || spec.renewTime.value + Seconds(EffectiveDuration(spec, own)) < now
  }

  predicate CanAcquireOrRenew(identity: Identity, own: nat, spec: LeaseSpec, now: Time) {
    spec.holderIdentity == Some(identity) || IsLeaseExpired(spec, own, now)
  }

  /** What an agent writes: a spec in which all four fields are set. */
  datatype Stamp = Stamp(holder: Identity, acquired: Time, renewed: Time, duration: nat) {
    function Spec(): LeaseSpec {
      LeaseSpec(Some(holder), Some(acquired), Some(renewed), Some(duration))
    }

    /** The last instant of the writer's own window. */
    function Deadline(): Time {
      renewed + Seconds(duration)
    }
  }

  function NewStamp(identity: Identity, own: nat, now: Time): Stamp {
    Stamp(identity, now, now, own)
  }

  function UpdatedStamp(identity: Identity, own: nat, spec: LeaseSpec, now: Time): Stamp {
    Stamp(identity, if spec.acquireTime.Some? then spec.acquireTime.value else now, now, own)
  }

  /**
   `next` may directly follow `prev` in the history of the lease: a renewal does not
   go back in time, a take-over comes strictly after the previous holder's window,
   and the acquire time is carried over.
   */
  predicate Succeeds(prev: Stamp, next: Stamp) {
    && next.acquired == prev.acquired
    && prev.renewed <= next.renewed
    && (next.holder != prev.holder ==> prev.Deadline() < next.renewed)
  }

  /**
   The exact instant from which a challenger may take over: past the holder's own window,
   or, when the holder wrote a duration of 0, past the challenger's duration.
   */
  lemma TakeOverInstant(identity: Identity, own: nat, prev: Stamp, now: Time)
    requires prev.holder != identity
    ensures CanAcquireOrRenew(identity, own, prev.Spec(), now)
            <==> prev.renewed + (if prev.duration == 0 then Seconds(own) else Seconds(prev.duration)) < now
    ensures CanAcquireOrRenew(identity, own, prev.Spec(), now) ==> prev.Deadline() < now
  {
  }

  /** The decision the code takes on a stored stamp yields a direct successor of it. */
  lemma UpdateSucceeds(identity: Identity, own: nat, prev: Stamp, now: Time)
    requires CanAcquireOrRenew(identity, own, prev.Spec(), now)
    requires prev.holder == identity ==> prev.renewed <= now
    ensures Succeeds(prev, UpdatedStamp(identity, own, prev.Spec(), now))
  {
    if prev.holder != identity {
      TakeOverInstant(identity, own, prev, now);
    }
  }

  /** A chain of writes in which every writer keeps its own duration. */
  ghost predicate Chain(writes: seq<Stamp>) {
    && (forall k :: 0 < k < |writes| ==> Succeeds(writes[k - 1], writes[k]))
    && (forall j, k | 0 <= j < |writes| && 0 <= k < |writes| && writes[j].holder == writes[k].holder ::
          writes[j].duration == writes[k].duration)
  }

  /**
   Any two writes of a chain: time does not go back, the acquire time is the same, and if
   the writers differ the earlier writer's whole window lies before the later write.
   */
  lemma {:induction false} ChainOrders(writes: seq<Stamp>, j: nat, k: nat)
    requires Chain(writes) && j <= k < |writes|
    ensures writes[j].acquired == writes[k].acquired
    ensures writes[j].renewed <= writes[k].renewed
    ensures writes[j].holder != writes[k].holder ==> writes[j].Deadline() < writes[k].renewed
    decreases k
  {
    if j < k {
      ChainOrders(writes, j, k - 1);
      assert Succeeds(writes[k - 1], writes[k]);
    }
  }
}
