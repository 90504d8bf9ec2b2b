/**
 Batched snapshot publishing (src/agent/handlers/snapshot.py): the targets in some order,
 cut into batches, a leadership check before the sync and before every batch.
 */
module Snapshots {
  import opened Wrappers
  import opened Election
  import opened LeaderElection
  import Retry

  const DISCOVERY_BATCH_SIZE: nat := 5

  type SyncId = string

  // ----- batches -----

  function Flatten<T>(batches: seq<seq<T>>): seq<T> {
    if batches == [] then [] else batches[0] + Flatten(batches[1..])
  }

  lemma {:induction false} FlattenSnoc<T>(batches: seq<seq<T>>, last: seq<T>)
    ensures Flatten(batches + [last]) == Flatten(batches) + last
  {
    if batches == [] {
      assert batches + [last] == [last];
      assert [last][1..] == [];
    } else {
      FlattenSnoc(batches[1..], last);
      assert (batches + [last])[1..] == batches[1..] + [last];
    }
  }

  /** `batches` cuts `items` in order into pieces of `size`, only the last of which may be shorter. */
  ghost predicate IsChunking<T>(items: seq<T>, size: nat, batches: seq<seq<T>>) {
    && Flatten(batches) == items
    && (forall k :: 0 <= k < |batches| ==> 1 <= |batches[k]| <= size)
    && (forall k :: 0 <= k < |batches| - 1 ==> |batches[k]| == size)
  }

  /** There is only one such cut, and it has ceil(n / size) batches. */
  lemma {:induction false} ChunkingUnique<T>(items: seq<T>, size: nat, first: seq<seq<T>>, second: seq<seq<T>>)
    requires 0 < size && IsChunking(items, size, first) && IsChunking(items, size, second)
    ensures first == second
    decreases |first|
  {
    if first != [] && second != [] {
      assert |first[0]| + |Flatten(first[1..])| == |items| == |second[0]| + |Flatten(second[1..])|;
      HeadLength(items, size, first);
      HeadLength(items, size, second);
      assert first[0] == items[..|first[0]|] == second[0];
      assert Flatten(first[1..]) == items[|first[0]|..] == Flatten(second[1..]);
      assert IsChunking(items[|first[0]|..], size, first[1..]);
      assert IsChunking(items[|first[0]|..], size, second[1..]);
      ChunkingUnique(items[|first[0]|..], size, first[1..], second[1..]);
    }
  }

  lemma HeadLength<T>(items: seq<T>, size: nat, batches: seq<seq<T>>)
    requires 0 < size && IsChunking(items, size, batches) && batches != []
    ensures |batches[0]| == if |items| <= size then |items| else size
  {
    if |batches| == 1 {
      assert batches[1..] == [] && Flatten(batches) == batches[0];
    } else {
      assert Flatten(batches[1..]) == batches[1] + Flatten(batches[1..][1..]);
    }
  }

  lemma {:induction false} ChunkCount<T>(items: seq<T>, size: nat, batches: seq<seq<T>>)
    requires 0 < size && IsChunking(items, size, batches)
    ensures (|batches| - 1) * size < |items| <= |batches| * size || (items == [] && batches == [])
    decreases |batches|
  {
    if |batches| == 1 {
      assert batches[1..] == [] && Flatten(batches) == batches[0];
    } else if |batches| > 1 {
      assert IsChunking(items[|batches[0]|..], size, batches[1..]) by {
        assert Flatten(batches[1..]) == items[|batches[0]|..];
      }
      ChunkCount(items[|batches[0]|..], size, batches[1..]);
    }
  }

  method Chunked<T>(items: seq<T>, batchSize: int) returns (r: Result<seq<seq<T>>, string>)
    ensures batchSize <= 0 ==> r == Failure("batch_size must be greater than 0")
    ensures batchSize > 0 ==> r.Success? && IsChunking(items, batchSize, r.value)
  {
    if batchSize <= 0 {
      return Failure("batch_size must be greater than 0");
    }
    var batches: seq<seq<T>> := [];
    var index := 0;
    while index < |items|
      invariant 0 <= index
      invariant index <= |items| ==> (forall k :: 0 <= k < |batches| ==> |batches[k]| == batchSize)
      invariant IsChunking(items[..if index < |items| then index else |items|], batchSize, batches)
      decreases |items| - index
    {
      var end := if index + batchSize < |items| then index + batchSize else |items|;
      FlattenSnoc(batches, items[index..end]);
      assert items[..end] == items[..index] + items[index..end];
      batches := batches + [items[index..end]];
      index := index + batchSize;
    }
    assert items[..|items|] == items;
    r := Success(batches);
  }

  // ----- the sync -----

  datatype SnapshotError =
    | NotLeader
    | LeaseFailed(api: ApiException)
    | BatchFailed(syncUuid: SyncId)

  /**
   What one sync does to the outside: leadership checks, with what the election call made for
   them came to, and publish calls, in order.
   */
  datatype Step = Check(asked: Result<bool, ApiException>) | PublishCall(syncUuid: SyncId, batch: seq<string>, ok: bool)

  /** The check found the agent to be leader. */
  const PASSED: Step := Check(Success(true))

  /** A check followed by a publish for every batch. */
  function Guarded(syncUuid: SyncId, batches: seq<seq<string>>): seq<Step> {
    if batches == [] then []
    else Guarded(syncUuid, batches[..|batches| - 1])
         + [PASSED, PublishCall(syncUuid, batches[|batches| - 1], true)]
  }

  lemma GuardedSnoc(syncUuid: SyncId, batches: seq<seq<string>>, k: nat)
    requires k < |batches|
    ensures Guarded(syncUuid, batches[..k + 1])
         == Guarded(syncUuid, batches[..k]) + [PASSED, PublishCall(syncUuid, batches[k], true)]
  {
    assert batches[..k + 1][..k] == batches[..k];
  }

  /** A check raises when leadership was refused, or with the error of the election call. */
  ghost predicate CheckRaises(step: Step, error: SnapshotError) {
    || (step == Check(Success(false)) && error == NotLeader)
    || exists e :: step == Check(Failure(e)) && error == LeaseFailed(e)
  }

  /** How the sync ends at batch `k` when it fails there. */
  ghost predicate FailsAt(syncUuid: SyncId, batches: seq<seq<string>>, k: nat, end: seq<Step>, error: SnapshotError) {
    && k < |batches|
    && (|| (|end| == 1 && CheckRaises(end[0], error))
        || (end == [PASSED] && error == BatchFailed(syncUuid))
        || (end == [PASSED, PublishCall(syncUuid, batches[k], false)] && error == BatchFailed(syncUuid)))
  }

  /** The complete account of one sync over the given batches. */
  ghost predicate SyncSteps(syncUuid: SyncId, batches: seq<seq<string>>, steps: seq<Step>, r: Result<SyncId, SnapshotError>) {
    match r
    case Success(id) => id == syncUuid && steps == [PASSED] + Guarded(syncUuid, batches)
    case Failure(error) =>
      || (|steps| == 1 && CheckRaises(steps[0], error))
      || exists k: nat, end :: FailsAt(syncUuid, batches, k, end, error)
                          && steps == [PASSED] + Guarded(syncUuid, batches[..k]) + end
  }

  /** The batches whose publish call returned normally. */
  function Delivered(steps: seq<Step>): seq<seq<string>> {
    if steps == [] then []
    else Delivered(steps[..|steps| - 1])
         + if steps[|steps| - 1].PublishCall? && steps[|steps| - 1].ok then [steps[|steps| - 1].batch] else []
  }

  lemma {:induction false} DeliveredConcat(a: seq<Step>, b: seq<Step>)
    ensures Delivered(a + b) == Delivered(a) + Delivered(b)
    decreases |b|
  {
    if b == [] {
      assert a + b == a;
    } else {
      DeliveredConcat(a, b[..|b| - 1]);
      assert (a + b)[..|a + b| - 1] == a + b[..|b| - 1];
    }
  }

  lemma {:induction false} GuardedDelivers(syncUuid: SyncId, batches: seq<seq<string>>)
    ensures Delivered(Guarded(syncUuid, batches)) == batches
    decreases |batches|
  {
    if batches != [] {
      var k := |batches| - 1;
      GuardedDelivers(syncUuid, batches[..k]);
      DeliveredConcat(Guarded(syncUuid, batches[..k]), [PASSED, PublishCall(syncUuid, batches[k], true)]);
      TwoSteps(PASSED, PublishCall(syncUuid, batches[k], true));
      OneStep(PASSED);
      OneStep(PublishCall(syncUuid, batches[k], true));
    }
  }

  lemma TwoSteps(a: Step, b: Step)
    ensures Delivered([a, b]) == Delivered([a]) + Delivered([b])
  {
    DeliveredConcat([a], [b]);
    assert [a] + [b] == [a, b];
  }

  lemma OneStep(a: Step)
    ensures Delivered([a]) == if a.PublishCall? && a.ok then [a.batch] else []
  {
    assert [a][..0] == [];
  }

  lemma CompleteDelivers(syncUuid: SyncId, batches: seq<seq<string>>)
    ensures Delivered([PASSED] + Guarded(syncUuid, batches)) == batches
  {
    OneStep(PASSED);
    DeliveredConcat([PASSED], Guarded(syncUuid, batches));
    GuardedDelivers(syncUuid, batches);
  }

  lemma FailedEndDelivers(syncUuid: SyncId, batches: seq<seq<string>>, k: nat, end: seq<Step>, error: SnapshotError)
    requires FailsAt(syncUuid, batches, k, end, error)
    ensures Delivered(end) == []
  {
    OneStep(end[0]);
    if |end| == 2 {
      TwoSteps(end[0], end[1]);
      OneStep(end[1]);
      assert end == [end[0], end[1]];
    } else {
      assert end == [end[0]];
    }
  }

  /** A sync that fails at batch `k` has delivered the batches before it. */
  lemma FailedDelivers(syncUuid: SyncId, batches: seq<seq<string>>, k: nat, end: seq<Step>, error: SnapshotError)
    requires FailsAt(syncUuid, batches, k, end, error)
    ensures Delivered([PASSED] + Guarded(syncUuid, batches[..k]) + end) == batches[..k]
  {
    CompleteDelivers(syncUuid, batches[..k]);
    FailedEndDelivers(syncUuid, batches, k, end, error);
    DeliveredConcat([PASSED] + Guarded(syncUuid, batches[..k]), end);
  }

  /**
   Whatever happens, the delivered batches are a prefix of the batches, and on a normal
   return they are all of them: put together they are the whole order, in as many batches
   of one to five names as it takes.
   */
  lemma SyncDelivers(order: seq<string>, syncUuid: SyncId, batches: seq<seq<string>>, steps: seq<Step>,
                     r: Result<SyncId, SnapshotError>)
    requires IsChunking(order, DISCOVERY_BATCH_SIZE, batches) && SyncSteps(syncUuid, batches, steps, r)
    ensures Delivered(steps) <= batches
    ensures forall k :: 0 <= k < |Delivered(steps)| ==> 1 <= |Delivered(steps)[k]| <= 5
    ensures r.Success? ==> Flatten(Delivered(steps)) == order && |Delivered(steps)| == (|order| + 4) / 5
  {
    ChunkCount(order, DISCOVERY_BATCH_SIZE, batches);
    if r.Success? {
      assert Delivered(steps) == batches by {
        CompleteDelivers(syncUuid, batches);
      }
    } else if |steps| == 1 && CheckRaises(steps[0], r.error) {
      OneStep(steps[0]);
      assert steps == [steps[0]];
    } else {
      var k: nat, end :| FailsAt(syncUuid, batches, k, end, r.error)
                         && steps == [PASSED] + Guarded(syncUuid, batches[..k]) + end;
      assert Delivered(steps) == batches[..k] by {
        FailedDelivers(syncUuid, batches, k, end, r.error);
      }
    }
  }

  /** Every publish is under the one sync id and comes right after a successful check made for it. */
  ghost predicate EveryPublishChecked(syncUuid: SyncId, steps: seq<Step>) {
    forall k :: 0 <= k < |steps| && steps[k].PublishCall? ==>
                  0 < k && steps[k - 1] == PASSED && steps[k].syncUuid == syncUuid
  }

  lemma {:induction false} GuardedChecked(syncUuid: SyncId, batches: seq<seq<string>>)
    ensures EveryPublishChecked(syncUuid, Guarded(syncUuid, batches))
    decreases |batches|
  {
    if batches != [] {
      GuardedChecked(syncUuid, batches[..|batches| - 1]);
    }
  }

  lemma ConcatChecked(syncUuid: SyncId, first: seq<Step>, second: seq<Step>)
    requires EveryPublishChecked(syncUuid, first) && EveryPublishChecked(syncUuid, second)
    ensures EveryPublishChecked(syncUuid, first + second)
  {
    forall k | 0 <= k < |first + second| && (first + second)[k].PublishCall?
      ensures 0 < k && (first + second)[k - 1] == PASSED && (first + second)[k].syncUuid == syncUuid
    {
      if |first| <= k {
        assert (first + second)[k] == second[k - |first|] && (first + second)[k - 1] == second[k - |first| - 1];
      }
    }
  }

  lemma EndChecked(syncUuid: SyncId, batches: seq<seq<string>>, k: nat, end: seq<Step>, error: SnapshotError)
    requires FailsAt(syncUuid, batches, k, end, error)
    ensures EveryPublishChecked(syncUuid, end)
  {
  }

  /** Between any two publish calls of a sync, and before the first, lies a successful check. */
  lemma SyncChecks(syncUuid: SyncId, batches: seq<seq<string>>, steps: seq<Step>, r: Result<SyncId, SnapshotError>)
    requires SyncSteps(syncUuid, batches, steps, r)
    ensures EveryPublishChecked(syncUuid, steps)
  {
    if r.Success? {
      GuardedChecked(syncUuid, batches);
      ConcatChecked(syncUuid, [PASSED], Guarded(syncUuid, batches));
    } else if !(|steps| == 1 && CheckRaises(steps[0], r.error)) {
      var k: nat, end :| FailsAt(syncUuid, batches, k, end, r.error)
                    && steps == [PASSED] + Guarded(syncUuid, batches[..k]) + end;
      GuardedChecked(syncUuid, batches[..k]);
      EndChecked(syncUuid, batches, k, end, r.error);
      ConcatChecked(syncUuid, [PASSED], Guarded(syncUuid, batches[..k]));
      ConcatChecked(syncUuid, [PASSED] + Guarded(syncUuid, batches[..k]), end);
    }
  }

  // ----- what a sync does to the election -----

  /**
   The election steps behind a step of the sync. A check is one call of the election. A publish call is up to three attempts,
   none of which may get as far as being sent, but one if it succeeds.
   */
  ghost predicate Realises(step: Step, actions: seq<Action>) {
    match step
    case Check(asked) => CallActions(asked, actions)
    case PublishCall(_, _, ok) =>
      && |actions| <= Retry.MAX_RETRIES && (ok ==> actions != [])
      && forall k :: 0 <= k < |actions| ==> actions[k] == Publish
  }

  /** Step by step, each with its election steps. */
  ghost predicate RealisesAll(steps: seq<Step>, parts: seq<seq<Action>>) {
    |steps| == |parts| && forall k :: 0 <= k < |steps| ==> Realises(steps[k], parts[k])
  }

  class SnapshotHandler {
    const targetNamespaces: seq<string>
    const leaderElection: KubernetesLeaderElection

    /** The latest sync: where the election stood when it began, its steps, and the election steps behind each. */
    ghost var before: seq<Action>
    ghost var steps: seq<Step>
    ghost var parts: seq<seq<Action>>

    /** The election has seen from the sync exactly what its steps stand for. */
    ghost predicate Recorded()
      reads this, leaderElection
    {
      leaderElection.Valid() && RealisesAll(steps, parts) && leaderElection.actions == before + Flatten(parts)
    }

    constructor (targetNamespaces: seq<string>, leaderElection: KubernetesLeaderElection)
      ensures this.targetNamespaces == targetNamespaces && this.leaderElection == leaderElection
    {
      this.targetNamespaces := targetNamespaces;
      this.leaderElection := leaderElection;
      before, steps, parts := [], [], [];
    }

    /** One more step, with the election steps `part` that have just been taken for it. */
    ghost method Record(step: Step, part: seq<Action>)
      requires leaderElection.Valid() && RealisesAll(steps, parts) && Realises(step, part)
      requires leaderElection.actions == before + Flatten(parts) + part
      modifies `steps, `parts
      ensures Recorded() && before == old(before)
      ensures steps == old(steps) + [step] && parts == old(parts) + [part]
    {
      FlattenSnoc(parts, part);
      assert before + (Flatten(parts) + part) == before + Flatten(parts) + part;
      steps, parts := steps + [step], parts + [part];
    }

    /**
     Returns normally exactly when the call made for it returned True. The agent's own write
     was then stored, and its clock read, during the check.
     */
    method EnsureLeadership() returns (r: Result<(), SnapshotError>, ghost check: Step)
      requires Recorded()
      modifies this, leaderElection, leaderElection.api, leaderElection.clock
      ensures Recorded() && before == old(before)
      ensures steps == old(steps) + [check]
      ensures if r.Success? then check == PASSED else CheckRaises(check, r.error)
      ensures r.Success? ==>
                && leaderElection.isLeader && leaderElection.Armed()
                && leaderElection.StoredSince(old(leaderElection.api.versions))
                && old(leaderElection.clock.now) <= leaderElection.local.confirmed.value.renewed <= leaderElection.clock.now
      ensures r == Failure(NotLeader) ==> !leaderElection.isLeader
      ensures r.Failure? ==> !r.error.BatchFailed? && !leaderElection.Armed()
    {
      ghost var call;
      var isLeader;
      isLeader, call := leaderElection.AcquireOrRenewLease();
      match isLeader {
        case Success(true) => r := Success(());
        case Success(false) => r := Failure(NotLeader);
        case Failure(e) => r := Failure(LeaseFailed(e));
      }
      check := Check(isLeader);
      Record(check, call);
    }

    /**
     The publish call: up to three attempts, each under the check just made. An attempt that
     gets no token is not sent and ends the call.
     */
    method PublishClusterSnapshot() returns (published: bool, ghost attempts: seq<Action>)
      requires leaderElection.Valid() && leaderElection.Armed()
      modifies leaderElection`local, leaderElection`actions
      ensures leaderElection.Valid() && leaderElection.local == old(leaderElection.local)
      ensures leaderElection.actions == old(leaderElection.actions) + attempts
      ensures |attempts| <= Retry.MAX_RETRIES && (published ==> attempts != [])
      ensures forall k :: 0 <= k < |attempts| ==> attempts[k] == Publish
    {
      var attempt := 1;
      published, attempts := false, [];
      while attempt <= Retry.MAX_RETRIES && !published
        invariant 1 <= attempt <= Retry.MAX_RETRIES + 1 && |attempts| < attempt
        invariant leaderElection.Valid() && leaderElection.local == old(leaderElection.local)
        invariant leaderElection.actions == old(leaderElection.actions) + attempts
        invariant (published ==> attempts != []) && forall k :: 0 <= k < |attempts| ==> attempts[k] == Publish
        decreases Retry.MAX_RETRIES + 1 - attempt
      {
        var hasToken: bool := *;
        if !hasToken {
          return;
        }
        leaderElection.NotePublish();
        attempts := attempts + [Publish];
        published := *;
        var retries: bool := *;
        if !published && !retries {
          return;
        }
        attempt := attempt + 1;
      }
    }

    /** Discover one batch and hand it to the control plane; either part may raise. */
    method DiscoverAndPublish(syncUuid: SyncId, batch: seq<string>) returns (r: Result<(), SnapshotError>, ghost calls: seq<Step>)
      requires Recorded() && leaderElection.Armed()
      modifies this, leaderElection`local, leaderElection`actions
      ensures Recorded() && before == old(before)
      ensures leaderElection.local == old(leaderElection.local)
      ensures steps == old(steps) + calls
      ensures r.Success? ==> calls == [PublishCall(syncUuid, batch, true)]
      ensures r.Failure? ==> r.error == BatchFailed(syncUuid)
      ensures r.Failure? ==> calls == [] || calls == [PublishCall(syncUuid, batch, false)]
    {
      var discovered: bool := *;
      if !discovered {
        return Failure(BatchFailed(syncUuid)), [];
      }
      ghost var attempts;
      var published;
      published, attempts := PublishClusterSnapshot();
      calls := [PublishCall(syncUuid, batch, published)];
      Record(PublishCall(syncUuid, batch, published), attempts);
      r := if published then Success(()) else Failure(BatchFailed(syncUuid));
    }

    /** One batch: `end` is what it adds to the steps. */
    method CheckAndPublish(syncUuid: SyncId, batch: seq<string>)
      returns (r: Result<(), SnapshotError>, ghost end: seq<Step>)
      requires Recorded()
      modifies this, leaderElection, leaderElection.api, leaderElection.clock
      ensures Recorded() && before == old(before)
      ensures steps == old(steps) + end
      ensures r.Success? ==> end == [PASSED, PublishCall(syncUuid, batch, true)]
      ensures r.Failure? ==> FailsAt(syncUuid, [batch], 0, end, r.error)
    {
      ghost var check;
      r, check := EnsureLeadership();
      end := [check];
      if r.Success? {
        ghost var calls;
        r, calls := DiscoverAndPublish(syncUuid, batch);
        Associative(old(steps), [check], calls);
        end := [check] + calls;
      }
    }

    /**
     `order` and `syncUuid` are what the random source yields. The batches are the one
     cutting of the order into fives; the steps taken are exactly those of `SyncSteps`, and
     behind each of them the election has seen what `Realises` says and nothing else.
     */
    method CaptureAndPublishSnapshot(order: seq<string>, syncUuid: SyncId)
      returns (r: Result<SyncId, SnapshotError>, ghost batches: seq<seq<string>>)
      requires multiset(order) == multiset(targetNamespaces)
      requires leaderElection.Valid()
      modifies this, leaderElection, leaderElection.api, leaderElection.clock
      ensures Recorded() && before == old(leaderElection.actions)
      ensures IsChunking(order, DISCOVERY_BATCH_SIZE, batches) && SyncSteps(syncUuid, batches, steps, r)
      ensures r.Success? ==> multiset(Flatten(Delivered(steps))) == multiset(targetNamespaces)
    {
      before, steps, parts := leaderElection.actions, [], [];
      var chunks := Chunked(order, DISCOVERY_BATCH_SIZE);
      batches := chunks.value;
      ghost var check;
      var ensured;
      ensured, check := EnsureLeadership();
      if ensured.Failure? {
        r := Failure(ensured.error);
        return;
      }
      var k := 0;
      while k < |chunks.value|
        invariant 0 <= k <= |batches|
        invariant Recorded() && before == old(leaderElection.actions)
        invariant steps == [PASSED] + Guarded(syncUuid, batches[..k])
      {
        ghost var end;
        ensured, end := CheckAndPublish(syncUuid, chunks.value[k]);
        if ensured.Failure? {
          assert FailsAt(syncUuid, batches, k, end, ensured.error);
          r := Failure(ensured.error);
          return;
        }
        GuardedSnoc(syncUuid, batches, k);
        Associative([PASSED], Guarded(syncUuid, batches[..k]), end);
        k := k + 1;
      }
      assert batches[..k] == batches;
      r := Success(syncUuid);
      SyncDelivers(order, syncUuid, batches, steps, r);
    }
  }
}
