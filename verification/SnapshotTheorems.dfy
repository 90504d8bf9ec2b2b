/**
 The batched sync inside the leader election: which write covers each publish attempt of a
 sync, and who holds the lease when the attempt is made.
 */
module SnapshotTheorems {
  import opened Wrappers
  import opened Leases
  import opened Election
  import opened ElectionTheorems
  import opened LeaderElection
  import opened Snapshots

  /** Right before every publish call lies a call of the election that has sent its request. */
  predicate Covered(steps: seq<Step>, parts: seq<seq<Action>>) {
    && |steps| == |parts|
    && forall k :: 0 <= k < |steps| && steps[k].PublishCall? ==> 0 < k && Asks(parts[k - 1])
  }

  /** For every attempt of step `k`, the write of the check made for it. */
  function StepCovers(id: Identity, own: nat, steps: seq<Step>, parts: seq<seq<Action>>, k: nat): seq<Stamp>
    requires Covered(steps, parts) && k < |steps|
  {
    if steps[k].PublishCall? then seq(|parts[k]|, _ => CallStamp(id, own, parts[k - 1])) else []
  }

  /** The same for all steps of a sync. */
  function SyncCovers(id: Identity, own: nat, steps: seq<Step>, parts: seq<seq<Action>>): seq<Stamp>
    requires Covered(steps, parts)
    decreases |steps|
  {
    if steps == [] then []
    else
      var k := |steps| - 1;
      SyncCovers(id, own, steps[..k], parts[..k]) + StepCovers(id, own, steps, parts, k)
  }

  lemma CheckedIsCovered(syncUuid: SyncId, steps: seq<Step>, parts: seq<seq<Action>>)
    requires RealisesAll(steps, parts) && EveryPublishChecked(syncUuid, steps)
    ensures Covered(steps, parts)
  {
    forall k | 0 <= k < |steps| && steps[k].PublishCall?
      ensures 0 < k && Asks(parts[k - 1])
    {
      assert Realises(steps[k - 1], parts[k - 1]);
      TrueIsConfirmed(Success(true), parts[k - 1]);
    }
  }

  lemma {:induction false} LocalCoversConcat(id: Identity, own: nat, a: Agent, first: seq<Action>, b: Agent, second: seq<Action>)
    requires LocalRun(id, own, a, first) == Some(b)
    ensures LocalCovers(id, own, a, first + second) == LocalCovers(id, own, a, first) + LocalCovers(id, own, b, second)
    decreases first
  {
    if first == [] {
      assert first + second == second;
    } else {
      var next := Next(id, own, a, first[0]).value;
      LocalCoversConcat(id, own, next, first[1..], b, second);
      assert (first + second)[0] == first[0] && (first + second)[1..] == first[1..] + second;
      Associative(CoverOf(a, first[0]), LocalCovers(id, own, next, first[1..]), LocalCovers(id, own, b, second));
    }
  }

  /** A run of the first steps is the beginning of a run of all of them. */
  lemma {:induction false} LocalRunSplit(id: Identity, own: nat, a: Agent, first: seq<Action>, second: seq<Action>)
    returns (b: Agent)
    requires LocalRun(id, own, a, first + second).Some?
    ensures LocalRun(id, own, a, first) == Some(b)
    ensures LocalRun(id, own, b, second) == LocalRun(id, own, a, first + second)
    decreases first
  {
    if first == [] {
      assert first + second == second;
      b := a;
    } else {
      assert (first + second)[1..] == first[1..] + second;
      b := LocalRunSplit(id, own, Next(id, own, a, first[0]).value, first[1..], second);
    }
  }

  /** Publish attempts leave the agent alone and are covered by its confirmed write. */
  lemma {:induction false} AttemptsCovered(id: Identity, own: nat, a: Agent, attempts: seq<Action>)
    requires LocalRun(id, own, a, attempts).Some? && forall k :: 0 <= k < |attempts| ==> attempts[k] == Publish
    requires a.confirmed.Some?
    ensures LocalRun(id, own, a, attempts) == Some(a)
    ensures LocalCovers(id, own, a, attempts) == seq(|attempts|, _ => a.confirmed.value)
    decreases attempts
  {
    if attempts != [] {
      AttemptsCovered(id, own, a, attempts[1..]);
    }
  }

  /** Without a publish attempt nothing is covered. */
  lemma {:induction false} QuietCovers(id: Identity, own: nat, a: Agent, actions: seq<Action>)
    requires Publish !in actions
    ensures LocalCovers(id, own, a, actions) == []
    decreases actions
  {
    if actions != [] && Next(id, own, a, actions[0]).Some? {
      QuietCovers(id, own, Next(id, own, a, actions[0]).value, actions[1..]);
    }
  }

  lemma CallIsQuiet(r: Result<bool, ApiException>, call: seq<Action>)
    requires CallActions(r, call)
    ensures Publish !in call
  {
    assert call == [call[0]] + call[1..] == [call[0], call[1]] + call[2..];
    if Asks(call) && WriteActions(r, call[3..]) {
      assert call == call[..3] + call[3..];
    }
  }

  /** After a confirmed call the agent's confirmed write is the one of that call. */
  lemma CallConfirms(id: Identity, own: nat, a: Agent, call: seq<Action>, b: Agent)
    requires ConfirmedCall(call) && LocalRun(id, own, a, call) == Some(b)
    ensures b.confirmed == Some(CallStamp(id, own, call))
  {
    var c1 := Next(id, own, a, call[0]).value;
    assert LocalRun(id, own, c1, call[1..]) == Some(b) && call[1..][0] == call[1];
    var c2 := Next(id, own, c1, call[1]).value;
    assert call[1..][1..] == call[2..] && LocalRun(id, own, c2, call[2..]) == Some(b) && call[2..][0] == call[2];
    var c3 := Next(id, own, c2, call[2]).value;
    assert call[2..][1..] == call[3..] && LocalRun(id, own, c3, call[3..]) == Some(b);
    var c4 := Next(id, own, c3, Served(true)).value;
    assert call[3..][1..] == [Confirmed] && LocalRun(id, own, c4, [Confirmed]) == Some(b);
    assert [Confirmed][1..] == [] && Next(id, own, c4, Confirmed) == Some(b);
    assert c3.phase.Writing? && c3.phase.request.stamp == CallStamp(id, own, call);
  }

  /** A check covers nothing itself; a successful one confirms its own write. */
  lemma CheckConfirms(id: Identity, own: nat, a: Agent, asked: Result<bool, ApiException>, call: seq<Action>, b: Agent)
    requires Realises(Check(asked), call) && LocalRun(id, own, a, call) == Some(b)
    ensures LocalCovers(id, own, a, call) == []
    ensures asked == Success(true) ==> Asks(call) && b.confirmed == Some(CallStamp(id, own, call))
  {
    CallIsQuiet(asked, call);
    QuietCovers(id, own, a, call);
    if asked == Success(true) {
      TrueIsConfirmed(asked, call);
      CallConfirms(id, own, a, call, b);
    }
  }

  /** What the agent has confirmed if the last of these steps is a successful check. */
  ghost predicate ConfirmedByLast(id: Identity, own: nat, steps: seq<Step>, parts: seq<seq<Action>>, b: Agent)
    requires |steps| == |parts|
  {
    steps != [] && steps[|steps| - 1] == PASSED ==>
      Asks(parts[|parts| - 1]) && b.confirmed == Some(CallStamp(id, own, parts[|parts| - 1]))
  }

  /** One more step of the sync, from an agent that has done the steps before. */
  lemma StepCovered(id: Identity, own: nat, steps: seq<Step>, parts: seq<seq<Action>>, k: nat, c: Agent, b: Agent)
    requires Covered(steps, parts) && k < |steps| && Realises(steps[k], parts[k])
    requires steps[k].PublishCall? ==> 0 < k && c.confirmed == Some(CallStamp(id, own, parts[k - 1]))
    requires LocalRun(id, own, c, parts[k]) == Some(b)
    ensures LocalCovers(id, own, c, parts[k]) == StepCovers(id, own, steps, parts, k)
    ensures steps[k] == PASSED ==> Asks(parts[k]) && b.confirmed == Some(CallStamp(id, own, parts[k]))
  {
    match steps[k]
    case PublishCall(_, _, _) => AttemptsCovered(id, own, c, parts[k]);
    case Check(asked) => CheckConfirms(id, own, c, asked, parts[k], b);
  }

  /**
   Read off the agent's own steps: every publish attempt of a sync is covered by the write
   of the check made for its batch, and by no other.
   */
  lemma {:induction false} CoversOfSync(id: Identity, own: nat, a: Agent, syncUuid: SyncId, steps: seq<Step>,
                                        parts: seq<seq<Action>>, b: Agent)
    requires RealisesAll(steps, parts) && EveryPublishChecked(syncUuid, steps)
    requires LocalRun(id, own, a, Flatten(parts)) == Some(b)
    ensures Covered(steps, parts) && ConfirmedByLast(id, own, steps, parts, b)
    ensures LocalCovers(id, own, a, Flatten(parts)) == SyncCovers(id, own, steps, parts)
    decreases |steps|
  {
    CheckedIsCovered(syncUuid, steps, parts);
    if steps != [] {
      var k := |steps| - 1;
      assert parts == parts[..k] + [parts[k]];
      FlattenSnoc(parts[..k], parts[k]);
      var c := LocalRunSplit(id, own, a, Flatten(parts[..k]), parts[k]);
      CoversOfSync(id, own, a, syncUuid, steps[..k], parts[..k], c);
      LocalCoversConcat(id, own, a, Flatten(parts[..k]), c, parts[k]);
      StepCovered(id, own, steps, parts, k, c, b);
    }
  }

  /**
   The sync in the system, in the middle of any other agents: from a reached state `s`, in
   which the agent's own steps up to `t` are those of a sync. Its publish attempts are
   covered batch by batch by the writes of the checks made for the batches, and each of
   them that came within the window of its check was made by the holder of the stored
   lease, renewed no earlier than by that check.
   */
  lemma SyncUnderLease(durations: map<Identity, nat>, start: Time, skew: nat, foreign: seq<Option<LeaseSpec>>,
                       past: seq<Event>, s: State, events: seq<Event>, t: State, id: Identity,
                       syncUuid: SyncId, batches: seq<seq<string>>, steps: seq<Step>, r: Result<SyncId, SnapshotError>,
                       parts: seq<seq<Action>>)
    requires Reached(durations, start, skew, foreign, past, s) && Run(durations, s, events) == Some(t)
    requires id in durations && id in s.agents && ActionsOf(id, events) == Flatten(parts)
    requires SyncSteps(syncUuid, batches, steps, r) && RealisesAll(steps, parts)
    ensures Covered(steps, parts)
    ensures CoversOf(id, t.publications) == CoversOf(id, s.publications) + SyncCovers(id, durations[id], steps, parts)
    ensures forall p :: p in t.publications && p.at + skew <= p.cover.Deadline() ==> MadeByHolder(p)
  {
    SyncChecks(syncUuid, batches, steps, r);
    RunProjects(durations, s, events, t, id);
    CoversProject(durations, s, events, t, id);
    CoversOfSync(id, durations[id], s.agents[id], syncUuid, steps, parts, t.agents[id]);
    RunKeepsHolders(durations, Initial(durations, start, skew, foreign), past, s);
    ReachedInv(durations, start, skew, foreign, past, s);
    RunKeepsHolders(durations, s, events, t);
    RunKeepsInv(durations, s, events, t);
  }
}
