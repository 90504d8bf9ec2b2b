/**
 The worker loop (src/agent/core/worker.py) and the pacing of the snapshot worker
 (src/agent/workers/snapshot.py).
 */
module Periodic {
  import opened Wrappers
  import Election
  import opened LeaderElection

  type Error = string

  /** How the hooks of one round behave if they are called. */
  datatype Round = Round(
    shouldExecute: Result<bool, Error>,
    iteration: Result<(), Error>,
    success: Result<(), Error>,
    error: Result<(), Error>)

  /** The handler calls of a run; a success handler may raise before it is complete. */
  datatype Call = SuccessCompleted | SuccessRaised | ErrorCalled

  /** The handler calls one round makes: at most one success, at most one error handler. */
  function Calls(round: Round): seq<Call> {
    if round.shouldExecute != Success(true) then []
    else if round.iteration.Failure? then [ErrorCalled]
    else if round.success.Failure? then [SuccessRaised, ErrorCalled]
    else [SuccessCompleted]
  }

  function Concat(made: seq<seq<Call>>): seq<Call> {
    if made == [] then [] else Concat(made[..|made| - 1]) + made[|made| - 1]
  }

  lemma ConcatSnoc(before: seq<Call>, made: seq<seq<Call>>, last: seq<Call>)
    ensures before + Concat(made) + last == before + Concat(made + [last])
  {
    assert (made + [last])[..|made|] == made;
    Associative(before, Concat(made), last);
  }

  /** The rounds in which an iteration is started. */
  function Started(rounds: seq<Round>): nat {
    if rounds == [] then 0
    else Started(rounds[..|rounds| - 1]) + if rounds[|rounds| - 1].shouldExecute == Success(true) then 1 else 0
  }

  /** How often an iteration ended: with its success handler complete or in the error handler. */
  function Outcomes(calls: seq<Call>): nat {
    multiset(calls)[SuccessCompleted] + multiset(calls)[ErrorCalled]
  }

  /**
   The handler calls of one round, read off the hooks: none if it is skipped, the error handler
   if the iteration or the success handler raised, the complete success handler otherwise.
   */
  ghost predicate MadeIn(round: Round, made: seq<Call>) {
    made == if round.shouldExecute != Success(true) then []
            else if round.iteration.Failure? then [ErrorCalled]
            else if round.success.Failure? then [SuccessRaised, ErrorCalled]
            else [SuccessCompleted]
  }

  /** The calls of the rounds gone through so far. */
  ghost predicate MadeBy(rounds: seq<Round>, made: seq<seq<Call>>) {
    |made| <= |rounds| && forall k :: 0 <= k < |made| ==> MadeIn(rounds[k], made[k])
  }

  lemma {:induction false} OneOutcomeEach(rounds: seq<Round>, made: seq<seq<Call>>)
    requires |made| == |rounds| && MadeBy(rounds, made)
    ensures Outcomes(Concat(made)) == Started(rounds)
    decreases |rounds|
  {
    if rounds != [] {
      var k := |rounds| - 1;
      OneOutcomeEach(rounds[..k], made[..k]);
      assert MadeIn(rounds[k], made[k]);
      if rounds[k].shouldExecute == Success(true) {
        StartedIterationEnds(rounds[k]);
      }
    }
  }

  lemma MadeSnoc(rounds: seq<Round>, made: seq<seq<Call>>)
    requires MadeBy(rounds, made) && |made| < |rounds|
    ensures MadeBy(rounds, made + [Calls(rounds[|made|])])
  {
  }

  /**
   Whatever the loop went through: one complete success handler or one error handler call for
   every iteration it started, and none for a round that was skipped.
   */
  lemma OneOutcomePerStart(rounds: seq<Round>, before: seq<Call>, made: seq<seq<Call>>)
    requires MadeBy(rounds, made)
    ensures multiset(before + Concat(made))[SuccessCompleted] + multiset(before + Concat(made))[ErrorCalled]
         == multiset(before)[SuccessCompleted] + multiset(before)[ErrorCalled] + Started(rounds[..|made|])
  {
    OneOutcomeEach(rounds[..|made|], made);
    assert multiset(before + Concat(made)) == multiset(before) + multiset(Concat(made));
  }

  /** A started iteration ends with the success handler complete, or with one error handler call. */
  lemma StartedIterationEnds(round: Round)
    requires round.shouldExecute == Success(true)
    ensures (Calls(round) == [SuccessCompleted] <==> round.iteration.Success? && round.success.Success?)
    ensures multiset(Calls(round))[SuccessCompleted] + multiset(Calls(round))[ErrorCalled] == 1
  {
  }

  /**
   `should_execute` does not raise and, if an iteration is started and it or its success
   handler raises, the error handler does not.
   */
  predicate Survives(round: Round) {
    && round.shouldExecute.Success?
    && (round.shouldExecute.value && (round.iteration.Failure? || round.success.Failure?) ==> round.error.Success?)
  }

  /**
   How a loop over these rounds ends: normally, all done, if no exception escapes from any;
   otherwise with the first exception that escapes, in the round it comes from.
   */
  ghost predicate LoopEnds(rounds: seq<Round>, r: Result<(), Error>, done: nat) {
    && done <= |rounds|
    && (r.Success? ==> done == |rounds| && forall k :: 0 <= k < |rounds| ==> Survives(rounds[k]))
    && (r.Failure? ==>
          && 0 < done && !Survives(rounds[done - 1])
          && r.error == (if rounds[done - 1].shouldExecute.Failure? then rounds[done - 1].shouldExecute.error
                         else rounds[done - 1].error.error)
          && forall k :: 0 <= k < done - 1 ==> Survives(rounds[k]))
  }

  /** The behaviour of the hooks determines how the loop ends. */
  lemma LoopEndUnique(rounds: seq<Round>, r: Result<(), Error>, done: nat, q: Result<(), Error>, also: nat)
    requires LoopEnds(rounds, r, done) && LoopEnds(rounds, q, also)
    ensures r == q && done == also
  {
    if r.Failure? {
      assert !Survives(rounds[done - 1]);
    }
    if q.Failure? {
      assert !Survives(rounds[also - 1]);
    }
    assert r.Success? ==> r.value == ();
    assert q.Success? ==> q.value == ();
  }

  /** An exception of `should_execute` ends the loop, whatever the hooks of the rounds after it would do. */
  lemma UncaughtErrorEndsLoop(before: seq<Round>, round: Round, rest: seq<Round>, r: Result<(), Error>, done: nat)
    requires forall k :: 0 <= k < |before| ==> Survives(before[k])
    requires round.shouldExecute.Failure?
    requires LoopEnds(before + [round] + rest, r, done)
    ensures r == Failure(round.shouldExecute.error) && done == |before| + 1
  {
    var rounds := before + [round] + rest;
    assert forall k :: 0 <= k < |before| ==> rounds[k] == before[k];
    assert rounds[|before|] == round;
    LoopEndUnique(rounds, r, done, Failure(round.shouldExecute.error), |before| + 1);
  }

  class PeriodicWorker {
    var shutdown: bool
    var calls: seq<Call>

    constructor ()
      ensures !shutdown && calls == []
    {
      shutdown, calls := false, [];
    }

    /**
     One iteration; the error handler is called if the iteration or the success handler
     raised, and only it can let an exception out.
     */
    method ExecuteSafely(round: Round) returns (r: Result<(), Error>)
      modifies this
      ensures shutdown == old(shutdown)
      ensures round.iteration.Failure? ==> calls == old(calls) + [ErrorCalled] && r == round.error
      ensures round.iteration.Success? && round.success.Failure? ==>
                calls == old(calls) + [SuccessRaised, ErrorCalled] && r == round.error
      ensures round.iteration.Success? && round.success.Success? ==> calls == old(calls) + [SuccessCompleted] && r.Success?
    {
      var raised: bool;
      match round.iteration {
        case Failure(_) =>
          raised := true;
        case Success(_) =>
          raised := round.success.Failure?;
          calls := calls + [if raised then SuccessRaised else SuccessCompleted];
      }
      if raised {
        calls := calls + [ErrorCalled];
        return round.error;
      }
      r := Success(());
    }

    /**
     One round after its sleep: nothing is called unless `should_execute` says so, and its
     exception is not caught.
     */
    method RunRound(round: Round) returns (r: Result<(), Error>)
      modifies this
      ensures shutdown == old(shutdown) && calls == old(calls) + Calls(round)
      ensures round.shouldExecute.Failure? ==> calls == old(calls) && r == Failure(round.shouldExecute.error)
      ensures round.shouldExecute == Success(false) ==> calls == old(calls) && r.Success?
      ensures r.Failure? <==> !Survives(round)
      ensures r.Failure? && round.shouldExecute.Success? ==> r == round.error
    {
      match round.shouldExecute
      case Failure(e) => r := Failure(e);
      case Success(execute) =>
        if execute {
          r := ExecuteSafely(round);
        } else {
          r := Success(());
        }
    }

    /**
     The loop over the rounds that start before shutdown is requested. Unless it has been
     requested before the loop, shutdown comes while the worker sleeps or during the last
     round. The loop ends as `LoopEnds` says; `made` lists the handler calls of every round it
     got to.
     */
    method RunContinuously(rounds: seq<Round>, whileAsleep: bool)
      returns (r: Result<(), Error>, ghost done: nat, ghost made: seq<seq<Call>>)
      modifies this
      ensures old(shutdown) ==> r == Success(()) && shutdown && calls == old(calls)
      ensures !old(shutdown) ==> LoopEnds(rounds, r, done)
      ensures r.Success? ==> shutdown
      ensures done == |made| && MadeBy(rounds, made) && calls == old(calls) + Concat(made)
    {
      done, made := 0, [];
      var k := 0;
      var asleep := whileAsleep || rounds == [];
      while !shutdown
        invariant 0 <= k == done == |made| && MadeBy(rounds, made)
        invariant calls == old(calls) + Concat(made)
        invariant shutdown && !old(shutdown) ==> k == |rounds|
        invariant old(shutdown) ==> shutdown && k == 0
        invariant !shutdown && !asleep ==> k < |rounds|
        invariant forall j :: 0 <= j < k ==> Survives(rounds[j])
        decreases |rounds| - k, !shutdown
      {
        if asleep && k == |rounds| {
          shutdown := true;
        }
        if shutdown {
          break;
        }
        var round := rounds[k];
        if !asleep && k + 1 == |rounds| {
          shutdown := true;
        }
        ConcatSnoc(old(calls), made, Calls(round));
        MadeSnoc(rounds, made);
        made := made + [Calls(round)];
        k := k + 1;
        done := k;
        r := RunRound(round);
        if r.Failure? {
          assert LoopEnds(rounds, r, done);
          return;
        }
      }
      r := Success(());
      assert done == |rounds| ==> LoopEnds(rounds, r, done);
    }
  }

  // ----- startup pacing -----

  const STARTUP_RETRY_INTERVAL: int := 20
  const STARTUP_RETRY_LIMIT: nat := 5

  /** What can happen to the snapshot worker. */
  datatype Happening = AsksInterval | Succeeds | Fails

  datatype Pace = Pace(attempts: nat, hasSucceededOnce: bool)

  predicate IsFast(p: Pace) {
    !p.hasSucceededOnce && p.attempts < STARTUP_RETRY_LIMIT
  }

  function Paced(p: Pace, h: Happening): Pace {
    match h
    case AsksInterval => if IsFast(p) then p.(attempts := p.attempts + 1) else p
    case Succeeds => p.(hasSucceededOnce := true)
    case Fails => p
  }

  /** The intervals the worker sleeps, in order. */
  function Intervals(p: Pace, happenings: seq<Happening>, configured: int): seq<int>
    decreases happenings
  {
    if happenings == [] then []
    else (if happenings[0] == AsksInterval then [if IsFast(p) then STARTUP_RETRY_INTERVAL else configured] else [])
         + Intervals(Paced(p, happenings[0]), happenings[1..], configured)
  }

  function Repeat(x: int, n: nat): seq<int> {
    seq(n, _ => x)
  }

  lemma RepeatHead(x: int, n: nat)
    requires 0 < n
    ensures Repeat(x, n) == [x] + Repeat(x, n - 1)
  {
  }

  function Requests(happenings: seq<Happening>): nat
    decreases happenings
  {
    if happenings == [] then 0 else (if happenings[0] == AsksInterval then 1 else 0) + Requests(happenings[1..])
  }

  /** The interval requests made before the first success. */
  function EarlyRequests(happenings: seq<Happening>): nat
    decreases happenings
  {
    if happenings == [] || happenings[0] == Succeeds then 0
    else (if happenings[0] == AsksInterval then 1 else 0) + EarlyRequests(happenings[1..])
  }

  function Min(a: nat, b: nat): nat {
    if a < b then a else b
  }

  /** After a success, or once the fast attempts are used up, only the configured interval is left. */
  lemma {:induction false} SlowForever(p: Pace, happenings: seq<Happening>, configured: int)
    requires !IsFast(p)
    ensures Intervals(p, happenings, configured) == Repeat(configured, Requests(happenings))
    decreases happenings
  {
    if happenings != [] {
      SlowForever(Paced(p, happenings[0]), happenings[1..], configured);
    }
  }

  /**
   Whatever happens in whatever order, the intervals are a block of fast ones followed only
   by the configured one, and the block is as long as the requests made before the first
   success, up to the attempts that are left.
   */
  lemma {:induction false} PacingFrom(p: Pace, happenings: seq<Happening>, configured: int)
    requires !p.hasSucceededOnce && p.attempts <= STARTUP_RETRY_LIMIT
    ensures var fast := Min(STARTUP_RETRY_LIMIT - p.attempts, EarlyRequests(happenings));
            && fast <= Requests(happenings)
            && Intervals(p, happenings, configured)
               == Repeat(STARTUP_RETRY_INTERVAL, fast) + Repeat(configured, Requests(happenings) - fast)
    decreases happenings
  {
    if happenings != [] {
      var next := Paced(p, happenings[0]);
      if happenings[0] == Succeeds {
        SlowForever(next, happenings[1..], configured);
      } else {
        PacingFrom(next, happenings[1..], configured);
        if happenings[0] == AsksInterval && IsFast(p) {
          var fast := Min(STARTUP_RETRY_LIMIT - p.attempts, EarlyRequests(happenings));
          RepeatHead(STARTUP_RETRY_INTERVAL, fast);
          Associative([STARTUP_RETRY_INTERVAL], Repeat(STARTUP_RETRY_INTERVAL, fast - 1),
                      Repeat(configured, Requests(happenings) - fast));
        }
        if happenings[0] == AsksInterval && !IsFast(p) {
          SlowForever(p, happenings, configured);
        }
      }
    }
  }

  /** A new worker: at most five fast intervals, none after the first success. */
  lemma StartupPacing(happenings: seq<Happening>, configured: int)
    ensures var fast := Min(5, EarlyRequests(happenings));
            && fast <= Requests(happenings)
            && Intervals(Pace(0, false), happenings, configured)
               == Repeat(20, fast) + Repeat(configured, Requests(happenings) - fast)
  {
    PacingFrom(Pace(0, false), happenings, configured);
  }

  // ----- the snapshot worker -----

  /** `should_execute` of the snapshot worker: an error of the election call is not caught. */
  function CheckedBy(healthy: bool, called: Result<bool, ApiException>): Result<bool, Error> {
    if !healthy then Success(false)
    else match called
      case Success(leads) => Success(leads)
      case Failure(_) => Failure("ApiException")
  }

  /**
   The input on which the loop does not survive: while the agent is healthy the API server
   answers the read of the lease with any error but 404. Then the snapshot worker's loop is
   over, after the rounds before, whatever would have come next.
   */
  lemma ApiErrorEndsSnapshots(before: seq<Round>, round: Round, rest: seq<Round>, r: Result<(), Error>, done: nat,
                              status: int, now: int)
    requires forall k :: 0 <= k < |before| ==> Survives(before[k])
    requires status != 404 && round.shouldExecute == CheckedBy(true, Failure(ApiException(status)))
    requires LoopEnds(before + [round] + rest, r, done)
    ensures CallActions(Failure(ApiException(status)), [Election.Begin(now), Election.ReadFails])
    ensures r == Failure("ApiException") && done == |before| + 1
  {
    assert [Election.Begin(now), Election.ReadFails][1..] == [Election.ReadFails];
    UncaughtErrorEndsLoop(before, round, rest, r, done);
  }

  class SnapshotWorker {
    const namespaceSnapshotInterval: int
    const leaderElection: KubernetesLeaderElection
    var startupRetryAttempts: nat
    var hasSucceededOnce: bool
    ghost var happenings: seq<Happening>
    ghost var intervals: seq<int>

    function Value(): Pace
      reads this
    {
      Pace(startupRetryAttempts, hasSucceededOnce)
    }

    /** The intervals handed out so far are the ones the history of the worker calls for. */
    ghost predicate Valid()
      reads this
    {
      && intervals == Intervals(Pace(0, false), happenings, namespaceSnapshotInterval)
      && Value() == PacedAll(Pace(0, false), happenings)
    }

    constructor (namespaceSnapshotInterval: int, leaderElection: KubernetesLeaderElection)
      ensures Valid() && happenings == [] && this.namespaceSnapshotInterval == namespaceSnapshotInterval
      ensures this.leaderElection == leaderElection
    {
      this.namespaceSnapshotInterval := namespaceSnapshotInterval;
      this.leaderElection := leaderElection;
      startupRetryAttempts, hasSucceededOnce := 0, false;
      happenings, intervals := [], [];
    }

    method ExecutionInterval() returns (interval: int)
      requires Valid()
      modifies this
      ensures Valid() && happenings == old(happenings) + [AsksInterval]
      ensures intervals == old(intervals) + [interval]
    {
      IntervalsSnoc(Pace(0, false), happenings, AsksInterval, namespaceSnapshotInterval);
      if !hasSucceededOnce && startupRetryAttempts < STARTUP_RETRY_LIMIT {
        startupRetryAttempts := startupRetryAttempts + 1;
        interval := STARTUP_RETRY_INTERVAL;
      } else {
        interval := namespaceSnapshotInterval;
      }
      happenings := happenings + [AsksInterval];
      intervals := intervals + [interval];
    }

    /** Unless unhealthy, one call of the election decides; what it raises goes through. */
    method ShouldExecute(healthy: bool)
      returns (r: Result<bool, Error>, ghost called: Result<bool, ApiException>, ghost call: seq<Election.Action>)
      requires leaderElection.Valid()
      modifies leaderElection, leaderElection.api, leaderElection.clock
      ensures leaderElection.Valid()
      ensures !healthy ==> r == Success(false)
      ensures healthy && called.Success? ==> r == Success(called.value) && leaderElection.isLeader == called.value
      ensures healthy && called.Failure? ==> r == CheckedBy(true, called) == Failure("ApiException")
      ensures leaderElection.actions == old(leaderElection.actions) + call
      ensures if healthy then CallActions(called, call) else call == []
      ensures r == Success(true) ==> leaderElection.Armed() && leaderElection.StoredSince(old(leaderElection.api.versions))
    {
      if !healthy {
        return Success(false), Success(false), [];
      }
      var answer;
      answer, call := leaderElection.AcquireOrRenewLease();
      called := answer;
      match answer
      case Success(leads) => r := Success(leads);
      case Failure(_) => r := Failure("ApiException");
    }

    method HandleIterationSuccess()
      requires Valid()
      modifies this
      ensures Valid() && happenings == old(happenings) + [Succeeds] && intervals == old(intervals)
      ensures hasSucceededOnce
    {
      IntervalsSnoc(Pace(0, false), happenings, Succeeds, namespaceSnapshotInterval);
      hasSucceededOnce := true;
      happenings := happenings + [Succeeds];
    }

    method HandleIterationError()
      requires Valid()
      modifies this
      ensures Valid() && happenings == old(happenings) + [Fails] && intervals == old(intervals)
    {
      IntervalsSnoc(Pace(0, false), happenings, Fails, namespaceSnapshotInterval);
      happenings := happenings + [Fails];
    }
  }

  function PacedAll(p: Pace, happenings: seq<Happening>): Pace
    decreases happenings
  {
    if happenings == [] then p else PacedAll(Paced(p, happenings[0]), happenings[1..])
  }

  lemma {:induction false} IntervalsSnoc(p: Pace, happenings: seq<Happening>, h: Happening, configured: int)
    ensures PacedAll(p, happenings + [h]) == Paced(PacedAll(p, happenings), h)
    ensures Intervals(p, happenings + [h], configured)
         == Intervals(p, happenings, configured)
            + if h == AsksInterval then [if IsFast(PacedAll(p, happenings)) then STARTUP_RETRY_INTERVAL else configured] else []
    decreases happenings
  {
    if happenings == [] {
      assert [h][1..] == [];
    } else {
      IntervalsSnoc(Paced(p, happenings[0]), happenings[1..], h, configured);
      assert (happenings + [h])[1..] == happenings[1..] + [h];
    }
  }
}
