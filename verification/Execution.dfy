/**
 Running a claim set (src/agent/handlers/runner.py): its events, what stopping on failure
 means, and the executor as a loop that emits event after event.
 */
module Execution {
  import opened Wrappers
  import opened Claims

  datatype EventKind = ScenarioQueued | ScenarioExecuting | ScenarioSucceeded | ScenarioFailed

  /** An event of the claim at index `claim` of the set with id `set`. */
  datatype Event = Event(kind: EventKind, setId: SetId, claim: nat)

  /** The QUEUED events of the first `n` claims, in input order. */
  function QueuedEvents(claimSet: ClaimSet, n: nat): seq<Event> {
    if n == 0 then [] else QueuedEvents(claimSet, n - 1) + [Event(ScenarioQueued, claimSet.id, n - 1)]
  }

  lemma {:induction false} QueuedAt(claimSet: ClaimSet, n: nat, k: nat)
    requires k < n
    ensures |QueuedEvents(claimSet, n)| == n && QueuedEvents(claimSet, n)[k] == Event(ScenarioQueued, claimSet.id, k)
  {
    if k < n - 1 {
      QueuedAt(claimSet, n - 1, k);
    } else {
      QueuedLength(claimSet, n - 1);
    }
  }

  lemma {:induction false} QueuedLength(claimSet: ClaimSet, n: nat)
    ensures |QueuedEvents(claimSet, n)| == n
  {
    if n > 0 {
      QueuedLength(claimSet, n - 1);
    }
  }

  /** The claims are announced one by one in input order, whatever their positions. */
  ghost predicate AnnouncesAll(events: seq<Event>, claimSet: ClaimSet) {
    && |events| == |claimSet.claims|
    && forall k :: 0 <= k < |events| ==> events[k] == Event(ScenarioQueued, claimSet.id, k)
  }

  lemma QueuedAnnouncesAll(claimSet: ClaimSet)
    ensures AnnouncesAll(QueuedEvents(claimSet, |claimSet.claims|), claimSet)
  {
    QueuedLength(claimSet, |claimSet.claims|);
    forall k | 0 <= k < |claimSet.claims|
      ensures QueuedEvents(claimSet, |claimSet.claims|)[k] == Event(ScenarioQueued, claimSet.id, k)
    {
      QueuedAt(claimSet, |claimSet.claims|, k);
    }
  }

  function Verdict(ok: bool): EventKind {
    if ok then ScenarioSucceeded else ScenarioFailed
  }

  /** The events of a run in which the claims had these outcomes, in execution order. */
  function RunEvents(claimSet: ClaimSet, outcomes: seq<bool>): seq<Event> {
    if outcomes == [] || |claimSet.claims| < |outcomes| then []
    else
      var k := |outcomes| - 1;
      var claim := StableOrder(claimSet.claims)[k];
      RunEvents(claimSet, outcomes[..k])
      + [Event(ScenarioExecuting, claimSet.id, claim), Event(Verdict(outcomes[k]), claimSet.id, claim)]
  }

  /** One more claim adds its EXECUTING event and its verdict. */
  lemma RunEventsSnoc(claimSet: ClaimSet, outcomes: seq<bool>, ok: bool)
    requires |outcomes| < |claimSet.claims|
    ensures RunEvents(claimSet, outcomes + [ok])
         == RunEvents(claimSet, outcomes)
            + [Event(ScenarioExecuting, claimSet.id, StableOrder(claimSet.claims)[|outcomes|]),
               Event(Verdict(ok), claimSet.id, StableOrder(claimSet.claims)[|outcomes|])]
  {
    assert (outcomes + [ok])[..|outcomes|] == outcomes;
  }

  /**
   What a run shows: for every claim that ran, in execution order, EXECUTING and then SUCCESS
   if it succeeded and FAILED if it did not.
   */
  ghost predicate ShowsRun(events: seq<Event>, claimSet: ClaimSet, outcomes: seq<bool>)
    requires |outcomes| <= |claimSet.claims|
  {
    && |events| == 2 * |outcomes|
    && forall k :: 0 <= k < |outcomes| ==>
         && events[2 * k] == Event(ScenarioExecuting, claimSet.id, StableOrder(claimSet.claims)[k])
         && events[2 * k + 1] == Event(if outcomes[k] then ScenarioSucceeded else ScenarioFailed,
                                       claimSet.id, StableOrder(claimSet.claims)[k])
  }

  lemma {:induction false} RunEventsShowRun(claimSet: ClaimSet, outcomes: seq<bool>)
    requires |outcomes| <= |claimSet.claims|
    ensures ShowsRun(RunEvents(claimSet, outcomes), claimSet, outcomes)
    decreases |outcomes|
  {
    if outcomes != [] {
      RunEventsShowRun(claimSet, outcomes[..|outcomes| - 1]);
    }
  }

  /** Does a claim with this outcome end the run of the whole set? */
  predicate Stops(claimSet: ClaimSet, ok: bool) {
    !ok && claimSet.mode == StopOnFailure
  }

  /** Outcomes a run of the set can have had so far. */
  ghost predicate Legal(claimSet: ClaimSet, outcomes: seq<bool>) {
    && |outcomes| <= |claimSet.claims|
    && forall k :: 0 <= k < |outcomes| - 1 ==> !Stops(claimSet, outcomes[k])
  }

  predicate Ended(claimSet: ClaimSet, outcomes: seq<bool>) {
    |outcomes| == |claimSet.claims| || (outcomes != [] && Stops(claimSet, outcomes[|outcomes| - 1]))
  }

  /** The outcomes agree with what executing each claim gives. */
  ghost predicate Follows(claimSet: ClaimSet, outcomes: seq<bool>, script: nat -> bool)
    requires |outcomes| <= |claimSet.claims|
  {
    forall k :: 0 <= k < |outcomes| ==> outcomes[k] == script(StableOrder(claimSet.claims)[k])
  }

  /** The run goes on with one more claim. */
  lemma OneMoreClaim(claimSet: ClaimSet, outcomes: seq<bool>, ok: bool, script: nat -> bool)
    requires Legal(claimSet, outcomes) && !Ended(claimSet, outcomes) && Follows(claimSet, outcomes, script)
    requires ok == script(StableOrder(claimSet.claims)[|outcomes|])
    ensures Legal(claimSet, outcomes + [ok]) && Follows(claimSet, outcomes + [ok], script)
  {
  }

  /**
   What the two modes promise: in stop mode exactly the prefix through the first failure
   runs; in continue mode every claim runs.
   */
  lemma ModesPromise(claimSet: ClaimSet, outcomes: seq<bool>)
    requires Legal(claimSet, outcomes) && Ended(claimSet, outcomes)
    ensures claimSet.mode == StopOnFailure ==>
              && (forall k :: 0 <= k < |outcomes| - 1 ==> outcomes[k])
              && (|outcomes| < |claimSet.claims| ==> outcomes != [] && !outcomes[|outcomes| - 1])
    ensures claimSet.mode == ContinueOnFailure ==> |outcomes| == |claimSet.claims|
  {
  }

  /** The behaviour of the claims determines which of them run and how. */
  lemma OutcomesUnique(claimSet: ClaimSet, a: seq<bool>, b: seq<bool>, script: nat -> bool)
    requires Legal(claimSet, a) && Ended(claimSet, a) && Follows(claimSet, a, script)
    requires Legal(claimSet, b) && Ended(claimSet, b) && Follows(claimSet, b, script)
    ensures a == b
  {
  }

  // ----- what the events of one claim look like -----

  function Project(log: seq<Event>, id: SetId, claim: nat): seq<EventKind> {
    if log == [] then []
    else (if log[0].setId == id && log[0].claim == claim then [log[0].kind] else []) + Project(log[1..], id, claim)
  }

  lemma {:induction false} ProjectConcat(a: seq<Event>, b: seq<Event>, id: SetId, claim: nat)
    ensures Project(a + b, id, claim) == Project(a, id, claim) + Project(b, id, claim)
    decreases a
  {
    if a == [] {
      assert a + b == b;
    } else {
      var head := if a[0].setId == id && a[0].claim == claim then [a[0].kind] else [];
      ProjectConcat(a[1..], b, id, claim);
      assert (a + b)[1..] == a[1..] + b;
      Associative(head, Project(a[1..], id, claim), Project(b, id, claim));
    }
  }

  lemma {:induction false} ProjectQueued(claimSet: ClaimSet, n: nat, id: SetId, claim: nat)
    ensures Project(QueuedEvents(claimSet, n), id, claim)
         == if id == claimSet.id && claim < n then [ScenarioQueued] else []
  {
    if n > 0 {
      ProjectQueued(claimSet, n - 1, id, claim);
      ProjectConcat(QueuedEvents(claimSet, n - 1), [Event(ScenarioQueued, claimSet.id, n - 1)], id, claim);
    }
  }

  /** A claim that did not run has no events in the run. */
  lemma {:induction false} ProjectOthers(claimSet: ClaimSet, outcomes: seq<bool>, id: SetId, claim: nat)
    requires |outcomes| <= |claimSet.claims|
    requires id == claimSet.id ==> forall k :: 0 <= k < |outcomes| ==> StableOrder(claimSet.claims)[k] != claim
    ensures Project(RunEvents(claimSet, outcomes), id, claim) == []
    decreases |outcomes|
  {
    if outcomes != [] {
      var last := |outcomes| - 1;
      var at := StableOrder(claimSet.claims)[last];
      var a, b := Event(ScenarioExecuting, claimSet.id, at), Event(Verdict(outcomes[last]), claimSet.id, at);
      ProjectOthers(claimSet, outcomes[..last], id, claim);
      ProjectConcat(RunEvents(claimSet, outcomes[..last]), [a, b], id, claim);
      ProjectPair(a, b, id, claim);
    }
  }

  /** A claim that ran has exactly EXECUTING and its verdict. */
  lemma {:induction false} ProjectRun(claimSet: ClaimSet, outcomes: seq<bool>, k: nat)
    requires k < |outcomes| <= |claimSet.claims|
    ensures Project(RunEvents(claimSet, outcomes), claimSet.id, StableOrder(claimSet.claims)[k])
         == [ScenarioExecuting, if outcomes[k] then ScenarioSucceeded else ScenarioFailed]
    decreases |outcomes|
  {
    var last := |outcomes| - 1;
    var id, claim, at := claimSet.id, StableOrder(claimSet.claims)[k], StableOrder(claimSet.claims)[last];
    var a, b := Event(ScenarioExecuting, id, at), Event(Verdict(outcomes[last]), id, at);
    assert RunEvents(claimSet, outcomes) == RunEvents(claimSet, outcomes[..last]) + [a, b];
    ProjectConcat(RunEvents(claimSet, outcomes[..last]), [a, b], id, claim);
    ProjectPair(a, b, id, claim);
    StableOrderDistinct(claimSet.claims, k);
    if k < last {
      ProjectRun(claimSet, outcomes[..last], k);
    } else {
      ProjectOthers(claimSet, outcomes[..last], id, claim);
    }
  }

  lemma ProjectPair(a: Event, b: Event, id: SetId, claim: nat)
    requires a.setId == b.setId && a.claim == b.claim
    ensures Project([a, b], id, claim) == if a.setId == id && a.claim == claim then [a.kind, b.kind] else []
  {
    ProjectConcat([a], [b], id, claim);
    assert [a] + [b] == [a, b];
  }

  // ----- one execution at a time -----

  datatype Window = Closed | Open(setId: SetId, claim: nat) | Broken

  /** An execution opens with EXECUTING and closes with its own verdict; nothing fits in between. */
  function Feed(w: Window, e: Event): Window {
    match e.kind
    case ScenarioQueued => if w == Closed then Closed else Broken
    case ScenarioExecuting => if w == Closed then Open(e.setId, e.claim) else Broken
    case ScenarioSucceeded => if w == Open(e.setId, e.claim) then Closed else Broken
    case ScenarioFailed => if w == Open(e.setId, e.claim) then Closed else Broken
  }

  function FeedAll(w: Window, log: seq<Event>): Window
    decreases |log|
  {
    if log == [] then w else Feed(FeedAll(w, log[..|log| - 1]), log[|log| - 1])
  }

  lemma {:induction false} FeedConcat(w: Window, a: seq<Event>, b: seq<Event>)
    ensures FeedAll(w, a + b) == FeedAll(FeedAll(w, a), b)
    decreases |b|
  {
    if b == [] {
      assert a + b == a;
    } else {
      FeedConcat(w, a, b[..|b| - 1]);
      assert (a + b)[..|a + b| - 1] == a + b[..|b| - 1];
    }
  }

  lemma FeedPair(w: Window, a: Event, b: Event)
    ensures FeedAll(w, [a]) == Feed(w, a)
    ensures FeedAll(w, [a, b]) == Feed(Feed(w, a), b)
  {
    assert [a][..0] == [];
    assert [a, b][..1] == [a];
  }

  lemma {:induction false} QueuedKeepsClosed(claimSet: ClaimSet, n: nat)
    ensures FeedAll(Closed, QueuedEvents(claimSet, n)) == Closed
  {
    if n > 0 {
      QueuedKeepsClosed(claimSet, n - 1);
      assert QueuedEvents(claimSet, n)[..|QueuedEvents(claimSet, n)| - 1] == QueuedEvents(claimSet, n - 1);
    }
  }

  lemma {:induction false} RunKeepsClosed(claimSet: ClaimSet, outcomes: seq<bool>)
    requires |outcomes| <= |claimSet.claims|
    ensures FeedAll(Closed, RunEvents(claimSet, outcomes)) == Closed
    decreases |outcomes|
  {
    if outcomes != [] {
      var last := |outcomes| - 1;
      var at := StableOrder(claimSet.claims)[last];
      var a, b := Event(ScenarioExecuting, claimSet.id, at), Event(Verdict(outcomes[last]), claimSet.id, at);
      RunKeepsClosed(claimSet, outcomes[..last]);
      FeedConcat(Closed, RunEvents(claimSet, outcomes[..last]), [a, b]);
      FeedPair(Closed, a, b);
    }
  }

  // ----- the executor -----

  class AgentTelemetry {
    var events: seq<Event>

    constructor ()
      ensures events == []
    {
      events := [];
    }

    method EmitEvent(event: Event)
      modifies this
      ensures events == old(events) + [event]
    {
      events := events + [event];
    }
  }

  /** The claim and its set are attached to the error that leaves the executor. */
  datatype ClaimFailure = ClaimFailure(claimSet: ClaimSet, claim: nat)

  class ScenarioRunner {
    const telemetry: AgentTelemetry
    var pauses: nat

    constructor (telemetry: AgentTelemetry)
      ensures this.telemetry == telemetry && pauses == 0
    {
      this.telemetry := telemetry;
      pauses := 0;
    }

    /** One claim with its two events; `succeeds` is how executing it goes. */
    method ExecuteClaim(claimSet: ClaimSet, claim: nat, succeeds: bool) returns (ok: bool)
      modifies telemetry
      ensures ok == succeeds
      ensures telemetry.events == old(telemetry.events)
              + [Event(ScenarioExecuting, claimSet.id, claim), Event(Verdict(succeeds), claimSet.id, claim)]
    {
      telemetry.EmitEvent(Event(ScenarioExecuting, claimSet.id, claim));
      ok := succeeds;
      if ok {
        telemetry.EmitEvent(Event(ScenarioSucceeded, claimSet.id, claim));
      } else {
        telemetry.EmitEvent(Event(ScenarioFailed, claimSet.id, claim));
      }
    }

    /**
     `script` says for each claim whether executing it succeeds. The claims that run, their
     events, the raised failure and the pauses are all determined by it. It raises exactly
     when in stop mode the last claim that ran failed; that claim is attached, and its FAILED
     is the last event.
     */
    method ExecuteClaimSet(claimSet: ClaimSet, script: nat -> bool)
      returns (r: Result<(), ClaimFailure>, ghost outcomes: seq<bool>)
      modifies this, telemetry
      ensures Legal(claimSet, outcomes) && Ended(claimSet, outcomes)
      ensures forall k :: 0 <= k < |outcomes| ==> outcomes[k] == script(StableOrder(claimSet.claims)[k])
      ensures |old(telemetry.events)| <= |telemetry.events|
      ensures telemetry.events[..|old(telemetry.events)|] == old(telemetry.events)
      ensures ShowsRun(telemetry.events[|old(telemetry.events)|..], claimSet, outcomes)
      ensures r.Failure? <==> claimSet.mode == StopOnFailure && outcomes != [] && !outcomes[|outcomes| - 1]
      ensures r.Failure? ==>
                && r.error == ClaimFailure(claimSet, StableOrder(claimSet.claims)[|outcomes| - 1])
                && telemetry.events != []
                && telemetry.events[|telemetry.events| - 1] == Event(ScenarioFailed, claimSet.id, r.error.claim)
      ensures pauses == old(pauses) + |outcomes| - (if r.Failure? then 1 else 0)
    {
      var order := StableOrder(claimSet.claims);
      outcomes := [];
      var k := 0;
      while k < |order|
        invariant 0 <= k == |outcomes| <= |order|
        invariant Legal(claimSet, outcomes) && Follows(claimSet, outcomes, script)
        invariant outcomes != [] ==> !Stops(claimSet, outcomes[|outcomes| - 1])
        invariant telemetry.events == old(telemetry.events) + RunEvents(claimSet, outcomes)
        invariant pauses == old(pauses) + |outcomes|
      {
        RunEventsSnoc(claimSet, outcomes, script(order[k]));
        OneMoreClaim(claimSet, outcomes, script(order[k]), script);
        ghost var before := RunEvents(claimSet, outcomes);
        ghost var pair := [Event(ScenarioExecuting, claimSet.id, order[k]), Event(Verdict(script(order[k])), claimSet.id, order[k])];
        Associative(old(telemetry.events), before, pair);
        var ok := ExecuteClaim(claimSet, order[k], script(order[k]));
        outcomes := outcomes + [ok];
        if !ok && claimSet.mode == StopOnFailure {
          RunEventsShowRun(claimSet, outcomes);
          r := Failure(ClaimFailure(claimSet, order[k]));
          return;
        }
        pauses := pauses + 1;
        k := k + 1;
      }
      RunEventsShowRun(claimSet, outcomes);
      r := Success(());
    }
  }
}
