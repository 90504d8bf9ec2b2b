/**
 The cached machine-to-machine token (src/agent/clients/token.py, src/agent/schemas/token.py)
 under any number of concurrent callers: a check without the lock, a second check under
 it, and at most one token request. Between two suspension points a coroutine runs
 undisturbed, so each event below is one atomic step.
 */
module Tokens {
  import opened Wrappers
  import opened Leases

  datatype AccessToken = AccessToken(value: string, expiresIn: int, createdAt: Time) {
    /** Five seconds before the lifetime given by the server ends. */
    function ExpiresAt(): Time {
      createdAt + Seconds(expiresIn - 5)
    }

    predicate IsExpired(now: Time) {
      now >= ExpiresAt()
    }
  }

  /** A token response; the creation time defaults to now when the response has none. */
  datatype Response = Response(value: string, expiresIn: int, createdAt: Option<Time>)

  function MakeToken(response: Response, now: Time): AccessToken {
    AccessToken(response.value, response.expiresIn,
                if response.createdAt.Some? then response.createdAt.value else now)
  }

  type CallerId = nat

  /** Where a call of `get_m2m_token` stands. `Gone` is a call that raised or was cancelled. */
  datatype Caller = Waiting | Requesting | FromCache(token: AccessToken, at: Time) | Fetched(token: AccessToken) | Gone

  datatype Progress = InFlight | Stored(token: AccessToken) | Lost

  /** One token request: when it started and what the cache held at that moment. */
  datatype Request = Request(at: Time, cache: Option<AccessToken>, progress: Progress)

  datatype State = State(
    now: Time,
    cache: Option<AccessToken>,
    lock: Option<CallerId>,
    callers: map<CallerId, Caller>,
    requests: seq<Request>)

  datatype Event =
    | Tick(to: Time)
    | Call(id: CallerId)
    | Acquire(id: CallerId)
    | Answer(id: CallerId, response: Response)
    | Raise(id: CallerId)
    | Cancel(id: CallerId)

  predicate Usable(cache: Option<AccessToken>, now: Time) {
    cache.Some? && !cache.value.IsExpired(now)
  }

  function SetCaller(s: State, id: CallerId, c: Caller): State {
    s.(callers := s.callers[id := c])
  }

  /** The request under way ends; the lock is released in every case. */
  function Finish(s: State, id: CallerId, progress: Progress, c: Caller): State {
    var requests := if s.requests == [] then []
                    else s.requests[|s.requests| - 1 := s.requests[|s.requests| - 1].(progress := progress)];
    SetCaller(s, id, c).(requests := requests, lock := None)
  }

  function Apply(s: State, e: Event): Option<State> {
    match e
    case Tick(to) =>
      if s.now <= to then Some(s.(now := to)) else None
    case Call(id) =>
      if id in s.callers then None
      else if Usable(s.cache, s.now) then Some(SetCaller(s, id, FromCache(s.cache.value, s.now)))
      else Some(SetCaller(s, id, Waiting))
    case Acquire(id) =>
      if id !in s.callers || s.callers[id] != Waiting || s.lock.Some? then None
      else if Usable(s.cache, s.now) then Some(SetCaller(s, id, FromCache(s.cache.value, s.now)))
      else Some(SetCaller(s, id, Requesting).(lock := Some(id), requests := s.requests + [Request(s.now, s.cache, InFlight)]))
    case Answer(id, response) =>
      if id !in s.callers || s.callers[id] != Requesting then None
      else
        var token := MakeToken(response, s.now);
        Some(Finish(s, id, Stored(token), Fetched(token)).(cache := Some(token)))
    case Raise(id) =>
      if id !in s.callers || s.callers[id] != Requesting then None
      else Some(Finish(s, id, Lost, Gone))
    case Cancel(id) =>
      if id !in s.callers then None
      else if s.callers[id] == Waiting then Some(SetCaller(s, id, Gone))
      else if s.callers[id] == Requesting then Some(Finish(s, id, Lost, Gone))
      else None
  }

  function Run(s: State, events: seq<Event>): Option<State>
    decreases events
  {
    if events == [] then Some(s)
    else match Apply(s, events[0])
      case None => None
      case Some(t) => Run(t, events[1..])
  }

  function Initial(start: Time): State {
    State(start, None, None, map[], [])
  }

  // ----- the invariant -----

  /** What the requests so far have left in the cache. */
  function CacheAfter(requests: seq<Request>): Option<AccessToken> {
    if requests == [] then None
    else
      var last := requests[|requests| - 1];
      if last.progress.Stored? then Some(last.progress.token) else CacheAfter(requests[..|requests| - 1])
  }

  /** The request was needed: the cache held nothing usable when it was checked under the lock. */
  ghost predicate Needed(requests: seq<Request>, k: nat)
    requires k < |requests|
  {
    requests[k].cache == CacheAfter(requests[..k]) && !Usable(requests[k].cache, requests[k].at)
  }

  ghost predicate Inv(s: State) {
    && (forall id :: id in s.callers ==> (s.callers[id] == Requesting <==> s.lock == Some(id)))
    && (s.lock.Some? ==> s.lock.value in s.callers)
    && (s.lock.Some? <==> s.requests != [] && s.requests[|s.requests| - 1].progress == InFlight)
    && (forall k :: 0 <= k < |s.requests| - 1 ==> s.requests[k].progress != InFlight)
    && (forall k :: 0 <= k < |s.requests| ==> Needed(s.requests, k) && s.requests[k].at <= s.now)
    && s.cache == CacheAfter(s.requests)
    && (forall id :: id in s.callers && s.callers[id].FromCache? ==>
                       !s.callers[id].token.IsExpired(s.callers[id].at) && s.requests != [])
    && (forall id :: id in s.callers && s.callers[id].Fetched? ==> s.requests != [])
  }

  lemma NeededStays(s: seq<Request>, t: seq<Request>, k: nat)
    requires k < |s| && k < |t| && s[..k] == t[..k] && Needed(s, k)
    requires s[k].cache == t[k].cache && s[k].at == t[k].at
    ensures Needed(t, k)
  {
  }

  lemma CallKeepsInv(s: State, id: CallerId, t: State)
    requires Inv(s) && Apply(s, Call(id)) == Some(t)
    ensures Inv(t)
  {
    if Usable(s.cache, s.now) {
      assert s.requests != [];
    }
  }

  lemma AcquireKeepsInv(s: State, id: CallerId, t: State)
    requires Inv(s) && Apply(s, Acquire(id)) == Some(t)
    ensures Inv(t)
  {
    if !Usable(s.cache, s.now) {
      AllNeededSnoc(s.requests, Request(s.now, s.cache, InFlight));
    }
  }

  /** One more needed request at the end leaves the others needed. */
  lemma AllNeededSnoc(requests: seq<Request>, last: Request)
    requires forall k :: 0 <= k < |requests| ==> Needed(requests, k)
    requires last.cache == CacheAfter(requests) && !Usable(last.cache, last.at) && !last.progress.Stored?
    ensures forall k :: 0 <= k < |requests + [last]| ==> Needed(requests + [last], k)
    ensures CacheAfter(requests + [last]) == CacheAfter(requests)
  {
    var longer := requests + [last];
    assert longer[..|requests|] == requests;
    forall k | 0 <= k < |longer|
      ensures Needed(longer, k)
    {
      assert k < |requests| ==> longer[..k] == requests[..k];
      assert k < |requests| ==> Needed(requests, k);
    }
  }

  lemma FinishKeepsInv(s: State, id: CallerId, progress: Progress, c: Caller, t: State)
    requires Inv(s) && id in s.callers && s.callers[id] == Requesting
    requires (progress == Lost && c == Gone && t == Finish(s, id, Lost, Gone))
          || (progress.Stored? && c == Fetched(progress.token)
              && t == Finish(s, id, progress, c).(cache := Some(progress.token)))
    ensures Inv(t)
  {
    var last := |s.requests| - 1;
    assert t.requests[..last] == s.requests[..last];
    forall k | 0 <= k < |t.requests|
      ensures Needed(t.requests, k)
    {
      assert t.requests[..k] == s.requests[..k];
      NeededStays(s.requests, t.requests, k);
    }
  }

  lemma StepKeepsInv(s: State, e: Event, t: State)
    requires Inv(s) && Apply(s, e) == Some(t)
    ensures Inv(t)
  {
    match e
    case Tick(_) =>
    case Call(id) => CallKeepsInv(s, id, t);
    case Acquire(id) => AcquireKeepsInv(s, id, t);
    case Answer(id, response) =>
      var token := MakeToken(response, s.now);
      FinishKeepsInv(s, id, Stored(token), Fetched(token), t);
    case Raise(id) => FinishKeepsInv(s, id, Lost, Gone, t);
    case Cancel(id) =>
      if s.callers[id] == Requesting {
        FinishKeepsInv(s, id, Lost, Gone, t);
      }
  }

  lemma {:induction false} RunKeepsInv(s: State, events: seq<Event>, t: State)
    requires Inv(s) && Run(s, events) == Some(t)
    ensures Inv(t)
    decreases events
  {
    if events != [] {
      var next := Apply(s, events[0]).value;
      StepKeepsInv(s, events[0], next);
      RunKeepsInv(next, events[1..], t);
    }
  }

  // ----- what it guarantees -----

  lemma {:induction false} RunSnoc(s: State, events: seq<Event>, t: State, e: Event)
    requires Run(s, events) == Some(t)
    ensures Run(s, events + [e]) == Apply(t, e)
    decreases events
  {
    if events == [] {
      assert [e][1..] == [];
    } else {
      RunSnoc(Apply(s, events[0]).value, events[1..], t, e);
      assert (events + [e])[1..] == events[1..] + [e];
    }
  }

  ghost predicate Reached(start: Time, events: seq<Event>, s: State) {
    Run(Initial(start), events) == Some(s)
  }

  /** At most one token request is in flight, and it is the lock holder's. */
  lemma OneRequestInFlight(start: Time, events: seq<Event>, s: State, i: CallerId, j: CallerId)
    requires Reached(start, events, s)
    requires i in s.callers && s.callers[i] == Requesting && j in s.callers && s.callers[j] == Requesting
    ensures i == j && s.lock == Some(i)
    ensures forall k :: 0 <= k < |s.requests| && s.requests[k].progress == InFlight ==> k == |s.requests| - 1
  {
    RunKeepsInv(Initial(start), events, s);
  }

  /**
   Every request was needed: at its start the token in the cache, which is the one the
   last successful request had stored, was absent or expired.
   */
  lemma RequestsAreNeeded(start: Time, events: seq<Event>, s: State, k: nat)
    requires Reached(start, events, s) && k < |s.requests|
    ensures Needed(s.requests, k)
  {
    RunKeepsInv(Initial(start), events, s);
  }

  /** A token served from the cache was unexpired at the moment of its check. */
  lemma CacheServesFresh(start: Time, events: seq<Event>, s: State, id: CallerId)
    requires Reached(start, events, s) && id in s.callers && s.callers[id].FromCache?
    ensures s.callers[id].at < s.callers[id].token.createdAt + Seconds(s.callers[id].token.expiresIn - 5)
  {
    RunKeepsInv(Initial(start), events, s);
  }

  /**
   A request that fails or is cancelled leaves the cache as it was and the lock free; a
   caller cancelled while waiting for the lock leaves both alone. Neither can go on.
   */
  lemma FailureLeavesCache(start: Time, events: seq<Event>, s: State, id: CallerId, e: Event)
    requires Reached(start, events, s) && id in s.callers
    requires (s.callers[id] == Requesting && e == Raise(id)) || (s.callers[id] in {Requesting, Waiting} && e == Cancel(id))
    ensures Apply(s, e).Some?
    ensures var t := Apply(s, e).value;
            && t.cache == s.cache == CacheAfter(t.requests)
            && id in t.callers && t.callers[id] == Gone
            && (s.callers[id] == Requesting ==> s.lock == Some(id) && t.lock == None)
            && (s.callers[id] == Waiting ==> t.lock == s.lock && t.requests == s.requests)
            && forall other :: other in s.callers && other != id ==> other in t.callers && t.callers[other] == s.callers[other]
  {
    RunKeepsInv(Initial(start), events, s);
    StepKeepsInv(s, e, Apply(s, e).value);
  }

  /**
   Once the cached token is past its margin, the next caller makes a new request, as soon as
   the lock is free.
   */
  lemma ExpiryRefetches(start: Time, events: seq<Event>, s: State, to: Time, id: CallerId)
    requires Reached(start, events, s) && s.lock == None && id !in s.callers && s.now <= to
    requires s.cache.Some? ==> s.cache.value.createdAt + Seconds(s.cache.value.expiresIn - 5) <= to
    ensures exists t ::
      && Run(s, [Tick(to), Call(id), Acquire(id)]) == Some(t)
      && id in t.callers && t.callers[id] == Requesting && t.lock == Some(id)
      && t.requests == s.requests + [Request(to, s.cache, InFlight)]
  {
    var s1 := Apply(s, Tick(to)).value;
    var s2 := Apply(s1, Call(id)).value;
    var t := Apply(s2, Acquire(id)).value;
    RunSnoc(s, [], s, Tick(to));
    RunSnoc(s, [Tick(to)], s1, Call(id));
    RunSnoc(s, [Tick(to), Call(id)], s2, Acquire(id));
    assert [] + [Tick(to)] == [Tick(to)];
    assert [Tick(to)] + [Call(id)] == [Tick(to), Call(id)];
    assert [Tick(to), Call(id)] + [Acquire(id)] == [Tick(to), Call(id), Acquire(id)];
  }

  /**
   However many callers there are: if no request was lost and no stored token has expired
   yet, at most one request has been made, and exactly one once any caller has a token.
   */
  lemma OneRequestServesAll(start: Time, events: seq<Event>, s: State)
    requires Reached(start, events, s)
    requires forall k :: 0 <= k < |s.requests| ==>
                           s.requests[k].progress != Lost
                           && (s.requests[k].progress.Stored? ==> !s.requests[k].progress.token.IsExpired(s.now))
    ensures |s.requests| <= 1
    ensures (exists id :: id in s.callers && (s.callers[id].FromCache? || s.callers[id].Fetched?)) ==> |s.requests| == 1
  {
    RunKeepsInv(Initial(start), events, s);
    if |s.requests| > 1 {
      assert false;
    }
  }

  /**
   The caller that fetched a token gets it unchecked. It is usable at that instant exactly
   when its lifetime, counted from now or from the creation time the response carries,
   exceeds the margin.
   */
  lemma FetchedTokenUsable(s: State, id: CallerId, response: Response, t: State)
    requires Apply(s, Answer(id, response)) == Some(t)
    ensures t.callers[id].Fetched? && t.cache == Some(t.callers[id].token)
    ensures Usable(t.cache, t.now)
            <==> if response.createdAt.None? then response.expiresIn > 5
                 else t.now < response.createdAt.value + Seconds(response.expiresIn - 5)
  {
  }

  // ----- where tokens come from -----

  /** The token has the value and the lifetime of this response. */
  predicate Carries(token: AccessToken, response: Response) {
    token.value == response.value && token.expiresIn == response.expiresIn
  }

  /** Some request in this history was answered with the token. */
  ghost predicate Issued(token: AccessToken, history: seq<Event>) {
    exists k :: 0 <= k < |history| && history[k].Answer? && Carries(token, history[k].response)
  }

  /** The caller's own request was answered with the token. */
  ghost predicate IssuedTo(id: CallerId, token: AccessToken, history: seq<Event>) {
    exists k :: 0 <= k < |history| && history[k].Answer? && history[k].id == id && Carries(token, history[k].response)
  }

  /** The latest answer of a history. */
  function LatestAnswer(history: seq<Event>): Option<Response> {
    if history == [] then None
    else if history[|history| - 1].Answer? then Some(history[|history| - 1].response)
    else LatestAnswer(history[..|history| - 1])
  }

  lemma LatestAnswerSnoc(history: seq<Event>, e: Event)
    ensures LatestAnswer(history + [e]) == if e.Answer? then Some(e.response) else LatestAnswer(history)
  {
    assert (history + [e])[..|history|] == history;
  }

  /** Every token there is has been issued in this history, and the cache holds the latest one. */
  ghost predicate Backed(s: State, history: seq<Event>) {
    && (s.cache.Some? <==> LatestAnswer(history).Some?)
    && (s.cache.Some? ==> Carries(s.cache.value, LatestAnswer(history).value) && Issued(s.cache.value, history))
    && (forall id :: id in s.callers && s.callers[id].FromCache? ==> Issued(s.callers[id].token, history))
    && (forall id :: id in s.callers && s.callers[id].Fetched? ==> IssuedTo(id, s.callers[id].token, history))
  }

  lemma IssuedStays(token: AccessToken, id: CallerId, history: seq<Event>, e: Event)
    ensures Issued(token, history) ==> Issued(token, history + [e])
    ensures IssuedTo(id, token, history) ==> IssuedTo(id, token, history + [e])
  {
    if Issued(token, history) {
      var k :| 0 <= k < |history| && history[k].Answer? && Carries(token, history[k].response);
      assert (history + [e])[k] == history[k];
    }
    if IssuedTo(id, token, history) {
      var k :| 0 <= k < |history| && history[k].Answer? && history[k].id == id && Carries(token, history[k].response);
      assert (history + [e])[k] == history[k];
    }
  }

  lemma StepBacked(s: State, history: seq<Event>, e: Event, t: State)
    requires Backed(s, history) && Apply(s, e) == Some(t)
    ensures Backed(t, history + [e])
  {
    LatestAnswerSnoc(history, e);
    assert (history + [e])[|history|] == e;
    if s.cache.Some? {
      IssuedStays(s.cache.value, 0, history, e);
    }
    forall id | id in s.callers && (s.callers[id].FromCache? || s.callers[id].Fetched?)
      ensures Issued(s.callers[id].token, history) ==> Issued(s.callers[id].token, history + [e])
      ensures IssuedTo(id, s.callers[id].token, history) ==> IssuedTo(id, s.callers[id].token, history + [e])
    {
      IssuedStays(s.callers[id].token, id, history, e);
    }
  }

  lemma {:induction false} RunBacked(s: State, history: seq<Event>, events: seq<Event>, t: State)
    requires Backed(s, history) && Run(s, events) == Some(t)
    ensures Backed(t, history + events)
    decreases events
  {
    if events == [] {
      assert history + events == history;
    } else {
      StepBacked(s, history, events[0], Apply(s, events[0]).value);
      RunBacked(Apply(s, events[0]).value, history + [events[0]], events[1..], t);
      assert history + [events[0]] + events[1..] == history + events;
    }
  }

  /**
   Every token a caller has was issued in the run with this value and lifetime, one it
   fetched itself by the answer to its own request, and the cache holds the token of the
   latest answer.
   */
  lemma TokensAreIssued(start: Time, events: seq<Event>, s: State)
    requires Reached(start, events, s)
    ensures forall id :: id in s.callers && s.callers[id].Fetched? ==> IssuedTo(id, s.callers[id].token, events)
    ensures forall id :: id in s.callers && s.callers[id].FromCache? ==> Issued(s.callers[id].token, events)
    ensures s.cache.Some? <==> LatestAnswer(events).Some?
    ensures s.cache.Some? ==>
              && s.cache.value.value == LatestAnswer(events).value.value
              && s.cache.value.expiresIn == LatestAnswer(events).value.expiresIn
  {
    RunBacked(Initial(start), [], events, s);
    assert [] + events == events;
  }

  // ----- the client -----

  predicate Concerns(e: Event, id: CallerId) {
    match e
    case Tick(_) => false
    case Call(i) => i == id
    case Acquire(i) => i == id
    case Answer(i, _) => i == id
    case Raise(i) => i == id
    case Cancel(i) => i == id
  }

  /** The events of one caller among those of all. */
  function EventsOf(events: seq<Event>, id: CallerId): seq<Event> {
    if events == [] then []
    else EventsOf(events[..|events| - 1], id) + if Concerns(events[|events| - 1], id) then [events[|events| - 1]] else []
  }

  /** Others cannot move a caller, nor touch the cache while its request is under way. */
  ghost predicate Undisturbed(s: State, t: State, id: CallerId) {
    && (id in s.callers <==> id in t.callers)
    && (id in s.callers ==> t.callers[id] == s.callers[id])
    && (id in s.callers && s.callers[id] == Requesting ==> t.cache == s.cache)
  }

  lemma OthersDoNotDisturb(s: State, e: Event, t: State, id: CallerId)
    requires Inv(s) && Apply(s, e) == Some(t) && !Concerns(e, id)
    ensures Undisturbed(s, t, id)
  {
  }

  /**
   The client object with its two fields, the cached token and the lock. `state` says where
   every coroutine sharing it stands and what time it is; `past` lists everything that has
   happened since `origin`.
   */
  class AuthServiceClient {
    var authM2MToken: Option<AccessToken>
    var tokenLock: Option<CallerId>
    var state: State
    ghost const origin: State
    ghost var past: seq<Event>

    ghost predicate Committed()
      reads this
    {
      Inv(state) && Run(origin, past) == Some(state)
    }

    /** The fields hold what the protocol says they hold. */
    ghost predicate Valid()
      reads this
    {
      Committed() && authM2MToken == state.cache && tokenLock == state.lock
    }

    constructor (start: Time)
      ensures Valid() && authM2MToken == None && tokenLock == None && past == []
    {
      authM2MToken, tokenLock := None, None;
      state := Initial(start);
      origin := Initial(start);
      past := [];
    }

    /** A coroutine has come to its next suspension point: what it did since the last is one step. */
    method Commit(e: Event, ghost id: CallerId)
      requires Committed() && Apply(state, e).Some?
      requires authM2MToken == Apply(state, e).value.cache && tokenLock == Apply(state, e).value.lock
      modifies `state, `past
      ensures Valid() && Some(state) == Apply(old(state), e)
      ensures EventsOf(past, id) == EventsOf(old(past), id) + if Concerns(e, id) then [e] else []
    {
      RunSnoc(origin, past, state, e);
      StepKeepsInv(state, e, Apply(state, e).value);
      assert (past + [e])[..|past|] == past;
      state := Apply(state, e).value;
      past := past + [e];
    }

    /** Someone else takes a step. */
    method Yield(e: Event, ghost id: CallerId)
      requires Valid() && !Concerns(e, id) && Apply(state, e).Some?
      modifies this
      ensures Valid() && Some(state) == Apply(old(state), e)
      ensures EventsOf(past, id) == EventsOf(old(past), id) && Undisturbed(old(state), state, id)
    {
      var next := Apply(state, e).value;
      OthersDoNotDisturb(state, e, next, id);
      authM2MToken, tokenLock := next.cache, next.lock;
      Commit(e, id);
    }

    /** Everyone but `id` runs for a while. */
    method Suspend(id: CallerId)
      requires Valid()
      modifies this
      ensures Valid() && EventsOf(past, id) == EventsOf(old(past), id)
      ensures Undisturbed(old(state), state, id)
    {
      var turns: int := *;
      while 0 < turns
        invariant Valid() && EventsOf(past, id) == EventsOf(old(past), id)
        invariant Undisturbed(old(state), state, id)
      {
        var e: Event := *;
        if !Concerns(e, id) && Apply(state, e).Some? {
          Yield(e, id);
        }
        turns := turns - 1;
      }
    }

    /** Wait until the lock is free: whoever holds it ends its request in some way. */
    method AwaitLock(id: CallerId)
      requires Valid() && id in state.callers && state.callers[id] == Waiting
      modifies this
      ensures Valid() && EventsOf(past, id) == EventsOf(old(past), id)
      ensures id in state.callers && state.callers[id] == Waiting && tokenLock.None?
    {
      Suspend(id);
      if tokenLock.Some? {
        var answered: bool := *;
        var response: Response := *;
        Yield(if answered then Answer(tokenLock.value, response) else Raise(tokenLock.value), id);
      }
    }

    /** A request was made, with `found` in the cache, and this is what became of the cache. */
    ghost predicate Requested(found: Option<AccessToken>, id: CallerId, reply: Result<Response, string>,
                              steps: seq<Event>, r: Result<AccessToken, string>)
      reads this
    {
      match reply
      case Success(response) =>
        && steps == [Call(id), Acquire(id), Answer(id, response)]
        && id in state.callers && r.Success? && state.callers[id] == Fetched(r.value)
        && r == Success(AccessToken(response.value, response.expiresIn,
                                    if response.createdAt.None? then state.now else response.createdAt.value))
        && authM2MToken == Some(r.value)
      case Failure(_) =>
        && steps == [Call(id), Acquire(id), Raise(id)]
        && id in state.callers && state.callers[id] == Gone
        && r == Failure("M2M access token request failed") && authM2MToken == found
    }

    /**
     The token request made while holding the lock; `reply` is how it ends. Either way the
     lock is free again; a failure leaves the cache as the request found it.
     */
    method RequestToken(id: CallerId, reply: Result<Response, string>) returns (r: Result<AccessToken, string>)
      requires Valid() && id in state.callers && state.callers[id] == Requesting
      requires EventsOf(past, id) == [Call(id), Acquire(id)]
      modifies this
      ensures Valid() && tokenLock.None?
      ensures Requested(old(authM2MToken), id, reply, EventsOf(past, id), r)
    {
      Suspend(id);
      assert authM2MToken == old(authM2MToken) && EventsOf(past, id) == [Call(id), Acquire(id)];
      match reply
      case Success(response) =>
        assert [Call(id), Acquire(id)] + [Answer(id, response)] == [Call(id), Acquire(id), Answer(id, response)];
        var token := MakeToken(response, state.now);
        authM2MToken, tokenLock := Some(token), None;
        Commit(Answer(id, response), id);
        r := Success(token);
      case Failure(_) =>
        assert [Call(id), Acquire(id)] + [Raise(id)] == [Call(id), Acquire(id), Raise(id)];
        tokenLock := None;
        Commit(Raise(id), id);
        r := Failure("M2M access token request failed");
    }

    /**
     The part of a call behind the lock, which is free when the call gets it: check the cache
     again, and only if it is of no use request a token.
     */
    method CheckUnderLock(id: CallerId, reply: Result<Response, string>) returns (r: Result<AccessToken, string>)
      requires Valid() && id in state.callers && state.callers[id] == Waiting && tokenLock.None?
      requires EventsOf(past, id) == [Call(id)]
      modifies this
      ensures Valid() && tokenLock.None?
      ensures Usable(old(authM2MToken), old(state.now)) ==>
                && r == Success(old(authM2MToken).value) && authM2MToken == old(authM2MToken)
                && EventsOf(past, id) == [Call(id), Acquire(id)]
                && id in state.callers && state.callers[id] == FromCache(r.value, old(state.now))
      ensures !Usable(old(authM2MToken), old(state.now)) ==>
                Requested(old(authM2MToken), id, reply, EventsOf(past, id), r)
    {
      if Usable(authM2MToken, state.now) {
        r := Success(authM2MToken.value);
        Commit(Acquire(id), id);
        return;
      }
      tokenLock := Some(id);
      Commit(Acquire(id), id);
      assert EventsOf(past, id) == [Call(id), Acquire(id)];
      r := RequestToken(id, reply);
    }

    /**
     One call of `get_m2m_token` by a new coroutine, in the middle of any others. With a
     usable token in the cache it returns that token at once and touches nothing. Otherwise
     it ends with the lock free: either the cache, as `found` under the lock, has become
     usable by then and is returned as it is, or it is not and exactly one request is made,
     whose answer is returned and stored and whose failure leaves the cache as it was found.
     */
    method GetM2MToken(id: CallerId, reply: Result<Response, string>)
      returns (r: Result<AccessToken, string>, ghost found: Option<AccessToken>, ghost checked: Time)
      requires Valid() && id !in state.callers && EventsOf(past, id) == []
      modifies this
      ensures Valid()
      ensures Usable(old(authM2MToken), old(state.now)) ==>
                && r == Success(old(authM2MToken).value) && EventsOf(past, id) == [Call(id)]
                && id in state.callers && state.callers[id] == FromCache(r.value, old(state.now))
                && authM2MToken == old(authM2MToken) && tokenLock == old(tokenLock)
      ensures !Usable(old(authM2MToken), old(state.now)) ==> tokenLock.None?
      ensures !Usable(old(authM2MToken), old(state.now)) && Usable(found, checked) ==>
                && r == Success(found.value) && authM2MToken == found && EventsOf(past, id) == [Call(id), Acquire(id)]
                && id in state.callers && state.callers[id] == FromCache(r.value, checked)
      ensures !Usable(old(authM2MToken), old(state.now)) && !Usable(found, checked) ==>
                Requested(found, id, reply, EventsOf(past, id), r)
    {
      if Usable(authM2MToken, state.now) {
        r, found, checked := Success(authM2MToken.value), authM2MToken, state.now;
        Commit(Call(id), id);
        assert EventsOf(past, id) == [Call(id)];
        return;
      }
      Commit(Call(id), id);
      assert EventsOf(past, id) == [Call(id)];
      AwaitLock(id);
      found, checked := authM2MToken, state.now;
      r := CheckUnderLock(id, reply);
    }
  }
}
