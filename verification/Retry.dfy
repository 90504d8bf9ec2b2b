/**
 The retry loop of the API clients (src/agent/clients/base.py, src/agent/helper.py) and
 its composition with the token client (src/agent/clients/control_plane.py).
 */
module Retry {
  import opened Wrappers

  const MAX_RETRIES: nat := 3
  const NON_RETRIABLE_STATUS_CODES: set<int> := {400, 401, 403, 404, 409, 422}

  /**
   How an attempt can raise: an HTTP error status, a transport error without a status, or
   anything else, which the loop does not catch.
   */
  datatype RequestError = Http(status: int) | Transport | Uncaught

  type Outcome<+T> = Result<T, RequestError>

  predicate IsRetryableError(error: RequestError) {
    !(error.Http? && error.status in NON_RETRIABLE_STATUS_CODES)
  }

  function Max(a: int, b: int): int {
    if a < b then b else a
  }

  function RetryLimit(maxRetries: Option<int>): (limit: nat)
    ensures 1 <= limit
  {
    match maxRetries
    case None => MAX_RETRIES
    case Some(n) => Max(1, n)
  }

  /** An error after which no further attempt is made. */
  predicate GivesUp(attempt: nat, limit: nat, error: RequestError) {
    error.Uncaught? || limit <= attempt || !IsRetryableError(error)
  }

  predicate Final<T>(attempt: nat, limit: nat, outcome: Outcome<T>) {
    outcome.Success? || GivesUp(attempt, limit, outcome.error)
  }

  /** `n` is the first attempt, counted from 1, whose outcome is final. */
  ghost predicate FirstFinal<T>(script: nat -> Outcome<T>, limit: nat, n: nat) {
    1 <= n && Final(n, limit, script(n)) && forall k :: 1 <= k < n ==> !Final(k, limit, script(k))
  }

  /** No two attempts are the first final one, and the limit bounds it. */
  lemma FirstFinalUnique<T>(script: nat -> Outcome<T>, limit: nat, m: nat, n: nat)
    requires 1 <= limit && FirstFinal(script, limit, m) && FirstFinal(script, limit, n)
    ensures m == n <= limit
  {
    assert Final(limit, limit, script(limit));
  }

  /** Looking from attempt `from` on, one is found, at the limit at the latest. */
  lemma {:induction false} FirstFinalFrom<T>(script: nat -> Outcome<T>, limit: nat, from: nat) returns (n: nat)
    requires 1 <= from <= limit && forall k :: 1 <= k < from ==> !Final(k, limit, script(k))
    ensures n <= limit && FirstFinal(script, limit, n)
    decreases limit - from
  {
    if from == limit || Final(from, limit, script(from)) {
      n := from;
    } else {
      n := FirstFinalFrom(script, limit, from + 1);
    }
  }

  /** However the attempts go, exactly one of them is the first final one, and it is within the limit. */
  lemma OneFirstFinal<T>(script: nat -> Outcome<T>, limit: nat)
    requires 1 <= limit
    ensures exists n | 1 <= n <= limit :: FirstFinal(script, limit, n)
    ensures forall m: nat, n: nat :: FirstFinal(script, limit, m) && FirstFinal(script, limit, n) ==> m == n <= limit
  {
    var n := FirstFinalFrom(script, limit, 1);
    forall k: nat, m: nat | FirstFinal(script, limit, k) && FirstFinal(script, limit, m)
      ensures k == m <= limit
    {
      FirstFinalUnique(script, limit, k, m);
    }
  }

  /**
   Attempt `n` succeeds, and each one before it failed in a way that is tried again: no
   response, or a status that is none of these.
   */
  ghost predicate SucceedsAt<T>(script: nat -> Outcome<T>, n: nat) {
    && 1 <= n <= 3 && script(n).Success?
    && forall k :: 1 <= k < n ==>
         && script(k).Failure? && !script(k).error.Uncaught?
         && (script(k).error.Http? ==> script(k).error.status !in {400, 401, 403, 404, 409, 422})
  }

  /** Without an explicit limit this is when the first final attempt is a success. */
  lemma SuccessIsFirstFinal<T>(script: nat -> Outcome<T>, n: nat)
    ensures SucceedsAt(script, n) <==> FirstFinal(script, RetryLimit(None), n) && script(n).Success?
  {
    if FirstFinal(script, RetryLimit(None), n) && script(n).Success? {
      FirstFinalUnique(script, RetryLimit(None), n, n);
      forall k | 1 <= k < n
        ensures script(k).Failure? && !script(k).error.Uncaught?
        ensures script(k).error.Http? ==> script(k).error.status !in {400, 401, 403, 404, 409, 422}
      {
        assert !Final(k, RetryLimit(None), script(k));
      }
    }
    if SucceedsAt(script, n) {
      forall k | 1 <= k < n
        ensures !Final(k, RetryLimit(None), script(k))
      {
        assert script(k).Failure?;
      }
    }
  }

  class BaseAPIClient<T> {
    var attempts: nat
    var delays: nat

    constructor ()
      ensures attempts == 0 && delays == 0
    {
      attempts, delays := 0, 0;
    }

    /**
     `script(k)` is how the k-th attempt ends. None stands for falling off the end of the
     loop, which never happens.
     */
    method Request(script: nat -> Outcome<T>, maxRetries: Option<int>) returns (r: Option<Outcome<T>>, ghost n: nat)
      modifies this
      ensures FirstFinal(script, RetryLimit(maxRetries), n)
      ensures 1 <= n <= if maxRetries.None? then 3 else if maxRetries.value < 1 then 1 else maxRetries.value
      ensures r == Some(script(n))
      // What is tried again is a transport error or a status that is none of these six,
      ensures forall k :: 1 <= k < n ==>
                && script(k).Failure? && !script(k).error.Uncaught?
                && (script(k).error.Http? ==> script(k).error.status !in {400, 401, 403, 404, 409, 422})
      // and whatever can be tried again is, up to the limit.
      ensures || script(n).Success? || script(n).error.Uncaught?
              || (script(n).error.Http? && script(n).error.status in {400, 401, 403, 404, 409, 422})
              || n == if maxRetries.None? then 3 else if maxRetries.value < 1 then 1 else maxRetries.value
      ensures attempts == old(attempts) + n && delays == old(delays) + n - 1
    {
      var limit := RetryLimit(maxRetries);
      var attempt := 1;
      n := limit;
      while attempt <= limit
        invariant 1 <= attempt <= limit
        invariant forall k :: 1 <= k < attempt ==> !Final(k, limit, script(k))
        invariant attempts == old(attempts) + attempt - 1 && delays == old(delays) + attempt - 1
        decreases limit - attempt
      {
        attempts := attempts + 1;
        match script(attempt) {
          case Success(value) =>
            return Some(Success(value)), attempt;
          case Failure(error) =>
            if GivesUp(attempt, limit, error) {
              return Some(Failure(error)), attempt;
            }
        }
        delays := delays + 1;
        attempt := attempt + 1;
      }
      r := None;
    }
  }

  /** An attempt of a control-plane call: no token, no request; a token failure is not caught. */
  function WithToken<T>(token: nat -> bool, http: nat -> Outcome<T>): nat -> Outcome<T> {
    (k: nat) => if token(k) then http(k) else Failure(Uncaught)
  }

  class ControlPlaneClient<T> {
    const base: BaseAPIClient<T>

    constructor (base: BaseAPIClient<T>)
      ensures this.base == base
    {
      this.base := base;
    }

    /**
     One control-plane call: `token(k)` says whether attempt k gets a token. At most three
     attempts are made, and a token can only be missing in the last one, which then ends
     the call.
     */
    method Call(token: nat -> bool, http: nat -> Outcome<T>) returns (r: Outcome<T>, ghost n: nat)
      modifies base
      ensures 1 <= n <= 3 && base.attempts == old(base.attempts) + n
      ensures forall k :: 1 <= k < n ==>
                && token(k) && http(k).Failure? && !http(k).error.Uncaught?
                && (http(k).error.Http? ==> http(k).error.status !in {400, 401, 403, 404, 409, 422})
      ensures r == if token(n) then http(n) else Failure(Uncaught)
      ensures n < 3 ==>
                || !token(n) || http(n).Success? || http(n).error.Uncaught?
                || (http(n).error.Http? && http(n).error.status in {400, 401, 403, 404, 409, 422})
    {
      var outcome;
      outcome, n := base.Request(WithToken(token, http), None);
      r := outcome.value;
      forall k | 1 <= k < n
        ensures token(k) && http(k).Failure? && !http(k).error.Uncaught? && IsRetryableError(http(k).error)
        ensures http(k).error.Http? ==> http(k).error.status !in {400, 401, 403, 404, 409, 422}
      {
        assert !Final(k, 3, WithToken(token, http)(k));
      }
    }
  }

  /** With `max_retries=0`, as the token request is made, there is exactly one attempt. */
  lemma ZeroRetriesIsOneAttempt<T>(script: nat -> Outcome<T>, n: nat)
    ensures FirstFinal(script, RetryLimit(Some(0)), n) <==> n == 1
  {
    assert Final(1, 1, script(1));
  }
}
