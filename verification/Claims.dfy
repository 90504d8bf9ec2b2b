/**
 Claim sets and their execution (src/agent/handlers/runner.py). Claims run in the stable
 order by position; the events of a run are a function of the set and of which claims
 succeeded.
 */
module Claims {
  import opened Wrappers

  type SetId = string

  datatype Claim = Claim(id: string, runId: int, scenarioId: int, position: int)
  datatype Mode = StopOnFailure | ContinueOnFailure
  datatype Status = Pending | Acknowledged | Unset
  datatype ClaimSet = ClaimSet(id: SetId, mode: Mode, status: Status, claims: seq<Claim>)

  // ----- the stable order -----

  /** Claim `i` comes before claim `j`: by position, and in input order among equals. */
  predicate Before(claims: seq<Claim>, i: nat, j: nat)
    requires i < |claims| && j < |claims|
  {
    claims[i].position < claims[j].position || (claims[i].position == claims[j].position && i < j)
  }

  /** `order` lists every index below `n` once. */
  ghost predicate IsPermutation(order: seq<nat>, n: nat) {
    && |order| == n
    && (forall k :: 0 <= k < |order| ==> order[k] < n)
    && (forall j, k :: 0 <= j < k < |order| ==> order[j] != order[k])
  }

  ghost predicate IsStableOrder(claims: seq<Claim>, order: seq<nat>) {
    && IsPermutation(order, |claims|)
    && (forall j, k :: 0 <= j < k < |order| ==> Before(claims, order[j], order[k]))
  }

  /** Put index `i` behind everything that does not come after it. */
  function Insert(claims: seq<Claim>, order: seq<nat>, i: nat): seq<nat>
    requires i < |claims| && forall k :: 0 <= k < |order| ==> order[k] < |claims|
  {
    if order == [] || claims[order[|order| - 1]].position <= claims[i].position then order + [i]
    else Insert(claims, order[..|order| - 1], i) + [order[|order| - 1]]
  }

  lemma {:induction false} InsertKeepsOrder(claims: seq<Claim>, order: seq<nat>, i: nat)
    requires i < |claims|
    requires forall k :: 0 <= k < |order| ==> order[k] < i
    requires forall j, k :: 0 <= j < k < |order| ==> Before(claims, order[j], order[k])
    ensures |Insert(claims, order, i)| == |order| + 1
    ensures forall x :: x in Insert(claims, order, i) <==> x == i || x in order
    ensures forall k :: 0 <= k <= |order| ==> Insert(claims, order, i)[k] <= i
    ensures forall j, k :: 0 <= j < k <= |order| ==>
                             Before(claims, Insert(claims, order, i)[j], Insert(claims, order, i)[k])
    decreases |order|
  {
    if order != [] && claims[order[|order| - 1]].position > claims[i].position {
      var last := order[|order| - 1];
      var rest := Insert(claims, order[..|order| - 1], i);
      InsertKeepsOrder(claims, order[..|order| - 1], i);
      assert order == order[..|order| - 1] + [last];
      forall j | 0 <= j < |rest|
        ensures rest[j] <= i && Before(claims, rest[j], last)
      {
        assert rest[j] in rest;
      }
    }
  }

  /** The order in which `sorted(claims, key=position)` lists the claims, as indices. */
  function StableOrder(claims: seq<Claim>): (order: seq<nat>)
    ensures |order| == |claims|
  {
    OrderUpTo(claims, |claims|)
  }

  /** The order is the stable one: sorted by position, equal positions in input order. */
  lemma StableOrderIsStable(claims: seq<Claim>)
    ensures IsStableOrder(claims, StableOrder(claims))
    ensures var order := StableOrder(claims);
            forall j, k :: 0 <= j < k < |order| ==>
              && claims[order[j]].position <= claims[order[k]].position
              && (claims[order[j]].position == claims[order[k]].position ==> order[j] < order[k])
  {
    assert IsStableOrder(claims, OrderUpTo(claims, |claims|));
  }

  lemma StableOrderDistinct(claims: seq<Claim>, k: nat)
    requires k < |claims|
    ensures StableOrder(claims)[k] < |claims|
    ensures forall j :: 0 <= j < |claims| && j != k ==> StableOrder(claims)[j] != StableOrder(claims)[k]
  {
    StableOrderIsStable(claims);
  }

  function OrderUpTo(claims: seq<Claim>, n: nat): (order: seq<nat>)
    requires n <= |claims|
    ensures IsPermutation(order, n)
    ensures forall j, k :: 0 <= j < k < |order| ==> Before(claims, order[j], order[k])
  {
    if n == 0 then []
    else
      var shorter := OrderUpTo(claims, n - 1);
      InsertKeepsOrder(claims, shorter, n - 1);
      Insert(claims, shorter, n - 1)
  }

  /** The stable order is unique, so any stable sort by position produces it. */
  lemma StableOrderUnique(claims: seq<Claim>, order: seq<nat>)
    requires IsStableOrder(claims, order)
    ensures order == StableOrder(claims)
  {
    StableOrderIsStable(claims);
    UniqueUpTo(claims, order, StableOrder(claims), |order|);
  }

  lemma {:induction false} UniqueUpTo(claims: seq<Claim>, a: seq<nat>, b: seq<nat>, n: nat)
    requires IsStableOrder(claims, a) && IsStableOrder(claims, b) && n <= |claims|
    ensures forall k :: 0 <= k < n ==> a[k] == b[k]
  {
    if n > 0 {
      UniqueUpTo(claims, a, b, n - 1);
      if a[n - 1] != b[n - 1] {
        Onto(a, |claims|, b[n - 1]);
        Onto(b, |claims|, a[n - 1]);
        assert false;
      }
    }
  }

  /** A permutation lists every index. */
  lemma {:induction false} Onto(order: seq<nat>, n: nat, x: nat)
    requires IsPermutation(order, n) && x < n
    ensures x in order
  {
    if x !in order {
      Pigeonhole(order, Below(n) - {x});
    }
  }

  function Below(n: nat): (s: set<nat>)
    ensures |s| == n && forall k: nat :: k in s <==> k < n
  {
    if n == 0 then {} else Below(n - 1) + {n - 1}
  }

  lemma {:induction false} Pigeonhole(order: seq<nat>, holes: set<nat>)
    requires forall k :: 0 <= k < |order| ==> order[k] in holes
    requires forall j, k :: 0 <= j < k < |order| ==> order[j] != order[k]
    ensures |order| <= |holes|
    decreases |order|
  {
    if order != [] {
      var last := |order| - 1;
      Pigeonhole(order[..last], holes - {order[last]});
    }
  }
}
