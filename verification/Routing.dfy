/** Choosing the one downstream subtask of a record (runtime/routing.py). */
module Routing {
  import opened Wrappers
  import opened Records
  import opened Sequences

  datatype Partitioning = Forward | Rebalance | Hash

  datatype RoutingError = NullKey | NoSuchSubtask

  /** SHA-256 of the canonical JSON text of a key, read as a number. */
  datatype Hashing = Hashing(canonical: Json -> string, digest: string -> nat)

  function StableHashPartition(h: Hashing, key: Json, parallelism: nat): Result<nat, RoutingError>
    requires parallelism > 0
  {
    if key == Null then Err(NullKey) else Ok(h.digest(h.canonical(key)) % parallelism)
  }

  /** The router's choice and its next cursor. */
  function RouteOne(
    h: Hashing, partitioning: Partitioning, parallelism: nat, upstreamSubtask: nat, cursor: nat, key: Json
  ): (Result<nat, RoutingError>, nat)
    requires parallelism > 0
  {
    match partitioning
    case Forward => (Ok(upstreamSubtask), cursor)
    case Rebalance => (Ok(cursor), (cursor + 1) % parallelism)
    case Hash => (StableHashPartition(h, key, parallelism), cursor)
  }

  class ShuffleRouter {
    const hashing: Hashing
    const partitioning: Partitioning
    const parallelism: nat
    const upstreamSubtask: nat
    var rebalanceCursor: nat

    ghost predicate Valid()
      reads this
    {
      && parallelism > 0 && rebalanceCursor < parallelism
      && (partitioning == Forward ==> upstreamSubtask < parallelism)
    }

    constructor (hashing: Hashing, partitioning: Partitioning, parallelism: nat, upstreamSubtask: nat)
      requires parallelism > 0 && (partitioning == Forward ==> upstreamSubtask < parallelism)
      ensures Valid() && rebalanceCursor == upstreamSubtask % parallelism
      ensures this.hashing == hashing && this.partitioning == partitioning
      ensures this.parallelism == parallelism && this.upstreamSubtask == upstreamSubtask
    {
      this.hashing, this.partitioning := hashing, partitioning;
      this.parallelism, this.upstreamSubtask := parallelism, upstreamSubtask;
      rebalanceCursor := upstreamSubtask % parallelism;
    }

    method Route(key: Json) returns (r: Result<nat, RoutingError>)
      requires Valid()
      modifies this
      ensures Valid()
      ensures (r, rebalanceCursor) ==
              RouteOne(hashing, partitioning, parallelism, upstreamSubtask, old(rebalanceCursor), key)
    {
      match partitioning {
        case Forward => return Ok(upstreamSubtask);
        case Rebalance =>
          var selected := rebalanceCursor;
          rebalanceCursor := (selected + 1) % parallelism;
          return Ok(selected);
        case Hash =>
          r := StableHashPartition(hashing, key, parallelism);
      }
    }
  }

  /** The router's choices for a series of keys, from its initial cursor. */
  function RouteAll(h: Hashing, partitioning: Partitioning, parallelism: nat, upstreamSubtask: nat, keys: seq<Json>)
    : (seq<Result<nat, RoutingError>>, nat)
    requires parallelism > 0
  {
    if keys == [] then ([], upstreamSubtask % parallelism)
    else
      var (chosen, cursor) := RouteAll(h, partitioning, parallelism, upstreamSubtask, keys[..|keys| - 1]);
      var (next, cursor') :=
        RouteOne(h, partitioning, parallelism, upstreamSubtask, cursor, keys[|keys| - 1]);
      (chosen + [next], cursor')
  }

  lemma NoMultipleBetween(k: int, p: int)
    requires -p < k * p < p
    ensures k == 0
  {
    if k > 0 {
      AtLeastOnce(k, p);
    } else if k < 0 {
      AtLeastOnce(-k, p);
    }
  }

  lemma {:induction false} AtLeastOnce(k: int, p: int)
    requires k > 0 && p > 0
    ensures k * p >= p
    decreases k
  {
    if k > 1 {
      AtLeastOnce(k - 1, p);
    }
  }

  /** Quotient and remainder are what they are known by. */
  lemma DivideBy(x: nat, q: nat, r: nat, p: nat)
    requires r < p && x == q * p + r
    ensures x / p == q && x % p == r
  {
    var d, m := x / p, x % p;
    assert x == p * d + m;
    assert (d - q) * p == r - m;
    NoMultipleBetween(d - q, p);
  }

  lemma AddOneModulo(a: nat, p: nat)
    requires p > 0
    ensures (a % p + 1) % p == (a + 1) % p
  {
    var q, r := a / p, a % p;
    assert a == q * p + r;
    if r + 1 == p {
      assert a + 1 == (q + 1) * p + 0;
      DivideBy(a + 1, q + 1, 0, p);
      DivideBy(r + 1, 1, 0, p);
    } else {
      DivideBy(a + 1, q, r + 1, p);
      DivideBy(r + 1, 0, r + 1, p);
    }
  }

  /** The i-th REBALANCE record of upstream subtask u goes to (u + i) mod p. */
  lemma {:induction false} RebalanceIsRoundRobin(h: Hashing, parallelism: nat, upstreamSubtask: nat, keys: seq<Json>)
    requires parallelism > 0
    ensures var (chosen, cursor) := RouteAll(h, Rebalance, parallelism, upstreamSubtask, keys);
            && |chosen| == |keys| && cursor == (upstreamSubtask + |keys|) % parallelism
            && forall i :: 0 <= i < |keys| ==> chosen[i] == Ok((upstreamSubtask + i) % parallelism)
  {
    if keys != [] {
      RebalanceIsRoundRobin(h, parallelism, upstreamSubtask, keys[..|keys| - 1]);
      AddOneModulo(upstreamSubtask + |keys| - 1, parallelism);
    }
  }

  /** How many of the first n round-robin choices from u fall on a target. */
  function Hits(parallelism: nat, u: nat, n: nat, target: nat): nat
    requires parallelism > 0
  {
    if n == 0 then 0
    else Hits(parallelism, u, n - 1, target) + (if (u + n - 1) % parallelism == target then 1 else 0)
  }

  /** The number of targets that come before `target` in the cycle that starts at u. */
  function Distance(parallelism: nat, u: nat, target: nat): nat
    requires parallelism > 0
  {
    (target + parallelism - u % parallelism) % parallelism
  }

  /**
   Each target's count is the number of completed cycles, plus one if the current cycle has passed it. So over
   any run no two targets' counts differ by more than one.
   */
  lemma {:induction false} HitsCountCycles(parallelism: nat, u: nat, n: nat, target: nat)
    requires parallelism > 0 && target < parallelism
    ensures Hits(parallelism, u, n, target)
         == n / parallelism + (if Distance(parallelism, u, target) < n % parallelism then 1 else 0)
  {
    if n > 0 {
      HitsCountCycles(parallelism, u, n - 1, target);
      CycleStep(parallelism, u, n - 1, target);
    } else {
      DivideBy(0, 0, 0, parallelism);
    }
  }

  lemma CycleStep(p: nat, u: nat, n: nat, target: nat)
    requires p > 0 && target < p
    ensures (u + n) % p == target <==> Distance(p, u, target) == n % p
    ensures (n + 1) / p == (if n % p == p - 1 then n / p + 1 else n / p)
    ensures (n + 1) % p == (if n % p == p - 1 then 0 else n % p + 1)
  {
    SumModulo(p, u, n);
    DistanceIs(p, u, target);
    NextDivision(p, n);
  }

  lemma NextDivision(p: nat, n: nat)
    requires p > 0
    ensures (n + 1) / p == (if n % p == p - 1 then n / p + 1 else n / p)
    ensures (n + 1) % p == (if n % p == p - 1 then 0 else n % p + 1)
  {
    var q, b := n / p, n % p;
    assert n == q * p + b;
    if b == p - 1 {
      assert n + 1 == (q + 1) * p + 0;
      DivideBy(n + 1, q + 1, 0, p);
    } else {
      DivideBy(n + 1, q, b + 1, p);
    }
  }

  lemma Distribute(x: nat, y: nat, p: nat)
    ensures (x + y) * p == x * p + y * p && (x + y + 1) * p == x * p + y * p + p
  {
  }

  lemma SumModulo(p: nat, u: nat, n: nat)
    requires p > 0
    ensures (u + n) % p == (if u % p + n % p < p then u % p + n % p else u % p + n % p - p)
  {
    var a, b, x, y := u % p, n % p, u / p, n / p;
    assert u == x * p + a && n == y * p + b;
    Distribute(x, y, p);
    assert u + n == (x + y) * p + (a + b);
    if a + b < p {
      DivideBy(u + n, x + y, a + b, p);
    } else {
      DivideBy(u + n, x + y + 1, a + b - p, p);
    }
  }

  lemma DistanceIs(p: nat, u: nat, target: nat)
    requires p > 0 && target < p
    ensures Distance(p, u, target) == (if target >= u % p then target - u % p else target + p - u % p)
  {
    var a := u % p;
    if target >= a {
      DivideBy(target + p - a, 1, target - a, p);
    } else {
      DivideBy(target + p - a, 0, target + p - a, p);
    }
  }

  lemma {:induction false} CountIsHits(
    h: Hashing, parallelism: nat, upstreamSubtask: nat, keys: seq<Json>, target: nat)
    requires parallelism > 0
    ensures Occurrences(RouteAll(h, Rebalance, parallelism, upstreamSubtask, keys).0, Ok(target))
         == Hits(parallelism, upstreamSubtask, |keys|, target)
  {
    if keys != [] {
      CountIsHits(h, parallelism, upstreamSubtask, keys[..|keys| - 1], target);
      RebalanceIsRoundRobin(h, parallelism, upstreamSubtask, keys);
      var chosen := RouteAll(h, Rebalance, parallelism, upstreamSubtask, keys).0;
      assert chosen[..|chosen| - 1]
          == RouteAll(h, Rebalance, parallelism, upstreamSubtask, keys[..|keys| - 1]).0;
    }
  }

  /** Over any run of REBALANCE records, any two targets' counts differ by at most one. */
  lemma RebalanceIsFair(h: Hashing, parallelism: nat, upstreamSubtask: nat, keys: seq<Json>, a: nat, b: nat)
    requires parallelism > 0 && a < parallelism && b < parallelism
    ensures var chosen := RouteAll(h, Rebalance, parallelism, upstreamSubtask, keys).0;
            Occurrences(chosen, Ok(a)) <= Occurrences(chosen, Ok(b)) + 1
  {
    CountIsHits(h, parallelism, upstreamSubtask, keys, a);
    CountIsHits(h, parallelism, upstreamSubtask, keys, b);
    HitsCountCycles(parallelism, upstreamSubtask, |keys|, a);
    HitsCountCycles(parallelism, upstreamSubtask, |keys|, b);
  }
}
