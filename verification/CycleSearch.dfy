// scripts/earnonhood-research.mjs, `enumerateCycles`: every closed walk from the base token over distinct pools.
module CycleSearch {
  import opened Evm

  datatype Pool = Pool(address: Address, tokens: seq<Address>)

  datatype Step = Step(pool: Pool, tokenOut: Address)

  type Walk = seq<Step>

  /** Where a walk stands. */
  function Current(base: Address, steps: Walk): Address {
    if steps == [] then base else steps[|steps| - 1].tokenOut
  }

  function UsedPools(steps: Walk): set<Address> {
    set s <- steps :: s.pool.address
  }

  function UsedTokens(base: Address, steps: Walk): set<Address> {
    {base} + set s <- steps :: s.tokenOut
  }

  // ---- what a cycle is ----

  /** Step `i` trades the token the walk stands on for another token of one of the pools. */
  predicate StepOk(pools: seq<Pool>, base: Address, steps: Walk, i: nat)
    requires i < |steps|
  {
    && steps[i].pool in pools
    && Current(base, steps[..i]) in steps[i].pool.tokens && steps[i].tokenOut in steps[i].pool.tokens
    && steps[i].tokenOut != Current(base, steps[..i])
  }

  predicate DistinctPools(steps: Walk) {
    forall i, j :: 0 <= i < j < |steps| ==> steps[i].pool.address != steps[j].pool.address
  }

  /** The first `n` tokens reached are new each time, and none is the base. */
  predicate FreshTokens(base: Address, steps: Walk, n: nat)
    requires n <= |steps|
  {
    && (forall i :: 0 <= i < n ==> steps[i].tokenOut != base)
    && (forall i, j :: 0 <= i < j < n ==> steps[i].tokenOut != steps[j].tokenOut)
  }

  /** A closed walk of 2 to `maxHops` steps over distinct pools with distinct intermediate tokens. */
  predicate IsCycle(pools: seq<Pool>, base: Address, maxHops: nat, c: Walk) {
    && 2 <= |c| <= maxHops
    && (forall i :: 0 <= i < |c| ==> StepOk(pools, base, c, i))
    && DistinctPools(c)
    && FreshTokens(base, c, |c| - 1) && c[|c| - 1].tokenOut == base
  }

  /** A walk that has not come back yet. */
  predicate IsOpenWalk(pools: seq<Pool>, base: Address, steps: Walk) {
    && (forall i :: 0 <= i < |steps| ==> StepOk(pools, base, steps, i))
    && DistinctPools(steps) && FreshTokens(base, steps, |steps|)
  }

  // ---- the search, as a list ----

  function Search(pools: seq<Pool>, base: Address, maxHops: nat, steps: Walk): seq<Walk>
    decreases maxHops - |steps|, 3, 0
  {
    if |steps| >= maxHops then [] else ThroughPools(pools, base, maxHops, steps, |pools|)
  }

  /** What the first `k` pools contribute. */
  function ThroughPools(pools: seq<Pool>, base: Address, maxHops: nat, steps: Walk, k: nat): seq<Walk>
    requires |steps| < maxHops && k <= |pools|
    decreases maxHops - |steps|, 2, k
  {
    if k == 0 then []
    else ThroughPools(pools, base, maxHops, steps, k - 1) + ThroughPool(pools, base, maxHops, steps, pools[k - 1])
  }

  function ThroughPool(pools: seq<Pool>, base: Address, maxHops: nat, steps: Walk, pool: Pool): seq<Walk>
    requires |steps| < maxHops
    decreases maxHops - |steps|, 1, |pool.tokens| + 1
  {
    if pool.address in UsedPools(steps) || Current(base, steps) !in pool.tokens then []
    else ToTokens(pools, base, maxHops, steps, pool, |pool.tokens|)
  }

  /** What the pool's first `t` tokens contribute. */
  function ToTokens(pools: seq<Pool>, base: Address, maxHops: nat, steps: Walk, pool: Pool, t: nat): seq<Walk>
    requires |steps| < maxHops && t <= |pool.tokens|
    decreases maxHops - |steps|, 1, t
  {
    if t == 0 then []
    else ToTokens(pools, base, maxHops, steps, pool, t - 1)
         + ToToken(pools, base, maxHops, steps, pool, pool.tokens[t - 1])
  }

  function ToToken(pools: seq<Pool>, base: Address, maxHops: nat, steps: Walk, pool: Pool, next: Address): seq<Walk>
    requires |steps| < maxHops
    decreases maxHops - |steps|, 0, 0
  {
    var nextSteps := steps + [Step(pool, next)];
    if next == Current(base, steps) then []
    else if next == base then (if |nextSteps| >= 2 then [nextSteps] else [])
    else if next in UsedTokens(base, steps) then []
    else Search(pools, base, maxHops, nextSteps)
  }

  // ---- the search as the source does it ----

  class Enumerator {
    const pools: seq<Pool>
    const base: Address
    const maxHops: nat

    // Shared by every level of the recursion.
    var cycles: seq<Walk>

    constructor (pools: seq<Pool>, base: Address, maxHops: nat)
      ensures this.pools == pools && this.base == base && this.maxHops == maxHops && cycles == []
    {
      this.pools, this.base, this.maxHops, cycles := pools, base, maxHops, [];
    }

    method WalkFrom(current: Address, steps: Walk, usedPools: set<Address>, usedTokens: set<Address>)
      requires current == Current(base, steps) && usedPools == UsedPools(steps) && usedTokens == UsedTokens(base, steps)
      modifies this
      ensures cycles == old(cycles) + Search(pools, base, maxHops, steps)
      decreases maxHops - |steps|, 1
    {
      if |steps| >= maxHops {
        return;
      }
      for k := 0 to |pools|
        invariant cycles == old(cycles) + ThroughPools(pools, base, maxHops, steps, k)
      {
        var pool := pools[k];
        if pool.address !in usedPools && current in pool.tokens {
          WalkThrough(current, steps, usedPools, usedTokens, pool);
        }
      }
    }

    method WalkThrough(current: Address, steps: Walk, usedPools: set<Address>, usedTokens: set<Address>, pool: Pool)
      requires current == Current(base, steps) && usedPools == UsedPools(steps) && usedTokens == UsedTokens(base, steps)
      requires |steps| < maxHops
      modifies this
      ensures cycles == old(cycles) + ToTokens(pools, base, maxHops, steps, pool, |pool.tokens|)
      decreases maxHops - |steps|, 0
    {
      for t := 0 to |pool.tokens|
        invariant cycles == old(cycles) + ToTokens(pools, base, maxHops, steps, pool, t)
      {
        var next := pool.tokens[t];
        if next != current {
          var nextSteps := steps + [Step(pool, next)];
          if next == base {
            if |nextSteps| >= 2 {
              cycles := cycles + [nextSteps];
            }
          } else if next !in usedTokens {
            WalkFrom(next, nextSteps, usedPools + {pool.address}, usedTokens + {next});
          }
        }
      }
    }
  }

  /** `enumerateCycles`: exactly the cycles, and each once when pools and their tokens are distinct. */
  method EnumerateCycles(pools: seq<Pool>, base: Address, maxHops: nat) returns (cycles: seq<Walk>)
    ensures forall c :: c in cycles <==> IsCycle(pools, base, maxHops, c)
    ensures PoolsDistinct(pools) ==> forall i, j :: 0 <= i < j < |cycles| ==> cycles[i] != cycles[j]
  {
    var enumerator := new Enumerator(pools, base, maxHops);
    enumerator.WalkFrom(base, [], {}, {base});
    cycles := enumerator.cycles;
    forall c ensures c in cycles <==> IsCycle(pools, base, maxHops, c) {
      SearchFinds(pools, base, maxHops, [], c);
    }
    if PoolsDistinct(pools) {
      SearchOnce(pools, base, maxHops, []);
    }
  }

  // ---- soundness and completeness ----

  lemma {:induction false} InThroughPools(pools: seq<Pool>, base: Address, maxHops: nat, steps: Walk, k: nat, c: Walk)
    requires |steps| < maxHops && k <= |pools|
    ensures c in ThroughPools(pools, base, maxHops, steps, k)
            <==> exists i :: 0 <= i < k && c in ThroughPool(pools, base, maxHops, steps, pools[i])
  {
    if k > 0 {
      InThroughPools(pools, base, maxHops, steps, k - 1, c);
    }
  }

  lemma {:induction false} InToTokens(pools: seq<Pool>, base: Address, maxHops: nat, steps: Walk, pool: Pool, t: nat,
                                      c: Walk)
    requires |steps| < maxHops && t <= |pool.tokens|
    ensures c in ToTokens(pools, base, maxHops, steps, pool, t)
            <==> exists i :: 0 <= i < t && c in ToToken(pools, base, maxHops, steps, pool, pool.tokens[i])
  {
    if t > 0 {
      InToTokens(pools, base, maxHops, steps, pool, t - 1, c);
    }
  }

  /** The step by which a found cycle goes on. */
  predicate GoesOn(steps: Walk, pool: Pool, next: Address, c: Walk) {
    |steps| < |c| && c[..|steps|] == steps && c[|steps|] == Step(pool, next)
  }

  lemma OpenWalkGrows(pools: seq<Pool>, base: Address, steps: Walk, pool: Pool, next: Address)
    requires IsOpenWalk(pools, base, steps) && pool in pools && pool.address !in UsedPools(steps)
    requires Current(base, steps) in pool.tokens && next in pool.tokens && next !in UsedTokens(base, steps)
    requires next != Current(base, steps)
    ensures IsOpenWalk(pools, base, steps + [Step(pool, next)])
  {
    var grown := steps + [Step(pool, next)];
    forall i | 0 <= i < |grown| ensures StepOk(pools, base, grown, i) {
      assert grown[..i] == steps[..i];
      if i < |steps| {
        assert StepOk(pools, base, steps, i);
      } else {
        assert grown[..i] == steps;
      }
    }
    forall i | 0 <= i < |steps|
      ensures steps[i].pool.address in UsedPools(steps) && steps[i].tokenOut in UsedTokens(base, steps)
    {
      assert steps[i] in steps;
    }
  }

  lemma ClosedIsCycle(pools: seq<Pool>, base: Address, maxHops: nat, steps: Walk, pool: Pool)
    requires IsOpenWalk(pools, base, steps) && 1 <= |steps| < maxHops && pool in pools
             && pool.address !in UsedPools(steps)
    requires Current(base, steps) in pool.tokens && base in pool.tokens
    ensures IsCycle(pools, base, maxHops, steps + [Step(pool, base)])
  {
    var c := steps + [Step(pool, base)];
    forall i | 0 <= i < |c| ensures StepOk(pools, base, c, i) {
      assert c[..i] == steps[..i];
      if i < |steps| {
        assert StepOk(pools, base, steps, i);
      } else {
        assert c[..i] == steps;
      }
    }
    forall i | 0 <= i < |steps| ensures steps[i].pool.address in UsedPools(steps) {
      assert steps[i] in steps;
    }
  }

  /** A used token cannot be reached again before the walk closes. */
  lemma UsedTokenEndsNothing(pools: seq<Pool>, base: Address, maxHops: nat, steps: Walk, pool: Pool, next: Address,
                             c: Walk)
    requires IsCycle(pools, base, maxHops, c) && GoesOn(steps, pool, next, c) && next != base
    ensures next !in UsedTokens(base, steps) && |steps| + 1 < |c|
  {
    forall s | s in steps ensures s.tokenOut != next {
      var i :| 0 <= i < |steps| && steps[i] == s;
      assert c[i] == c[..|steps|][i] == s;
    }
  }

  /** One hop of the search finds exactly the cycles that go on by it. */
  lemma {:induction false} ToTokenFinds(pools: seq<Pool>, base: Address, maxHops: nat, steps: Walk, pool: Pool,
                                        next: Address, c: Walk)
    requires IsOpenWalk(pools, base, steps) && |steps| < maxHops && pool in pools && pool.address !in UsedPools(steps)
    requires Current(base, steps) in pool.tokens && next in pool.tokens
    ensures c in ToToken(pools, base, maxHops, steps, pool, next)
            <==> IsCycle(pools, base, maxHops, c) && GoesOn(steps, pool, next, c)
    decreases maxHops - |steps|, 0, 0
  {
    var nextSteps := steps + [Step(pool, next)];
    if IsCycle(pools, base, maxHops, c) && GoesOn(steps, pool, next, c) {
      assert StepOk(pools, base, c, |steps|);
      assert c[..|nextSteps|] == nextSteps;
      if next != base {
        UsedTokenEndsNothing(pools, base, maxHops, steps, pool, next, c);
      } else {
        assert |steps| == |c| - 1;
        assert c == nextSteps;
      }
    }
    if next == Current(base, steps) {
    } else if next == base {
      ClosedIsCycle(pools, base, maxHops, steps, pool);
    } else if next !in UsedTokens(base, steps) {
      OpenWalkGrows(pools, base, steps, pool, next);
      SearchFinds(pools, base, maxHops, nextSteps, c);
      if |nextSteps| < |c| && c[..|nextSteps|] == nextSteps {
        assert c[..|steps|] == c[..|nextSteps|][..|steps|] == steps;
        assert c[|steps|] == c[..|nextSteps|][|steps|];
      }
    }
  }

  /** From an open walk the search finds exactly the cycles that begin with it. */
  lemma {:induction false} SearchFinds(pools: seq<Pool>, base: Address, maxHops: nat, steps: Walk, c: Walk)
    requires IsOpenWalk(pools, base, steps)
    ensures c in Search(pools, base, maxHops, steps)
            <==> IsCycle(pools, base, maxHops, c) && |steps| < |c| && c[..|steps|] == steps
    decreases maxHops - |steps|, 1, 0
  {
    if |steps| < maxHops {
      InThroughPools(pools, base, maxHops, steps, |pools|, c);
      forall k | 0 <= k < |pools|
        ensures c in ThroughPool(pools, base, maxHops, steps, pools[k])
                <==> IsCycle(pools, base, maxHops, c) && |steps| < |c| && c[..|steps|] == steps
                     && c[|steps|].pool == pools[k]
      {
        ThroughPoolFinds(pools, base, maxHops, steps, pools[k], c);
      }
      if IsCycle(pools, base, maxHops, c) && |steps| < |c| && c[..|steps|] == steps {
        assert StepOk(pools, base, c, |steps|);
        var k :| 0 <= k < |pools| && pools[k] == c[|steps|].pool;
        assert c in ThroughPool(pools, base, maxHops, steps, pools[k]);
      }
    }
  }

  lemma {:induction false} ThroughPoolFinds(pools: seq<Pool>, base: Address, maxHops: nat, steps: Walk, pool: Pool,
                                            c: Walk)
    requires IsOpenWalk(pools, base, steps) && |steps| < maxHops && pool in pools
    ensures c in ThroughPool(pools, base, maxHops, steps, pool)
            <==> IsCycle(pools, base, maxHops, c) && |steps| < |c| && c[..|steps|] == steps && c[|steps|].pool == pool
    decreases maxHops - |steps|, 0, 1
  {
    if IsCycle(pools, base, maxHops, c) && |steps| < |c| && c[..|steps|] == steps && c[|steps|].pool == pool {
      assert StepOk(pools, base, c, |steps|);
      forall s | s in steps ensures s.pool.address != pool.address {
        var i :| 0 <= i < |steps| && steps[i] == s;
        assert c[i] == c[..|steps|][i];
      }
    }
    if pool.address !in UsedPools(steps) && Current(base, steps) in pool.tokens {
      InToTokens(pools, base, maxHops, steps, pool, |pool.tokens|, c);
      forall t | 0 <= t < |pool.tokens|
        ensures c in ToToken(pools, base, maxHops, steps, pool, pool.tokens[t])
                <==> IsCycle(pools, base, maxHops, c) && GoesOn(steps, pool, pool.tokens[t], c)
      {
        ToTokenFinds(pools, base, maxHops, steps, pool, pool.tokens[t], c);
      }
      if IsCycle(pools, base, maxHops, c) && |steps| < |c| && c[..|steps|] == steps && c[|steps|].pool == pool {
        var t :| 0 <= t < |pool.tokens| && pool.tokens[t] == c[|steps|].tokenOut;
        assert GoesOn(steps, pool, pool.tokens[t], c);
      }
    }
  }

  // ---- no cycle twice ----

  predicate PoolsDistinct(pools: seq<Pool>) {
    && (forall i, j :: 0 <= i < j < |pools| ==> pools[i].address != pools[j].address)
    && (forall p :: p in pools ==> forall i, j :: 0 <= i < j < |p.tokens| ==> p.tokens[i] != p.tokens[j])
  }

  predicate Once(cycles: seq<Walk>) {
    forall i, j :: 0 <= i < j < |cycles| ==> cycles[i] != cycles[j]
  }

  lemma OnceConcat(a: seq<Walk>, b: seq<Walk>)
    requires Once(a) && Once(b) && forall c :: c in a ==> c !in b
    ensures Once(a + b)
  {
    forall i, j | 0 <= i < j < |a + b| ensures (a + b)[i] != (a + b)[j] {
      if i < |a| <= j {
        assert a[i] in a && b[j - |a|] in b;
      }
    }
  }

  lemma {:induction false} SearchOnce(pools: seq<Pool>, base: Address, maxHops: nat, steps: Walk)
    requires PoolsDistinct(pools) && IsOpenWalk(pools, base, steps)
    ensures Once(Search(pools, base, maxHops, steps))
    decreases maxHops - |steps|, 3, 0
  {
    if |steps| < maxHops {
      ThroughPoolsOnce(pools, base, maxHops, steps, |pools|);
    }
  }

  lemma {:induction false} ThroughPoolsOnce(pools: seq<Pool>, base: Address, maxHops: nat, steps: Walk, k: nat)
    requires PoolsDistinct(pools) && IsOpenWalk(pools, base, steps) && |steps| < maxHops && k <= |pools|
    ensures Once(ThroughPools(pools, base, maxHops, steps, k))
    decreases maxHops - |steps|, 2, k
  {
    if k > 0 {
      ThroughPoolsOnce(pools, base, maxHops, steps, k - 1);
      var front := ThroughPools(pools, base, maxHops, steps, k - 1);
      var last := ThroughPool(pools, base, maxHops, steps, pools[k - 1]);
      forall c | c in front ensures c !in last {
        InThroughPools(pools, base, maxHops, steps, k - 1, c);
        var i :| 0 <= i < k - 1 && c in ThroughPool(pools, base, maxHops, steps, pools[i]);
        ThroughPoolFinds(pools, base, maxHops, steps, pools[i], c);
        ThroughPoolFinds(pools, base, maxHops, steps, pools[k - 1], c);
      }
      if last != [] {
        ToTokensOnce(pools, base, maxHops, steps, pools[k - 1], |pools[k - 1].tokens|);
      }
      OnceConcat(front, last);
    }
  }

  lemma {:induction false} ToTokensOnce(pools: seq<Pool>, base: Address, maxHops: nat, steps: Walk, pool: Pool, t: nat)
    requires PoolsDistinct(pools) && IsOpenWalk(pools, base, steps) && |steps| < maxHops && pool in pools
    requires pool.address !in UsedPools(steps) && Current(base, steps) in pool.tokens && t <= |pool.tokens|
    ensures Once(ToTokens(pools, base, maxHops, steps, pool, t))
    decreases maxHops - |steps|, 1, t
  {
    if t > 0 {
      ToTokensOnce(pools, base, maxHops, steps, pool, t - 1);
      var next := pool.tokens[t - 1];
      var front := ToTokens(pools, base, maxHops, steps, pool, t - 1);
      var last := ToToken(pools, base, maxHops, steps, pool, next);
      forall c | c in front ensures c !in last {
        InToTokens(pools, base, maxHops, steps, pool, t - 1, c);
        var i :| 0 <= i < t - 1 && c in ToToken(pools, base, maxHops, steps, pool, pool.tokens[i]);
        ToTokenFinds(pools, base, maxHops, steps, pool, pool.tokens[i], c);
        ToTokenFinds(pools, base, maxHops, steps, pool, next, c);
      }
      ToTokenOnce(pools, base, maxHops, steps, pool, next);
      OnceConcat(front, last);
    }
  }

  lemma {:induction false} ToTokenOnce(pools: seq<Pool>, base: Address, maxHops: nat, steps: Walk, pool: Pool,
                                       next: Address)
    requires PoolsDistinct(pools) && IsOpenWalk(pools, base, steps) && |steps| < maxHops && pool in pools
    requires pool.address !in UsedPools(steps) && Current(base, steps) in pool.tokens && next in pool.tokens
    ensures Once(ToToken(pools, base, maxHops, steps, pool, next))
    decreases maxHops - |steps|, 0, 0
  {
    if next != Current(base, steps) && next != base && next !in UsedTokens(base, steps) {
      OpenWalkGrows(pools, base, steps, pool, next);
      SearchOnce(pools, base, maxHops, steps + [Step(pool, next)]);
    }
  }
}
