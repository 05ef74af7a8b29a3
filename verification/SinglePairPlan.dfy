// A plan whose actions are all swaps on one Uniswap v2 pair can never succeed.
module SinglePairPlan {
  import opened Evm
  import opened Market
  import opened ConstantProduct
  import opened UniversalNet
  import opened InventoryProtection
  import opened Settlement

  predicate OnlySwapsOn(actions: seq<Action>, pair: Address) {
    forall i :: 0 <= i < |actions| ==> actions[i].kind.UniswapV2Swap? && actions[i].pool == pair
  }

  /** Tokens only move between the executor and the pair, and the reserve product does not fall. */
  ghost predicate Trades(w: World, w': World, pair: Address) {
    && pair in w.pairs && pair in w'.pairs
    && var p, p' := w.pairs[pair], w'.pairs[pair];
    && p'.token0 == p.token0 && p'.token1 == p.token1 && p.token0 != p.token1
    && Bal(w'.balance, p.token0) + p'.reserve0 == Bal(w.balance, p.token0) + p.reserve0
    && Bal(w'.balance, p.token1) + p'.reserve1 == Bal(w.balance, p.token1) + p.reserve1
    && (forall t: Address :: t != p.token0 && t != p.token1 ==> Bal(w'.balance, t) == Bal(w.balance, t))
    && p'.reserve0 * p'.reserve1 >= p.reserve0 * p.reserve1
  }

  /** A pair that accepts a swap between its two tokens keeps its product. */
  lemma PairSwapKeepsProduct(p: Pair, tokenIn: Address, x: nat, out0: nat, out1: nat)
    requires p.token0 != p.token1
    requires out0 == 0 || out1 == 0
    requires tokenIn == p.token0 ==> out0 == 0
    requires tokenIn == p.token1 ==> out1 == 0
    requires PairSwap(p, tokenIn, x, out0, out1).Ok?
    ensures var p' := PairSwap(p, tokenIn, x, out0, out1).value;
            && p'.reserve0 * p'.reserve1 >= p.reserve0 * p.reserve1
            && p'.reserve0 + out0 == p.reserve0 + (if tokenIn == p.token0 then x else 0)
            && p'.reserve1 + out1 == p.reserve1 + (if tokenIn == p.token1 then x else 0)
            && (tokenIn == p.token0 || tokenIn == p.token1)
  {
    if tokenIn == p.token0 {
      ProductNeverFalls(x, p.reserve0, p.reserve1, out1);
    } else {
      ProductNeverFalls(x, p.reserve1, p.reserve0, out0);
    }
  }

  /** The measured-output check: a swap that passes it was paid in the token it asked for. */
  lemma SwapPaysTokenOut(m: Market, plan: Plan, baselines: seq<nat>, a: Action, w: World)
    requires |plan.trackedTokens| == |baselines|
    requires a.kind.UniswapV2Swap? && a.tokenIn != a.tokenOut && a.tokenOut != ZERO
    requires RunAction(m, plan, baselines, a, w).Ok?
    ensures Available(plan, baselines, w.balance, a.tokenIn, a.amountIn).Ok?
    ensures var x := Available(plan, baselines, w.balance, a.tokenIn, a.amountIn).value;
            var fill := FillV2(m, a, x, w.pairs, w.history);
            var w' := RunAction(m, plan, baselines, a, w).value;
            && fill.Ok? && fill.value.token == a.tokenOut && fill.value.spent == x
            && w'.pairs == fill.value.pairs
            && (forall t: Address :: Bal(w'.balance, t) == Bal(w.balance, t)
                  + (if t == a.tokenOut then fill.value.received else 0) - (if t == a.tokenIn then x else 0))
  {
    var x := Available(plan, baselines, w.balance, a.tokenIn, a.amountIn).value;
    var fill := FillV2(m, a, x, w.pairs, w.history).value;
    DebitBal(w.balance, a.tokenIn, x);
    CreditBal(Debit(w.balance, a.tokenIn, x).value, fill.token, fill.received);
  }

  /** One swap on the pair is a trade, and needs something to sell and something to buy. */
  lemma SwapTrades(m: Market, plan: Plan, baselines: seq<nat>, a: Action, w: World)
    requires |plan.trackedTokens| == |baselines|
    requires a.kind.UniswapV2Swap? && a.tokenIn != a.tokenOut && a.tokenOut != ZERO
    requires RunAction(m, plan, baselines, a, w).Ok?
    ensures Trades(w, RunAction(m, plan, baselines, a, w).value, a.pool)
    ensures var p := w.pairs[a.pool];
            && Available(plan, baselines, w.balance, a.tokenIn, a.amountIn).Ok?
            && ((a.tokenIn == p.token0 && p.reserve1 > 0) || (a.tokenIn == p.token1 && p.reserve0 > 0))
  {
    SwapPaysTokenOut(m, plan, baselines, a, w);
    var x := Available(plan, baselines, w.balance, a.tokenIn, a.amountIn).value;
    var fill := FillV2(m, a, x, w.pairs, w.history).value;
    FilledPair(m, a, x, w.pairs, w.history);
  }

  lemma FilledPair(m: Market, a: Action, x: nat, pairs: map<Address, Pair>, h: History)
    requires 0 < x && FillV2(m, a, x, pairs, h).Ok?
    requires FillV2(m, a, x, pairs, h).value.token == a.tokenOut != a.tokenIn
    ensures a.pool in pairs && a.pool in FillV2(m, a, x, pairs, h).value.pairs
    ensures var fill := FillV2(m, a, x, pairs, h).value;
            var p, p' := pairs[a.pool], fill.pairs[a.pool];
            && p'.token0 == p.token0 && p'.token1 == p.token1 && p.token0 != p.token1
            && p'.reserve0 * p'.reserve1 >= p.reserve0 * p.reserve1
            && ((&& a.tokenIn == p.token0 && a.tokenOut == p.token1 && p.reserve1 > 0
                 && p'.reserve0 == p.reserve0 + x && p'.reserve1 == p.reserve1 - fill.received)
                || (&& a.tokenIn == p.token1 && a.tokenOut == p.token0 && p.reserve0 > 0
                    && p'.reserve1 == p.reserve1 + x && p'.reserve0 == p.reserve0 - fill.received))
  {
    var fill := FillV2(m, a, x, pairs, h).value;
    var p := pairs[a.pool];
    var zeroForOne := p.token0 == a.tokenIn;
    PairSwapKeepsProduct(p, a.tokenIn, x,
                         if zeroForOne then 0 else fill.received, if zeroForOne then fill.received else 0);
  }

  predicate SwapsDistinct(actions: seq<Action>) {
    forall i :: 0 <= i < |actions| ==> actions[i].tokenIn != actions[i].tokenOut && actions[i].tokenOut != ZERO
  }

  lemma TradesCompose(w: World, w': World, w'': World, pair: Address)
    requires Trades(w, w', pair) && Trades(w', w'', pair)
    ensures Trades(w, w'', pair)
  {
  }

  /** The product never falls over any sequence of swaps in either direction. */
  lemma {:induction false} RunTrades(m: Market, plan: Plan, baselines: seq<nat>, actions: seq<Action>, w: World,
                                     pair: Address)
    requires |plan.trackedTokens| == |baselines|
    requires actions != [] && OnlySwapsOn(actions, pair) && SwapsDistinct(actions)
    requires RunActions(m, plan, baselines, actions, w).Ok?
    ensures Trades(w, RunActions(m, plan, baselines, actions, w).value, pair)
  {
    var n := |actions| - 1;
    var before := RunActions(m, plan, baselines, actions[..n], w).value;
    SwapTrades(m, plan, baselines, actions[n], before);
    if n > 0 {
      RunTrades(m, plan, baselines, actions[..n], w, pair);
      TradesCompose(w, before, RunActions(m, plan, baselines, actions, w).value, pair);
    }
  }

  /** With one side of the product strictly lower and the other no higher, the product would have fallen. */
  lemma ProductWouldFall(x: nat, y: nat, x': nat, y': nat)
    requires x' < x && y' <= y && 0 < y
    ensures x' * y' < x * y
  {
    MulMonotone(y', y, x');
    MulMonotone(x' + 1, x, y);
  }

  /** If every token but `s` starts at its floor and no floor is ever undercut, such a run cannot leave more
      of `s` than it started with. */
  lemma RunCannotGain(m: Market, plan: Plan, baselines: seq<nat>, actions: seq<Action>, w: World, pair: Address,
                      s: Address)
    requires |plan.trackedTokens| == |baselines|
    requires actions != [] && OnlySwapsOn(actions, pair) && SwapsDistinct(actions)
    requires RunActions(m, plan, baselines, actions, w).Ok?
    requires Protected(plan, baselines, w.balance, w.balance)
    requires forall t: Address :: t != s ==> Bal(w.balance, t) == Floor(plan, baselines, w.balance, t)
    ensures Bal(RunActions(m, plan, baselines, actions, w).value.balance, s) <= Bal(w.balance, s)
  {
    var w' := RunActions(m, plan, baselines, actions, w).value;
    RunTrades(m, plan, baselines, actions, w, pair);
    assert actions[..|actions|] == actions;
    EveryPrefixProtects(m, plan, baselines, actions, w, |actions|);
    FirstActionRan(m, plan, baselines, actions, w);
    SwapTrades(m, plan, baselines, actions[0], w);
    var p, p' := w.pairs[pair], w'.pairs[pair];
    // Only s is above its floor, so the first action sells s.
    assert actions[0].tokenIn == s;
    if s == p.token0 {
      assert Bal(w'.balance, p.token1) >= Floor(plan, baselines, w.balance, p.token1);
      if Bal(w'.balance, s) > Bal(w.balance, s) {
        ProductWouldFall(p.reserve0, p.reserve1, p'.reserve0, p'.reserve1);
      }
    } else {
      assert Bal(w'.balance, p.token0) >= Floor(plan, baselines, w.balance, p.token0);
      if Bal(w'.balance, s) > Bal(w.balance, s) {
        ProductWouldFall(p.reserve1, p.reserve0, p'.reserve1, p'.reserve0);
      }
    }
  }

  lemma {:induction false} ValidSwapsAreDistinct(plan: Plan, actions: seq<Action>, pair: Address)
    requires ValidateActions(plan, actions).Ok? && OnlySwapsOn(actions, pair)
    ensures SwapsDistinct(actions)
  {
    if actions != [] {
      assert OnlySwapsOn(actions[1..], pair) by {
        forall i | 0 <= i < |actions| - 1
          ensures actions[1..][i].kind.UniswapV2Swap? && actions[1..][i].pool == pair
        {
          assert actions[1..][i] == actions[i + 1];
        }
      }
      ValidSwapsAreDistinct(plan, actions[1..], pair);
      forall i | 0 <= i < |actions|
        ensures actions[i].tokenIn != actions[i].tokenOut && actions[i].tokenOut != ZERO
      {
        if i > 0 {
          assert actions[i] == actions[1..][i - 1];
        }
      }
    }
  }

  /** Every token but the settlement token starts exactly at its floor. */
  lemma OthersStartAtFloor(plan: Plan, principal: nat, before: Balances, start: Balances, baselines: seq<nat>)
    requires Baselines(plan.trackedTokens, plan.settlementToken, principal, before) == Ok(baselines)
    requires |baselines| == |plan.trackedTokens| && DistinctTracked(plan.trackedTokens)
    requires forall t: Address :: t != plan.settlementToken ==> Bal(start, t) == Bal(before, t)
    ensures forall t: Address :: t != plan.settlementToken ==> Bal(start, t) == Floor(plan, baselines, start, t)
  {
    BaselinesAt(plan.trackedTokens, plan.settlementToken, principal, before);
    forall t: Address | t != plan.settlementToken ensures Bal(start, t) == Floor(plan, baselines, start, t) {
      FloorIsSomeEntry(plan.trackedTokens, baselines, t);
    }
  }

  lemma NeverFromInventory(m: Market, plan: Plan, principal: nat, now: nat, w: World, pair: Address)
    requires OnlySwapsOn(plan.actions, pair)
    ensures ExecuteWithInventory(m, plan, principal, now, w).Err?
  {
    if ExecuteWithInventory(m, plan, principal, now, w).Ok? {
      InventorySuccess(m, plan, principal, now, w);
      var baselines := Baselines(plan.trackedTokens, plan.settlementToken, principal, w.balance).value;
      ValidSwapsAreDistinct(plan, plan.actions, pair);
      SnapshotProtected(plan, principal, w.balance);
      OthersStartAtFloor(plan, principal, w.balance, w.balance, baselines);
      BaselinesAt(plan.trackedTokens, plan.settlementToken, principal, w.balance);
      FloorIsSomeEntry(plan.trackedTokens, baselines, plan.settlementToken);
      RunCannotGain(m, plan, baselines, plan.actions, w, pair, plan.settlementToken);
      assert false;
    }
  }

  lemma NeverFromFlash(m: Market, plan: Plan, principal: nat, now: nat, w: World, pair: Address)
    requires OnlySwapsOn(plan.actions, pair)
    ensures ExecuteWithFlash(m, plan, principal, now, w).Err?
  {
    if ExecuteWithFlash(m, plan, principal, now, w).Ok? {
      FlashSuccess(m, plan, principal, now, w);
      var s := plan.settlementToken;
      var baselines := Baselines(plan.trackedTokens, s, 0, w.balance).value;
      var funded := w.(balance := Credit(w.balance, s, principal));
      CreditBal(w.balance, s, principal);
      ValidSwapsAreDistinct(plan, plan.actions, pair);
      SnapshotProtected(plan, 0, w.balance);
      forall t: Address ensures Bal(funded.balance, t) >= Floor(plan, baselines, funded.balance, t) {
        assert Bal(w.balance, t) >= Floor(plan, baselines, w.balance, t);
      }
      OthersStartAtFloor(plan, 0, w.balance, funded.balance, baselines);
      BaselinesAt(plan.trackedTokens, s, 0, w.balance);
      FloorIsSomeEntry(plan.trackedTokens, baselines, s);
      RunCannotGain(m, plan, baselines, plan.actions, funded, pair, s);
      assert false;
    }
  }

  /** Neither funding mode can make such a plan succeed, and a quote can never report a profit for it worth
      sending: whatever the amounts, the market, the reserves and the funding. */
  lemma SinglePairPlansNeverSucceed(m: Market, plan: Plan, principal: nat, now: nat, w: World, pair: Address)
    requires OnlySwapsOn(plan.actions, pair)
    ensures ExecuteWithInventory(m, plan, principal, now, w).Err?
    ensures ExecuteWithFlash(m, plan, principal, now, w).Err?
    ensures QuoteWithFlash(m, plan, principal, now, w).Reported? ==>
              QuoteWithFlash(m, plan, principal, now, w).settlementDelta < plan.minimumProfit
  {
    NeverFromInventory(m, plan, principal, now, w, pair);
    NeverFromFlash(m, plan, principal, now, w, pair);
  }
}
