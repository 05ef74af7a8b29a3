// What every action of a plan does, said of the balances, pairs and calls before and after it: what it may spend, what
// it offers its venue, what it must receive, and exactly when it succeeds.
module ActionLaws {
  import opened Evm
  import opened Market
  import opened DeltaPacking
  import opened ConstantProduct
  import opened UniversalNet
  import opened InventoryProtection

  // ---- what an action may spend ----

  /** `x` of the token may be spent: it is what was asked for, or all there is above the baseline when nothing was, and
      it is above the baseline and within int128. */
  predicate MaySpend(plan: Plan, baselines: seq<nat>, b: Balances, token: Address, asked: nat, x: nat)
    requires |plan.trackedTokens| == |baselines|
  {
    && 0 < x <= MAX_INT128
    && exists i :: 0 <= i < |baselines| && plan.trackedTokens[i].token == token
                   && baselines[i] + x <= Bal(b, token)
                   && x == if asked == 0 then Bal(b, token) - baselines[i] else asked
  }

  lemma AvailableExactly(plan: Plan, baselines: seq<nat>, b: Balances, token: Address, asked: nat, x: nat)
    requires |plan.trackedTokens| == |baselines| && DistinctTracked(plan.trackedTokens)
    ensures Available(plan, baselines, b, token, asked) == Ok(x) <==> MaySpend(plan, baselines, b, token, asked, x)
  {
    BaselineForFinds(plan.trackedTokens, baselines, token);
    FloorIsSomeEntry(plan.trackedTokens, baselines, token);
  }

  /** Why an action that spends is refused before its venue is called. */
  lemma RefusedAmounts(m: Market, plan: Plan, baselines: seq<nat>, a: Action, w: World, i: nat)
    requires |plan.trackedTokens| == |baselines| && DistinctTracked(plan.trackedTokens) && !a.kind.EarnAddUnbalanced?
    ensures !IsTracked(plan.trackedTokens, a.tokenIn) ==> RunAction(m, plan, baselines, a, w) == Err(InvalidPlan)
    ensures i < |baselines| && plan.trackedTokens[i].token == a.tokenIn ==>
              var above := Bal(w.balance, a.tokenIn) - baselines[i];
              && (above <= 0 ==> RunAction(m, plan, baselines, a, w) == Err(InsufficientPrincipal))
              && (0 < above < a.amountIn ==> RunAction(m, plan, baselines, a, w) == Err(InvalidAmount))
              && (0 < above && MAX_INT128 < (if a.amountIn == 0 then above else a.amountIn) ==>
                    RunAction(m, plan, baselines, a, w) == Err(InvalidAmount))
  {
    BaselineForFinds(plan.trackedTokens, baselines, a.tokenIn);
    BaselineError(plan.trackedTokens, baselines, a.tokenIn);
  }

  lemma {:induction false} BaselineError(tracked: seq<Tracked>, baselines: seq<nat>, token: Address)
    requires |tracked| == |baselines|
    ensures BaselineFor(tracked, baselines, token).Err? ==> BaselineFor(tracked, baselines, token) == Err(InvalidPlan)
  {
    if tracked != [] {
      BaselineError(tracked[1..], baselines[1..], token);
    }
  }

  // ---- what a swap's venue does ----

  /** One token out, another in, and nothing else. */
  ghost predicate Moves(before: Balances, after: Balances, tokenIn: Address, spent: int, tokenOut: Address,
                        received: int) {
    forall t: Address ::
      Bal(after, t) == Bal(before, t) - (if t == tokenIn then spent else 0) + (if t == tokenOut then received else 0)
  }

  /** A canonical pair of exactly these two tokens takes `x` and pays the most its own check admits. */
  predicate PairGives(m: Market, a: Action, x: nat, received: int, pairs: map<Address, Pair>, pairs': map<Address,
                      Pair>) {
    && a.fee == 0 && a.pool != ZERO && m.v2Pair(a.tokenIn, a.tokenOut) == a.pool && a.pool in pairs
    && var p := pairs[a.pool];
    if p.token0 == a.tokenIn then
      && p.token1 == a.tokenOut && PaysMost(x, p.reserve0, p.reserve1, received)
      && pairs' == pairs[a.pool := p.(reserve0 := p.reserve0 + x, reserve1 := p.reserve1 - received)]
    else
      && p.token1 == a.tokenIn && p.token0 == a.tokenOut && PaysMost(x, p.reserve1, p.reserve0, received)
      && pairs' == pairs[a.pool := p.(reserve1 := p.reserve1 + x, reserve0 := p.reserve0 - received)]
  }

  predicate PaysMost(x: nat, reserveIn: nat, reserveOut: nat, received: int) {
    && 0 < received < reserveOut && 0 < reserveIn
    && reserveIn + x <= MAX_UINT112 && reserveOut - received <= MAX_UINT112
    && ProductCheck(x, reserveIn, reserveOut, received) && !ProductCheck(x, reserveIn, reserveOut, received + 1)
  }

  predicate V3Gives(m: Market, a: Action, x: nat, received: int, h: History, h': History) {
    var zeroForOne := a.tokenIn < a.tokenOut;
    var call := V3Call(a.pool, zeroForOne, x);
    && a.pool != ZERO && a.fee != 0 && m.v3Pool(a.tokenIn, a.tokenOut, a.fee) == a.pool
    && 0 < received <= MAX_INT256 && h' == h + [call]
    && m.v3Swap(h, call) == Some(if zeroForOne then (x, -received) else (-received, x))
  }

  predicate V4Gives(m: Market, a: Action, x: nat, received: int, h: History, h': History) {
    var key := a.v4Pool;
    var zeroForOne := key.currency0 == a.tokenIn;
    var call := V4Call(key, zeroForOne, x);
    && a.pool == ZERO && a.fee == 0 && key.currency0 < key.currency1
    && {key.currency0, key.currency1} == {a.tokenIn, a.tokenOut}
    && 0 < received <= MAX_INT128 && h' == h + [call]
    && m.v4Swap(h, call) == Some(if zeroForOne then (-(x as int), received) else (received, -(x as int)))
  }

  /** An Earn pool that may be used, and its tokens. */
  predicate Usable(m: Market, pool: Address, h: History) {
    var p := m.earnPool(h, pool);
    p.initialized && !p.paused && !p.inRecovery && 2 <= |p.tokens| <= 8
  }

  predicate EarnGives(m: Market, plan: Plan, a: Action, x: nat, spent: int, received: int, h: History, h': History) {
    var call := EarnSwapCall(a.pool, a.tokenIn, a.tokenOut, x, a.minimumAmountOut, plan.deadline);
    && a.pool != ZERO && a.fee == 0 && Usable(m, a.pool, h)
    && a.tokenIn in m.earnPool(h, a.pool).tokens && a.tokenOut in m.earnPool(h, a.pool).tokens
    && 0 <= spent <= x && 0 <= received && h' == h + [call]
    && m.earnSwap(h, call).Some? && m.earnSwap(h, call).value.0 == spent && m.earnSwap(h, call).value.1 == received
  }

  predicate VenueGives(m: Market, plan: Plan, a: Action, x: nat, spent: int, received: int, w: World, w': World) {
    && 0 <= spent <= x && 0 <= received
    && match a.kind
    case UniswapV2Swap => spent == x && w'.history == w.history && PairGives(m, a, x, received, w.pairs, w'.pairs)
    case UniswapV3Swap => spent == x && w'.pairs == w.pairs && V3Gives(m, a, x, received, w.history, w'.history)
    case UniswapV4Swap => spent == x && w'.pairs == w.pairs && V4Gives(m, a, x, received, w.history, w'.history)
    case EarnSwap => w'.pairs == w.pairs && EarnGives(m, plan, a, x, spent, received, w.history, w'.history)
    case _ => false
  }

  /** A swap that was offered `x`: what it spent and received can be read off the balances. */
  ghost predicate Swaps(m: Market, plan: Plan, a: Action, x: nat, w: World, w': World) {
    var spent := Bal(w.balance, a.tokenIn) - Bal(w'.balance, a.tokenIn);
    var received := Bal(w'.balance, a.tokenOut) - Bal(w.balance, a.tokenOut);
    && VenueGives(m, plan, a, x, spent, received, w, w')
    && a.minimumAmountOut <= received
    && Moves(w.balance, w'.balance, a.tokenIn, spent, a.tokenOut, received)
  }

  ghost predicate SameWorld(w: World, w': World) {
    w.pairs == w'.pairs && w.history == w'.history && SameBalances(w.balance, w'.balance)
  }

  /** A swap that may spend `amount` takes the venue's fill, and its output check is on the fill itself. */
  lemma SwapIsFill(m: Market, plan: Plan, baselines: seq<nat>, a: Action, w: World, amount: nat)
    requires |plan.trackedTokens| == |baselines|
    requires IsSwap(a.kind) && a.tokenIn != a.tokenOut && a.tokenOut != ZERO && 0 < amount <= Bal(w.balance, a.tokenIn)
    requires Available(plan, baselines, w.balance, a.tokenIn, a.amountIn) == Ok(amount)
    ensures RunAction(m, plan, baselines, a, w)
            == match FillOf(m, a, amount, plan.deadline, w.pairs, w.history)
               case Err(e) => Err(e)
               case Ok(fill) =>
                 if fill.token != a.tokenOut || fill.received < a.minimumAmountOut then Err(SettlementMismatch)
                 else Ok(World(Credit(Debit(w.balance, a.tokenIn, fill.spent).value, a.tokenOut, fill.received),
                               fill.pairs, fill.history))
  {
    var fill := FillOf(m, a, amount, plan.deadline, w.pairs, w.history);
    if fill.Ok? {
      FillSpendsAtMost(m, a, amount, plan.deadline, w.pairs, w.history);
      CreditBal(Debit(w.balance, a.tokenIn, fill.value.spent).value, fill.value.token, fill.value.received);
    }
  }

  // ---- each venue's fill is exactly that ----

  lemma PairSwapIsCheck(p: Pair, tokenIn: Address, x: nat, out: nat)
    requires 0 < x && p.token0 != p.token1 && (tokenIn == p.token0 || tokenIn == p.token1)
    ensures var zeroForOne := p.token0 == tokenIn;
            var rin := if zeroForOne then p.reserve0 else p.reserve1;
            var rout := if zeroForOne then p.reserve1 else p.reserve0;
            var r := PairSwap(p, tokenIn, x, if zeroForOne then 0 else out, if zeroForOne then out else 0);
            && (r.Ok? <==> 0 < out < rout && 0 < rin && rin + x <= MAX_UINT112 && rout - out <= MAX_UINT112
                           && ProductCheck(x, rin, rout, out))
            && (r.Ok? ==> r.value == if zeroForOne then p.(reserve0 := rin + x, reserve1 := rout - out)
                                     else p.(reserve1 := rin + x, reserve0 := rout - out))
  {
    var rin := if p.token0 == tokenIn then p.reserve0 else p.reserve1;
    var rout := if p.token0 == tokenIn then p.reserve1 else p.reserve0;
    var left, right := FEE_DENOMINATOR * (rin + x) - 3 * x, FEE_DENOMINATOR * (rout - out);
    assert left * right == right * left;
    assert rin * rout == rout * rin;
  }

  lemma AmountOutPaysMost(x: nat, reserveIn: nat, reserveOut: nat, out: nat)
    requires 0 < x && 0 < out < reserveOut
    ensures out == AmountOut(x, reserveIn, reserveOut)
            <==> ProductCheck(x, reserveIn, reserveOut, out) && !ProductCheck(x, reserveIn, reserveOut, out + 1)
  {
    AmountOutIsLargest(x, reserveIn, reserveOut, out);
    AmountOutIsLargest(x, reserveIn, reserveOut, out + 1);
  }

  lemma PairFillIsExact(m: Market, a: Action, x: nat, pairs: map<Address, Pair>, h: History, received: nat,
                        pairs': map<Address, Pair>)
    requires 0 < x && a.tokenIn != a.tokenOut
    ensures FillV2(m, a, x, pairs, h) == Ok(Fill(x, a.tokenOut, received, pairs', h))
            <==> PairGives(m, a, x, received, pairs, pairs')
  {
    if a.pool in pairs {
      var p := pairs[a.pool];
      if p.token0 != p.token1 && (p.token0 == a.tokenIn || p.token1 == a.tokenIn) {
        PairSwapIsCheck(p, a.tokenIn, x, received);
        var zeroForOne := p.token0 == a.tokenIn;
        var rin := if zeroForOne then p.reserve0 else p.reserve1;
        var rout := if zeroForOne then p.reserve1 else p.reserve0;
        if 0 < received < rout {
          AmountOutPaysMost(x, rin, rout, received);
        }
      }
    }
  }

  lemma V4FillIsExact(m: Market, a: Action, x: nat, pairs: map<Address, Pair>, h: History, received: nat, h': History)
    requires 0 < x <= MAX_INT128 && a.tokenIn != a.tokenOut
    ensures FillV4(m, a, x, pairs, h) == Ok(Fill(x, a.tokenOut, received, pairs, h'))
            <==> V4Gives(m, a, x, received, h, h')
  {
    var zeroForOne := a.v4Pool.currency0 == a.tokenIn;
    var answer := m.v4Swap(h, V4Call(a.v4Pool, zeroForOne, x));
    if answer.Some? && IsInt128(answer.value.0) && IsInt128(answer.value.1) {
      ValidationIsExact(answer.value.0, answer.value.1, zeroForOne, x, received);
    }
    assert V4ActionOk(a) <==> a.pool == ZERO && a.fee == 0 && a.v4Pool.currency0 < a.v4Pool.currency1
                              && {a.v4Pool.currency0, a.v4Pool.currency1} == {a.tokenIn, a.tokenOut} by {
      assert a.v4Pool.currency0 in {a.v4Pool.currency0, a.v4Pool.currency1};
      assert a.v4Pool.currency1 in {a.v4Pool.currency0, a.v4Pool.currency1};
      assert a.tokenIn in {a.tokenIn, a.tokenOut};
    }
  }

  lemma V3FillIsExact(m: Market, a: Action, x: nat, pairs: map<Address, Pair>, h: History, received: nat, h': History)
    requires 0 < x
    ensures FillV3(m, a, x, pairs, h) == Ok(Fill(x, a.tokenOut, received, pairs, h'))
            <==> V3Gives(m, a, x, received, h, h')
  {
  }

  lemma FillIsExact(m: Market, plan: Plan, a: Action, x: nat, w: World, w': World, spent: nat, received: nat)
    requires 0 < x <= MAX_INT128 && IsSwap(a.kind) && a.tokenIn != a.tokenOut
    ensures FillOf(m, a, x, plan.deadline, w.pairs, w.history)
            == Ok(Fill(spent, a.tokenOut, received, w'.pairs, w'.history))
            <==> VenueGives(m, plan, a, x, spent, received, w, w')
  {
    match a.kind
    case UniswapV2Swap => PairFillIsExact(m, a, x, w.pairs, w.history, received, w'.pairs);
    case UniswapV3Swap => V3FillIsExact(m, a, x, w.pairs, w.history, received, w'.history);
    case UniswapV4Swap => V4FillIsExact(m, a, x, w.pairs, w.history, received, w'.history);
    case EarnSwap =>
  }

  lemma SwapSucceedsExactlyWhen(m: Market, plan: Plan, baselines: seq<nat>, a: Action, x: nat, w: World, w': World)
    requires |plan.trackedTokens| == |baselines|
    requires IsSwap(a.kind) && a.tokenIn != a.tokenOut && a.tokenOut != ZERO && 0 < x <= MAX_INT128
    requires Available(plan, baselines, w.balance, a.tokenIn, a.amountIn) == Ok(x) && x <= Bal(w.balance, a.tokenIn)
    ensures RunAction(m, plan, baselines, a, w).Ok? && SameWorld(RunAction(m, plan, baselines, a, w).value, w')
            <==> Swaps(m, plan, a, x, w, w')
  {
    SwapIsFill(m, plan, baselines, a, w, x);
    var run := RunAction(m, plan, baselines, a, w);
    if run.Ok? && SameWorld(run.value, w') {
      SwapsAsFilled(m, plan, a, x, w, w', FillOf(m, a, x, plan.deadline, w.pairs, w.history).value);
    }
    if Swaps(m, plan, a, x, w, w') {
      FilledAsSwaps(m, plan, a, x, w, w');
    }
  }

  lemma SwapsAsFilled(m: Market, plan: Plan, a: Action, x: nat, w: World, w': World, fill: Fill)
    requires IsSwap(a.kind) && a.tokenIn != a.tokenOut && 0 < x <= MAX_INT128 && x <= Bal(w.balance, a.tokenIn)
    requires FillOf(m, a, x, plan.deadline, w.pairs, w.history) == Ok(fill)
    requires fill.token == a.tokenOut && a.minimumAmountOut <= fill.received
    requires w'.pairs == fill.pairs && w'.history == fill.history && fill.spent <= Bal(w.balance, a.tokenIn)
    requires SameBalances(Credit(Debit(w.balance, a.tokenIn, fill.spent).value, a.tokenOut, fill.received), w'.balance)
    ensures Swaps(m, plan, a, x, w, w')
  {
    FillIsExact(m, plan, a, x, w, w', fill.spent, fill.received);
    FillMoves(w.balance, a.tokenIn, fill.spent, a.tokenOut, fill.received, w'.balance);
  }

  lemma FilledAsSwaps(m: Market, plan: Plan, a: Action, x: nat, w: World, w': World)
    requires IsSwap(a.kind) && a.tokenIn != a.tokenOut && 0 < x <= MAX_INT128 && x <= Bal(w.balance, a.tokenIn)
    requires Swaps(m, plan, a, x, w, w')
    ensures var fill := FillOf(m, a, x, plan.deadline, w.pairs, w.history);
            && fill.Ok? && fill.value.token == a.tokenOut && a.minimumAmountOut <= fill.value.received
            && fill.value.pairs == w'.pairs && fill.value.history == w'.history
            && fill.value.spent <= Bal(w.balance, a.tokenIn)
            && SameBalances(Credit(Debit(w.balance, a.tokenIn, fill.value.spent).value, a.tokenOut,
                                   fill.value.received),
                            w'.balance)
  {
    var spent := Bal(w.balance, a.tokenIn) - Bal(w'.balance, a.tokenIn);
    var received := Bal(w'.balance, a.tokenOut) - Bal(w.balance, a.tokenOut);
    FillIsExact(m, plan, a, x, w, w', spent, received);
    FillMoves(w.balance, a.tokenIn, spent, a.tokenOut, received, w'.balance);
  }

  lemma FillMoves(before: Balances, tokenIn: Address, spent: nat, tokenOut: Address, received: nat, after: Balances)
    requires tokenIn != tokenOut && spent <= Bal(before, tokenIn)
    ensures SameBalances(Credit(Debit(before, tokenIn, spent).value, tokenOut, received), after)
            <==> Moves(before, after, tokenIn, spent, tokenOut, received)
  {
    DebitBal(before, tokenIn, spent);
    CreditBal(Debit(before, tokenIn, spent).value, tokenOut, received);
  }

  // ---- Earn liquidity ----

  /** The amounts listed for a token, over all its positions. */
  function SumAt(tokens: seq<Address>, amounts: seq<nat>, token: Address): nat
    requires |tokens| == |amounts|
    decreases |tokens|
  {
    if tokens == [] then 0
    else (if tokens[0] == token then amounts[0] else 0) + SumAt(tokens[1..], amounts[1..], token)
  }

  /** Shares of a usable pool, all of whose tokens the plan tracks, go out for the outputs the router reports. */
  ghost predicate Removes(m: Market, plan: Plan, a: Action, x: nat, w: World, w': World) {
    var tokens := m.earnPool(w.history, a.pool).tokens;
    var call := EarnRemoveCall(a.pool, x);
    var answer := m.earnRemove(w.history, call);
    && a.pool != ZERO && a.pool == a.tokenIn && a.tokenOut == ZERO && a.fee == 0 && a.minimumAmountOut == 0
    && Usable(m, a.pool, w.history)
    && (forall k :: 0 <= k < |tokens| ==> IsTracked(plan.trackedTokens, tokens[k]))
    && answer.Some? && answer.value.0 <= x && |answer.value.1| == |tokens| && Sum(answer.value.1) <= MAX_UINT256
    && w'.pairs == w.pairs && w'.history == w.history + [call]
    && forall t: Address ::
         Bal(w'.balance, t)
         == Bal(w.balance, t) - (if t == a.pool then answer.value.0 else 0) + SumAt(tokens, answer.value.1, t)
  }

  /** All that is above the baseline of every token of a usable pool is offered. */
  ghost predicate Deposits(m: Market, plan: Plan, baselines: seq<nat>, a: Action, w: World, w': World)
    requires |plan.trackedTokens| == |baselines|
  {
    var tokens := m.earnPool(w.history, a.pool).tokens;
    && a.pool != ZERO && a.pool == a.tokenOut && a.tokenIn == ZERO && a.amountIn == 0 && a.fee == 0
    && Usable(m, a.pool, w.history)
    && exists amounts ::
         OffersAll(plan, baselines, w.balance, tokens, amounts) && RouterAdds(m, a, tokens, amounts, w, w')
  }

  predicate OffersAll(plan: Plan, baselines: seq<nat>, b: Balances, tokens: seq<Address>, amounts: seq<nat>)
    requires |plan.trackedTokens| == |baselines|
  {
    && |amounts| == |tokens|
    && forall k :: 0 <= k < |tokens| ==> MaySpend(plan, baselines, b, tokens[k], 0, amounts[k])
  }

  /** The router pulls no more of any token than it was offered, and nothing of the pool token, of which it pays what it
      reports and at least the minimum. */
  ghost predicate RouterAdds(m: Market, a: Action, tokens: seq<Address>, amounts: seq<nat>, w: World, w': World) {
    var call := EarnAddCall(a.pool, amounts, a.minimumAmountOut);
    var answer := m.earnAdd(w.history, call);
    && answer.Some? && |answer.value.0| == |tokens| == |amounts|
    && var (pulls, paid) := answer.value;
    && (forall k :: 0 <= k < |tokens| ==> SumAt(tokens, pulls, tokens[k]) <= amounts[k])
    && SumAt(tokens, pulls, a.pool) == 0 && a.minimumAmountOut <= paid
    && w'.pairs == w.pairs && w'.history == w.history + [call]
    && forall t: Address ::
         Bal(w'.balance, t) == Bal(w.balance, t) - SumAt(tokens, pulls, t) + (if t == a.pool then paid else 0)
  }

  lemma {:induction false} CreditAllAdds(b: Balances, tokens: seq<Address>, amounts: seq<nat>, t: Address)
    requires |tokens| == |amounts|
    ensures Bal(CreditAll(b, tokens, amounts), t) == Bal(b, t) + SumAt(tokens, amounts, t)
    decreases |tokens|
  {
    if tokens != [] {
      CreditAllAdds(Credit(b, tokens[0], amounts[0]), tokens[1..], amounts[1..], t);
      CreditBal(b, tokens[0], amounts[0]);
    }
  }

  lemma {:induction false} PullAllExactly(b: Balances, approved: Balances, tokens: seq<Address>, pulls: seq<nat>)
    requires |tokens| == |pulls| && forall t: Address :: Bal(approved, t) <= Bal(b, t)
    ensures PullAll(b, approved, tokens, pulls).Ok?
            <==> forall t: Address :: SumAt(tokens, pulls, t) <= Bal(approved, t)
    ensures PullAll(b, approved, tokens, pulls).Ok? ==>
              forall t: Address ::
                Bal(PullAll(b, approved, tokens, pulls).value, t) == Bal(b, t) - SumAt(tokens, pulls, t)
    decreases |tokens|
  {
    if tokens != [] {
      if pulls[0] <= Bal(approved, tokens[0]) {
        PutBal(approved, tokens[0], Bal(approved, tokens[0]) - pulls[0]);
        DebitBal(b, tokens[0], pulls[0]);
        PullAllExactly(Debit(b, tokens[0], pulls[0]).value,
                       Put(approved, tokens[0], Bal(approved, tokens[0]) - pulls[0]), tokens[1..], pulls[1..]);
      } else {
        assert SumAt(tokens, pulls, tokens[0]) > Bal(approved, tokens[0]);
      }
    }
  }

  lemma {:induction false} OffersAreAvailable(plan: Plan, baselines: seq<nat>, b: Balances, tokens: seq<Address>,
                                              amounts: seq<nat>)
    requires |plan.trackedTokens| == |baselines| && DistinctTracked(plan.trackedTokens)
    ensures AvailableAll(plan, baselines, b, tokens) == Ok(amounts) <==> OffersAll(plan, baselines, b, tokens, amounts)
  {
    if tokens != [] && |amounts| == |tokens| {
      var n := |tokens| - 1;
      OffersAreAvailable(plan, baselines, b, tokens[..n], amounts[..n]);
      AvailableExactly(plan, baselines, b, tokens[n], 0, amounts[n]);
      assert amounts == amounts[..n] + [amounts[n]];
      assert forall k :: 0 <= k < n ==> tokens[..n][k] == tokens[k] && amounts[..n][k] == amounts[k];
    }
  }

  /** What is approved for a deposit: each token's offer, and nothing else. */
  lemma ApprovedIsOffered(plan: Plan, baselines: seq<nat>, b: Balances, tokens: seq<Address>, amounts: seq<nat>)
    requires |plan.trackedTokens| == |baselines| && DistinctTracked(plan.trackedTokens)
    requires AvailableAll(plan, baselines, b, tokens) == Ok(amounts) && |amounts| == |tokens|
    ensures forall k :: 0 <= k < |tokens| ==> Bal(ApprovalsFor(tokens, amounts), tokens[k]) == amounts[k]
    ensures forall t: Address :: t !in tokens ==> Bal(ApprovalsFor(tokens, amounts), t) == 0
    ensures forall t: Address :: Bal(ApprovalsFor(tokens, amounts), t) <= Bal(b, t)
  {
    ApprovalsAreAvailable(plan, baselines, b, tokens);
    ApprovalsWithin(plan, baselines, b, tokens);
    OffersAreAvailable(plan, baselines, b, tokens, amounts);
    forall k | 0 <= k < |tokens| ensures Bal(ApprovalsFor(tokens, amounts), tokens[k]) == amounts[k] {
      assert tokens[k] in tokens;
      AvailableExactly(plan, baselines, b, tokens[k], 0, amounts[k]);
    }
  }

  lemma {:induction false} SumAtAbsent(tokens: seq<Address>, amounts: seq<nat>, t: Address)
    requires |tokens| == |amounts| && t !in tokens
    ensures SumAt(tokens, amounts, t) == 0
    decreases |tokens|
  {
    if tokens != [] {
      SumAtAbsent(tokens[1..], amounts[1..], t);
    }
  }

  lemma PullsWithinOffers(plan: Plan, baselines: seq<nat>, b: Balances, tokens: seq<Address>, amounts: seq<nat>,
                          pulls: seq<nat>)
    requires |plan.trackedTokens| == |baselines| && DistinctTracked(plan.trackedTokens)
    requires AvailableAll(plan, baselines, b, tokens) == Ok(amounts) && |pulls| == |tokens| == |amounts|
    ensures var pulled := PullAll(b, ApprovalsFor(tokens, amounts), tokens, pulls);
            && (pulled.Ok? <==> forall k :: 0 <= k < |tokens| ==> SumAt(tokens, pulls, tokens[k]) <= amounts[k])
            && (pulled.Ok? ==> forall t: Address :: Bal(pulled.value, t) == Bal(b, t) - SumAt(tokens, pulls, t))
  {
    var approved := ApprovalsFor(tokens, amounts);
    ApprovedIsOffered(plan, baselines, b, tokens, amounts);
    PullAllExactly(b, approved, tokens, pulls);
    if forall k :: 0 <= k < |tokens| ==> SumAt(tokens, pulls, tokens[k]) <= amounts[k] {
      forall t: Address ensures SumAt(tokens, pulls, t) <= Bal(approved, t) {
        if t in tokens {
          var k :| 0 <= k < |tokens| && tokens[k] == t;
        } else {
          SumAtAbsent(tokens, pulls, t);
        }
      }
    }
  }

  lemma RemovalSucceedsExactlyWhen(m: Market, plan: Plan, baselines: seq<nat>, a: Action, x: nat, w: World, w': World)
    requires |plan.trackedTokens| == |baselines| && a.kind.EarnRemoveProportional?
    requires Available(plan, baselines, w.balance, a.tokenIn, a.amountIn) == Ok(x) && x <= Bal(w.balance, a.tokenIn)
    ensures RunAction(m, plan, baselines, a, w).Ok? && SameWorld(RunAction(m, plan, baselines, a, w).value, w')
            <==> Removes(m, plan, a, x, w, w')
  {
    var tokens := m.earnPool(w.history, a.pool).tokens;
    var answer := m.earnRemove(w.history, EarnRemoveCall(a.pool, x));
    if answer.Some? && answer.value.0 <= x && |answer.value.1| == |tokens| && a.pool == a.tokenIn {
      DebitBal(w.balance, a.pool, answer.value.0);
      forall t: Address
        ensures Bal(CreditAll(Debit(w.balance, a.pool, answer.value.0).value, tokens, answer.value.1), t)
                == Bal(w.balance, t) - (if t == a.pool then answer.value.0 else 0) + SumAt(tokens, answer.value.1, t)
      {
        CreditAllAdds(Debit(w.balance, a.pool, answer.value.0).value, tokens, answer.value.1, t);
      }
    }
  }

  lemma RouterAddsExactly(m: Market, plan: Plan, baselines: seq<nat>, a: Action, tokens: seq<Address>,
                          amounts: seq<nat>, w: World, w': World)
    requires |plan.trackedTokens| == |baselines| && DistinctTracked(plan.trackedTokens)
    requires OffersAll(plan, baselines, w.balance, tokens, amounts) && a.pool != ZERO && a.pool == a.tokenOut
    ensures var step := DepositAll(m, plan, baselines, a, tokens, w);
            RouterAdds(m, a, tokens, amounts, w, w')
            <==> step.Ok? && SameWorld(step.value.world, w')
                 && Bal(step.value.world.balance, a.pool) == Bal(w.balance, a.pool) + step.value.amountOut
                 && a.minimumAmountOut <= step.value.amountOut
  {
    OffersAreAvailable(plan, baselines, w.balance, tokens, amounts);
    var answer := m.earnAdd(w.history, EarnAddCall(a.pool, amounts, a.minimumAmountOut));
    if answer.Some? && |answer.value.0| == |tokens| {
      PullsWithinOffers(plan, baselines, w.balance, tokens, amounts, answer.value.0);
      var pulled := PullAll(w.balance, ApprovalsFor(tokens, amounts), tokens, answer.value.0);
      if pulled.Ok? {
        CreditBal(pulled.value, a.pool, answer.value.1);
      }
    }
  }

  lemma DepositSucceedsExactlyWhen(m: Market, plan: Plan, baselines: seq<nat>, a: Action, w: World, w': World)
    requires |plan.trackedTokens| == |baselines| && DistinctTracked(plan.trackedTokens) && a.kind.EarnAddUnbalanced?
    ensures RunAction(m, plan, baselines, a, w).Ok? && SameWorld(RunAction(m, plan, baselines, a, w).value, w')
            <==> Deposits(m, plan, baselines, a, w, w')
  {
    var tokens := m.earnPool(w.history, a.pool).tokens;
    var offers := AvailableAll(plan, baselines, w.balance, tokens);
    forall amounts ensures OffersAll(plan, baselines, w.balance, tokens, amounts) <==> offers == Ok(amounts) {
      OffersAreAvailable(plan, baselines, w.balance, tokens, amounts);
    }
    if offers.Ok? && a.pool != ZERO && a.pool == a.tokenOut {
      RouterAddsExactly(m, plan, baselines, a, tokens, offers.value, w, w');
    }
  }

  // ---- any action ----

  /** What an action of any kind does to the world when it succeeds. */
  ghost predicate Obeys(m: Market, plan: Plan, baselines: seq<nat>, a: Action, w: World, w': World)
    requires |plan.trackedTokens| == |baselines|
  {
    if a.kind.EarnAddUnbalanced? then Deposits(m, plan, baselines, a, w, w')
    else
      exists x: nat :: MaySpend(plan, baselines, w.balance, a.tokenIn, a.amountIn, x)
                       && if a.kind.EarnRemoveProportional? then Removes(m, plan, a, x, w, w')
                          else Swaps(m, plan, a, x, w, w')
  }

  /** What every accepted plan says of its swaps. */
  predicate TwoTokens(a: Action) {
    IsSwap(a.kind) ==> a.tokenIn != a.tokenOut && a.tokenOut != ZERO
  }

  /** An action succeeds exactly when it can obey, and then it does: it offers its venue what it was asked to spend, or
      all above the baseline; the venue takes no more; the output check sees at least the minimum; every other balance,
      pair and call is as it was. */
  lemma ActionSucceedsExactlyWhen(m: Market, plan: Plan, baselines: seq<nat>, a: Action, w: World, w': World)
    requires |plan.trackedTokens| == |baselines| && DistinctTracked(plan.trackedTokens) && TwoTokens(a)
    ensures RunAction(m, plan, baselines, a, w).Ok? && SameWorld(RunAction(m, plan, baselines, a, w).value, w')
            <==> Obeys(m, plan, baselines, a, w, w')
  {
    if a.kind.EarnAddUnbalanced? {
      DepositSucceedsExactlyWhen(m, plan, baselines, a, w, w');
    } else {
      var available := Available(plan, baselines, w.balance, a.tokenIn, a.amountIn);
      forall x: nat
        ensures MaySpend(plan, baselines, w.balance, a.tokenIn, a.amountIn, x) <==> available == Ok(x)
      {
        AvailableExactly(plan, baselines, w.balance, a.tokenIn, a.amountIn, x);
      }
      if available.Ok? {
        if a.kind.EarnRemoveProportional? {
          RemovalSucceedsExactlyWhen(m, plan, baselines, a, available.value, w, w');
        } else {
          SwapSucceedsExactlyWhen(m, plan, baselines, a, available.value, w, w');
        }
      }
    }
  }

  /** Nothing depends on how the balances are written down. */
  lemma ObeysSame(m: Market, plan: Plan, baselines: seq<nat>, a: Action, v: World, w: World, w': World)
    requires |plan.trackedTokens| == |baselines| && SameWorld(v, w) && Obeys(m, plan, baselines, a, w, w')
    ensures Obeys(m, plan, baselines, a, v, w')
  {
    if a.kind.EarnAddUnbalanced? {
      DepositsSame(m, plan, baselines, a, v, w, w');
    } else {
      var x: nat :| MaySpend(plan, baselines, w.balance, a.tokenIn, a.amountIn, x)
                    && if a.kind.EarnRemoveProportional? then Removes(m, plan, a, x, w, w')
                       else Swaps(m, plan, a, x, w, w');
      SpendingSame(m, plan, a, x, v, w, w');
      assert MaySpend(plan, baselines, v.balance, a.tokenIn, a.amountIn, x);
    }
  }

  lemma DepositsSame(m: Market, plan: Plan, baselines: seq<nat>, a: Action, v: World, w: World, w': World)
    requires |plan.trackedTokens| == |baselines| && SameWorld(v, w) && Deposits(m, plan, baselines, a, w, w')
    ensures Deposits(m, plan, baselines, a, v, w')
  {
    var tokens := m.earnPool(w.history, a.pool).tokens;
    var amounts :| OffersAll(plan, baselines, w.balance, tokens, amounts) && RouterAdds(m, a, tokens, amounts, w, w');
    assert OffersAll(plan, baselines, v.balance, tokens, amounts);
    assert RouterAdds(m, a, tokens, amounts, v, w');
  }

  lemma SpendingSame(m: Market, plan: Plan, a: Action, x: nat, v: World, w: World, w': World)
    requires SameWorld(v, w)
    ensures Removes(m, plan, a, x, w, w') ==> Removes(m, plan, a, x, v, w')
    ensures Swaps(m, plan, a, x, w, w') ==> Swaps(m, plan, a, x, v, w')
  {
  }

  /** The tokens an accepted plan lets an action name. */
  predicate NamesTracked(plan: Plan, a: Action) {
    if IsSwap(a.kind) then
      TwoTokens(a) && IsTracked(plan.trackedTokens, a.tokenIn) && IsTracked(plan.trackedTokens, a.tokenOut)
    else IsTracked(plan.trackedTokens, a.pool)
  }

  /** No action moves a token the plan does not track, neither swap nor deposit nor removal. */
  lemma ActionTouchesTracked(m: Market, plan: Plan, baselines: seq<nat>, a: Action, w: World, w': World, t: Address)
    requires |plan.trackedTokens| == |baselines| && NamesTracked(plan, a) && Obeys(m, plan, baselines, a, w, w')
    requires !IsTracked(plan.trackedTokens, t)
    ensures Bal(w'.balance, t) == Bal(w.balance, t)
  {
    if !IsSwap(a.kind) {
      var tokens := m.earnPool(w.history, a.pool).tokens;
      if a.kind.EarnAddUnbalanced? {
        var amounts :| OffersAll(plan, baselines, w.balance, tokens, amounts)
          && RouterAdds(m, a, tokens, amounts, w, w');
        assert t !in tokens;
        var call := EarnAddCall(a.pool, amounts, a.minimumAmountOut);
        SumAtAbsent(tokens, m.earnAdd(w.history, call).value.0, t);
      } else {
        var x: nat :| MaySpend(plan, baselines, w.balance, a.tokenIn, a.amountIn, x) && Removes(m, plan, a, x, w, w');
        assert t !in tokens;
        SumAtAbsent(tokens, m.earnRemove(w.history, EarnRemoveCall(a.pool, x)).value.1, t);
      }
    }
  }

  // ---- a run ----

  /** The worlds before and after every action of a run. */
  ghost predicate Traced(m: Market, plan: Plan, baselines: seq<nat>, actions: seq<Action>, worlds: seq<World>)
    requires |plan.trackedTokens| == |baselines|
  {
    && |worlds| == |actions| + 1
    && forall k :: 0 <= k < |actions| ==> Obeys(m, plan, baselines, actions[k], worlds[k], worlds[k + 1])
  }

  ghost predicate Leads(m: Market, plan: Plan, baselines: seq<nat>, actions: seq<Action>, w: World, w': World)
    requires |plan.trackedTokens| == |baselines|
  {
    exists worlds :: Traced(m, plan, baselines, actions, worlds) && worlds[0] == w && SameWorld(worlds[|actions|], w')
  }

  lemma {:induction false} RunIsTraced(m: Market, plan: Plan, baselines: seq<nat>, actions: seq<Action>, w: World)
    returns (worlds: seq<World>)
    requires |plan.trackedTokens| == |baselines| && DistinctTracked(plan.trackedTokens)
    requires (forall k :: 0 <= k < |actions| ==> TwoTokens(actions[k]))
    requires RunActions(m, plan, baselines, actions, w).Ok?
    ensures Traced(m, plan, baselines, actions, worlds) && worlds[0] == w
    ensures worlds[|actions|] == RunActions(m, plan, baselines, actions, w).value
  {
    if actions == [] {
      worlds := [w];
    } else {
      var n := |actions| - 1;
      var front := RunIsTraced(m, plan, baselines, actions[..n], w);
      var last := RunActions(m, plan, baselines, actions, w).value;
      ActionSucceedsExactlyWhen(m, plan, baselines, actions[n], front[n], last);
      worlds := front + [last];
      TracedSnoc(m, plan, baselines, actions, front, last);
    }
  }

  lemma TracedSnoc(m: Market, plan: Plan, baselines: seq<nat>, actions: seq<Action>, front: seq<World>, last: World)
    requires |plan.trackedTokens| == |baselines| && actions != []
    requires Traced(m, plan, baselines, actions[..|actions| - 1], front)
    requires Obeys(m, plan, baselines, actions[|actions| - 1], front[|actions| - 1], last)
    ensures Traced(m, plan, baselines, actions, front + [last])
  {
    var n, worlds := |actions| - 1, front + [last];
    forall k | 0 <= k < |actions| ensures Obeys(m, plan, baselines, actions[k], worlds[k], worlds[k + 1]) {
      if k < n {
        assert Obeys(m, plan, baselines, actions[..n][k], front[k], front[k + 1]);
      }
    }
  }

  lemma {:induction false} TracedRuns(m: Market, plan: Plan, baselines: seq<nat>, actions: seq<Action>,
                                      worlds: seq<World>)
    requires |plan.trackedTokens| == |baselines| && DistinctTracked(plan.trackedTokens)
    requires (forall k :: 0 <= k < |actions| ==> TwoTokens(actions[k]))
    requires Traced(m, plan, baselines, actions, worlds)
    ensures RunActions(m, plan, baselines, actions, worlds[0]).Ok?
    ensures SameWorld(RunActions(m, plan, baselines, actions, worlds[0]).value, worlds[|actions|])
  {
    if actions != [] {
      var n := |actions| - 1;
      assert forall k :: 0 <= k < n ==> actions[..n][k] == actions[k];
      TracedRuns(m, plan, baselines, actions[..n], worlds[..n + 1]);
      var before := RunActions(m, plan, baselines, actions[..n], worlds[0]).value;
      ObeysSame(m, plan, baselines, actions[n], before, worlds[n], worlds[n + 1]);
      ActionSucceedsExactlyWhen(m, plan, baselines, actions[n], before, worlds[n + 1]);
    }
  }

  /** A run succeeds exactly when there are worlds from its start to its end that every action obeys. */
  lemma RunSucceedsExactlyWhen(m: Market, plan: Plan, baselines: seq<nat>, actions: seq<Action>, w: World, w': World)
    requires |plan.trackedTokens| == |baselines| && DistinctTracked(plan.trackedTokens)
    requires (forall k :: 0 <= k < |actions| ==> TwoTokens(actions[k]))
    ensures RunActions(m, plan, baselines, actions, w).Ok?
            && SameWorld(RunActions(m, plan, baselines, actions, w).value, w')
            <==> Leads(m, plan, baselines, actions, w, w')
  {
    var run := RunActions(m, plan, baselines, actions, w);
    if run.Ok? && SameWorld(run.value, w') {
      var worlds := RunIsTraced(m, plan, baselines, actions, w);
    }
    if Leads(m, plan, baselines, actions, w, w') {
      var worlds :| Traced(m, plan, baselines, actions, worlds) && worlds[0] == w && SameWorld(worlds[|actions|], w');
      TracedRuns(m, plan, baselines, actions, worlds);
    }
  }

  lemma {:induction false} RunTouchesTracked(m: Market, plan: Plan, baselines: seq<nat>, actions: seq<Action>, w: World,
                                             t: Address)
    requires |plan.trackedTokens| == |baselines| && DistinctTracked(plan.trackedTokens)
    requires forall k :: 0 <= k < |actions| ==> NamesTracked(plan, actions[k])
    requires RunActions(m, plan, baselines, actions, w).Ok? && !IsTracked(plan.trackedTokens, t)
    ensures Bal(RunActions(m, plan, baselines, actions, w).value.balance, t) == Bal(w.balance, t)
  {
    if actions != [] {
      var n := |actions| - 1;
      RunTouchesTracked(m, plan, baselines, actions[..n], w, t);
      var before := RunActions(m, plan, baselines, actions[..n], w).value;
      var after := RunActions(m, plan, baselines, actions, w).value;
      ActionSucceedsExactlyWhen(m, plan, baselines, actions[n], before, after);
      ActionTouchesTracked(m, plan, baselines, actions[n], before, after, t);
    }
  }
}
