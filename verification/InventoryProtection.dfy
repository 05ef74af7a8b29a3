// Every prefix of every action list leaves every tracked token at or above its baseline, although no
// final check of the contract looks at that lower bound.
module InventoryProtection {
  import opened Evm
  import opened Market
  import opened UniversalNet

  /** What the executor must keep of a token while a plan runs: the baseline of a tracked token, all it
      had of any other. */
  function Floor(plan: Plan, baselines: seq<nat>, start: Balances, token: Address): nat
    requires |plan.trackedTokens| == |baselines|
  {
    match BaselineFor(plan.trackedTokens, baselines, token)
    case Ok(baseline) => baseline
    case Err(_) => Bal(start, token)
  }

  ghost predicate Protected(plan: Plan, baselines: seq<nat>, start: Balances, b: Balances)
    requires |plan.trackedTokens| == |baselines|
  {
    forall t: Address :: Bal(b, t) >= Floor(plan, baselines, start, t)
  }

  /** What a `BaselineFor` lookup finds is the entry of the one tracked token with that address. */
  lemma {:induction false} BaselineForFinds(tracked: seq<Tracked>, baselines: seq<nat>, token: Address)
    requires |tracked| == |baselines|
    ensures BaselineFor(tracked, baselines, token).Ok? <==> IsTracked(tracked, token)
    ensures DistinctTracked(tracked) ==>
              forall i :: 0 <= i < |tracked| && tracked[i].token == token
                          ==> BaselineFor(tracked, baselines, token) == Ok(baselines[i])
  {
    if tracked != [] {
      BaselineForFinds(tracked[1..], baselines[1..], token);
      if tracked[0].token != token {
        assert forall i :: 1 <= i < |tracked| ==>
               tracked[i] == tracked[1..][i - 1] && baselines[i] == baselines[1..][i - 1];
        if IsTracked(tracked, token) {
          var i :| 0 <= i < |tracked| && tracked[i].token == token;
          assert tracked[1..][i - 1].token == token;
        }
      }
    }
  }

  /** Pulling at most what is approved, and only tracked tokens, never reaches below a baseline: each
      token's balance stays above its floor by what is still approved. */
  lemma {:induction false} PullAllKeepsFloors(b: Balances, approved: Balances, tokens: seq<Address>, pulls: seq<nat>,
                                              floor: Address -> nat)
    requires |tokens| == |pulls|
    requires forall t: Address :: Bal(b, t) >= floor(t) + Bal(approved, t)
    requires PullAll(b, approved, tokens, pulls).Ok?
    ensures forall t: Address :: Bal(PullAll(b, approved, tokens, pulls).value, t) >= floor(t)
    ensures forall t: Address :: Bal(PullAll(b, approved, tokens, pulls).value, t) <= Bal(b, t)
    decreases |tokens|
  {
    if tokens != [] {
      var left := Put(approved, tokens[0], Bal(approved, tokens[0]) - pulls[0]);
      PutBal(approved, tokens[0], Bal(approved, tokens[0]) - pulls[0]);
      DebitBal(b, tokens[0], pulls[0]);
      var b' := Debit(b, tokens[0], pulls[0]).value;
      PullAllKeepsFloors(b', left, tokens[1..], pulls[1..], floor);
    }
  }

  /** What gets approved for each token is exactly its available amount. */
  lemma {:induction false} ApprovalsAreAvailable(plan: Plan, baselines: seq<nat>, b: Balances, tokens: seq<Address>)
    requires |plan.trackedTokens| == |baselines|
    requires AvailableAll(plan, baselines, b, tokens).Ok?
    ensures var approvals := ApprovalsFor(tokens, AvailableAll(plan, baselines, b, tokens).value);
            && (forall t: Address :: t in tokens ==> Available(plan, baselines, b, t, 0) == Ok(Bal(approvals, t)))
            && (forall t: Address :: t !in tokens ==> Bal(approvals, t) == 0)
  {
    if tokens != [] {
      var n := |tokens| - 1;
      ApprovalsAreAvailable(plan, baselines, b, tokens[..n]);
      var amounts := AvailableAll(plan, baselines, b, tokens).value;
      assert amounts[..n] == AvailableAll(plan, baselines, b, tokens[..n]).value;
      PutBal(ApprovalsFor(tokens[..n], amounts[..n]), tokens[n], amounts[n]);
      assert tokens == tokens[..n] + [tokens[n]];
    }
  }

  lemma ApprovalsWithin(plan: Plan, baselines: seq<nat>, b: Balances, tokens: seq<Address>)
    requires |plan.trackedTokens| == |baselines| && AvailableAll(plan, baselines, b, tokens).Ok?
    ensures forall t: Address ::
              Bal(ApprovalsFor(tokens, AvailableAll(plan, baselines, b, tokens).value), t) <= Bal(b, t)
  {
    ApprovalsAreAvailable(plan, baselines, b, tokens);
    var approved := ApprovalsFor(tokens, AvailableAll(plan, baselines, b, tokens).value);
    forall t: Address ensures Bal(approved, t) <= Bal(b, t) {
      if t in tokens {
        assert Available(plan, baselines, b, t, 0) == Ok(Bal(approved, t));
      }
    }
  }

  lemma {:induction false} CreditAllOnlyAdds(b: Balances, tokens: seq<Address>, amounts: seq<nat>)
    requires |tokens| == |amounts|
    ensures forall t: Address :: Bal(CreditAll(b, tokens, amounts), t) >= Bal(b, t)
    decreases |tokens|
  {
    if tokens != [] {
      CreditAllOnlyAdds(Credit(b, tokens[0], amounts[0]), tokens[1..], amounts[1..]);
    }
  }

  /** Approving what is available leaves every floor out of reach of the approvals. */
  lemma ApprovalsSpareFloors(plan: Plan, baselines: seq<nat>, b: Balances, tokens: seq<Address>, start: Balances)
    requires |plan.trackedTokens| == |baselines|
    requires Protected(plan, baselines, start, b)
    requires AvailableAll(plan, baselines, b, tokens).Ok?
    ensures var approved := ApprovalsFor(tokens, AvailableAll(plan, baselines, b, tokens).value);
            forall t: Address :: Bal(b, t) >= Floor(plan, baselines, start, t) + Bal(approved, t)
  {
    var approved := ApprovalsFor(tokens, AvailableAll(plan, baselines, b, tokens).value);
    ApprovalsAreAvailable(plan, baselines, b, tokens);
    forall t: Address ensures Bal(b, t) >= Floor(plan, baselines, start, t) + Bal(approved, t) {
      if t in tokens {
        assert Available(plan, baselines, b, t, 0) == Ok(Bal(approved, t));
      }
    }
  }

  lemma DepositProtects(m: Market, plan: Plan, baselines: seq<nat>, a: Action, tokens: seq<Address>, w: World,
                        start: Balances)
    requires |plan.trackedTokens| == |baselines|
    requires Protected(plan, baselines, start, w.balance)
    requires DepositAll(m, plan, baselines, a, tokens, w).Ok?
    ensures Protected(plan, baselines, start, DepositAll(m, plan, baselines, a, tokens, w).value.world.balance)
  {
    var amounts := AvailableAll(plan, baselines, w.balance, tokens).value;
    var approved := ApprovalsFor(tokens, amounts);
    ApprovalsSpareFloors(plan, baselines, w.balance, tokens, start);
    var pulls := m.earnAdd(w.history, EarnAddCall(a.pool, amounts, a.minimumAmountOut)).value.0;
    PullAllKeepsFloors(w.balance, approved, tokens, pulls, t => Floor(plan, baselines, start, t));
  }

  lemma RemoveEarnProtects(m: Market, plan: Plan, baselines: seq<nat>, a: Action, x: nat, w: World, start: Balances)
    requires |plan.trackedTokens| == |baselines|
    requires Protected(plan, baselines, start, w.balance)
    requires Available(plan, baselines, w.balance, a.tokenIn, a.amountIn) == Ok(x)
    requires RemoveEarn(m, plan, a, x, w).Ok?
    ensures Protected(plan, baselines, start, RemoveEarn(m, plan, a, x, w).value.world.balance)
  {
    var tokens := EarnPoolTokens(m, a.pool, w.history).value;
    var (pulled, outputs) := m.earnRemove(w.history, EarnRemoveCall(a.pool, x)).value;
    CreditAllOnlyAdds(Debit(w.balance, a.pool, pulled).value, tokens, outputs);
  }

  lemma FillSpendsAtMost(m: Market, a: Action, x: nat, deadline: nat, pairs: map<Address, Pair>, h: History)
    requires 0 < x && IsSwap(a.kind) && FillOf(m, a, x, deadline, pairs, h).Ok?
    ensures FillOf(m, a, x, deadline, pairs, h).value.spent <= x
  {
  }

  /** One action of any kind keeps every floor. */
  lemma ActionProtects(m: Market, plan: Plan, baselines: seq<nat>, a: Action, w: World, start: Balances)
    requires |plan.trackedTokens| == |baselines|
    requires Protected(plan, baselines, start, w.balance)
    requires RunAction(m, plan, baselines, a, w).Ok?
    ensures Protected(plan, baselines, start, RunAction(m, plan, baselines, a, w).value.balance)
  {
    if a.kind.EarnAddUnbalanced? {
      DepositProtects(m, plan, baselines, a, EarnPoolTokens(m, a.pool, w.history).value, w, start);
    } else {
      var x := Available(plan, baselines, w.balance, a.tokenIn, a.amountIn).value;
      if a.kind.EarnRemoveProportional? {
        RemoveEarnProtects(m, plan, baselines, a, x, w, start);
      } else {
        FillSpendsAtMost(m, a, x, plan.deadline, w.pairs, w.history);
      }
    }
  }

  /** Inventory protection: whatever the plan, the market and the stopping point, no tracked token is ever
      below its baseline and no untracked token is ever below what the executor started with. */
  lemma {:induction false} EveryPrefixProtects(m: Market, plan: Plan, baselines: seq<nat>, actions: seq<Action>,
                                               w: World, k: nat)
    requires |plan.trackedTokens| == |baselines| && k <= |actions|
    requires Protected(plan, baselines, w.balance, w.balance)
    requires RunActions(m, plan, baselines, actions[..k], w).Ok?
    ensures Protected(plan, baselines, w.balance, RunActions(m, plan, baselines, actions[..k], w).value.balance)
  {
    if k > 0 {
      assert actions[..k][..k - 1] == actions[..k - 1];
      EveryPrefixProtects(m, plan, baselines, actions, w, k - 1);
      ActionProtects(m, plan, baselines, actions[k - 1],
                     RunActions(m, plan, baselines, actions[..k - 1], w).value, w.balance);
    }
  }

  lemma {:induction false} FirstActionRan(m: Market, plan: Plan, baselines: seq<nat>, actions: seq<Action>, w: World)
    requires |plan.trackedTokens| == |baselines|
    requires actions != [] && RunActions(m, plan, baselines, actions, w).Ok?
    ensures RunAction(m, plan, baselines, actions[0], w).Ok?
  {
    var n := |actions| - 1;
    if n > 0 {
      FirstActionRan(m, plan, baselines, actions[..n], w);
    } else {
      assert actions[..n] == [];
    }
  }

  /** A snapshot lists, token by token, the balance less any settlement principal. */
  lemma {:induction false} BaselinesAt(tracked: seq<Tracked>, settlement: Address, principal: nat, b: Balances)
    requires Baselines(tracked, settlement, principal, b).Ok?
    ensures var s := Baselines(tracked, settlement, principal, b).value;
            && |s| == |tracked|
            && forall i :: 0 <= i < |tracked| ==>
                 Bal(b, tracked[i].token) == s[i] + if tracked[i].token == settlement then principal else 0
  {
    if tracked != [] {
      BaselinesAt(tracked[1..], settlement, principal, b);
    }
  }

  /** A fresh snapshot never exceeds the balances it was taken from. */
  lemma SnapshotProtected(plan: Plan, principal: nat, b: Balances)
    requires Baselines(plan.trackedTokens, plan.settlementToken, principal, b).Ok?
    ensures var baselines := Baselines(plan.trackedTokens, plan.settlementToken, principal, b).value;
            |plan.trackedTokens| == |baselines| && Protected(plan, baselines, b, b)
  {
    BaselinesAt(plan.trackedTokens, plan.settlementToken, principal, b);
    var baselines := Baselines(plan.trackedTokens, plan.settlementToken, principal, b).value;
    forall t: Address ensures Bal(b, t) >= Floor(plan, baselines, b, t) {
      FloorIsSomeEntry(plan.trackedTokens, baselines, t);
    }
  }

  lemma {:induction false} FloorIsSomeEntry(tracked: seq<Tracked>, baselines: seq<nat>, token: Address)
    requires |tracked| == |baselines|
    ensures BaselineFor(tracked, baselines, token).Ok? ==>
              exists i :: 0 <= i < |tracked| && tracked[i].token == token
                          && baselines[i] == BaselineFor(tracked, baselines, token).value
  {
    if tracked != [] && tracked[0].token != token {
      FloorIsSomeEntry(tracked[1..], baselines[1..], token);
      if BaselineFor(tracked, baselines, token).Ok? {
        var i :| 0 <= i < |tracked| - 1 && tracked[1..][i].token == token
                 && baselines[1..][i] == BaselineFor(tracked[1..], baselines[1..], token).value;
        assert tracked[i + 1].token == token && baselines[i + 1] == baselines[1..][i];
      }
    }
  }
}
