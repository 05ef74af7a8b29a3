// Inventory funding, flash funding and quoting are one computation: a run depends on how far each balance
// is above its baseline, never on the balance itself.
module FundingModes {
  import opened Evm
  import opened Market
  import opened UniversalNet
  import opened InventoryProtection

  /** `c` is `b` with `principal` more of the settlement token. */
  ghost predicate Raised(b: Balances, c: Balances, settlement: Address, principal: nat) {
    forall t: Address :: Bal(c, t) == Bal(b, t) + if t == settlement then principal else 0
  }

  ghost predicate RaisedBaselines(tracked: seq<Tracked>, s: seq<nat>, s': seq<nat>, settlement: Address,
                                  principal: nat) {
    && |tracked| == |s| == |s'|
    && forall i :: 0 <= i < |tracked| ==> s'[i] == s[i] + if tracked[i].token == settlement then principal else 0
  }

  ghost predicate RaisedWorld(w: World, w': World, settlement: Address, principal: nat) {
    Raised(w.balance, w'.balance, settlement, principal) && w.pairs == w'.pairs && w.history == w'.history
  }

  /** Two outcomes that succeed together in raised worlds, or fail alike. */
  ghost predicate SameUpToFunding(r: Outcome<World>, r': Outcome<World>, settlement: Address, principal: nat) {
    match (r, r')
    case (Ok(w), Ok(w')) => RaisedWorld(w, w', settlement, principal)
    case (Err(e), Err(e')) => e == e'
    case _ => false
  }

  lemma {:induction false} BaselineForRaised(tracked: seq<Tracked>, s: seq<nat>, s': seq<nat>, token: Address,
                                             settlement: Address, principal: nat)
    requires RaisedBaselines(tracked, s, s', settlement, principal)
    ensures match (BaselineFor(tracked, s, token), BaselineFor(tracked, s', token))
            case (Ok(x), Ok(x')) => x' == x + (if token == settlement then principal else 0)
            case (Err(e), Err(e')) => e == e'
            case _ => false
  {
    if tracked != [] && tracked[0].token != token {
      BaselineForRaised(tracked[1..], s[1..], s'[1..], token, settlement, principal);
    }
  }

  lemma AvailableRaised(plan: Plan, s: seq<nat>, s': seq<nat>, b: Balances, c: Balances, token: Address, requested: nat,
                        principal: nat)
    requires RaisedBaselines(plan.trackedTokens, s, s', plan.settlementToken, principal)
    requires Raised(b, c, plan.settlementToken, principal)
    ensures Available(plan, s, b, token, requested) == Available(plan, s', c, token, requested)
  {
    BaselineForRaised(plan.trackedTokens, s, s', token, plan.settlementToken, principal);
  }

  lemma {:induction false} AvailableAllRaised(plan: Plan, s: seq<nat>, s': seq<nat>, b: Balances, c: Balances,
                                              tokens: seq<Address>, principal: nat)
    requires RaisedBaselines(plan.trackedTokens, s, s', plan.settlementToken, principal)
    requires Raised(b, c, plan.settlementToken, principal)
    ensures AvailableAll(plan, s, b, tokens) == AvailableAll(plan, s', c, tokens)
  {
    if tokens != [] {
      AvailableAllRaised(plan, s, s', b, c, tokens[..|tokens| - 1], principal);
      AvailableRaised(plan, s, s', b, c, tokens[|tokens| - 1], 0, principal);
    }
  }

  lemma CreditRaised(b: Balances, c: Balances, token: Address, amount: nat, settlement: Address, principal: nat)
    requires Raised(b, c, settlement, principal)
    ensures Raised(Credit(b, token, amount), Credit(c, token, amount), settlement, principal)
  {
    CreditBal(b, token, amount);
    CreditBal(c, token, amount);
  }

  lemma DebitRaised(b: Balances, c: Balances, token: Address, amount: nat, settlement: Address, principal: nat)
    requires Raised(b, c, settlement, principal)
    requires amount <= Bal(b, token)
    ensures Debit(b, token, amount).Ok? && Debit(c, token, amount).Ok?
    ensures Raised(Debit(b, token, amount).value, Debit(c, token, amount).value, settlement, principal)
  {
    assert Bal(c, token) >= Bal(b, token);
    DebitBal(b, token, amount);
    DebitBal(c, token, amount);
  }

  lemma {:induction false} PullAllRaised(b: Balances, c: Balances, approved: Balances, tokens: seq<Address>,
                                         pulls: seq<nat>, settlement: Address, principal: nat)
    requires |tokens| == |pulls|
    requires Raised(b, c, settlement, principal)
    requires forall t: Address :: Bal(approved, t) <= Bal(b, t)
    ensures match (PullAll(b, approved, tokens, pulls), PullAll(c, approved, tokens, pulls))
            case (Ok(x), Ok(y)) => Raised(x, y, settlement, principal)
            case (Err(e), Err(e')) => e == e'
            case _ => false
    decreases |tokens|
  {
    if tokens != [] && pulls[0] <= Bal(approved, tokens[0]) {
      DebitRaised(b, c, tokens[0], pulls[0], settlement, principal);
      var b' := Debit(b, tokens[0], pulls[0]).value;
      var c' := Debit(c, tokens[0], pulls[0]).value;
      var left := Put(approved, tokens[0], Bal(approved, tokens[0]) - pulls[0]);
      DebitBal(b, tokens[0], pulls[0]);
      PutBal(approved, tokens[0], Bal(approved, tokens[0]) - pulls[0]);
      PullAllRaised(b', c', left, tokens[1..], pulls[1..], settlement, principal);
    }
  }

  lemma {:induction false} CreditAllRaised(b: Balances, c: Balances, tokens: seq<Address>, amounts: seq<nat>,
                                           settlement: Address, principal: nat)
    requires |tokens| == |amounts|
    requires Raised(b, c, settlement, principal)
    ensures Raised(CreditAll(b, tokens, amounts), CreditAll(c, tokens, amounts), settlement, principal)
    decreases |tokens|
  {
    if tokens != [] {
      CreditRaised(b, c, tokens[0], amounts[0], settlement, principal);
      CreditAllRaised(Credit(b, tokens[0], amounts[0]), Credit(c, tokens[0], amounts[0]), tokens[1..], amounts[1..],
                      settlement, principal);
    }
  }

  ghost predicate SameStep(r: Outcome<Step>, r': Outcome<Step>, settlement: Address, principal: nat) {
    match (r, r')
    case (Ok(s), Ok(s')) => RaisedWorld(s.world, s'.world, settlement, principal) && s.amountOut == s'.amountOut
    case (Err(e), Err(e')) => e == e'
    case _ => false
  }

  lemma DepositRaised(m: Market, plan: Plan, s: seq<nat>, s': seq<nat>, a: Action, tokens: seq<Address>, w: World,
                      w': World, principal: nat)
    requires RaisedBaselines(plan.trackedTokens, s, s', plan.settlementToken, principal)
    requires RaisedWorld(w, w', plan.settlementToken, principal)
    ensures SameStep(DepositAll(m, plan, s, a, tokens, w), DepositAll(m, plan, s', a, tokens, w'), plan.settlementToken,
                     principal)
  {
    AvailableAllRaised(plan, s, s', w.balance, w'.balance, tokens, principal);
    var amounts := AvailableAll(plan, s, w.balance, tokens);
    if amounts.Ok? {
      ApprovalsWithin(plan, s, w.balance, tokens);
      var approved := ApprovalsFor(tokens, amounts.value);
      var response := m.earnAdd(w.history, EarnAddCall(a.pool, amounts.value, a.minimumAmountOut));
      if response.Some? && |response.value.0| == |tokens| {
        PullAllRaised(w.balance, w'.balance, approved, tokens, response.value.0, plan.settlementToken, principal);
        var pulled := PullAll(w.balance, approved, tokens, response.value.0);
        if pulled.Ok? {
          CreditRaised(pulled.value, PullAll(w'.balance, approved, tokens, response.value.0).value, a.pool,
                       response.value.1, plan.settlementToken, principal);
        }
      }
    }
  }

  lemma AddEarnRaised(m: Market, plan: Plan, s: seq<nat>, s': seq<nat>, a: Action, w: World, w': World, principal: nat)
    requires RaisedBaselines(plan.trackedTokens, s, s', plan.settlementToken, principal)
    requires RaisedWorld(w, w', plan.settlementToken, principal)
    ensures SameStep(AddEarn(m, plan, s, a, w), AddEarn(m, plan, s', a, w'), plan.settlementToken, principal)
  {
    var tokens := EarnPoolTokens(m, a.pool, w.history);
    if tokens.Ok? {
      DepositRaised(m, plan, s, s', a, tokens.value, w, w', principal);
    }
  }

  lemma RemoveEarnRaised(m: Market, plan: Plan, a: Action, x: nat, w: World, w': World, principal: nat)
    requires RaisedWorld(w, w', plan.settlementToken, principal)
    requires x <= Bal(w.balance, a.tokenIn)
    ensures SameStep(RemoveEarn(m, plan, a, x, w), RemoveEarn(m, plan, a, x, w'), plan.settlementToken, principal)
  {
    var r, r' := RemoveEarn(m, plan, a, x, w), RemoveEarn(m, plan, a, x, w');
    var response := m.earnRemove(w.history, EarnRemoveCall(a.pool, x));
    var tokens := EarnPoolTokens(m, a.pool, w.history);
    if response.Some? && response.value.0 <= x && tokens.Ok? && |response.value.1| == |tokens.value|
       && a.pool == a.tokenIn
    {
      DebitRaised(w.balance, w'.balance, a.pool, response.value.0, plan.settlementToken, principal);
      CreditAllRaised(Debit(w.balance, a.pool, response.value.0).value,
                      Debit(w'.balance, a.pool, response.value.0).value,
                      tokens.value, response.value.1, plan.settlementToken, principal);
    }
  }

  lemma SwapRaised(m: Market, plan: Plan, a: Action, x: nat, w: World, w': World, principal: nat)
    requires 0 < x && IsSwap(a.kind)
    requires RaisedWorld(w, w', plan.settlementToken, principal)
    requires x <= Bal(w.balance, a.tokenIn)
    ensures SameStep(Swap(m, plan, a, x, w), Swap(m, plan, a, x, w'), plan.settlementToken, principal)
  {
    var fill := FillOf(m, a, x, plan.deadline, w.pairs, w.history);
    if fill.Ok? {
      FillSpendsAtMost(m, a, x, plan.deadline, w.pairs, w.history);
      DebitRaised(w.balance, w'.balance, a.tokenIn, fill.value.spent, plan.settlementToken, principal);
      CreditRaised(Debit(w.balance, a.tokenIn, fill.value.spent).value,
                   Debit(w'.balance, a.tokenIn, fill.value.spent).value,
                   fill.value.token, fill.value.received, plan.settlementToken, principal);
    }
  }

  lemma ActionRaised(m: Market, plan: Plan, s: seq<nat>, s': seq<nat>, a: Action, w: World, w': World, principal: nat)
    requires RaisedBaselines(plan.trackedTokens, s, s', plan.settlementToken, principal)
    requires RaisedWorld(w, w', plan.settlementToken, principal)
    ensures SameUpToFunding(RunAction(m, plan, s, a, w), RunAction(m, plan, s', a, w'), plan.settlementToken, principal)
  {
    if a.kind.EarnAddUnbalanced? {
      AddEarnRaised(m, plan, s, s', a, w, w', principal);
    } else {
      AvailableRaised(plan, s, s', w.balance, w'.balance, a.tokenIn, a.amountIn, principal);
      var available := Available(plan, s, w.balance, a.tokenIn, a.amountIn);
      if available.Ok? {
        if a.kind.EarnRemoveProportional? {
          RemoveEarnRaised(m, plan, a, available.value, w, w', principal);
        } else {
          SwapRaised(m, plan, a, available.value, w, w', principal);
        }
      }
    }
  }

  /** A whole run is blind to funding: raise the settlement balance and its baseline together, and every
      action does the same thing, so the pools see exactly the same calls. */
  lemma {:induction false} RunRaised(m: Market, plan: Plan, s: seq<nat>, s': seq<nat>, actions: seq<Action>,
                                     w: World, w': World, principal: nat)
    requires RaisedBaselines(plan.trackedTokens, s, s', plan.settlementToken, principal)
    requires RaisedWorld(w, w', plan.settlementToken, principal)
    ensures SameUpToFunding(RunActions(m, plan, s, actions, w), RunActions(m, plan, s', actions, w'),
                            plan.settlementToken, principal)
  {
    if actions != [] {
      var n := |actions| - 1;
      RunRaised(m, plan, s, s', actions[..n], w, w', principal);
      var before := RunActions(m, plan, s, actions[..n], w);
      if before.Ok? {
        ActionRaised(m, plan, s, s', actions[n], before.value, RunActions(m, plan, s', actions[..n], w').value,
                     principal);
      }
    }
  }

  lemma ResidualsRaised(plan: Plan, s: seq<nat>, s': seq<nat>, b: Balances, c: Balances, principal: nat)
    requires RaisedBaselines(plan.trackedTokens, s, s', plan.settlementToken, principal)
    requires Raised(b, c, plan.settlementToken, principal)
    ensures ResidualsOk(plan, s, b) <==> ResidualsOk(plan, s', c)
  {
    forall i | 0 <= i < |plan.trackedTokens|
      ensures plan.trackedTokens[i].token != plan.settlementToken ==>
                Bal(b, plan.trackedTokens[i].token) == Bal(c, plan.trackedTokens[i].token) && s[i] == s'[i]
    {
    }
  }

  /** With enough inventory the inventory snapshot succeeds, and the flash snapshot is the same one raised
      by the principal. */
  lemma {:induction false} SnapshotsRaised(tracked: seq<Tracked>, settlement: Address, principal: nat, b: Balances)
    requires principal <= Bal(b, settlement)
    ensures var s := Baselines(tracked, settlement, principal, b);
            var s' := Baselines(tracked, settlement, 0, b);
            s.Ok? && s'.Ok? && RaisedBaselines(tracked, s.value, s'.value, settlement, principal)
  {
    if tracked != [] {
      SnapshotsRaised(tracked[1..], settlement, principal, b);
    }
  }

  // ---- which errors a run can end with ----

  lemma {:induction false} PullErrors(b: Balances, approved: Balances, tokens: seq<Address>, pulls: seq<nat>)
    requires |tokens| == |pulls|
    ensures PullAll(b, approved, tokens, pulls).Err? ==> !PullAll(b, approved, tokens, pulls).error.ProfitTooLow?
    decreases |tokens|
  {
    if tokens != [] && PullAll(b, approved, tokens, pulls).Err? && pulls[0] <= Bal(approved, tokens[0])
       && pulls[0] <= Bal(b, tokens[0]) {
      PullErrors(Debit(b, tokens[0], pulls[0]).value, Put(approved, tokens[0], Bal(approved, tokens[0]) - pulls[0]),
                 tokens[1..], pulls[1..]);
    }
  }

  lemma {:induction false} BaselineErrors(tracked: seq<Tracked>, baselines: seq<nat>, token: Address)
    requires |tracked| == |baselines|
    ensures BaselineFor(tracked, baselines, token).Err? ==> BaselineFor(tracked, baselines, token).error == InvalidPlan
  {
    if tracked != [] {
      BaselineErrors(tracked[1..], baselines[1..], token);
    }
  }

  lemma {:induction false} AvailableErrors(plan: Plan, baselines: seq<nat>, b: Balances, tokens: seq<Address>)
    requires |plan.trackedTokens| == |baselines|
    ensures AvailableAll(plan, baselines, b, tokens).Err? ==>
            !AvailableAll(plan, baselines, b, tokens).error.ProfitTooLow?
  {
    if tokens != [] {
      AvailableErrors(plan, baselines, b, tokens[..|tokens| - 1]);
      BaselineErrors(plan.trackedTokens, baselines, tokens[|tokens| - 1]);
    }
  }

  lemma StepErrors(m: Market, plan: Plan, baselines: seq<nat>, a: Action, w: World)
    requires |plan.trackedTokens| == |baselines|
    ensures StepOf(m, plan, baselines, a, w).Err? ==> !StepOf(m, plan, baselines, a, w).error.ProfitTooLow?
  {
    BaselineErrors(plan.trackedTokens, baselines, a.tokenIn);
    if a.kind.EarnAddUnbalanced? {
      var tokens := EarnPoolTokens(m, a.pool, w.history);
      if tokens.Ok? {
        AvailableErrors(plan, baselines, w.balance, tokens.value);
        var amounts := AvailableAll(plan, baselines, w.balance, tokens.value);
        if amounts.Ok? {
          var answer := m.earnAdd(w.history, EarnAddCall(a.pool, amounts.value, a.minimumAmountOut));
          if answer.Some? && |answer.value.0| == |tokens.value| {
            PullErrors(w.balance, ApprovalsFor(tokens.value, amounts.value), tokens.value, answer.value.0);
          }
        }
      }
    }
  }

  lemma {:induction false} ValidateErrors(plan: Plan, actions: seq<Action>)
    ensures ValidateActions(plan, actions).Err? ==> !ValidateActions(plan, actions).error.ProfitTooLow?
  {
    if actions != [] {
      ValidateErrors(plan, actions[1..]);
    }
  }

  lemma {:induction false} RunErrors(m: Market, plan: Plan, baselines: seq<nat>, actions: seq<Action>, w: World)
    requires |plan.trackedTokens| == |baselines|
    ensures RunActions(m, plan, baselines, actions, w).Err? ==>
            !RunActions(m, plan, baselines, actions, w).error.ProfitTooLow?
  {
    if actions != [] {
      var n := |actions| - 1;
      RunErrors(m, plan, baselines, actions[..n], w);
      var before := RunActions(m, plan, baselines, actions[..n], w);
      if before.Ok? {
        StepErrors(m, plan, baselines, actions[n], before.value);
      }
    }
  }

  lemma LoanErrors(m: Market, plan: Plan, principal: nat, now: nat, w: World)
    requires ValidatePlan(plan, now).Ok?
    ensures BorrowAndRun(m, plan, principal, now, w).Err? ==>
            !BorrowAndRun(m, plan, principal, now, w).error.ProfitTooLow?
  {
    var baselines := Baselines(plan.trackedTokens, plan.settlementToken, 0, w.balance);
    SnapshotErrors(plan.trackedTokens, plan.settlementToken, 0, w.balance);
    if baselines.Ok? {
      BaselinesLength(plan.trackedTokens, plan.settlementToken, 0, w.balance);
      RunErrors(m, plan, baselines.value, plan.actions,
                w.(balance := Credit(w.balance, plan.settlementToken, principal)));
      BaselineErrors(plan.trackedTokens, baselines.value, plan.settlementToken);
    }
  }

  lemma {:induction false} SnapshotErrors(tracked: seq<Tracked>, settlement: Address, principal: nat, b: Balances)
    ensures Baselines(tracked, settlement, principal, b).Err? ==>
              Baselines(tracked, settlement, principal, b).error == InsufficientPrincipal
  {
    if tracked != [] {
      SnapshotErrors(tracked[1..], settlement, principal, b);
    }
  }

  // ---- agreement ----

  /** The flash settlement adds the minimum profit to what is owed in a checked addition. */
  predicate FloorOverflows(plan: Plan, principal: nat, w: World) {
    Bal(w.balance, plan.settlementToken) + principal + plan.minimumProfit > MAX_UINT256
  }

  /** The same profit, the same final balances, the same reserves and the same calls to every pool; or the
      same error, except that the flash settlement panics where its checked addition overflows. */
  ghost predicate SameReceipt(plan: Plan, principal: nat, w: World, r: Outcome<Receipt>, r': Outcome<Receipt>) {
    match (r, r')
    case (Ok(i), Ok(f)) =>
      && i.grossProfit == f.grossProfit
      && SameBalances(i.world.balance, f.world.balance)
      && i.world.pairs == f.world.pairs
      && i.world.history == f.world.history
    case (Err(e), Err(e')) => e' == if e.ProfitTooLow? && FloorOverflows(plan, principal, w) then Panic else e
    case _ => false
  }

  /** Funding modes are interchangeable: with enough inventory and enough loan liquidity, both entry points
      succeed with the same receipt or revert with the same error, for every plan, market and state. Without a
      principal both revert: nothing is above its baseline to act on, and nothing is lent. */
  lemma FundingModesAgree(m: Market, plan: Plan, principal: nat, now: nat, w: World)
    requires principal <= Bal(w.balance, plan.settlementToken)
    requires principal <= m.loanLiquidity(plan.settlementToken)
    ensures var inventory := ExecuteWithInventory(m, plan, principal, now, w);
            var flash := ExecuteWithFlash(m, plan, principal, now, w);
            if principal == 0 then inventory.Err? && flash.Err? else SameReceipt(plan, principal, w, inventory, flash)
  {
    ValidateErrors(plan, plan.actions);
    if ValidatePlan(plan, now).Ok? {
      if principal == 0 {
        NothingToSpend(m, plan, now, w);
      } else {
        FundedModesAgree(m, plan, principal, now, w);
      }
    }
  }

  lemma NothingToSpend(m: Market, plan: Plan, now: nat, w: World)
    requires ValidatePlan(plan, now).Ok?
    ensures ExecuteWithInventory(m, plan, 0, now, w).Err?
  {
    var snapshot := Baselines(plan.trackedTokens, plan.settlementToken, 0, w.balance);
    if snapshot.Ok? {
      BaselinesAt(plan.trackedTokens, plan.settlementToken, 0, w.balance);
      var baselines := snapshot.value;
      if RunActions(m, plan, baselines, plan.actions, w).Ok? {
        FirstActionRan(m, plan, baselines, plan.actions, w);
        ActionNeedsBalance(m, plan, baselines, plan.actions[0], w);
      }
    }
  }

  /** With every tracked token at its baseline no action finds anything to act on. */
  lemma ActionNeedsBalance(m: Market, plan: Plan, baselines: seq<nat>, a: Action, w: World)
    requires |plan.trackedTokens| == |baselines| && DistinctTracked(plan.trackedTokens)
    requires forall i :: 0 <= i < |baselines| ==> baselines[i] == Bal(w.balance, plan.trackedTokens[i].token)
    ensures RunAction(m, plan, baselines, a, w).Err?
  {
    forall t: Address
      ensures Available(plan, baselines, w.balance, t, a.amountIn).Err?
              && Available(plan, baselines, w.balance, t, 0).Err?
    {
      BaselineForFinds(plan.trackedTokens, baselines, t);
    }
  }

  lemma FundedModesAgree(m: Market, plan: Plan, principal: nat, now: nat, w: World)
    requires ValidatePlan(plan, now).Ok?
    requires 0 < principal <= Bal(w.balance, plan.settlementToken)
    requires principal <= m.loanLiquidity(plan.settlementToken)
    ensures SameReceipt(plan, principal, w, ExecuteWithInventory(m, plan, principal, now, w),
                        ExecuteWithFlash(m, plan, principal, now, w))
  {
    var settlement := plan.settlementToken;
    SnapshotsRaised(plan.trackedTokens, settlement, principal, w.balance);
    var s := Baselines(plan.trackedTokens, settlement, principal, w.balance).value;
    var s' := Baselines(plan.trackedTokens, settlement, 0, w.balance).value;
    var funded := w.(balance := Credit(w.balance, settlement, principal));
    RunRaised(m, plan, s, s', plan.actions, w, funded, principal);
    RunErrors(m, plan, s, plan.actions, w);
    var run, run' := RunActions(m, plan, s, plan.actions, w), RunActions(m, plan, s', plan.actions, funded);
    if run.Ok? {
      ResidualsRaised(plan, s, s', run.value.balance, run'.value.balance, principal);
      BaselineForRaised(plan.trackedTokens, s, s', settlement, settlement, principal);
      SettlementBaseline(plan.trackedTokens, settlement, w.balance);
    }
  }

  lemma {:induction false} SettlementBaseline(tracked: seq<Tracked>, settlement: Address, b: Balances)
    requires IsTracked(tracked, settlement) && Baselines(tracked, settlement, 0, b).Ok?
    ensures |Baselines(tracked, settlement, 0, b).value| == |tracked|
    ensures BaselineFor(tracked, Baselines(tracked, settlement, 0, b).value, settlement) == Ok(Bal(b, settlement))
  {
    BaselinesLength(tracked, settlement, 0, b);
    if tracked[0].token != settlement {
      var i :| 0 <= i < |tracked| && tracked[i].token == settlement;
      assert tracked[1..][i - 1].token == settlement;
      SettlementBaseline(tracked[1..], settlement, b);
      assert Baselines(tracked, settlement, 0, b).value[1..] == Baselines(tracked[1..], settlement, 0, b).value;
    }
  }

  /** A quote predicts the flash run: if it reports d, the flash run succeeds exactly when d reaches the
      minimum profit, and then with profit d; and a flash run that succeeds with a profit that fits a
      signed word is what the quote reports. */
  lemma QuotePredictsFlash(m: Market, plan: Plan, principal: nat, now: nat, w: World)
    ensures var quote := QuoteWithFlash(m, plan, principal, now, w);
            var flash := ExecuteWithFlash(m, plan, principal, now, w);
            && (quote.Reported? ==>
                  && (flash.Ok? <==> quote.settlementDelta >= plan.minimumProfit)
                  && (flash.Ok? ==> flash.value.grossProfit == quote.settlementDelta))
            && (flash.Ok? && flash.value.grossProfit <= MAX_INT256 ==> quote == Reported(flash.value.grossProfit))
  {
  }

  /** Checked addition changes nothing: against a real balance, `required + minimumProfit` either fits a
      word, or exceeds every balance, so the run reverts as the unbounded comparison says. */
  lemma CheckedRequirementAgrees(current: nat, required: nat, minimumProfit: nat)
    requires current <= MAX_UINT256
    ensures (required + minimumProfit > MAX_UINT256 || current < required + minimumProfit)
            <==> current - required < minimumProfit
  {
  }
}
