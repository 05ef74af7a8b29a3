// What a successful execution of a plan amounts to, in either funding mode, and exactly when there is one.
module Settlement {
  import opened Evm
  import opened Market
  import opened UniversalNet
  import opened InventoryProtection
  import opened ActionLaws

  // ---- which plans are accepted ----

  /** What the contract demands of a plan before it does anything. */
  predicate Accepted(plan: Plan, now: nat) {
    && plan.settlementToken != ZERO && 0 < plan.minimumProfit && now <= plan.deadline
    && 1 <= |plan.trackedTokens| <= 16 && 1 <= |plan.actions| <= 24
    && IsTracked(plan.trackedTokens, plan.settlementToken) && !IsTracked(plan.trackedTokens, ZERO)
    && DistinctTracked(plan.trackedTokens)
    && forall k :: 0 <= k < |plan.actions| ==> NamesTracked(plan, plan.actions[k])
  }

  lemma {:induction false} ActionsNameTracked(plan: Plan, actions: seq<Action>)
    requires !IsTracked(plan.trackedTokens, ZERO)
    ensures ValidateActions(plan, actions).Ok? <==> forall k :: 0 <= k < |actions| ==> NamesTracked(plan, actions[k])
    ensures ValidateActions(plan, actions).Err? ==> ValidateActions(plan, actions).error in {InvalidPlan, InvalidAction}
  {
    if actions != [] {
      ActionsNameTracked(plan, actions[1..]);
      assert ValidateAction(plan, actions[0]).Ok? <==> NamesTracked(plan, actions[0]);
      assert forall k :: 1 <= k < |actions| ==> actions[k] == actions[1..][k - 1];
      if forall k :: 0 <= k < |actions| ==> NamesTracked(plan, actions[k]) {
        assert forall k :: 0 <= k < |actions| - 1 ==> actions[1..][k] == actions[k + 1];
      }
    }
  }

  /** Validation is exactly that, and a plan it rejects fails in every mode before anything is called. */
  lemma AcceptedExactlyWhen(m: Market, plan: Plan, principal: nat, now: nat, w: World)
    ensures ValidatePlan(plan, now).Ok? <==> Accepted(plan, now)
    ensures !Accepted(plan, now) ==>
              exists e :: e in {InvalidPlan, InvalidAction}
                          && ExecuteWithInventory(m, plan, principal, now, w) == Err(e)
                          && ExecuteWithFlash(m, plan, principal, now, w) == Err(e)
                          && QuoteWithFlash(m, plan, principal, now, w) == Failed(e)
  {
    if !IsTracked(plan.trackedTokens, ZERO) {
      ActionsNameTracked(plan, plan.actions);
    }
  }

  /** What a successful execution has done to one token. */
  predicate FinalBalanceOk(plan: Plan, profit: nat, tracked: Tracked, before: nat, after: nat) {
    if tracked.token == plan.settlementToken then after == before + profit
    else before <= after <= before + tracked.maximumResidual
  }

  ghost predicate SettlesWithin(plan: Plan, before: Balances, r: Receipt) {
    && r.grossProfit >= plan.minimumProfit > 0
    && (forall i :: 0 <= i < |plan.trackedTokens| ==>
          FinalBalanceOk(plan, r.grossProfit, plan.trackedTokens[i],
                         Bal(before, plan.trackedTokens[i].token),
                         Bal(r.world.balance, plan.trackedTokens[i].token)))
    && (forall t: Address :: !IsTracked(plan.trackedTokens, t) ==> Bal(r.world.balance, t) == Bal(before, t))
  }

  /** A run that reached its end in range: plan accepted, residuals checked. */
  ghost predicate RanToEnd(m: Market, plan: Plan, baselines: seq<nat>, start: World, finish: World) {
    && DistinctTracked(plan.trackedTokens)
    && IsTracked(plan.trackedTokens, plan.settlementToken)
    && plan.minimumProfit > 0
    && (forall k :: 0 <= k < |plan.actions| ==> NamesTracked(plan, plan.actions[k]))
    && |plan.trackedTokens| == |baselines|
    && RunActions(m, plan, baselines, plan.actions, start) == Ok(finish)
    && ResidualsOk(plan, baselines, finish.balance)
  }

  lemma InventorySuccess(m: Market, plan: Plan, principal: nat, now: nat, w: World)
    requires ExecuteWithInventory(m, plan, principal, now, w).Ok?
    ensures var snapshot := Baselines(plan.trackedTokens, plan.settlementToken, principal, w.balance);
            var r := ExecuteWithInventory(m, plan, principal, now, w).value;
            && snapshot.Ok?
            && RanToEnd(m, plan, snapshot.value, w, r.world)
            && r.grossProfit >= plan.minimumProfit
            && BaselineFor(plan.trackedTokens, snapshot.value, plan.settlementToken).Ok?
            && Bal(r.world.balance, plan.settlementToken)
               == BaselineFor(plan.trackedTokens, snapshot.value, plan.settlementToken).value + principal
                  + r.grossProfit
  {
    BaselinesLength(plan.trackedTokens, plan.settlementToken, principal, w.balance);
    ActionsNameTracked(plan, plan.actions);
  }

  lemma FlashSuccess(m: Market, plan: Plan, principal: nat, now: nat, w: World)
    requires ExecuteWithFlash(m, plan, principal, now, w).Ok?
    ensures var s := plan.settlementToken;
            var snapshot := Baselines(plan.trackedTokens, s, 0, w.balance);
            var funded := w.(balance := Credit(w.balance, s, principal));
            var r := ExecuteWithFlash(m, plan, principal, now, w).value;
            && snapshot.Ok?
            && |snapshot.value| == |plan.trackedTokens|
            && RunActions(m, plan, snapshot.value, plan.actions, funded).Ok?
            && var finish := RunActions(m, plan, snapshot.value, plan.actions, funded).value;
            && RanToEnd(m, plan, snapshot.value, funded, finish)
            && r.grossProfit >= plan.minimumProfit
            && Debit(finish.balance, s, principal) == Ok(r.world.balance)
            && BaselineFor(plan.trackedTokens, snapshot.value, s).Ok?
            && Bal(finish.balance, s)
               == BaselineFor(plan.trackedTokens, snapshot.value, s).value + principal + r.grossProfit
  {
    BaselinesLength(plan.trackedTokens, plan.settlementToken, 0, w.balance);
    ActionsNameTracked(plan, plan.actions);
  }

  /** Success from inventory: settlement grew by exactly the reported profit, at least the minimum; every
      other tracked token is between its baseline and its allowed residual; nothing else changed. */
  lemma SettledInventory(m: Market, plan: Plan, principal: nat, now: nat, w: World)
    requires ExecuteWithInventory(m, plan, principal, now, w).Ok?
    ensures SettlesWithin(plan, w.balance, ExecuteWithInventory(m, plan, principal, now, w).value)
  {
    InventorySuccess(m, plan, principal, now, w);
    var r := ExecuteWithInventory(m, plan, principal, now, w).value;
    var baselines := Baselines(plan.trackedTokens, plan.settlementToken, principal, w.balance).value;
    SnapshotProtected(plan, principal, w.balance);
    Settled(m, plan, baselines, principal, w.balance, w, r.world, r);
  }

  /** The same for a flash-funded success, after the loan has been repaid. */
  lemma SettledFlash(m: Market, plan: Plan, principal: nat, now: nat, w: World)
    requires ExecuteWithFlash(m, plan, principal, now, w).Ok?
    ensures SettlesWithin(plan, w.balance, ExecuteWithFlash(m, plan, principal, now, w).value)
  {
    FlashSuccess(m, plan, principal, now, w);
    var r := ExecuteWithFlash(m, plan, principal, now, w).value;
    var s := plan.settlementToken;
    var baselines := Baselines(plan.trackedTokens, s, 0, w.balance).value;
    var funded := w.(balance := Credit(w.balance, s, principal));
    var finish := RunActions(m, plan, baselines, plan.actions, funded).value;
    CreditBal(w.balance, s, principal);
    DebitBal(finish.balance, s, principal);
    SnapshotProtected(plan, 0, w.balance);
    forall t: Address ensures Bal(funded.balance, t) >= Floor(plan, baselines, funded.balance, t) {
      assert Bal(w.balance, t) >= Floor(plan, baselines, w.balance, t);
    }
    Settled(m, plan, baselines, 0, w.balance, funded, finish, r);
  }

  lemma Settled(m: Market, plan: Plan, baselines: seq<nat>, principal: nat, before: Balances, start: World,
                finish: World, r: Receipt)
    requires Baselines(plan.trackedTokens, plan.settlementToken, principal, before) == Ok(baselines)
    requires RanToEnd(m, plan, baselines, start, finish)
    requires Protected(plan, baselines, start.balance, start.balance)
    requires forall t: Address :: t != plan.settlementToken ==> Bal(start.balance, t) == Bal(before, t)
    requires forall t: Address :: t != plan.settlementToken ==> Bal(r.world.balance, t) == Bal(finish.balance, t)
    requires r.grossProfit >= plan.minimumProfit
    requires BaselineFor(plan.trackedTokens, baselines, plan.settlementToken).Ok?
    requires Bal(r.world.balance, plan.settlementToken)
             == BaselineFor(plan.trackedTokens, baselines, plan.settlementToken).value + principal + r.grossProfit
    ensures SettlesWithin(plan, before, r)
  {
    BaselinesAt(plan.trackedTokens, plan.settlementToken, principal, before);
    var k :| 0 <= k < |plan.trackedTokens| && plan.trackedTokens[k].token == plan.settlementToken;
    BaselineForFinds(plan.trackedTokens, baselines, plan.settlementToken);
    assert BaselineFor(plan.trackedTokens, baselines, plan.settlementToken) == Ok(baselines[k]);
    assert plan.actions[..|plan.actions|] == plan.actions;
    EveryPrefixProtects(m, plan, baselines, plan.actions, start, |plan.actions|);
    forall t: Address | !IsTracked(plan.trackedTokens, t) ensures Bal(finish.balance, t) == Bal(start.balance, t) {
      RunTouchesTracked(m, plan, baselines, plan.actions, start, t);
    }
    FinalBalances(plan, baselines, principal, before, start.balance, finish.balance, r.world.balance, r.grossProfit);
  }

  /** From the protected, residual-checked balances at the end of the actions (`finish`) to the balances a
      caller sees (`after`), which differ from them in the settlement token at most. */
  lemma FinalBalances(plan: Plan, baselines: seq<nat>, principal: nat, before: Balances, funded: Balances,
                      finish: Balances, after: Balances, profit: nat)
    requires DistinctTracked(plan.trackedTokens) && |baselines| == |plan.trackedTokens|
    requires IsTracked(plan.trackedTokens, plan.settlementToken)
    requires forall i :: 0 <= i < |baselines| ==>
               Bal(before, plan.trackedTokens[i].token)
               == baselines[i] + if plan.trackedTokens[i].token == plan.settlementToken then principal else 0
    requires forall t: Address :: t != plan.settlementToken ==> Bal(funded, t) == Bal(before, t)
    requires Protected(plan, baselines, funded, finish) && ResidualsOk(plan, baselines, finish)
    requires forall t: Address :: t != plan.settlementToken ==> Bal(after, t) == Bal(finish, t)
    requires Bal(after, plan.settlementToken) == Bal(before, plan.settlementToken) + profit
    ensures forall i :: 0 <= i < |plan.trackedTokens| ==>
              FinalBalanceOk(plan, profit, plan.trackedTokens[i],
                             Bal(before, plan.trackedTokens[i].token), Bal(after, plan.trackedTokens[i].token))
  {
    forall i | 0 <= i < |plan.trackedTokens|
      ensures FinalBalanceOk(plan, profit, plan.trackedTokens[i],
                             Bal(before, plan.trackedTokens[i].token), Bal(after, plan.trackedTokens[i].token))
    {
      var t := plan.trackedTokens[i].token;
      BaselineForFinds(plan.trackedTokens, baselines, t);
      assert Bal(finish, t) >= Floor(plan, baselines, funded, t);
    }
  }

  // ---- exactly when an execution succeeds ----

  /** One baseline for each tracked token: its balance, less what is put at risk of settlement. */
  predicate IsSnapshot(tracked: seq<Tracked>, settlement: Address, principal: nat, b: Balances, baselines: seq<nat>) {
    && |baselines| == |tracked|
    && forall i :: 0 <= i < |tracked| ==>
         Bal(b, tracked[i].token) == baselines[i] + if tracked[i].token == settlement then principal else 0
  }

  lemma {:induction false} SnapshotExactly(tracked: seq<Tracked>, settlement: Address, principal: nat, b: Balances,
                                           baselines: seq<nat>)
    ensures Baselines(tracked, settlement, principal, b) == Ok(baselines)
            <==> IsSnapshot(tracked, settlement, principal, b, baselines)
  {
    if tracked != [] && baselines != [] {
      SnapshotExactly(tracked[1..], settlement, principal, b, baselines[1..]);
      assert baselines == [baselines[0]] + baselines[1..];
      assert forall i :: 1 <= i < |tracked| ==> tracked[i] == tracked[1..][i - 1];
      assert forall i :: 1 <= i < |baselines| ==> baselines[i] == baselines[1..][i - 1];
    }
  }

  /** The actions lead from `w` to `w'`, each within the snapshot taken at `before`. */
  ghost predicate ActionsLead(m: Market, plan: Plan, principal: nat, before: Balances, w: World, w': World) {
    exists baselines ::
      IsSnapshot(plan.trackedTokens, plan.settlementToken, principal, before, baselines)
      && Leads(m, plan, baselines, plan.actions, w, w')
  }

  /** No tracked token but settlement has gained more than its residual. */
  predicate WithinResiduals(plan: Plan, before: Balances, after: Balances) {
    forall i :: 0 <= i < |plan.trackedTokens| && plan.trackedTokens[i].token != plan.settlementToken ==>
      Bal(after, plan.trackedTokens[i].token)
      <= Bal(before, plan.trackedTokens[i].token) + plan.trackedTokens[i].maximumResidual
  }

  /** The profit is what settlement gained, at least the minimum, and no other tracked token gained more than its
      residual. */
  predicate Settles(plan: Plan, before: Balances, after: Balances, profit: nat) {
    && plan.minimumProfit <= profit && Bal(after, plan.settlementToken) == Bal(before, plan.settlementToken) + profit
    && WithinResiduals(plan, before, after)
  }

  function Lent(w: World, token: Address, amount: nat): World { w.(balance := Credit(w.balance, token, amount)) }

  lemma FinishIsSettles(plan: Plan, baselines: seq<nat>, principal: nat, before: Balances, finish: Balances,
                        profit: nat)
    requires Accepted(plan, plan.deadline)
    requires IsSnapshot(plan.trackedTokens, plan.settlementToken, principal, before, baselines)
    ensures Finish(plan, baselines, principal, finish) == Ok(profit) <==> Settles(plan, before, finish, profit)
  {
    BaselineForFinds(plan.trackedTokens, baselines, plan.settlementToken);
    var k :| 0 <= k < |plan.trackedTokens| && plan.trackedTokens[k].token == plan.settlementToken;
    assert BaselineFor(plan.trackedTokens, baselines, plan.settlementToken) == Ok(baselines[k]);
  }

  lemma TheSnapshot(plan: Plan, principal: nat, b: Balances)
    ensures var snapshot := Baselines(plan.trackedTokens, plan.settlementToken, principal, b);
            forall baselines ::
              IsSnapshot(plan.trackedTokens, plan.settlementToken, principal, b, baselines)
              <==> snapshot == Ok(baselines)
  {
    forall baselines
      ensures IsSnapshot(plan.trackedTokens, plan.settlementToken, principal, b, baselines)
              <==> Baselines(plan.trackedTokens, plan.settlementToken, principal, b) == Ok(baselines)
    {
      SnapshotExactly(plan.trackedTokens, plan.settlementToken, principal, b, baselines);
    }
  }

  /** Execution from inventory, without reference to how it is computed: it succeeds with this profit and leaves this
      world exactly when the plan is accepted, its actions lead there within the snapshot, and the result settles. */
  lemma InventorySucceedsExactlyWhen(m: Market, plan: Plan, principal: nat, now: nat, w: World, after: World,
                                     profit: nat)
    ensures var r := ExecuteWithInventory(m, plan, principal, now, w);
            r.Ok? && SameWorld(r.value.world, after) && r.value.grossProfit == profit
            <==> && Accepted(plan, now)
                 && ActionsLead(m, plan, principal, w.balance, w, after)
                 && Settles(plan, w.balance, after.balance, profit)
  {
    AcceptedExactlyWhen(m, plan, principal, now, w);
    TheSnapshot(plan, principal, w.balance);
    var snapshot := Baselines(plan.trackedTokens, plan.settlementToken, principal, w.balance);
    if Accepted(plan, now) && snapshot.Ok? {
      FinishedRunSettles(m, plan, snapshot.value, principal, w, after, profit);
    }
  }

  lemma FinishedRunSettles(m: Market, plan: Plan, baselines: seq<nat>, principal: nat, w: World, after: World,
                           profit: nat)
    requires Accepted(plan, plan.deadline)
    requires IsSnapshot(plan.trackedTokens, plan.settlementToken, principal, w.balance, baselines)
    ensures var r := RunAndFinish(m, plan, baselines, principal, w);
            r.Ok? && SameWorld(r.value.world, after) && r.value.grossProfit == profit
            <==> Leads(m, plan, baselines, plan.actions, w, after) && Settles(plan, w.balance, after.balance, profit)
  {
    RunSucceedsExactlyWhen(m, plan, baselines, plan.actions, w, after);
    var run := RunActions(m, plan, baselines, plan.actions, w);
    if run.Ok? {
      FinishIsSettles(plan, baselines, principal, w.balance, run.value.balance, profit);
    }
  }

  /** The same on a loan: the actions run on the principal on top of the balances, and it is still there at the end. */
  lemma FlashSucceedsExactlyWhen(m: Market, plan: Plan, principal: nat, now: nat, w: World, after: World, profit: nat)
    ensures var r := ExecuteWithFlash(m, plan, principal, now, w);
            var s := plan.settlementToken;
            r.Ok? && SameWorld(r.value.world, after) && r.value.grossProfit == profit
            <==> && Accepted(plan, now) && 0 < principal <= m.loanLiquidity(s)
                 && ActionsLead(m, plan, 0, w.balance, Lent(w, s, principal), Lent(after, s, principal))
                 && Settles(plan, w.balance, after.balance, profit)
  {
    var s := plan.settlementToken;
    AcceptedExactlyWhen(m, plan, principal, now, w);
    TheSnapshot(plan, 0, w.balance);
    var snapshot := Baselines(plan.trackedTokens, s, 0, w.balance);
    if Accepted(plan, now) && snapshot.Ok? {
      RunSucceedsExactlyWhen(m, plan, snapshot.value, plan.actions, Lent(w, s, principal), Lent(after, s, principal));
      CreditBal(after.balance, s, principal);
      var run := RunActions(m, plan, snapshot.value, plan.actions, Lent(w, s, principal));
      if run.Ok? {
        RepaidIsSettles(m, plan, snapshot.value, principal, w, run.value, after, profit);
      }
    }
  }

  lemma RepaidIsSettles(m: Market, plan: Plan, baselines: seq<nat>, principal: nat, w: World, finish: World,
                        after: World, profit: nat)
    requires Accepted(plan, plan.deadline)
    requires IsSnapshot(plan.trackedTokens, plan.settlementToken, 0, w.balance, baselines)
    requires RunActions(m, plan, baselines, plan.actions, Lent(w, plan.settlementToken, principal)) == Ok(finish)
    ensures var r := RepayLoan(RunOnLoan(m, plan, baselines, principal, Lent(w, plan.settlementToken, principal)), plan,
                               principal);
            r.Ok? && SameWorld(r.value.world, after) && r.value.grossProfit == profit
            <==> SameWorld(finish, Lent(after, plan.settlementToken, principal))
                 && Settles(plan, w.balance, after.balance, profit)
  {
    var s := plan.settlementToken;
    LoanMeasures(m, plan, baselines, principal, w, finish);
    CreditBal(after.balance, s, principal);
    RepaidSame(finish.balance, after.balance, s, principal);
    if SameBalances(finish.balance, Credit(after.balance, s, principal)) {
      SettlesOnTop(plan, w.balance, after.balance, finish.balance, principal, profit);
    }
  }

  lemma RepaidSame(finish: Balances, after: Balances, token: Address, principal: nat)
    ensures Debit(finish, token, principal).Ok? ==>
              (SameBalances(Debit(finish, token, principal).value, after)
               <==> SameBalances(finish, Credit(after, token, principal)))
  {
    CreditBal(after, token, principal);
    if Debit(finish, token, principal).Ok? {
      DebitBal(finish, token, principal);
    }
  }

  lemma SettlesOnTop(plan: Plan, before: Balances, after: Balances, finish: Balances, principal: nat, profit: nat)
    requires SameBalances(finish, Credit(after, plan.settlementToken, principal))
    ensures Settles(plan, before, after, profit)
            <==> && plan.minimumProfit <= profit && WithinResiduals(plan, before, finish)
                 && Bal(finish, plan.settlementToken) == Bal(before, plan.settlementToken) + principal + profit
  {
    CreditBal(after, plan.settlementToken, principal);
  }

  /** The actions lead somewhere within the residuals on the loan, where settlement is `delta` above what it was and
      what is owed, or below. */
  ghost predicate QuotesAt(m: Market, plan: Plan, principal: nat, w: World, delta: int) {
    var s := plan.settlementToken;
    exists end: World :: ActionsLead(m, plan, 0, w.balance, Lent(w, s, principal), end)
                         && EndsAt(plan, principal, w.balance, end.balance, delta)
  }

  predicate EndsAt(plan: Plan, principal: nat, before: Balances, end: Balances, delta: int) {
    && WithinResiduals(plan, before, end)
    && Bal(end, plan.settlementToken) == Bal(before, plan.settlementToken) + principal + delta
  }

  /** A quote reports a number exactly when a run on the loan ends at it. */
  lemma QuoteReportsExactlyWhen(m: Market, plan: Plan, principal: nat, now: nat, w: World, delta: int)
    ensures QuoteWithFlash(m, plan, principal, now, w) == Reported(delta)
            <==> && Accepted(plan, now) && 0 < principal <= m.loanLiquidity(plan.settlementToken)
                 && -MAX_INT256 <= delta <= MAX_INT256 && QuotesAt(m, plan, principal, w, delta)
  {
    AcceptedExactlyWhen(m, plan, principal, now, w);
    TheSnapshot(plan, 0, w.balance);
    var snapshot := Baselines(plan.trackedTokens, plan.settlementToken, 0, w.balance);
    if Accepted(plan, now) && snapshot.Ok? {
      QuotesAtRun(m, plan, snapshot.value, principal, w, delta);
      var run := RunActions(m, plan, snapshot.value, plan.actions, Lent(w, plan.settlementToken, principal));
      if run.Ok? {
        LoanMeasures(m, plan, snapshot.value, principal, w, run.value);
      }
    }
  }

  lemma QuotesAtRun(m: Market, plan: Plan, baselines: seq<nat>, principal: nat, w: World, delta: int)
    requires Accepted(plan, plan.deadline)
    requires Baselines(plan.trackedTokens, plan.settlementToken, 0, w.balance) == Ok(baselines)
    requires |plan.trackedTokens| == |baselines|
    ensures var run := RunActions(m, plan, baselines, plan.actions, Lent(w, plan.settlementToken, principal));
            QuotesAt(m, plan, principal, w, delta)
            <==> run.Ok? && EndsAt(plan, principal, w.balance, run.value.balance, delta)
  {
    var start := Lent(w, plan.settlementToken, principal);
    var run := RunActions(m, plan, baselines, plan.actions, start);
    if run.Ok? {
      LeadsToRun(m, plan, baselines, w.balance, start, run.value);
    }
    if QuotesAt(m, plan, principal, w, delta) {
      var end: World :| ActionsLead(m, plan, 0, w.balance, start, end)
                        && EndsAt(plan, principal, w.balance, end.balance, delta);
      LeadsToRun(m, plan, baselines, w.balance, start, end);
      SameEnd(plan, principal, w.balance, run.value.balance, end.balance, delta);
    }
  }

  lemma SameEnd(plan: Plan, principal: nat, before: Balances, b: Balances, c: Balances, delta: int)
    requires SameBalances(b, c)
    ensures EndsAt(plan, principal, before, b, delta) <==> EndsAt(plan, principal, before, c, delta)
  {
  }

  /** With one snapshot there is one run. */
  lemma LeadsToRun(m: Market, plan: Plan, baselines: seq<nat>, before: Balances, start: World, end: World)
    requires Accepted(plan, plan.deadline) && |plan.trackedTokens| == |baselines|
    requires Baselines(plan.trackedTokens, plan.settlementToken, 0, before) == Ok(baselines)
    ensures var run := RunActions(m, plan, baselines, plan.actions, start);
            ActionsLead(m, plan, 0, before, start, end) <==> run.Ok? && SameWorld(run.value, end)
  {
    TheSnapshot(plan, 0, before);
    RunSucceedsExactlyWhen(m, plan, baselines, plan.actions, start, end);
  }

  lemma LoanMeasures(m: Market, plan: Plan, baselines: seq<nat>, principal: nat, w: World, end: World)
    requires Accepted(plan, plan.deadline)
    requires IsSnapshot(plan.trackedTokens, plan.settlementToken, 0, w.balance, baselines)
    requires RunActions(m, plan, baselines, plan.actions, Lent(w, plan.settlementToken, principal)) == Ok(end)
    ensures var loan := RunOnLoan(m, plan, baselines, principal, Lent(w, plan.settlementToken, principal));
            var s := plan.settlementToken;
            && (loan.Ok? <==> WithinResiduals(plan, w.balance, end.balance))
            && (loan.Ok? ==> loan.value.1 == Bal(end.balance, s) - Bal(w.balance, s) - principal)
  {
    var s := plan.settlementToken;
    BaselineForFinds(plan.trackedTokens, baselines, s);
    var k :| 0 <= k < |plan.trackedTokens| && plan.trackedTokens[k].token == s;
    assert BaselineFor(plan.trackedTokens, baselines, s) == Ok(baselines[k]);
  }
}
