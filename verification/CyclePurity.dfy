// When a cyclic plan is pure composition on every market: the plan alone decides, by the residuals it allows.
module CyclePurity {
  import opened Evm
  import opened Market
  import opened UniversalNet
  import opened InventoryProtection
  import opened FundingModes
  import opened CyclicPlan

  /** Nothing a hop leaves of this token would pass the residual check. */
  predicate NoResidual(plan: Plan, token: Address) {
    && token != plan.settlementToken
    && forall i :: 0 <= i < |plan.trackedTokens| && plan.trackedTokens[i].token == token
                   ==> plan.trackedTokens[i].maximumResidual == 0
  }

  /** No Earn swap spends settlement, which has no residual check, or a token with a residual allowance. */
  predicate NoEarnSlack(plan: Plan) {
    forall i :: 0 <= i < |plan.actions| && plan.actions[i].kind.EarnSwap? ==> NoResidual(plan, plan.actions[i].tokenIn)
  }

  /** Every success of the plan, on any market and funded either way, is the composition of its venues and leaves
      every other balance as it was. */
  ghost predicate AlwaysPure(plan: Plan)
    requires forall i :: 0 <= i < |plan.actions| ==> IsSwap(plan.actions[i].kind)
  {
    forall m: Market, principal: nat, now: nat, w: World, flash: bool ::
      Execute(m, plan, principal, now, w, flash).Ok?
      ==> IsPureComposition(m, plan, principal, w, Execute(m, plan, principal, now, w, flash).value)
  }

  function Execute(m: Market, plan: Plan, principal: nat, now: nat, w: World, flash: bool): Outcome<Receipt> {
    if flash then ExecuteWithFlash(m, plan, principal, now, w) else ExecuteWithInventory(m, plan, principal, now, w)
  }

  // ---- what success says of the call ----

  lemma {:induction false} SnapshotCoversPrincipal(tracked: seq<Tracked>, settlement: Address, principal: nat,
                                                   b: Balances)
    requires IsTracked(tracked, settlement) && Baselines(tracked, settlement, principal, b).Ok?
    ensures principal <= Bal(b, settlement)
  {
    if tracked[0].token != settlement {
      var i :| 0 <= i < |tracked| && tracked[i].token == settlement;
      assert tracked[1..][i - 1].token == settlement;
      SnapshotCoversPrincipal(tracked[1..], settlement, principal, b);
    }
  }

  predicate Funded(m: Market, plan: Plan, principal: nat, w: World, flash: bool) {
    if flash then Lendable(m, plan, principal) else principal <= Bal(w.balance, plan.settlementToken)
  }

  lemma SuccessIsFunded(m: Market, plan: Plan, principal: nat, now: nat, w: World, flash: bool)
    requires Execute(m, plan, principal, now, w, flash).Ok?
    ensures ValidatePlan(plan, now).Ok? && Funded(m, plan, principal, w, flash)
  {
    if flash {
      assert BorrowAndRun(m, plan, principal, now, w).Ok?;
    } else {
      SnapshotCoversPrincipal(plan.trackedTokens, plan.settlementToken, principal, w.balance);
    }
  }

  /** Both ways of funding at once: the outcome is the composed venues'. */
  lemma OutcomeIsComposition(m: Market, plan: Plan, principal: nat, now: nat, w: World, flash: bool)
    requires IsCycle(plan.actions, plan.settlementToken) && LeftoversStay(plan.actions)
    requires ValidatePlan(plan, now).Ok? && Funded(m, plan, principal, w, flash)
    ensures SettlesAs(m, plan, principal, w, Execute(m, plan, principal, now, w, flash), flash)
  {
    if flash {
      CyclicFlashIsComposition(m, plan, principal, now, w);
    } else {
      CyclicPlanIsComposition(m, plan, principal, now, w);
    }
  }

  // ---- without slack nothing is left ----

  /** What the residual check lets an Earn swap leave. */
  lemma LeftWithinResidual(plan: Plan, left: seq<nat>, i: nat)
    requires |left| == |plan.actions| && i < |left| && IsTracked(plan.trackedTokens, plan.actions[i].tokenIn)
    requires NoResidual(plan, plan.actions[i].tokenIn) && LeftoversOk(plan, t => LeftAt(plan.actions, left, t))
    ensures left[i] == 0
  {
    LeftAtLeast(plan.actions, left, i);
    var j :| 0 <= j < |plan.trackedTokens| && plan.trackedTokens[j].token == plan.actions[i].tokenIn;
    assert LeftAt(plan.actions, left, plan.trackedTokens[j].token) <= plan.trackedTokens[j].maximumResidual;
  }

  lemma NoSlackPullsAll(m: Market, plan: Plan, principal: nat, now: nat, w: World)
    requires IsCycle(plan.actions, plan.settlementToken) && LeftoversStay(plan.actions)
    requires ValidatePlan(plan, now).Ok? && NoEarnSlack(plan) && CycleOutcome(m, plan, principal, w).Ok?
    ensures AllPulled(m, plan.actions, plan.deadline, Flow(principal, w.pairs, w.history))
  {
    var f := Flow(principal, w.pairs, w.history);
    var left := Leftovers(m, plan.actions, plan.deadline, f);
    PlanIsChained(m, plan, principal, now, w);
    assert LeftoversOk(plan, LeftBy(m, plan.actions, plan.deadline, f));
    forall i | 0 <= i < |plan.actions| ensures left[i] == 0 {
      HopLeavesNothing(m, plan, f, i);
    }
  }

  lemma HopLeavesNothing(m: Market, plan: Plan, f: Flow, i: nat)
    requires Chained(plan, plan.actions, plan.settlementToken) && i < |plan.actions| && NoEarnSlack(plan)
    requires LeftoversOk(plan, LeftBy(m, plan.actions, plan.deadline, f))
    ensures Leftovers(m, plan.actions, plan.deadline, f)[i] == 0
  {
    var a := plan.actions[i];
    var left := Leftovers(m, plan.actions, plan.deadline, f);
    if a.kind.EarnSwap? {
      assert forall t: Address :: LeftBy(m, plan.actions, plan.deadline, f)(t) == LeftAt(plan.actions, left, t);
      LeftWithinResidual(plan, left, i);
    } else {
      OnlyEarnSwapsLeave(m, plan.actions, plan.deadline, f, i);
    }
  }

  // ---- with slack one answer is enough ----

  /** The same market, except that Earn routers pull one unit less of one token. */
  function Slacker(m: Market, token: Address): Market {
    m.(earnSwap := (h: History, c: Call) => OneLess(m.earnSwap(h, c), c, token))
  }

  function OneLess(answer: Option<(nat, nat)>, c: Call, token: Address): Option<(nat, nat)> {
    if answer.Some? && answer.value.0 > 0 && c.EarnSwapCall? && c.tokenIn == token
    then Some((answer.value.0 - 1, answer.value.1))
    else answer
  }

  predicate Slackens(a: Action, token: Address) { a.kind.EarnSwap? && a.tokenIn == token }

  lemma SlackerFill(m: Market, token: Address, a: Action, x: nat, deadline: nat, pairs: map<Address, Pair>, h: History)
    requires 0 < x && IsSwap(a.kind) && FillOf(m, a, x, deadline, pairs, h).Ok?
    ensures var fill := FillOf(m, a, x, deadline, pairs, h).value;
            FillOf(Slacker(m, token), a, x, deadline, pairs, h)
            == Ok(fill.(spent := if Slackens(a, token) && fill.spent > 0 then fill.spent - 1 else fill.spent))
  {
  }

  /** What the hops pass on does not depend on what they leave. */
  lemma {:induction false} SlackerCompose(m: Market, token: Address, actions: seq<Action>, deadline: nat, f: Flow)
    requires forall i :: 0 <= i < |actions| ==> IsSwap(actions[i].kind)
    requires Compose(m, actions, deadline, f).Ok?
    ensures Compose(Slacker(m, token), actions, deadline, f) == Compose(m, actions, deadline, f)
  {
    if actions != [] {
      var n := |actions| - 1;
      SlackerCompose(m, token, actions[..n], deadline, f);
      var before := Compose(m, actions[..n], deadline, f).value;
      SlackerFill(m, token, actions[n], before.amount, deadline, before.pairs, before.history);
    }
  }

  lemma SlackerLeavesOne(m: Market, token: Address, a: Action, deadline: nat, f: Flow)
    requires IsSwap(a.kind) && Hop(m, a, deadline, f).Ok? && Leftover(m, a, deadline, f) == 0
    ensures Leftover(Slacker(m, token), a, deadline, f) == if Slackens(a, token) then 1 else 0
  {
    SlackerFill(m, token, a, f.amount, deadline, f.pairs, f.history);
    FillSpendsAtMost(m, a, f.amount, deadline, f.pairs, f.history);
  }

  lemma {:induction false} PrefixComposes(m: Market, actions: seq<Action>, deadline: nat, f: Flow, k: nat)
    requires k <= |actions| && forall i :: 0 <= i < |actions| ==> IsSwap(actions[i].kind)
    requires Compose(m, actions, deadline, f).Ok?
    ensures Compose(m, actions[..k], deadline, f).Ok?
  {
    var n := |actions| - 1;
    if k <= n {
      PrefixComposes(m, actions[..n], deadline, f, k);
      assert actions[..n][..k] == actions[..k];
    } else {
      assert actions[..k] == actions;
    }
  }

  lemma SlackerLeavesLast(m: Market, token: Address, actions: seq<Action>, deadline: nat, f: Flow)
    requires actions != [] && forall i :: 0 <= i < |actions| ==> IsSwap(actions[i].kind)
    requires Compose(m, actions, deadline, f).Ok? && LastLeft(m, actions, deadline, f) == 0
    ensures LastLeft(Slacker(m, token), actions, deadline, f)
            == if Slackens(actions[|actions| - 1], token) then 1 else 0
  {
    var n := |actions| - 1;
    SlackerCompose(m, token, actions[..n], deadline, f);
    SlackerLeavesOne(m, token, actions[n], deadline, Compose(m, actions[..n], deadline, f).value);
  }

  lemma SlackerLeaves(m: Market, token: Address, actions: seq<Action>, deadline: nat, f: Flow)
    requires forall i :: 0 <= i < |actions| ==> IsSwap(actions[i].kind)
    requires Compose(m, actions, deadline, f).Ok? && AllPulled(m, actions, deadline, f)
    ensures forall i :: 0 <= i < |actions| ==>
              Leftovers(Slacker(m, token), actions, deadline, f)[i] == if Slackens(actions[i], token) then 1 else 0
  {
    forall i | 0 <= i < |actions|
      ensures Leftovers(Slacker(m, token), actions, deadline, f)[i] == if Slackens(actions[i], token) then 1 else 0
    {
      assert Leftovers(m, actions, deadline, f)[i] == 0;
      LeftoversAt(m, actions, deadline, f, i);
      LeftoversAt(Slacker(m, token), actions, deadline, f, i);
      PrefixComposes(m, actions, deadline, f, i + 1);
      SlackerLeavesLast(m, token, actions[..i + 1], deadline, f);
    }
  }

  lemma {:induction false} OneInputLeft(actions: seq<Action>, left: seq<nat>, i: nat)
    requires |left| == |actions| && i < |actions|
    requires forall j :: 0 <= j < |actions| && j != i && actions[j].tokenIn == actions[i].tokenIn ==> left[j] == 0
    ensures LeftAt(actions, left, actions[i].tokenIn) == left[i]
  {
    var n := |actions| - 1;
    if i < n {
      OneInputLeft(actions[..n], left[..n], i);
    } else {
      NothingLeft(actions[..n], left[..n], actions[n].tokenIn);
    }
  }

  lemma SlackerLeft(m: Market, actions: seq<Action>, deadline: nat, f: Flow, i: nat, t: Address)
    requires i < |actions| && LeftoversStay(actions) && actions[i].kind.EarnSwap?
    requires forall j :: 0 <= j < |actions| ==> IsSwap(actions[j].kind)
    requires Compose(m, actions, deadline, f).Ok? && AllPulled(m, actions, deadline, f)
    ensures LeftBy(Slacker(m, actions[i].tokenIn), actions, deadline, f)(t) == if t == actions[i].tokenIn then 1 else 0
    ensures !AllPulled(Slacker(m, actions[i].tokenIn), actions, deadline, f)
  {
    var token := actions[i].tokenIn;
    var left := Leftovers(Slacker(m, token), actions, deadline, f);
    SlackerLeaves(m, token, actions, deadline, f);
    assert left[i] == 1;
    if t == token {
      OneInputLeft(actions, left, i);
    } else {
      NothingLeft(actions, left, t);
    }
  }

  lemma OneUnitPasses(plan: Plan, token: Address, left: Address -> nat)
    requires DistinctTracked(plan.trackedTokens) && !NoResidual(plan, token)
    requires forall t: Address :: left(t) == if t == token then 1 else 0
    ensures LeftoversOk(plan, left)
  {
  }

  /** More left of settlement only adds to the margin. */
  lemma OutcomeCarries(m: Market, m': Market, plan: Plan, principal: nat, w: World)
    requires forall i :: 0 <= i < |plan.actions| ==> IsSwap(plan.actions[i].kind)
    requires CycleOutcome(m, plan, principal, w).Ok?
    requires var f := Flow(principal, w.pairs, w.history);
             var left, left' := LeftBy(m, plan.actions, plan.deadline, f), LeftBy(m', plan.actions, plan.deadline, f);
             && Compose(m', plan.actions, plan.deadline, f) == Compose(m, plan.actions, plan.deadline, f)
             && LeftoversOk(plan, left') && left(plan.settlementToken) <= left'(plan.settlementToken)
    ensures CycleOutcome(m', plan, principal, w).Ok?
  {
  }

  /** The slack hop leaves one unit and nothing else is left, which the residual check lets pass. */
  lemma SlackerOutcome(m: Market, plan: Plan, principal: nat, now: nat, w: World, i: nat)
    requires IsCycle(plan.actions, plan.settlementToken) && LeftoversStay(plan.actions) && ValidatePlan(plan, now).Ok?
    requires i < |plan.actions| && plan.actions[i].kind.EarnSwap? && !NoResidual(plan, plan.actions[i].tokenIn)
    requires CycleOutcome(m, plan, principal, w).Ok?
    requires AllPulled(m, plan.actions, plan.deadline, Flow(principal, w.pairs, w.history))
    ensures CycleOutcome(Slacker(m, plan.actions[i].tokenIn), plan, principal, w).Ok?
    ensures !AllPulled(Slacker(m, plan.actions[i].tokenIn), plan.actions, plan.deadline,
                       Flow(principal, w.pairs, w.history))
  {
    var f := Flow(principal, w.pairs, w.history);
    var token := plan.actions[i].tokenIn;
    SlackerCompose(m, token, plan.actions, plan.deadline, f);
    forall t: Address
      ensures LeftBy(Slacker(m, token), plan.actions, plan.deadline, f)(t) == if t == token then 1 else 0
    {
      SlackerLeft(m, plan.actions, plan.deadline, f, i, t);
    }
    OneUnitPasses(plan, token, LeftBy(Slacker(m, token), plan.actions, plan.deadline, f));
    SlackerLeft(m, plan.actions, plan.deadline, f, i, token);
    PulledLeavesNothing(m, plan, f, plan.settlementToken);
    OutcomeCarries(m, Slacker(m, token), plan, principal, w);
  }

  lemma SlackIsImpure(m: Market, plan: Plan, principal: nat, now: nat, w: World, flash: bool)
    requires IsCycle(plan.actions, plan.settlementToken) && LeftoversStay(plan.actions) && !NoEarnSlack(plan)
    requires Execute(m, plan, principal, now, w, flash).Ok?
    ensures !AlwaysPure(plan)
  {
    var f := Flow(principal, w.pairs, w.history);
    SuccessIsFunded(m, plan, principal, now, w, flash);
    OutcomeIsComposition(m, plan, principal, now, w, flash);
    var good := m;
    if AllPulled(m, plan.actions, plan.deadline, f) {
      var i :| 0 <= i < |plan.actions| && plan.actions[i].kind.EarnSwap? && !NoResidual(plan, plan.actions[i].tokenIn);
      SlackerOutcome(m, plan, principal, now, w, i);
      good := Slacker(m, plan.actions[i].tokenIn);
      OutcomeIsComposition(good, plan, principal, now, w, flash);
    }
    var r := Execute(good, plan, principal, now, w, flash);
    PureExactlyWhenAllPulled(good, plan, principal, w, r.value, flash);
  }

  /** For a cycle that can succeed at all and whose leftovers stay: every success, on every market and funded either
      way, is pure composition with zero residuals exactly when the plan gives no Earn swap any slack. The plan alone
      decides, before the call. */
  lemma PureExactlyWhenNoSlack(m: Market, plan: Plan, principal: nat, now: nat, w: World, flash: bool)
    requires IsCycle(plan.actions, plan.settlementToken) && LeftoversStay(plan.actions)
    requires Execute(m, plan, principal, now, w, flash).Ok?
    ensures AlwaysPure(plan) <==> NoEarnSlack(plan)
  {
    if NoEarnSlack(plan) {
      forall m': Market, principal': nat, now': nat, w': World, flash': bool
        | Execute(m', plan, principal', now', w', flash').Ok?
        ensures IsPureComposition(m', plan, principal', w', Execute(m', plan, principal', now', w', flash').value)
      {
        var r := Execute(m', plan, principal', now', w', flash');
        SuccessIsFunded(m', plan, principal', now', w', flash');
        OutcomeIsComposition(m', plan, principal', now', w', flash');
        NoSlackPullsAll(m', plan, principal', now', w');
        PureExactlyWhenAllPulled(m', plan, principal', w', r.value, flash');
      }
    } else {
      SlackIsImpure(m, plan, principal, now, w, flash);
    }
  }
}
