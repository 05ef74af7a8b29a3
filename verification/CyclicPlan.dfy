// A cyclic plan that always spends all it has is function composition, except for what a venue does not take:
// an Earn router may pull less than it is offered, and what it leaves stays in the executor.
module CyclicPlan {
  import opened Evm
  import opened Market
  import opened UniversalNet
  import opened InventoryProtection
  import opened ActionLaws
  import opened FundingModes

  /** Swaps chained by their tokens, starting and ending at `base`, each spending everything available. */
  predicate IsCycle(actions: seq<Action>, base: Address) {
    && actions != []
    && (forall i :: 0 <= i < |actions| ==> IsSwap(actions[i].kind) && actions[i].amountIn == 0)
    && actions[0].tokenIn == base
    && actions[|actions| - 1].tokenOut == base
    && (forall i :: 0 < i < |actions| ==> actions[i - 1].tokenOut == actions[i].tokenIn)
  }

  /** An amount on its way through the venues. */
  datatype Flow = Flow(amount: nat, pairs: map<Address, Pair>, history: History)

  /** One venue as a function of the incoming amount and the venues' state. */
  function Hop(m: Market, a: Action, deadline: nat, f: Flow): Outcome<Flow>
    requires IsSwap(a.kind)
  {
    var _ :- Need(f.amount != 0, InsufficientPrincipal);
    var _ :- Need(f.amount <= MAX_INT128, InvalidAmount);
    var fill :- FillOf(m, a, f.amount, deadline, f.pairs, f.history);
    if fill.token != a.tokenOut || fill.received < a.minimumAmountOut then Err(SettlementMismatch)
    else Ok(Flow(fill.received, fill.pairs, fill.history))
  }

  /** fn(...f1(x)) over the evolving venues, with no token balances in sight. */
  function Compose(m: Market, actions: seq<Action>, deadline: nat, f: Flow): Outcome<Flow>
    requires forall i :: 0 <= i < |actions| ==> IsSwap(actions[i].kind)
  {
    if actions == [] then Ok(f)
    else
      var n := |actions| - 1;
      var before :- Compose(m, actions[..n], deadline, f);
      Hop(m, actions[n], deadline, before)
  }

  // ---- what the venues leave behind ----

  /** What each hop of the composed run was offered and did not pull. */
  function Leftovers(m: Market, actions: seq<Action>, deadline: nat, f: Flow): (r: seq<nat>)
    requires forall i :: 0 <= i < |actions| ==> IsSwap(actions[i].kind)
    ensures |r| == |actions|
  {
    if actions == [] then []
    else
      var n := |actions| - 1;
      Leftovers(m, actions[..n], deadline, f)
      + [match Compose(m, actions[..n], deadline, f)
         case Err(_) => 0
         case Ok(before) => Leftover(m, actions[n], deadline, before)]
  }

  function Leftover(m: Market, a: Action, deadline: nat, f: Flow): nat
    requires IsSwap(a.kind)
  {
    if f.amount == 0 then 0
    else
      match FillOf(m, a, f.amount, deadline, f.pairs, f.history)
      case Err(_) => 0
      case Ok(fill) => if fill.spent <= f.amount then f.amount - fill.spent else 0
  }

  /** Every hop of this run pulls all it is offered. */
  predicate AllPulled(m: Market, actions: seq<Action>, deadline: nat, f: Flow)
    requires forall i :: 0 <= i < |actions| ==> IsSwap(actions[i].kind)
  {
    forall i :: 0 <= i < |actions| ==> Leftovers(m, actions, deadline, f)[i] == 0
  }

  /** What is left of a token, over all hops that spent it. */
  function LeftAt(actions: seq<Action>, left: seq<nat>, token: Address): nat
    requires |left| == |actions|
  {
    if actions == [] then 0
    else
      var n := |actions| - 1;
      LeftAt(actions[..n], left[..n], token) + if actions[n].tokenIn == token then left[n] else 0
  }

  lemma {:induction false} NothingLeft(actions: seq<Action>, left: seq<nat>, token: Address)
    requires |left| == |actions|
    requires forall i :: 0 <= i < |actions| && actions[i].tokenIn == token ==> left[i] == 0
    ensures LeftAt(actions, left, token) == 0
  {
    if actions != [] {
      NothingLeft(actions[..|actions| - 1], left[..|actions| - 1], token);
    }
  }

  lemma {:induction false} LeftAtLeast(actions: seq<Action>, left: seq<nat>, i: nat)
    requires |left| == |actions| && i < |actions|
    ensures left[i] <= LeftAt(actions, left, actions[i].tokenIn)
  {
    var n := |actions| - 1;
    if i < n {
      LeftAtLeast(actions[..n], left[..n], i);
    }
  }

  lemma OnlyEarnLeaves(m: Market, a: Action, deadline: nat, f: Flow)
    requires IsSwap(a.kind) && !a.kind.EarnSwap?
    ensures Leftover(m, a, deadline, f) == 0
  {
  }

  lemma LeftoversSnoc(m: Market, actions: seq<Action>, deadline: nat, f: Flow)
    requires actions != [] && forall j :: 0 <= j < |actions| ==> IsSwap(actions[j].kind)
    ensures var n := |actions| - 1;
            Leftovers(m, actions, deadline, f)
            == Leftovers(m, actions[..n], deadline, f) + [LastLeft(m, actions, deadline, f)]
  {
  }

  function LastLeft(m: Market, actions: seq<Action>, deadline: nat, f: Flow): nat
    requires actions != [] && forall j :: 0 <= j < |actions| ==> IsSwap(actions[j].kind)
  {
    var n := |actions| - 1;
    match Compose(m, actions[..n], deadline, f)
    case Err(_) => 0
    case Ok(before) => Leftover(m, actions[n], deadline, before)
  }

  lemma {:induction false} LeftoversAt(m: Market, actions: seq<Action>, deadline: nat, f: Flow, i: nat)
    requires i < |actions| && forall j :: 0 <= j < |actions| ==> IsSwap(actions[j].kind)
    ensures Leftovers(m, actions, deadline, f)[i] == LastLeft(m, actions[..i + 1], deadline, f)
  {
    var n := |actions| - 1;
    LeftoversSnoc(m, actions, deadline, f);
    if i < n {
      LeftoversAt(m, actions[..n], deadline, f, i);
      assert actions[..n][..i + 1] == actions[..i + 1];
    } else {
      assert actions[..i + 1] == actions;
    }
  }

  lemma OnlyEarnHopsLeave(m: Market, actions: seq<Action>, deadline: nat, f: Flow)
    requires actions != [] && forall j :: 0 <= j < |actions| ==> IsSwap(actions[j].kind)
    requires !actions[|actions| - 1].kind.EarnSwap?
    ensures LastLeft(m, actions, deadline, f) == 0
  {
    var n := |actions| - 1;
    var before := Compose(m, actions[..n], deadline, f);
    if before.Ok? {
      OnlyEarnLeaves(m, actions[n], deadline, before.value);
    }
  }

  /** Only an Earn swap can leave anything. */
  lemma OnlyEarnSwapsLeave(m: Market, actions: seq<Action>, deadline: nat, f: Flow, i: nat)
    requires i < |actions| && forall j :: 0 <= j < |actions| ==> IsSwap(actions[j].kind)
    requires !actions[i].kind.EarnSwap?
    ensures Leftovers(m, actions, deadline, f)[i] == 0
  {
    LeftoversAt(m, actions, deadline, f, i);
    OnlyEarnHopsLeave(m, actions[..i + 1], deadline, f);
  }

  // ---- one hop ----

  /** Every token is at its floor plus what was left of it, except that `token` is `amount` above that. */
  ghost predicate Spread(plan: Plan, baselines: seq<nat>, start: Balances, b: Balances, token: Address, amount: nat,
                         left: Address -> nat)
    requires |plan.trackedTokens| == |baselines|
  {
    forall t: Address :: Bal(b, t) == Floor(plan, baselines, start, t) + left(t) + if t == token then amount else 0
  }

  predicate TokensTracked(plan: Plan, actions: seq<Action>) {
    forall i :: 0 <= i < |actions| ==>
      && IsTracked(plan.trackedTokens, actions[i].tokenIn)
      && IsTracked(plan.trackedTokens, actions[i].tokenOut)
      && actions[i].tokenIn != actions[i].tokenOut
      && actions[i].tokenOut != ZERO
  }

  lemma {:induction false} ValidSwapsAreTracked(plan: Plan, actions: seq<Action>)
    requires ValidateActions(plan, actions).Ok?
    requires forall i :: 0 <= i < |actions| ==> IsSwap(actions[i].kind)
    ensures TokensTracked(plan, actions)
  {
    if actions != [] {
      assert forall i :: 0 <= i < |actions| - 1 ==> actions[1..][i] == actions[i + 1];
      ValidSwapsAreTracked(plan, actions[1..]);
      forall i | 0 <= i < |actions|
        ensures IsTracked(plan.trackedTokens, actions[i].tokenIn) && IsTracked(plan.trackedTokens, actions[i].tokenOut)
                && actions[i].tokenIn != actions[i].tokenOut && actions[i].tokenOut != ZERO
      {
        if i > 0 {
          assert actions[i] == actions[1..][i - 1];
        }
      }
    }
  }

  /** Both fail alike, or both arrive with the flow on top of the floors and the leftovers. */
  ghost predicate Agrees(plan: Plan, baselines: seq<nat>, start: Balances, run: Outcome<World>, flow: Outcome<Flow>,
                         token: Address, left: Address -> nat)
    requires |plan.trackedTokens| == |baselines|
  {
    match (run, flow)
    case (Ok(w), Ok(f)) => Spread(plan, baselines, start, w.balance, token, f.amount, left)
                           && w.pairs == f.pairs && w.history == f.history
    case (Err(e), Err(e')) => e == e'
    case _ => false
  }

  function Plus(left: Address -> nat, token: Address, more: nat): Address -> nat {
    t => left(t) + if t == token then more else 0
  }

  lemma SpreadAfterFill(plan: Plan, baselines: seq<nat>, start: Balances, b: Balances, tokenIn: Address, amount: nat,
                        spent: nat, tokenOut: Address, received: nat, left: Address -> nat)
    requires |plan.trackedTokens| == |baselines| && tokenIn != tokenOut && spent <= amount
    requires Spread(plan, baselines, start, b, tokenIn, amount, left) && Debit(b, tokenIn, spent).Ok?
    ensures Spread(plan, baselines, start, Credit(Debit(b, tokenIn, spent).value, tokenOut, received), tokenOut,
                   received, Plus(left, tokenIn, amount - spent))
  {
  }

  /** What an action with requested amount 0 may spend is the flow. */
  lemma AvailableIsFlow(plan: Plan, baselines: seq<nat>, start: Balances, b: Balances, token: Address, amount: nat,
                        left: Address -> nat)
    requires |plan.trackedTokens| == |baselines| && IsTracked(plan.trackedTokens, token)
    requires Spread(plan, baselines, start, b, token, amount, left) && left(token) == 0
    ensures Available(plan, baselines, b, token, 0)
            == if amount == 0 then Err(InsufficientPrincipal)
               else if amount > MAX_INT128 then Err(InvalidAmount) else Ok(amount)
    ensures amount <= Bal(b, token)
  {
    BaselineForFinds(plan.trackedTokens, baselines, token);
    assert Bal(b, token) == Floor(plan, baselines, start, token) + amount;
  }

  lemma FilledIsHop(m: Market, plan: Plan, baselines: seq<nat>, a: Action, w: World, start: Balances, amount: nat,
                    left: Address -> nat)
    requires |plan.trackedTokens| == |baselines|
    requires IsSwap(a.kind) && TokensTracked(plan, [a]) && 0 < amount <= MAX_INT128
             && amount <= Bal(w.balance, a.tokenIn)
    requires Spread(plan, baselines, start, w.balance, a.tokenIn, amount, left)
    requires Available(plan, baselines, w.balance, a.tokenIn, a.amountIn) == Ok(amount)
    ensures var flow := Flow(amount, w.pairs, w.history);
            Agrees(plan, baselines, start, RunAction(m, plan, baselines, a, w), Hop(m, a, plan.deadline, flow),
                   a.tokenOut, Plus(left, a.tokenIn, Leftover(m, a, plan.deadline, flow)))
  {
    assert [a][0] == a;
    SwapIsFill(m, plan, baselines, a, w, amount);
    var fill := FillOf(m, a, amount, plan.deadline, w.pairs, w.history);
    if fill.Ok? {
      FillSpendsAtMost(m, a, amount, plan.deadline, w.pairs, w.history);
      SpreadAfterFill(plan, baselines, start, w.balance, a.tokenIn, amount, fill.value.spent, a.tokenOut,
                      fill.value.received, left);
    }
  }

  /** The executor's action is the venue's hop, on whatever amount is above the baseline, and what the venue does
      not pull is left of the token spent. */
  lemma ActionIsHop(m: Market, plan: Plan, baselines: seq<nat>, a: Action, w: World, start: Balances, amount: nat,
                    left: Address -> nat)
    requires |plan.trackedTokens| == |baselines|
    requires IsSwap(a.kind) && a.amountIn == 0 && TokensTracked(plan, [a])
    requires Spread(plan, baselines, start, w.balance, a.tokenIn, amount, left) && left(a.tokenIn) == 0
    ensures var flow := Flow(amount, w.pairs, w.history);
            Agrees(plan, baselines, start, RunAction(m, plan, baselines, a, w), Hop(m, a, plan.deadline, flow),
                   a.tokenOut, Plus(left, a.tokenIn, Leftover(m, a, plan.deadline, flow)))
  {
    assert [a][0] == a;
    AvailableIsFlow(plan, baselines, start, w.balance, a.tokenIn, amount, left);
    if 0 < amount <= MAX_INT128 {
      FilledIsHop(m, plan, baselines, a, w, start, amount, left);
    }
  }

  /** The token holding the flow after k hops. */
  function Holder(actions: seq<Action>, base: Address): Address {
    if actions == [] then base else actions[|actions| - 1].tokenOut
  }

  // ---- a run of hops ----

  predicate Chained(plan: Plan, actions: seq<Action>, base: Address) {
    && TokensTracked(plan, actions)
    && (forall i :: 0 <= i < |actions| ==> IsSwap(actions[i].kind) && actions[i].amountIn == 0)
    && (actions != [] ==> actions[0].tokenIn == base)
    && (forall i :: 0 < i < |actions| ==> actions[i - 1].tokenOut == actions[i].tokenIn)
  }

  /** No hop spends what an earlier Earn swap spent, and only Earn swaps leave anything. */
  predicate LeftoversStay(actions: seq<Action>) {
    forall i, j :: 0 <= i < j < |actions| && actions[i].kind.EarnSwap? ==> actions[i].tokenIn != actions[j].tokenIn
  }

  function LeftBy(m: Market, actions: seq<Action>, deadline: nat, f: Flow): Address -> nat
    requires forall i :: 0 <= i < |actions| ==> IsSwap(actions[i].kind)
  {
    var left := Leftovers(m, actions, deadline, f);
    t => LeftAt(actions, left, t)
  }

  lemma LeftBySnoc(m: Market, actions: seq<Action>, deadline: nat, f: Flow, t: Address)
    requires actions != [] && forall i :: 0 <= i < |actions| ==> IsSwap(actions[i].kind)
    requires Compose(m, actions[..|actions| - 1], deadline, f).Ok?
    ensures var front, a := actions[..|actions| - 1], actions[|actions| - 1];
            LeftBy(m, actions, deadline, f)(t)
            == Plus(LeftBy(m, front, deadline, f), a.tokenIn,
                    Leftover(m, a, deadline, Compose(m, front, deadline, f).value))(t)
  {
    var n := |actions| - 1;
    var left := Leftovers(m, actions, deadline, f);
    assert left[..n] == Leftovers(m, actions[..n], deadline, f);
    assert LeftBy(m, actions, deadline, f)(t) == LeftAt(actions, left, t);
    assert LeftBy(m, actions[..n], deadline, f)(t) == LeftAt(actions[..n], left[..n], t);
  }

  lemma SameLeft(plan: Plan, baselines: seq<nat>, start: Balances, run: Outcome<World>, flow: Outcome<Flow>,
                 token: Address, left: Address -> nat, left': Address -> nat)
    requires |plan.trackedTokens| == |baselines| && Agrees(plan, baselines, start, run, flow, token, left)
    requires forall t: Address :: left(t) == left'(t)
    ensures Agrees(plan, baselines, start, run, flow, token, left')
  {
  }

  /** What the next hop spends has not been left over by an earlier one. */
  lemma NextIsClean(m: Market, plan: Plan, actions: seq<Action>, base: Address, f: Flow)
    requires Chained(plan, actions, base) && actions != []
    requires LeftoversStay(actions) || AllPulled(m, actions, plan.deadline, f)
    ensures LeftBy(m, actions[..|actions| - 1], plan.deadline, f)(actions[|actions| - 1].tokenIn) == 0
    ensures var front := actions[..|actions| - 1];
            Chained(plan, front, base) && (LeftoversStay(front) || AllPulled(m, front, plan.deadline, f))
            && Holder(front, base) == actions[|actions| - 1].tokenIn
  {
    var n := |actions| - 1;
    var left := Leftovers(m, actions, plan.deadline, f);
    assert left[..n] == Leftovers(m, actions[..n], plan.deadline, f);
    forall i | 0 <= i < n && actions[i].tokenIn == actions[n].tokenIn ensures left[i] == 0 {
      if !actions[i].kind.EarnSwap? {
        OnlyEarnSwapsLeave(m, actions, plan.deadline, f, i);
      }
    }
    NothingLeft(actions[..n], left[..n], actions[n].tokenIn);
    assert LeftBy(m, actions[..n], plan.deadline, f)(actions[n].tokenIn)
           == LeftAt(actions[..n], left[..n], actions[n].tokenIn);
  }

  lemma NextHop(m: Market, plan: Plan, baselines: seq<nat>, actions: seq<Action>, w: World, base: Address, f: Flow)
    requires |plan.trackedTokens| == |baselines| && actions != []
    requires Chained(plan, actions, base)
    requires LeftoversStay(actions) || AllPulled(m, actions, plan.deadline, f)
    requires var front := actions[..|actions| - 1];
             Agrees(plan, baselines, w.balance, RunActions(m, plan, baselines, front, w),
                    Compose(m, front, plan.deadline, f), actions[|actions| - 1].tokenIn,
                    LeftBy(m, front, plan.deadline, f))
    ensures Agrees(plan, baselines, w.balance, RunActions(m, plan, baselines, actions, w),
                   Compose(m, actions, plan.deadline, f), Holder(actions, base), LeftBy(m, actions, plan.deadline, f))
  {
    var n := |actions| - 1;
    var front, a := actions[..n], actions[n];
    var before, flow := RunActions(m, plan, baselines, front, w), Compose(m, front, plan.deadline, f);
    if before.Ok? {
      var left := LeftBy(m, front, plan.deadline, f);
      NextIsClean(m, plan, actions, base, f);
      assert TokensTracked(plan, [a]);
      ActionIsHop(m, plan, baselines, a, before.value, w.balance, flow.value.amount, left);
      forall t: Address
        ensures Plus(left, a.tokenIn, Leftover(m, a, plan.deadline, flow.value))(t)
                == LeftBy(m, actions, plan.deadline, f)(t)
      {
        LeftBySnoc(m, actions, plan.deadline, f, t);
      }
      SameLeft(plan, baselines, w.balance, RunActions(m, plan, baselines, actions, w),
               Compose(m, actions, plan.deadline, f), a.tokenOut,
               Plus(left, a.tokenIn, Leftover(m, a, plan.deadline, flow.value)), LeftBy(m, actions, plan.deadline, f));
    }
  }

  /** When leftovers stay, or when every hop pulls all it is offered, what the hops left is never spent by a later
      one, and every prefix of the run is the composition plus the leftovers. */
  lemma {:induction false} RunIsComposition(m: Market, plan: Plan, baselines: seq<nat>, actions: seq<Action>, w: World,
                                            base: Address, x: nat)
    requires |plan.trackedTokens| == |baselines|
    requires Chained(plan, actions, base)
    requires LeftoversStay(actions) || AllPulled(m, actions, plan.deadline, Flow(x, w.pairs, w.history))
    requires Spread(plan, baselines, w.balance, w.balance, base, x, t => 0)
    ensures var f := Flow(x, w.pairs, w.history);
            Agrees(plan, baselines, w.balance, RunActions(m, plan, baselines, actions, w),
                   Compose(m, actions, plan.deadline, f), Holder(actions, base), LeftBy(m, actions, plan.deadline, f))
  {
    if actions != [] {
      NextIsClean(m, plan, actions, base, Flow(x, w.pairs, w.history));
      RunIsComposition(m, plan, baselines, actions[..|actions| - 1], w, base, x);
      NextHop(m, plan, baselines, actions, w, base, Flow(x, w.pairs, w.history));
    }
  }

  // ---- a whole plan ----

  /** What the composed venues return over the principal, with what they left of the settlement token. */
  datatype CycleEnd = CycleEnd(flow: Flow, margin: int)

  predicate LeftoversOk(plan: Plan, left: Address -> nat) {
    forall i :: 0 <= i < |plan.trackedTokens| ==>
      plan.trackedTokens[i].token == plan.settlementToken
      || left(plan.trackedTokens[i].token) <= plan.trackedTokens[i].maximumResidual
  }

  /** How a cyclic plan ends, in terms of the venues alone. */
  function CycleMargin(m: Market, plan: Plan, principal: nat, w: World): Outcome<CycleEnd>
    requires forall i :: 0 <= i < |plan.actions| ==> IsSwap(plan.actions[i].kind)
  {
    var start := Flow(principal, w.pairs, w.history);
    MarginOf(plan, principal, Compose(m, plan.actions, plan.deadline, start),
             LeftBy(m, plan.actions, plan.deadline, start))
  }

  function MarginOf(plan: Plan, principal: nat, flow: Outcome<Flow>, left: Address -> nat): Outcome<CycleEnd> {
    var out :- flow;
    var _ :- Need(LeftoversOk(plan, left), SettlementMismatch);
    Ok(CycleEnd(out, out.amount + left(plan.settlementToken) - principal))
  }

  function CycleOutcome(m: Market, plan: Plan, principal: nat, w: World): Outcome<CycleEnd>
    requires forall i :: 0 <= i < |plan.actions| ==> IsSwap(plan.actions[i].kind)
  {
    AtLeastMinimum(plan, CycleMargin(m, plan, principal, w))
  }

  function AtLeastMinimum(plan: Plan, margin: Outcome<CycleEnd>): Outcome<CycleEnd> {
    var end :- margin;
    if end.margin < plan.minimumProfit then
      Err(ProfitTooLow(if end.margin > 0 then end.margin else 0, plan.minimumProfit))
    else Ok(end)
  }

  /** The plans of this module: accepted, cyclic, and either leftovers stay or there are none. */
  predicate CyclePlanOk(m: Market, plan: Plan, principal: nat, now: nat, w: World) {
    && IsCycle(plan.actions, plan.settlementToken) && ValidatePlan(plan, now).Ok?
    && (LeftoversStay(plan.actions)
        || AllPulled(m, plan.actions, plan.deadline, Flow(principal, w.pairs, w.history)))
  }

  /** A receipt says what the composed venues say: the profit is the margin, and each other token has grown by
      what was left of it. A flash run that falls short panics where its checked addition overflows. */
  ghost predicate SettlesAs(m: Market, plan: Plan, principal: nat, w: World, r: Outcome<Receipt>, flash: bool)
    requires forall i :: 0 <= i < |plan.actions| ==> IsSwap(plan.actions[i].kind)
  {
    SettlesWith(plan, principal, w, r, CycleOutcome(m, plan, principal, w),
                LeftBy(m, plan.actions, plan.deadline, Flow(principal, w.pairs, w.history)), flash)
  }

  ghost predicate SettlesWith(plan: Plan, principal: nat, w: World, r: Outcome<Receipt>, outcome: Outcome<CycleEnd>,
                              left: Address -> nat, flash: bool)
  {
    match (r, outcome)
    case (Ok(receipt), Ok(end)) =>
      && receipt.grossProfit == end.margin
      && receipt.world.pairs == end.flow.pairs && receipt.world.history == end.flow.history
      && (forall t: Address ::
            Bal(receipt.world.balance, t)
            == Bal(w.balance, t) + if t == plan.settlementToken then end.margin else left(t))
    case (Err(e), Err(e')) => e == if flash && e'.ProfitTooLow? && FloorOverflows(plan, principal, w) then Panic else e'
    case _ => false
  }

  lemma {:induction false} SnapshotExists(tracked: seq<Tracked>, settlement: Address, principal: nat, b: Balances)
    requires principal <= Bal(b, settlement)
    ensures Baselines(tracked, settlement, principal, b).Ok?
  {
    if tracked != [] {
      SnapshotExists(tracked[1..], settlement, principal, b);
    }
  }

  lemma SnapshotIsSpread(plan: Plan, principal: nat, b: Balances, baselines: seq<nat>)
    requires Baselines(plan.trackedTokens, plan.settlementToken, principal, b) == Ok(baselines)
    requires IsTracked(plan.trackedTokens, plan.settlementToken)
    ensures |plan.trackedTokens| == |baselines|
    ensures Spread(plan, baselines, b, b, plan.settlementToken, principal, t => 0)
  {
    BaselinesAt(plan.trackedTokens, plan.settlementToken, principal, b);
    forall t: Address
      ensures Bal(b, t) == Floor(plan, baselines, b, t) + if t == plan.settlementToken then principal else 0
    {
      FloorIsSomeEntry(plan.trackedTokens, baselines, t);
      BaselineForFinds(plan.trackedTokens, baselines, t);
    }
  }

  /** The same when the principal is borrowed on top of the snapshot. */
  lemma LoanIsSpread(plan: Plan, principal: nat, b: Balances, baselines: seq<nat>)
    requires Baselines(plan.trackedTokens, plan.settlementToken, 0, b) == Ok(baselines)
    requires IsTracked(plan.trackedTokens, plan.settlementToken)
    ensures |plan.trackedTokens| == |baselines|
    ensures var funded := Credit(b, plan.settlementToken, principal);
            Spread(plan, baselines, funded, funded, plan.settlementToken, principal, t => 0)
  {
    var funded := Credit(b, plan.settlementToken, principal);
    BaselinesAt(plan.trackedTokens, plan.settlementToken, 0, b);
    forall t: Address
      ensures Bal(funded, t) == Floor(plan, baselines, funded, t) + if t == plan.settlementToken then principal else 0
    {
      FloorIsSomeEntry(plan.trackedTokens, baselines, t);
      BaselineForFinds(plan.trackedTokens, baselines, t);
    }
  }

  /** The residual check reads exactly the leftovers. */
  lemma ResidualsAreLeftovers(plan: Plan, baselines: seq<nat>, start: Balances, b: Balances, amount: nat,
                              left: Address -> nat)
    requires |plan.trackedTokens| == |baselines| && DistinctTracked(plan.trackedTokens)
    requires Spread(plan, baselines, start, b, plan.settlementToken, amount, left)
    ensures ResidualsOk(plan, baselines, b) <==> LeftoversOk(plan, left)
  {
    forall i | 0 <= i < |plan.trackedTokens| && plan.trackedTokens[i].token != plan.settlementToken
      ensures Bal(b, plan.trackedTokens[i].token) == baselines[i] + left(plan.trackedTokens[i].token)
    {
      BaselineForFinds(plan.trackedTokens, baselines, plan.trackedTokens[i].token);
      assert Bal(b, plan.trackedTokens[i].token)
             == Floor(plan, baselines, start, plan.trackedTokens[i].token) + left(plan.trackedTokens[i].token);
    }
  }

  lemma PlanIsChained(m: Market, plan: Plan, principal: nat, now: nat, w: World)
    requires CyclePlanOk(m, plan, principal, now, w)
    ensures Chained(plan, plan.actions, plan.settlementToken)
    ensures Holder(plan.actions, plan.settlementToken) == plan.settlementToken
    ensures IsTracked(plan.trackedTokens, plan.settlementToken) && DistinctTracked(plan.trackedTokens)
  {
    ValidSwapsAreTracked(plan, plan.actions);
  }

  /** From the run to the margin, for any snapshot and any funding. */
  lemma RunGivesMargin(m: Market, plan: Plan, baselines: seq<nat>, principal: nat, now: nat, w: World, start: World)
    requires CyclePlanOk(m, plan, principal, now, w) && |plan.trackedTokens| == |baselines|
    requires start.pairs == w.pairs && start.history == w.history
    requires Spread(plan, baselines, start.balance, start.balance, plan.settlementToken, principal, t => 0)
    ensures var f := Flow(principal, w.pairs, w.history);
            Agrees(plan, baselines, start.balance, RunActions(m, plan, baselines, plan.actions, start),
                   Compose(m, plan.actions, plan.deadline, f), plan.settlementToken,
                   LeftBy(m, plan.actions, plan.deadline, f))
  {
    PlanIsChained(m, plan, principal, now, w);
    RunIsComposition(m, plan, baselines, plan.actions, start, plan.settlementToken, principal);
  }

  lemma FinishGivesOutcome(plan: Plan, baselines: seq<nat>, principal: nat, start: Balances, b: Balances, amount: nat,
                           left: Address -> nat)
    requires |plan.trackedTokens| == |baselines| && DistinctTracked(plan.trackedTokens)
    requires IsTracked(plan.trackedTokens, plan.settlementToken)
    requires Spread(plan, baselines, start, b, plan.settlementToken, amount, left)
    ensures var margin := amount + left(plan.settlementToken) - principal;
            Finish(plan, baselines, principal, b)
            == if !LeftoversOk(plan, left) then Err(SettlementMismatch)
               else if margin < plan.minimumProfit then
                 Err(ProfitTooLow(if margin > 0 then margin else 0, plan.minimumProfit))
               else Ok(margin)
  {
    ResidualsAreLeftovers(plan, baselines, start, b, amount, left);
    BaselineForFinds(plan.trackedTokens, baselines, plan.settlementToken);
    assert Bal(b, plan.settlementToken)
           == Floor(plan, baselines, start, plan.settlementToken) + left(plan.settlementToken) + amount;
  }

  /** A cyclic plan from inventory: it succeeds exactly when the composed venues, with what they left of settlement,
      return at least principal plus minimum profit and every other leftover is within its residual; otherwise
      the error is the composition's. */
  lemma CyclicPlanIsComposition(m: Market, plan: Plan, principal: nat, now: nat, w: World)
    requires CyclePlanOk(m, plan, principal, now, w)
    requires principal <= Bal(w.balance, plan.settlementToken)
    ensures SettlesAs(m, plan, principal, w, ExecuteWithInventory(m, plan, principal, now, w), false)
  {
    PlanIsChained(m, plan, principal, now, w);
    SnapshotExists(plan.trackedTokens, plan.settlementToken, principal, w.balance);
    var baselines := Baselines(plan.trackedTokens, plan.settlementToken, principal, w.balance).value;
    SnapshotIsSpread(plan, principal, w.balance, baselines);
    RunSettles(m, plan, baselines, principal, now, w);
  }

  /** The actions and the final check, once the snapshot is taken. */
  lemma RunSettles(m: Market, plan: Plan, baselines: seq<nat>, principal: nat, now: nat, w: World)
    requires CyclePlanOk(m, plan, principal, now, w) && |plan.trackedTokens| == |baselines|
    requires Spread(plan, baselines, w.balance, w.balance, plan.settlementToken, principal, t => 0)
    ensures SettlesAs(m, plan, principal, w, RunAndFinish(m, plan, baselines, principal, w), false)
  {
    var f := Flow(principal, w.pairs, w.history);
    PlanIsChained(m, plan, principal, now, w);
    RunGivesMargin(m, plan, baselines, principal, now, w, w);
    FinishSettles(plan, baselines, principal, w, RunActions(m, plan, baselines, plan.actions, w),
                  Compose(m, plan.actions, plan.deadline, f), LeftBy(m, plan.actions, plan.deadline, f));
  }

  /** What becomes of the run at the final check, in terms of the flow it agrees with. */
  lemma FinishSettles(plan: Plan, baselines: seq<nat>, principal: nat, w: World, run: Outcome<World>,
                      flow: Outcome<Flow>, left: Address -> nat)
    requires |plan.trackedTokens| == |baselines| && DistinctTracked(plan.trackedTokens)
    requires IsTracked(plan.trackedTokens, plan.settlementToken)
    requires Spread(plan, baselines, w.balance, w.balance, plan.settlementToken, principal, t => 0)
    requires Agrees(plan, baselines, w.balance, run, flow, plan.settlementToken, left)
    ensures SettlesWith(plan, principal, w, FinishedRun(plan, baselines, principal, run),
                        AtLeastMinimum(plan, MarginOf(plan, principal, flow, left)), left, false)
  {
    if run.Ok? {
      FinishGivesOutcome(plan, baselines, principal, w.balance, run.value.balance, flow.value.amount, left);
      SpreadDifference(plan, baselines, principal, w.balance, w.balance, run.value.balance, flow.value.amount, left);
    }
  }

  function FinishedRun(plan: Plan, baselines: seq<nat>, principal: nat, run: Outcome<World>): Outcome<Receipt>
    requires |plan.trackedTokens| == |baselines|
  {
    var after :- run;
    var profit :- Finish(plan, baselines, principal, after.balance);
    Ok(Receipt(after, profit))
  }

  /** From the floors to the balances before: the margin in settlement, the leftovers elsewhere. */
  lemma SpreadDifference(plan: Plan, baselines: seq<nat>, principal: nat, start: Balances, funded: Balances,
                         b: Balances, amount: nat, left: Address -> nat)
    requires |plan.trackedTokens| == |baselines|
    requires Spread(plan, baselines, funded, funded, plan.settlementToken, principal, t => 0)
    requires Spread(plan, baselines, funded, b, plan.settlementToken, amount, left)
    requires forall t: Address :: t != plan.settlementToken ==> Bal(funded, t) == Bal(start, t)
    ensures forall t: Address ::
              Bal(b, t) == Bal(funded, t) + if t == plan.settlementToken then amount + left(t) - principal else left(t)
  {
    forall t: Address
      ensures Bal(b, t) == Bal(funded, t) + if t == plan.settlementToken then amount + left(t) - principal else left(t)
    {
      assert Bal(funded, t) == Floor(plan, baselines, funded, t) + if t == plan.settlementToken then principal else 0;
    }
  }

  /** What a flash-funded run needs besides: a principal to borrow, and someone to lend it. */
  predicate Lendable(m: Market, plan: Plan, principal: nat) {
    0 < principal <= m.loanLiquidity(plan.settlementToken)
  }

  lemma LoanGivesMargin(m: Market, plan: Plan, principal: nat, now: nat, w: World)
    requires CyclePlanOk(m, plan, principal, now, w) && Lendable(m, plan, principal)
    ensures match (BorrowAndRun(m, plan, principal, now, w), CycleMargin(m, plan, principal, w))
            case (Ok((after, margin)), Ok(end)) =>
              && margin == end.margin && after.pairs == end.flow.pairs && after.history == end.flow.history
              && (forall t: Address ::
                    Bal(after.balance, t)
                    == Bal(w.balance, t) + if t == plan.settlementToken then principal + margin
                                           else LeftBy(m, plan.actions, plan.deadline,
                                                       Flow(principal, w.pairs, w.history))(t))
            case (Err(e), Err(e')) => e == e'
            case _ => false
  {
    var s := plan.settlementToken;
    PlanIsChained(m, plan, principal, now, w);
    SnapshotExists(plan.trackedTokens, s, 0, w.balance);
    var baselines := Baselines(plan.trackedTokens, s, 0, w.balance).value;
    LoanIsSpread(plan, principal, w.balance, baselines);
    var funded := w.(balance := Credit(w.balance, s, principal));
    RunGivesMargin(m, plan, baselines, principal, now, w, funded);
    var run := RunActions(m, plan, baselines, plan.actions, funded);
    if run.Ok? {
      var f := Flow(principal, w.pairs, w.history);
      var left := LeftBy(m, plan.actions, plan.deadline, f);
      var out := Compose(m, plan.actions, plan.deadline, f).value;
      LoanMargin(plan, baselines, principal, funded.balance, run.value.balance, out.amount, left);
      SpreadDifference(plan, baselines, principal, w.balance, funded.balance, run.value.balance, out.amount, left);
    }
  }

  lemma LoanMargin(plan: Plan, baselines: seq<nat>, principal: nat, start: Balances, b: Balances, amount: nat,
                   left: Address -> nat)
    requires |plan.trackedTokens| == |baselines| && DistinctTracked(plan.trackedTokens)
    requires IsTracked(plan.trackedTokens, plan.settlementToken)
    requires Spread(plan, baselines, start, b, plan.settlementToken, amount, left)
    ensures var baseline := BaselineFor(plan.trackedTokens, baselines, plan.settlementToken);
            && baseline.Ok?
            && Bal(b, plan.settlementToken) - (baseline.value + principal)
               == amount + left(plan.settlementToken) - principal
    ensures ResidualsOk(plan, baselines, b) <==> LeftoversOk(plan, left)
  {
    ResidualsAreLeftovers(plan, baselines, start, b, amount, left);
    BaselineForFinds(plan.trackedTokens, baselines, plan.settlementToken);
    assert Bal(b, plan.settlementToken)
           == Floor(plan, baselines, start, plan.settlementToken) + left(plan.settlementToken) + amount;
  }

  /** The same plan on a loan, with no inventory at all: the same outcome, and a quote reports the margin. */
  lemma CyclicFlashIsComposition(m: Market, plan: Plan, principal: nat, now: nat, w: World)
    requires CyclePlanOk(m, plan, principal, now, w) && Lendable(m, plan, principal)
    ensures SettlesAs(m, plan, principal, w, ExecuteWithFlash(m, plan, principal, now, w), true)
    ensures match CycleMargin(m, plan, principal, w)
            case Err(e) => QuoteWithFlash(m, plan, principal, now, w) == Failed(e)
            case Ok(end) => -MAX_INT256 <= end.margin <= MAX_INT256 ==>
                              QuoteWithFlash(m, plan, principal, now, w) == Reported(end.margin)
  {
    LoanGivesMargin(m, plan, principal, now, w);
    LoanErrors(m, plan, principal, now, w);
    var loan := BorrowAndRun(m, plan, principal, now, w);
    if loan.Ok? && loan.value.1 >= plan.minimumProfit {
      DebitBal(loan.value.0.balance, plan.settlementToken, principal);
    }
  }

  // ---- when nothing is left ----

  /** Nothing but settlement changed, by what the composed venues return over the principal. */
  ghost predicate IsPureComposition(m: Market, plan: Plan, principal: nat, w: World, r: Receipt)
    requires forall i :: 0 <= i < |plan.actions| ==> IsSwap(plan.actions[i].kind)
  {
    && Compose(m, plan.actions, plan.deadline, Flow(principal, w.pairs, w.history)).Ok?
    && r.grossProfit == Compose(m, plan.actions, plan.deadline,
                                Flow(principal, w.pairs, w.history)).value.amount - principal
    && forall t: Address :: t != plan.settlementToken ==> Bal(r.world.balance, t) == Bal(w.balance, t)
  }

  lemma {:induction false} PulledLeavesNothing(m: Market, plan: Plan, f: Flow, t: Address)
    requires forall i :: 0 <= i < |plan.actions| ==> IsSwap(plan.actions[i].kind)
    requires AllPulled(m, plan.actions, plan.deadline, f)
    ensures LeftBy(m, plan.actions, plan.deadline, f)(t) == 0
  {
    NothingLeft(plan.actions, Leftovers(m, plan.actions, plan.deadline, f), t);
  }

  /** Success is pure composition, with every residual zero, exactly when every hop of this run pulled all it was
      offered. The receipt may come from either way of funding. */
  lemma PureExactlyWhenAllPulled(m: Market, plan: Plan, principal: nat, w: World, r: Receipt, flash: bool)
    requires IsCycle(plan.actions, plan.settlementToken)
    requires SettlesAs(m, plan, principal, w, Ok(r), flash)
    ensures IsPureComposition(m, plan, principal, w, r)
            <==> AllPulled(m, plan.actions, plan.deadline, Flow(principal, w.pairs, w.history))
  {
    var f := Flow(principal, w.pairs, w.history);
    var left := Leftovers(m, plan.actions, plan.deadline, f);
    if AllPulled(m, plan.actions, plan.deadline, f) {
      forall t: Address ensures LeftBy(m, plan.actions, plan.deadline, f)(t) == 0 {
        PulledLeavesNothing(m, plan, f, t);
      }
    }
    if IsPureComposition(m, plan, principal, w, r) {
      forall i | 0 <= i < |plan.actions| ensures left[i] == 0 {
        var t := plan.actions[i].tokenIn;
        LeftAtLeast(plan.actions, left, i);
        assert LeftBy(m, plan.actions, plan.deadline, f)(t) == LeftAt(plan.actions, left, t);
      }
    }
  }

  // ---- a plan that succeeds and leaves something ----

  /** Pays ten more than it is offered; of token 2 it leaves one unit behind. */
  function ThriftyEarn(call: Call): Option<(nat, nat)> {
    if call.EarnSwapCall? && call.amount > 0
    then Some((if call.tokenIn == 2 then call.amount - 1 else call.amount, call.amount + 10))
    else None
  }

  const THRIFTY_EARN := Market(
    (a: Address, b: Address) => ZERO, (a: Address, b: Address, fee: nat) => ZERO, (h: History, c: Call) => None,
    (h: History, c: Call) => None, (h: History, c: Call) => None,
    (h: History, p: Address) => EarnPool(true, false, false, [1, 2]), (h: History, c: Call) => ThriftyEarn(c),
    (h: History, c: Call) => None, (h: History, c: Call) => None, (t: Address) => false, (t: Address) => 1000)

  const NO_KEY := PoolKey(ZERO, ZERO, 0, 0, ZERO)

  const THERE := Action(EarnSwap, 1, 2, 9, 0, 0, 0, NO_KEY)
  const BACK := Action(EarnSwap, 2, 1, 9, 0, 0, 0, NO_KEY)

  const ROUND_TRIP := Plan(1, [Tracked(1, 0), Tracked(2, 1)], [THERE, BACK], 1, 0)

  lemma RoundTripIsAccepted()
    ensures ValidatePlan(ROUND_TRIP, 0).Ok? && IsCycle(ROUND_TRIP.actions, 1) && LeftoversStay(ROUND_TRIP.actions)
  {
    assert ROUND_TRIP.trackedTokens[0].token == 1 && ROUND_TRIP.trackedTokens[1].token == 2;
    assert IsTracked(ROUND_TRIP.trackedTokens, 1) && IsTracked(ROUND_TRIP.trackedTokens, 2);
    assert ROUND_TRIP.actions[1..] == [BACK] && [BACK][1..] == [];
    assert ValidateAction(ROUND_TRIP, THERE).Ok? && ValidateAction(ROUND_TRIP, BACK).Ok?;
    assert ValidateActions(ROUND_TRIP, [BACK]).Ok?;
  }

  lemma RoundTripFlow()
    ensures Compose(THRIFTY_EARN, ROUND_TRIP.actions, 0, Flow(100, map[], [])).Ok?
    ensures Compose(THRIFTY_EARN, ROUND_TRIP.actions, 0, Flow(100, map[], [])).value.amount == 120
    ensures Leftovers(THRIFTY_EARN, ROUND_TRIP.actions, 0, Flow(100, map[], [])) == [0, 1]
  {
    var f := Flow(100, map[], []);
    var call := EarnSwapCall(9, 1, 2, 100, 0, 0);
    assert ROUND_TRIP.actions[..1] == [THERE] && [THERE][..0] == [];
    assert Compose(THRIFTY_EARN, [], 0, f) == Ok(f);
    assert [] + [call] == [call];
    assert FillOf(THRIFTY_EARN, THERE, 100, 0, map[], []) == Ok(Fill(100, 2, 110, map[], [call]));
    assert Compose(THRIFTY_EARN, [THERE], 0, f) == Ok(Flow(110, map[], [call]));
  }

  lemma RoundTripLeaves()
    ensures var left := LeftBy(THRIFTY_EARN, ROUND_TRIP.actions, 0, Flow(100, map[], [])); left(2) == 1 && left(1) == 0
  {
    RoundTripFlow();
    assert ROUND_TRIP.actions[..1] == [THERE] && [0, 1][..1] == [0] && [THERE][..0] == [];
    assert LeftAt([], [], 2) == 0 && LeftAt([], [], 1) == 0;
    assert LeftAt([THERE], [0], 2) == 0 && LeftAt([THERE], [0], 1) == 0;
    assert LeftAt(ROUND_TRIP.actions, [0, 1], 2) == 1 && LeftAt(ROUND_TRIP.actions, [0, 1], 1) == 0;
  }

  lemma RoundTripOutcome(w: World)
    requires w.pairs == map[] && w.history == []
    ensures CyclePlanOk(THRIFTY_EARN, ROUND_TRIP, 100, 0, w)
    ensures CycleOutcome(THRIFTY_EARN, ROUND_TRIP, 100, w).Ok?
  {
    RoundTripIsAccepted();
    RoundTripFlow();
    RoundTripLeaves();
  }

  /** An accepted cycle that spends no token twice succeeds and keeps one unit of the token in between, from inventory
      and on a loan alike: the residual allowance lets it. */
  lemma ResidualCanSurvive(w: World)
    requires w.pairs == map[] && w.history == []
    ensures Bal(w.balance, 1) >= 100 ==>
              && ExecuteWithInventory(THRIFTY_EARN, ROUND_TRIP, 100, 0, w).Ok?
              && Bal(ExecuteWithInventory(THRIFTY_EARN, ROUND_TRIP, 100, 0, w).value.world.balance, 2)
                 == Bal(w.balance, 2) + 1
    ensures ExecuteWithFlash(THRIFTY_EARN, ROUND_TRIP, 100, 0, w).Ok?
    ensures Bal(ExecuteWithFlash(THRIFTY_EARN, ROUND_TRIP, 100, 0, w).value.world.balance, 2) == Bal(w.balance, 2) + 1
  {
    RoundTripOutcome(w);
    RoundTripLeaves();
    if Bal(w.balance, 1) >= 100 {
      CyclicPlanIsComposition(THRIFTY_EARN, ROUND_TRIP, 100, 0, w);
    }
    CyclicFlashIsComposition(THRIFTY_EARN, ROUND_TRIP, 100, 0, w);
  }
}
