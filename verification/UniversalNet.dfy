// What the universal executor's entry points amount to, with approvals, callbacks and transient storage
// left out: token balances, v2 reserves and the calls other pools have served. UniversalExecutor.dfy
// proves that the step-by-step contract computes exactly these functions.
module UniversalNet {
  import opened Evm
  import opened Market
  import opened DeltaPacking
  import opened ConstantProduct

  const MAX_TRACKED_TOKENS: nat := 16
  const MAX_ACTIONS: nat := 24

  datatype Kind = UniswapV2Swap | UniswapV3Swap | UniswapV4Swap | EarnSwap | EarnAddUnbalanced | EarnRemoveProportional

  datatype Action = Action(
    kind: Kind,
    tokenIn: Address,
    tokenOut: Address,
    pool: Address,
    amountIn: nat,
    minimumAmountOut: nat,
    fee: nat,
    v4Pool: PoolKey)

  datatype Tracked = Tracked(token: Address, maximumResidual: nat)

  datatype Plan = Plan(
    settlementToken: Address,
    trackedTokens: seq<Tracked>,
    actions: seq<Action>,
    minimumProfit: nat,
    deadline: nat)

  datatype Pair = Pair(token0: Address, token1: Address, reserve0: nat, reserve1: nat)

  datatype World = World(balance: Balances, pairs: map<Address, Pair>, history: History)

  // ---- plans and baselines ----

  predicate IsTracked(tracked: seq<Tracked>, token: Address) {
    exists i :: 0 <= i < |tracked| && tracked[i].token == token
  }

  function RequireTracked(tracked: seq<Tracked>, token: Address): Outcome<()> {
    Need(IsTracked(tracked, token), InvalidPlan)
  }

  function BaselineFor(tracked: seq<Tracked>, baselines: seq<nat>, token: Address): Outcome<nat>
    requires |tracked| == |baselines|
  {
    if tracked == [] then Err(InvalidPlan)
    else if tracked[0].token == token then Ok(baselines[0])
    else BaselineFor(tracked[1..], baselines[1..], token)
  }

  predicate DistinctTracked(tracked: seq<Tracked>) {
    forall i, j :: 0 <= i < j < |tracked| ==> tracked[i].token != tracked[j].token
  }

  function ValidateAction(plan: Plan, a: Action): Outcome<()> {
    if a.kind.EarnAddUnbalanced? || a.kind.EarnRemoveProportional? then
      RequireTracked(plan.trackedTokens, a.pool)
    else if a.tokenIn == ZERO || a.tokenOut == ZERO || a.tokenIn == a.tokenOut then
      Err(InvalidAction)
    else
      var _ :- RequireTracked(plan.trackedTokens, a.tokenIn);
      RequireTracked(plan.trackedTokens, a.tokenOut)
  }

  function ValidateActions(plan: Plan, actions: seq<Action>): Outcome<()> {
    if actions == [] then Ok(())
    else
      var _ :- ValidateAction(plan, actions[0]);
      ValidateActions(plan, actions[1..])
  }

  predicate PlanShapeOk(plan: Plan, now: nat) {
    && plan.settlementToken != ZERO
    && plan.minimumProfit != 0
    && now <= plan.deadline
    && 0 < |plan.trackedTokens| <= MAX_TRACKED_TOKENS
    && 0 < |plan.actions| <= MAX_ACTIONS
    && (forall i :: 0 <= i < |plan.trackedTokens| ==> plan.trackedTokens[i].token != ZERO)
    && DistinctTracked(plan.trackedTokens)
    && IsTracked(plan.trackedTokens, plan.settlementToken)
  }

  function ValidatePlan(plan: Plan, now: nat): Outcome<()> {
    if !PlanShapeOk(plan, now) then Err(InvalidPlan) else ValidateActions(plan, plan.actions)
  }

  /** Existing balances, less the part of settlement inventory put at risk. */
  function Baselines(tracked: seq<Tracked>, settlement: Address, principal: nat, b: Balances): Outcome<seq<nat>> {
    if tracked == [] then Ok([])
    else
      var t := tracked[0].token;
      if t == settlement && Bal(b, t) < principal then Err(InsufficientPrincipal)
      else
        var rest :- Baselines(tracked[1..], settlement, principal, b);
        Ok([if t == settlement then Bal(b, t) - principal else Bal(b, t)] + rest)
  }

  function Available(plan: Plan, baselines: seq<nat>, b: Balances, token: Address, requested: nat): Outcome<nat>
    requires |plan.trackedTokens| == |baselines|
  {
    var baseline :- BaselineFor(plan.trackedTokens, baselines, token);
    if Bal(b, token) <= baseline then Err(InsufficientPrincipal)
    else
      var available := Bal(b, token) - baseline;
      var amount := if requested == 0 then available else requested;
      if amount == 0 || amount > available || amount > MAX_INT128 then Err(InvalidAmount) else Ok(amount)
  }

  function AvailableAll(plan: Plan, baselines: seq<nat>, b: Balances, tokens: seq<Address>): Outcome<seq<nat>>
    requires |plan.trackedTokens| == |baselines|
    ensures AvailableAll(plan, baselines, b, tokens).Ok? ==>
              |AvailableAll(plan, baselines, b, tokens).value| == |tokens|
  {
    if tokens == [] then Ok([])
    else
      var rest :- AvailableAll(plan, baselines, b, tokens[..|tokens| - 1]);
      var last :- Available(plan, baselines, b, tokens[|tokens| - 1], 0);
      Ok(rest + [last])
  }

  // ---- what each venue does with an exact input ----

  /** A pair that has just received `amountIn` of `tokenIn` and is asked for outputs. */
  function PairSwap(p: Pair, tokenIn: Address, amountIn: nat, out0: nat, out1: nat): Outcome<Pair> {
    var in0 := if tokenIn == p.token0 then amountIn else 0;
    var in1 := if tokenIn == p.token1 && tokenIn != p.token0 then amountIn else 0;
    if (out0 == 0 && out1 == 0) || out0 >= p.reserve0 || out1 >= p.reserve1 || (in0 == 0 && in1 == 0) then
      Err(ExternalRevert)
    else
      var b0 := p.reserve0 + in0 - out0;
      var b1 := p.reserve1 + in1 - out1;
      if b0 > MAX_UINT112 || b1 > MAX_UINT112
         || (FEE_DENOMINATOR * b0 - 3 * in0) * (FEE_DENOMINATOR * b1 - 3 * in1)
            < FEE_DENOMINATOR * FEE_DENOMINATOR * (p.reserve0 * p.reserve1)
      then Err(ExternalRevert)
      else Ok(p.(reserve0 := b0, reserve1 := b1))
  }

  /** What a swap used and in which token it paid what, and the venues afterwards. */
  datatype Fill = Fill(spent: nat, token: Address, received: nat, pairs: map<Address, Pair>, history: History)

  function FillV2(m: Market, a: Action, x: nat, pairs: map<Address, Pair>, h: History): Outcome<Fill>
    requires 0 < x
  {
    var _ :- Need(a.fee == 0 && a.pool != ZERO, InvalidAction);
    var _ :- Need(m.v2Pair(a.tokenIn, a.tokenOut) == a.pool, CanonicalPoolMismatch);
    var _ :- Need(a.pool in pairs, ExternalRevert);
    var p := pairs[a.pool];
    var zeroForOne := p.token0 == a.tokenIn;
    var out := if zeroForOne then AmountOut(x, p.reserve0, p.reserve1) else AmountOut(x, p.reserve1, p.reserve0);
    var _ :- Need(out != 0, InvalidSwapDelta);
    var q :- PairSwap(p, a.tokenIn, x, if zeroForOne then 0 else out, if zeroForOne then out else 0);
    Ok(Fill(x, if zeroForOne then p.token1 else p.token0, out, pairs[a.pool := q], h))
  }

  function FillV3(m: Market, a: Action, x: nat, pairs: map<Address, Pair>, h: History): Outcome<Fill> {
    var _ :- Need(a.pool != ZERO && a.fee != 0, InvalidAction);
    var _ :- Need(m.v3Pool(a.tokenIn, a.tokenOut, a.fee) == a.pool, CanonicalPoolMismatch);
    V3Venue(m, a.pool, a.tokenIn < a.tokenOut, a.tokenOut, x, pairs, h)
  }

  function V3Venue(m: Market, pool: Address, zeroForOne: bool, tokenOut: Address, x: nat, pairs: map<Address, Pair>,
                   h: History): Outcome<Fill>
  {
    var call := V3Call(pool, zeroForOne, x);
    match m.v3Swap(h, call)
    case None => Err(ExternalRevert)
    case Some((amount0, amount1)) =>
      var out :- ValidateV3Delta(amount0, amount1, zeroForOne, x);
      Ok(Fill(x, tokenOut, out, pairs, h + [call]))
  }

  predicate V4ActionOk(a: Action) {
    && a.pool == ZERO
    && a.fee == 0
    && a.v4Pool.currency0 < a.v4Pool.currency1
    && (|| (a.v4Pool.currency0 == a.tokenIn && a.v4Pool.currency1 == a.tokenOut)
        || (a.v4Pool.currency1 == a.tokenIn && a.v4Pool.currency0 == a.tokenOut))
  }

  function FillV4(m: Market, a: Action, x: nat, pairs: map<Address, Pair>, h: History): Outcome<Fill> {
    var _ :- Need(V4ActionOk(a), InvalidAction);
    var zeroForOne := a.v4Pool.currency0 == a.tokenIn;
    var call := V4Call(a.v4Pool, zeroForOne, x);
    match m.v4Swap(h, call)
    case None => Err(ExternalRevert)
    case Some((amount0, amount1)) =>
      if !IsInt128(amount0) || !IsInt128(amount1) then Err(ExternalRevert)
      else
        var out :- ValidateV4Delta(Pack(amount0, amount1), zeroForOne, x);
        Ok(Fill(x, a.tokenOut, out, pairs, h + [call]))
  }

  function EarnPoolTokens(m: Market, pool: Address, h: History): Outcome<seq<Address>> {
    var p := m.earnPool(h, pool);
    if !p.initialized || p.paused || p.inRecovery || |p.tokens| < 2 || |p.tokens| > 8
    then Err(CanonicalPoolMismatch)
    else Ok(p.tokens)
  }

  function FillEarn(m: Market, a: Action, x: nat, deadline: nat, pairs: map<Address, Pair>, h: History): Outcome<Fill> {
    var _ :- Need(a.pool != ZERO && a.fee == 0, InvalidAction);
    var tokens :- EarnPoolTokens(m, a.pool, h);
    var _ :- Need(a.tokenIn in tokens && a.tokenOut in tokens, CanonicalPoolMismatch);
    var call := EarnSwapCall(a.pool, a.tokenIn, a.tokenOut, x, a.minimumAmountOut, deadline);
    match m.earnSwap(h, call)
    case None => Err(ExternalRevert)
    case Some((pulled, paid)) =>
      if pulled > x then Err(ExternalRevert) else Ok(Fill(pulled, a.tokenOut, paid, pairs, h + [call]))
  }

  predicate IsSwap(k: Kind) { k.UniswapV2Swap? || k.UniswapV3Swap? || k.UniswapV4Swap? || k.EarnSwap? }

  /** The venue's answer to an exact input, whatever the executor's balances are. */
  function FillOf(m: Market, a: Action, x: nat, deadline: nat, pairs: map<Address, Pair>, h: History): Outcome<Fill>
    requires 0 < x && IsSwap(a.kind)
  {
    match a.kind
    case UniswapV2Swap => FillV2(m, a, x, pairs, h)
    case UniswapV3Swap => FillV3(m, a, x, pairs, h)
    case UniswapV4Swap => FillV4(m, a, x, pairs, h)
    case EarnSwap => FillEarn(m, a, x, deadline, pairs, h)
  }

  // ---- one action ----

  /** The world after an action, and the output amount the venue reported for it. */
  datatype Step = Step(world: World, amountOut: nat)

  function Swap(m: Market, plan: Plan, a: Action, x: nat, w: World): Outcome<Step>
    requires 0 < x && IsSwap(a.kind)
  {
    var fill :- FillOf(m, a, x, plan.deadline, w.pairs, w.history);
    var b :- Debit(w.balance, a.tokenIn, fill.spent);
    Ok(Step(World(Credit(b, fill.token, fill.received), fill.pairs, fill.history), fill.received))
  }

  /** Pull `pulls[i]` of `tokens[i]` in turn, each within what is still approved for that token. */
  function PullAll(b: Balances, approved: Balances, tokens: seq<Address>, pulls: seq<nat>): Outcome<Balances>
    requires |tokens| == |pulls|
    decreases |tokens|
  {
    if tokens == [] then Ok(b)
    else if pulls[0] > Bal(approved, tokens[0]) then Err(ExternalRevert)
    else
      var b' :- Debit(b, tokens[0], pulls[0]);
      PullAll(b', Put(approved, tokens[0], Bal(approved, tokens[0]) - pulls[0]), tokens[1..], pulls[1..])
  }

  function CreditAll(b: Balances, tokens: seq<Address>, amounts: seq<nat>): Balances
    requires |tokens| == |amounts|
    decreases |tokens|
  {
    if tokens == [] then b else CreditAll(Credit(b, tokens[0], amounts[0]), tokens[1..], amounts[1..])
  }

  /** Approving token by token; the last approval of a token counts. */
  function ApprovalsFor(tokens: seq<Address>, amounts: seq<nat>): Balances
    requires |tokens| == |amounts|
  {
    if tokens == [] then map[]
    else
      var n := |tokens| - 1;
      Put(ApprovalsFor(tokens[..n], amounts[..n]), tokens[n], amounts[n])
  }

  function AddEarn(m: Market, plan: Plan, baselines: seq<nat>, a: Action, w: World): Outcome<Step>
    requires |plan.trackedTokens| == |baselines|
  {
    var _ :- Need(a.pool != ZERO && a.pool == a.tokenOut && a.tokenIn == ZERO && a.amountIn == 0 && a.fee == 0,
                  InvalidAction);
    var tokens :- EarnPoolTokens(m, a.pool, w.history);
    DepositAll(m, plan, baselines, a, tokens, w)
  }

  function DepositAll(m: Market, plan: Plan, baselines: seq<nat>, a: Action, tokens: seq<Address>,
                      w: World): Outcome<Step>
    requires |plan.trackedTokens| == |baselines|
  {
    var amounts :- AvailableAll(plan, baselines, w.balance, tokens);
    var call := EarnAddCall(a.pool, amounts, a.minimumAmountOut);
    match m.earnAdd(w.history, call)
    case None => Err(ExternalRevert)
    case Some((pulls, paid)) =>
      if |pulls| != |tokens| then Err(ExternalRevert)
      else
        var b :- PullAll(w.balance, ApprovalsFor(tokens, amounts), tokens, pulls);
        Ok(Step(World(Credit(b, a.pool, paid), w.pairs, w.history + [call]), paid))
  }

  function Sum(xs: seq<nat>): nat {
    if xs == [] then 0 else Sum(xs[..|xs| - 1]) + xs[|xs| - 1]
  }

  predicate AllTracked(tracked: seq<Tracked>, tokens: seq<Address>) {
    forall i :: 0 <= i < |tokens| ==> IsTracked(tracked, tokens[i])
  }

  function RemoveEarn(m: Market, plan: Plan, a: Action, x: nat, w: World): Outcome<Step> {
    var _ :- Need(a.pool != ZERO && a.pool == a.tokenIn && a.tokenOut == ZERO && a.fee == 0
                  && a.minimumAmountOut == 0, InvalidAction);
    var tokens :- EarnPoolTokens(m, a.pool, w.history);
    var _ :- Need(AllTracked(plan.trackedTokens, tokens), InvalidPlan);
    var call := EarnRemoveCall(a.pool, x);
    match m.earnRemove(w.history, call)
    case None => Err(ExternalRevert)
    case Some((pulled, outputs)) =>
      if pulled > x then Err(ExternalRevert)
      else
        var b :- Debit(w.balance, a.pool, pulled);
        if |outputs| != |tokens| then Err(SettlementMismatch)
        else if Sum(outputs) > MAX_UINT256 then Err(Panic)
        else Ok(Step(World(CreditAll(b, tokens, outputs), w.pairs, w.history + [call]), Sum(outputs)))
  }

  /** One typed action, including the measured-output check around it. */
  function RunAction(m: Market, plan: Plan, baselines: seq<nat>, a: Action, w: World): Outcome<World>
    requires |plan.trackedTokens| == |baselines|
  {
    var step :- StepOf(m, plan, baselines, a, w);
    if a.tokenOut != ZERO
       && (Bal(step.world.balance, a.tokenOut) != Bal(w.balance, a.tokenOut) + step.amountOut
           || step.amountOut < a.minimumAmountOut)
    then Err(SettlementMismatch)
    else Ok(step.world)
  }

  /** What the action does before its output is measured. */
  function StepOf(m: Market, plan: Plan, baselines: seq<nat>, a: Action, w: World): Outcome<Step>
    requires |plan.trackedTokens| == |baselines|
  {
    if a.kind.EarnAddUnbalanced? then AddEarn(m, plan, baselines, a, w)
    else
      var x :- Available(plan, baselines, w.balance, a.tokenIn, a.amountIn);
      if a.kind.EarnRemoveProportional? then RemoveEarn(m, plan, a, x, w) else Swap(m, plan, a, x, w)
  }

  function RunActions(m: Market, plan: Plan, baselines: seq<nat>, actions: seq<Action>, w: World): Outcome<World>
    requires |plan.trackedTokens| == |baselines|
  {
    if actions == [] then Ok(w)
    else
      var n := |actions| - 1;
      var before :- RunActions(m, plan, baselines, actions[..n], w);
      RunAction(m, plan, baselines, actions[n], before)
  }

  // ---- entry points ----

  predicate ResidualsOk(plan: Plan, baselines: seq<nat>, b: Balances)
    requires |plan.trackedTokens| == |baselines|
  {
    forall i :: 0 <= i < |plan.trackedTokens| ==>
      plan.trackedTokens[i].token == plan.settlementToken
      || Bal(b, plan.trackedTokens[i].token) <= baselines[i] + plan.trackedTokens[i].maximumResidual
  }

  /** A successful execution. */
  datatype Receipt = Receipt(world: World, grossProfit: nat)

  function Finish(plan: Plan, baselines: seq<nat>, principal: nat, b: Balances): Outcome<nat>
    requires |plan.trackedTokens| == |baselines|
  {
    var _ :- Need(ResidualsOk(plan, baselines, b), SettlementMismatch);
    var baseline :- BaselineFor(plan.trackedTokens, baselines, plan.settlementToken);
    var current := Bal(b, plan.settlementToken);
    if current < baseline + principal then Err(ProfitTooLow(0, plan.minimumProfit))
    else
      var profit := current - (baseline + principal);
      if profit < plan.minimumProfit then Err(ProfitTooLow(profit, plan.minimumProfit)) else Ok(profit)
  }

  function ExecuteWithInventory(m: Market, plan: Plan, principal: nat, now: nat, w: World): Outcome<Receipt> {
    var _ :- ValidatePlan(plan, now);
    var baselines :- Baselines(plan.trackedTokens, plan.settlementToken, principal, w.balance);
    BaselinesLength(plan.trackedTokens, plan.settlementToken, principal, w.balance);
    RunAndFinish(m, plan, baselines, principal, w)
  }

  function RunAndFinish(m: Market, plan: Plan, baselines: seq<nat>, principal: nat, w: World): Outcome<Receipt>
    requires |plan.trackedTokens| == |baselines|
  {
    var after :- RunActions(m, plan, baselines, plan.actions, w);
    var profit :- Finish(plan, baselines, principal, after.balance);
    Ok(Receipt(after, profit))
  }

  /** What the loan callback computes: the world just before repayment, and how far the settlement balance
      is above what is owed. */
  function RunOnLoan(m: Market, plan: Plan, baselines: seq<nat>, assets: nat, w: World): Outcome<(World, int)>
    requires |plan.trackedTokens| == |baselines|
  {
    var after :- RunActions(m, plan, baselines, plan.actions, w);
    var _ :- Need(ResidualsOk(plan, baselines, after.balance), SettlementMismatch);
    var baseline :- BaselineFor(plan.trackedTokens, baselines, plan.settlementToken);
    Ok((after, Bal(after.balance, plan.settlementToken) - (baseline + assets)))
  }

  function BorrowAndRun(m: Market, plan: Plan, principal: nat, now: nat, w: World): Outcome<(World, int)> {
    var _ :- ValidatePlan(plan, now);
    var _ :- Need(principal != 0, InvalidAmount);
    var baselines :- Baselines(plan.trackedTokens, plan.settlementToken, 0, w.balance);
    BaselinesLength(plan.trackedTokens, plan.settlementToken, 0, w.balance);
    var _ :- Need(principal <= m.loanLiquidity(plan.settlementToken), ExternalRevert);
    RunOnLoan(m, plan, baselines, principal, w.(balance := Credit(w.balance, plan.settlementToken, principal)))
  }

  /** How a margin below the minimum profit reverts: `required + minimumProfit` is a checked addition. Against a real
      balance an overflow means the margin falls short, so the check can be read as on unbounded numbers. */
  function Shortfall(plan: Plan, after: World, margin: int): Error {
    if Bal(after.balance, plan.settlementToken) - margin + plan.minimumProfit > MAX_UINT256 then Panic
    else ProfitTooLow(if margin > 0 then margin else 0, plan.minimumProfit)
  }

  /** Repay the loan if the margin covers the minimum profit. */
  function RepayLoan(loan: Outcome<(World, int)>, plan: Plan, principal: nat): Outcome<Receipt> {
    var (after, margin) :- loan;
    if margin < plan.minimumProfit then Err(Shortfall(plan, after, margin))
    else
      var repaid :- Debit(after.balance, plan.settlementToken, principal);
      Ok(Receipt(after.(balance := repaid), margin))
  }

  function ExecuteWithFlash(m: Market, plan: Plan, principal: nat, now: nat, w: World): Outcome<Receipt> {
    RepayLoan(BorrowAndRun(m, plan, principal, now, w), plan, principal)
  }

  /** A quote always reverts: with the error that reports the settlement delta, or with another. */
  datatype Quote = Reported(settlementDelta: int) | Failed(error: Error)

  function QuoteWithFlash(m: Market, plan: Plan, principal: nat, now: nat, w: World): Quote {
    match BorrowAndRun(m, plan, principal, now, w)
    case Err(error) => Failed(error)
    case Ok((_, margin)) =>
      if margin > MAX_INT256 || -margin > MAX_INT256 then Failed(InvalidAmount) else Reported(margin)
  }

  lemma BaselinesLength(tracked: seq<Tracked>, settlement: Address, principal: nat, b: Balances)
    ensures Baselines(tracked, settlement, principal, b).Ok?
            ==> |Baselines(tracked, settlement, principal, b).value| == |tracked|
  {
  }
}
