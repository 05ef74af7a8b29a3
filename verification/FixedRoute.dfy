// contracts/FixedRouteAtomicArb.sol: one hard-wired route, no router, and no measured balance. Its runs agree
// with the generic executor's on the same route through direct pools.
module FixedRoutes {
  import opened Evm
  import opened Market
  import opened Ledgers
  import opened DeltaPacking
  import opened PathCodec
  import opened CycleNet
  import opened CycleExecutors

  const TARGET_TOKEN: Address := 0x3363Cd5019Aa1F3E50C73086d5F5dCab3D90f558
  const ENTRY_TOKEN: Address := 0xaF3D76f1834A1d425780943C99Ea8A608f8a93f9
  const EXIT_TOKEN: Address := 0xd0601CE157Db5bdC3162BbaC2a2C8aF5320D9EEC
  const ENTRY_V3_POOL: Address := 0xAae0d815EE56e4092a5E5C2911E676Fea50B2d6D
  const EXIT_V3_POOL: Address := 0xd4EB21209C4D6093f80B5b84f5C45cc093EA14a3
  const FIXED_MAX_AMOUNT_IN: nat := 15_000_000
  const FIXED_MIN_GROSS_PROFIT: nat := 50_000

  const ENTRY_V4 := PoolKey(TARGET_TOKEN, ENTRY_TOKEN, PAIR_FEE, PAIR_TICK_SPACING, PAIR_HOOK)
  const EXIT_V4 := PoolKey(TARGET_TOKEN, EXIT_TOKEN, PAIR_FEE, PAIR_TICK_SPACING, PAIR_HOOK)

  const PHASE_ENTRY_CALLBACK: nat := 2
  const PHASE_EXIT_CALLBACK: nat := 3

  /** `-int128(int256(x))`: the low 128 bits read as two's complement, then negated; the most negative
      value has no negation and panics. */
  function NegatedInt128(x: nat): Outcome<int> {
    if Amount1(x) == MIN_INT128 then Err(Panic) else Ok(-Amount1(x))
  }

  /** Truncation is exact up to int128 and never exact beyond it. */
  lemma TruncationLoses(x: nat)
    ensures x <= MAX_INT128 <==> Amount1(x) == x
    ensures x <= MAX_INT128 ==> NegatedInt128(x) == Ok(-(x as int))
  {
    if x <= MAX_INT128 {
      DivMod(0, x);
    }
  }

  // ---- what the contract computes ----

  datatype Run = Run(entry: nat, output: nat, history: History)

  /** The callback pays before the amounts are compared, so a shortfall comes first. */
  function FixedEntry(m: Market, x: nat, balance: nat, h: History): Outcome<Leg> {
    var call := V3Call(ENTRY_V3_POOL, true, x);
    match m.v3Swap(h, call)
    case None => Err(ExternalRevert)
    case Some((amount0, amount1)) =>
      var _ :- Need(amount0 > 0 > amount1, UnauthorizedCallback);
      var _ :- Need(amount0 <= balance, TokenCallFailed);
      var _ :- Need(amount0 == x, InvalidSwapDelta);
      var _ :- Need(-amount1 <= MAX_INT256, Panic);
      Ok(Leg(x, -amount1, h + [call]))
  }

  /** The input is compared after truncation to int128. */
  function FixedFirst(m: Market, x: nat, h: History): Outcome<Leg> {
    var call := V4Call(ENTRY_V4, false, x);
    match m.v4Swap(h, call)
    case None => Err(ExternalRevert)
    case Some((amount0, amount1)) =>
      if !IsInt128(amount0) || !IsInt128(amount1) then Err(ExternalRevert)
      else
        var _ :- Need(amount0 > 0, InvalidSwapDelta);
        var expected :- NegatedInt128(x);
        var _ :- Need(amount1 == expected, InvalidSwapDelta);
        Ok(Leg(x, amount0, h + [call]))
  }

  function FixedSecond(m: Market, x: nat, h: History): Outcome<Leg> {
    var call := V4Call(EXIT_V4, true, x);
    match m.v4Swap(h, call)
    case None => Err(ExternalRevert)
    case Some((amount0, amount1)) =>
      if !IsInt128(amount0) || !IsInt128(amount1) then Err(ExternalRevert)
      else
        var expected :- NegatedInt128(x);
        var _ :- Need(amount0 == expected && amount1 > 0, InvalidSwapDelta);
        Ok(Leg(x, amount1, h + [call]))
  }

  function FixedExit(m: Market, x: nat, h: History): Outcome<Leg> {
    var call := V3Call(EXIT_V3_POOL, false, x);
    match m.v3Swap(h, call)
    case None => Err(ExternalRevert)
    case Some((amount0, amount1)) =>
      var _ :- Need(amount1 > 0 > amount0, UnauthorizedCallback);
      var _ :- Need(amount1 == x, InvalidSwapDelta);
      var _ :- Need(-amount0 <= MAX_INT256, Panic);
      Ok(Leg(x, -amount0, h + [call]))
  }

  /** The four legs in order. When they all pass with an entry output beyond int128, the manager still finds the
      entry currency unsettled. */
  function RunFixed(m: Market, x: nat, balance: nat, h: History): Outcome<Run> {
    var entry :- FixedEntry(m, x, balance, h);
    FixedFromEntry(m, entry)
  }

  function FixedFromEntry(m: Market, entry: Leg): Outcome<Run> {
    var run :- LegsFromEntry(m, entry);
    var _ :- Need(run.entry <= MAX_INT128, ExternalRevert);
    Ok(run)
  }

  function LegsFromEntry(m: Market, entry: Leg): Outcome<Run> {
    var first :- FixedFirst(m, entry.received, entry.history);
    var second :- FixedSecond(m, first.received, first.history);
    var exit :- FixedExit(m, second.received, second.history);
    Ok(Run(entry.received, exit.received, exit.history))
  }

  /** What the unlock callback computes, before the manager looks at its account. */
  function FixedLegs(m: Market, x: nat, balance: nat, h: History): Outcome<Run> {
    var entry :- FixedEntry(m, x, balance, h);
    LegsFromEntry(m, entry)
  }

  datatype FixedOrder = FixedOrder(amountIn: nat, minProfit: nat, deadline: nat)

  datatype FixedReceipt = FixedReceipt(amountOut: nat, grossProfit: nat, history: History)

  function ExecuteFixed(m: Market, order: FixedOrder, now: nat, balanceBefore: nat, h: History): Outcome<FixedReceipt> {
    var _ :- Need(now <= order.deadline, Expired);
    var _ :- Need(0 < order.amountIn <= FIXED_MAX_AMOUNT_IN, InvalidAmount);
    var _ :- Need(FIXED_MIN_GROSS_PROFIT <= order.minProfit, ProfitFloorTooLow);
    var run :- RunFixed(m, order.amountIn, balanceBefore, h);
    var _ :- Need(order.amountIn <= run.output, ProfitTooLow(0, order.minProfit));
    var _ :- Need(order.minProfit <= run.output - order.amountIn,
                  ProfitTooLow(run.output - order.amountIn, order.minProfit));
    Ok(FixedReceipt(run.output, run.output - order.amountIn, run.history))
  }

  // ---- agreement with the generic executor ----

  /** The same route as the generic executor takes it: direct paths with the fees of the hard-wired pools. */
  function GenericRoute(entryFee: nat, exitFee: nat): Route {
    Route(TARGET_TOKEN, ENTRY_TOKEN, EXIT_TOKEN,
          PackPath([USDG, ENTRY_TOKEN], [entryFee]), PackPath([EXIT_TOKEN, USDG], [exitFee]), ENTRY_V4, EXIT_V4)
  }

  /** The factory knows the hard-wired pools under these fees. */
  predicate SamePools(m: Market, entryFee: nat, exitFee: nat) {
    && entryFee in ALLOWED_FEES && m.v3Pool(USDG, ENTRY_TOKEN, entryFee) == ENTRY_V3_POOL
    && exitFee in ALLOWED_FEES && m.v3Pool(EXIT_TOKEN, USDG, exitFee) == EXIT_V3_POOL
  }

  lemma GenericRouteIsOk(m: Market, entryFee: nat, exitFee: nat)
    requires SamePools(m, entryFee, exitFee)
    ensures RouteOk(m, GENERIC, GenericRoute(entryFee, exitFee))
    ensures DirectPool(m.v3Pool, PackPath([USDG, ENTRY_TOKEN], [entryFee])) == Ok((ENTRY_V3_POOL, true))
    ensures DirectPool(m.v3Pool, PackPath([EXIT_TOKEN, USDG], [exitFee])) == Ok((EXIT_V3_POOL, false))
    ensures IsDirectLength(PackPath([USDG, ENTRY_TOKEN], [entryFee]))
    ensures IsDirectLength(PackPath([EXIT_TOKEN, USDG], [exitFee]))
  {
    DirectIsChecked(m.v3Pool, WETH, USDG, ENTRY_TOKEN, entryFee);
    DirectIsChecked(m.v3Pool, WETH, EXIT_TOKEN, USDG, exitFee);
    DirectPoolIsPacked(m.v3Pool, USDG, ENTRY_TOKEN, entryFee);
    DirectPoolIsPacked(m.v3Pool, EXIT_TOKEN, USDG, exitFee);
    PackLength([USDG, ENTRY_TOKEN], [entryFee]);
    PackLength([EXIT_TOKEN, USDG], [exitFee]);
  }

  lemma EndLegsAgree(m: Market, entryFee: nat, exitFee: nat, x: nat, h: History)
    requires SamePools(m, entryFee, exitFee)
    ensures var route := GenericRoute(entryFee, exitFee);
            && PathLeg(m, route.entryV3Path, USDG, ENTRY_TOKEN, x, h) == V3Leg(m, ENTRY_V3_POOL, true, x, h)
            && PathLeg(m, route.exitV3Path, EXIT_TOKEN, USDG, x, h) == V3Leg(m, EXIT_V3_POOL, false, x, h)
  {
    GenericRouteIsOk(m, entryFee, exitFee);
  }

  /** Two legs agree when both fail, or both succeed with the same amounts after the same calls. */
  predicate SameLeg(a: Outcome<Leg>, b: Outcome<Leg>) {
    (a.Ok? <==> b.Ok?) && (a.Ok? ==> a.value == b.value)
  }

  lemma OuterLegsAgree(m: Market, x: nat, balance: nat, h: History)
    ensures x <= balance && 0 < x ==> SameLeg(FixedEntry(m, x, balance, h), V3Leg(m, ENTRY_V3_POOL, true, x, h))
    ensures balance < x ==> FixedEntry(m, x, balance, h).Err?
    ensures 0 < x ==> SameLeg(FixedExit(m, x, h), V3Leg(m, EXIT_V3_POOL, false, x, h))
  {
  }

  lemma InnerLegsAgree(m: Market, x: nat, h: History)
    requires 0 < x <= MAX_INT128
    ensures SameLeg(FixedFirst(m, x, h), V4Leg(m, ENTRY_V4, ENTRY_TOKEN, x, h))
    ensures SameLeg(FixedSecond(m, x, h), V4Leg(m, EXIT_V4, TARGET_TOKEN, x, h))
  {
    TruncationLoses(x);
    InnerLegAgrees(m, ENTRY_V4, ENTRY_TOKEN, x, h);
    InnerLegAgrees(m, EXIT_V4, TARGET_TOKEN, x, h);
  }

  lemma InnerLegAgrees(m: Market, key: PoolKey, tokenIn: Address, x: nat, h: History)
    requires 0 < x <= MAX_INT128
    ensures var zeroForOne := key.currency0 == tokenIn;
            var answer := m.v4Swap(h, V4Call(key, zeroForOne, x));
            V4Leg(m, key, tokenIn, x, h).Ok?
            <==> answer.Some? && IsInt128(answer.value.0) && IsInt128(answer.value.1)
                 && (if zeroForOne then answer.value.0 == -(x as int) && answer.value.1 > 0
                     else answer.value.1 == -(x as int) && answer.value.0 > 0)
    ensures V4Leg(m, key, tokenIn, x, h).Ok? ==>
              var zeroForOne := key.currency0 == tokenIn;
              var answer := m.v4Swap(h, V4Call(key, zeroForOne, x));
              V4Leg(m, key, tokenIn, x, h).value
              == Leg(x, if zeroForOne then answer.value.1 else answer.value.0, h + [V4Call(key, zeroForOne, x)])
  {
    var answer := m.v4Swap(h, V4Call(key, key.currency0 == tokenIn, x));
    if answer.Some? && IsInt128(answer.value.0) && IsInt128(answer.value.1) {
      UnpackPack(answer.value.0, answer.value.1);
    }
  }

  lemma MiddleLegsAgree(m: Market, entryFee: nat, exitFee: nat, entry: Leg)
    requires SamePools(m, entryFee, exitFee) && 0 < entry.received
    ensures var run, cycle := FixedFromEntry(m, entry), FromEntry(m, GENERIC, GenericRoute(entryFee, exitFee), entry);
            && (run.Ok? <==> cycle.Ok?)
            && (run.Ok? ==> run.value.output == cycle.value.Output() && cycle.value.entry == entry
                            && cycle.value.Dust() == 0
                            && run.value.history == cycle.value.exit.history)
  {
    if entry.received <= MAX_INT128 {
      InnerLegsAgree(m, entry.received, entry.history);
      var first := V4Leg(m, ENTRY_V4, ENTRY_TOKEN, entry.received, entry.history);
      if first.Ok? {
        V4LegPays(m, ENTRY_V4, ENTRY_TOKEN, entry.received, entry.history);
        InnerLegsAgree(m, first.value.received, first.value.history);
        var second := V4Leg(m, EXIT_V4, TARGET_TOKEN, first.value.received, first.value.history);
        if second.Ok? {
          V4LegPays(m, EXIT_V4, TARGET_TOKEN, first.value.received, first.value.history);
          OuterLegsAgree(m, second.value.received, 0, second.value.history);
          EndLegsAgree(m, entryFee, exitFee, second.value.received, second.value.history);
        }
      }
    }
  }

  /** The same calls and the same answers, whatever the route. */
  predicate SameRun(run: Outcome<Run>, cycle: Outcome<Cycle>, x: nat) {
    && (run.Ok? <==> cycle.Ok?)
    && (run.Ok? ==> run.value.output == cycle.value.Output() && cycle.value.Spent() == x && cycle.value.Dust() == 0
                    && run.value.history == cycle.value.exit.history)
  }

  /** Leg by leg, on any market: the same four calls with the same answers, or both revert. */
  lemma CyclesAgree(m: Market, entryFee: nat, exitFee: nat, x: nat, balance: nat, h: History)
    requires SamePools(m, entryFee, exitFee) && 0 < x <= balance
    ensures SameRun(RunFixed(m, x, balance, h), RunCycle(m, GENERIC, GenericRoute(entryFee, exitFee), x, h), x)
  {
    EndLegsAgree(m, entryFee, exitFee, x, h);
    OuterLegsAgree(m, x, balance, h);
    var entry := V3Leg(m, ENTRY_V3_POOL, true, x, h);
    if entry.Ok? {
      MiddleLegsAgree(m, entryFee, exitFee, entry.value);
    }
  }

  predicate SameReceipt(f: Outcome<FixedReceipt>, g: Outcome<Receipt>) {
    && (f.Ok? <==> g.Ok?)
    && (f.Ok? ==> f.value.amountOut == g.value.amountOut && f.value.grossProfit == g.value.grossProfit
                  && f.value.history == g.value.cycle.exit.history && g.value.cycle.Dust() == 0)
  }

  lemma SameRunSameReceipt(m: Market, route: Route, order: FixedOrder, now: nat, before: nat, h: History)
    requires RouteOk(m, GENERIC, route) && order.amountIn <= FIXED_MAX_AMOUNT_IN
    requires 0 < order.amountIn <= before ==>
               SameRun(RunFixed(m, order.amountIn, before, h), RunCycle(m, GENERIC, route, order.amountIn, h),
                       order.amountIn)
    requires before < order.amountIn ==> RunFixed(m, order.amountIn, before, h).Err?
    ensures SameReceipt(ExecuteFixed(m, order, now, before, h),
                        CycleNet.Execute(m, GENERIC, Order(route, order.amountIn, order.minProfit, order.deadline),
                                         now, before, h))
  {
  }

  /** Within the smaller cap the two executors give the same answer to the same order: both revert, or both
      return the same amounts after the same calls. Nothing is assumed about the size of any leg's output. */
  lemma FixedAgreesWithGeneric(m: Market, entryFee: nat, exitFee: nat, order: FixedOrder, now: nat, before: nat,
                               h: History)
    requires SamePools(m, entryFee, exitFee) && order.amountIn <= FIXED_MAX_AMOUNT_IN
    ensures SameReceipt(ExecuteFixed(m, order, now, before, h),
                        CycleNet.Execute(m, GENERIC,
                                         Order(GenericRoute(entryFee, exitFee), order.amountIn, order.minProfit,
                                               order.deadline),
                                         now, before, h))
  {
    var route := GenericRoute(entryFee, exitFee);
    assert RouteOk(m, GENERIC, route) by {
      GenericRouteIsOk(m, entryFee, exitFee);
    }
    if 0 < order.amountIn <= before {
      CyclesAgree(m, entryFee, exitFee, order.amountIn, before, h);
    }
    OuterLegsAgree(m, order.amountIn, before, h);
    SameRunSameReceipt(m, route, order, now, before, h);
  }

  /** Over all orders: the fixed executor succeeds exactly when the order is within its own, tighter bounds and the
      generic executor succeeds with the same order on the same route; the receipts
        then agree. Beyond its cap it refuses
      what the generic executor may accept, and every order out of bounds is refused with its own error. */
  lemma FixedSucceedsExactlyWhen(m: Market, entryFee: nat, exitFee: nat, order: FixedOrder, now: nat, before: nat,
                                 h: History)
    requires SamePools(m, entryFee, exitFee)
    ensures var f := ExecuteFixed(m, order, now, before, h);
            var g := CycleNet.Execute(m, GENERIC,
                                      Order(GenericRoute(entryFee, exitFee), order.amountIn, order.minProfit,
                                            order.deadline),
                                      now, before, h);
            && (f.Ok?
                <==> 0 < order.amountIn <= 15_000_000 && 50_000 <= order.minProfit && now <= order.deadline && g.Ok?)
            && (f.Ok? ==> SameReceipt(f, g) && f.value.grossProfit >= order.minProfit)
            && (order.deadline < now ==> f == Err(Expired))
            && (now <= order.deadline && !(0 < order.amountIn <= 15_000_000) ==> f == Err(InvalidAmount))
            && (now <= order.deadline && 0 < order.amountIn <= 15_000_000 && order.minProfit < 50_000 ==>
                  f == Err(ProfitFloorTooLow))
  {
    if order.amountIn <= FIXED_MAX_AMOUNT_IN {
      FixedAgreesWithGeneric(m, entryFee, exitFee, order, now, before, h);
    }
  }

  // ---- the contract, step by step ----

  class FixedExecutor {
    const operator: Address
    const ledger: Ledger

    // Transient storage.
    var phase: nat

    constructor (operator: Address, ledger: Ledger)
      ensures this.operator == operator && this.ledger == ledger && phase == 0
    {
      this.operator, this.ledger, phase := operator, ledger, 0;
    }

    predicate AtRest()
      reads this, ledger
    {
      phase == 0 && ledger.Quiet()
    }

    /** Pays whatever a fixed pool asks for in its phase; the amounts are only compared after the swap. */
    method UniswapV3SwapCallback(sender: Address, amount0: int, amount1: int) returns (r: Outcome<()>)
      modifies ledger`balance, ledger`sent, ledger`delta
      ensures phase == PHASE_ENTRY_CALLBACK ==>
                ledger.delta == old(ledger.delta)
                && if sender != ENTRY_V3_POOL || amount0 <= 0 || amount1 >= 0 then r == Err(UnauthorizedCallback)
                   else if amount0 > Bal(old(ledger.balance), USDG) then r == Err(TokenCallFailed)
                   else r == Ok(()) && Debit(old(ledger.balance), USDG, amount0) == Ok(ledger.balance)
                        && ledger.sent == Send(old(ledger.sent), sender, USDG, amount0)
      ensures phase == PHASE_EXIT_CALLBACK ==>
                ledger.balance == old(ledger.balance)
                && if sender != EXIT_V3_POOL || amount0 >= 0 || amount1 <= 0 then r == Err(UnauthorizedCallback)
                   else r == Ok(()) && ledger.delta == Account(old(ledger.delta), EXIT_TOKEN, -amount1)
                        && ledger.sent == Send(old(ledger.sent), sender, EXIT_TOKEN, amount1)
      ensures phase != PHASE_ENTRY_CALLBACK && phase != PHASE_EXIT_CALLBACK ==>
                r == Err(UnauthorizedCallback) && unchanged(ledger)
    {
      if phase == PHASE_ENTRY_CALLBACK {
        if sender != ENTRY_V3_POOL || amount0 <= 0 || amount1 >= 0 {
          return Err(UnauthorizedCallback);
        }
        r := ledger.SafeTransfer(USDG, ENTRY_V3_POOL, amount0);
        return;
      }
      if phase == PHASE_EXIT_CALLBACK {
        if sender != EXIT_V3_POOL || amount0 >= 0 || amount1 <= 0 {
          return Err(UnauthorizedCallback);
        }
        ledger.ManagerTakeFor(EXIT_V3_POOL, EXIT_TOKEN, amount1);
        return Ok(());
      }
      r := Err(UnauthorizedCallback);
    }

    /** The entry pool pays the manager, calls back once and keeps what arrives. */
    method EntryPoolSwap(x: nat) returns (r: Outcome<(int, int)>)
      requires phase == PHASE_ENTRY_CALLBACK && ledger.sent == map[]
      modifies ledger`balance, ledger`sent, ledger`delta, ledger`history
      ensures ledger.delta == old(ledger.delta)
      ensures match ledger.market.v3Swap(old(ledger.history), V3Call(ENTRY_V3_POOL, true, x))
              case None => r == Err(ExternalRevert)
              case Some((amount0, amount1)) =>
                if !(amount0 > 0 > amount1) then r == Err(UnauthorizedCallback)
                else if amount0 > Bal(old(ledger.balance), USDG) then r == Err(TokenCallFailed)
                else
                  && r == Ok((amount0, amount1))
                  && Debit(old(ledger.balance), USDG, amount0) == Ok(ledger.balance)
                  && ledger.sent == Send(map[], POOL_MANAGER, ENTRY_TOKEN, -amount1)
                  && ledger.history == old(ledger.history) + [V3Call(ENTRY_V3_POOL, true, x)]
    {
      var call := V3Call(ENTRY_V3_POOL, true, x);
      match ledger.market.v3Swap(ledger.history, call)
      case None => return Err(ExternalRevert);
      case Some((amount0, amount1)) =>
        if amount1 < 0 {
          ledger.sent := Send(ledger.sent, POOL_MANAGER, ENTRY_TOKEN, -amount1);
        }
        var _ :- UniswapV3SwapCallback(ENTRY_V3_POOL, amount0, amount1);
        ledger.sent := ledger.sent - {(ENTRY_V3_POOL, USDG)};
        ledger.history := ledger.history + [call];
        r := Ok((amount0, amount1));
    }

    /** The exit pool pays the executor, calls back once and keeps what arrives. */
    method ExitPoolSwap(x: nat) returns (r: Outcome<(int, int)>)
      requires phase == PHASE_EXIT_CALLBACK && ledger.sent == map[]
      modifies ledger`balance, ledger`sent, ledger`delta, ledger`history
      ensures match ledger.market.v3Swap(old(ledger.history), V3Call(EXIT_V3_POOL, false, x))
              case None => r == Err(ExternalRevert)
              case Some((amount0, amount1)) =>
                if !(amount1 > 0 > amount0) then r == Err(UnauthorizedCallback)
                else
                  && r == Ok((amount0, amount1))
                  && ledger.balance == Credit(old(ledger.balance), USDG, -amount0)
                  && ledger.sent == map[]
                  && ledger.delta == Account(old(ledger.delta), EXIT_TOKEN, -amount1)
                  && ledger.history == old(ledger.history) + [V3Call(EXIT_V3_POOL, false, x)]
    {
      var call := V3Call(EXIT_V3_POOL, false, x);
      match ledger.market.v3Swap(ledger.history, call)
      case None => return Err(ExternalRevert);
      case Some((amount0, amount1)) =>
        if amount0 < 0 {
          ledger.balance := Credit(ledger.balance, USDG, -amount0);
        }
        var _ :- UniswapV3SwapCallback(EXIT_V3_POOL, amount0, amount1);
        ledger.sent := ledger.sent - {(EXIT_V3_POOL, EXIT_TOKEN)};
        ledger.history := ledger.history + [call];
        r := Ok((amount0, amount1));
    }

    predicate InUnlock()
      reads this, ledger
    {
      phase == PHASE_UNLOCK && ledger.unlocked && ledger.synced == None && ledger.sent == map[]
    }

    method Enter(x: nat) returns (r: Outcome<nat>)
      requires InUnlock() && ledger.delta == map[]
      modifies this, ledger`balance, ledger`sent, ledger`delta, ledger`history, ledger`synced
      ensures match FixedEntry(ledger.market, x, Bal(old(ledger.balance), USDG), old(ledger.history))
              case Err(e) => r == Err(e)
              case Ok(leg) =>
                && r == Ok(leg.received) && leg.received > 0 && InUnlock()
                && ledger.history == leg.history
                && Debit(old(ledger.balance), USDG, x) == Ok(ledger.balance)
                && ledger.delta == map[ENTRY_TOKEN := leg.received as int]
    {
      ledger.ManagerSync(ENTRY_TOKEN);
      phase := PHASE_ENTRY_CALLBACK;
      var amounts :- EntryPoolSwap(x);
      phase := PHASE_UNLOCK;
      if amounts.0 != x || amounts.1 >= 0 {
        return Err(InvalidSwapDelta);
      }
      if -amounts.1 > MAX_INT256 {
        return Err(Panic);
      }
      var entryTokenAmount := -amounts.1;
      var paid := ledger.ManagerSettle();
      if paid != entryTokenAmount {
        return Err(SettlementMismatch);
      }
      r := Ok(entryTokenAmount);
    }

    /** With an oversized input the comparison is against a truncated number, and the entry currency can
        never be settled again. */
    method SwapEntryV4(x: nat) returns (r: Outcome<nat>)
      requires ledger.unlocked && 0 < x && ledger.delta == map[ENTRY_TOKEN := x as int]
      modifies ledger`delta, ledger`history
      ensures match FixedFirst(ledger.market, x, old(ledger.history))
              case Err(e) => r == Err(e)
              case Ok(leg) =>
                && r == Ok(leg.received) && 0 < leg.received <= MAX_INT128 && ledger.history == leg.history
                && (if x <= MAX_INT128 then ledger.delta == map[TARGET_TOKEN := leg.received as int]
                    else Delta(ledger.delta, ENTRY_TOKEN) != 0)
    {
      var packed :- ledger.ManagerSwap(ENTRY_V4, false, x);
      ghost var amounts := ledger.market.v4Swap(old(ledger.history), V4Call(ENTRY_V4, false, x)).value;
      UnpackPack(amounts.0, amounts.1);
      var amount0, amount1 := Amount0(packed), Amount1(packed);
      if amount0 <= 0 {
        return Err(InvalidSwapDelta);
      }
      var expected :- NegatedInt128(x);
      if amount1 != expected {
        return Err(InvalidSwapDelta);
      }
      TruncationLoses(x);
      if x <= MAX_INT128 {
        SwapMovesDelta(ENTRY_TOKEN, x, TARGET_TOKEN, amount0, ENTRY_V4, amount0, amount1);
      }
      r := Ok(amount0);
    }

    method SwapExitV4(x: nat) returns (r: Outcome<nat>)
      requires ledger.unlocked && 0 < x <= MAX_INT128
      modifies ledger`delta, ledger`history
      ensures match FixedSecond(ledger.market, x, old(ledger.history))
              case Err(e) => r == Err(e)
              case Ok(leg) => r == Ok(leg.received) && ledger.history == leg.history && leg.received > 0
                              && ledger.delta == Account(Account(old(ledger.delta), TARGET_TOKEN, -(x as int)),
                                                         EXIT_TOKEN, leg.received)
    {
      var packed :- ledger.ManagerSwap(EXIT_V4, true, x);
      ghost var amounts := ledger.market.v4Swap(old(ledger.history), V4Call(EXIT_V4, true, x)).value;
      UnpackPack(amounts.0, amounts.1);
      TruncationLoses(x);
      var amount0, amount1 := Amount0(packed), Amount1(packed);
      var expected := NegatedInt128(x);
      if expected.Err? {
        return Err(Panic);
      }
      if amount0 != expected.value || amount1 <= 0 {
        return Err(InvalidSwapDelta);
      }
      r := Ok(amount1);
    }

    method Exit(x: nat) returns (r: Outcome<nat>)
      requires InUnlock()
      modifies this, ledger`balance, ledger`sent, ledger`delta, ledger`history
      ensures match FixedExit(ledger.market, x, old(ledger.history))
              case Err(e) => r == Err(e)
              case Ok(leg) => r == Ok(leg.received) && InUnlock() && ledger.history == leg.history
                              && ledger.balance == Credit(old(ledger.balance), USDG, leg.received)
                              && ledger.delta == Account(old(ledger.delta), EXIT_TOKEN, -(x as int))
    {
      phase := PHASE_EXIT_CALLBACK;
      var amounts :- ExitPoolSwap(x);
      phase := PHASE_UNLOCK;
      if amounts.0 >= 0 || amounts.1 != x {
        return Err(InvalidSwapDelta);
      }
      if -amounts.0 > MAX_INT256 {
        return Err(Panic);
      }
      r := Ok(-amounts.0);
    }

    /** The callback's answer, and the manager's account behind it: empty for every entry output up to int128, and
        not settled in the entry currency for any beyond. */
    predicate LegsDone(run: Run, x: nat, before: Accounts, r: Outcome<nat>)
      reads this, ledger
    {
      && r == Ok(run.output) && InUnlock() && ledger.history == run.history && ledger.allowances == before.allowances
      && Debit(before.balance, USDG, x).Ok?
      && ledger.balance == Credit(Debit(before.balance, USDG, x).value, USDG, run.output)
      && (if run.entry <= MAX_INT128 then ledger.delta == map[] else Delta(ledger.delta, ENTRY_TOKEN) != 0)
    }

    method UnlockCallback(sender: Address, x: nat) returns (r: Outcome<nat>)
      requires sender == POOL_MANAGER && phase == PHASE_UNLOCK ==> InUnlock() && ledger.delta == map[] && 0 < x
      modifies this, ledger
      ensures sender != POOL_MANAGER || old(phase) != PHASE_UNLOCK ==>
                r == Err(UnauthorizedCallback) && unchanged(this, ledger)
      ensures sender == POOL_MANAGER && old(phase) == PHASE_UNLOCK ==>
                match FixedLegs(ledger.market, x, Bal(old(ledger.balance), USDG), old(ledger.history))
                case Err(e) => r == Err(e)
                case Ok(run) => LegsDone(run, x, old(ledger.Snapshot()), r)
    {
      if sender != POOL_MANAGER || phase != PHASE_UNLOCK {
        return Err(UnauthorizedCallback);
      }
      r := RunLegs(x);
    }

    method RunLegs(x: nat) returns (r: Outcome<nat>)
      requires InUnlock() && ledger.delta == map[] && 0 < x
      modifies this, ledger
      ensures match FixedLegs(ledger.market, x, Bal(old(ledger.balance), USDG), old(ledger.history))
              case Err(e) => r == Err(e)
              case Ok(run) => LegsDone(run, x, old(ledger.Snapshot()), r)
    {
      var entryTokenAmount :- Enter(x);
      var targetTokenAmount :- SwapEntryV4(entryTokenAmount);
      var exitTokenAmount :- SwapExitV4(targetTokenAmount);
      assert entryTokenAmount > MAX_INT128 ==> Delta(ledger.delta, ENTRY_TOKEN) != 0;
      r := Exit(exitTokenAmount);
      assert r.Ok? && entryTokenAmount > MAX_INT128 ==> Delta(ledger.delta, ENTRY_TOKEN) != 0;
    }

    method Unlock(x: nat) returns (r: Outcome<nat>)
      requires phase == PHASE_UNLOCK && ledger.Quiet() && 0 < x
      modifies this, ledger
      ensures match RunFixed(ledger.market, x, Bal(old(ledger.balance), USDG), old(ledger.history))
              case Err(e) => r == Err(e)
              case Ok(run) =>
                && r == Ok(run.output) && phase == PHASE_UNLOCK && ledger.Quiet()
                && ledger.history == run.history && ledger.allowances == old(ledger.allowances)
                && Debit(old(ledger.balance), USDG, x).Ok?
                && ledger.balance == Credit(Debit(old(ledger.balance), USDG, x).value, USDG, run.output)
    {
      ledger.unlocked := true;
      var output :- UnlockCallback(POOL_MANAGER, x);
      if ledger.delta != map[] {
        return Err(ExternalRevert);
      }
      ledger.unlocked := false;
      r := Ok(output);
    }

    /** A successful run is the net receipt, with the profit in USDG as the only balance change; a failed one has
        the net error and changes nothing. */
    ghost predicate Answers(spec: Outcome<FixedReceipt>, before: Accounts, r: Outcome<(nat, nat)>)
      reads this, ledger
    {
      match spec
      case Err(e) => r == Err(e)
      case Ok(receipt) =>
        && r == Ok((receipt.amountOut, receipt.grossProfit))
        && AtRest() && ledger.history == receipt.history && ledger.allowances == before.allowances
        && forall t: Address ::
             Bal(ledger.balance, t) == Bal(before.balance, t) + if t == USDG then receipt.grossProfit else 0
    }

    method Execute(sender: Address, order: FixedOrder, now: nat) returns (r: Outcome<(nat, nat)>)
      requires phase == 0 ==> AtRest()
      modifies this, ledger
      ensures sender != operator ==> r == Err(NotOperator)
      ensures sender == operator && old(phase) != 0 ==> r == Err(Reentered)
      ensures sender == operator && old(phase) == 0 ==>
                Answers(ExecuteFixed(ledger.market, order, now, Bal(old(ledger.balance), USDG), old(ledger.history)),
                        old(ledger.Snapshot()), r)
      ensures r.Ok? ==> && now <= order.deadline && 0 < order.amountIn <= 15_000_000
                        && 50_000 <= order.minProfit <= r.value.1 && r.value.0 == order.amountIn + r.value.1
      ensures r.Err? ==> phase == old(phase) && ledger.Snapshot() == old(ledger.Snapshot())
    {
      if sender != operator {
        return Err(NotOperator);
      }
      if phase != 0 {
        return Err(Reentered);
      }
      var accounts := ledger.Snapshot();
      r := Body(order, now);
      if r.Err? {
        phase := 0;
        ledger.Restore(accounts);
      }
    }

    method Body(order: FixedOrder, now: nat) returns (r: Outcome<(nat, nat)>)
      requires AtRest()
      modifies this, ledger
      ensures Answers(ExecuteFixed(ledger.market, order, now, Bal(old(ledger.balance), USDG), old(ledger.history)),
                      old(ledger.Snapshot()), r)
    {
      var _ :- Need(now <= order.deadline, Expired);
      var _ :- Need(0 < order.amountIn <= FIXED_MAX_AMOUNT_IN, InvalidAmount);
      var _ :- Need(FIXED_MIN_GROSS_PROFIT <= order.minProfit, ProfitFloorTooLow);
      phase := PHASE_UNLOCK;
      var amountOut :- Unlock(order.amountIn);
      if phase != PHASE_UNLOCK {
        return Err(SettlementMismatch);
      }
      phase := 0;
      if amountOut < order.amountIn {
        return Err(ProfitTooLow(0, order.minProfit));
      }
      var grossProfit := amountOut - order.amountIn;
      if grossProfit < order.minProfit {
        return Err(ProfitTooLow(grossProfit, order.minProfit));
      }
      r := Ok((amountOut, grossProfit));
    }
  }

  /** Two deployments that start from the same tokens and the same history, given the same order. Within the cap they
      end with the same answer, the same tokens, the same history and the same router allowances; beyond it the fixed
      one refuses and is as it was, whatever the generic one does. */
  method SameOrderOnBoth(fixed: FixedExecutor, generic: CycleExecutor, entryFee: nat, exitFee: nat, sender: Address,
                         order: FixedOrder, now: nat, afterEntry: seq<Byte>, afterExit: seq<Byte>)
    returns (f: Outcome<(nat, nat)>, g: Outcome<(nat, nat)>)
    requires fixed.ledger != generic.ledger && fixed.ledger.market == generic.ledger.market
    requires fixed.operator == generic.operator == sender && generic.cfg == GENERIC
    requires fixed.AtRest() && generic.AtRest() && fixed.ledger.Snapshot() == generic.ledger.Snapshot()
    requires SamePools(fixed.ledger.market, entryFee, exitFee)
    modifies fixed, fixed.ledger, generic, generic.ledger
    ensures f.Ok? <==> g.Ok? && order.amountIn <= 15_000_000
    ensures f.Ok? ==> f == g
    ensures order.amountIn <= 15_000_000 ==>
              && SameBalances(fixed.ledger.balance, generic.ledger.balance)
              && fixed.ledger.history == generic.ledger.history && fixed.ledger.allowances == generic.ledger.allowances
    ensures order.amountIn > 15_000_000 ==>
              && f.Err? && fixed.ledger.Snapshot() == old(fixed.ledger.Snapshot())
              && (now <= order.deadline ==> f.error == InvalidAmount)
    ensures fixed.AtRest() && generic.AtRest()
  {
    GenericRouteIsOk(fixed.ledger.market, entryFee, exitFee);
    FixedSucceedsExactlyWhen(fixed.ledger.market, entryFee, exitFee, order, now, Bal(fixed.ledger.balance, USDG),
                             fixed.ledger.history);
    f := fixed.Execute(sender, order, now);
    var asGeneric := Order(GenericRoute(entryFee, exitFee), order.amountIn, order.minProfit, order.deadline);
    g := generic.Execute(sender, asGeneric, now, afterEntry, afterExit);
  }
}
