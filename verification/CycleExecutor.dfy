// contracts/GenericAtomicArb.sol and contracts/WethAtomicArb.sol, step by step: PoolManager delta accounting,
// direct-pool callbacks bound by transient storage, and router approvals. Every step is tied to CycleNet.
module CycleExecutors {
  import opened Evm
  import opened Market
  import opened Ledgers
  import opened DeltaPacking
  import opened PathCodec
  import opened CycleNet

  const PHASE_UNLOCK: nat := 1
  const PHASE_ENTRY_DIRECT: nat := 2
  const PHASE_EXIT_DIRECT: nat := 3

  /** The transient binding of a direct swap: which pool may ask for how much of which token. */
  datatype Direct = Direct(pool: Address, token: Address, amount: nat, token0: bool)

  const NO_DIRECT := Direct(ZERO, ZERO, 0, false)

  /** Base, exit quote and nothing else: what a successful execution did to the executor's tokens. */
  ghost predicate SettledBalances(before: Balances, after: Balances, base: Address, profit: nat, exitToken: Address,
                                  dust: int)
  {
    forall t: Address ::
      Bal(after, t) == Bal(before, t) + (if t == base then profit else 0) + (if t == exitToken then dust else 0)
  }

  /** The same before the profit is known: base spent and received, and exit quote left behind. */
  ghost predicate CycleBalances(before: Balances, after: Balances, base: Address, spent: nat, output: nat,
                                exitToken: Address, dust: int)
  {
    forall t: Address ::
      Bal(after, t) + (if t == base then spent else 0)
      == Bal(before, t) + (if t == base then output else 0) + (if t == exitToken then dust else 0)
  }

  /** What the router may still take after a leg: what it was offered and did not pull. */
  function LegAllowance(path: seq<Byte>, start: Address, end: Address, before: Allowances, x: nat,
                        leg: Leg): Allowances {
    if UsesRouter(path, start, end) && leg.spent <= x then before.With(ToV3Router, start, x - leg.spent) else before
  }

  lemma CombineBalances(before: Balances, mid: Balances, after: Balances, base: Address, spent: nat, output: nat,
                        exitToken: Address, dust: int)
    requires Debit(before, base, spent) == Ok(mid) && SettledBalances(mid, after, base, output, exitToken, dust)
    ensures CycleBalances(before, after, base, spent, output, exitToken, dust)
  {
  }

  lemma RouterExitBalances(before: Balances, exitToken: Address, x: nat, spent: nat, base: Address, received: nat)
    requires spent <= x
    ensures var pulled := Debit(Credit(before, exitToken, x), exitToken, spent);
            pulled.Ok? && SettledBalances(before, Credit(pulled.value, base, received), base, received, exitToken,
                                          x - spent)
  {
  }

  lemma BalancesSettle(before: Balances, after: Balances, base: Address, spent: nat, output: nat, exitToken: Address,
                       dust: int)
    requires spent <= output && CycleBalances(before, after, base, spent, output, exitToken, dust)
    ensures SettledBalances(before, after, base, output - spent, exitToken, dust)
  {
  }

  /** Router allowances after the whole cycle. */
  function CycleAllowance(base: Address, route: Route, before: Allowances, x: nat, cycle: Cycle): Allowances {
    LegAllowance(route.exitV3Path, route.exitToken, base,
                 LegAllowance(route.entryV3Path, base, route.entryToken, before, x, cycle.entry),
                 cycle.quote.received, cycle.exit)
  }

  /** Nothing but base changes exactly when no exit quote is left behind. */
  lemma OnlyBaseChanges(before: Balances, after: Balances, base: Address, profit: nat, exitToken: Address, dust: int)
    requires SettledBalances(before, after, base, profit, exitToken, dust) && (exitToken == base ==> dust == 0)
    ensures (forall t: Address :: t != base ==> Bal(after, t) == Bal(before, t)) <==> dust == 0
    ensures Bal(after, base) == Bal(before, base) + profit
  {
    if exitToken != base {
      assert Bal(after, exitToken) == Bal(before, exitToken) + dust;
    }
  }

  lemma LegAllowanceAt(path: seq<Byte>, start: Address, end: Address, before: Allowances, x: nat, leg: Leg)
    requires leg.spent <= x
    ensures var after := LegAllowance(path, start, end, before, x, leg);
            && (forall t: Address :: Bal(after.toV3Router, t)
                                     == if UsesRouter(path, start, end) && t == start then x - leg.spent
                                        else Bal(before.toV3Router, t))
            && after == before.(toV3Router := after.toV3Router)
  {
    PutBal(before.toV3Router, start, x - leg.spent);
  }

  lemma LegsSpend(m: Market, cfg: Config, order: Order, now: nat, before: nat, h: History)
    requires Execute(m, cfg, order, now, before, h).Ok?
    ensures var cycle := Execute(m, cfg, order, now, before, h).value.cycle;
            cycle.entry.spent == order.amountIn && cycle.exit.spent <= cycle.quote.received
  {
    var route := order.route;
    var cycle := Execute(m, cfg, order, now, before, h).value.cycle;
    PathLegSpends(m, route.exitV3Path, route.exitToken, cfg.base, cycle.quote.received, cycle.quote.history);
  }

  /** After a success the router may still take the exit quote left behind when the exit goes through it, and no base
      when the entry does. Every other allowance is what it was. */
  lemma AllowanceIsDust(m: Market, cfg: Config, order: Order, now: nat, before: nat, h: History, allowances: Allowances)
    requires Execute(m, cfg, order, now, before, h).Ok?
    ensures var cycle := Execute(m, cfg, order, now, before, h).value.cycle;
            var route := order.route;
            var after := CycleAllowance(cfg.base, route, allowances, order.amountIn, cycle);
            && (forall t: Address ::
                  Bal(after.toV3Router, t)
                  == if UsesRouter(route.exitV3Path, route.exitToken, cfg.base) && t == route.exitToken
                     then cycle.Dust()
                     else if UsesRouter(route.entryV3Path, cfg.base, route.entryToken) && t == cfg.base
                     then 0
                     else Bal(allowances.toV3Router, t))
            && after == allowances.(toV3Router := after.toV3Router)
  {
    var route := order.route;
    var cycle := Execute(m, cfg, order, now, before, h).value.cycle;
    LegsSpend(m, cfg, order, now, before, h);
    LegAllowanceAt(route.entryV3Path, cfg.base, route.entryToken, allowances, order.amountIn, cycle.entry);
    var mid := LegAllowance(route.entryV3Path, cfg.base, route.entryToken, allowances, order.amountIn, cycle.entry);
    LegAllowanceAt(route.exitV3Path, route.exitToken, cfg.base, mid, cycle.quote.received, cycle.exit);
  }

  class CycleExecutor {
    const operator: Address
    const cfg: Config
    const ledger: Ledger

    // Transient storage.
    var phase: nat
    var direct: Direct

    constructor (operator: Address, cfg: Config, ledger: Ledger)
      ensures this.operator == operator && this.cfg == cfg && this.ledger == ledger
      ensures phase == 0 && direct == NO_DIRECT
    {
      this.operator, this.cfg, this.ledger := operator, cfg, ledger;
      phase, direct := 0, NO_DIRECT;
    }

    predicate AtRest()
      reads this, ledger
    {
      phase == 0 && direct == NO_DIRECT && ledger.Quiet()
    }

    predicate InUnlock()
      reads this, ledger
    {
      phase == PHASE_UNLOCK && direct == NO_DIRECT && ledger.unlocked
    }

    // ---- a direct v3 swap ----

    method SetDirectContext(newPhase: nat, pool: Address, token: Address, amount: nat, token0: bool)
      modifies this
      ensures phase == newPhase && direct == Direct(pool, token, amount, token0)
    {
      direct := Direct(pool, token, amount, token0);
      phase := newPhase;
    }

    method ClearDirectContext()
      modifies this
      ensures phase == PHASE_UNLOCK && direct == NO_DIRECT
    {
      direct := NO_DIRECT;
      phase := PHASE_UNLOCK;
    }

    /** Pays the bound pool the bound amount: base from the executor on entry, exit quote from the manager. */
    method UniswapV3SwapCallback(sender: Address, amount0: int, amount1: int) returns (r: Outcome<()>)
      modifies ledger`balance, ledger`sent, ledger`delta
      ensures (phase != PHASE_ENTRY_DIRECT && phase != PHASE_EXIT_DIRECT) || sender != direct.pool ==>
                r == Err(UnauthorizedCallback) && unchanged(ledger)
      ensures (phase == PHASE_ENTRY_DIRECT || phase == PHASE_EXIT_DIRECT) && sender == direct.pool ==>
                var inputDelta := if direct.token0 then amount0 else amount1;
                var outputDelta := if direct.token0 then amount1 else amount0;
                if inputDelta <= 0 || outputDelta >= 0 || inputDelta != direct.amount then r == Err(InvalidSwapDelta)
                else if phase == PHASE_ENTRY_DIRECT then
                  && ledger.delta == old(ledger.delta)
                  && match Debit(old(ledger.balance), cfg.base, direct.amount) {
                       case Err(e) => r == Err(e)
                       case Ok(b) => r == Ok(()) && ledger.balance == b
                                     && ledger.sent == Send(old(ledger.sent), sender, cfg.base, direct.amount)
                     }
                else
                  && r == Ok(()) && ledger.balance == old(ledger.balance)
                  && ledger.delta == Account(old(ledger.delta), direct.token, -(direct.amount as int))
                  && ledger.sent == Send(old(ledger.sent), sender, direct.token, direct.amount)
    {
      if phase != PHASE_ENTRY_DIRECT && phase != PHASE_EXIT_DIRECT {
        return Err(UnauthorizedCallback);
      }
      if sender != direct.pool {
        return Err(UnauthorizedCallback);
      }
      var inputDelta := if direct.token0 then amount0 else amount1;
      var outputDelta := if direct.token0 then amount1 else amount0;
      if inputDelta <= 0 || outputDelta >= 0 || inputDelta != direct.amount {
        return Err(InvalidSwapDelta);
      }
      if phase == PHASE_ENTRY_DIRECT {
        r := ledger.SafeTransfer(cfg.base, sender, inputDelta);
      } else {
        ledger.ManagerTakeFor(sender, direct.token, inputDelta);
        r := Ok(());
      }
    }

    /** The entry pool pays the manager, calls back once for its base and keeps what arrives. */
    method EntryPoolSwap(pool: Address, tokenOut: Address, zeroForOne: bool, x: nat) returns (r: Outcome<(int, int)>)
      requires phase == PHASE_ENTRY_DIRECT && direct == Direct(pool, cfg.base, x, zeroForOne)
      requires tokenOut != cfg.base && ledger.sent == map[] && x <= Bal(ledger.balance, cfg.base)
      modifies ledger`balance, ledger`sent, ledger`delta, ledger`history
      ensures match V3Leg(ledger.market, pool, zeroForOne, x, old(ledger.history))
              case Err(e) => e != Panic ==> r == Err(e)
              case Ok(leg) =>
                && r.Ok? && ValidateV3Delta(r.value.0, r.value.1, zeroForOne, x) == Ok(leg.received)
                && ledger.history == leg.history && ledger.delta == old(ledger.delta)
                && Debit(old(ledger.balance), cfg.base, x) == Ok(ledger.balance)
                && ledger.sent == Send(map[], POOL_MANAGER, tokenOut, leg.received)
      ensures V3Leg(ledger.market, pool, zeroForOne, x, old(ledger.history)) == Err(Panic) ==>
                r.Ok? && ValidateV3Delta(r.value.0, r.value.1, zeroForOne, x) == Err(Panic)
    {
      var call := V3Call(pool, zeroForOne, x);
      match ledger.market.v3Swap(ledger.history, call)
      case None => return Err(ExternalRevert);
      case Some((amount0, amount1)) =>
        var out := if zeroForOne then -amount1 else -amount0;
        if out > 0 {
          ledger.sent := Send(ledger.sent, POOL_MANAGER, tokenOut, out);
        }
        var _ :- UniswapV3SwapCallback(pool, amount0, amount1);
        ledger.sent := ledger.sent - {(pool, cfg.base)};
        ledger.history := ledger.history + [call];
        r := Ok((amount0, amount1));
    }

    /** The exit pool pays the executor, calls back once for its exit quote and keeps what arrives. */
    method ExitPoolSwap(pool: Address, tokenIn: Address, zeroForOne: bool, x: nat) returns (r: Outcome<(int, int)>)
      requires phase == PHASE_EXIT_DIRECT && direct == Direct(pool, tokenIn, x, zeroForOne)
      requires ledger.sent == map[]
      modifies ledger`balance, ledger`sent, ledger`delta, ledger`history
      ensures match V3Leg(ledger.market, pool, zeroForOne, x, old(ledger.history))
              case Err(e) => e != Panic ==> r == Err(e)
              case Ok(leg) =>
                && r.Ok? && ValidateV3Delta(r.value.0, r.value.1, zeroForOne, x) == Ok(leg.received)
                && ledger.history == leg.history
                && ledger.delta == Account(old(ledger.delta), tokenIn, -(x as int))
                && ledger.balance == Credit(old(ledger.balance), cfg.base, leg.received)
                && ledger.sent == map[]
      ensures V3Leg(ledger.market, pool, zeroForOne, x, old(ledger.history)) == Err(Panic) ==>
                r.Ok? && ValidateV3Delta(r.value.0, r.value.1, zeroForOne, x) == Err(Panic)
    {
      var call := V3Call(pool, zeroForOne, x);
      match ledger.market.v3Swap(ledger.history, call)
      case None => return Err(ExternalRevert);
      case Some((amount0, amount1)) =>
        var out := if zeroForOne then -amount1 else -amount0;
        if out > 0 {
          ledger.balance := Credit(ledger.balance, cfg.base, out);
        }
        var _ :- UniswapV3SwapCallback(pool, amount0, amount1);
        ledger.sent := ledger.sent - {(pool, tokenIn)};
        ledger.history := ledger.history + [call];
        r := Ok((amount0, amount1));
    }

    // ---- entry: base becomes a credit in the entry quote ----

    /** What an entry shape does: the leg's output is the manager's debt to the executor. */
    predicate Entered(leg: Outcome<Leg>, entryToken: Address, before: Accounts, r: Outcome<nat>)
      reads this, ledger
    {
      match leg
      case Err(e) => r == Err(e)
      case Ok(leg) =>
        && r == Ok(leg.received)
        && InUnlock()
        && ledger.delta == Account(map[], entryToken, leg.received)
        && ledger.synced == None && ledger.sent == map[]
        && ledger.history == leg.history
        && Debit(before.balance, cfg.base, leg.spent) == Ok(ledger.balance)
    }

    predicate ReadyToEnter(x: nat)
      reads this, ledger
    {
      && InUnlock() && x <= Bal(ledger.balance, cfg.base)
      && ledger.delta == map[] && ledger.sent == map[]
    }

    method EnterBase(x: nat) returns (r: Outcome<nat>)
      requires ReadyToEnter(x) && ledger.synced == Some(cfg.base)
      modifies ledger`balance, ledger`sent, ledger`delta, ledger`synced
      ensures Entered(Ok(Leg(x, x, old(ledger.history))), cfg.base, old(ledger.Snapshot()), r)
    {
      var moved := ledger.SafeTransfer(cfg.base, POOL_MANAGER, x);
      if moved.Err? {
        return Err(TokenCallFailed);
      }
      var paid := ledger.ManagerSettle();
      r := Ok(paid);
    }

    method EnterDirect(path: seq<Byte>, entryToken: Address, x: nat) returns (r: Outcome<nat>)
      requires ReadyToEnter(x) && ledger.synced == Some(entryToken) && entryToken != cfg.base
      modifies this, ledger`balance, ledger`sent, ledger`delta, ledger`synced, ledger`history
      ensures Entered(DirectLeg(ledger.market, path, x, old(ledger.history)), entryToken, old(ledger.Snapshot()), r)
    {
      var target :- DirectPool(ledger.market.v3Pool, path);
      var (pool, zeroForOne) := target;
      SetDirectContext(PHASE_ENTRY_DIRECT, pool, cfg.base, x, zeroForOne);
      var amounts :- EntryPoolSwap(pool, entryToken, zeroForOne, x);
      ClearDirectContext();
      var out :- ValidateV3Delta(amounts.0, amounts.1, zeroForOne, x);
      var paid := ledger.ManagerSettle();
      if paid != out {
        return Err(SettlementMismatch);
      }
      r := Ok(out);
    }

    /** The router pulls base, within its allowance, and pays the entry quote to the manager. */
    method EnterRouter(path: seq<Byte>, entryToken: Address, x: nat) returns (r: Outcome<nat>)
      requires ReadyToEnter(x) && ledger.synced == Some(entryToken) && entryToken != cfg.base
      modifies ledger`balance, ledger`sent, ledger`delta, ledger`synced, ledger`history, ledger`allowances
      ensures Entered(RouterLeg(ledger.market, path, x, old(ledger.history)), entryToken, old(ledger.Snapshot()), r)
      ensures r.Ok? ==> ledger.allowances == old(ledger.allowances).With(ToV3Router, cfg.base,
                                                x - RouterLeg(ledger.market, path, x, old(ledger.history)).value.spent)
    {
      ledger.ForceApprove(cfg.base, ToV3Router, x);
      var leg :- RouterPulls(path, cfg.base, x);
      ledger.sent := Send(ledger.sent, POOL_MANAGER, entryToken, leg.received);
      var paid := ledger.ManagerSettle();
      if paid != leg.received {
        return Err(SettlementMismatch);
      }
      r := Ok(leg.received);
    }

    method RouterPulls(path: seq<Byte>, tokenIn: Address, x: nat) returns (r: Outcome<Leg>)
      requires x <= Bal(ledger.balance, tokenIn) && Bal(ledger.allowances.toV3Router, tokenIn) == x
      modifies ledger`balance, ledger`history, ledger`allowances
      ensures r == RouterLeg(ledger.market, path, x, old(ledger.history))
      ensures r.Ok? ==> && ledger.history == r.value.history
                        && Debit(old(ledger.balance), tokenIn, r.value.spent) == Ok(ledger.balance)
                        && ledger.allowances == old(ledger.allowances).With(ToV3Router, tokenIn, x - r.value.spent)
    {
      var call := RouterCall(path, x);
      match ledger.market.routerExactInput(ledger.history, call)
      case None => return Err(ExternalRevert);
      case Some((pulled, paid)) =>
        if pulled > Bal(ledger.allowances.toV3Router, tokenIn) || paid == 0 {
          return Err(ExternalRevert);
        }
        ledger.balance := Debit(ledger.balance, tokenIn, pulled).value;
        ledger.allowances := ledger.allowances.With(ToV3Router, tokenIn, x - pulled);
        ledger.history := ledger.history + [call];
        r := Ok(Leg(pulled, paid, ledger.history));
    }

    method Enter(route: Route, x: nat) returns (r: Outcome<nat>)
      requires ReadyToEnter(x) && ledger.synced == Some(route.entryToken)
      modifies this, ledger`balance, ledger`sent, ledger`delta, ledger`synced, ledger`history, ledger`allowances
      ensures Entered(PathLeg(ledger.market, route.entryV3Path, cfg.base, route.entryToken, x, old(ledger.history)),
                      route.entryToken, old(ledger.Snapshot()), r)
      ensures r.Ok? ==>
                ledger.allowances
                == LegAllowance(route.entryV3Path, cfg.base, route.entryToken, old(ledger.allowances), x,
                                PathLeg(ledger.market, route.entryV3Path, cfg.base, route.entryToken, x,
                                        old(ledger.history)).value)
    {
      if route.entryToken == cfg.base {
        r := EnterBase(x);
      } else if IsDirectLength(route.entryV3Path) {
        r := EnterDirect(route.entryV3Path, route.entryToken, x);
      } else {
        r := EnterRouter(route.entryV3Path, route.entryToken, x);
      }
    }

    // ---- the two v4 swaps ----

    /** All that is owed in `tokenIn` is spent, and what the pool pays is owed in `tokenOut`. */
    method SwapV4(key: PoolKey, tokenIn: Address, tokenOut: Address, x: nat) returns (r: Outcome<nat>)
      requires ledger.unlocked && 0 < x <= MAX_INT128 && ledger.delta == map[tokenIn := x as int]
      requires tokenIn != tokenOut && (V4PoolOk(key, tokenIn, tokenOut) || V4PoolOk(key, tokenOut, tokenIn))
      modifies ledger`delta, ledger`history
      ensures match V4Leg(ledger.market, key, tokenIn, x, old(ledger.history))
              case Err(e) => r == Err(e)
              case Ok(leg) =>
                && r == Ok(leg.received) && 0 < leg.received <= MAX_INT128
                && ledger.delta == map[tokenOut := leg.received as int]
                && ledger.history == leg.history
    {
      var zeroForOne := key.currency0 == tokenIn;
      var packed :- ledger.ManagerSwap(key, zeroForOne, x);
      ghost var amounts := ledger.market.v4Swap(old(ledger.history), V4Call(key, zeroForOne, x)).value;
      UnpackPack(amounts.0, amounts.1);
      var out :- ValidateV4Delta(packed, zeroForOne, x);
      SwapMovesDelta(tokenIn, x, tokenOut, out, key, amounts.0, amounts.1);
      r := Ok(out);
    }

    // ---- exit: the credit in the exit quote becomes base ----

    /** What an exit shape does: nothing is owed any more, base arrives, and unspent exit quote stays. */
    ghost predicate Exited(leg: Outcome<Leg>, exitToken: Address, x: nat, before: Accounts, r: Outcome<nat>)
      reads this, ledger
    {
      match leg
      case Err(e) => r == Err(e)
      case Ok(leg) =>
        && r == Ok(leg.received)
        && InUnlock()
        && ledger.delta == map[] && ledger.synced == None && ledger.sent == map[]
        && ledger.history == leg.history
        && leg.spent <= x
        && SettledBalances(before.balance, ledger.balance, cfg.base, leg.received, exitToken, x - leg.spent)
    }

    predicate ReadyToExit(exitToken: Address, x: nat)
      reads this, ledger
    {
      && InUnlock() && x > 0
      && ledger.delta == map[exitToken := x as int] && ledger.synced == None && ledger.sent == map[]
    }

    method ExitDirect(path: seq<Byte>, exitToken: Address, x: nat) returns (r: Outcome<nat>)
      requires ReadyToExit(exitToken, x)
      modifies this, ledger`balance, ledger`sent, ledger`delta, ledger`history
      ensures Exited(DirectLeg(ledger.market, path, x, old(ledger.history)), exitToken, x, old(ledger.Snapshot()), r)
    {
      var target :- DirectPool(ledger.market.v3Pool, path);
      var (pool, zeroForOne) := target;
      SetDirectContext(PHASE_EXIT_DIRECT, pool, exitToken, x, zeroForOne);
      var amounts :- ExitPoolSwap(pool, exitToken, zeroForOne, x);
      ClearDirectContext();
      r := ValidateV3Delta(amounts.0, amounts.1, zeroForOne, x);
    }

    method ExitRouter(path: seq<Byte>, exitToken: Address, x: nat) returns (r: Outcome<nat>)
      requires ReadyToExit(exitToken, x)
      modifies ledger`balance, ledger`delta, ledger`history, ledger`allowances
      ensures Exited(RouterLeg(ledger.market, path, x, old(ledger.history)), exitToken, x, old(ledger.Snapshot()), r)
      ensures r.Ok? ==> ledger.allowances == old(ledger.allowances).With(ToV3Router, exitToken,
                                                x - RouterLeg(ledger.market, path, x, old(ledger.history)).value.spent)
    {
      ledger.ManagerTake(exitToken, x);
      ledger.ForceApprove(exitToken, ToV3Router, x);
      var leg :- RouterPulls(path, exitToken, x);
      ledger.balance := Credit(ledger.balance, cfg.base, leg.received);
      RouterExitBalances(old(ledger.balance), exitToken, x, leg.spent, cfg.base, leg.received);
      r := Ok(leg.received);
    }

    method Exit(route: Route, x: nat) returns (r: Outcome<nat>)
      requires ReadyToExit(route.exitToken, x)
      modifies this, ledger`balance, ledger`sent, ledger`delta, ledger`history, ledger`allowances
      ensures Exited(PathLeg(ledger.market, route.exitV3Path, route.exitToken, cfg.base, x, old(ledger.history)),
                     route.exitToken, x, old(ledger.Snapshot()), r)
      ensures r.Ok? ==>
                ledger.allowances
                == LegAllowance(route.exitV3Path, route.exitToken, cfg.base, old(ledger.allowances), x,
                                PathLeg(ledger.market, route.exitV3Path, route.exitToken, cfg.base, x,
                                        old(ledger.history)).value)
    {
      if route.exitToken == cfg.base {
        ledger.ManagerTake(cfg.base, x);
        r := Ok(x);
      } else if IsDirectLength(route.exitV3Path) {
        r := ExitDirect(route.exitV3Path, route.exitToken, x);
      } else {
        r := ExitRouter(route.exitV3Path, route.exitToken, x);
      }
    }

    // ---- the whole cycle ----

    /** What the cycle did, in base, exit quote and router allowances. */
    ghost predicate CycleDone(route: Route, x: nat, cycle: Cycle, before: Accounts)
      reads this, ledger
    {
      && cycle.Spent() <= x
      && ledger.history == cycle.exit.history
      && CycleBalances(before.balance, ledger.balance, cfg.base, cycle.Spent(), cycle.Output(), route.exitToken,
                       cycle.Dust())
      && ledger.allowances == CycleAllowance(cfg.base, route, before.allowances, x, cycle)
    }

    /** When the callback returns, the manager's account is empty in every currency, whatever the shapes. */
    method UnlockCallback(sender: Address, route: Route, x: nat) returns (r: Outcome<nat>)
      requires sender == POOL_MANAGER && phase == PHASE_UNLOCK ==>
                 RouteOk(ledger.market, cfg, route) && ReadyToEnter(x) && 0 < x <= MAX_INT128
      modifies this, ledger
      ensures sender != POOL_MANAGER || old(phase) != PHASE_UNLOCK ==>
                r == Err(UnauthorizedCallback) && unchanged(this, ledger)
      ensures sender == POOL_MANAGER && old(phase) == PHASE_UNLOCK ==>
                match RunCycle(ledger.market, cfg, route, x, old(ledger.history))
                case Err(e) => r == Err(e)
                case Ok(cycle) =>
                  && r == Ok(cycle.Output())
                  && ledger.delta == map[] && ledger.synced == None && ledger.sent == map[] && InUnlock()
                  && CycleDone(route, x, cycle, old(ledger.Snapshot()))
    {
      if sender != POOL_MANAGER || phase != PHASE_UNLOCK {
        return Err(UnauthorizedCallback);
      }
      r := RunLegs(route, x);
    }

    method RunLegs(route: Route, x: nat) returns (r: Outcome<nat>)
      requires RouteOk(ledger.market, cfg, route) && ReadyToEnter(x)
      modifies this, ledger
      ensures match RunCycle(ledger.market, cfg, route, x, old(ledger.history))
              case Err(e) => r == Err(e)
              case Ok(cycle) =>
                && r == Ok(cycle.Output())
                && ledger.delta == map[] && ledger.synced == None && ledger.sent == map[] && InUnlock()
                && CycleDone(route, x, cycle, old(ledger.Snapshot()))
    {
      ledger.ManagerSync(route.entryToken);
      ghost var entry := PathLeg(ledger.market, route.entryV3Path, cfg.base, route.entryToken, x, ledger.history);
      var entryAmount :- Enter(route, x);
      PathLegSpends(ledger.market, route.entryV3Path, cfg.base, route.entryToken, x, old(ledger.history));
      ghost var mid := ledger.balance;
      r := FromEntryAmount(route, entryAmount, entry.value);
      if r.Ok? {
        ghost var cycle := FromEntry(ledger.market, cfg, route, entry.value).value;
        CombineBalances(old(ledger.balance), mid, ledger.balance, cfg.base, cycle.Spent(), cycle.Output(),
                        route.exitToken, cycle.Dust());
      }
    }

    /** The bounds check on the entry amount, the two v4 swaps and the exit. */
    method FromEntryAmount(route: Route, entryAmount: nat, ghost entry: Leg) returns (r: Outcome<nat>)
      requires RouteOk(ledger.market, cfg, route) && InUnlock()
      requires entry.received == entryAmount && entry.history == ledger.history
      requires ledger.delta == Account(map[], route.entryToken, entryAmount) && ledger.synced == None
               && ledger.sent == map[]
      modifies this, ledger
      ensures match FromEntry(ledger.market, cfg, route, entry)
              case Err(e) => r == Err(e)
              case Ok(cycle) =>
                && r == Ok(cycle.Output())
                && ledger.delta == map[] && ledger.synced == None && ledger.sent == map[] && InUnlock()
                && ledger.history == cycle.exit.history
                && SettledBalances(old(ledger.balance), ledger.balance, cfg.base, cycle.Output(), route.exitToken,
                                   cycle.Dust())
                && ledger.allowances
                   == LegAllowance(route.exitV3Path, route.exitToken, cfg.base, old(ledger.allowances),
                                   cycle.quote.received, cycle.exit)
    {
      var exitAmount :- SwapBoth(route, entryAmount);
      r := Exit(route, exitAmount);
    }

    method SwapBoth(route: Route, entryAmount: nat) returns (r: Outcome<nat>)
      requires RouteOk(ledger.market, cfg, route) && ledger.unlocked
      requires ledger.delta == Account(map[], route.entryToken, entryAmount)
      modifies ledger`delta, ledger`history
      ensures match BothV4(ledger.market, route, entryAmount, old(ledger.history))
              case Err(e) => r == Err(e)
              case Ok(leg) =>
                && r == Ok(leg.received) && leg.received > 0
                && ledger.delta == map[route.exitToken := leg.received as int]
                && ledger.history == leg.history
    {
      if entryAmount == 0 || entryAmount > MAX_INT128 {
        return Err(InvalidSwapDelta);
      }
      var targetAmount :- SwapV4(route.entryV4Pool, route.entryToken, route.targetToken, entryAmount);
      r := SwapV4(route.exitV4Pool, route.targetToken, route.exitToken, targetAmount);
    }

    /** The manager calls back once and then insists that every currency is settled. */
    method Unlock(route: Route, x: nat) returns (r: Outcome<nat>)
      requires RouteOk(ledger.market, cfg, route) && 0 < x <= MAX_INT128 && x <= Bal(ledger.balance, cfg.base)
      requires phase == PHASE_UNLOCK && direct == NO_DIRECT && ledger.Quiet()
      modifies this, ledger
      ensures match RunCycle(ledger.market, cfg, route, x, old(ledger.history))
              case Err(e) => r == Err(e)
              case Ok(cycle) =>
                && r == Ok(cycle.Output())
                && phase == PHASE_UNLOCK && direct == NO_DIRECT && ledger.Quiet()
                && CycleDone(route, x, cycle, old(ledger.Snapshot()))
    {
      ledger.unlocked := true;
      var output :- UnlockCallback(POOL_MANAGER, route, x);
      if ledger.delta != map[] {
        return Err(ExternalRevert);
      }
      ledger.unlocked := false;
      r := Ok(output);
    }

    method ValidateV4Pool(key: PoolKey, target: Address, quote: Address) returns (r: Outcome<()>)
      ensures r == Need(V4PoolOk(key, target, quote), InvalidV4Pool)
    {
      if key.currency0 == ZERO || key.currency0 >= key.currency1 || key.fee != PAIR_FEE
         || key.tickSpacing != PAIR_TICK_SPACING || key.hooks != PAIR_HOOK {
        return Err(InvalidV4Pool);
      }
      var tokensMatch := (key.currency0 == target && key.currency1 == quote)
                         || (key.currency0 == quote && key.currency1 == target);
      r := Need(tokensMatch, InvalidV4Pool);
    }

    /** Anything may follow the two paths in calldata. */
    method ValidateRoute(route: Route, afterEntry: seq<Byte>, afterExit: seq<Byte>) returns (r: Outcome<()>)
      ensures r == RouteVerdict(ledger.market, cfg, route)
    {
      if route.targetToken == ZERO || route.entryToken == ZERO || route.exitToken == ZERO
         || route.targetToken == cfg.base || (!cfg.bridgeMayBeTarget && route.targetToken == cfg.bridge)
         || route.targetToken == route.entryToken || route.targetToken == route.exitToken {
        return Err(InvalidRoute);
      }
      var _ :- ValidateV4Pool(route.entryV4Pool, route.targetToken, route.entryToken);
      var _ :- ValidateV4Pool(route.exitV4Pool, route.targetToken, route.exitToken);
      if route.entryV4Pool == route.exitV4Pool {
        return Err(DuplicateV4Pool);
      }
      var _ :- ValidateV3Path(ledger.market.v3Pool, cfg.bridge, route.entryV3Path, afterEntry, cfg.base,
                              route.entryToken);
      r := ValidateV3Path(ledger.market.v3Pool, cfg.bridge, route.exitV3Path, afterExit, route.exitToken, cfg.base);
    }

    /** A successful run is the net receipt with profit in base and unspent exit quote as the only balance
        changes; a failed one has the net error and changes nothing. */
    ghost predicate Answers(spec: Outcome<Receipt>, route: Route, x: nat, before: Accounts, r: Outcome<(nat, nat)>)
      reads this, ledger
    {
      match spec
      case Err(e) => r == Err(e)
      case Ok(receipt) =>
        && r == Ok((receipt.amountOut, receipt.grossProfit))
        && AtRest() && ledger.history == receipt.cycle.exit.history
        && SettledBalances(before.balance, ledger.balance, cfg.base, receipt.grossProfit, route.exitToken,
                           receipt.cycle.Dust())
        && ledger.allowances == CycleAllowance(cfg.base, route, before.allowances, x, receipt.cycle)
    }

    method Execute(sender: Address, order: Order, now: nat, afterEntry: seq<Byte>, afterExit: seq<Byte>)
      returns (r: Outcome<(nat, nat)>)
      requires phase == 0 ==> AtRest()
      requires cfg.maxAmountIn <= HARD_MAX_AMOUNT_IN
      modifies this, ledger
      ensures sender != operator ==> r == Err(NotOperator)
      ensures sender == operator && old(phase) != 0 ==> r == Err(Reentered)
      ensures sender == operator && old(phase) == 0 ==>
                Answers(CycleNet.Execute(ledger.market, cfg, order, now, Bal(old(ledger.balance), cfg.base),
                                         old(ledger.history)),
                        order.route, order.amountIn, old(ledger.Snapshot()), r)
      ensures r.Err? ==> phase == old(phase) && direct == old(direct) && ledger.Snapshot() == old(ledger.Snapshot())
    {
      if sender != operator {
        return Err(NotOperator);
      }
      if phase != 0 {
        return Err(Reentered);
      }
      var accounts := ledger.Snapshot();
      r := Body(order, now, afterEntry, afterExit);
      if r.Err? {
        phase, direct := 0, NO_DIRECT;
        ledger.Restore(accounts);
      }
    }

    method Body(order: Order, now: nat, afterEntry: seq<Byte>, afterExit: seq<Byte>) returns (r: Outcome<(nat, nat)>)
      requires AtRest() && cfg.maxAmountIn <= HARD_MAX_AMOUNT_IN
      modifies this, ledger
      ensures Answers(CycleNet.Execute(ledger.market, cfg, order, now, Bal(old(ledger.balance), cfg.base),
                                       old(ledger.history)),
                      order.route, order.amountIn, old(ledger.Snapshot()), r)
    {
      var _ :- Need(now <= order.deadline, Expired);
      var _ :- Need(0 < order.amountIn <= cfg.maxAmountIn, InvalidAmount);
      var _ :- Need(cfg.minGrossProfit <= order.minProfit, ProfitFloorTooLow);
      var _ :- ValidateRoute(order.route, afterEntry, afterExit);
      var balanceBefore := Bal(ledger.balance, cfg.base);
      var _ :- Need(order.amountIn <= balanceBefore, InsufficientPrincipal);
      r := Measure(order, balanceBefore);
    }

    /** Unlock, then compare what the legs reported with what the base balance says. */
    method Measure(order: Order, balanceBefore: nat) returns (r: Outcome<(nat, nat)>)
      requires AtRest() && RouteOk(ledger.market, cfg, order.route)
      requires 0 < order.amountIn <= MAX_INT128 && order.amountIn <= balanceBefore == Bal(ledger.balance, cfg.base)
      modifies this, ledger
      ensures match RunCycle(ledger.market, cfg, order.route, order.amountIn, old(ledger.history))
              case Err(e) => r == Err(e)
              case Ok(cycle) => Answers(Settle(order, cycle), order.route, order.amountIn, old(ledger.Snapshot()), r)
    {
      phase := PHASE_UNLOCK;
      var reportedOut :- Unlock(order.route, order.amountIn);
      if phase != PHASE_UNLOCK {
        return Err(SettlementMismatch);
      }
      phase := 0;
      ghost var entry := PathLeg(ledger.market, order.route.entryV3Path, cfg.base, order.route.entryToken,
                                 order.amountIn, old(ledger.history)).value;
      ghost var cycle := FromEntry(ledger.market, cfg, order.route, entry).value;
      if order.route.exitToken == cfg.base {
        NoDustInBase(ledger.market, cfg, order.route, entry);
      }
      assert Bal(ledger.balance, cfg.base) + cycle.Spent() == balanceBefore + cycle.Output();
      r := CheckProfit(order, reportedOut, balanceBefore, Bal(ledger.balance, cfg.base), cycle);
      if r.Ok? {
        BalancesSettle(old(ledger.balance), ledger.balance, cfg.base, cycle.Spent(), cycle.Output(),
                       order.route.exitToken, cycle.Dust());
      }
    }

    method CheckProfit(order: Order, reportedOut: nat, balanceBefore: nat, balanceAfter: nat, ghost cycle: Cycle)
      returns (r: Outcome<(nat, nat)>)
      requires reportedOut == cycle.Output() && balanceAfter + cycle.Spent() == balanceBefore + cycle.Output()
      ensures r == match Settle(order, cycle)
                   case Err(e) => Err(e)
                   case Ok(receipt) => Ok((receipt.amountOut, receipt.grossProfit))
    {
      if balanceAfter < balanceBefore {
        return Err(ProfitTooLow(0, order.minProfit));
      }
      var grossProfit := balanceAfter - balanceBefore;
      var amountOut := order.amountIn + grossProfit;
      if reportedOut != amountOut {
        return Err(SettlementMismatch);
      }
      if grossProfit < order.minProfit {
        return Err(ProfitTooLow(grossProfit, order.minProfit));
      }
      r := Ok((amountOut, grossProfit));
    }
  }
}
