// contracts/UniversalAtomicExecutor.sol, step by step: approvals, callbacks, transient phase and v3
// context, and the accounts of the contracts it calls. Every step is tied to UniversalNet.
module UniversalExecutor {
  import opened Evm
  import opened Market
  import opened DeltaPacking
  import opened ConstantProduct
  import opened Ledgers
  import opened UniversalNet
  import opened InventoryProtection

  const MORPHO: Address := 0x9D53d5E3bd5E8d4Cbfa6DB1ca238AEA02E651010

  const PHASE_INVENTORY: nat := 1
  const PHASE_FLASH: nat := 2
  const PHASE_QUOTE: nat := 3
  const PHASE_V4_UNLOCK: nat := 4

  /** How a call into the loan callback ends. */
  datatype LoanEnd = Repay | Reports(settlementDelta: int) | Reverts(error: Error)

  /** The transient v3 context: which pool may ask for how much of which token. */
  datatype V3Context = V3Context(pool: Address, token: Address, amount: nat, token0: bool)

  const NO_V3_CONTEXT := V3Context(ZERO, ZERO, 0, false)

  lemma {:induction false} RunPrefixError(m: Market, plan: Plan, baselines: seq<nat>, actions: seq<Action>, w: World,
                                          k: nat)
    requires |plan.trackedTokens| == |baselines| && k <= |actions|
    requires RunActions(m, plan, baselines, actions[..k], w).Err?
    ensures RunActions(m, plan, baselines, actions, w) == RunActions(m, plan, baselines, actions[..k], w)
  {
    if k == |actions| {
      assert actions[..k] == actions;
    } else {
      assert actions[..|actions| - 1][..k] == actions[..k];
      RunPrefixError(m, plan, baselines, actions[..|actions| - 1], w, k);
    }
  }

  lemma RunExtended(m: Market, plan: Plan, baselines: seq<nat>, actions: seq<Action>, w: World, w': World, i: nat)
    requires |plan.trackedTokens| == |baselines| && i < |actions|
    requires RunActions(m, plan, baselines, actions[..i], w) == Ok(w')
    ensures RunActions(m, plan, baselines, actions[..i + 1], w) == RunAction(m, plan, baselines, actions[i], w')
  {
    assert actions[..i + 1][..i] == actions[..i];
  }

  lemma {:induction false} AvailablePrefixError(plan: Plan, baselines: seq<nat>, b: Balances, tokens: seq<Address>,
                                                k: nat)
    requires |plan.trackedTokens| == |baselines| && k <= |tokens|
    requires AvailableAll(plan, baselines, b, tokens[..k]).Err?
    ensures AvailableAll(plan, baselines, b, tokens) == AvailableAll(plan, baselines, b, tokens[..k])
  {
    if k == |tokens| {
      assert tokens[..k] == tokens;
    } else {
      assert tokens[..|tokens| - 1][..k] == tokens[..k];
      AvailablePrefixError(plan, baselines, b, tokens[..|tokens| - 1], k);
    }
  }

  lemma AvailableExtended(plan: Plan, baselines: seq<nat>, b: Balances, tokens: seq<Address>, i: nat)
    requires |plan.trackedTokens| == |baselines| && i < |tokens|
    requires AvailableAll(plan, baselines, b, tokens[..i]).Ok?
    ensures AvailableAll(plan, baselines, b, tokens[..i + 1])
            == match Available(plan, baselines, b, tokens[i], 0)
               case Err(e) => Err(e)
               case Ok(amount) => Ok(AvailableAll(plan, baselines, b, tokens[..i]).value + [amount])
  {
    assert tokens[..i + 1][..i] == tokens[..i];
  }

  lemma ApprovalsExtended(tokens: seq<Address>, amounts: seq<nat>, amount: nat, i: nat)
    requires |amounts| == i < |tokens|
    ensures ApprovalsFor(tokens[..i + 1], amounts + [amount])
            == Put(ApprovalsFor(tokens[..i], amounts), tokens[i], amount)
  {
    assert tokens[..i + 1][..i] == tokens[..i] && (amounts + [amount])[..i] == amounts;
  }

  lemma {:induction false} SumPrefix(xs: seq<nat>, k: nat)
    requires k <= |xs|
    ensures Sum(xs[..k]) <= Sum(xs)
  {
    if k == |xs| {
      assert xs[..k] == xs;
    } else {
      assert xs[..|xs| - 1][..k] == xs[..k];
      SumPrefix(xs[..|xs| - 1], k);
    }
  }

  /** Paying out before or after taking in makes no difference. */
  lemma SwapOrder(b: Balances, tokenIn: Address, x: nat, tokenOut: Address, out: nat)
    requires x <= Bal(b, tokenIn) && tokenIn != tokenOut
    ensures Debit(Credit(b, tokenOut, out), tokenIn, x) == Ok(Credit(Debit(b, tokenIn, x).value, tokenOut, out))
  {
    assert Debit(Credit(b, tokenOut, out), tokenIn, x).value == Credit(Debit(b, tokenIn, x).value, tokenOut, out);
  }

  function Prepend(taken: seq<nat>, rest: Outcome<seq<nat>>): Outcome<seq<nat>> {
    match rest
    case Ok(s) => Ok(taken + s)
    case Err(e) => Err(e)
  }

  lemma PrependNone(rest: Outcome<seq<nat>>)
    ensures Prepend([], rest) == rest
  {
    if rest.Ok? {
      assert [] + rest.value == rest.value;
    }
  }

  lemma PrependOne(taken: seq<nat>, x: nat, rest: Outcome<seq<nat>>)
    ensures Prepend(taken, Prepend([x], rest)) == Prepend(taken + [x], rest)
  {
    if rest.Ok? {
      assert taken + ([x] + rest.value) == taken + [x] + rest.value;
    }
  }

  lemma {:induction false} ValidActionAt(plan: Plan, actions: seq<Action>, i: nat)
    requires ValidateActions(plan, actions).Ok? && i < |actions|
    ensures ValidateAction(plan, actions[i]).Ok?
  {
    if i > 0 {
      ValidActionAt(plan, actions[1..], i - 1);
    }
  }

  /** Everything a revert rolls back. */
  datatype Storage = Storage(
    accounts: Accounts,
    pairs: map<Address, Pair>,
    permit: Balances,
    phase: nat,
    v3: V3Context)

  function LoanSpec(m: Market, plan: Plan, baselines: seq<nat>, assets: nat, w: World): Outcome<(World, int)>
    requires |plan.trackedTokens| == |baselines|
  {
    var _ :- Need(assets <= m.loanLiquidity(plan.settlementToken), ExternalRevert);
    RunOnLoan(m, plan, baselines, assets, w.(balance := Credit(w.balance, plan.settlementToken, assets)))
  }

  /** The measured gain of a flash run is the margin its callback computed. */
  lemma MarginIsGain(m: Market, plan: Plan, principal: nat, now: nat, w: World)
    requires BorrowAndRun(m, plan, principal, now, w).Ok?
    ensures var (after, margin) := BorrowAndRun(m, plan, principal, now, w).value;
            Bal(after.balance, plan.settlementToken) == Bal(w.balance, plan.settlementToken) + principal + margin
  {
    var s := plan.settlementToken;
    var baselines := Baselines(plan.trackedTokens, s, 0, w.balance).value;
    BaselinesAt(plan.trackedTokens, s, 0, w.balance);
    FloorIsSomeEntry(plan.trackedTokens, baselines, s);
  }

  class Executor {
    const operator: Address

    // The executor's tokens and allowances, the PoolManager's account for it, and the calls other pools have served.
    const ledger: Ledger

    // The v2 pairs' reserves, and what Permit2 lets the Earn router take of each token.
    var pairs: map<Address, Pair>
    var permit: Balances

    // Transient storage.
    var phase: nat
    var v3: V3Context

    constructor (operator: Address, ledger: Ledger, pairs: map<Address, Pair>)
      requires ledger.Quiet() && ledger.allowances == NO_ALLOWANCES
      ensures AtRest() && World() == UniversalNet.World(ledger.balance, pairs, ledger.history)
      ensures this.ledger == ledger && this.operator == operator
    {
      this.operator, this.ledger, this.pairs := operator, ledger, pairs;
      permit, phase, v3 := map[], 0, NO_V3_CONTEXT;
    }

    function World(): World
      reads this, ledger
    {
      UniversalNet.World(ledger.balance, pairs, ledger.history)
    }

    /** Nothing is approved, owed, in flight or expected. */
    predicate Clean()
      reads this, ledger
    {
      && ledger.allowances == NO_ALLOWANCES && permit == map[] && ledger.sent == map[]
      && v3 == NO_V3_CONTEXT
      && !ledger.unlocked && ledger.delta == map[] && ledger.synced == None
    }

    predicate AtRest()
      reads this, ledger
    {
      phase == 0 && Clean()
    }

    predicate Running()
      reads this, ledger
    {
      (phase == PHASE_INVENTORY || phase == PHASE_FLASH || phase == PHASE_QUOTE) && Clean()
    }

    /** The step-by-step result is the net result, and nothing is left behind. */
    predicate Did(spec: Outcome<Step>, r: Outcome<nat>)
      reads this, ledger
    {
      match spec
      case Ok(step) => r == Ok(step.amountOut) && World() == step.world && Clean()
      case Err(e) => r == Err(e)
    }

    /** The same for a swap, in terms of the venue's fill. */
    predicate Filled(spec: Outcome<Fill>, a: Action, before: Balances, r: Outcome<nat>)
      reads this, ledger
    {
      match spec
      case Ok(fill) =>
        && r == Ok(fill.received)
        && Debit(before, a.tokenIn, fill.spent).Ok?
        && ledger.balance == Credit(Debit(before, a.tokenIn, fill.spent).value, fill.token, fill.received)
        && pairs == fill.pairs && ledger.history == fill.history
        && Clean()
      case Err(e) => r == Err(e)
    }

    // ---- tokens ----

    method ApprovePermit2(token: Address, amount: nat) returns (r: Outcome<()>)
      modifies ledger`allowances, this`permit
      ensures r == if amount == 0 || amount > MAX_UINT160 then Err(InvalidAmount) else Ok(())
      ensures r.Ok? ==> && ledger.allowances == old(ledger.allowances).With(ToPermit2, token, amount)
                        && permit == Put(old(permit), token, amount)
    {
      if amount == 0 || amount > MAX_UINT160 {
        return Err(InvalidAmount);
      }
      ledger.ForceApprove(token, ToPermit2, amount);
      permit := Put(permit, token, amount);
      r := Ok(());
    }

    method RevokePermit2(token: Address)
      modifies ledger`allowances, this`permit
      ensures ledger.allowances == old(ledger.allowances).With(ToPermit2, token, 0)
              && permit == Put(old(permit), token, 0)
    {
      permit := Put(permit, token, 0);
      ledger.ForceApprove(token, ToPermit2, 0);
    }

    // ---- contracts outside the executor ----

    /** The Earn router spends through Permit2: within both approvals and the balance. */
    method PermitSpend(token: Address, amount: nat) returns (r: Outcome<()>)
      modifies ledger`balance, ledger`allowances, this`permit
      ensures r.Ok? <==> amount <= Bal(old(permit), token) && amount <= Bal(old(ledger.allowances).toPermit2, token)
                         && amount <= Bal(old(ledger.balance), token)
      ensures r.Ok? ==>
                && Debit(old(ledger.balance), token, amount) == Ok(ledger.balance)
                && permit == Put(old(permit), token, Bal(old(permit), token) - amount)
                && ledger.allowances
                   == old(ledger.allowances).With(ToPermit2, token,
                                                  Bal(old(ledger.allowances).toPermit2, token) - amount)
      ensures r.Err? ==> r.error == ExternalRevert
    {
      if amount > Bal(permit, token) || amount > Bal(ledger.allowances.toPermit2, token)
         || amount > Bal(ledger.balance, token) {
        return Err(ExternalRevert);
      }
      permit := Put(permit, token, Bal(permit, token) - amount);
      ledger.allowances := ledger.allowances.With(ToPermit2, token, Bal(ledger.allowances.toPermit2, token) - amount);
      ledger.balance := ledger.balance[token := Bal(ledger.balance, token) - amount];
      r := Ok(());
    }

    /** A pair counts what has been sent to it, checks its product, pays and updates its reserves. */
    method PairSwapCall(pool: Address, tokenIn: Address, out0: nat, out1: nat) returns (r: Outcome<()>)
      requires pool in pairs
      modifies ledger`balance, this`pairs, ledger`sent
      ensures match PairSwap(old(pairs)[pool], tokenIn, Arrived(old(ledger.sent), pool, tokenIn), out0, out1)
              case Err(e) => r == Err(e)
              case Ok(p) =>
                && r == Ok(())
                && pairs == old(pairs)[pool := p]
                && ledger.sent == old(ledger.sent) - {(pool, tokenIn)}
                && ledger.balance == (var b := if out0 > 0 then Credit(old(ledger.balance), p.token0, out0)
                                               else old(ledger.balance);
                                      if out1 > 0 then Credit(b, p.token1, out1) else b)
    {
      var p :- PairSwap(pairs[pool], tokenIn, Arrived(ledger.sent, pool, tokenIn), out0, out1);
      if out0 > 0 {
        ledger.balance := Credit(ledger.balance, p.token0, out0);
      }
      if out1 > 0 {
        ledger.balance := Credit(ledger.balance, p.token1, out1);
      }
      pairs := pairs[pool := p];
      ledger.sent := ledger.sent - {(pool, tokenIn)};
      r := Ok(());
    }

    /** A canonical v3 pool pays its output, calls back once for its input and keeps what arrives. */
    method PoolSwapCall(pool: Address, tokenIn: Address, tokenOut: Address, zeroForOne: bool, x: nat)
      returns (r: Outcome<(int, int)>)
      requires pool != ZERO && v3 == V3Context(pool, tokenIn, x, zeroForOne)
      requires x <= Bal(ledger.balance, tokenIn) && tokenIn != tokenOut && ledger.sent == map[]
      modifies ledger`balance, ledger`sent, ledger`history
      ensures match V3Venue(ledger.market, pool, zeroForOne, tokenOut, x, pairs, old(ledger.history))
              case Err(e) =>
                r == Err(e) || (e == Panic && r.Ok?
                                && ValidateV3Delta(r.value.0, r.value.1, zeroForOne, x) == Err(Panic))
              case Ok(fill) =>
                && r.Ok?
                && ValidateV3Delta(r.value.0, r.value.1, zeroForOne, x) == Ok(fill.received)
                && ledger.history == fill.history
                && ledger.balance == Credit(Debit(old(ledger.balance), tokenIn, x).value, tokenOut, fill.received)
                && ledger.sent == map[]
    {
      var call := V3Call(pool, zeroForOne, x);
      match ledger.market.v3Swap(ledger.history, call)
      case None => return Err(ExternalRevert);
      case Some((amount0, amount1)) =>
        var out := if zeroForOne then -amount1 else -amount0;
        if out > 0 {
          ledger.balance := Credit(ledger.balance, tokenOut, out);
        }
        var _ :- UniswapV3SwapCallback(pool, amount0, amount1);
        SwapOrder(old(ledger.balance), tokenIn, x, tokenOut, out);
        ledger.sent := ledger.sent - {(pool, tokenIn)};
        ledger.history := ledger.history + [call];
        r := Ok((amount0, amount1));
    }

    /** The manager calls back once and then insists that every currency is settled. */
    method ManagerUnlock(a: Action, x: nat, outerPhase: nat) returns (r: Outcome<nat>)
      requires V4ActionOk(a) && Clean() && phase == PHASE_V4_UNLOCK
      requires outerPhase == PHASE_INVENTORY || outerPhase == PHASE_FLASH || outerPhase == PHASE_QUOTE
      requires 0 < x <= MAX_INT128 && x <= Bal(ledger.balance, a.tokenIn) && a.tokenIn != a.tokenOut
      modifies ledger`unlocked, ledger`delta, ledger`synced, ledger`sent, ledger`balance, ledger`history, this`phase
      ensures match FillV4(ledger.market, a, x, old(pairs), old(ledger.history))
              case Err(e) => r == Err(e)
              case Ok(fill) =>
                && r == Ok(fill.received)
                && phase == outerPhase && Clean()
                && ledger.history == fill.history
                && Debit(old(ledger.balance), a.tokenIn, x).Ok?
                && ledger.balance == Credit(Debit(old(ledger.balance), a.tokenIn, x).value, a.tokenOut, fill.received)
    {
      ledger.unlocked := true;
      var out :- UnlockCallback(POOL_MANAGER, a, x, outerPhase);
      if ledger.delta != map[] {
        return Err(ExternalRevert);
      }
      ledger.unlocked := false;
      r := Ok(out);
    }

    // ---- callbacks into the executor ----

    method UniswapV3SwapCallback(sender: Address, amount0: int, amount1: int) returns (r: Outcome<()>)
      modifies ledger`balance, ledger`sent
      ensures v3.pool == ZERO || sender != v3.pool ==> r == Err(UnauthorizedCallback)
      ensures v3.pool != ZERO && sender == v3.pool ==>
                if !V3SignsOk(amount0, amount1, v3.token0, v3.amount) then r == Err(InvalidSwapDelta)
                else
                  match Debit(old(ledger.balance), v3.token, v3.amount) {
                    case Err(e) => r == Err(e)
                    case Ok(b) =>
                      && r == Ok(()) && ledger.balance == b
                      && ledger.sent
                         == old(ledger.sent)[(sender, v3.token) :=
                                               Arrived(old(ledger.sent), sender, v3.token) + v3.amount]
                  }
      ensures r.Err? ==> ledger.balance == old(ledger.balance) && ledger.sent == old(ledger.sent)
    {
      if v3.pool == ZERO || sender != v3.pool {
        return Err(UnauthorizedCallback);
      }
      var inputDelta := if v3.token0 then amount0 else amount1;
      var outputDelta := if v3.token0 then amount1 else amount0;
      if inputDelta <= 0 || outputDelta >= 0 || inputDelta != v3.amount {
        return Err(InvalidSwapDelta);
      }
      if inputDelta > Bal(ledger.balance, v3.token) {
        return Err(TokenCallFailed);
      }
      r := ledger.SafeTransfer(v3.token, sender, inputDelta);
    }

    method UnlockCallback(sender: Address, a: Action, x: nat, outerPhase: nat) returns (r: Outcome<nat>)
      requires sender == POOL_MANAGER && phase == PHASE_V4_UNLOCK ==>
                 V4ActionOk(a) && ledger.unlocked && ledger.delta == map[] && ledger.synced == None
                 && ledger.sent == map[]
                 && 0 < x <= MAX_INT128 && x <= Bal(ledger.balance, a.tokenIn) && a.tokenIn != a.tokenOut
      modifies ledger`delta, ledger`synced, ledger`sent, ledger`balance, ledger`history, this`phase
      ensures sender != POOL_MANAGER || old(phase) != PHASE_V4_UNLOCK
              || !(outerPhase == PHASE_INVENTORY || outerPhase == PHASE_FLASH || outerPhase == PHASE_QUOTE)
              ==> r == Err(UnauthorizedCallback) && unchanged(this, ledger)
      ensures sender == POOL_MANAGER && old(phase) == PHASE_V4_UNLOCK
              && (outerPhase == PHASE_INVENTORY || outerPhase == PHASE_FLASH || outerPhase == PHASE_QUOTE) ==>
                match FillV4(ledger.market, a, x, old(pairs), old(ledger.history))
                case Err(e) => r == Err(e)
                case Ok(fill) =>
                  && r == Ok(fill.received)
                  && phase == outerPhase
                  && ledger.delta == map[] && ledger.synced == None && ledger.sent == map[]
                  && ledger.history == fill.history
                  && Debit(old(ledger.balance), a.tokenIn, x).Ok?
                  && ledger.balance == Credit(Debit(old(ledger.balance), a.tokenIn, x).value, a.tokenOut, fill.received)
    {
      if sender != POOL_MANAGER || phase != PHASE_V4_UNLOCK {
        return Err(UnauthorizedCallback);
      }
      if outerPhase != PHASE_INVENTORY && outerPhase != PHASE_FLASH && outerPhase != PHASE_QUOTE {
        return Err(UnauthorizedCallback);
      }
      var out :- SwapAndSettle(a, x);
      phase := outerPhase;
      r := Ok(out);
    }

    /** Swap, pay what the swap owes and take what it is owed. */
    method SwapAndSettle(a: Action, x: nat) returns (r: Outcome<nat>)
      requires V4ActionOk(a) && ledger.unlocked && ledger.delta == map[] && ledger.synced == None
               && ledger.sent == map[]
      requires 0 < x <= MAX_INT128 && x <= Bal(ledger.balance, a.tokenIn) && a.tokenIn != a.tokenOut
      modifies ledger`delta, ledger`synced, ledger`sent, ledger`balance, ledger`history
      ensures match FillV4(ledger.market, a, x, pairs, old(ledger.history))
              case Err(e) => r == Err(e)
              case Ok(fill) =>
                && r == Ok(fill.received)
                && ledger.delta == map[] && ledger.synced == None && ledger.sent == map[]
                && ledger.history == fill.history
                && Debit(old(ledger.balance), a.tokenIn, x).Ok?
                && ledger.balance == Credit(Debit(old(ledger.balance), a.tokenIn, x).value, a.tokenOut, fill.received)
    {
      var zeroForOne := a.v4Pool.currency0 == a.tokenIn;
      var packed :- ledger.ManagerSwap(a.v4Pool, zeroForOne, x);
      ghost var amounts := ledger.market.v4Swap(old(ledger.history), V4Call(a.v4Pool, zeroForOne, x)).value;
      UnpackPack(amounts.0, amounts.1);
      var out :- ValidateV4Delta(packed, zeroForOne, x);
      ledger.ManagerSync(a.tokenIn);
      var moved := ledger.SafeTransfer(a.tokenIn, POOL_MANAGER, x);
      if moved.Err? {
        return Err(TokenCallFailed);
      }
      var paid := ledger.ManagerSettle();
      if paid != x {
        return Err(SettlementMismatch);
      }
      ledger.ManagerTake(a.tokenOut, out);
      r := Ok(out);
    }

    // ---- the six actions ----

    method SwapV2(a: Action, x: nat) returns (r: Outcome<nat>)
      requires Clean() && 0 < x <= Bal(ledger.balance, a.tokenIn) && a.tokenIn != a.tokenOut
      modifies ledger`balance, this`pairs, ledger`sent
      ensures Filled(FillV2(ledger.market, a, x, old(pairs), old(ledger.history)), a, old(ledger.balance), r)
    {
      var _ :- Need(a.fee == 0 && a.pool != ZERO, InvalidAction);
      var _ :- Need(ledger.market.v2Pair(a.tokenIn, a.tokenOut) == a.pool, CanonicalPoolMismatch);
      var _ :- Need(a.pool in pairs, ExternalRevert);
      var zeroForOne := pairs[a.pool].token0 == a.tokenIn;
      var reserveIn := if zeroForOne then pairs[a.pool].reserve0 else pairs[a.pool].reserve1;
      var reserveOut := if zeroForOne then pairs[a.pool].reserve1 else pairs[a.pool].reserve0;
      var out := AmountOut(x, reserveIn, reserveOut);
      var _ :- Need(out != 0, InvalidSwapDelta);
      var moved := ledger.SafeTransfer(a.tokenIn, a.pool, x);
      if moved.Err? {
        return Err(TokenCallFailed);
      }
      var _ :- PairSwapCall(a.pool, a.tokenIn, if zeroForOne then 0 else out, if zeroForOne then out else 0);
      r := Ok(out);
    }

    method SwapV3(a: Action, x: nat) returns (r: Outcome<nat>)
      requires Clean() && 0 < x <= Bal(ledger.balance, a.tokenIn) && a.tokenIn != a.tokenOut
      modifies ledger`balance, ledger`history, ledger`sent, this`v3
      ensures Filled(FillV3(ledger.market, a, x, old(pairs), old(ledger.history)), a, old(ledger.balance), r)
    {
      var _ :- Need(a.pool != ZERO && a.fee != 0, InvalidAction);
      var _ :- Need(ledger.market.v3Pool(a.tokenIn, a.tokenOut, a.fee) == a.pool, CanonicalPoolMismatch);
      r := ExchangeV3(a, x);
    }

    /** The v3 context is set only while the pool is being called. */
    method ExchangeV3(a: Action, x: nat) returns (r: Outcome<nat>)
      requires Clean() && 0 < x <= Bal(ledger.balance, a.tokenIn) && a.tokenIn != a.tokenOut && a.pool != ZERO
      modifies ledger`balance, ledger`history, ledger`sent, this`v3
      ensures Filled(V3Venue(ledger.market, a.pool, a.tokenIn < a.tokenOut, a.tokenOut, x, old(pairs),
                             old(ledger.history)),
                     a, old(ledger.balance), r)
    {
      var zeroForOne := a.tokenIn < a.tokenOut;
      v3 := V3Context(a.pool, a.tokenIn, x, zeroForOne);
      var amounts :- PoolSwapCall(a.pool, a.tokenIn, a.tokenOut, zeroForOne, x);
      v3 := NO_V3_CONTEXT;
      r := ValidateV3Delta(amounts.0, amounts.1, zeroForOne, x);
    }

    method SwapV4(a: Action, x: nat) returns (r: Outcome<nat>)
      requires Running() && 0 < x <= Bal(ledger.balance, a.tokenIn) && a.tokenIn != a.tokenOut && x <= MAX_INT128
      modifies this`phase, ledger`unlocked, ledger`delta, ledger`synced, ledger`sent, ledger`balance, ledger`history
      ensures Filled(FillV4(ledger.market, a, x, old(pairs), old(ledger.history)), a, old(ledger.balance), r)
      ensures r.Ok? ==> phase == old(phase)
    {
      var _ :- Need(V4ActionOk(a), InvalidAction);
      var outerPhase := phase;
      phase := PHASE_V4_UNLOCK;
      var out :- ManagerUnlock(a, x, outerPhase);
      if phase != outerPhase {
        return Err(SettlementMismatch);
      }
      r := Ok(out);
    }

    method SwapEarn(a: Action, x: nat, deadline: nat) returns (r: Outcome<nat>)
      requires Clean() && 0 < x <= Bal(ledger.balance, a.tokenIn) && x <= MAX_INT128
      modifies ledger`balance, ledger`history, ledger`allowances, this`permit
      ensures Filled(FillEarn(ledger.market, a, x, deadline, old(pairs), old(ledger.history)), a, old(ledger.balance),
                     r)
    {
      var _ :- Need(a.pool != ZERO && a.fee == 0, InvalidAction);
      var tokens :- EarnPoolTokens(ledger.market, a.pool, ledger.history);
      var _ :- Need(a.tokenIn in tokens && a.tokenOut in tokens, CanonicalPoolMismatch);
      var approved := ApprovePermit2(a.tokenIn, x);
      if approved.Err? {
        return Err(InvalidAmount);
      }
      var paid :- RouterSwap(EarnSwapCall(a.pool, a.tokenIn, a.tokenOut, x, a.minimumAmountOut, deadline));
      RevokePermit2(a.tokenIn);
      r := Ok(paid);
    }

    /** The Earn router pulls its input through Permit2 and pays what it reports. */
    method RouterSwap(call: Call) returns (r: Outcome<nat>)
      requires call.EarnSwapCall? && call.amount <= Bal(ledger.balance, call.tokenIn)
      requires Bal(permit, call.tokenIn) == Bal(ledger.allowances.toPermit2, call.tokenIn) == call.amount
      modifies ledger`balance, ledger`history, ledger`allowances, this`permit
      ensures match ledger.market.earnSwap(old(ledger.history), call)
              case None => r == Err(ExternalRevert)
              case Some((pulled, paid)) =>
                if pulled > call.amount then r == Err(ExternalRevert)
                else
                  && r == Ok(paid)
                  && ledger.history == old(ledger.history) + [call]
                  && Debit(old(ledger.balance), call.tokenIn, pulled).Ok?
                  && ledger.balance == Credit(Debit(old(ledger.balance), call.tokenIn, pulled).value, call.tokenOut,
                                              paid)
                  && permit == Put(old(permit), call.tokenIn, call.amount - pulled)
                  && ledger.allowances == old(ledger.allowances).With(ToPermit2, call.tokenIn, call.amount - pulled)
    {
      match ledger.market.earnSwap(ledger.history, call)
      case None => return Err(ExternalRevert);
      case Some((pulled, paid)) =>
        var _ :- PermitSpend(call.tokenIn, pulled);
        ledger.balance := Credit(ledger.balance, call.tokenOut, paid);
        ledger.history := ledger.history + [call];
        r := Ok(paid);
    }

    method AddEarn(plan: Plan, baselines: seq<nat>, a: Action) returns (r: Outcome<nat>)
      requires |plan.trackedTokens| == |baselines| && Clean()
      modifies ledger`balance, ledger`history, ledger`allowances, this`permit
      ensures Did(UniversalNet.AddEarn(ledger.market, plan, baselines, a, old(World())), r)
    {
      var _ :- Need(a.pool != ZERO && a.pool == a.tokenOut && a.tokenIn == ZERO && a.amountIn == 0 && a.fee == 0,
                    InvalidAction);
      var tokens :- EarnPoolTokens(ledger.market, a.pool, ledger.history);
      r := Deposit(plan, baselines, a, tokens);
    }

    /** Approve, deposit and revoke. */
    method Deposit(plan: Plan, baselines: seq<nat>, a: Action, tokens: seq<Address>) returns (r: Outcome<nat>)
      requires |plan.trackedTokens| == |baselines| && Clean()
      modifies ledger`balance, ledger`history, ledger`allowances, this`permit
      ensures Did(DepositAll(ledger.market, plan, baselines, a, tokens, old(World())), r)
    {
      var amounts :- ApproveAll(plan, baselines, tokens);
      ApprovalsWithin(plan, baselines, ledger.balance, tokens);
      var paid :- RouterAdd(a.pool, tokens, amounts, a.minimumAmountOut);
      RevokeAll(tokens);
      r := Ok(paid);
    }

    /** The Earn router pulls its deposits and mints the pool shares it reports. */
    method RouterAdd(pool: Address, tokens: seq<Address>, amounts: seq<nat>, minimum: nat) returns (r: Outcome<nat>)
      requires |amounts| == |tokens| && PermitsOnly(tokens) && permit == ApprovalsFor(tokens, amounts)
      requires forall t: Address :: Bal(permit, t) <= Bal(ledger.balance, t)
      modifies ledger`balance, ledger`history, ledger`allowances, this`permit
      ensures match ledger.market.earnAdd(old(ledger.history), EarnAddCall(pool, amounts, minimum))
              case None => r == Err(ExternalRevert)
              case Some((pulls, paid)) =>
                if |pulls| != |tokens| then r == Err(ExternalRevert)
                else
                  match PullAll(old(ledger.balance), ApprovalsFor(tokens, amounts), tokens, pulls) {
                    case Err(e) => r == Err(e)
                    case Ok(b) =>
                      && r == Ok(paid) && ledger.balance == Credit(b, pool, paid)
                      && ledger.history == old(ledger.history) + [EarnAddCall(pool, amounts, minimum)]
                      && PermitsOnly(tokens)
                  }
    {
      var call := EarnAddCall(pool, amounts, minimum);
      match ledger.market.earnAdd(ledger.history, call)
      case None => return Err(ExternalRevert);
      case Some((pulls, paid)) =>
        if |pulls| != |tokens| {
          return Err(ExternalRevert);
        }
        var _ :- RouterPulls(tokens, pulls);
        ledger.balance := Credit(ledger.balance, pool, paid);
        ledger.history := ledger.history + [call];
        r := Ok(paid);
    }

    /** Approvals for a pool's tokens, each for all that is available of it. */
    method ApproveAll(plan: Plan, baselines: seq<nat>, tokens: seq<Address>) returns (r: Outcome<seq<nat>>)
      requires |plan.trackedTokens| == |baselines| && ledger.allowances == NO_ALLOWANCES && permit == map[]
      modifies ledger`allowances, this`permit
      ensures r == AvailableAll(plan, baselines, ledger.balance, tokens)
      ensures r.Ok? ==> PermitsOnly(tokens) && permit == ApprovalsFor(tokens, r.value)
    {
      var amounts := [];
      for i := 0 to |tokens|
        invariant AvailableAll(plan, baselines, ledger.balance, tokens[..i]) == Ok(amounts) && |amounts| == i
        invariant permit == ApprovalsFor(tokens[..i], amounts)
        invariant PermitsOnly(tokens[..i])
      {
        AvailableExtended(plan, baselines, ledger.balance, tokens, i);
        var available := AvailableAmount(plan, baselines, tokens[i], 0);
        if available.Err? {
          AvailablePrefixError(plan, baselines, ledger.balance, tokens, i + 1);
          return Err(available.error);
        }
        var approved := ApprovePermit2(tokens[i], available.value);
        if approved.Err? {
          return Err(InvalidAmount);
        }
        ApprovalsExtended(tokens, amounts, available.value, i);
        amounts := amounts + [available.value];
        assert tokens[..i + 1] == tokens[..i] + [tokens[i]];
      }
      assert tokens[..|tokens|] == tokens;
      r := Ok(amounts);
    }

    /** Only Permit2 holds approvals, for these tokens at most, and passes exactly those on. */
    predicate PermitsOnly(tokens: seq<Address>)
      reads ledger`allowances, this`permit
    {
      && ledger.allowances == Allowances(permit, map[], map[], map[])
      && (forall t :: t in permit ==> t in tokens)
    }

    /** The Earn router takes its deposits one by one. */
    method RouterPulls(tokens: seq<Address>, pulls: seq<nat>) returns (r: Outcome<()>)
      requires |tokens| == |pulls| && PermitsOnly(tokens)
      requires forall t: Address :: Bal(permit, t) <= Bal(ledger.balance, t)
      modifies ledger`balance, ledger`allowances, this`permit
      ensures match PullAll(old(ledger.balance), old(permit), tokens, pulls)
              case Err(e) => r == Err(e)
              case Ok(b) => r == Ok(()) && ledger.balance == b && PermitsOnly(tokens)
    {
      for i := 0 to |tokens|
        invariant PullAll(old(ledger.balance), old(permit), tokens, pulls)
                  == PullAll(ledger.balance, permit, tokens[i..], pulls[i..])
        invariant PermitsOnly(tokens)
        invariant forall t: Address :: Bal(permit, t) <= Bal(ledger.balance, t)
      {
        assert tokens[i..][1..] == tokens[i + 1..] && pulls[i..][1..] == pulls[i + 1..];
        ghost var before, permitBefore := ledger.balance, permit;
        var _ :- PermitSpend(tokens[i], pulls[i]);
        PutBal(permitBefore, tokens[i], Bal(permitBefore, tokens[i]) - pulls[i]);
        DebitBal(before, tokens[i], pulls[i]);
      }
      r := Ok(());
    }

    method RevokeAll(tokens: seq<Address>)
      requires PermitsOnly(tokens)
      modifies ledger`allowances, this`permit
      ensures ledger.allowances == NO_ALLOWANCES && permit == map[]
    {
      for i := 0 to |tokens|
        invariant PermitsOnly(tokens[i..])
      {
        assert tokens[i..] == [tokens[i]] + tokens[i + 1..];
        RevokePermit2(tokens[i]);
      }
    }

    method RemoveEarn(plan: Plan, a: Action, x: nat) returns (r: Outcome<nat>)
      requires Clean() && 0 < x <= Bal(ledger.balance, a.tokenIn)
      modifies ledger`balance, ledger`history, ledger`allowances
      ensures Did(UniversalNet.RemoveEarn(ledger.market, plan, a, x, old(World())), r)
    {
      var _ :- Need(a.pool != ZERO && a.pool == a.tokenIn && a.tokenOut == ZERO && a.fee == 0
                    && a.minimumAmountOut == 0, InvalidAction);
      var tokens :- EarnPoolTokens(ledger.market, a.pool, ledger.history);
      var _ :- RequireAllTracked(plan, tokens);
      var outputs :- ApproveAndRemove(a.pool, tokens, x);
      if |outputs| != |tokens| {
        return Err(SettlementMismatch);
      }
      r := SumOutputs(outputs);
    }

    /** The withdrawal between its approval and the revocation. */
    method ApproveAndRemove(pool: Address, tokens: seq<Address>, x: nat) returns (r: Outcome<seq<nat>>)
      requires ledger.allowances == NO_ALLOWANCES && x <= Bal(ledger.balance, pool)
      modifies ledger`balance, ledger`history, ledger`allowances
      ensures match ledger.market.earnRemove(old(ledger.history), EarnRemoveCall(pool, x))
              case None => r == Err(ExternalRevert)
              case Some((pulled, outputs)) =>
                if pulled > x then r == Err(ExternalRevert)
                else
                  && r == Ok(outputs)
                  && ledger.history == old(ledger.history) + [EarnRemoveCall(pool, x)]
                  && ledger.allowances == NO_ALLOWANCES
                  && Debit(old(ledger.balance), pool, pulled).Ok?
                  && (|outputs| == |tokens| ==>
                        ledger.balance == CreditAll(Debit(old(ledger.balance), pool, pulled).value, tokens, outputs))
    {
      ledger.ForceApprove(pool, ToEarnRouter, x);
      var outputs :- RouterRemove(pool, tokens, x);
      ledger.ForceApprove(pool, ToEarnRouter, 0);
      r := Ok(outputs);
    }

    method RequireAllTracked(plan: Plan, tokens: seq<Address>) returns (r: Outcome<()>)
      ensures r == Need(AllTracked(plan.trackedTokens, tokens), InvalidPlan)
    {
      for i := 0 to |tokens|
        invariant AllTracked(plan.trackedTokens, tokens[..i])
      {
        var tracked := RequireTrackedToken(plan, tokens[i]);
        if tracked.Err? {
          return Err(InvalidPlan);
        }
      }
      assert tokens[..|tokens|] == tokens;
      r := Ok(());
    }

    /** The Earn router takes pool shares within its allowance and pays the pool's tokens. */
    method RouterRemove(pool: Address, tokens: seq<Address>, x: nat) returns (r: Outcome<seq<nat>>)
      modifies ledger`balance, ledger`history, ledger`allowances
      requires Bal(ledger.allowances.toEarnRouter, pool) == x <= Bal(ledger.balance, pool)
      ensures match ledger.market.earnRemove(old(ledger.history), EarnRemoveCall(pool, x))
              case None => r == Err(ExternalRevert)
              case Some((pulled, outputs)) =>
                if pulled > x then r == Err(ExternalRevert)
                else
                  && r == Ok(outputs)
                  && ledger.history == old(ledger.history) + [EarnRemoveCall(pool, x)]
                  && ledger.allowances == old(ledger.allowances).With(ToEarnRouter, pool, x - pulled)
                  && Debit(old(ledger.balance), pool, pulled).Ok?
                  && (|outputs| == |tokens| ==>
                        ledger.balance == CreditAll(Debit(old(ledger.balance), pool, pulled).value, tokens, outputs))
    {
      var call := EarnRemoveCall(pool, x);
      match ledger.market.earnRemove(ledger.history, call)
      case None => return Err(ExternalRevert);
      case Some((pulled, outputs)) =>
        if pulled > Bal(ledger.allowances.toEarnRouter, pool) {
          return Err(ExternalRevert);
        }
        ledger.allowances := ledger.allowances.With(ToEarnRouter, pool, x - pulled);
        ledger.balance := ledger.balance[pool := Bal(ledger.balance, pool) - pulled];
        if |outputs| == |tokens| {
          ledger.balance := CreditAll(ledger.balance, tokens, outputs);
        }
        ledger.history := ledger.history + [call];
        r := Ok(outputs);
    }

    method SumOutputs(outputs: seq<nat>) returns (r: Outcome<nat>)
      ensures r == if Sum(outputs) > MAX_UINT256 then Err(Panic) else Ok(Sum(outputs))
    {
      var total := 0;
      for i := 0 to |outputs|
        invariant total == Sum(outputs[..i]) <= MAX_UINT256
      {
        assert outputs[..i + 1][..i] == outputs[..i];
        total := total + outputs[i];
        if total > MAX_UINT256 {
          SumPrefix(outputs, i + 1);
          return Err(Panic);
        }
      }
      assert outputs[..|outputs|] == outputs;
      r := Ok(total);
    }

    // ---- plans, baselines and the action loop ----

    method RequireTrackedToken(plan: Plan, token: Address) returns (r: Outcome<()>)
      ensures r == RequireTracked(plan.trackedTokens, token)
    {
      for i := 0 to |plan.trackedTokens|
        invariant forall j :: 0 <= j < i ==> plan.trackedTokens[j].token != token
      {
        if plan.trackedTokens[i].token == token {
          return Ok(());
        }
      }
      r := Err(InvalidPlan);
    }

    method BaselineOf(plan: Plan, baselines: seq<nat>, token: Address) returns (r: Outcome<nat>)
      requires |plan.trackedTokens| == |baselines|
      ensures r == BaselineFor(plan.trackedTokens, baselines, token)
    {
      for i := 0 to |baselines|
        invariant BaselineFor(plan.trackedTokens, baselines, token)
                  == BaselineFor(plan.trackedTokens[i..], baselines[i..], token)
      {
        if plan.trackedTokens[i].token == token {
          return Ok(baselines[i]);
        }
        assert plan.trackedTokens[i..][1..] == plan.trackedTokens[i + 1..] && baselines[i..][1..] == baselines[i + 1..];
      }
      r := Err(InvalidPlan);
    }

    method AvailableAmount(plan: Plan, baselines: seq<nat>, token: Address, requested: nat) returns (r: Outcome<nat>)
      requires |plan.trackedTokens| == |baselines|
      ensures r == Available(plan, baselines, ledger.balance, token, requested)
    {
      var held := Bal(ledger.balance, token);
      var baseline :- BaselineOf(plan, baselines, token);
      if held <= baseline {
        return Err(InsufficientPrincipal);
      }
      var available := held - baseline;
      var amount := if requested == 0 then available else requested;
      if amount == 0 || amount > available || amount > MAX_INT128 {
        return Err(InvalidAmount);
      }
      r := Ok(amount);
    }

    /** `_validatePlan`, in the contract's two loops. */
    method ValidatePlanCall(plan: Plan, now: nat) returns (r: Outcome<()>)
      ensures r == ValidatePlan(plan, now)
    {
      if plan.settlementToken == ZERO || plan.minimumProfit == 0 || now > plan.deadline
         || |plan.trackedTokens| == 0 || |plan.trackedTokens| > MAX_TRACKED_TOKENS
         || |plan.actions| == 0 || |plan.actions| > MAX_ACTIONS
      {
        return Err(InvalidPlan);
      }
      var tracked := plan.trackedTokens;
      var hasSettlement := false;
      for i := 0 to |tracked|
        invariant hasSettlement <==> IsTracked(tracked[..i], plan.settlementToken)
        invariant forall j :: 0 <= j < i ==> tracked[j].token != ZERO
        invariant forall j, k :: 0 <= j < k < i ==> tracked[j].token != tracked[k].token
      {
        var token := tracked[i].token;
        if token == ZERO {
          return Err(InvalidPlan);
        }
        assert tracked[..i + 1] == tracked[..i] + [tracked[i]];
        if token == plan.settlementToken {
          assert tracked[..i + 1][i].token == plan.settlementToken;
          hasSettlement := true;
        }
        for prior := 0 to i
          invariant forall j :: 0 <= j < prior ==> tracked[j].token != token
        {
          if tracked[prior].token == token {
            assert !DistinctTracked(tracked);
            return Err(InvalidPlan);
          }
        }
      }
      assert tracked[..|tracked|] == tracked;
      if !hasSettlement {
        return Err(InvalidPlan);
      }
      r := ValidateActionsCall(plan);
    }

    method ValidateActionsCall(plan: Plan) returns (r: Outcome<()>)
      ensures r == ValidateActions(plan, plan.actions)
    {
      for i := 0 to |plan.actions|
        invariant ValidateActions(plan, plan.actions) == ValidateActions(plan, plan.actions[i..])
      {
        assert plan.actions[i..][1..] == plan.actions[i + 1..];
        var a := plan.actions[i];
        if a.kind.EarnAddUnbalanced? || a.kind.EarnRemoveProportional? {
          var _ :- RequireTrackedToken(plan, a.pool);
        } else {
          if a.tokenIn == ZERO || a.tokenOut == ZERO || a.tokenIn == a.tokenOut {
            return Err(InvalidAction);
          }
          var _ :- RequireTrackedToken(plan, a.tokenIn);
          var _ :- RequireTrackedToken(plan, a.tokenOut);
        }
      }
      r := Ok(());
    }

    method SnapshotBaselines(plan: Plan, principal: nat) returns (r: Outcome<seq<nat>>)
      ensures r == Baselines(plan.trackedTokens, plan.settlementToken, principal, ledger.balance)
    {
      var taken: seq<nat> := [];
      PrependNone(Baselines(plan.trackedTokens, plan.settlementToken, principal, ledger.balance));
      for i := 0 to |plan.trackedTokens|
        invariant Baselines(plan.trackedTokens, plan.settlementToken, principal, ledger.balance)
                  == Prepend(taken, Baselines(plan.trackedTokens[i..], plan.settlementToken, principal, ledger.balance))
      {
        assert plan.trackedTokens[i..][1..] == plan.trackedTokens[i + 1..];
        var token := plan.trackedTokens[i].token;
        var held := Bal(ledger.balance, token);
        if token == plan.settlementToken {
          if held < principal {
            return Err(InsufficientPrincipal);
          }
          held := held - principal;
        }
        PrependOne(taken, held,
                   Baselines(plan.trackedTokens[i + 1..], plan.settlementToken, principal, ledger.balance));
        taken := taken + [held];
      }
      assert taken + [] == taken;
      r := Ok(taken);
    }

    method ValidateResiduals(plan: Plan, baselines: seq<nat>) returns (r: Outcome<()>)
      requires |plan.trackedTokens| == |baselines|
      ensures r == Need(ResidualsOk(plan, baselines, ledger.balance), SettlementMismatch)
    {
      for i := 0 to |baselines|
        invariant forall j :: 0 <= j < i ==>
                    plan.trackedTokens[j].token == plan.settlementToken
                    || Bal(ledger.balance, plan.trackedTokens[j].token)
                       <= baselines[j] + plan.trackedTokens[j].maximumResidual
      {
        var tracked := plan.trackedTokens[i];
        if tracked.token != plan.settlementToken {
          var current := Bal(ledger.balance, tracked.token);
          if current > baselines[i] && current - baselines[i] > tracked.maximumResidual {
            return Err(SettlementMismatch);
          }
        }
      }
      r := Ok(());
    }

    /** One swap of any kind. */
    method PerformSwap(plan: Plan, a: Action, x: nat) returns (r: Outcome<nat>)
      requires IsSwap(a.kind) && Running() && 0 < x <= Bal(ledger.balance, a.tokenIn) && x <= MAX_INT128
      requires a.tokenIn != a.tokenOut
      modifies this, ledger
      ensures Did(Swap(ledger.market, plan, a, x, old(World())), r)
      ensures r.Ok? ==> phase == old(phase)
    {
      match a.kind
      case UniswapV2Swap => r := SwapV2(a, x);
      case UniswapV3Swap => r := SwapV3(a, x);
      case UniswapV4Swap => r := SwapV4(a, x);
      case EarnSwap => r := SwapEarn(a, x, plan.deadline);
    }

    /** The step-by-step action loop leaves the net result, the same phase and nothing else. */
    predicate Ran(spec: Outcome<World>, phaseBefore: nat, r: Outcome<()>)
      reads this, ledger
    {
      match spec
      case Ok(w) => r == Ok(()) && World() == w && Clean() && phase == phaseBefore
      case Err(e) => r == Err(e)
    }

    method PerformAction(plan: Plan, baselines: seq<nat>, a: Action) returns (r: Outcome<()>)
      requires |plan.trackedTokens| == |baselines| && Running() && ValidateAction(plan, a).Ok?
      modifies this, ledger
      ensures Ran(RunAction(ledger.market, plan, baselines, a, old(World())), old(phase), r)
    {
      var beforeOut := if a.tokenOut == ZERO then 0 else Bal(ledger.balance, a.tokenOut);
      var out :- Dispatch(plan, baselines, a);
      if a.tokenOut != ZERO {
        var afterOut := Bal(ledger.balance, a.tokenOut);
        if afterOut < beforeOut || afterOut - beforeOut != out || out < a.minimumAmountOut {
          return Err(SettlementMismatch);
        }
      }
      r := Ok(());
    }

    method Dispatch(plan: Plan, baselines: seq<nat>, a: Action) returns (r: Outcome<nat>)
      requires |plan.trackedTokens| == |baselines| && Running() && ValidateAction(plan, a).Ok?
      modifies this, ledger
      ensures Did(StepOf(ledger.market, plan, baselines, a, old(World())), r)
      ensures r.Ok? ==> phase == old(phase)
    {
      var x := 0;
      if !a.kind.EarnAddUnbalanced? {
        x :- AvailableAmount(plan, baselines, a.tokenIn, a.amountIn);
      }
      match a.kind {
        case EarnAddUnbalanced => r := AddEarn(plan, baselines, a);
        case EarnRemoveProportional => r := RemoveEarn(plan, a, x);
        case _ => r := PerformSwap(plan, a, x);
      }
    }

    method RunAll(plan: Plan, baselines: seq<nat>) returns (r: Outcome<()>)
      requires |plan.trackedTokens| == |baselines| && Running() && ValidateActions(plan, plan.actions).Ok?
      modifies this, ledger
      ensures Ran(RunActions(ledger.market, plan, baselines, plan.actions, old(World())), old(phase), r)
    {
      for i := 0 to |plan.actions|
        invariant Ran(RunActions(ledger.market, plan, baselines, plan.actions[..i], old(World())), old(phase), Ok(()))
      {
        ValidActionAt(plan, plan.actions, i);
        RunExtended(ledger.market, plan, baselines, plan.actions, old(World()), World(), i);
        var done := PerformAction(plan, baselines, plan.actions[i]);
        if done.Err? {
          RunPrefixError(ledger.market, plan, baselines, plan.actions, old(World()), i + 1);
          return done;
        }
      }
      assert plan.actions[..|plan.actions|] == plan.actions;
      r := Ok(());
    }

    method FinishRun(plan: Plan, baselines: seq<nat>, principal: nat) returns (r: Outcome<nat>)
      requires |plan.trackedTokens| == |baselines|
      ensures r == Finish(plan, baselines, principal, ledger.balance)
    {
      var _ :- ValidateResiduals(plan, baselines);
      var current := Bal(ledger.balance, plan.settlementToken);
      var baseline :- BaselineOf(plan, baselines, plan.settlementToken);
      var required := baseline + principal;
      if current < required {
        return Err(ProfitTooLow(0, plan.minimumProfit));
      }
      var profit := current - required;
      if profit < plan.minimumProfit {
        return Err(ProfitTooLow(profit, plan.minimumProfit));
      }
      r := Ok(profit);
    }

    // ---- entry points: a revert restores everything the call had changed ----

    /** What a transaction can change. */
    function Snapshot(): Storage
      reads this, ledger
    {
      Storage(ledger.Snapshot(), pairs, permit, phase, v3)
    }

    method Restore(s: Storage)
      modifies this, ledger
      ensures Snapshot() == s
    {
      ledger.Restore(s.accounts);
      pairs, permit, phase, v3 := s.pairs, s.permit, s.phase, s.v3;
    }

    /** What a caller observes: the net receipt and a clean executor, or the net error and no change. */
    predicate Answers(spec: Outcome<Receipt>, before: Storage, r: Outcome<nat>)
      reads this, ledger
    {
      match spec
      case Ok(receipt) => r == Ok(receipt.grossProfit) && World() == receipt.world && AtRest()
      case Err(e) => r == Err(e) && Snapshot() == before
    }

    method ExecuteWithInventory(sender: Address, plan: Plan, principal: nat, now: nat) returns (r: Outcome<nat>)
      requires phase == 0 ==> Clean()
      modifies this, ledger
      ensures sender != operator ==> Answers(Err(NotOperator), old(Snapshot()), r)
      ensures sender == operator && old(phase) != 0 ==> Answers(Err(Reentered), old(Snapshot()), r)
      ensures sender == operator && old(phase) == 0 ==>
                Answers(UniversalNet.ExecuteWithInventory(ledger.market, plan, principal, now, old(World())),
                        old(Snapshot()), r)
    {
      if sender != operator {
        return Err(NotOperator);
      }
      if phase != 0 {
        return Err(Reentered);
      }
      var before := Snapshot();
      r := InventoryBody(plan, principal, now);
      if r.Err? {
        Restore(before);
      }
    }

    method InventoryBody(plan: Plan, principal: nat, now: nat) returns (r: Outcome<nat>)
      requires AtRest()
      modifies this, ledger
      ensures match UniversalNet.ExecuteWithInventory(ledger.market, plan, principal, now, old(World()))
              case Ok(receipt) => r == Ok(receipt.grossProfit) && World() == receipt.world && AtRest()
              case Err(e) => r == Err(e)
    {
      var _ :- ValidatePlanCall(plan, now);
      var baselines :- SnapshotBaselines(plan, principal);
      BaselinesLength(plan.trackedTokens, plan.settlementToken, principal, ledger.balance);
      phase := PHASE_INVENTORY;
      var _ :- RunAll(plan, baselines);
      var profit :- FinishRun(plan, baselines, principal);
      phase := 0;
      r := Ok(profit);
    }

    method ExecuteWithFlash(sender: Address, plan: Plan, principal: nat, now: nat) returns (r: Outcome<nat>)
      requires phase == 0 ==> Clean()
      modifies this, ledger
      ensures sender != operator ==> Answers(Err(NotOperator), old(Snapshot()), r)
      ensures sender == operator && old(phase) != 0 ==> Answers(Err(Reentered), old(Snapshot()), r)
      ensures sender == operator && old(phase) == 0 ==>
                Answers(UniversalNet.ExecuteWithFlash(ledger.market, plan, principal, now, old(World())),
                        old(Snapshot()), r)
    {
      if sender != operator {
        return Err(NotOperator);
      }
      if phase != 0 {
        return Err(Reentered);
      }
      var before := Snapshot();
      r := FlashBody(plan, principal, now);
      if r.Err? {
        Restore(before);
      }
    }

    /** Validate, snapshot, enter the phase and borrow: what a flash run and a quote share. */
    method Borrow(plan: Plan, principal: nat, now: nat, quote: bool) returns (end: LoanEnd)
      requires AtRest()
      modifies this, ledger
      ensures end.Reports? ==> quote
      ensures end.Repay? ==> !quote
      ensures LoanAnswers(BorrowAndRun(ledger.market, plan, principal, now, old(World())), plan, principal, quote, end)
    {
      var valid := ValidatePlanCall(plan, now);
      if valid.Err? {
        return Reverts(valid.error);
      }
      if principal == 0 {
        return Reverts(InvalidAmount);
      }
      var snapshot := SnapshotBaselines(plan, 0);
      if snapshot.Err? {
        return Reverts(snapshot.error);
      }
      BaselinesLength(plan.trackedTokens, plan.settlementToken, 0, ledger.balance);
      phase := if quote then PHASE_QUOTE else PHASE_FLASH;
      end := FlashLoan(plan, snapshot.value, principal, quote);
    }

    method FlashBody(plan: Plan, principal: nat, now: nat) returns (r: Outcome<nat>)
      requires AtRest()
      modifies this, ledger
      ensures match UniversalNet.ExecuteWithFlash(ledger.market, plan, principal, now, old(World()))
              case Ok(receipt) => r == Ok(receipt.grossProfit) && World() == receipt.world && AtRest()
              case Err(e) => r == Err(e)
    {
      var balanceBefore := Bal(ledger.balance, plan.settlementToken);
      ghost var loan := BorrowAndRun(ledger.market, plan, principal, now, World());
      if loan.Ok? {
        MarginIsGain(ledger.market, plan, principal, now, World());
      }
      var end := Borrow(plan, principal, now, false);
      match end
      case Reverts(e) => return Err(e);
      case Repay => r := SettleFlash(plan, principal, balanceBefore, loan);
    }

    /** What is left after the loan is repaid. The contract checks its profit a second time here; neither
        check can fail after the callback's. */
    method SettleFlash(plan: Plan, principal: nat, balanceBefore: nat, ghost loan: Outcome<(World, int)>)
      returns (r: Outcome<nat>)
      requires LoanAnswers(loan, plan, principal, false, Repay) && loan.Ok?
      requires Bal(loan.value.0.balance, plan.settlementToken) == balanceBefore + principal + loan.value.1
      modifies ledger`allowances, this`phase
      ensures RepayLoan(loan, plan, principal).Ok?
      ensures r == Ok(RepayLoan(loan, plan, principal).value.grossProfit)
      ensures World() == RepayLoan(loan, plan, principal).value.world && AtRest()
    {
      ledger.ForceApprove(plan.settlementToken, ToMorpho, 0);
      phase := 0;
      var balanceAfter := Bal(ledger.balance, plan.settlementToken);
      if balanceAfter < balanceBefore {
        assert false;
      }
      var profit := balanceAfter - balanceBefore;
      if profit < plan.minimumProfit {
        assert false;
      }
      r := Ok(profit);
    }

    /** Always reverts, so nothing ever changes; what it says is the quote. */
    method QuoteWithFlash(plan: Plan, principal: nat, now: nat) returns (q: Quote)
      requires phase == 0 ==> Clean()
      modifies this, ledger
      ensures Snapshot() == old(Snapshot())
      ensures q == if old(phase) != 0 then Failed(Reentered)
                   else UniversalNet.QuoteWithFlash(ledger.market, plan, principal, now, old(World()))
    {
      if phase != 0 {
        return Failed(Reentered);
      }
      var before := Snapshot();
      q := QuoteBody(plan, principal, now);
      Restore(before);
    }

    method QuoteBody(plan: Plan, principal: nat, now: nat) returns (q: Quote)
      requires AtRest()
      modifies this, ledger
      ensures q == UniversalNet.QuoteWithFlash(ledger.market, plan, principal, now, old(World()))
    {
      var end := Borrow(plan, principal, now, true);
      match end
      case Reverts(e) => return Failed(e);
      case Reports(d) => return Reported(d);
    }

    /** Morpho lends, calls back once and pulls the loan back. */
    method FlashLoan(plan: Plan, baselines: seq<nat>, assets: nat, quote: bool) returns (end: LoanEnd)
      requires |plan.trackedTokens| == |baselines| && Clean() && ValidateActions(plan, plan.actions).Ok?
      requires phase == if quote then PHASE_QUOTE else PHASE_FLASH
      modifies this, ledger
      ensures end.Reports? ==> quote
      ensures end.Repay? ==> !quote
      ensures LoanAnswers(LoanSpec(ledger.market, plan, baselines, assets, old(World())), plan, assets, quote, end)
    {
      if assets > ledger.market.loanLiquidity(plan.settlementToken) {
        return Reverts(ExternalRevert);
      }
      ledger.balance := Credit(ledger.balance, plan.settlementToken, assets);
      end := OnMorphoFlashLoan(MORPHO, assets, plan, baselines, assets, quote);
      if end.Repay? {
        var repaid := MorphoPull(plan.settlementToken, assets);
        if !repaid {
          end := Reverts(ExternalRevert);
        }
      }
    }

    method MorphoPull(token: Address, assets: nat) returns (repaid: bool)
      modifies ledger`balance, ledger`allowances
      ensures repaid
              <==> assets <= Bal(old(ledger.allowances).toMorpho, token) && assets <= Bal(old(ledger.balance), token)
      ensures repaid ==>
                && Debit(old(ledger.balance), token, assets) == Ok(ledger.balance)
                && ledger.allowances
                   == old(ledger.allowances).With(ToMorpho, token, Bal(old(ledger.allowances).toMorpho, token) - assets)
    {
      repaid := assets <= Bal(ledger.allowances.toMorpho, token) && assets <= Bal(ledger.balance, token);
      if repaid {
        ledger.allowances := ledger.allowances.With(ToMorpho, token, Bal(ledger.allowances.toMorpho, token) - assets);
        ledger.balance := ledger.balance[token := Bal(ledger.balance, token) - assets];
      }
    }

    /** How the loan ends, given what the run on it computes. */
    predicate LoanAnswers(spec: Outcome<(World, int)>, plan: Plan, assets: nat, quote: bool, end: LoanEnd)
      reads this, ledger
    {
      match spec
      case Err(e) => end == Reverts(e)
      case Ok((after, margin)) =>
        if quote then
          end == if margin > MAX_INT256 || -margin > MAX_INT256 then Reverts(InvalidAmount) else Reports(margin)
        else if margin < plan.minimumProfit then
          end == Reverts(Shortfall(plan, after, margin))
        else
          && end == Repay
          && Debit(after.balance, plan.settlementToken, assets) == Ok(ledger.balance)
          && pairs == after.pairs && ledger.history == after.history && Clean()
    }

    method OnMorphoFlashLoan(sender: Address, assets: nat, plan: Plan, baselines: seq<nat>, expectedAssets: nat,
                             quote: bool)
      returns (end: LoanEnd)
      requires |plan.trackedTokens| == |baselines|
      requires sender == MORPHO && (phase == PHASE_FLASH || phase == PHASE_QUOTE) ==>
                 Clean() && ValidateActions(plan, plan.actions).Ok?
      modifies this, ledger
      ensures sender != MORPHO || (old(phase) != PHASE_FLASH && old(phase) != PHASE_QUOTE)
              || assets != expectedAssets || quote != (old(phase) == PHASE_QUOTE)
              ==> end == Reverts(UnauthorizedCallback) && unchanged(this, ledger)
      ensures sender == MORPHO && (old(phase) == PHASE_FLASH || old(phase) == PHASE_QUOTE)
              && assets == expectedAssets && quote == (old(phase) == PHASE_QUOTE) ==>
                match RunOnLoan(ledger.market, plan, baselines, assets, old(World()))
                case Err(e) => end == Reverts(e)
                case Ok((after, margin)) =>
                  if quote then
                    end == if margin > MAX_INT256 || -margin > MAX_INT256 then Reverts(InvalidAmount)
                           else Reports(margin)
                  else if margin < plan.minimumProfit then
                    end == Reverts(Shortfall(plan, after, margin))
                  else
                    && end == Repay
                    && World() == after && phase == old(phase)
                    && ledger.allowances == NO_ALLOWANCES.With(ToMorpho, plan.settlementToken, assets)
                    && permit == map[] && v3 == NO_V3_CONTEXT && ledger.Quiet()
    {
      if sender != MORPHO || (phase != PHASE_FLASH && phase != PHASE_QUOTE) {
        return Reverts(UnauthorizedCallback);
      }
      if assets != expectedAssets || quote != (phase == PHASE_QUOTE) {
        return Reverts(UnauthorizedCallback);
      }
      var required := RunForLoan(plan, baselines, assets);
      if required.Err? {
        return Reverts(required.error);
      }
      end := MeasureLoan(plan, Bal(ledger.balance, plan.settlementToken), required.value, quote);
      if end == Repay {
        ledger.ForceApprove(plan.settlementToken, ToMorpho, assets);
      }
    }

    /** The actions and the residual check on borrowed funds, and the balance the repayment requires. */
    method RunForLoan(plan: Plan, baselines: seq<nat>, assets: nat) returns (r: Outcome<nat>)
      requires |plan.trackedTokens| == |baselines| && Running() && ValidateActions(plan, plan.actions).Ok?
      modifies this, ledger
      ensures match RunOnLoan(ledger.market, plan, baselines, assets, old(World()))
              case Err(e) => r == Err(e)
              case Ok((after, margin)) =>
                && r.Ok? && Bal(after.balance, plan.settlementToken) - r.value == margin
                && World() == after && Clean() && phase == old(phase)
    {
      var _ :- RunAll(plan, baselines);
      var _ :- ValidateResiduals(plan, baselines);
      var baseline :- BaselineOf(plan, baselines, plan.settlementToken);
      r := Ok(baseline + assets);
    }

    /** What the settlement balance, against what is required, makes of the loan. */
    method MeasureLoan(plan: Plan, current: nat, required: nat, quote: bool) returns (end: LoanEnd)
      ensures var margin := current - required;
              end == if quote then
                       if margin > MAX_INT256 || -margin > MAX_INT256 then Reverts(InvalidAmount) else Reports(margin)
                     else if margin >= plan.minimumProfit then Repay
                     else if required + plan.minimumProfit > MAX_UINT256 then Reverts(Panic)
                     else Reverts(ProfitTooLow(if margin > 0 then margin else 0, plan.minimumProfit))
    {
      if quote {
        if current >= required {
          end := if current - required > MAX_INT256 then Reverts(InvalidAmount) else Reports(current - required);
        } else {
          end := if required - current > MAX_INT256 then Reverts(InvalidAmount) else Reports(current - required);
        }
        return;
      }
      if current < required + plan.minimumProfit {
        if required + plan.minimumProfit > MAX_UINT256 {
          return Reverts(Panic);
        }
        return Reverts(ProfitTooLow(if current > required then current - required else 0, plan.minimumProfit));
      }
      end := Repay;
    }

    /** The operator can only move tokens out between runs, and never to the zero address. */
    method Withdraw(sender: Address, token: Address, amount: nat, to: Address) returns (r: Outcome<()>)
      modifies ledger`balance, ledger`sent
      ensures sender != operator ==> r == Err(NotOperator)
      ensures sender == operator && (phase != 0 || to == ZERO) ==> r == Err(Reentered)
      ensures sender == operator && phase == 0 && to != ZERO ==>
                match Debit(old(ledger.balance), token, amount)
                case Ok(b) => r == Ok(()) && ledger.balance == b
                case Err(e) => r == Err(e)
      ensures r.Err? ==> ledger.balance == old(ledger.balance) && ledger.sent == old(ledger.sent)
    {
      if sender != operator {
        return Err(NotOperator);
      }
      if phase != 0 || to == ZERO {
        return Err(Reentered);
      }
      if amount > Bal(ledger.balance, token) {
        return Err(TokenCallFailed);
      }
      ledger.balance := ledger.balance[token := Bal(ledger.balance, token) - amount];
      r := Ok(());
    }
  }
}
