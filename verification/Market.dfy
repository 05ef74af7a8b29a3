// The contracts outside this repository, as far as the executors can tell: deterministic and stateful.
//
// A pool's state is whatever it can compute from the calls it has served, so the market is a family of
// functions from the history of calls so far to a response. Nothing limits how the responses depend on
// that history, or how calls to one pool influence another.
module Market {
  import opened Evm

  datatype PoolKey = PoolKey(currency0: Address, currency1: Address, fee: nat, tickSpacing: int, hooks: Address)

  /** A state-changing call that reached a pool or router. */
  datatype Call =
    | V3Call(v3Pool: Address, zeroForOne: bool, amount: nat)
    | V4Call(key: PoolKey, zeroForOne: bool, amount: nat)
    | RouterCall(path: seq<nat>, amount: nat)
    | EarnSwapCall(pool: Address, tokenIn: Address, tokenOut: Address, amount: nat, minimum: nat, deadline: nat)
    | EarnAddCall(pool: Address, amounts: seq<nat>, minimum: nat)
    | EarnRemoveCall(pool: Address, amount: nat)

  type History = seq<Call>

  datatype EarnPool = EarnPool(initialized: bool, paused: bool, inRecovery: bool, tokens: seq<Address>)

  /** `None` is a revert. Deltas are signed from the pool's side (v3) or the caller's side (v4). Routers
      report how much they pulled, which may be less than they were offered, and how much they paid. */
  datatype Market = Market(
    v2Pair: (Address, Address) -> Address,
    v3Pool: (Address, Address, nat) -> Address,
    v3Swap: (History, Call) -> Option<(int, int)>,
    v4Swap: (History, Call) -> Option<(int, int)>,
    routerExactInput: (History, Call) -> Option<(nat, nat)>,
    earnPool: (History, Address) -> EarnPool,
    earnSwap: (History, Call) -> Option<(nat, nat)>,
    earnAdd: (History, Call) -> Option<(seq<nat>, nat)>,
    earnRemove: (History, Call) -> Option<(nat, seq<nat>)>,
    approvesOnlyFromZero: Address -> bool,
    loanLiquidity: Address -> nat)

  /** A v3 router that always pulls exactly what it is offered. */
  ghost predicate RouterPullsAll(m: Market) {
    forall h: History, c: Call :: m.routerExactInput(h, c).Some? && c.RouterCall?
                                  ==> m.routerExactInput(h, c).value.0 == c.amount
  }
}
