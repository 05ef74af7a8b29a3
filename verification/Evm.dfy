// The machine the executors run on: word sizes, addresses, reverts and token balances.
module Evm {
  const MAX_UINT256: int := 0xFFFF_FFFF_FFFF_FFFF_FFFF_FFFF_FFFF_FFFF_FFFF_FFFF_FFFF_FFFF_FFFF_FFFF_FFFF_FFFF
  const MAX_INT256: int := 0x7FFF_FFFF_FFFF_FFFF_FFFF_FFFF_FFFF_FFFF_FFFF_FFFF_FFFF_FFFF_FFFF_FFFF_FFFF_FFFF
  const MAX_UINT160: int := 0xFFFF_FFFF_FFFF_FFFF_FFFF_FFFF_FFFF_FFFF_FFFF_FFFF
  const MAX_INT128: int := 0x7FFF_FFFF_FFFF_FFFF_FFFF_FFFF_FFFF_FFFF
  const MIN_INT128: int := -0x8000_0000_0000_0000_0000_0000_0000_0000
  const MAX_UINT112: int := 0xFFFF_FFFF_FFFF_FFFF_FFFF_FFFF_FFFF

  /** Addresses are compared numerically: pools order their two tokens by address. */
  type Address = a: int | 0 <= a <= MAX_UINT160

  const ZERO: Address := 0

  /** Why a call reverted. `ExternalRevert` stands for any revert raised by a contract outside this
      repository, `Panic` for a checked-arithmetic failure. */
  datatype Error =
    | NotOperator
    | Reentered
    | Expired
    | InvalidPlan
    | InvalidAction
    | InvalidAmount
    | ProfitFloorTooLow
    | InsufficientPrincipal
    | UnauthorizedCallback
    | CanonicalPoolMismatch
    | InvalidRoute
    | InvalidV3Path
    | MissingV3Pool
    | InvalidV4Pool
    | DuplicateV4Pool
    | InvalidSwapDelta
    | SettlementMismatch
    | ProfitTooLow(actual: nat, required: nat)
    | TokenCallFailed
    | ExternalRevert
    | Panic

  datatype Outcome<+T> = Ok(value: T) | Err(error: Error) {
    predicate IsFailure() { Err? }

    function PropagateFailure<U>(): Outcome<U>
      requires Err?
    {
      Err(error)
    }

    function Extract(): T
      requires Ok?
    {
      value
    }
  }

  datatype Option<+T> = None | Some(value: T)

  function Need(condition: bool, error: Error): Outcome<()> {
    if condition then Ok(()) else Err(error)
  }

  /** One account's token balances (or allowances); an absent key holds zero. */
  type Balances = map<Address, nat>

  function Bal(b: Balances, token: Address): nat {
    if token in b then b[token] else 0
  }

  /** Set an entry; zero entries are not kept, so an account with nothing in it is the empty map. */
  function Put(b: Balances, token: Address, amount: nat): Balances {
    if amount == 0 then b - {token} else b[token := amount]
  }

  lemma PutBal(b: Balances, token: Address, amount: nat)
    ensures forall t: Address :: Bal(Put(b, token, amount), t) == if t == token then amount else Bal(b, t)
  {
  }

  function Credit(b: Balances, token: Address, amount: nat): Balances {
    b[token := Bal(b, token) + amount]
  }

  function Debit(b: Balances, token: Address, amount: nat): Outcome<Balances> {
    if amount <= Bal(b, token) then Ok(b[token := Bal(b, token) - amount]) else Err(TokenCallFailed)
  }

  lemma CreditBal(b: Balances, token: Address, amount: nat)
    ensures forall t: Address :: Bal(Credit(b, token, amount), t) == Bal(b, t) + if t == token then amount else 0
  {
  }

  lemma DebitBal(b: Balances, token: Address, amount: nat)
    requires Debit(b, token, amount).Ok?
    ensures forall t: Address :: Bal(Debit(b, token, amount).value, t) == Bal(b, t) - if t == token then amount else 0
  {
  }

  ghost predicate SameBalances(b: Balances, c: Balances) {
    forall t: Address :: Bal(b, t) == Bal(c, t)
  }
}
