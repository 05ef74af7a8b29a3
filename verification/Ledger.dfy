// The token and PoolManager accounts of one executor, and the steps the contracts it calls take on them.
module Ledgers {
  import opened Evm
  import opened Market
  import opened DeltaPacking

  const POOL_MANAGER: Address := 0x8366a39CC670B4001A1121B8F6A443A643e40951

  /** Tokens a holder has been sent and not accounted for yet, keyed by (holder, token). */
  type Transfers = map<(Address, Address), nat>

  function Arrived(t: Transfers, holder: Address, token: Address): nat {
    if (holder, token) in t then t[(holder, token)] else 0
  }

  function Send(t: Transfers, holder: Address, token: Address, amount: nat): Transfers {
    t[(holder, token) := Arrived(t, holder, token) + amount]
  }

  /** The manager's account of what it owes (positive) or is owed, by currency; settled entries go. */
  type Deltas = map<Address, int>

  function Delta(d: Deltas, currency: Address): int {
    if currency in d then d[currency] else 0
  }

  function Account(d: Deltas, currency: Address, change: int): Deltas {
    if Delta(d, currency) + change == 0 then d - {currency} else d[currency := Delta(d, currency) + change]
  }

  /** A pool swap that takes all that is owed in one currency leaves what it pays in the other. */
  lemma SwapMovesDelta(tokenIn: Address, x: int, tokenOut: Address, out: int, key: PoolKey, amount0: int, amount1: int)
    requires x != 0 && out != 0 && tokenIn != tokenOut
    requires (key.currency0 == tokenIn && key.currency1 == tokenOut && amount0 == -x && amount1 == out)
             || (key.currency1 == tokenIn && key.currency0 == tokenOut && amount1 == -x && amount0 == out)
    ensures Account(Account(map[tokenIn := x], key.currency0, amount0), key.currency1, amount1) == map[tokenOut := out]
  {
  }

  /** Who an executor ever approves. */
  datatype Spender = ToPermit2 | ToEarnRouter | ToMorpho | ToV3Router

  datatype Allowances = Allowances(toPermit2: Balances, toEarnRouter: Balances, toMorpho: Balances,
                                   toV3Router: Balances) {
    function Of(spender: Spender): Balances {
      match spender
      case ToPermit2 => toPermit2
      case ToEarnRouter => toEarnRouter
      case ToMorpho => toMorpho
      case ToV3Router => toV3Router
    }

    function With(spender: Spender, token: Address, amount: nat): Allowances {
      match spender
      case ToPermit2 => this.(toPermit2 := Put(toPermit2, token, amount))
      case ToEarnRouter => this.(toEarnRouter := Put(toEarnRouter, token, amount))
      case ToMorpho => this.(toMorpho := Put(toMorpho, token, amount))
      case ToV3Router => this.(toV3Router := Put(toV3Router, token, amount))
    }
  }

  const NO_ALLOWANCES := Allowances(map[], map[], map[], map[])

  /** Everything a revert rolls back, apart from the executor's transient storage. */
  datatype Accounts = Accounts(
    balance: Balances,
    allowances: Allowances,
    sent: Transfers,
    history: History,
    unlocked: bool,
    delta: Deltas,
    synced: Option<Address>)

  class Ledger {
    const market: Market

    // The executor's tokens, what others may take of them, and tokens on their way to other holders.
    var balance: Balances
    var allowances: Allowances
    var sent: Transfers

    // The calls other contracts have served.
    var history: History

    // The PoolManager's account for the executor.
    var unlocked: bool
    var delta: Deltas
    var synced: Option<Address>

    constructor (market: Market, balance: Balances)
      ensures this.market == market
      ensures Snapshot() == Accounts(balance, NO_ALLOWANCES, map[], [], false, map[], None)
    {
      this.market, this.balance := market, balance;
      allowances, sent, history := NO_ALLOWANCES, map[], [];
      unlocked, delta, synced := false, map[], None;
    }

    function Snapshot(): Accounts
      reads this
    {
      Accounts(balance, allowances, sent, history, unlocked, delta, synced)
    }

    method Restore(a: Accounts)
      modifies this
      ensures Snapshot() == a
    {
      balance, allowances, sent, history := a.balance, a.allowances, a.sent, a.history;
      unlocked, delta, synced := a.unlocked, a.delta, a.synced;
    }

    /** Nothing owed, in flight or waiting to be settled. */
    predicate Quiet()
      reads this
    {
      !unlocked && delta == map[] && synced == None && sent == map[]
    }

    method SafeTransfer(token: Address, to: Address, amount: nat) returns (r: Outcome<()>)
      modifies this`balance, this`sent
      ensures match Debit(old(balance), token, amount)
              case Err(e) => r == Err(e) && balance == old(balance) && sent == old(sent)
              case Ok(b) => r == Ok(()) && balance == b && sent == Send(old(sent), to, token, amount)
    {
      var b :- Debit(balance, token, amount);
      balance := b;
      sent := Send(sent, to, token, amount);
      r := Ok(());
    }

    /** An ERC-20 approval; some tokens only let a zero allowance become non-zero. */
    method Approve(token: Address, spender: Spender, amount: nat) returns (success: bool)
      modifies this`allowances
      ensures success <==> !(market.approvesOnlyFromZero(token) && amount != 0
                             && Bal(old(allowances).Of(spender), token) != 0)
      ensures allowances == if success then old(allowances).With(spender, token, amount) else old(allowances)
    {
      success := !(market.approvesOnlyFromZero(token) && amount != 0 && Bal(allowances.Of(spender), token) != 0);
      if success {
        allowances := allowances.With(spender, token, amount);
      }
    }

    method ForceApprove(token: Address, spender: Spender, amount: nat)
      modifies this`allowances
      ensures allowances == old(allowances).With(spender, token, amount)
    {
      var done := Approve(token, spender, amount);
      if !done {
        var cleared := Approve(token, spender, 0);
        done := Approve(token, spender, amount);
        assert Put(Put(old(allowances).Of(spender), token, 0), token, amount)
               == Put(old(allowances).Of(spender), token, amount);
      }
    }

    method ManagerSync(currency: Address)
      modifies this`synced
      ensures synced == Some(currency)
    {
      synced := Some(currency);
    }

    /** Credits whatever of the synced currency has arrived. */
    method ManagerSettle() returns (paid: nat)
      requires synced.Some?
      modifies this`synced, this`delta, this`sent
      ensures paid == Arrived(old(sent), POOL_MANAGER, old(synced).value)
      ensures synced == None
      ensures delta == Account(old(delta), old(synced).value, paid)
      ensures sent == old(sent) - {(POOL_MANAGER, old(synced).value)}
    {
      var currency := synced.value;
      paid := Arrived(sent, POOL_MANAGER, currency);
      delta := Account(delta, currency, paid);
      sent := sent - {(POOL_MANAGER, currency)};
      synced := None;
    }

    /** An exact-input swap; the manager answers with the two amounts packed into one word. */
    method ManagerSwap(key: PoolKey, zeroForOne: bool, x: nat) returns (r: Outcome<int>)
      requires unlocked
      modifies this`delta, this`history
      ensures match market.v4Swap(old(history), V4Call(key, zeroForOne, x))
              case None => r == Err(ExternalRevert)
              case Some((amount0, amount1)) =>
                if !IsInt128(amount0) || !IsInt128(amount1) then r == Err(ExternalRevert)
                else
                  && r == Ok(Pack(amount0, amount1))
                  && history == old(history) + [V4Call(key, zeroForOne, x)]
                  && delta == Account(Account(old(delta), key.currency0, amount0), key.currency1, amount1)
    {
      var call := V4Call(key, zeroForOne, x);
      match market.v4Swap(history, call)
      case None => return Err(ExternalRevert);
      case Some((amount0, amount1)) =>
        if !IsInt128(amount0) || !IsInt128(amount1) {
          return Err(ExternalRevert);
        }
        delta := Account(Account(delta, key.currency0, amount0), key.currency1, amount1);
        history := history + [call];
        r := Ok(Pack(amount0, amount1));
    }

    method ManagerTake(currency: Address, amount: nat)
      modifies this`delta, this`balance
      ensures delta == Account(old(delta), currency, -(amount as int))
      ensures balance == Credit(old(balance), currency, amount)
    {
      delta := Account(delta, currency, -(amount as int));
      balance := Credit(balance, currency, amount);
    }

    method ManagerTakeFor(to: Address, currency: Address, amount: nat)
      modifies this`delta, this`sent
      ensures delta == Account(old(delta), currency, -(amount as int))
      ensures sent == Send(old(sent), to, currency, amount)
    {
      delta := Account(delta, currency, -(amount as int));
      sent := Send(sent, to, currency, amount);
    }
  }
}
