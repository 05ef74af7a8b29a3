// The chain as the wallet sees it: blocks that may hold one of its transactions, a tip that may be reorganised,
// and a prefix that may not.
module WalletChain {
  import opened Evm
  import opened AuditLog

  /** `gross` is the profit of a success; a reverted transaction has none. */
  datatype Receipt = Receipt(raw: Raw, gross: Option<nat>)

  datatype Block = Block(time: nat, receipt: Option<Receipt>)

  type Blocks = seq<Block>

  /** Blocks before `final` are never reorganised away. */
  datatype Chain = Chain(blocks: Blocks, final: nat)

  datatype Setup = Setup(seedUsdg: nat, seedWeth: nat, firstNonce: nat, finality: nat) {
    function Seed(lane: Lane): nat { if lane == UsdgLane then seedUsdg else seedWeth }
  }

  /** An execution as a ledger records it. */
  datatype Entry = Entry(hash: Hash, gross: nat)

  function Mined(blocks: Blocks): nat {
    if blocks == [] then 0 else Mined(blocks[..|blocks| - 1]) + if blocks[|blocks| - 1].receipt.Some? then 1 else 0
  }

  /** The wallet's next nonce. */
  function NonceAt(setup: Setup, blocks: Blocks): nat { setup.firstNonce + Mined(blocks) }

  /** An executor's base balance: its seed, moved by the gross profit of every execution in the lane. */
  function Balance(setup: Setup, blocks: Blocks, lane: Lane): nat {
    if blocks == [] then setup.Seed(lane)
    else Balance(setup, blocks[..|blocks| - 1], lane) + GrossIn(blocks[|blocks| - 1], lane)
  }

  function GrossIn(block: Block, lane: Lane): nat {
    if SucceedsIn(block, lane) then block.receipt.value.gross.value else 0
  }

  predicate SucceedsIn(block: Block, lane: Lane) {
    block.receipt.Some? && block.receipt.value.gross.Some? && block.receipt.value.raw.lane == lane
  }

  /** The lane's executions in the order they were mined. */
  function Successes(blocks: Blocks, lane: Lane): (r: seq<Entry>) {
    if blocks == [] then []
    else Successes(blocks[..|blocks| - 1], lane) + SuccessOf(blocks[|blocks| - 1], lane)
  }

  function SuccessOf(block: Block, lane: Lane): seq<Entry> {
    if SucceedsIn(block, lane) then [Entry(Keccak(block.receipt.value.raw), block.receipt.value.gross.value)] else []
  }

  function SumGross(entries: seq<Entry>): nat {
    if entries == [] then 0 else SumGross(entries[..|entries| - 1]) + entries[|entries| - 1].gross
  }

  lemma SumSnoc(entries: seq<Entry>, e: Entry)
    ensures SumGross(entries + [e]) == SumGross(entries) + e.gross
  {
    assert (entries + [e])[..|entries|] == entries;
  }

  lemma {:induction false} BalanceIsSum(setup: Setup, blocks: Blocks, lane: Lane)
    ensures Balance(setup, blocks, lane) == setup.Seed(lane) + SumGross(Successes(blocks, lane))
  {
    if blocks != [] {
      var n := |blocks| - 1;
      BalanceIsSum(setup, blocks[..n], lane);
      if SucceedsIn(blocks[n], lane) {
        SumSnoc(Successes(blocks[..n], lane), SuccessOf(blocks[n], lane)[0]);
      } else {
        assert Successes(blocks[..n], lane) + [] == Successes(blocks[..n], lane);
      }
    }
  }

  // ---- how the chain may move ----

  function Clock(c: Chain): nat
    requires c.blocks != []
  {
    c.blocks[|c.blocks| - 1].time
  }

  /** A transaction can be mined on top of `before` if someone broadcast it, its nonce is next, and, for a
      success, the contract's deadline has not passed. */
  predicate Minable(setup: Setup, before: Blocks, block: Block, sent: set<Raw>) {
    block.receipt.Some? ==>
      var receipt := block.receipt.value;
      && receipt.raw in sent
      && receipt.raw.nonce == NonceAt(setup, before)
      && (receipt.gross.Some? ==> block.time <= receipt.raw.deadline)
  }

  ghost predicate ChainOk(setup: Setup, c: Chain, sent: set<Raw>) {
    && 0 < setup.finality && c.blocks != []
    && c.final <= |c.blocks| < c.final + setup.finality
    && (forall i :: 0 <= i < |c.blocks| ==> Minable(setup, c.blocks[..i], c.blocks[i], sent))
    && (forall i, j :: 0 <= i <= j < |c.blocks| ==> c.blocks[i].time <= c.blocks[j].time)
  }

  /** The next block replaces everything from height `keep` on; it is not older than anything seen before. */
  datatype Move = Move(keep: nat, block: Block)

  predicate MayMove(setup: Setup, c: Chain, sent: set<Raw>, move: Move) {
    && c.final <= move.keep <= |c.blocks| && 0 < |c.blocks|
    && Clock(c) <= move.block.time
    && Minable(setup, c.blocks[..move.keep], move.block, sent)
  }

  function Moved(setup: Setup, c: Chain, move: Move): (r: Chain)
    requires move.keep <= |c.blocks| && 0 < setup.finality
    ensures |r.blocks| == move.keep + 1 && r.blocks[..move.keep] == c.blocks[..move.keep]
  {
    var blocks := c.blocks[..move.keep] + [move.block];
    Chain(blocks, if |blocks| + 1 > c.final + setup.finality then |blocks| + 1 - setup.finality else c.final)
  }

  lemma MoveKeepsChain(setup: Setup, c: Chain, sent: set<Raw>, move: Move)
    requires ChainOk(setup, c, sent) && MayMove(setup, c, sent, move)
    ensures ChainOk(setup, Moved(setup, c, move), sent)
    ensures Clock(Moved(setup, c, move)) == move.block.time
  {
    var r := Moved(setup, c, move);
    forall i | 0 <= i < |r.blocks| ensures Minable(setup, r.blocks[..i], r.blocks[i], sent) {
      assert r.blocks[..i] == c.blocks[..i];
    }
  }

  /** More broadcasts only make more minable. */
  lemma SendKeepsChain(setup: Setup, c: Chain, sent: set<Raw>, raw: Raw)
    requires ChainOk(setup, c, sent)
    ensures ChainOk(setup, c, sent + {raw})
  {
    forall i | 0 <= i < |c.blocks| ensures Minable(setup, c.blocks[..i], c.blocks[i], sent + {raw}) {
      assert Minable(setup, c.blocks[..i], c.blocks[i], sent);
    }
  }

  // ---- what can no longer change ----

  predicate MinedAt(blocks: Blocks, i: nat, raw: Raw, gross: Option<nat>) {
    i < |blocks| && blocks[i].receipt == Some(Receipt(raw, gross))
  }

  /** Mined with this outcome in a block that stays. */
  predicate Settled(c: Chain, raw: Raw, gross: Option<nat>) {
    exists i :: 0 <= i < c.final && MinedAt(c.blocks, i, raw, gross)
  }

  predicate ExecutedAt(blocks: Blocks, i: nat, raw: Raw) {
    i < |blocks| && blocks[i].receipt.Some? && blocks[i].receipt.value.raw == raw && blocks[i].receipt.value.gross.Some?
  }

  /** Not executed, and too late to be executed. */
  predicate Dead(c: Chain, raw: Raw) {
    && c.blocks != [] && raw.deadline < Clock(c)
    && forall i :: 0 <= i < |c.blocks| ==> !ExecutedAt(c.blocks, i, raw)
  }

  lemma MoveKeepsSettled(setup: Setup, c: Chain, sent: set<Raw>, move: Move, raw: Raw, gross: Option<nat>)
    requires ChainOk(setup, c, sent) && MayMove(setup, c, sent, move) && Settled(c, raw, gross)
    ensures Settled(Moved(setup, c, move), raw, gross)
  {
    var i :| 0 <= i < c.final && MinedAt(c.blocks, i, raw, gross);
    var r := Moved(setup, c, move);
    assert r.blocks[i] == r.blocks[..move.keep][i] == c.blocks[i];
    assert MinedAt(r.blocks, i, raw, gross);
  }

  lemma MoveKeepsDead(setup: Setup, c: Chain, sent: set<Raw>, move: Move, raw: Raw)
    requires ChainOk(setup, c, sent) && MayMove(setup, c, sent, move) && Dead(c, raw)
    ensures Dead(Moved(setup, c, move), raw)
  {
    var r := Moved(setup, c, move);
    forall i | 0 <= i < |r.blocks| ensures !ExecutedAt(r.blocks, i, raw) {
      if i < move.keep {
        assert r.blocks[i] == r.blocks[..move.keep][i] == c.blocks[i];
        assert !ExecutedAt(c.blocks, i, raw);
      }
    }
  }

  lemma {:induction false} MinedGrows(blocks: Blocks, i: nat, j: nat)
    requires i <= j <= |blocks|
    ensures Mined(blocks[..i]) <= Mined(blocks[..j])
    ensures i < j && blocks[i].receipt.Some? ==> Mined(blocks[..i]) < Mined(blocks[..j])
  {
    if i < j {
      assert blocks[..j][..j - 1] == blocks[..j - 1];
      MinedGrows(blocks, i, j - 1);
    }
  }

  /** A transaction is mined at most once: its nonce is used up. */
  lemma MinedOnce(setup: Setup, c: Chain, sent: set<Raw>, i: nat, j: nat)
    requires ChainOk(setup, c, sent) && i < |c.blocks| && j < |c.blocks|
    requires c.blocks[i].receipt.Some? && c.blocks[j].receipt.Some?
    requires c.blocks[i].receipt.value.raw == c.blocks[j].receipt.value.raw
    ensures i == j
  {
    assert Minable(setup, c.blocks[..i], c.blocks[i], sent) && Minable(setup, c.blocks[..j], c.blocks[j], sent);
    if i < j {
      MinedGrows(c.blocks, i, j);
    } else {
      MinedGrows(c.blocks, j, i);
    }
  }

  lemma MinedUsesNonce(setup: Setup, c: Chain, sent: set<Raw>, i: nat, k: nat)
    requires ChainOk(setup, c, sent) && i < k <= |c.blocks| && c.blocks[i].receipt.Some?
    ensures c.blocks[i].receipt.value.raw.nonce < NonceAt(setup, c.blocks[..k])
  {
    assert Minable(setup, c.blocks[..i], c.blocks[i], sent);
    MinedGrows(c.blocks, i, k);
  }

  lemma SettledUsesNonce(setup: Setup, c: Chain, sent: set<Raw>, raw: Raw, gross: Option<nat>, k: nat)
    requires ChainOk(setup, c, sent) && Settled(c, raw, gross) && c.final <= k <= |c.blocks|
    ensures raw.nonce < NonceAt(setup, c.blocks[..k])
  {
    var i :| 0 <= i < c.final && MinedAt(c.blocks, i, raw, gross);
    assert Minable(setup, c.blocks[..i], c.blocks[i], sent);
    MinedGrows(c.blocks, i, k);
  }

  /** A longer chain's executions extend a shorter prefix's. */
  lemma {:induction false} SuccessesGrow(blocks: Blocks, lane: Lane, i: nat, j: nat)
    requires i <= j <= |blocks|
    ensures Successes(blocks[..i], lane) <= Successes(blocks[..j], lane)
  {
    if i < j {
      assert blocks[..j][..j - 1] == blocks[..j - 1];
      SuccessesGrow(blocks, lane, i, j - 1);
    }
  }

  lemma {:induction false} SuccessInChain(blocks: Blocks, lane: Lane, k: nat) returns (i: nat)
    requires k < |Successes(blocks, lane)|
    ensures i < |blocks| && SucceedsIn(blocks[i], lane)
    ensures Successes(blocks, lane)[k]
            == Entry(Keccak(blocks[i].receipt.value.raw), blocks[i].receipt.value.gross.value)
  {
    var n := |blocks| - 1;
    if k < |Successes(blocks[..n], lane)| {
      i := SuccessInChain(blocks[..n], lane, k);
    } else {
      i := n;
    }
  }

  lemma {:induction false} SuccessListed(blocks: Blocks, lane: Lane, i: nat)
    requires i < |blocks| && SucceedsIn(blocks[i], lane)
    ensures Entry(Keccak(blocks[i].receipt.value.raw), blocks[i].receipt.value.gross.value) in Successes(blocks, lane)
  {
    var n := |blocks| - 1;
    if i < n {
      SuccessListed(blocks[..n], lane, i);
    }
  }
}
